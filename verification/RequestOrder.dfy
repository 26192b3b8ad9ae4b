/** What one end asks for is what the other end takes up, in the same order. */
module RequestOrder {
  import opened Bags
  import opened Wire
  import opened Protocol
  import opened Handling
  import opened Exchange
  import opened AnyPeer
  import opened Connections

  datatype Ask = Ask(id: Option<ID>, methodName: string, params: string)

  /** The requests among the messages. */
  function Coming(messages: seq<Message>): seq<Ask> {
    if messages == [] then []
    else
      var m := messages[|messages| - 1];
      Coming(messages[..|messages| - 1]) + (if m.methodName != "" then [Ask(m.id, m.methodName, m.params)] else [])
  }

  function Taken(requests: seq<Request>): seq<Ask> {
    seq(|requests|, k requires 0 <= k < |requests| =>
      Ask(requests[k].id, requests[k].methodName, requests[k].params))
  }

  /** What a step asks for: a notification, or a call that is carried to the peer; one with
      an empty method name is no request. */
  function AskedBy(c: Conn, a: Action): seq<Ask>
    requires Enabled(c, a)
  {
    match a
    case Notify(methodName, params) => if methodName != "" then [Ask(None, methodName, params)] else []
    case WriteCall(id, _, carried) =>
      var call := c.calls[id];
      if carried && call.methodName != "" then [Ask(Some(id), call.methodName, call.params)] else []
    case _ => []
  }

  /** All that a connection has asked for. */
  function Asked(n: nat, es: seq<Event>): seq<Ask>
    requires Play(n, es).Some?
  {
    if es == [] then []
    else
      var front, e := es[..|es| - 1], es[|es| - 1];
      Asked(n, front) + (if e.Acts? then AskedBy(Play(n, front).value.c, e.a) else [])
  }

  lemma {:induction false} ComingConcat(a: seq<Message>, b: seq<Message>)
    ensures Coming(a + b) == Coming(a) + Coming(b)
  {
    if b == [] {
      assert a + b == a;
    } else {
      assert (a + b)[..|a + b| - 1] == a + b[..|b| - 1];
      ComingConcat(a, b[..|b| - 1]);
    }
  }

  lemma ComingOne(m: Message)
    ensures Coming([m]) == if m.methodName != "" then [Ask(m.id, m.methodName, m.params)] else []
  {
    assert [m][..0] == [];
  }

  lemma OutputAsks(c: Conn, a: Action)
    requires Served(c) && Enabled(c, a)
    ensures Coming(Output(c, a)) == AskedBy(c, a)
  {
    if Output(c, a) != [] {
      ComingOne(Output(c, a)[0]);
      assert Output(c, a) == [Output(c, a)[0]];
    }
  }

  lemma ReadTakes(c: Conn)
    requires Enabled(c, Read)
    ensures Taken(Act(c, Read).requests) + Coming(Act(c, Read).inbox) == Taken(c.requests) + Coming(c.inbox)
  {
    var m, rest := c.inbox[0], c.inbox[1..];
    ReadStep(c);
    assert Coming(c.inbox) == Coming([m]) + Coming(rest) by {
      assert c.inbox == [m] + rest;
      ComingConcat([m], rest);
    }
    assert Taken(Act(c, Read).requests) == Taken(c.requests) + Coming([m]) by {
      ComingOne(m);
    }
  }

  lemma ReadStep(c: Conn)
    requires Enabled(c, Read)
    ensures Act(c, Read).inbox == c.inbox[1..]
    ensures Act(c, Read).requests == c.requests + if c.inbox[0].methodName != "" then [NewRequest(c.inbox[0])] else []
  {
    assert c.requests + [] == c.requests;
  }

  /** Requests that have only moved on. */
  lemma SameTaken(rs: seq<Request>, rs': seq<Request>)
    requires |rs'| == |rs| && forall k :: 0 <= k < |rs| ==> Evolves(rs[k], rs'[k])
    ensures Taken(rs') == Taken(rs)
  {
  }

  lemma SameInbox(c: Conn, a: Action)
    requires Enabled(c, a) && !a.Read?
    ensures Act(c, a).inbox == c.inbox && |Act(c, a).requests| == |c.requests|
  {
  }

  /** No step of a connection changes what it has taken up and what is still to come. */
  lemma ActTakes(c: Conn, a: Action)
    requires Served(c) && Enabled(c, a)
    ensures Taken(Act(c, a).requests) + Coming(Act(c, a).inbox) == Taken(c.requests) + Coming(c.inbox)
  {
    if a.Read? {
      ReadTakes(c);
    } else {
      ServedKept(c, a);
      SameInbox(c, a);
      SameTaken(c.requests, Act(c, a).requests);
    }
  }

  ghost predicate InOrder(h: History, asked: seq<Ask>) {
    && Served(h.c)
    && Taken(h.c.requests) + Coming(h.c.inbox) == Coming(h.got)
    && Coming(h.sent) == asked
  }

  lemma ArrivalInOrder(h: History, m: Message, asked: seq<Ask>)
    requires InOrder(h, asked)
    ensures InOrder(After(h, Arrives(m)), asked)
  {
    ComingConcat(h.got, [m]);
    ComingConcat(h.c.inbox, [m]);
  }

  lemma ActionInOrder(h: History, a: Action, asked: seq<Ask>)
    requires InOrder(h, asked) && Enabled(h.c, a)
    ensures InOrder(After(h, Acts(a)), asked + AskedBy(h.c, a))
  {
    ServedKept(h.c, a);
    ActTakes(h.c, a);
    OutputAsks(h.c, a);
    ComingConcat(h.sent, Output(h.c, a));
  }

  lemma {:induction false} AllInOrder(n: nat, es: seq<Event>)
    requires Play(n, es).Some?
    ensures InOrder(Play(n, es).value, Asked(n, es))
  {
    if es != [] {
      var front, e := es[..|es| - 1], es[|es| - 1];
      AllInOrder(n, front);
      var h := Play(n, front).value;
      if e.Arrives? {
        ArrivalInOrder(h, e.m, Asked(n, front));
        assert Asked(n, front) + [] == Asked(n, front);
      } else {
        ActionInOrder(h, e.a, Asked(n, front));
      }
    }
  }

  /** In every run the requests that an end has taken up, followed by those still on their
      way to it, are exactly what the other end has asked for, in that order. */
  lemma RequestsInOrder(trace: seq<Net>, i: nat, s: bool) returns (n: nat, es: seq<Event>)
    requires Run(trace) && i < |trace|
    ensures Play(n, es).Some? && Play(n, es).value.c == At(trace[i], s)
    ensures Taken(At(trace[i], !s).requests) + Coming(At(trace[i], !s).inbox) == Asked(n, es)
  {
    var l, ls, r, rs := EndsAlone(trace, i);
    AllInOrder(l, ls);
    AllInOrder(r, rs);
    n, es := if s then l else r, if s then ls else rs;
  }
}
