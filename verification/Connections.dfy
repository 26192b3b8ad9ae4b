/** The guarantees of two joined connections in every state of every run. */
module Connections {
  import opened Bags
  import opened Wire
  import opened Protocol
  import opened Handling
  import opened Exchange
  import opened AnyPeer

  /** handling maps exactly the calls being served to their requests. */
  ghost predicate HandlingOk(c: Conn) {
    && (forall id :: id in c.handling ==>
          && c.handling[id] < |c.requests|
          && c.requests[c.handling[id]].id == Some(id))
    && (forall k :: 0 <= k < |c.requests| && c.requests[k].id.Some? ==>
          var id := c.requests[k].id.value;
          if c.requests[k].phase.Ending? || c.requests[k].phase.Finished? then id !in c.handling
          else id in c.handling && c.handling[id] == k)
  }

  ghost predicate FoundOk(c: Conn, found: Found) {
    found.k < |c.requests| && c.requests[found.k].id == Some(found.id)
  }

  /** Each Cancel under way holds the request that has its id. */
  ghost predicate CancelsOk(c: Conn) { forall found :: found in c.cancels ==> FoundOk(c, found) }

  ghost predicate EndInv(c: Conn, p: Conn) {
    View(c, p) && Served(c) && HandlingOk(c) && CancelsOk(c)
  }

  ghost predicate Inv(net: Net) {
    EndInv(net.left, net.right) && EndInv(net.right, net.left)
  }

  /** No id is served twice. */
  lemma OneRequestPerCall(q: Conn, c: Conn, i: nat, j: nat)
    requires View(q, c) && i < j < |c.requests| && c.requests[i].id.Some?
    ensures c.requests[i].id != c.requests[j].id
  {
    var id := c.requests[i].id.value;
    assert Counted(q, c, id);
    BagContainsTwo(c.requests, i, j, id, RequestLabel);
  }

  lemma ArrivingIsNew(q: Conn, c: Conn, k: nat)
    requires View(q, c) && c.inbox != [] && RouteOf(c.inbox[0]).ToHandlers? && c.inbox[0].id.Some?
    requires k < |c.requests|
    ensures c.requests[k].id != c.inbox[0].id
  {
    var id := c.inbox[0].id.value;
    assert c.inbox[0] in c.inbox;
    assert Counted(q, c, id);
    BagContains(c.requests, k, id, RequestLabel);
    BagContains(c.inbox, 0, id, CallLabel);
  }

  ghost predicate DistinctIds(requests: seq<Request>) {
    forall i, j :: 0 <= i < j < |requests| && requests[i].id.Some? ==> requests[i].id != requests[j].id
  }

  lemma ServedOnce(q: Conn, c: Conn)
    requires View(q, c)
    ensures DistinctIds(c.requests)
  {
    forall i, j | 0 <= i < j < |c.requests| && c.requests[i].id.Some?
      ensures c.requests[i].id != c.requests[j].id
    {
      OneRequestPerCall(q, c, i, j);
    }
  }

  lemma HandlingAtRead(c: Conn, c': Conn, m: Message)
    requires HandlingOk(c) && m.methodName != ""
    requires m.id.Some? ==> forall k :: 0 <= k < |c.requests| ==> c.requests[k].id != m.id
    requires c'.requests == c.requests + [NewRequest(m)]
    requires c'.handling == if m.id.Some? then c.handling[m.id.value := |c.requests|] else c.handling
    ensures HandlingOk(c')
  {
  }

  /** A request moves on inside its handling phase, or leaves it. */
  lemma HandlingAtWork(c: Conn, c': Conn, k: nat, leaves: bool)
    requires HandlingOk(c) && DistinctIds(c.requests)
    requires k < |c.requests| && |c'.requests| == |c.requests| && c'.requests == c.requests[k := c'.requests[k]]
    requires c'.requests[k].id == c.requests[k].id
    requires var before, after := c.requests[k].phase, c'.requests[k].phase;
             if leaves then before.Unwinding? && after.Ending?
             else (before.Ending? || before.Finished? <==> after.Ending? || after.Finished?)
    requires c'.handling == if leaves && c.requests[k].id.Some? then c.handling - {c.requests[k].id.value} else c.handling
    ensures HandlingOk(c')
  {
  }

  lemma WorkPhases(c: Conn, a: Action)
    requires Served(c) && Enabled(c, a) && (IsWork(a) || a.WriteReply?)
    ensures var c' := Act(c, a);
            && Target(c, a).Some?
            && var k := Target(c, a).value;
            && k < |c.requests| && |c'.requests| == |c.requests| && c'.requests == c.requests[k := c'.requests[k]]
            && c'.requests[k].id == c.requests[k].id
            && (if a.Unwind? then c.requests[k].phase.Unwinding? && c'.requests[k].phase.Ending?
                else var before, after := c.requests[k].phase, c'.requests[k].phase;
                     (before.Ending? || before.Finished? <==> after.Ending? || after.Finished?))
            && c'.handling == (if a.Unwind? && c.requests[k].id.Some? then c.handling - {c.requests[k].id.value} else c.handling)
  {
    OnlyTarget(c, a);
    var k := Target(c, a).value;
    assert RequestOk(c.requests[k]);
  }

  lemma HandlingKept(q: Conn, c: Conn, a: Action)
    requires View(q, c) && Served(c) && HandlingOk(c) && Enabled(c, a)
    ensures HandlingOk(Act(c, a))
  {
    if IsWork(a) || a.WriteReply? {
      ServedOnce(q, c);
      WorkPhases(c, a);
      HandlingAtWork(c, Act(c, a), Target(c, a).value, a.Unwind?);
    } else if a.Read? && RouteOf(c.inbox[0]).ToHandlers? {
      if c.inbox[0].id.Some? {
        forall k | 0 <= k < |c.requests|
          ensures c.requests[k].id != c.inbox[0].id
        {
          ArrivingIsNew(q, c, k);
        }
      }
      HandlingAtRead(c, Act(c, a), c.inbox[0]);
    } else {
      OtherSteps(c, a);
    }
  }

  lemma OtherSteps(c: Conn, a: Action)
    requires HandlingOk(c) && Enabled(c, a) && !IsWork(a) && !a.WriteReply? && !(a.Read? && RouteOf(c.inbox[0]).ToHandlers?)
    ensures HandlingOk(Act(c, a))
  {
    var c' := Act(c, a);
    assert c'.requests == c.requests && c'.handling == c.handling;
  }

  lemma CancelsMove(c: Conn, a: Action)
    requires Enabled(c, a)
    ensures Act(c, a).cancels ==
            if a.LookUp? then c.cancels + [Found(a.id, c.handling[a.id])]
            else if a.CancelRequest? then c.cancels[..a.j] + c.cancels[a.j + 1..]
            else c.cancels
  {
  }

  lemma IdStays(c: Conn, a: Action, k: nat)
    requires Served(c) && Enabled(c, a) && k < |c.requests|
    ensures k < |Act(c, a).requests| && Act(c, a).requests[k].id == c.requests[k].id
  {
    ServedKept(c, a);
    assert Evolves(c.requests[k], Act(c, a).requests[k]);
  }

  lemma CancelsKept(c: Conn, a: Action)
    requires Served(c) && HandlingOk(c) && CancelsOk(c) && Enabled(c, a)
    ensures CancelsOk(Act(c, a))
  {
    CancelsMove(c, a);
    forall found | found in Act(c, a).cancels
      ensures FoundOk(Act(c, a), found)
    {
      assert found in c.cancels || (a.LookUp? && found == Found(a.id, c.handling[a.id]));
      assert FoundOk(c, found);
      IdStays(c, a, found.k);
    }
  }

  lemma StepKeepsServing(c: Conn, p: Conn, a: Action)
    requires EndInv(c, p) && EndInv(p, c) && Enabled(c, a)
    ensures Served(Act(c, a)) && HandlingOk(Act(c, a)) && CancelsOk(Act(c, a))
    ensures var p' := Deliver(p, Output(c, a)); Served(p') && HandlingOk(p') && CancelsOk(p')
  {
    ServedKept(c, a);
    HandlingKept(p, c, a);
    CancelsKept(c, a);
    Delivered(p, Deliver(p, Output(c, a)));
  }

  /** What only arrives does not matter to what is being served. */
  lemma Delivered(p: Conn, p': Conn)
    requires Served(p) && HandlingOk(p) && CancelsOk(p)
    requires p'.requests == p.requests && p'.handling == p.handling && p'.cancels == p.cancels
    ensures Served(p') && HandlingOk(p') && CancelsOk(p')
  {
  }

  lemma StepKeepsInv(net: Net, st: Step)
    requires Inv(net) && Can(net, st)
    ensures Inv(Next(net, st))
  {
    var c, p := At(net, st.side), At(net, !st.side);
    StepKeepsViews(c, p, st.act);
    StepKeepsServing(c, p, st.act);
  }

  lemma InitInv(l: nat, r: nat)
    ensures Inv(Init(l, r))
  {
  }

  /** The invariant holds in every state of every run. */
  lemma {:induction false} EveryRun(trace: seq<Net>, i: nat)
    requires Run(trace) && i < |trace|
    ensures Inv(trace[i])
  {
    if i == 0 {
      var l: nat, r: nat :| trace[0] == Init(l, r);
      InitInv(l, r);
    } else {
      EveryRun(trace, i - 1);
      assert Follows(trace[i - 1], trace[i]);
      var st :| Can(trace[i - 1], st) && trace[i] == Next(trace[i - 1], st);
      StepKeepsInv(trace[i - 1], st);
    }
  }

  // ---------- what a run guarantees ----------

  /** A call that got a response got the reply to its own request: the peer served
      exactly one request with the call's id, method and parameters, answered it
      exactly once, and the caller gets that answer: the result or the error that the
      handler gave, and method not found if no handler has claimed the call. */
  lemma ReplyIntegrity(trace: seq<Net>, i: nat, s: bool, id: ID) returns (k: nat)
    requires Run(trace) && i < |trace|
    requires id in At(trace[i], s).calls && GotResponse(At(trace[i], s).calls[id])
    ensures var call, peer := At(trace[i], s).calls[id], At(trace[i], !s);
            && k < |peer.requests|
            && peer.requests[k].id == Some(id)
            && peer.requests[k].methodName == call.methodName && peer.requests[k].params == call.params
            && |peer.requests[k].answers| == 1
            && (forall j :: 0 <= j < |peer.requests| && peer.requests[j].id == Some(id) ==> j == k)
    ensures var call, a := At(trace[i], s).calls[id], At(trace[i], !s).requests[k].answers[0];
            var got := OutcomeOf(EndOf(call.pc).value.response);
            && (match a.err
                case NoError => if a.result.Some? then got == Value(a.result.value) else got.Failure?
                case Coded(None) => got == Value("null")
                case Coded(Some(e)) => got == Failure(e)
                case Plain(text) => got == Failure(RpcError(0, text)))
            && (a.author.Default? ==>
                  got == Failure(RpcError(-32601, "method \"" + call.methodName + "\" not found")))
            && (a.author.Fallback? ==>
                  got == Failure(RpcError(-32603, "method \"" + call.methodName + "\" did not reply")))
  {
    EveryRun(trace, i);
    var c, p := At(trace[i], s), At(trace[i], !s);
    var m := EndOf(c.calls[id].pc).value.response;
    assert ReplyOf(p.requests, id, m);
    k :| 0 <= k < |p.requests| && Answers(p.requests[k], id, m);
    AnswerArrives(p.requests[k].id, p.requests[k].answers[0]);
    assert RequestOk(p.requests[k]);
    forall j | 0 <= j < |p.requests| && p.requests[j].id == Some(id)
      ensures j == k
    {
      if j != k {
        OneRequestPerCall(c, p, if j < k then j else k, if j < k then k else j);
      }
    }
  }

  /** Two connections on their own that get what the other has sent. */
  ghost predicate Joined(l: nat, es: seq<Event>, r: nat, fs: seq<Event>) {
    && Play(l, es).Some? && Play(r, fs).Some?
    && Play(l, es).value.got == Play(r, fs).value.sent
    && Play(r, fs).value.got == Play(l, es).value.sent
  }

  /** Each end of a run is a connection on its own, and gets what the other has sent. */
  lemma {:induction false} EndsAlone(trace: seq<Net>, i: nat)
    returns (l: nat, es: seq<Event>, r: nat, fs: seq<Event>)
    requires Run(trace) && i < |trace|
    ensures Joined(l, es, r, fs)
    ensures Play(l, es).value.c == trace[i].left && Play(r, fs).value.c == trace[i].right
  {
    if i == 0 {
      l, r :| trace[0] == Init(l, r);
      es, fs := [], [];
    } else {
      l, es, r, fs := EndsAlone(trace, i - 1);
      assert Follows(trace[i - 1], trace[i]);
      var st :| Can(trace[i - 1], st) && trace[i] == Next(trace[i - 1], st);
      es, fs := StepJoined(trace[i - 1], st, l, es, r, fs);
    }
  }

  lemma StepJoined(net: Net, st: Step, l: nat, es: seq<Event>, r: nat, fs: seq<Event>)
    returns (es': seq<Event>, fs': seq<Event>)
    requires Can(net, st) && Joined(l, es, r, fs)
    requires Play(l, es).value.c == net.left && Play(r, fs).value.c == net.right
    ensures Joined(l, es', r, fs')
    ensures Play(l, es').value.c == Next(net, st).left && Play(r, fs').value.c == Next(net, st).right
  {
    if st.side {
      es', fs' := StepAlone(l, es, r, fs, st.act);
    } else {
      fs', es' := StepAlone(r, fs, l, es, st.act);
    }
  }

  /** A step of one end is an arrival of its output at the other. */
  lemma StepAlone(n: nat, es: seq<Event>, m: nat, fs: seq<Event>, a: Action) returns (es': seq<Event>, fs': seq<Event>)
    requires Joined(n, es, m, fs) && Enabled(Play(n, es).value.c, a)
    ensures Joined(n, es', m, fs')
    ensures Play(n, es').value.c == Act(Play(n, es).value.c, a)
    ensures Play(m, fs').value.c == Deliver(Play(m, fs).value.c, Output(Play(n, es).value.c, a))
  {
    var h, g := Play(n, es).value, Play(m, fs).value;
    var out := Output(h.c, a);
    PlayOn(n, es, Acts(a));
    es', fs' := es + [Acts(a)], fs;
    if out == [] {
      SameOutput(g.c);
      assert h.sent + [] == h.sent;
    } else {
      assert out == [out[0]];
      PlayOn(m, fs, Arrives(out[0]));
      fs' := fs + [Arrives(out[0])];
    }
  }

  /** Two of these connections discharge each other's need of a peer that answers once:
      pending holds exactly the calls between registration and return, and the reader
      never blocks on a call's channel, cancelled or not. */
  lemma ReaderNeverBlocks(trace: seq<Net>, i: nat, s: bool)
    requires Run(trace) && i < |trace|
    ensures var c := At(trace[i], s);
            && PendingExact(c)
            && (c.reader.Sending? ==> Enabled(c, Send))
  {
    EveryRun(trace, i);
    var l, es, r, fs := EndsAlone(trace, i);
    if s {
      PeersNeverBlock(l, es, r, fs);
    } else {
      PeersNeverBlock(r, fs, l, es);
    }
  }

  lemma LookUpTarget(c: Conn, id: ID, k: nat)
    requires HandlingOk(c) && k < |c.requests| && c.requests[k].id == Some(id)
    ensures var can := !(c.requests[k].phase.Ending? || c.requests[k].phase.Finished?);
            && (Enabled(c, LookUp(id)) <==> can)
            && (can ==> Act(c, LookUp(id)).cancels == c.cancels + [Found(id, k)])
  {
  }

  /** Cancel finds the request it names exactly as long as its handlers may be at work. */
  lemma CancelFindsItsRequest(trace: seq<Net>, i: nat, s: bool, id: ID, k: nat)
    requires Run(trace) && i < |trace| && k < |At(trace[i], s).requests|
    requires At(trace[i], s).requests[k].id == Some(id)
    ensures var c := At(trace[i], s);
            var can := !(c.requests[k].phase.Ending? || c.requests[k].phase.Finished?);
            && (Enabled(c, LookUp(id)) <==> can)
            && (can ==> Act(c, LookUp(id)).cancels == c.cancels + [Found(id, k)])
  {
    EveryRun(trace, i);
    LookUpTarget(At(trace[i], s), id, k);
  }

  /** Whenever a Cancel under way goes on, whatever has happened since it found its
      request, it can, and it cancels the one request of its id and no other. */
  lemma CancelHitsItsRequest(trace: seq<Net>, i: nat, s: bool, j: nat) returns (k: nat)
    requires Run(trace) && i < |trace| && j < |At(trace[i], s).cancels|
    ensures var c := At(trace[i], s);
            var id := c.cancels[j].id;
            && k < |c.requests| && c.requests[k].id == Some(id)
            && (forall m :: 0 <= m < |c.requests| && c.requests[m].id == Some(id) ==> m == k)
            && Enabled(c, CancelRequest(j))
            && Act(c, CancelRequest(j)).requests == c.requests[k := c.requests[k].(cancelled := true)]
  {
    EveryRun(trace, i);
    var c, p := At(trace[i], s), At(trace[i], !s);
    k := c.cancels[j].k;
    assert FoundOk(c, c.cancels[j]);
    ServedOnce(p, c);
  }

  /** The steps that carry existing work forward, without help from callers or
      handlers beyond a handler's returning. */
  predicate CarriesOn(a: Action) {
    a.WriteCall? || a.Receive? || a.LeaveCall? || a.Read? || a.Send? || a.Start? || a.HandlerReturn?
    || a.DefaultDeliver? || a.WriteReply? || a.Unwind? || a.End?
  }

  ghost predicate AtRest(c: Conn) {
    !c.reader.Stopped? && forall a :: CarriesOn(a) ==> !Enabled(c, a)
  }

  lemma {:induction false} RestFinishes(c: Conn, k: nat)
    requires Served(c) && AtRest(c) && k <= |c.requests|
    ensures forall i :: 0 <= i < k ==> c.requests[i].phase.Finished?
  {
    if k > 0 {
      RestFinishes(c, k - 1);
      if !c.requests[k - 1].phase.Finished? {
        assert CarriesOn(Onward(c, k - 1));
        ChainRuns(c, k - 1);
      }
    }
  }

  lemma RestIsIdle(c: Conn)
    requires AtRest(c) && (c.reader.Sending? ==> Enabled(c, Send))
    ensures c.inbox == [] && c.reader.Reading?
    ensures forall id :: id in c.calls ==>
              !c.calls[id].pc.Registered? && !c.calls[id].pc.Leaving? && (c.calls[id].pc.Awaiting? ==> id !in c.slots)
  {
    assert !Enabled(c, Send) && !Enabled(c, Read);
    forall id | id in c.calls
      ensures !c.calls[id].pc.Registered? && !c.calls[id].pc.Leaving? && (c.calls[id].pc.Awaiting? ==> id !in c.slots)
    {
      assert !Enabled(c, WriteCall(id, true, true)) && !Enabled(c, LeaveCall(id)) && !Enabled(c, Receive(id));
    }
  }

  lemma {:induction false} NothingOpen(requests: seq<Request>)
    requires forall k :: 0 <= k < |requests| ==> RequestOk(requests[k]) && requests[k].phase.Finished?
    ensures Bag(requests, OpenLabel) == multiset{}
  {
    if requests != [] {
      assert RequestOk(requests[0]);
      NothingOpen(requests[1..]);
    }
  }

  /** No reply is ever forgotten. When both ends have come to rest, every request
      has been served, and the only calls still waiting are those with an empty
      method name, which the peer cannot tell from a response, and those whose
      reply could not be written. */
  lemma NoReplyForgotten(trace: seq<Net>, i: nat, s: bool)
    requires Run(trace) && i < |trace| && AtRest(trace[i].left) && AtRest(trace[i].right)
    ensures var c, p := At(trace[i], s), At(trace[i], !s);
            && (forall k :: 0 <= k < |c.requests| ==> c.requests[k].phase.Finished?)
            && c.handling == map[]
            && forall id :: id in c.calls ==>
                 || c.calls[id].pc.Returned?
                 || (c.calls[id].pc.Awaiting? && (c.calls[id].methodName == "" || id in p.lost))
  {
    EveryRun(trace, i);
    var c, p := At(trace[i], s), At(trace[i], !s);
    ReaderNeverBlocks(trace, i, s);
    ReaderNeverBlocks(trace, i, !s);
    RestIsIdle(c);
    RestIsIdle(p);
    RestFinishes(c, |c.requests|);
    RestFinishes(p, |p.requests|);
    NothingOpen(p.requests);
    forall id | id in c.calls && !c.calls[id].pc.Returned?
      ensures c.calls[id].pc.Awaiting? && (c.calls[id].methodName == "" || id in p.lost)
    {
      assert Counted(c, p, id);
      assert Places(c, p, id) == 0;
    }
  }

  /** The converse: such a call never gets a response. */
  lemma EmptyMethodNeverAnswered(trace: seq<Net>, i: nat, s: bool, id: ID)
    requires Run(trace) && i < |trace| && id in At(trace[i], s).calls
    requires At(trace[i], s).calls[id].methodName == ""
    ensures !GotResponse(At(trace[i], s).calls[id])
  {
    if GotResponse(At(trace[i], s).calls[id]) {
      var k := ReplyIntegrity(trace, i, s, id);
      EveryRun(trace, i);
    }
  }
}
