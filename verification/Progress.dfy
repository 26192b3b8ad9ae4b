/** Work on a connection pair runs out: a measure of the work left that every
    step carrying work forward makes smaller. With NoReplyForgotten this says that
    a finite batch of calls is answered after finitely many steps. */
module Progress {
  import opened Bags
  import opened Wire
  import opened Protocol
  import opened Handling
  import opened Exchange
  import opened Connections

  /** h is the number of handlers of the connection that serves the request. */
  function RequestWork(h: nat, r: Request): nat {
    (match r.phase
     case Blocked => h + 4
     case Delivering(left) => left + 3
     case Unwinding => 2
     case Ending => 1
     case Finished => 0)
    + (if r.id.Some? && (r.state != Replied || r.writing) then 3 else 0)
  }

  function MessageWork(h: nat, m: Message): nat {
    match RouteOf(m) case ToHandlers => h + 8 case ToCaller => 2 case Ignored => 1
  }

  function RequestsWork(h: nat, requests: seq<Request>): nat {
    if requests == [] then 0 else RequestWork(h, requests[0]) + RequestsWork(h, requests[1..])
  }

  function InboxWork(h: nat, inbox: seq<Message>): nat {
    if inbox == [] then 0 else MessageWork(h, inbox[0]) + InboxWork(h, inbox[1..])
  }

  lemma {:induction false} InboxSnoc(h: nat, inbox: seq<Message>, m: Message)
    ensures InboxWork(h, inbox + [m]) == InboxWork(h, inbox) + MessageWork(h, m)
  {
    if inbox == [] {
      assert inbox + [m] == [m] && [m][1..] == [];
    } else {
      assert (inbox + [m])[1..] == inbox[1..] + [m];
      InboxSnoc(h, inbox[1..], m);
    }
  }

  lemma {:induction false} RequestsSnoc(h: nat, requests: seq<Request>, r: Request)
    ensures RequestsWork(h, requests + [r]) == RequestsWork(h, requests) + RequestWork(h, r)
  {
    if requests == [] {
      assert requests + [r] == [r] && [r][1..] == [];
    } else {
      assert (requests + [r])[1..] == requests[1..] + [r];
      RequestsSnoc(h, requests[1..], r);
    }
  }

  lemma {:induction false} RequestsUpdate(h: nat, requests: seq<Request>, k: nat, r: Request)
    requires k < |requests|
    ensures RequestsWork(h, requests[k := r]) + RequestWork(h, requests[k]) == RequestsWork(h, requests) + RequestWork(h, r)
  {
    if k == 0 {
      assert requests[k := r][1..] == requests[1..];
    } else {
      assert requests[k := r][1..] == requests[1..][k - 1 := r];
      RequestsUpdate(h, requests[1..], k - 1, r);
    }
  }

  function RegisteredCalls(calls: map<ID, Call>): set<ID> { set id | id in calls && calls[id].pc.Registered? }
  function AwaitingCalls(calls: map<ID, Call>): set<ID> { set id | id in calls && calls[id].pc.Awaiting? }
  function LeavingCalls(calls: map<ID, Call>): set<ID> { set id | id in calls && calls[id].pc.Leaving? }

  function CallsWork(h: nat, calls: map<ID, Call>): nat {
    (h + 11) * |RegisteredCalls(calls)| + 2 * |AwaitingCalls(calls)| + |LeavingCalls(calls)|
  }

  function CallWork(h: nat, pc: CallPc): nat {
    match pc case Registered => h + 11 case Awaiting => 2 case Leaving(_) => 1 case Returned(_) => 0
  }

  lemma SwapOne<T>(before: set<T>, after: set<T>, x: T)
    requires before - {x} == after - {x}
    ensures |after| - |before| == (if x in after then 1 else 0) - (if x in before then 1 else 0)
  {
    assert |before - {x}| == |before| - (if x in before then 1 else 0);
    assert |after - {x}| == |after| - (if x in after then 1 else 0);
  }

  /** Moving one call changes the sum by the difference of the two program points. */
  lemma CallsUpdate(h: nat, calls: map<ID, Call>, calls': map<ID, Call>, id: ID)
    requires id in calls && id in calls' && calls' == calls[id := calls'[id]]
    ensures CallsWork(h, calls') + CallWork(h, calls[id].pc) == CallsWork(h, calls) + CallWork(h, calls'[id].pc)
  {
    SwapOne(RegisteredCalls(calls), RegisteredCalls(calls'), id);
    SwapOne(AwaitingCalls(calls), AwaitingCalls(calls'), id);
    SwapOne(LeavingCalls(calls), LeavingCalls(calls'), id);
    var n, n' := |RegisteredCalls(calls)|, |RegisteredCalls(calls')|;
    assert (h + 11) * n' - (h + 11) * n == (h + 11) * (n' - n);
  }

  function EndWork(c: Conn, peerHandlers: nat): nat {
    CallsWork(peerHandlers, c.calls) + InboxWork(c.handlers, c.inbox)
    + (if c.reader.Sending? then 1 else 0) + RequestsWork(c.handlers, c.requests)
  }

  function Work(net: Net): nat {
    EndWork(net.left, net.right.handlers) + EndWork(net.right, net.left.handlers)
  }

  /** Calls and notifications are the only steps that bring new work. */
  predicate BringsWork(a: Action) { a.NewCall? || a.Notify? }

  lemma OneMessage(h: nat, m: Message)
    ensures InboxWork(h, [m]) == MessageWork(h, m)
  {
    assert [m][1..] == [];
  }

  lemma TargetWork(c: Conn, a: Action, k: nat)
    requires Enabled(c, a) && IsWork(a) && Target(c, a) == Some(k) && k < |c.requests| && RequestOk(c.requests[k])
    ensures k < |Act(c, a).requests|
    ensures var w, w' := RequestWork(c.handlers, c.requests[k]), RequestWork(c.handlers, Act(c, a).requests[k]);
            w' <= w && (CarriesOn(a) ==> w' < w)
  {
  }

  lemma RequestStepWork(c: Conn, a: Action, h: nat)
    requires Enabled(c, a) && Served(c) && IsWork(a)
    ensures EndWork(Act(c, a), h) + InboxWork(h, Output(c, a)) <= EndWork(c, h)
    ensures CarriesOn(a) ==> EndWork(Act(c, a), h) + InboxWork(h, Output(c, a)) < EndWork(c, h)
  {
    WorkFrame(c, a);
    var k := Target(c, a).value;
    TargetWork(c, a, k);
    RequestsUpdate(c.handlers, c.requests, k, Act(c, a).requests[k]);
  }

  lemma ReplyStepWork(c: Conn, a: Action, h: nat)
    requires Enabled(c, a) && Served(c) && a.WriteReply?
    ensures EndWork(Act(c, a), h) + InboxWork(h, Output(c, a)) < EndWork(c, h)
  {
    var r := c.requests[a.k];
    assert RequestOk(r);
    ResponseShape(r.id, r.answers[|r.answers| - 1]);
    RequestsUpdate(c.handlers, c.requests, a.k, r.(writing := false));
    OneMessage(h, WireResponse(r));
  }

  lemma CallStepWork(c: Conn, a: Action, h: nat)
    requires Enabled(c, a) && (a.WriteCall? || a.Receive? || a.CancelCall? || a.LeaveCall?)
    ensures EndWork(Act(c, a), h) + InboxWork(h, Output(c, a)) < EndWork(c, h)
  {
    CallsUpdate(h, c.calls, Act(c, a).calls, a.id);
    if a.WriteCall? && a.carried {
      OneMessage(h, Output(c, a)[0]);
    }
  }

  lemma ReaderStepWork(c: Conn, a: Action, h: nat)
    requires Enabled(c, a) && (a.Read? || a.Send? || a.StopReader?)
    ensures EndWork(Act(c, a), h) + InboxWork(h, Output(c, a)) <= EndWork(c, h)
    ensures CarriesOn(a) ==> EndWork(Act(c, a), h) + InboxWork(h, Output(c, a)) < EndWork(c, h)
  {
    if a.Read? {
      RequestsSnoc(c.handlers, c.requests, NewRequest(c.inbox[0]));
    }
  }

  lemma {:induction false} InboxConcat(h: nat, inbox: seq<Message>, out: seq<Message>)
    ensures InboxWork(h, inbox + out) == InboxWork(h, inbox) + InboxWork(h, out)
  {
    if out == [] {
      assert inbox + out == inbox;
    } else {
      var front, last := out[..|out| - 1], out[|out| - 1];
      assert inbox + out == inbox + front + [last] && out == front + [last];
      InboxConcat(h, inbox, front);
      InboxSnoc(h, inbox + front, last);
      InboxSnoc(h, front, last);
    }
  }

  lemma EndStepWork(c: Conn, a: Action, h: nat)
    requires Enabled(c, a) && Served(c) && !BringsWork(a)
    ensures EndWork(Act(c, a), h) + InboxWork(h, Output(c, a)) <= EndWork(c, h)
    ensures CarriesOn(a) ==> EndWork(Act(c, a), h) + InboxWork(h, Output(c, a)) < EndWork(c, h)
  {
    if IsWork(a) {
      RequestStepWork(c, a, h);
    } else if a.WriteReply? {
      ReplyStepWork(c, a, h);
    } else if a.Read? || a.Send? || a.StopReader? {
      ReaderStepWork(c, a, h);
    } else if a.LookUp? {
      assert EndWork(Act(c, a), h) == EndWork(c, h);
    } else {
      CallStepWork(c, a, h);
    }
  }

  lemma SameHandlers(c: Conn, a: Action)
    requires Enabled(c, a)
    ensures Act(c, a).handlers == c.handlers
  {
  }

  ghost predicate BothServed(net: Net) { Served(net.left) && Served(net.right) }

  /** Every step that brings no new work keeps the work left from growing, and
      every step that carries work forward leaves less. */
  lemma StepWork(net: Net, st: Step)
    requires Can(net, st) && BothServed(net) && !BringsWork(st.act)
    ensures Work(Next(net, st)) <= Work(net)
    ensures CarriesOn(st.act) ==> Work(Next(net, st)) < Work(net)
    ensures BothServed(Next(net, st))
  {
    var c, p := At(net, st.side), At(net, !st.side);
    var a := st.act;
    SameHandlers(c, a);
    InboxConcat(p.handlers, p.inbox, Output(c, a));
    EndStepWork(c, a, p.handlers);
    ServedKept(c, a);
  }

  ghost predicate CanAll(net: Net, steps: seq<Step>)
    decreases |steps|
  {
    steps == [] || (Can(net, steps[0]) && CanAll(Next(net, steps[0]), steps[1..]))
  }

  function Carried(steps: seq<Step>): nat {
    if steps == [] then 0 else (if CarriesOn(steps[0].act) then 1 else 0) + Carried(steps[1..])
  }

  lemma {:induction false} WorkRunsOut(net: Net, steps: seq<Step>)
    requires BothServed(net) && CanAll(net, steps)
    requires forall k :: 0 <= k < |steps| ==> !BringsWork(steps[k].act)
    ensures Carried(steps) <= Work(net)
    decreases |steps|
  {
    if steps != [] {
      StepWork(net, steps[0]);
      WorkRunsOut(Next(net, steps[0]), steps[1..]);
    }
  }

  /** From any state of a run, however the steps interleave and whatever handlers
      and cancellations do in between, at most Work steps carry work forward
      before a new call or notification arrives. */
  lemma WorkEnds(trace: seq<Net>, i: nat, steps: seq<Step>)
    requires Run(trace) && i < |trace| && CanAll(trace[i], steps)
    requires forall k :: 0 <= k < |steps| ==> !BringsWork(steps[k].act)
    ensures Carried(steps) <= Work(trace[i])
  {
    EveryRun(trace, i);
    WorkRunsOut(trace[i], steps);
  }
}
