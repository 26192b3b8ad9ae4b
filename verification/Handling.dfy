/** What one connection guarantees about the requests it serves, whatever its
    peer sends and whatever its handlers do: replies are given once, requests
    start in order, and the chain of nextRequest channels never stalls. */
module Handling {
  import opened Bags
  import opened Wire
  import opened Protocol

  /** The author of a reply is consistent with what the handlers did. */
  ghost predicate AnswerOk(r: Request)
    requires |r.answers| == 1
  {
    match r.answers[0].author
    case Handler => true
    case Default => r.answers[0].err == MethodNotFound(r.methodName) && !r.claimed && !r.phase.Delivering?
    case Fallback => r.answers[0].err == DidNotReply(r.methodName) && r.claimed && !r.phase.Delivering?
  }

  ghost predicate RequestOk(r: Request) {
    && r.closes == (if Rank(r.state) >= Rank(Parallel) then 1 else 0)
    && (r.phase.Blocked? <==> r.state == Waiting)
    && |r.answers| == (if r.state == Replied then 1 else 0)
    && (r.writing ==> r.state == Replied && !r.phase.Finished?)
    && (r.id.None? ==> r.state != Replied)
    && (r.phase.Ending? || r.phase.Finished? ==> r.id.Some? ==> r.state == Replied)
    && (r.phase.Finished? ==> Rank(r.state) >= Rank(Parallel))
    && (r.phase.Unwinding? && r.id.Some? && r.state != Replied ==> r.claimed)
    && (r.state == Replied ==> AnswerOk(r))
  }

  ghost predicate Served(c: Conn) {
    && (forall k :: 0 <= k < |c.requests| ==> RequestOk(c.requests[k]))
    && (forall i, k :: 0 <= i < k < |c.requests| && c.requests[k].state != Waiting ==>
          Rank(c.requests[i].state) >= Rank(Parallel))
  }

  /** How one step may change a request: never backwards, and a reply once given stays. */
  ghost predicate Evolves(r: Request, r': Request) {
    && r'.id == r.id && r'.methodName == r.methodName && r'.params == r.params
    && Rank(r.state) <= Rank(r'.state)
    && r.closes <= r'.closes
    && r.answers <= r'.answers
  }

  /** The request a step works on, if any. */
  function Target(c: Conn, a: Action): Option<nat> {
    match a
    case Start(k) => Some(k)
    case HandlerParallel(k) => Some(k)
    case HandlerReply(k, _, _) => Some(k)
    case HandlerReturn(k, _) => Some(k)
    case DefaultDeliver(k) => Some(k)
    case WriteReply(k, _) => Some(k)
    case Unwind(k) => Some(k)
    case End(k) => Some(k)
    case CancelRequest(j) => if j < |c.cancels| then Some(c.cancels[j].k) else None
    case _ => None
  }

  /** A step touches at most its target and appends at most one new request. */
  lemma OnlyTarget(c: Conn, a: Action)
    requires Enabled(c, a)
    ensures var rs, rs' := c.requests, Act(c, a).requests;
            match Target(c, a)
            case Some(k) => k < |rs| && |rs'| == |rs| && rs' == rs[k := rs'[k]]
            case None => rs' == rs || (a.Read? && c.inbox[0].methodName != "" && rs' == rs + [NewRequest(c.inbox[0])])
  {
  }

  lemma TargetStep(c: Conn, a: Action, k: nat)
    requires Enabled(c, a) && Target(c, a) == Some(k)
    requires k < |c.requests| && RequestOk(c.requests[k])
    ensures k < |Act(c, a).requests|
    ensures RequestOk(Act(c, a).requests[k]) && Evolves(c.requests[k], Act(c, a).requests[k])
    ensures c.requests[k].state == Waiting && Act(c, a).requests[k].state != Waiting ==>
              k > 0 ==> c.requests[k - 1].closes > 0
  {
    var r, r' := c.requests[k], Act(c, a).requests[k];
    match a
    case Start(_) => assert RequestOk(r');
    case HandlerParallel(_) => assert RequestOk(r');
    case HandlerReply(_, _, _) => assert RequestOk(r');
    case HandlerReturn(_, _) => assert RequestOk(r');
    case DefaultDeliver(_) => assert RequestOk(r');
    case WriteReply(_, _) => assert RequestOk(r');
    case Unwind(_) => assert RequestOk(r');
    case End(_) => assert RequestOk(r');
    case CancelRequest(_) => assert RequestOk(r');
  }

  /** Every step of a connection keeps the order of handling and the
      bookkeeping of replies, and moves no request backwards. */
  lemma ServedKept(c: Conn, a: Action)
    requires Enabled(c, a) && Served(c)
    ensures Served(Act(c, a))
    ensures |c.requests| <= |Act(c, a).requests|
    ensures forall k :: 0 <= k < |c.requests| ==> Evolves(c.requests[k], Act(c, a).requests[k])
  {
    OnlyTarget(c, a);
    if Target(c, a).Some? {
      var k := Target(c, a).value;
      TargetStep(c, a, k);
      var rs, rs' := c.requests, Act(c, a).requests;
      forall i, j | 0 <= i < j < |rs'| && rs'[j].state != Waiting
        ensures Rank(rs'[i].state) >= Rank(Parallel)
      {
        assert RequestOk(rs[i]);
        if j == k && rs[k].state == Waiting {
          assert RequestOk(rs[k - 1]) && rs[k - 1].closes > 0;
        }
      }
    }
  }

  /** Handling starts in arrival order: the started requests are a prefix, all
      but the last of them have gone parallel, and so at most one is serial. */
  lemma StartOrder(c: Conn, i: nat, k: nat)
    requires Served(c) && i < k < |c.requests|
    ensures c.requests[k].state != Waiting ==> c.requests[i].closes == 1
    ensures c.requests[i].state == Waiting ==> c.requests[k].state == Waiting
    ensures !(c.requests[i].state == Serial && c.requests[k].state == Serial)
  {
    assert RequestOk(c.requests[i]);
  }

  /** Requests that have not started are untouched. */
  ghost predicate Untouched(c: Conn) {
    forall k :: 0 <= k < |c.requests| && c.requests[k].phase.Blocked? ==>
      !c.requests[k].claimed && !c.requests[k].writing && c.requests[k].answers == []
  }

  lemma UntouchedKept(c: Conn, a: Action)
    requires Enabled(c, a) && Untouched(c)
    ensures Untouched(Act(c, a))
  {
    OnlyTarget(c, a);
  }

  /** A request is cancelled only by a Cancel that has looked it up. */
  lemma OnlyCancelCancels(c: Conn, a: Action, k: nat)
    requires Enabled(c, a) && k < |Act(c, a).requests| && Act(c, a).requests[k].cancelled
    ensures || (k < |c.requests| && c.requests[k].cancelled)
            || (a.CancelRequest? && c.cancels[a.j].k == k)
  {
    OnlyTarget(c, a);
  }

  /** A handler that goes parallel, its reply to a call, and the end of a request let the
      next one start. */
  lemma LetsNextStart(c: Conn, a: Action, k: nat)
    requires Served(c) && Enabled(c, a) && k + 1 < |c.requests| && c.requests[k + 1].phase.Blocked?
    requires a == HandlerParallel(k) || a == End(k) || (a.HandlerReply? && a.k == k && c.requests[k].id.Some?)
    ensures Enabled(Act(c, a), Start(k + 1))
  {
    assert RequestOk(c.requests[k]);
  }

  /** A finished call has been answered exactly once, a notification never; the
      default handler answers only unclaimed calls, and the fallback only those
      a handler claimed without replying. */
  lemma FinishedAnswers(c: Conn, k: nat)
    requires Served(c) && k < |c.requests| && c.requests[k].phase.Finished?
    ensures var r := c.requests[k];
            && |r.answers| == (if r.id.Some? then 1 else 0)
            && r.closes == 1
            && (r.id.Some? ==>
                  match r.answers[0].author
                  case Handler => true
                  case Default => !r.claimed && r.answers[0].err == MethodNotFound(r.methodName)
                  case Fallback => r.claimed && r.answers[0].err == DidNotReply(r.methodName))
  {
    assert RequestOk(c.requests[k]);
  }

  /** The step that takes a request's goroutine further, if it is not waiting for
      its predecessor: a handler that returns, a write that completes. */
  function Onward(c: Conn, k: nat): Action
    requires k < |c.requests|
  {
    var r := c.requests[k];
    if r.writing then WriteReply(k, true)
    else match r.phase
      case Blocked => Start(k)
      case Delivering(left) => if left > 0 then HandlerReturn(k, true) else DefaultDeliver(k)
      case Unwinding => Unwind(k)
      case Ending => End(k)
      case Finished => Start(k)
  }

  /** The chain never deadlocks: if some request is unfinished, then the first
      unfinished one can take a step, and so can the first one not yet parallel. */
  lemma ChainRuns(c: Conn, k: nat)
    requires Served(c) && k < |c.requests| && !c.requests[k].phase.Finished?
    requires (forall i :: 0 <= i < k ==> c.requests[i].phase.Finished?)
          || (forall i :: 0 <= i < k ==> Rank(c.requests[i].state) >= Rank(Parallel))
    ensures Enabled(c, Onward(c, k))
  {
    assert RequestOk(c.requests[k]);
    if k > 0 {
      assert RequestOk(c.requests[k - 1]);
    }
  }
}
