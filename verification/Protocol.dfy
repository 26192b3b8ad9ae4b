/** Two JSON-RPC connections joined by lossless FIFO streams, as a transition
    system: callers, reader loops and request goroutines of both ends interleave
    in single steps. */
module Protocol {
  import opened Bags
  import opened Wire

  datatype ReqState = Waiting | Serial | Parallel | Replied

  function Rank(s: ReqState): nat {
    match s case Waiting => 0 case Serial => 1 case Parallel => 2 case Replied => 3
  }

  /** Where the goroutine of a request is. Delivering counts the handlers still
      to be offered the request before the default one. */
  datatype Phase = Blocked | Delivering(left: nat) | Unwinding | Ending | Finished

  /** closes counts how often nextRequest was closed; answers lists the replies
      that passed the guard; writing holds while the last one is being sent. */
  datatype Request = Request(id: Option<ID>, methodName: string, params: string,
                             state: ReqState, closes: nat, phase: Phase, claimed: bool,
                             answers: seq<Answer>, writing: bool, cancelled: bool)

  datatype CallEnd = Got(response: Message) | WriteFailed | Cancelled
  datatype CallPc = Registered | Awaiting | Leaving(end: CallEnd) | Returned(end: CallEnd)
  datatype Call = Call(methodName: string, params: string, pc: CallPc)

  datatype Reader = Reading | Sending(response: Message) | Stopped

  /** A Cancel that has found the request k for its id and not yet cancelled it. */
  datatype Found = Found(id: ID, k: nat)

  /** slots holds the buffered response of each call's one-slot channel, lost the
      calls whose reply could not be written, cancels the Cancels under way. */
  datatype Conn = Conn(handlers: nat, calls: map<ID, Call>, pending: set<ID>, slots: map<ID, Message>,
                       inbox: seq<Message>, reader: Reader, requests: seq<Request>,
                       handling: map<ID, nat>, lost: set<ID>, cancels: seq<Found>)

  datatype Action =
    | NewCall(id: ID, methodName: string, params: string)
    | WriteCall(id: ID, ok: bool, carried: bool)
    | Receive(id: ID)
    | CancelCall(id: ID)
    | LeaveCall(id: ID)
    | Notify(methodName: string, params: string)
    | Read
    | Send
    | StopReader
    | Start(k: nat)
    | HandlerParallel(k: nat)
    | HandlerReply(k: nat, result: Option<string>, err: ErrorArg)
    | HandlerReturn(k: nat, claim: bool)
    | DefaultDeliver(k: nat)
    | WriteReply(k: nat, carried: bool)
    | Unwind(k: nat)
    | End(k: nat)
    | LookUp(id: ID)
    | CancelRequest(j: nat)

  // ---------- one request ----------

  function NewRequest(m: Message): Request {
    Request(m.id, m.methodName, m.params, Waiting, 0, Blocked, false, [], false, false)
  }

  function GoParallel(r: Request): Request {
    if Rank(r.state) >= Rank(Parallel) then r
    else r.(state := Parallel, closes := r.closes + 1)
  }

  /** Reply up to the write: refused (and without effect) for a second reply and
      for a notification. */
  function Reply(r: Request, a: Answer): Request {
    if Rank(r.state) >= Rank(Replied) || r.id.None? then r
    else GoParallel(r).(state := Replied, answers := r.answers + [a], writing := true)
  }

  function DeliverDefault(r: Request): Request {
    (if r.claimed || r.id.None? then r
     else Reply(r, Answer(Default, Some("null"), MethodNotFound(r.methodName)))).(phase := Unwinding)
  }

  function UnwindReply(r: Request): Request {
    (if r.id.Some? && Rank(r.state) < Rank(Replied)
     then Reply(r, Answer(Fallback, Some("null"), DidNotReply(r.methodName)))
     else r).(phase := Ending)
  }

  // ---------- one step of a connection ----------

  predicate InHandler(c: Conn, k: nat) {
    k < |c.requests| && c.requests[k].phase.Delivering? && c.requests[k].phase.left > 0 && !c.requests[k].writing
  }

  predicate Enabled(c: Conn, a: Action) {
    match a
    case NewCall(id, _, _) => id !in c.calls
    case WriteCall(id, ok, carried) => id in c.calls && c.calls[id].pc.Registered? && (ok ==> carried)
    case Receive(id) => id in c.calls && c.calls[id].pc.Awaiting? && id in c.slots
    case CancelCall(id) => id in c.calls && c.calls[id].pc.Awaiting?
    case LeaveCall(id) => id in c.calls && c.calls[id].pc.Leaving?
    case Notify(_, _) => true
    case Read => c.reader.Reading? && c.inbox != []
    case Send => c.reader.Sending? && c.reader.response.id.Some? && c.reader.response.id.value !in c.slots
    case StopReader => c.reader.Reading?
    case Start(k) => k < |c.requests| && c.requests[k].phase.Blocked? && (k == 0 || c.requests[k - 1].closes > 0)
    case HandlerParallel(k) => InHandler(c, k)
    case HandlerReply(k, _, _) => InHandler(c, k)
    case HandlerReturn(k, _) => InHandler(c, k)
    case DefaultDeliver(k) => k < |c.requests| && c.requests[k].phase == Delivering(0) && !c.requests[k].writing
    case WriteReply(k, _) => k < |c.requests| && c.requests[k].writing && c.requests[k].answers != []
    case Unwind(k) => k < |c.requests| && c.requests[k].phase.Unwinding? && !c.requests[k].writing
    case End(k) => k < |c.requests| && c.requests[k].phase.Ending? && !c.requests[k].writing
    case LookUp(id) => id in c.handling
    case CancelRequest(j) => j < |c.cancels| && c.cancels[j].k < |c.requests|
  }

  function WithRequest(c: Conn, k: nat, r: Request): Conn
    requires k < |c.requests|
  {
    c.(requests := c.requests[k := r])
  }

  function WithPc(c: Conn, id: ID, pc: CallPc): Conn
    requires id in c.calls
  {
    c.(calls := c.calls[id := c.calls[id].(pc := pc)])
  }

  /** The reader loop takes one message. */
  function Dispatch(c: Conn, m: Message): Conn {
    match RouteOf(m)
    case ToHandlers =>
      c.(requests := c.requests + [NewRequest(m)],
         handling := if m.id.Some? then c.handling[m.id.value := |c.requests|] else c.handling)
    case ToCaller => if m.id.value in c.pending then c.(reader := Sending(m)) else c
    case Ignored => c
  }

  function WireResponse(r: Request): Message
    requires r.answers != []
  {
    AsRead(BuildResponse(r.id, r.answers[|r.answers| - 1]))
  }

  function Act(c: Conn, a: Action): Conn
    requires Enabled(c, a)
  {
    match a
    case NewCall(id, methodName, params) =>
      c.(calls := c.calls[id := Call(methodName, params, Registered)], pending := c.pending + {id})
    case WriteCall(id, ok, carried) => WithPc(c, id, if ok then Awaiting else Leaving(WriteFailed))
    case Receive(id) => WithPc(c, id, Leaving(Got(c.slots[id]))).(slots := c.slots - {id})
    case CancelCall(id) => WithPc(c, id, Leaving(Cancelled))
    case LeaveCall(id) => WithPc(c, id, Returned(c.calls[id].pc.end)).(pending := c.pending - {id})
    case Notify(_, _) => c
    case Read => Dispatch(c.(inbox := c.inbox[1..]), c.inbox[0])
    case Send => c.(slots := c.slots[c.reader.response.id.value := c.reader.response], reader := Reading)
    case StopReader => c.(reader := Stopped)
    case Start(k) => WithRequest(c, k, c.requests[k].(state := Serial, phase := Delivering(c.handlers)))
    case HandlerParallel(k) => WithRequest(c, k, GoParallel(c.requests[k]))
    case HandlerReply(k, result, err) => WithRequest(c, k, Reply(c.requests[k], Answer(Handler, result, err)))
    case HandlerReturn(k, claim) =>
      var r := c.requests[k];
      WithRequest(c, k, r.(phase := Delivering(r.phase.left - 1), claimed := r.claimed || claim))
    case DefaultDeliver(k) => WithRequest(c, k, DeliverDefault(c.requests[k]))
    case WriteReply(k, carried) =>
      var r := c.requests[k];
      WithRequest(c, k, r.(writing := false))
        .(lost := if !carried && r.id.Some? then c.lost + {r.id.value} else c.lost)
    case Unwind(k) =>
      var r := c.requests[k];
      WithRequest(c, k, UnwindReply(r))
        .(handling := if r.id.Some? then c.handling - {r.id.value} else c.handling)
    case End(k) => WithRequest(c, k, GoParallel(c.requests[k]).(phase := Finished))
    case LookUp(id) => c.(cancels := c.cancels + [Found(id, c.handling[id])])
    case CancelRequest(j) =>
      var k := c.cancels[j].k;
      WithRequest(c, k, c.requests[k].(cancelled := true)).(cancels := c.cancels[..j] + c.cancels[j + 1..])
  }

  /** What the step puts on the stream towards the peer. */
  function Output(c: Conn, a: Action): seq<Message>
    requires Enabled(c, a)
  {
    match a
    case WriteCall(id, _, carried) =>
      if carried then [Message(Some(id), c.calls[id].methodName, c.calls[id].params, None, None)] else []
    case Notify(methodName, params) => [Message(None, methodName, params, None, None)]
    case WriteReply(k, carried) => if carried then [WireResponse(c.requests[k])] else []
    case _ => []
  }

  // ---------- two connections ----------

  datatype Net = Net(left: Conn, right: Conn)

  function At(net: Net, s: bool): Conn { if s then net.left else net.right }

  function NewConn(handlers: nat): Conn {
    Conn(handlers, map[], {}, map[], [], Reading, [], map[], {}, [])
  }

  function Init(l: nat, r: nat): Net { Net(NewConn(l), NewConn(r)) }

  datatype Step = Step(side: bool, act: Action)

  /** A step is one enabled action of one end; new call ids are fresh. */
  predicate Can(net: Net, st: Step) {
    && Enabled(At(net, st.side), st.act)
    && (st.act.NewCall? ==> st.act.id !in At(net, !st.side).calls)
  }

  function Deliver(c: Conn, out: seq<Message>): Conn { c.(inbox := c.inbox + out) }

  function Next(net: Net, st: Step): Net
    requires Can(net, st)
  {
    var c, p := At(net, st.side), At(net, !st.side);
    var c', p' := Act(c, st.act), Deliver(p, Output(c, st.act));
    if st.side then Net(c', p') else Net(p', c')
  }

  /** trace is an execution from the initial state. */
  ghost predicate Run(trace: seq<Net>) {
    && trace != []
    && (exists l: nat, r: nat :: trace[0] == Init(l, r))
    && forall i :: 0 <= i < |trace| - 1 ==> Follows(trace[i], trace[i + 1])
  }

  ghost predicate Follows(net: Net, net': Net) {
    exists st :: Can(net, st) && net' == Next(net, st)
  }
}
