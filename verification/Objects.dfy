/** The mutable objects of a connection: the one-slot channel a caller waits on,
    the request with its state, and the connection's pending and handling tables.
    Their methods perform the steps of Protocol on the objects' fields. */
module Objects {
  import opened Bags
  import opened Wire
  import opened Protocol
  import opened Handling
  import opened Goroutines

  /** A Go channel of capacity one. */
  class Slot {
    var item: Option<Message>

    constructor ()
      ensures item == None
    {
      item := None;
    }

    /** Takes out what the channel holds. */
    method Get() returns (m: Option<Message>)
      modifies this
      ensures m == old(item) && item == None
    {
      m, item := item, None;
    }

    /** Blocks, and so changes nothing, iff the channel is full. */
    method Put(m: Message) returns (blocked: bool)
      modifies this
      ensures blocked == old(item.Some?)
      ensures item == if blocked then old(item) else Some(m)
    {
      blocked := item.Some?;
      if !blocked {
        item := Some(m);
      }
    }
  }

  /** What has been written to the peer. */
  class OutStream {
    var written: seq<Message>

    constructor ()
      ensures written == []
    {
      written := [];
    }

    method Write(m: Message, carried: bool)
      modifies this
      ensures written == old(written) + (if carried then [m] else [])
    {
      if carried {
        written := written + [m];
      } else {
        assert written + [] == written;
      }
    }
  }

  class ServerRequest {
    const id: Option<ID>
    const methodName: string
    const params: string
    const stream: OutStream
    var state: ReqState
    var closes: nat
    var answers: seq<Answer>
    var cancelled: bool

    constructor (m: Message, stream: OutStream)
      ensures this.id == m.id && methodName == m.methodName && params == m.params && this.stream == stream
      ensures forall phase, claimed, writing ::
                Model(phase, claimed, writing) == NewRequest(m).(phase := phase, claimed := claimed, writing := writing)
    {
      this.id, methodName, params, this.stream := m.id, m.methodName, m.params, stream;
      state, closes, answers, cancelled := Waiting, 0, [], false;
    }

    /** The value of the object in the transition system, given where its goroutine is. */
    ghost function Model(phase: Phase, claimed: bool, writing: bool): Request
      reads this
    {
      Request(id, methodName, params, state, closes, phase, claimed, answers, writing, cancelled)
    }

    predicate IsNotify() { id.None? }

    method Parallel()
      modifies this`state, this`closes
      ensures forall phase, claimed, writing ::
                Model(phase, claimed, writing) == GoParallel(old(Model(phase, claimed, writing)))
    {
      if Rank(state) >= Rank(ReqState.Parallel) {
        return;
      }
      state := ReqState.Parallel;
      closes := closes + 1;
    }

    /** Reply including its write; it fails on a second reply and on a notification. */
    method Reply(a: Answer, carried: bool) returns (accepted: bool)
      modifies this`state, this`closes, this`answers, stream
      ensures accepted == (old(state) != Replied && id.Some?)
      ensures forall phase, claimed, writing :: Model(phase, claimed, writing) ==
                Protocol.Reply(old(Model(phase, claimed, writing)), a).(writing := writing)
      ensures stream.written ==
                old(stream.written) + (if accepted && carried then [AsRead(BuildResponse(id, a))] else [])
    {
      accepted := false;
      if Rank(state) >= Rank(Replied) || IsNotify() {
        assert stream.written + [] == stream.written;
        return;
      }
      Parallel();
      state := Replied;
      answers := answers + [a];
      stream.Write(AsRead(BuildResponse(id, a)), carried);
      accepted := true;
    }

    /** The object is the request of the job, and what that sent was written after before. */
    ghost predicate At(j: Job, before: seq<Message>)
      reads this, stream
    {
      Model(j.r.phase, j.r.claimed, j.r.writing) == j.r && stream.written == before + j.sent
    }

    method Perform(op: Op, ghost j: Job, ghost before: seq<Message>)
      requires At(j, before) && !j.r.writing
      modifies this`state, this`closes, this`answers, stream
      ensures At(DoOp(j, op), before)
    {
      match op {
        case GoesParallel => Parallel();
        case Replies(result, err, carried) =>
          var _ := Reply(Answer(Handler, result, err), carried);
      }
    }

    /** A handler has the request, with left others to come, and says whether it claims it. */
    method Handle(script: Script, left: nat, ghost j: Job, ghost before: seq<Message>) returns (claim: bool)
      requires At(j, before) && JobOk(j) && j.r.phase == Delivering(left + 1)
      modifies this`state, this`closes, this`answers, stream
      ensures claim == script.claim
      ensures At(DoScript(j, script, left), before)
    {
      var i := 0;
      while i < |script.ops|
        invariant 0 <= i <= |script.ops|
        invariant At(DoOps(j, script.ops[..i]), before)
      {
        OpsOk(j, script.ops[..i]);
        Perform(script.ops[i], DoOps(j, script.ops[..i]), before);
        assert script.ops[..i + 1][..i] == script.ops[..i];
        i := i + 1;
      }
      assert script.ops[..i] == script.ops;
      claim := script.claim;
    }

    /** The handlers in turn, and the default handler last in line. */
    method Deliver(scripts: seq<Script>, carried: bool, ghost r: Request) returns (claimed: bool)
      requires Model(Blocked, false, false) == r && Fresh(r)
      modifies this`state, this`closes, this`answers, stream
      ensures claimed == Delivered(r, scripts, carried).r.claimed
      ensures At(Delivered(r, scripts, carried), old(stream.written))
    {
      claimed := Offer(scripts, r);
      ScriptsOk(r, scripts, |scripts|);
      DeliverDefault(claimed, carried, DoScripts(r, scripts, |scripts|), old(stream.written));
    }

    method Offer(scripts: seq<Script>, ghost r: Request) returns (claimed: bool)
      requires Model(Blocked, false, false) == r && Fresh(r)
      modifies this`state, this`closes, this`answers, stream
      ensures claimed == DoScripts(r, scripts, |scripts|).r.claimed
      ensures At(DoScripts(r, scripts, |scripts|), old(stream.written))
    {
      state := Serial;
      claimed := false;
      var i := 0;
      ghost var j := Begun(r, |scripts|);
      while i < |scripts|
        invariant 0 <= i <= |scripts|
        invariant claimed == j.r.claimed && At(j, old(stream.written))
        invariant j == DoScripts(r, scripts, i)
      {
        NextScript(r, scripts, i);
        var claim := Handle(scripts[i], |scripts| - i - 1, j, old(stream.written));
        claimed := claimed || claim;
        i := i + 1;
        j := DoScripts(r, scripts, i);
      }
    }

    method DeliverDefault(claimed: bool, carried: bool, ghost j: Job, ghost before: seq<Message>)
      requires At(j, before) && JobOk(j) && j.r.phase == Delivering(0) && claimed == j.r.claimed
      modifies this`state, this`closes, this`answers, stream
      ensures At(DoDefault(j, carried), before)
    {
      if !claimed && !IsNotify() {
        var _ := Reply(Answer(Default, Some("null"), MethodNotFound(methodName)), carried);
      }
    }

    /** The deferred part, which answers for handlers that claimed the call and never
        replied, and lets the successor go. */
    method Conclude(carried: bool, ghost j: Job, ghost before: seq<Message>)
      requires At(j, before) && JobOk(j) && j.r.phase.Unwinding?
      modifies this`state, this`closes, this`answers, stream
      ensures At(Concluded(j, carried), before)
    {
      if !IsNotify() && Rank(state) < Rank(Replied) {
        var _ := Reply(Answer(Fallback, Some("null"), DidNotReply(methodName)), carried);
      }
      Parallel();
    }
  }

  /** Cancel without anything in between. */
  lemma CancelActs(c: Conn, id: ID)
    requires id in c.handling && c.handling[id] < |c.requests|
    ensures var k := c.handling[id];
            && Enabled(Act(c, LookUp(id)), CancelRequest(|c.cancels|))
            && Act(Act(c, LookUp(id)), CancelRequest(|c.cancels|))
               == c.(requests := c.requests[k := c.requests[k].(cancelled := true)])
  {
    var c1 := Act(c, LookUp(id));
    assert c1.cancels[..|c.cancels|] + c1.cancels[|c.cancels| + 1..] == c.cancels;
  }

  class Connection {
    const stream: OutStream
    var pending: map<ID, Slot>
    var handling: map<ID, ServerRequest>
    var requests: seq<ServerRequest>

    constructor (stream: OutStream)
      ensures this.stream == stream && pending == map[] && handling == map[] && requests == []
    {
      this.stream, pending, handling, requests := stream, map[], map[], [];
    }

    /** The object is c: each channel holds what its slot does, each request object is the
        request of c, given where its goroutine is, and the tables refer to them. */
    ghost predicate Represents(c: Conn)
      reads this, pending.Values, requests
    {
      Channels(c) && Requests(c) && Table(c)
    }

    ghost predicate Channels(c: Conn)
      reads this, pending.Values
    {
      && pending.Keys == c.pending && c.pending <= c.calls.Keys && c.slots.Keys <= c.calls.Keys
      && (forall id :: id in pending ==> pending[id].item == if id in c.slots then Some(c.slots[id]) else None)
      && (forall i, j :: i in pending && j in pending && i != j ==> pending[i] != pending[j])
    }

    ghost predicate Requests(c: Conn)
      reads this, requests
    {
      && |requests| == |c.requests|
      && (forall k :: 0 <= k < |requests| ==> Is(requests[k], c.requests[k]))
      && (forall i, j :: 0 <= i < j < |requests| ==> requests[i] != requests[j])
    }

    ghost predicate Is(o: ServerRequest, r: Request)
      reads o
    {
      o.Model(r.phase, r.claimed, r.writing) == r
    }

    ghost predicate Table(c: Conn)
      reads this
    {
      && handling.Keys == c.handling.Keys
      && (forall id :: id in handling ==>
            c.handling[id] < |requests| && handling[id] == requests[c.handling[id]])
    }

    /** A caller puts a fresh channel into the table. */
    method Register(id: ID, ghost c: Conn, methodName: string, params: string)
      requires Represents(c) && Enabled(c, NewCall(id, methodName, params))
      modifies this`pending
      ensures id in pending && fresh(pending[id]) && pending[id].item == None
      ensures forall i :: i in old(pending) && i != id ==> i in pending && pending[i] == old(pending)[i]
      ensures Represents(Act(c, NewCall(id, methodName, params)))
    {
      var slot := new Slot();
      pending := pending[id := slot];
    }

    /** A caller takes the response out of its channel. */
    method TakeResponse(id: ID, ghost c: Conn) returns (response: Option<Message>)
      requires Represents(c) && Enabled(c, Receive(id)) && id in pending
      modifies pending[id]
      ensures response == Some(c.slots[id])
      ensures Represents(Act(c, Receive(id)))
    {
      response := pending[id].Get();
    }

    method Unregister(id: ID, ghost c: Conn)
      requires Represents(c) && Enabled(c, LeaveCall(id))
      modifies this`pending
      ensures pending == old(pending) - {id}
      ensures Represents(Act(c, LeaveCall(id)))
    {
      pending := pending - {id};
    }

    method SetHandling(r: ServerRequest, active: bool)
      modifies this`handling
      ensures r.id.None? ==> handling == old(handling)
      ensures r.id.Some? ==> handling == if active then old(handling)[r.id.value := r] else old(handling) - {r.id.value}
    {
      if r.id.None? {
        return;
      }
      if active {
        handling := handling[r.id.value := r];
      } else {
        handling := handling - {r.id.value};
      }
    }

    /** A request joins the queue, and a call the table of those being handled. */
    method TakeRequest(m: Message, ghost c: Conn)
      requires Represents(c) && RouteOf(m).ToHandlers?
      modifies this`handling, this`requests
      ensures Represents(Dispatch(c, m))
      ensures old(requests) < requests
    {
      var r := new ServerRequest(m, stream);
      requests := requests + [r];
      SetHandling(r, true);
    }

    /** A response goes to its caller's channel, if the call is pending. */
    method TakeAnswer(m: Message, ghost c: Conn) returns (blocked: bool)
      requires Represents(c) && RouteOf(m).ToCaller? && c.reader.Reading?
      modifies pending.Values
      ensures var d := Dispatch(c, m);
              && (blocked <==> d.reader.Sending? && !Enabled(d, Send))
              && Represents(if d.reader.Sending? && !blocked then Act(d, Send) else d)
    {
      blocked := false;
      if m.id.value in pending {
        assert pending[m.id.value] in pending.Values;
        blocked := pending[m.id.value].Put(m);
      }
    }

    /** One turn of the reader loop: a request joins the queue, a response goes to its
        caller's channel, anything else is dropped. It blocks exactly if the reader of
        the transition system does. */
    method TakeMessage(m: Message, ghost c: Conn) returns (blocked: bool)
      requires Represents(c) && c.reader.Reading?
      modifies this`handling, this`requests, pending.Values
      ensures var d := Dispatch(c, m);
              && (blocked <==> d.reader.Sending? && !Enabled(d, Send))
              && Represents(if d.reader.Sending? && !blocked then Act(d, Send) else d)
      ensures pending == old(pending) && old(requests) <= requests
    {
      blocked := false;
      match RouteOf(m) {
        case ToHandlers => TakeRequest(m, c);
        case ToCaller => blocked := TakeAnswer(m, c);
        case Ignored =>
      }
    }

    /** The goroutine of request k, once its predecessor has let it go: it makes of the
        handlers what the steps from Start to End do. Whatever the handlers do, a call is
        answered exactly once and a notification never, nothing but that answer is written,
        and the successor is let go once. */
    method Serve(k: nat, r: ServerRequest, scripts: seq<Script>, carried: bool, ghost c: Conn) returns (claimed: bool)
      requires Represents(c) && k < |requests| && r == requests[k] && r.stream == stream
      requires MayStart(c, k) && c.handlers == |scripts|
      modifies this`handling, r`state, r`closes, r`answers, stream
      ensures requests == old(requests) && pending == old(pending)
      ensures claimed <==> Claims(scripts, |scripts|)
      ensures Represents(ServedConn(c, k, scripts, carried))
      ensures var j := Concluded(Delivered(c.requests[k], scripts, carried), carried);
              && j.r.phase.Finished? && r.At(j, old(stream.written)) && JobOk(j)
              && r.closes == 1 && |r.answers| == (if r.id.Some? then 1 else 0)
    {
      ghost var j := Delivered(c.requests[k], scripts, carried);
      ServedOnce(c.requests[k], scripts, carried);
      ConcludedOn(c, k, j, carried);
      claimed := Enter(k, r, scripts, carried, c);
      Leave(k, r, carried, j, old(stream.written), With(c, k, j));
    }

    /** The handlers of that goroutine. */
    method Enter(k: nat, r: ServerRequest, scripts: seq<Script>, carried: bool, ghost c: Conn) returns (claimed: bool)
      requires Represents(c) && k < |requests| && r == requests[k] && r.stream == stream
      requires MayStart(c, k)
      modifies r`state, r`closes, r`answers, stream
      ensures claimed == Delivered(c.requests[k], scripts, carried).r.claimed
      ensures r.At(Delivered(c.requests[k], scripts, carried), old(stream.written))
      ensures Represents(With(c, k, Delivered(c.requests[k], scripts, carried)))
    {
      claimed := r.Deliver(scripts, carried, c.requests[k]);
    }

    /** The deferred end of that goroutine. */
    method Leave(k: nat, r: ServerRequest, carried: bool, ghost j: Job, ghost before: seq<Message>, ghost c: Conn)
      requires Represents(c) && k < |requests| && r == requests[k] && r.stream == stream
      requires r.At(j, before) && JobOk(j) && j.r.phase.Unwinding?
      modifies this`handling, r`state, r`closes, r`answers, stream
      ensures requests == old(requests) && pending == old(pending)
      ensures r.At(Concluded(j, carried), before)
      ensures Represents(With(Unlisted(c, j.r.id), k, Concluded(j, carried)))
    {
      Unlist(r, c);
      Settle(k, r, carried, j, before, Unlisted(c, j.r.id));
    }

    method Unlist(r: ServerRequest, ghost c: Conn)
      requires Represents(c)
      modifies this`handling
      ensures Represents(Unlisted(c, r.id))
    {
      SetHandling(r, false);
    }

    method Settle(k: nat, r: ServerRequest, carried: bool, ghost j: Job, ghost before: seq<Message>, ghost c: Conn)
      requires Represents(c) && k < |requests| && r == requests[k] && r.stream == stream
      requires r.At(j, before) && JobOk(j) && j.r.phase.Unwinding?
      modifies r`state, r`closes, r`answers, stream
      ensures r.At(Concluded(j, carried), before)
      ensures Represents(With(c, k, Concluded(j, carried)))
    {
      r.Conclude(carried, j, before);
    }

    /** Cancel looks its request up and cancels it, and no other. */
    method Cancel(id: ID, ghost c: Conn)
      requires Represents(c)
      modifies handling.Values`cancelled
      ensures id in handling ==> Represents(Act(Act(c, LookUp(id)), CancelRequest(|c.cancels|)))
      ensures id !in handling ==> Represents(c)
    {
      if id in handling {
        ghost var k := c.handling[id];
        assert handling[id] in handling.Values && handling[id] == requests[k];
        handling[id].cancelled := true;
        CancelActs(c, id);
        ghost var after := c.requests[k := c.requests[k].(cancelled := true)];
        assert Is(requests[k], after[k]);
        assert forall j :: 0 <= j < |requests| && j != k ==> after[j] == c.requests[j] && Is(requests[j], c.requests[j]);
      }
    }
  }
}
