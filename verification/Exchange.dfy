/** The relation between a caller's end c and the end p that serves it, kept by
    every step of either: each call is, until it is answered, in exactly one
    place, and every response on its way is the reply to its own request. */
module Exchange {
  import opened Bags
  import opened Wire
  import opened Protocol
  import opened Handling

  // ---------- labels counted along the way of a call ----------

  function OptionBag(o: Option<ID>): multiset<ID> {
    match o case Some(id) => multiset{id} case None => multiset{}
  }

  /** A call on its way to the handlers. */
  function CallLabel(m: Message): multiset<ID> {
    if RouteOf(m).ToHandlers? then OptionBag(m.id) else multiset{}
  }

  /** A response on its way back. */
  function ResponseLabel(m: Message): multiset<ID> {
    if RouteOf(m).ToCaller? then OptionBag(m.id) else multiset{}
  }

  function RequestLabel(r: Request): multiset<ID> { OptionBag(r.id) }

  /** A request whose reply has not been written. */
  function OpenLabel(r: Request): multiset<ID> {
    if r.state != Replied || r.writing then OptionBag(r.id) else multiset{}
  }

  function Holds(reader: Reader, id: ID): nat {
    if reader.Sending? && reader.response.id == Some(id) then 1 else 0
  }

  function InSlot(c: Conn, id: ID): nat { if id in c.slots then 1 else 0 }

  /** In how many places of the exchange the call id currently is. */
  ghost function Places(c: Conn, p: Conn, id: ID): nat {
    Bag(p.inbox, CallLabel)[id] + Bag(p.requests, OpenLabel)[id] + Bag(c.inbox, ResponseLabel)[id]
    + Holds(c.reader, id) + InSlot(c, id)
  }

  /** How often the call id has arrived or is about to arrive at p. */
  ghost function Arrivals(p: Conn, id: ID): nat {
    Bag(p.inbox, CallLabel)[id] + Bag(p.requests, RequestLabel)[id]
  }

  // ---------- the invariant ----------

  /** m is what the reader decodes from the one reply to request r. */
  ghost predicate Answers(r: Request, id: ID, m: Message) {
    r.id == Some(id) && |r.answers| == 1 && m == AsRead(BuildResponse(r.id, r.answers[0]))
  }

  ghost predicate ReplyOf(requests: seq<Request>, id: ID, m: Message) {
    exists k :: 0 <= k < |requests| && Answers(requests[k], id, m)
  }

  ghost predicate Matches(c: Conn, id: ID, methodName: string, params: string) {
    id in c.calls && c.calls[id].methodName == methodName && c.calls[id].params == params
  }

  /** The end of a call, if it has one. */
  function EndOf(pc: CallPc): Option<CallEnd> {
    match pc case Leaving(e) => Some(e) case Returned(e) => Some(e) case _ => None
  }

  predicate GotResponse(call: Call) {
    EndOf(call.pc).Some? && EndOf(call.pc).value.Got?
  }

  ghost predicate PendingOk(c: Conn) {
    && (forall id :: id in c.pending <==> id in c.calls && !c.calls[id].pc.Returned?)
    && (forall id :: id in c.slots ==> id in c.calls)
    && (c.reader.Sending? ==> c.reader.response.id.Some? && c.reader.response.id.value in c.calls)
  }

  /** Every call travelling to p or served by p is one of c's, unchanged. */
  ghost predicate RequestsGenuine(c: Conn, p: Conn) {
    && (forall m :: m in p.inbox && RouteOf(m).ToHandlers? && m.id.Some? ==>
          Matches(c, m.id.value, m.methodName, m.params))
    && (forall k :: 0 <= k < |p.requests| && p.requests[k].id.Some? ==>
          && Matches(c, p.requests[k].id.value, p.requests[k].methodName, p.requests[k].params)
          && p.requests[k].methodName != "")
  }

  /** Every response travelling to c, or received by c, answers its own request. */
  ghost predicate ResponsesGenuine(c: Conn, p: Conn) {
    && (forall m :: m in c.inbox && RouteOf(m).ToCaller? ==>
          || (m.id.value in c.calls && ReplyOf(p.requests, m.id.value, m))
          || m.id.value in p.calls)
    && (c.reader.Sending? && c.reader.response.id.Some? ==>
          ReplyOf(p.requests, c.reader.response.id.value, c.reader.response))
    && (forall id :: id in c.slots ==> ReplyOf(p.requests, id, c.slots[id]))
    && (forall id :: id in c.calls && GotResponse(c.calls[id]) ==>
          ReplyOf(p.requests, id, EndOf(c.calls[id].pc).value.response))
  }

  ghost predicate Counted(c: Conn, p: Conn, id: ID) {
    && Places(c, p, id) <= 1
    && Arrivals(p, id) <= 1
    && (id !in c.calls ==> Arrivals(p, id) == 0)
    && (id in c.calls && c.calls[id].pc.Registered? ==> Places(c, p, id) == 0 && Arrivals(p, id) == 0)
    && (id in c.calls && GotResponse(c.calls[id]) ==> Places(c, p, id) == 0)
    && (id in c.calls && c.calls[id].pc.Awaiting? && c.calls[id].methodName != "" && id !in p.lost ==>
          Places(c, p, id) == 1)
  }

  ghost predicate Tally(c: Conn, p: Conn) {
    forall id :: id !in p.calls ==> Counted(c, p, id)
  }

  ghost predicate View(c: Conn, p: Conn) {
    && c.calls.Keys !! p.calls.Keys
    && PendingOk(c)
    && RequestsGenuine(c, p)
    && ResponsesGenuine(c, p)
    && Tally(c, p)
  }

  // ---------- steps of the caller's end ----------

  lemma SameOutput(p: Conn)
    ensures Deliver(p, []) == p
  {
    assert p.inbox + [] == p.inbox;
  }

  /** Only the caller's side of c matters to its view. */
  ghost predicate SameCaller(c: Conn, c': Conn) {
    && c'.calls == c.calls && c'.pending == c.pending && c'.slots == c.slots
    && c'.inbox == c.inbox && c'.reader == c.reader
  }

  lemma SameCallerTally(c: Conn, c': Conn, p: Conn)
    requires Tally(c, p) && SameCaller(c, c')
    ensures Tally(c', p)
  {
    forall id | id !in p.calls
      ensures Counted(c', p, id)
    {
      assert Counted(c, p, id);
    }
  }

  lemma SameCallerView(c: Conn, c': Conn, p: Conn)
    requires View(c, p) && SameCaller(c, c')
    ensures View(c', p)
  {
    SameCallerTally(c, c', p);
  }

  /** Messages that are no calls leave the caller's view of its peer alone. */
  lemma ForeignOutput(c: Conn, p: Conn, m: Message)
    requires View(c, p)
    requires RouteOf(m).ToHandlers? ==> m.id.None?
    ensures View(c, Deliver(p, [m]))
  {
    BagSnoc(p.inbox, m, CallLabel);
    var p' := Deliver(p, [m]);
    forall id | id !in p.calls
      ensures Counted(c, p', id)
    {
      assert Counted(c, p, id);
    }
  }

  lemma NewCallTally(c: Conn, p: Conn, id: ID, call: Call, c': Conn)
    requires PendingOk(c) && ResponsesGenuine(c, p) && Tally(c, p)
    requires id !in c.calls && id !in p.calls && call.pc.Registered?
    requires c'.slots == c.slots && c'.inbox == c.inbox && c'.reader == c.reader && c'.calls == c.calls[id := call]
    ensures Tally(c', p)
  {
    assert Counted(c, p, id);
    NoStrayResponse(c, p, id);
    OpenBelowArrived(p.requests, id);
    forall i | i !in p.calls
      ensures Counted(c', p, i)
    {
      assert Counted(c, p, i);
    }
  }

  /** Nothing on the way to c names an id that neither end has called. */
  lemma NoStrayResponse(c: Conn, p: Conn, id: ID)
    requires ResponsesGenuine(c, p) && id !in c.calls && id !in p.calls
    ensures Bag(c.inbox, ResponseLabel)[id] == 0
  {
    if id in Bag(c.inbox, ResponseLabel) {
      var i := BagWitness(c.inbox, id, ResponseLabel);
      assert false;
    }
  }

  lemma {:induction false} OpenBelowArrived(requests: seq<Request>, id: ID)
    ensures Bag(requests, OpenLabel)[id] <= Bag(requests, RequestLabel)[id]
  {
    if requests != [] {
      OpenBelowArrived(requests[1..], id);
    }
  }

  lemma CallerNewCall(c: Conn, p: Conn, id: ID, call: Call, c': Conn)
    requires View(c, p) && id !in c.calls && id !in p.calls && call.pc.Registered?
    requires c' == c.(calls := c.calls[id := call], pending := c.pending + {id})
    ensures View(c', p)
  {
    NewCallTally(c, p, id, call, c');
  }

  /** A call moves to a new program point. */
  ghost predicate Moved(c: Conn, c': Conn, id: ID, pc: CallPc) {
    && id in c.calls
    && c'.calls == c.calls[id := c.calls[id].(pc := pc)]
    && c'.inbox == c.inbox && c'.reader == c.reader
  }

  lemma MovedPending(c: Conn, c': Conn, id: ID, pc: CallPc)
    requires PendingOk(c) && Moved(c, c', id, pc)
    requires c'.pending == if pc.Returned? then c.pending - {id} else c.pending
    requires !pc.Returned? ==> !c.calls[id].pc.Returned?
    requires c'.slots.Keys <= c.slots.Keys
    ensures PendingOk(c') && c'.calls.Keys == c.calls.Keys
  {
  }

  lemma MovedGenuine(c: Conn, p: Conn, c': Conn, id: ID, pc: CallPc)
    requires RequestsGenuine(c, p) && ResponsesGenuine(c, p) && Moved(c, c', id, pc)
    requires forall i :: i in c'.slots ==> i in c.slots && c'.slots[i] == c.slots[i]
    requires EndOf(pc).Some? && EndOf(pc).value.Got? ==> ReplyOf(p.requests, id, EndOf(pc).value.response)
    ensures RequestsGenuine(c', p) && ResponsesGenuine(c', p)
  {
  }

  /** The tally allows a call to move without a message being sent or taken. */
  lemma MovedTally(c: Conn, p: Conn, c': Conn, id: ID, pc: CallPc)
    requires Tally(c, p) && Moved(c, c', id, pc)
    requires c'.slots == c.slots && !pc.Registered? && !pc.Awaiting?
    requires EndOf(pc).Some? && EndOf(pc).value.Got? ==> GotResponse(c.calls[id])
    ensures Tally(c', p)
  {
    forall i | i !in p.calls
      ensures Counted(c', p, i)
    {
      assert Counted(c, p, i);
    }
  }

  lemma CallerWaits(c: Conn, p: Conn, c': Conn, id: ID, pc: CallPc)
    requires View(c, p) && Moved(c, c', id, pc) && c'.slots == c.slots
    requires
      || (c.calls[id].pc.Awaiting? && pc == Leaving(Cancelled) && c'.pending == c.pending)
      || (c.calls[id].pc.Leaving? && pc == Returned(c.calls[id].pc.end) && c'.pending == c.pending - {id})
    ensures View(c', p)
  {
    MovedTally(c, p, c', id, pc);
    MovedPending(c, c', id, pc);
    assert GotResponse(c.calls[id]) ==> ReplyOf(p.requests, id, EndOf(c.calls[id].pc).value.response);
    MovedGenuine(c, p, c', id, pc);
  }

  lemma ReceivesTally(c: Conn, p: Conn, c': Conn, id: ID, pc: CallPc)
    requires Tally(c, p) && Moved(c, c', id, pc) && pc.Leaving? && id !in p.calls
    requires id in c.slots && c'.slots == c.slots - {id}
    ensures Tally(c', p)
  {
    forall i | i !in p.calls
      ensures Counted(c', p, i)
    {
      assert Counted(c, p, i);
    }
  }

  lemma CallerReceives(c: Conn, p: Conn, c': Conn, id: ID, pc: CallPc)
    requires View(c, p) && Moved(c, c', id, pc) && c'.pending == c.pending
    requires c.calls[id].pc.Awaiting? && id in c.slots
    requires pc == Leaving(Got(c.slots[id])) && c'.slots == c.slots - {id}
    ensures View(c', p)
  {
    ReceivesTally(c, p, c', id, pc);
    MovedPending(c, c', id, pc);
    MovedGenuine(c, p, c', id, pc);
  }

  lemma WritesTally(c: Conn, p: Conn, c': Conn, p': Conn, id: ID, pc: CallPc, m: Message)
    requires Tally(c, p) && Moved(c, c', id, pc) && c'.slots == c.slots && id !in p.calls
    requires c.calls[id].pc.Registered? && (pc.Awaiting? || pc == Leaving(WriteFailed))
    requires m == Message(Some(id), c.calls[id].methodName, c.calls[id].params, None, None)
    requires p' == Deliver(p, [m])
    ensures Tally(c', p')
  {
    BagSnoc(p.inbox, m, CallLabel);
    forall i | i !in p'.calls
      ensures Counted(c', p', i)
    {
      assert Counted(c, p, i);
    }
  }

  lemma CallerWrites(c: Conn, p: Conn, c': Conn, p': Conn, id: ID, pc: CallPc, m: Message, carried: bool)
    requires View(c, p) && Moved(c, c', id, pc) && c'.pending == c.pending && c'.slots == c.slots
    requires c.calls[id].pc.Registered? && ((pc.Awaiting? && carried) || pc == Leaving(WriteFailed))
    requires m == Message(Some(id), c.calls[id].methodName, c.calls[id].params, None, None)
    requires p' == Deliver(p, if carried then [m] else [])
    ensures View(c', p')
  {
    MovedPending(c, c', id, pc);
    MovedGenuine(c, p, c', id, pc);
    if carried {
      WritesTally(c, p, c', p', id, pc, m);
    } else {
      SameOutput(p);
      MovedTally(c, p, c', id, pc);
    }
  }

  lemma CallerSends(c: Conn, p: Conn, c': Conn, id: ID)
    requires View(c, p) && c.reader.Sending? && c.reader.response.id == Some(id) && id !in c.slots
    requires c' == c.(slots := c.slots[id := c.reader.response], reader := Reading)
    ensures View(c', p)
  {
    forall i | i !in p.calls
      ensures Counted(c', p, i)
    {
      assert Counted(c, p, i);
    }
  }

  /** The reader takes a message; it keeps a response to a pending call. */
  ghost predicate Reads(c: Conn, c': Conn) {
    && c.reader.Reading? && c.inbox != []
    && c'.calls == c.calls && c'.pending == c.pending && c'.slots == c.slots && c'.inbox == c.inbox[1..]
    && var m := c.inbox[0];
       c'.reader == if RouteOf(m).ToCaller? && m.id.value in c.pending then Sending(m) else Reading
  }

  lemma ReadsCounted(c: Conn, p: Conn, c': Conn, id: ID)
    requires PendingOk(c) && Reads(c, c') && Counted(c, p, id)
    ensures Counted(c', p, id)
  {
    var m := c.inbox[0];
    assert Bag(c.inbox, ResponseLabel) == ResponseLabel(m) + Bag(c'.inbox, ResponseLabel);
  }

  lemma ReadsTally(c: Conn, p: Conn, c': Conn)
    requires PendingOk(c) && Reads(c, c') && Tally(c, p)
    ensures Tally(c', p)
  {
    forall i | i !in p.calls
      ensures Counted(c', p, i)
    {
      ReadsCounted(c, p, c', i);
    }
  }

  lemma CallerReads(c: Conn, p: Conn, c': Conn)
    requires View(c, p) && Reads(c, c')
    ensures View(c', p)
  {
    assert c.inbox[0] in c.inbox && forall x :: x in c'.inbox ==> x in c.inbox;
    ReadsTally(c, p, c');
  }

  // ---------- steps of the serving end ----------

  lemma ServerTalks(q: Conn, c: Conn, m: Message)
    requires View(q, c)
    requires RouteOf(m).ToCaller? ==> m.id.value in c.calls
    ensures View(Deliver(q, [m]), c)
  {
    BagSnoc(q.inbox, m, ResponseLabel);
    var q' := Deliver(q, [m]);
    forall id | id !in c.calls
      ensures Counted(q', c, id)
    {
      assert Counted(q, c, id);
    }
  }

  /** Calls of the serving end do not concern the calls it serves. */
  lemma ServerCalls(q: Conn, c: Conn, c': Conn)
    requires View(q, c)
    requires c'.inbox == c.inbox && c'.requests == c.requests && c'.lost == c.lost
    requires c.calls.Keys <= c'.calls.Keys && c'.calls.Keys !! q.calls.Keys
    ensures View(q, c')
  {
    forall id | id !in c'.calls
      ensures Counted(q, c', id)
    {
      assert Counted(q, c, id);
    }
  }

  ghost predicate Progress(rs: seq<Request>, rs': seq<Request>) {
    |rs| <= |rs'| && forall k :: 0 <= k < |rs| ==> Evolves(rs[k], rs'[k]) && |rs'[k].answers| <= 1
  }

  /** A reply once given is the reply for ever. */
  lemma ReplyStays(rs: seq<Request>, rs': seq<Request>, id: ID, m: Message)
    requires Progress(rs, rs') && ReplyOf(rs, id, m)
    ensures ReplyOf(rs', id, m)
  {
    var k :| 0 <= k < |rs| && Answers(rs[k], id, m);
    assert Evolves(rs[k], rs'[k]);
    assert rs'[k].answers[0] == rs[k].answers[0];
    assert Answers(rs'[k], id, m);
  }

  lemma ResponsesStay(q: Conn, c: Conn, c': Conn)
    requires ResponsesGenuine(q, c) && Progress(c.requests, c'.requests) && c'.calls == c.calls
    ensures ResponsesGenuine(q, c')
  {
    forall id: ID, m: Message | ReplyOf(c.requests, id, m)
      ensures ReplyOf(c'.requests, id, m)
    {
      ReplyStays(c.requests, c'.requests, id, m);
    }
  }

  lemma ArriveTally(q: Conn, c: Conn, c': Conn)
    requires Tally(q, c) && c.inbox != [] && c'.inbox == c.inbox[1..] && c'.calls == c.calls && c'.lost == c.lost
    requires c'.requests ==
             if RouteOf(c.inbox[0]).ToHandlers? then c.requests + [NewRequest(c.inbox[0])] else c.requests
    ensures Tally(q, c')
  {
    BagSnoc(c.requests, NewRequest(c.inbox[0]), OpenLabel);
    BagSnoc(c.requests, NewRequest(c.inbox[0]), RequestLabel);
    forall id | id !in c'.calls
      ensures Counted(q, c', id)
    {
      assert Counted(q, c, id);
    }
  }

  lemma ServerReads(q: Conn, c: Conn, c': Conn)
    requires View(q, c) && Served(c) && c.inbox != [] && c'.inbox == c.inbox[1..] && c'.calls == c.calls && c'.lost == c.lost
    requires c'.requests ==
             if RouteOf(c.inbox[0]).ToHandlers? then c.requests + [NewRequest(c.inbox[0])] else c.requests
    ensures View(q, c')
  {
    ArriveTally(q, c, c');
    forall k | 0 <= k < |c.requests|
      ensures Evolves(c.requests[k], c'.requests[k]) && |c'.requests[k].answers| <= 1
    {
      assert RequestOk(c.requests[k]);
    }
    ResponsesStay(q, c, c');
    assert c.inbox[0] in c.inbox;
    assert forall x :: x in c.inbox[1..] ==> x in c.inbox;
  }

  lemma WorkProgress(c: Conn, c': Conn, k: nat)
    requires Served(c) && k < |c.requests| && |c'.requests| == |c.requests|
    requires c'.requests == c.requests[k := c'.requests[k]]
    requires Evolves(c.requests[k], c'.requests[k]) && RequestOk(c'.requests[k])
    ensures Progress(c.requests, c'.requests)
  {
    forall j | 0 <= j < |c.requests|
      ensures Evolves(c.requests[j], c'.requests[j]) && |c'.requests[j].answers| <= 1
    {
      assert RequestOk(c.requests[j]);
    }
  }

  /** What leaves request k towards q's inbox arrives there, unless it is lost. */
  ghost predicate Handed(q: Conn, c: Conn, q': Conn, c': Conn, k: nat, id: ID)
    requires k < |c.requests| && k < |c'.requests|
  {
    var before := OpenLabel(c.requests[k])[id] + Bag(q.inbox, ResponseLabel)[id];
    var after := OpenLabel(c'.requests[k])[id] + Bag(q'.inbox, ResponseLabel)[id];
    after <= before && (id !in c'.lost ==> after == before)
  }

  lemma WorkCount(q: Conn, c: Conn, q': Conn, c': Conn, k: nat, id: ID)
    requires Counted(q, c, id) && q'.calls == q.calls && q'.slots == q.slots && q'.reader == q.reader
    requires c'.inbox == c.inbox && c.lost <= c'.lost
    requires k < |c.requests| && |c'.requests| == |c.requests| && c'.requests == c.requests[k := c'.requests[k]]
    requires c'.requests[k].id == c.requests[k].id
    requires Handed(q, c, q', c', k, id)
    ensures Counted(q', c', id)
  {
    var r' := c'.requests[k];
    BagUpdateAt(c.requests, k, r', id, OpenLabel);
    BagUpdateAt(c.requests, k, r', id, RequestLabel);
    assert RequestLabel(r') == RequestLabel(c.requests[k]);
    assert Arrivals(c', id) == Arrivals(c, id);
    assert Places(q', c', id) <= Places(q, c, id);
    assert id !in c'.lost ==> Places(q', c', id) == Places(q, c, id);
  }

  lemma WorkTally(q: Conn, c: Conn, q': Conn, c': Conn, k: nat)
    requires Tally(q, c) && q'.calls == q.calls && q'.slots == q.slots && q'.reader == q.reader
    requires c'.inbox == c.inbox && c'.calls == c.calls && c.lost <= c'.lost
    requires k < |c.requests| && |c'.requests| == |c.requests| && c'.requests == c.requests[k := c'.requests[k]]
    requires c'.requests[k].id == c.requests[k].id
    requires forall id :: Handed(q, c, q', c', k, id)
    ensures Tally(q', c')
  {
    forall id | id !in c'.calls
      ensures Counted(q', c', id)
    {
      assert Handed(q, c, q', c', k, id);
      assert Counted(q, c, id);
      WorkCount(q, c, q', c', k, id);
    }
  }

  /** A request moves on without its reply being written. */
  lemma ServerWorks(q: Conn, c: Conn, c': Conn, k: nat)
    requires View(q, c) && Served(c)
    requires c'.inbox == c.inbox && c'.calls == c.calls && c'.lost == c.lost
    requires k < |c.requests| && |c'.requests| == |c.requests| && c'.requests == c.requests[k := c'.requests[k]]
    requires Evolves(c.requests[k], c'.requests[k]) && RequestOk(c'.requests[k])
    requires OpenLabel(c.requests[k]) == OpenLabel(c'.requests[k])
    ensures View(q, c')
  {
    WorkTally(q, c, q, c', k);
    WorkProgress(c, c', k);
    ResponsesStay(q, c, c');
  }

  lemma ReplyHanded(q: Conn, c: Conn, q': Conn, c': Conn, k: nat, carried: bool, m: Message)
    requires k < |c.requests| && c.requests[k].writing && c.requests[k].id.Some? && m.id == c.requests[k].id
    requires RouteOf(m).ToCaller?
    requires c'.requests == c.requests[k := c.requests[k].(writing := false)] && c.requests[k].state == Replied
    requires !carried ==> c.requests[k].id.value in c'.lost
    requires q' == Deliver(q, if carried then [m] else [])
    ensures forall id :: Handed(q, c, q', c', k, id)
  {
    SameOutput(q);
    BagSnoc(q.inbox, m, ResponseLabel);
  }

  /** The reply to request k is written to q, or lost. */
  ghost predicate RepliesTo(q: Conn, c: Conn, q': Conn, c': Conn, k: nat, carried: bool) {
    && k < |c.requests| && c.requests[k].writing && c.requests[k].answers != []
    && c'.inbox == c.inbox && c'.calls == c.calls
    && c'.requests == c.requests[k := c.requests[k].(writing := false)]
    && c'.lost == (if !carried && c.requests[k].id.Some? then c.lost + {c.requests[k].id.value} else c.lost)
    && q' == Deliver(q, if carried then [WireResponse(c.requests[k])] else [])
  }

  lemma ReplyTally(q: Conn, c: Conn, q': Conn, c': Conn, k: nat, carried: bool)
    requires Tally(q, c) && Served(c) && RepliesTo(q, c, q', c', k, carried)
    ensures Tally(q', c')
  {
    var r := c.requests[k];
    assert RequestOk(r);
    ResponseShape(r.id, r.answers[0]);
    ReplyHanded(q, c, q', c', k, carried, WireResponse(r));
    WorkTally(q, c, q', c', k);
  }

  lemma ReplyGenuine(q: Conn, c: Conn, q': Conn, c': Conn, k: nat, carried: bool)
    requires RequestsGenuine(q, c) && ResponsesGenuine(q, c) && Served(c) && RepliesTo(q, c, q', c', k, carried)
    ensures ResponsesGenuine(q', c')
  {
    var r := c.requests[k];
    assert RequestOk(r);
    ResponseShape(r.id, r.answers[0]);
    WorkProgress(c, c', k);
    ResponsesStay(q, c, c');
    assert Answers(c'.requests[k], r.id.value, WireResponse(r));
    SameOutput(q);
    RepliedGenuine(q, c, q', c', WireResponse(r));
  }

  lemma ServerReplies(q: Conn, c: Conn, q': Conn, c': Conn, k: nat, carried: bool)
    requires View(q, c) && Served(c) && RepliesTo(q, c, q', c', k, carried)
    ensures View(q', c')
  {
    ReplyTally(q, c, q', c', k, carried);
    ReplyGenuine(q, c, q', c', k, carried);
  }

  lemma RepliedGenuine(q: Conn, c: Conn, q': Conn, c': Conn, m: Message)
    requires ResponsesGenuine(q, c') && RequestsGenuine(q, c) && c'.inbox == c.inbox
    requires RouteOf(m).ToCaller? && m.id.value in q.calls && ReplyOf(c'.requests, m.id.value, m)
    requires q' == Deliver(q, [m]) || q' == q
    ensures ResponsesGenuine(q', c')
  {
  }

  // ---------- every step keeps both views ----------

  predicate IsWork(a: Action) {
    a.Start? || a.HandlerParallel? || a.HandlerReply? || a.HandlerReturn? || a.DefaultDeliver?
    || a.Unwind? || a.End? || a.CancelRequest?
  }

  /** Work on a request leaves everything but that request alone, and the
      reply it may give is still to be written. */
  lemma WorkFrame(c: Conn, a: Action)
    requires Enabled(c, a) && Served(c) && IsWork(a)
    ensures var c' := Act(c, a);
            && Output(c, a) == []
            && SameCaller(c, c') && c'.lost == c.lost
            && Target(c, a).Some?
            && var k := Target(c, a).value;
            && k < |c.requests| && |c'.requests| == |c.requests|
            && c'.requests == c.requests[k := c'.requests[k]]
            && Evolves(c.requests[k], c'.requests[k]) && RequestOk(c'.requests[k])
            && OpenLabel(c.requests[k]) == OpenLabel(c'.requests[k])
  {
    var k := Target(c, a).value;
    OnlyTarget(c, a);
    TargetStep(c, a, k);
    assert RequestOk(c.requests[k]);
  }

  lemma WorkKeepsViews(c: Conn, p: Conn, a: Action)
    requires View(c, p) && View(p, c) && Served(c) && Enabled(c, a) && IsWork(a)
    ensures View(Act(c, a), Deliver(p, Output(c, a))) && View(Deliver(p, Output(c, a)), Act(c, a))
  {
    WorkFrame(c, a);
    SameOutput(p);
    SameCallerView(c, Act(c, a), p);
    ServerWorks(p, c, Act(c, a), Target(c, a).value);
  }

  lemma WriteReplyKeepsViews(c: Conn, p: Conn, a: Action)
    requires View(c, p) && View(p, c) && Served(c) && Enabled(c, a) && a.WriteReply?
    ensures View(Act(c, a), Deliver(p, Output(c, a))) && View(Deliver(p, Output(c, a)), Act(c, a))
  {
    var r := c.requests[a.k];
    var c', p' := Act(c, a), Deliver(p, Output(c, a));
    assert RequestOk(r);
    ServerReplies(p, c, p', c', a.k, a.carried);
    WriteReplyKeepsCaller(c, p, a);
  }

  lemma WriteReplyKeepsCaller(c: Conn, p: Conn, a: Action)
    requires View(c, p) && Served(c) && Enabled(c, a) && a.WriteReply?
    ensures View(Act(c, a), Deliver(p, Output(c, a)))
  {
    var r := c.requests[a.k];
    assert RequestOk(r);
    ResponseShape(r.id, r.answers[|r.answers| - 1]);
    SameOutput(p);
    SameCallerView(c, Act(c, a), p);
    if a.carried {
      ForeignOutput(Act(c, a), p, WireResponse(r));
    }
  }

  lemma WritesKeepViews(c: Conn, p: Conn, a: Action)
    requires View(c, p) && View(p, c) && Enabled(c, a) && (a.WriteCall? || a.Notify?)
    ensures View(Act(c, a), Deliver(p, Output(c, a))) && View(Deliver(p, Output(c, a)), Act(c, a))
  {
    var c' := Act(c, a);
    SameOutput(p);
    if a.WriteCall? {
      var m := Message(Some(a.id), c.calls[a.id].methodName, c.calls[a.id].params, None, None);
      var pc := if a.ok then Awaiting else Leaving(WriteFailed);
      CallerWrites(c, p, c', Deliver(p, Output(c, a)), a.id, pc, m, a.carried);
    } else {
      ForeignOutput(c, p, Message(None, a.methodName, a.params, None, None));
    }
    ServerCalls(p, c, c');
    if Output(c, a) != [] {
      ServerTalks(p, c', Output(c, a)[0]);
    }
  }

  lemma ReadFrame(c: Conn, a: Action)
    requires Enabled(c, a) && a.Read?
    ensures var c', m := Act(c, a), c.inbox[0];
            && Output(c, a) == []
            && c'.calls == c.calls && c'.pending == c.pending && c'.slots == c.slots && c'.inbox == c.inbox[1..]
            && c'.reader == (if RouteOf(m).ToCaller? && m.id.value in c.pending then Sending(m) else Reading)
            && c'.requests == (if RouteOf(m).ToHandlers? then c.requests + [NewRequest(m)] else c.requests)
            && c'.lost == c.lost
  {
  }

  lemma ReadKeepsViews(c: Conn, p: Conn, c': Conn, a: Action)
    requires View(c, p) && View(p, c) && Served(c) && Enabled(c, a) && a.Read? && c' == Act(c, a)
    ensures View(c', p) && View(p, c')
  {
    ReadFrame(c, a);
    CallerReads(c, p, c');
    ServerReads(p, c, c');
  }

  lemma WaitKeepsView(c: Conn, p: Conn, c': Conn, a: Action)
    requires View(c, p) && Enabled(c, a) && (a.CancelCall? || a.LeaveCall?) && c' == Act(c, a)
    ensures View(c', p)
  {
    CallerWaits(c, p, c', a.id, c'.calls[a.id].pc);
  }

  lemma ReceiveKeepsView(c: Conn, p: Conn, c': Conn, a: Action)
    requires View(c, p) && View(p, c) && Enabled(c, a) && a.Receive? && c' == Act(c, a)
    ensures View(c', p)
  {
    CallerReceives(c, p, c', a.id, Leaving(Got(c.slots[a.id])));
  }

  lemma NewCallKeepsView(c: Conn, p: Conn, c': Conn, a: Action)
    requires View(c, p) && Enabled(c, a) && a.NewCall? && a.id !in p.calls && c' == Act(c, a)
    ensures View(c', p)
  {
    CallerNewCall(c, p, a.id, c'.calls[a.id], c');
  }

  lemma SendKeepsView(c: Conn, p: Conn, c': Conn, a: Action)
    requires View(c, p) && Enabled(c, a) && a.Send? && c' == Act(c, a)
    ensures View(c', p)
  {
    CallerSends(c, p, c', c.reader.response.id.value);
  }

  lemma StopKeepsView(c: Conn, p: Conn, c': Conn, a: Action)
    requires View(c, p) && Enabled(c, a) && a.StopReader? && c' == Act(c, a)
    ensures View(c', p)
  {
    StopTally(c, p, c');
  }

  predicate IsCallStep(a: Action) {
    a.NewCall? || a.Receive? || a.CancelCall? || a.LeaveCall? || a.Send? || a.StopReader? || a.LookUp?
  }

  lemma CallFrame(c: Conn, a: Action)
    requires Enabled(c, a) && IsCallStep(a)
    ensures var c' := Act(c, a);
            && Output(c, a) == []
            && c'.inbox == c.inbox && c'.requests == c.requests && c'.lost == c.lost
            && c'.calls.Keys == c.calls.Keys + (if a.NewCall? then {a.id} else {})
  {
  }

  lemma CallKeepsCallerView(c: Conn, p: Conn, c': Conn, a: Action)
    requires View(c, p) && View(p, c) && Enabled(c, a) && IsCallStep(a) && c' == Act(c, a)
    requires a.NewCall? ==> a.id !in p.calls
    ensures View(c', p)
  {
    if a.NewCall? {
      NewCallKeepsView(c, p, c', a);
    } else if a.Receive? {
      ReceiveKeepsView(c, p, c', a);
    } else if a.Send? {
      SendKeepsView(c, p, c', a);
    } else if a.StopReader? {
      StopKeepsView(c, p, c', a);
    } else if a.LookUp? {
      SameCallerView(c, c', p);
    } else {
      WaitKeepsView(c, p, c', a);
    }
  }

  lemma CallKeepsServerView(c: Conn, p: Conn, c': Conn, a: Action)
    requires View(c, p) && View(p, c) && Enabled(c, a) && IsCallStep(a) && c' == Act(c, a)
    requires a.NewCall? ==> a.id !in p.calls
    ensures View(p, c')
  {
    CallFrame(c, a);
    ServerCalls(p, c, c');
  }

  lemma StopTally(c: Conn, p: Conn, c': Conn)
    requires Tally(c, p) && c.reader.Reading? && c' == c.(reader := Stopped)
    ensures Tally(c', p)
  {
    forall id | id !in p.calls
      ensures Counted(c', p, id)
    {
      assert Counted(c, p, id);
    }
  }

  /** Any step of either end keeps what each end knows about its calls. */
  lemma StepKeepsViews(c: Conn, p: Conn, a: Action)
    requires View(c, p) && View(p, c) && Served(c) && Enabled(c, a)
    requires a.NewCall? ==> a.id !in p.calls
    ensures View(Act(c, a), Deliver(p, Output(c, a)))
    ensures View(Deliver(p, Output(c, a)), Act(c, a))
  {
    if IsWork(a) {
      WorkKeepsViews(c, p, a);
    } else if a.WriteReply? {
      WriteReplyKeepsViews(c, p, a);
    } else if a.WriteCall? || a.Notify? {
      WritesKeepViews(c, p, a);
    } else {
      SameOutput(p);
      if a.Read? {
        ReadFrame(c, a);
        ReadKeepsViews(c, p, Act(c, a), a);
      } else {
        CallFrame(c, a);
        CallKeepsCallerView(c, p, Act(c, a), a);
        CallKeepsServerView(c, p, Act(c, a), a);
      }
    }
  }
}
