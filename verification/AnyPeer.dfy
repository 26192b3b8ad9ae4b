/** One connection whose peer may send anything at any time: what it keeps whatever
    arrives, when its reader can block, and how often it answers. */
module AnyPeer {
  import opened Bags
  import opened Wire
  import opened Protocol
  import opened Handling
  import opened Exchange

  /** A connection with all that has arrived and all that it has written. */
  datatype History = History(c: Conn, got: seq<Message>, sent: seq<Message>)

  datatype Event = Arrives(m: Message) | Acts(a: Action)

  predicate Allowed(h: History, e: Event) { e.Acts? ==> Enabled(h.c, e.a) }

  function After(h: History, e: Event): History
    requires Allowed(h, e)
  {
    match e
    case Arrives(m) => History(Deliver(h.c, [m]), h.got + [m], h.sent)
    case Acts(a) => History(Act(h.c, a), h.got, h.sent + Output(h.c, a))
  }

  /** The history after the events, if each of them is possible in its turn. */
  function Play(n: nat, es: seq<Event>): Option<History> {
    if es == [] then Some(History(NewConn(n), [], []))
    else
      match Play(n, es[..|es| - 1])
      case None => None
      case Some(h) => if Allowed(h, es[|es| - 1]) then Some(After(h, es[|es| - 1])) else None
  }

  lemma PlayOn(n: nat, es: seq<Event>, e: Event)
    requires Play(n, es).Some? && Allowed(Play(n, es).value, e)
    ensures Play(n, es + [e]) == Some(After(Play(n, es).value, e))
  {
    assert (es + [e])[..|es|] == es;
  }

  // ---------- the caller's side ----------

  ghost predicate PendingExact(c: Conn) {
    forall id :: id in c.pending <==> id in c.calls && !c.calls[id].pc.Returned?
  }

  /** Every response in the connection has arrived, and none is there twice. */
  ghost predicate Accounted(h: History, id: ID) {
    Bag(h.c.inbox, ResponseLabel)[id] + Holds(h.c.reader, id) + InSlot(h.c, id) <= Bag(h.got, ResponseLabel)[id]
  }

  ghost predicate CallerOk(h: History) {
    && PendingExact(h.c)
    && (h.c.reader.Sending? ==> h.c.reader.response.id.Some?)
    && forall id :: Accounted(h, id)
  }

  lemma ArrivalAccounted(h: History, m: Message, id: ID)
    requires Accounted(h, id)
    ensures Accounted(After(h, Arrives(m)), id)
  {
    BagSnoc(h.c.inbox, m, ResponseLabel);
    BagSnoc(h.got, m, ResponseLabel);
  }

  /** Only reading takes from the inbox; nothing else adds to reader and slot. */
  lemma ReaderSide(c: Conn, a: Action, id: ID)
    requires Enabled(c, a) && !a.Read?
    ensures Act(c, a).inbox == c.inbox
    ensures Holds(Act(c, a).reader, id) + InSlot(Act(c, a), id) <= Holds(c.reader, id) + InSlot(c, id)
  {
  }

  lemma ReadMoves(c: Conn, c': Conn, id: ID)
    requires Reads(c, c')
    ensures Bag(c'.inbox, ResponseLabel)[id] + Holds(c'.reader, id) + InSlot(c', id)
            <= Bag(c.inbox, ResponseLabel)[id] + Holds(c.reader, id) + InSlot(c, id)
  {
    var m := c.inbox[0];
    assert Bag(c.inbox, ResponseLabel) == ResponseLabel(m) + Bag(c'.inbox, ResponseLabel);
  }

  lemma ActionAccounted(h: History, a: Action, id: ID)
    requires Accounted(h, id) && Enabled(h.c, a)
    ensures Accounted(After(h, Acts(a)), id)
  {
    if a.Read? {
      ReadFrame(h.c, a);
      ReadMoves(h.c, Act(h.c, a), id);
    } else {
      ReaderSide(h.c, a, id);
    }
  }

  lemma PendingKept(c: Conn, a: Action)
    requires PendingExact(c) && Enabled(c, a)
    ensures PendingExact(Act(c, a))
  {
  }

  lemma ResponseNamed(c: Conn, a: Action)
    requires Enabled(c, a) && (c.reader.Sending? ==> c.reader.response.id.Some?)
    ensures Act(c, a).reader.Sending? ==> Act(c, a).reader.response.id.Some?
  {
  }

  lemma AccountedKept(h: History, e: Event, id: ID)
    requires Accounted(h, id) && Allowed(h, e)
    ensures Accounted(After(h, e), id)
  {
    if e.Acts? {
      ActionAccounted(h, e.a, id);
    } else {
      ArrivalAccounted(h, e.m, id);
    }
  }

  lemma CallerKept(h: History, e: Event)
    requires CallerOk(h) && Allowed(h, e)
    ensures CallerOk(After(h, e))
  {
    forall id
      ensures Accounted(After(h, e), id)
    {
      AccountedKept(h, e, id);
    }
    if e.Acts? {
      PendingKept(h.c, e.a);
      ResponseNamed(h.c, e.a);
    }
  }

  lemma {:induction false} AlwaysCallerOk(n: nat, es: seq<Event>)
    requires Play(n, es).Some?
    ensures CallerOk(Play(n, es).value)
  {
    if es != [] {
      AlwaysCallerOk(n, es[..|es| - 1]);
      CallerKept(Play(n, es[..|es| - 1]).value, es[|es| - 1]);
    }
  }

  ghost predicate AnsweredTwice(msgs: seq<Message>, id: ID) { Bag(msgs, ResponseLabel)[id] >= 2 }

  /** For any peer: pending holds exactly the calls between registration and return, and
      the send to a caller's channel, cancelled or not, blocks only if two responses to
      that call have arrived. */
  lemma BlocksOnlyOnSecondAnswer(n: nat, es: seq<Event>)
    requires Play(n, es).Some?
    ensures var h := Play(n, es).value;
            && PendingExact(h.c)
            && (h.c.reader.Sending? ==> h.c.reader.response.id.Some?)
            && (h.c.reader.Sending? && !Enabled(h.c, Send) ==> AnsweredTwice(h.got, h.c.reader.response.id.value))
  {
    AlwaysCallerOk(n, es);
    var h := Play(n, es).value;
    if h.c.reader.Sending? {
      assert Accounted(h, h.c.reader.response.id.value);
    }
  }

  /** So with a peer that answers each id at most once the reader never blocks. */
  lemma SingleAnswersNeverBlock(n: nat, es: seq<Event>)
    requires Play(n, es).Some? && forall id :: !AnsweredTwice(Play(n, es).value.got, id)
    ensures PendingExact(Play(n, es).value.c)
    ensures Play(n, es).value.c.reader.Sending? ==> Enabled(Play(n, es).value.c, Send)
  {
    BlocksOnlyOnSecondAnswer(n, es);
  }

  // ---------- and a second answer can block it for good ----------

  /** The reader of c holds a response for a call whose slot is full and which
      will never empty it. */
  ghost predicate Jammed(c: Conn, id: ID) {
    && id in c.calls && EndOf(c.calls[id].pc).Some? && id in c.slots
    && c.reader.Sending? && c.reader.response.id == Some(id)
  }

  /** Whatever the peer and the reader do, a call can be written, or its write fail with or
      without reaching the peer; can be cancelled while it waits; and can leave; and a
      notification can be sent. */
  lemma CallerIsFree(c: Conn, id: ID, methodName: string, params: string)
    requires id in c.calls
    ensures Enabled(c, Notify(methodName, params))
    ensures match c.calls[id].pc
            case Registered => Enabled(c, WriteCall(id, true, true)) && forall carried :: Enabled(c, WriteCall(id, false, carried))
            case Awaiting => Enabled(c, CancelCall(id))
            case Leaving(_) => Enabled(c, LeaveCall(id))
            case Returned(_) => true
  {
  }

  /** Nothing the connection does, and nothing that arrives, frees a jammed reader. */
  lemma JammedForGood(h: History, id: ID, e: Event)
    requires Jammed(h.c, id) && Allowed(h, e)
    ensures Jammed(After(h, e).c, id) && e != Acts(Read) && e != Acts(Send)
  {
  }

  /** Any two responses to a call that waits jam the reader, if the call is cancelled
      after the first has been put into its channel. */
  lemma TwoAnswersJam(c: Conn, id: ID, m1: Message, m2: Message)
    requires id in c.calls && c.calls[id].pc.Awaiting? && id in c.pending && id !in c.slots
    requires c.reader.Reading? && c.inbox == []
    requires RouteOf(m1).ToCaller? && m1.id == Some(id) && RouteOf(m2).ToCaller? && m2.id == Some(id)
    ensures var c1 := Act(Act(Deliver(c, [m1, m2]), Read), Send);
            Jammed(Act(Act(c1, Read), CancelCall(id)), id)
  {
    var d := Deliver(c, [m1, m2]);
    assert d.inbox == [m1, m2];
    AnswerSlotted(d, id, m1);
    SecondAnswerJams(Act(Act(d, Read), Send), id, m2);
  }

  lemma SecondAnswerJams(c: Conn, id: ID, m: Message)
    requires id in c.calls && c.calls[id].pc.Awaiting? && id in c.pending && id in c.slots && c.reader.Reading?
    requires c.inbox == [m] && RouteOf(m).ToCaller? && m.id == Some(id)
    ensures Jammed(Act(Act(c, Read), CancelCall(id)), id)
  {
    assert Act(c, Read) == c.(inbox := [], reader := Sending(m));
  }

  lemma AnswerSlotted(c: Conn, id: ID, m: Message)
    requires id in c.pending && id !in c.slots && c.reader.Reading?
    requires c.inbox != [] && c.inbox[0] == m && RouteOf(m).ToCaller? && m.id == Some(id)
    ensures Act(c, Read) == c.(inbox := c.inbox[1..], reader := Sending(m))
    ensures Act(Act(c, Read), Send) == c.(inbox := c.inbox[1..], slots := c.slots[id := m])
  {
  }

  lemma {:induction false} AllArrive(n: nat, es: seq<Event>, h: History, msgs: seq<Message>) returns (es': seq<Event>)
    requires Play(n, es) == Some(h)
    ensures Play(n, es') == Some(History(Deliver(h.c, msgs), h.got + msgs, h.sent))
    decreases |msgs|
  {
    es' := es;
    if msgs == [] {
      assert h.c.inbox + [] == h.c.inbox && h.got + [] == h.got;
    } else {
      var front, m := msgs[..|msgs| - 1], msgs[|msgs| - 1];
      es' := AllArrive(n, es, h, front);
      PlayOn(n, es', Arrives(m));
      es' := es' + [Arrives(m)];
      assert front + [m] == msgs;
      assert h.c.inbox + front + [m] == h.c.inbox + msgs && h.got + front + [m] == h.got + msgs;
    }
  }

  /** The only call reads on until a response to it is at hand. */
  lemma {:induction false} ReadsUpToAnswer(n: nat, es: seq<Event>, h: History, id: ID) returns (es': seq<Event>, h': History)
    requires Play(n, es) == Some(h) && h.c.reader.Reading? && h.c.pending == {id}
    requires Bag(h.c.inbox, ResponseLabel)[id] >= 1
    ensures Play(n, es') == Some(h') && h'.got == h.got
    ensures h'.c.reader.Sending? && h'.c.reader.response.id == Some(id)
    ensures h'.c.calls == h.c.calls && h'.c.pending == h.c.pending && h'.c.slots == h.c.slots
    ensures Bag(h'.c.inbox, ResponseLabel)[id] + 1 == Bag(h.c.inbox, ResponseLabel)[id]
    decreases |h.c.inbox|
  {
    PlayOn(n, es, Acts(Read));
    es', h' := es + [Acts(Read)], After(h, Acts(Read));
    ReadOne(h, h', id);
    if h'.c.reader.Reading? {
      es', h' := ReadsUpToAnswer(n, es', h', id);
    }
  }

  lemma ReadOne(h: History, h': History, id: ID)
    requires h.c.reader.Reading? && h.c.pending == {id} && h.c.inbox != [] && h' == After(h, Acts(Read))
    ensures h'.got == h.got && h'.c.calls == h.c.calls && h'.c.pending == h.c.pending && h'.c.slots == h.c.slots
    ensures |h'.c.inbox| < |h.c.inbox|
    ensures h'.c.reader.Reading? || (h'.c.reader.Sending? && h'.c.reader.response.id == Some(id))
    ensures Bag(h.c.inbox, ResponseLabel)[id]
            == Bag(h'.c.inbox, ResponseLabel)[id] + (if h'.c.reader.Sending? then 1 else 0)
  {
    ReadFrame(h.c, Read);
    var m := h.c.inbox[0];
    assert Bag(h.c.inbox, ResponseLabel) == ResponseLabel(m) + Bag(h'.c.inbox, ResponseLabel);
  }

  /** A connection with one call that waits. */
  ghost predicate OneWaits(c: Conn, id: ID) {
    && c.pending == {id} && id in c.calls && c.calls[id].pc.Awaiting?
    && c.reader.Reading?
  }

  lemma OneCall(n: nat, id: ID) returns (es: seq<Event>, h: History)
    ensures Play(n, es) == Some(h) && OneWaits(h.c, id) && h.c.slots == map[] && h.c.inbox == [] && h.got == []
  {
    PlayOn(n, [], Acts(NewCall(id, "m", "null")));
    es := [] + [Acts(NewCall(id, "m", "null"))];
    PlayOn(n, es, Acts(WriteCall(id, true, true)));
    es := es + [Acts(WriteCall(id, true, true))];
    h := Play(n, es).value;
  }

  lemma SendFills(h: History, id: ID)
    requires h.c.reader.Sending? && h.c.reader.response.id == Some(id) && id !in h.c.slots
    ensures Allowed(h, Acts(Send))
    ensures var h' := After(h, Acts(Send));
            && h'.got == h.got && h'.c.inbox == h.c.inbox && h'.c.reader.Reading? && id in h'.c.slots
            && h'.c.calls == h.c.calls && h'.c.pending == h.c.pending
  {
  }

  lemma TakesAnswer(n: nat, es: seq<Event>, h: History, id: ID) returns (es': seq<Event>, h': History)
    requires Play(n, es) == Some(h) && OneWaits(h.c, id) && id !in h.c.slots
    requires Bag(h.c.inbox, ResponseLabel)[id] >= 1
    ensures Play(n, es') == Some(h') && h'.got == h.got && OneWaits(h'.c, id) && id in h'.c.slots
    ensures Bag(h'.c.inbox, ResponseLabel)[id] + 1 == Bag(h.c.inbox, ResponseLabel)[id]
  {
    es', h' := ReadsUpToAnswer(n, es, h, id);
    SendFills(h', id);
    PlayOn(n, es', Acts(Send));
    es', h' := es' + [Acts(Send)], After(h', Acts(Send));
  }

  lemma JamsOnAnswer(n: nat, es: seq<Event>, h: History, id: ID) returns (es': seq<Event>)
    requires Play(n, es) == Some(h) && OneWaits(h.c, id) && id in h.c.slots
    requires Bag(h.c.inbox, ResponseLabel)[id] >= 1
    ensures JamsBy(n, h.got, es', id)
  {
    var h';
    es', h' := ReadsUpToAnswer(n, es, h, id);
    PlayOn(n, es', Acts(CancelCall(id)));
    es' := es' + [Acts(CancelCall(id))];
  }

  lemma JamSchedule(n: nat, msgs: seq<Message>, id: ID) returns (es: seq<Event>)
    requires AnsweredTwice(msgs, id)
    ensures JamsBy(n, msgs, es, id)
  {
    var es1, h1 := OneCall(n, id);
    var es2 := AllArrive(n, es1, h1, msgs);
    var c2 := Deliver(h1.c, msgs);
    assert [] + msgs == msgs;
    assert c2.inbox == msgs && OneWaits(c2, id);
    var es3, h3 := TakesAnswer(n, es2, History(c2, msgs, h1.sent), id);
    es := JamsOnAnswer(n, es3, h3, id);
  }

  ghost predicate JamsBy(n: nat, msgs: seq<Message>, es: seq<Event>, id: ID) {
    Play(n, es).Some? && Play(n, es).value.got == msgs && Jammed(Play(n, es).value.c, id)
  }

  /** Exactly which peers can jam a reader: those among whose messages are two responses
      to one id. Any such messages do it for some calls and some schedule, and no others
      do it for any. */
  lemma JamsExactlyIfAnsweredTwice(n: nat, msgs: seq<Message>)
    ensures (exists es, id :: JamsBy(n, msgs, es, id)) <==> (exists id :: AnsweredTwice(msgs, id))
  {
    if es, id :| JamsBy(n, msgs, es, id) {
      AlwaysCallerOk(n, es);
      assert Accounted(Play(n, es).value, id);
      assert AnsweredTwice(msgs, id);
    }
    if id :| AnsweredTwice(msgs, id) {
      var es := JamSchedule(n, msgs, id);
      assert JamsBy(n, msgs, es, id);
    }
  }

  // ---------- how often a connection answers ----------

  /** Whether the connection has written, or tried to write, its own call id. */
  function Written(c: Conn, id: ID): nat { if id in c.calls && !c.calls[id].pc.Registered? then 1 else 0 }

  /** What has been answered has been asked, and own calls are written once. */
  ghost predicate Balanced(h: History, id: ID) {
    && Bag(h.sent, ResponseLabel)[id] + Bag(h.c.requests, OpenLabel)[id]
       <= Bag(h.c.requests, RequestLabel)[id] + Written(h.c, id)
    && Bag(h.c.requests, RequestLabel)[id] + Bag(h.c.inbox, CallLabel)[id] <= Bag(h.got, CallLabel)[id]
    && Bag(h.sent, CallLabel)[id] <= Written(h.c, id)
  }

  /** What a step of c that writes out does to these counts. */
  ghost predicate StepBalanced(c: Conn, c': Conn, out: seq<Message>, id: ID) {
    && Bag(out, ResponseLabel)[id] + Bag(c'.requests, OpenLabel)[id] + Bag(c.requests, RequestLabel)[id] + Written(c, id)
       <= Bag(c.requests, OpenLabel)[id] + Bag(c'.requests, RequestLabel)[id] + Written(c', id)
    && Bag(c'.requests, RequestLabel)[id] + Bag(c'.inbox, CallLabel)[id]
       <= Bag(c.requests, RequestLabel)[id] + Bag(c.inbox, CallLabel)[id]
    && Bag(out, CallLabel)[id] + Written(c, id) <= Written(c', id)
  }

  lemma ArrivalBalanced(h: History, m: Message, id: ID)
    requires Balanced(h, id)
    ensures Balanced(After(h, Arrives(m)), id)
  {
    BagSnoc(h.c.inbox, m, CallLabel);
    BagSnoc(h.got, m, CallLabel);
  }

  /** Request k moves on; open tells whether it still counts as open. */
  lemma RequestBalanced(c: Conn, c': Conn, k: nat, out: seq<Message>, id: ID)
    requires k < |c.requests| && |c'.requests| == |c.requests| && c'.requests == c.requests[k := c'.requests[k]]
    requires c'.inbox == c.inbox && c'.calls == c.calls && c'.requests[k].id == c.requests[k].id
    requires Bag(out, ResponseLabel)[id] + OpenLabel(c'.requests[k])[id] <= OpenLabel(c.requests[k])[id]
    requires Bag(out, CallLabel)[id] == 0
    ensures StepBalanced(c, c', out, id)
  {
    BagUpdateAt(c.requests, k, c'.requests[k], id, OpenLabel);
    BagUpdateAt(c.requests, k, c'.requests[k], id, RequestLabel);
    assert RequestLabel(c'.requests[k]) == RequestLabel(c.requests[k]);
  }

  lemma WorkBalanced(c: Conn, a: Action, id: ID)
    requires Served(c) && Enabled(c, a) && IsWork(a)
    ensures StepBalanced(c, Act(c, a), Output(c, a), id)
  {
    WorkFrame(c, a);
    RequestBalanced(c, Act(c, a), Target(c, a).value, [], id);
  }

  lemma OneLabel(m: Message, id: ID)
    ensures Bag([m], ResponseLabel)[id] == ResponseLabel(m)[id] && Bag([m], CallLabel)[id] == CallLabel(m)[id]
  {
    assert [m][1..] == [];
  }

  lemma ReplyBalanced(c: Conn, a: Action, id: ID)
    requires Served(c) && Enabled(c, a) && a.WriteReply?
    ensures StepBalanced(c, Act(c, a), Output(c, a), id)
  {
    var r := c.requests[a.k];
    assert RequestOk(r);
    ResponseShape(r.id, r.answers[|r.answers| - 1]);
    OneLabel(WireResponse(r), id);
    RequestBalanced(c, Act(c, a), a.k, Output(c, a), id);
  }

  lemma WriteBalanced(c: Conn, a: Action, id: ID)
    requires Enabled(c, a) && (a.WriteCall? || a.Notify?)
    ensures StepBalanced(c, Act(c, a), Output(c, a), id)
  {
    WrittenOnce(c, a, id);
    OutputLabels(c, a, id);
    assert Act(c, a).requests == c.requests && Act(c, a).inbox == c.inbox;
  }

  lemma WrittenOnce(c: Conn, a: Action, id: ID)
    requires Enabled(c, a) && (a.WriteCall? || a.Notify?)
    ensures Written(Act(c, a), id) == Written(c, id) + (if a.WriteCall? && a.id == id then 1 else 0)
  {
  }

  lemma OutputLabels(c: Conn, a: Action, id: ID)
    requires Enabled(c, a) && (a.WriteCall? || a.Notify?)
    ensures Bag(Output(c, a), ResponseLabel)[id] <= (if a.WriteCall? && a.id == id then 1 else 0)
    ensures Bag(Output(c, a), CallLabel)[id] <= (if a.WriteCall? && a.id == id then 1 else 0)
  {
    if Output(c, a) != [] {
      OneLabel(Output(c, a)[0], id);
    }
  }

  lemma ReadBalanced(c: Conn, a: Action, id: ID)
    requires Enabled(c, a) && a.Read?
    ensures StepBalanced(c, Act(c, a), Output(c, a), id)
  {
    var m := c.inbox[0];
    ReadFrame(c, a);
    assert Bag(c.inbox, CallLabel) == CallLabel(m) + Bag(c.inbox[1..], CallLabel);
    BagSnoc(c.requests, NewRequest(m), OpenLabel);
    BagSnoc(c.requests, NewRequest(m), RequestLabel);
  }

  lemma CallBalanced(c: Conn, a: Action, id: ID)
    requires Enabled(c, a) && IsCallStep(a)
    ensures StepBalanced(c, Act(c, a), Output(c, a), id)
  {
    CallFrame(c, a);
    SameWritten(c, a, id);
  }

  lemma SameWritten(c: Conn, a: Action, id: ID)
    requires Enabled(c, a) && IsCallStep(a)
    ensures Written(Act(c, a), id) == Written(c, id)
  {
  }

  lemma AnyStepBalanced(c: Conn, a: Action, id: ID)
    requires Served(c) && Enabled(c, a)
    ensures StepBalanced(c, Act(c, a), Output(c, a), id)
  {
    if IsWork(a) {
      WorkBalanced(c, a, id);
    } else if a.WriteReply? {
      ReplyBalanced(c, a, id);
    } else if a.WriteCall? || a.Notify? {
      WriteBalanced(c, a, id);
    } else if a.Read? {
      ReadBalanced(c, a, id);
    } else {
      CallBalanced(c, a, id);
    }
  }

  lemma ActionBalanced(h: History, a: Action, id: ID)
    requires Balanced(h, id) && Served(h.c) && Enabled(h.c, a)
    ensures Balanced(After(h, Acts(a)), id)
  {
    AnyStepBalanced(h.c, a, id);
    BagConcat(h.sent, Output(h.c, a), ResponseLabel);
    BagConcat(h.sent, Output(h.c, a), CallLabel);
  }

  lemma {:induction false} AlwaysBalanced(n: nat, es: seq<Event>, id: ID)
    requires Play(n, es).Some?
    ensures Served(Play(n, es).value.c) && Balanced(Play(n, es).value, id)
  {
    if es != [] {
      var e := es[|es| - 1];
      AlwaysBalanced(n, es[..|es| - 1], id);
      var h := Play(n, es[..|es| - 1]).value;
      if e.Acts? {
        ServedKept(h.c, e.a);
        ActionBalanced(h, e.a, id);
      } else {
        ArrivalBalanced(h, e.m, id);
      }
    }
  }

  /** Whatever arrives and whatever handlers do, a connection writes at most as many
      responses with an id as it got calls with it, and its own calls once: a call with
      an empty method name is the one that reads as a response. */
  lemma AnswersAtMostOnce(n: nat, es: seq<Event>, id: ID)
    requires Play(n, es).Some?
    ensures var h := Play(n, es).value;
            && Bag(h.sent, ResponseLabel)[id] <= Bag(h.got, CallLabel)[id] + Written(h.c, id)
            && Bag(h.sent, CallLabel)[id] <= Written(h.c, id)
  {
    AlwaysBalanced(n, es, id);
  }

  /** Two connections that get what the other has sent, with different calls: neither
      answers the other twice, so neither reader blocks. */
  lemma PeersNeverBlock(n: nat, es: seq<Event>, m: nat, fs: seq<Event>)
    requires Play(n, es).Some? && Play(m, fs).Some?
    requires Play(n, es).value.got == Play(m, fs).value.sent && Play(m, fs).value.got == Play(n, es).value.sent
    requires Play(n, es).value.c.calls.Keys !! Play(m, fs).value.c.calls.Keys
    ensures PendingExact(Play(n, es).value.c)
    ensures Play(n, es).value.c.reader.Sending? ==> Enabled(Play(n, es).value.c, Send)
  {
    forall id
      ensures !AnsweredTwice(Play(n, es).value.got, id)
    {
      AnswersAtMostOnce(n, es, id);
      AnswersAtMostOnce(m, fs, id);
    }
    SingleAnswersNeverBlock(n, es);
  }
}
