/** What the goroutine of one request makes of its handlers, as a function, and as steps of
    the transition system. */
module Goroutines {
  import opened Bags
  import opened Wire
  import opened Protocol
  import opened Handling

  /** What a handler does with a request while it has it. */
  datatype Op = GoesParallel | Replies(result: Option<string>, err: ErrorArg, carried: bool)
  datatype Script = Script(ops: seq<Op>, claim: bool)

  /** A request being served, what has been written for it, and whether its reply was lost. */
  datatype Job = Job(r: Request, sent: seq<Message>, lost: bool)

  /** The write of a reply that has been given. */
  function Writes(j: Job, carried: bool): Job {
    if !j.r.writing || j.r.answers == [] then j
    else
      Job(j.r.(writing := false), if carried then j.sent + [WireResponse(j.r)] else j.sent,
          j.lost || (!carried && j.r.id.Some?))
  }

  function DoOp(j: Job, op: Op): Job {
    match op
    case GoesParallel => j.(r := GoParallel(j.r))
    case Replies(result, err, carried) => Writes(j.(r := Reply(j.r, Answer(Handler, result, err))), carried)
  }

  function DoOps(j: Job, ops: seq<Op>): Job {
    if ops == [] then j else DoOp(DoOps(j, ops[..|ops| - 1]), ops[|ops| - 1])
  }

  /** A handler returns; left others come after it. */
  function DoReturn(j: Job, claim: bool, left: nat): Job {
    j.(r := j.r.(phase := Delivering(left), claimed := j.r.claimed || claim))
  }

  function DoScript(j: Job, s: Script, left: nat): Job { DoReturn(DoOps(j, s.ops), s.claim, left) }

  function Begun(r: Request, handlers: nat): Job {
    Job(r.(state := Serial, phase := Delivering(handlers)), [], false)
  }

  /** After the first n handlers. */
  function DoScripts(r: Request, scripts: seq<Script>, n: nat): Job
    requires n <= |scripts|
  {
    if n == 0 then Begun(r, |scripts|)
    else DoScript(DoScripts(r, scripts, n - 1), scripts[n - 1], |scripts| - n)
  }

  function DoDefault(j: Job, carried: bool): Job { Writes(j.(r := DeliverDefault(j.r)), carried) }

  function DoUnwind(j: Job, carried: bool): Job { Writes(j.(r := UnwindReply(j.r)), carried) }

  function DoEnd(j: Job): Job { j.(r := GoParallel(j.r).(phase := Finished)) }

  /** All handlers and the default one, and the deferred end. */
  function Delivered(r: Request, scripts: seq<Script>, carried: bool): Job {
    DoDefault(DoScripts(r, scripts, |scripts|), carried)
  }

  function Concluded(j: Job, carried: bool): Job { DoEnd(DoUnwind(j, carried)) }

  // ---------- what comes out of it ----------

  /** The request is consistent, its reply written, and sent or lost, and nothing else sent. */
  ghost predicate JobOk(j: Job) {
    && RequestOk(j.r) && !j.r.writing
    && (j.lost ==> j.r.answers != [])
    && j.sent == if j.r.answers == [] || j.lost then [] else [AsRead(BuildResponse(j.r.id, j.r.answers[0]))]
  }

  /** A reply that has just been given is written. */
  lemma WritesOk(j: Job, carried: bool)
    requires RequestOk(j.r) && j.r.writing && j.sent == [] && !j.lost
    ensures JobOk(Writes(j, carried))
    ensures Writes(j, carried).r == j.r.(writing := false)
  {
  }

  lemma OpOk(j: Job, op: Op)
    requires JobOk(j) && j.r.phase.Delivering?
    ensures JobOk(DoOp(j, op)) && DoOp(j, op).r.phase == j.r.phase && DoOp(j, op).r.claimed == j.r.claimed
    ensures DoOp(j, op).r.id == j.r.id && DoOp(j, op).r.methodName == j.r.methodName
  {
  }

  lemma {:induction false} OpsOk(j: Job, ops: seq<Op>)
    requires JobOk(j) && j.r.phase.Delivering?
    ensures JobOk(DoOps(j, ops)) && DoOps(j, ops).r.phase == j.r.phase && DoOps(j, ops).r.claimed == j.r.claimed
    ensures DoOps(j, ops).r.id == j.r.id && DoOps(j, ops).r.methodName == j.r.methodName
  {
    if ops != [] {
      OpsOk(j, ops[..|ops| - 1]);
      OpOk(DoOps(j, ops[..|ops| - 1]), ops[|ops| - 1]);
    }
  }

  lemma ReturnOk(j: Job, claim: bool, left: nat)
    requires JobOk(j) && j.r.phase.Delivering? && j.r.phase.left == left + 1
    ensures JobOk(DoReturn(j, claim, left))
  {
  }

  lemma ScriptOk(j: Job, s: Script, left: nat)
    requires JobOk(j) && j.r.phase.Delivering? && j.r.phase.left == left + 1
    ensures var j' := DoScript(j, s, left);
            JobOk(j') && j'.r.phase == Delivering(left) && j'.r.claimed == (j.r.claimed || s.claim) && j'.r.id == j.r.id
    ensures DoScript(j, s, left).r.methodName == j.r.methodName
  {
    OpsOk(j, s.ops);
    ReturnOk(DoOps(j, s.ops), s.claim, left);
  }

  /** Who has not started yet. */
  ghost predicate Fresh(r: Request) { RequestOk(r) && r.phase.Blocked? && !r.claimed && !r.writing }

  lemma BegunOk(r: Request, handlers: nat)
    requires Fresh(r)
    ensures JobOk(Begun(r, handlers)) && Begun(r, handlers).r.phase == Delivering(handlers)
  {
  }

  ghost predicate Claims(scripts: seq<Script>, n: nat)
    requires n <= |scripts|
  {
    exists i :: 0 <= i < n && scripts[i].claim
  }

  /** The job that n of the handlers have had. */
  ghost predicate Offered(r: Request, scripts: seq<Script>, n: nat, j: Job)
    requires n <= |scripts|
  {
    && JobOk(j) && j.r.phase == Delivering(|scripts| - n) && j.r.id == r.id && j.r.methodName == r.methodName
    && (j.r.claimed <==> Claims(scripts, n))
  }

  lemma OfferedNext(r: Request, scripts: seq<Script>, n: nat, j: Job)
    requires n < |scripts| && Offered(r, scripts, n, j)
    ensures Offered(r, scripts, n + 1, DoScript(j, scripts[n], |scripts| - n - 1))
  {
    ScriptOk(j, scripts[n], |scripts| - n - 1);
    assert Claims(scripts, n + 1) <==> Claims(scripts, n) || scripts[n].claim;
  }

  lemma {:induction false} ScriptsOk(r: Request, scripts: seq<Script>, n: nat)
    requires Fresh(r) && n <= |scripts|
    ensures Offered(r, scripts, n, DoScripts(r, scripts, n))
  {
    if n == 0 {
      BegunOk(r, |scripts|);
    } else {
      ScriptsOk(r, scripts, n - 1);
      OfferedNext(r, scripts, n - 1, DoScripts(r, scripts, n - 1));
    }
  }

  lemma DefaultOk(j: Job, carried: bool)
    requires JobOk(j) && j.r.phase == Delivering(0)
    ensures JobOk(DoDefault(j, carried)) && DoDefault(j, carried).r.phase.Unwinding?
    ensures DoDefault(j, carried).r.id == j.r.id && DoDefault(j, carried).r.claimed == j.r.claimed
  {
    if DeliverDefault(j.r).writing {
      WritesOk(j.(r := DeliverDefault(j.r)), carried);
    }
  }

  lemma UnwindOk(j: Job, carried: bool)
    requires JobOk(j) && j.r.phase.Unwinding?
    ensures JobOk(DoUnwind(j, carried)) && DoUnwind(j, carried).r.phase.Ending?
    ensures DoUnwind(j, carried).r.id == j.r.id && DoUnwind(j, carried).r.claimed == j.r.claimed
  {
    if UnwindReply(j.r).writing {
      WritesOk(j.(r := UnwindReply(j.r)), carried);
    }
  }

  lemma EndOk(j: Job)
    requires JobOk(j) && j.r.phase.Ending?
    ensures JobOk(DoEnd(j)) && DoEnd(j).r.phase.Finished? && DoEnd(j).r.closes == 1
    ensures |DoEnd(j).r.answers| == (if j.r.id.Some? then 1 else 0)
    ensures DoEnd(j).r.id == j.r.id && DoEnd(j).r.claimed == j.r.claimed
  {
  }

  /** One more handler. */
  lemma NextScript(r: Request, scripts: seq<Script>, i: nat)
    requires Fresh(r) && i < |scripts|
    ensures var j := DoScripts(r, scripts, i);
            && JobOk(j) && j.r.phase == Delivering(|scripts| - i)
            && DoScripts(r, scripts, i + 1) == DoScript(j, scripts[i], |scripts| - i - 1)
            && DoScripts(r, scripts, i + 1).r.claimed == (j.r.claimed || scripts[i].claim)
  {
    ScriptsOk(r, scripts, i);
    ScriptOk(DoScripts(r, scripts, i), scripts[i], |scripts| - i - 1);
  }

  /** Whatever the handlers do, a call ends with exactly one answer, a notification with
      none, the successor is let go once, and nothing but that answer is sent. */
  lemma ServedOnce(r: Request, scripts: seq<Script>, carried: bool)
    requires Fresh(r)
    ensures var d := Delivered(r, scripts, carried);
            JobOk(d) && d.r.phase.Unwinding? && d.r.id == r.id
    ensures var j := Concluded(Delivered(r, scripts, carried), carried);
            && JobOk(j) && j.r.phase.Finished? && j.r.closes == 1 && j.r.id == r.id
            && |j.r.answers| == (if r.id.Some? then 1 else 0)
            && (j.r.claimed <==> Claims(scripts, |scripts|))
  {
    ScriptsOk(r, scripts, |scripts|);
    DefaultOk(DoScripts(r, scripts, |scripts|), carried);
    var d := Delivered(r, scripts, carried);
    UnwindOk(d, carried);
    EndOk(DoUnwind(d, carried));
  }

  // ---------- who answers ----------

  function FirstReply(ops: seq<Op>): (first: Option<Op>)
    ensures first.Some? ==> first.value.Replies?
  {
    if ops == [] then None
    else if ops[0].Replies? then Some(ops[0])
    else FirstReply(ops[1..])
  }

  /** All that the handlers do, in order. */
  function AllOps(scripts: seq<Script>): seq<Op> { if scripts == [] then [] else scripts[0].ops + AllOps(scripts[1..]) }

  lemma {:induction false} FirstOfBoth(a: seq<Op>, b: seq<Op>)
    ensures FirstReply(a + b) == if FirstReply(a).Some? then FirstReply(a) else FirstReply(b)
  {
    if a == [] {
      assert a + b == b;
    } else {
      assert (a + b)[1..] == a[1..] + b;
      FirstOfBoth(a[1..], b);
    }
  }

  lemma {:induction false} AllOpsSnoc(scripts: seq<Script>, s: Script)
    ensures AllOps(scripts + [s]) == AllOps(scripts) + s.ops
  {
    if scripts == [] {
      assert [s][1..] == [];
    } else {
      assert (scripts + [s])[1..] == scripts[1..] + [s];
      AllOpsSnoc(scripts[1..], s);
    }
  }

  /** The job's one answer, if any, is the first reply of these operations. */
  ghost predicate Gave(j: Job, ops: seq<Op>) {
    match FirstReply(ops)
    case None => j.r.answers == [] && !j.lost
    case Some(op) => j.r.answers == [Answer(Handler, op.result, op.err)] && j.lost == !op.carried
  }

  lemma OpGives(j: Job, before: seq<Op>, op: Op, after: seq<Op>)
    requires JobOk(j) && j.r.phase.Delivering? && j.r.id.Some? && Gave(j, before) && after == before + [op]
    ensures Gave(DoOp(j, op), after)
  {
    FirstOfBoth(before, [op]);
  }

  lemma {:induction false} OpsGive(j: Job, before: seq<Op>, ops: seq<Op>, after: seq<Op>)
    requires JobOk(j) && j.r.phase.Delivering? && j.r.id.Some? && Gave(j, before) && after == before + ops
    ensures Gave(DoOps(j, ops), after)
    decreases |ops|
  {
    if ops == [] {
      assert after == before;
    } else {
      var front, mid := ops[..|ops| - 1], DoOps(j, ops[..|ops| - 1]);
      OpsGive(j, before, front, after[..|after| - 1]);
      assert JobOk(mid) && mid.r.phase.Delivering? && mid.r.id.Some? by { OpsOk(j, front); }
      OpGives(mid, after[..|after| - 1], ops[|ops| - 1], after);
    }
  }

  lemma ScriptGives(j: Job, before: seq<Op>, s: Script, left: nat, after: seq<Op>)
    requires JobOk(j) && j.r.phase.Delivering? && j.r.id.Some? && Gave(j, before) && after == before + s.ops
    ensures Gave(DoScript(j, s, left), after)
  {
    OpsGive(j, before, s.ops, after);
  }

  lemma AllOpsNext(scripts: seq<Script>, n: nat)
    requires n < |scripts|
    ensures AllOps(scripts[..n + 1]) == AllOps(scripts[..n]) + scripts[n].ops
  {
    assert scripts[..n + 1] == scripts[..n] + [scripts[n]];
    AllOpsSnoc(scripts[..n], scripts[n]);
  }

  lemma NextGives(r: Request, scripts: seq<Script>, n: nat)
    requires Fresh(r) && r.id.Some? && n < |scripts| && Gave(DoScripts(r, scripts, n), AllOps(scripts[..n]))
    ensures Gave(DoScripts(r, scripts, n + 1), AllOps(scripts[..n + 1]))
  {
    NextScript(r, scripts, n);
    assert DoScripts(r, scripts, n).r.id.Some? by { ScriptsOk(r, scripts, n); }
    AllOpsNext(scripts, n);
    ScriptGives(DoScripts(r, scripts, n), AllOps(scripts[..n]), scripts[n], |scripts| - n - 1, AllOps(scripts[..n + 1]));
  }

  lemma {:induction false} ScriptsGive(r: Request, scripts: seq<Script>, n: nat)
    requires Fresh(r) && r.id.Some? && n <= |scripts|
    ensures Gave(DoScripts(r, scripts, n), AllOps(scripts[..n]))
  {
    if n > 0 {
      ScriptsGive(r, scripts, n - 1);
      NextGives(r, scripts, n - 1);
    }
  }

  lemma LastAnswers(j: Job, methodName: string, ops: seq<Op>, carried: bool)
    requires JobOk(j) && j.r.phase == Delivering(0) && j.r.id.Some? && Gave(j, ops) && j.r.methodName == methodName
    ensures var j' := Concluded(DoDefault(j, carried), carried);
            if FirstReply(ops).Some? then j'.r.answers == j.r.answers && j'.lost == j.lost
            else
              && j'.lost == !carried
              && j'.r.answers == [if j.r.claimed
                                  then Answer(Fallback, Some("null"), DidNotReply(methodName))
                                  else Answer(Default, Some("null"), MethodNotFound(methodName))]
  {
    DefaultOk(j, carried);
    UnwindOk(DoDefault(j, carried), carried);
  }

  /** The answer to a call is the first reply that a handler gives; if none does, it is
      that the method is not found, or if a handler has claimed it that it did not reply.
      It is lost exactly if its write fails. */
  lemma WhoAnswers(r: Request, scripts: seq<Script>, carried: bool)
    requires Fresh(r) && r.id.Some?
    ensures var j := Concluded(Delivered(r, scripts, carried), carried);
            match FirstReply(AllOps(scripts))
            case Some(op) => j.r.answers == [Answer(Handler, op.result, op.err)] && j.lost == !op.carried
            case None =>
              && j.lost == !carried
              && j.r.answers == [if Claims(scripts, |scripts|)
                                 then Answer(Fallback, Some("null"), DidNotReply(r.methodName))
                                 else Answer(Default, Some("null"), MethodNotFound(r.methodName))]
  {
    ScriptsOk(r, scripts, |scripts|);
    ScriptsGive(r, scripts, |scripts|);
    assert scripts[..|scripts|] == scripts;
    LastAnswers(DoScripts(r, scripts, |scripts|), r.methodName, AllOps(scripts), carried);
  }

  // ---------- the same as steps ----------

  /** A connection on its way, with what it has written since. */
  datatype Stage = Stage(c: Conn, out: seq<Message>)

  ghost predicate StepAt(run: seq<Stage>, acts: seq<Action>, i: nat)
    requires i < |acts| && |run| == |acts| + 1
  {
    && Enabled(run[i].c, acts[i])
    && run[i + 1] == Stage(Act(run[i].c, acts[i]), run[i].out + Output(run[i].c, acts[i]))
  }

  ghost predicate IsRun(run: seq<Stage>, acts: seq<Action>) {
    |run| == |acts| + 1 && forall i :: 0 <= i < |acts| ==> StepAt(run, acts, i)
  }

  /** The steps are possible in turn, lead from c to c' and write out. */
  ghost predicate Leads(c: Conn, acts: seq<Action>, c': Conn, out: seq<Message>) {
    exists run :: IsRun(run, acts) && run[0] == Stage(c, []) && run[|acts|] == Stage(c', out)
  }

  lemma LeadsNowhere(c: Conn)
    ensures Leads(c, [], c, [])
  {
    assert IsRun([Stage(c, [])], []);
  }

  lemma LeadsOn(c: Conn, acts: seq<Action>, c': Conn, out: seq<Message>, a: Action)
    requires Leads(c, acts, c', out) && Enabled(c', a)
    ensures Leads(c, acts + [a], Act(c', a), out + Output(c', a))
  {
    var run :| IsRun(run, acts) && run[0] == Stage(c, []) && run[|acts|] == Stage(c', out);
    var run' := run + [Stage(Act(c', a), out + Output(c', a))];
    forall i | 0 <= i < |acts + [a]|
      ensures StepAt(run', acts + [a], i)
    {
      if i < |acts| {
        assert StepAt(run, acts, i);
      }
    }
    assert IsRun(run', acts + [a]);
  }

  /** The connection with the job as its request k. */
  function With(c: Conn, k: nat, j: Job): Conn
    requires k < |c.requests|
  {
    c.(requests := c.requests[k := j.r], lost := if j.lost && j.r.id.Some? then c.lost + {j.r.id.value} else c.lost)
  }

  /** These steps of request k lead from c to where it is the job, on d, and write what it sent. */
  ghost predicate Reached(c: Conn, acts: seq<Action>, d: Conn, k: nat, j: Job) {
    && (forall a :: a in acts ==> Target(c, a) == Some(k))
    && k < |d.requests| && j.r.id == d.requests[k].id
    && Leads(c, acts, With(d, k, j), j.sent)
  }

  /** One more step, of request k alone. */
  lemma OneStep(c: Conn, acts: seq<Action>, d: Conn, k: nat, j: Job, a: Action, d': Conn, j': Job)
    requires Reached(c, acts, d, k, j) && k < |d'.requests| && j'.r.id == d'.requests[k].id
    requires Enabled(With(d, k, j), a) && Act(With(d, k, j), a) == With(d', k, j')
    requires j'.sent == j.sent + Output(With(d, k, j), a) && Target(c, a) == Some(k)
    ensures Reached(c, acts + [a], d', k, j')
  {
    LeadsOn(c, acts, With(d, k, j), j.sent, a);
  }

  lemma WriteStep(c: Conn, acts: seq<Action>, d: Conn, k: nat, j: Job, carried: bool) returns (acts': seq<Action>)
    requires Reached(c, acts, d, k, j)
    ensures Reached(c, acts', d, k, Writes(j, carried))
  {
    acts' := acts;
    if j.r.writing && j.r.answers != [] {
      assert With(d, k, j).requests[k := j.r.(writing := false)] == With(d, k, Writes(j, carried)).requests;
      assert j.sent + [] == j.sent;
      OneStep(c, acts, d, k, j, WriteReply(k, carried), d, Writes(j, carried));
      acts' := acts + [WriteReply(k, carried)];
    }
  }

  /** A step that changes nothing but the request, and writes nothing. */
  lemma QuietStep(c: Conn, acts: seq<Action>, d: Conn, k: nat, j: Job, a: Action, r': Request)
    requires Reached(c, acts, d, k, j) && Enabled(With(d, k, j), a) && r'.id == j.r.id
    requires Act(With(d, k, j), a) == WithRequest(With(d, k, j), k, r')
    requires Output(With(d, k, j), a) == [] && Target(c, a) == Some(k)
    ensures Reached(c, acts + [a], d, k, j.(r := r'))
  {
    assert With(d, k, j).requests[k := r'] == d.requests[k := r'];
    assert j.sent + [] == j.sent;
    OneStep(c, acts, d, k, j, a, d, j.(r := r'));
  }

  lemma OpSteps(c: Conn, acts: seq<Action>, k: nat, j: Job, op: Op) returns (acts': seq<Action>)
    requires Reached(c, acts, c, k, j) && j.r.phase.Delivering? && j.r.phase.left > 0 && !j.r.writing
    ensures Reached(c, acts', c, k, DoOp(j, op))
  {
    match op {
      case GoesParallel =>
        QuietStep(c, acts, c, k, j, HandlerParallel(k), GoParallel(j.r));
        acts' := acts + [HandlerParallel(k)];
      case Replies(result, err, carried) =>
        var r' := Reply(j.r, Answer(Handler, result, err));
        QuietStep(c, acts, c, k, j, HandlerReply(k, result, err), r');
        acts' := WriteStep(c, acts + [HandlerReply(k, result, err)], c, k, j.(r := r'), carried);
    }
  }

  lemma {:induction false} OpsSteps(c: Conn, acts: seq<Action>, k: nat, j: Job, ops: seq<Op>) returns (acts': seq<Action>)
    requires Reached(c, acts, c, k, j) && JobOk(j) && j.r.phase.Delivering? && j.r.phase.left > 0
    ensures Reached(c, acts', c, k, DoOps(j, ops))
    decreases |ops|
  {
    acts' := acts;
    if ops != [] {
      var front := ops[..|ops| - 1];
      acts' := OpsSteps(c, acts, k, j, front);
      OpsOk(j, front);
      acts' := OpSteps(c, acts', k, DoOps(j, front), ops[|ops| - 1]);
    }
  }

  lemma ReturnStep(c: Conn, acts: seq<Action>, k: nat, j: Job, claim: bool, left: nat)
    requires Reached(c, acts, c, k, j) && !j.r.writing && j.r.phase == Delivering(left + 1)
    ensures Reached(c, acts + [HandlerReturn(k, claim)], c, k, DoReturn(j, claim, left))
  {
    QuietStep(c, acts, c, k, j, HandlerReturn(k, claim), DoReturn(j, claim, left).r);
  }

  lemma ScriptSteps(c: Conn, acts: seq<Action>, k: nat, j: Job, s: Script, left: nat) returns (acts': seq<Action>)
    requires Reached(c, acts, c, k, j) && JobOk(j) && j.r.phase == Delivering(left + 1)
    ensures Reached(c, acts', c, k, DoScript(j, s, left))
  {
    acts' := OpsSteps(c, acts, k, j, s.ops);
    OpsOk(j, s.ops);
    ReturnStep(c, acts', k, DoOps(j, s.ops), s.claim, left);
    acts' := acts' + [HandlerReturn(k, s.claim)];
  }

  /** Request k of c may start. */
  ghost predicate MayStart(c: Conn, k: nat) {
    k < |c.requests| && Fresh(c.requests[k]) && (k == 0 || c.requests[k - 1].closes > 0)
  }

  /** That is when the transition system lets it start, in any state that it reaches. */
  lemma MayStartIfEnabled(c: Conn, k: nat)
    requires Served(c) && Untouched(c) && Enabled(c, Start(k))
    ensures MayStart(c, k)
  {
    assert RequestOk(c.requests[k]);
  }

  lemma StartStep(c: Conn, k: nat)
    requires MayStart(c, k)
    ensures Reached(c, [Start(k)], c, k, Begun(c.requests[k], c.handlers))
  {
    LeadsNowhere(c);
    var none := Job(c.requests[k], [], false);
    assert With(c, k, none) == c by { assert c.requests[k := c.requests[k]] == c.requests; }
    QuietStep(c, [], c, k, none, Start(k), Begun(c.requests[k], c.handlers).r);
    assert [] + [Start(k)] == [Start(k)];
  }

  lemma NextSteps(c: Conn, acts: seq<Action>, k: nat, scripts: seq<Script>, n: nat) returns (acts': seq<Action>)
    requires MayStart(c, k) && n < |scripts| && Reached(c, acts, c, k, DoScripts(c.requests[k], scripts, n))
    ensures Reached(c, acts', c, k, DoScripts(c.requests[k], scripts, n + 1))
  {
    var j, j' := DoScripts(c.requests[k], scripts, n), DoScripts(c.requests[k], scripts, n + 1);
    assert j' == DoScript(j, scripts[n], |scripts| - n - 1);
    assert JobOk(j) && j.r.phase == Delivering(|scripts| - n) by { NextScript(c.requests[k], scripts, n); }
    acts' := ScriptSteps(c, acts, k, j, scripts[n], |scripts| - n - 1);
  }

  lemma {:induction false} ScriptsSteps(c: Conn, k: nat, scripts: seq<Script>, n: nat) returns (acts: seq<Action>)
    requires MayStart(c, k) && c.handlers == |scripts| && n <= |scripts|
    ensures Reached(c, acts, c, k, DoScripts(c.requests[k], scripts, n))
    decreases n
  {
    if n == 0 {
      StartStep(c, k);
      acts := [Start(k)];
    } else {
      acts := ScriptsSteps(c, k, scripts, n - 1);
      acts := NextSteps(c, acts, k, scripts, n - 1);
    }
  }

  lemma DefaultSteps(c: Conn, acts: seq<Action>, k: nat, j: Job, carried: bool) returns (acts': seq<Action>)
    requires Reached(c, acts, c, k, j) && JobOk(j) && j.r.phase == Delivering(0)
    ensures Reached(c, acts', c, k, DoDefault(j, carried))
  {
    QuietStep(c, acts, c, k, j, DefaultDeliver(k), DeliverDefault(j.r));
    acts' := WriteStep(c, acts + [DefaultDeliver(k)], c, k, j.(r := DeliverDefault(j.r)), carried);
  }

  /** The connection without this request in the table of those being handled. */
  function Unlisted(c: Conn, id: Option<ID>): Conn {
    c.(handling := if id.Some? then c.handling - {id.value} else c.handling)
  }

  lemma UnwindStep(c: Conn, acts: seq<Action>, k: nat, j: Job)
    requires Reached(c, acts, c, k, j) && j.r.phase.Unwinding? && !j.r.writing
    ensures Reached(c, acts + [Unwind(k)], Unlisted(c, j.r.id), k, j.(r := UnwindReply(j.r)))
  {
    var d, unwound := Unlisted(c, j.r.id), j.(r := UnwindReply(j.r));
    assert With(c, k, j).requests[k := unwound.r] == With(d, k, unwound).requests;
    assert j.sent + [] == j.sent;
    OneStep(c, acts, c, k, j, Unwind(k), d, unwound);
  }

  lemma ConcludeSteps(c: Conn, acts: seq<Action>, k: nat, j: Job, carried: bool) returns (acts': seq<Action>)
    requires Reached(c, acts, c, k, j) && JobOk(j) && j.r.phase.Unwinding?
    ensures Reached(c, acts', Unlisted(c, j.r.id), k, Concluded(j, carried))
  {
    UnwindStep(c, acts, k, j);
    acts' := WriteStep(c, acts + [Unwind(k)], Unlisted(c, j.r.id), k, j.(r := UnwindReply(j.r)), carried);
    UnwindOk(j, carried);
    var last := DoUnwind(j, carried);
    QuietStep(c, acts', Unlisted(c, j.r.id), k, last, End(k), DoEnd(last).r);
    acts' := acts' + [End(k)];
  }

  /** The connection once request k has been served. */
  function ServedConn(c: Conn, k: nat, scripts: seq<Script>, carried: bool): Conn
    requires k < |c.requests|
  {
    With(Unlisted(c, c.requests[k].id), k, Concluded(Delivered(c.requests[k], scripts, carried), carried))
  }

  lemma ConcludedOn(c: Conn, k: nat, j: Job, carried: bool)
    requires k < |c.requests| && JobOk(j) && j.r.phase.Unwinding?
    ensures With(Unlisted(With(c, k, j), j.r.id), k, Concluded(j, carried)) == With(Unlisted(c, j.r.id), k, Concluded(j, carried))
  {
    var last := Concluded(j, carried);
    assert c.requests[k := j.r][k := last.r] == c.requests[k := last.r];
  }

  /** What the goroutine of a request makes of any handlers is what the steps from its start
      to its end do: they lead to the connection with it served, and write what it sent. */
  lemma ServeIsSteps(c: Conn, k: nat, scripts: seq<Script>, carried: bool) returns (acts: seq<Action>)
    requires MayStart(c, k) && c.handlers == |scripts|
    ensures Leads(c, acts, ServedConn(c, k, scripts, carried),
                  Concluded(Delivered(c.requests[k], scripts, carried), carried).sent)
    ensures forall a :: a in acts ==> Target(c, a) == Some(k)
  {
    var r := c.requests[k];
    acts := ScriptsSteps(c, k, scripts, |scripts|);
    ScriptsOk(r, scripts, |scripts|);
    acts := DefaultSteps(c, acts, k, DoScripts(r, scripts, |scripts|), carried);
    ServedOnce(r, scripts, carried);
    acts := ConcludeSteps(c, acts, k, Delivered(r, scripts, carried), carried);
  }
}
