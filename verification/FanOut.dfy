/** The concurrent fan-out over a list of ids: one goroutine each, throttled by a
    package-wide semaphore of 20, recording under a mutex, with a wait group
    that releases the caller. One machine covers both users: switching off
    termination protection, which keeps every id, and the search for cluster
    roles, which keeps the ids that match. */
module FanOut {
  import opened Bags

  const PERMITS := 20

  datatype CallResult = CallResult(failed: bool, kept: bool)

  datatype Pc = Outside | Permitted | Locked | Recorded(o: CallResult) | Unlocked(o: CallResult)
              | Signalled(o: CallResult) | Released(o: CallResult)

  datatype Worker = Worker(id: string, pc: Pc)

  /** foreign counts the permits held by goroutines of other fan-outs. */
  datatype State = State(keepAll: bool, workers: seq<Worker>, permits: nat, foreign: nat, lock: Option<nat>,
                         updated: seq<string>, errs: seq<string>, wg: nat)

  datatype Action = Acquire(i: nat) | Lock(i: nat) | CallApi(i: nat, o: CallResult) | Unlock(i: nat)
                  | Done(i: nat) | Release(i: nat) | ForeignAcquire | ForeignRelease

  predicate IsWorkerStep(a: Action) { !a.ForeignAcquire? && !a.ForeignRelease? }

  predicate Enabled(s: State, a: Action) {
    match a
    case Acquire(i) => i < |s.workers| && s.workers[i].pc.Outside? && s.permits > 0
    case Lock(i) => i < |s.workers| && s.workers[i].pc.Permitted? && s.lock.None?
    case CallApi(i, o) =>
      && i < |s.workers| && s.workers[i].pc.Locked?
      && (if s.keepAll then o.kept else o.failed ==> !o.kept)
    case Unlock(i) => i < |s.workers| && s.workers[i].pc.Recorded?
    case Done(i) => i < |s.workers| && s.workers[i].pc.Unlocked? && s.wg > 0
    case Release(i) => i < |s.workers| && s.workers[i].pc.Signalled?
    case ForeignAcquire => s.permits > 0
    case ForeignRelease => s.foreign > 0
  }

  function Move(s: State, i: nat, pc: Pc): State
    requires i < |s.workers|
  {
    s.(workers := s.workers[i := s.workers[i].(pc := pc)])
  }

  function Act(s: State, a: Action): State
    requires Enabled(s, a)
  {
    match a
    case Acquire(i) => Move(s, i, Permitted).(permits := s.permits - 1)
    case Lock(i) => Move(s, i, Locked).(lock := Some(i))
    case CallApi(i, o) =>
      Move(s, i, Recorded(o)).(errs := s.errs + (if o.failed then [s.workers[i].id] else []),
                               updated := s.updated + (if o.kept then [s.workers[i].id] else []))
    case Unlock(i) => Move(s, i, Unlocked(s.workers[i].pc.o)).(lock := None)
    case Done(i) => Move(s, i, Signalled(s.workers[i].pc.o)).(wg := s.wg - 1)
    case Release(i) => Move(s, i, Released(s.workers[i].pc.o)).(permits := s.permits + 1)
    case ForeignAcquire => s.(permits := s.permits - 1, foreign := s.foreign + 1)
    case ForeignRelease => s.(permits := s.permits + 1, foreign := s.foreign - 1)
  }

  function Init(keepAll: bool, ids: seq<string>, foreign: nat): State
    requires foreign <= PERMITS
  {
    State(keepAll, seq(|ids|, i requires 0 <= i < |ids| => Worker(ids[i], Outside)), PERMITS - foreign, foreign, None, [], [], |ids|)
  }

  ghost predicate Follows(s: State, s': State) {
    exists a :: Enabled(s, a) && s' == Act(s, a)
  }

  ghost predicate Run(trace: seq<State>, keepAll: bool, ids: seq<string>) {
    && trace != []
    && (exists foreign: nat :: foreign <= PERMITS && trace[0] == Init(keepAll, ids, foreign))
    && forall i :: 0 <= i < |trace| - 1 ==> Follows(trace[i], trace[i + 1])
  }

  // ---------- what is counted ----------

  predicate Finished(pc: Pc) { !pc.Outside? && !pc.Permitted? && !pc.Locked? }

  predicate Holding(pc: Pc) { !pc.Outside? && !pc.Released? }

  predicate InCriticalSection(pc: Pc) { pc.Locked? || pc.Recorded? }

  predicate HasSignalled(pc: Pc) { pc.Signalled? || pc.Released? }

  function KeptLabel(w: Worker): multiset<string> {
    if Finished(w.pc) && w.pc.o.kept then multiset{w.id} else multiset{}
  }

  function FailedLabel(w: Worker): multiset<string> {
    if Finished(w.pc) && w.pc.o.failed then multiset{w.id} else multiset{}
  }

  function IdLabel(w: Worker): multiset<string> { multiset{w.id} }

  function HoldLabel(w: Worker): multiset<bool> { if Holding(w.pc) then multiset{true} else multiset{} }

  function WaitLabel(w: Worker): multiset<bool> { if HasSignalled(w.pc) then multiset{} else multiset{true} }

  ghost function Holders(s: State): nat { Bag(s.workers, HoldLabel)[true] }

  ghost predicate Shape(s: State, keepAll: bool, ids: seq<string>) {
    && s.keepAll == keepAll
    && |s.workers| == |ids|
    && (forall i :: 0 <= i < |ids| ==> s.workers[i].id == ids[i])
    && (forall i :: 0 <= i < |ids| && Finished(s.workers[i].pc) ==>
          if keepAll then s.workers[i].pc.o.kept else s.workers[i].pc.o.failed ==> !s.workers[i].pc.o.kept)
    && (forall i :: 0 <= i < |ids| ==> (InCriticalSection(s.workers[i].pc) <==> s.lock == Some(i)))
    && (s.lock.Some? ==> s.lock.value < |ids|)
  }

  ghost predicate Counters(s: State) {
    && s.permits + s.foreign + Holders(s) == PERMITS
    && s.wg == Bag(s.workers, WaitLabel)[true]
  }

  ghost predicate Results(s: State) {
    && multiset(s.updated) == Bag(s.workers, KeptLabel)
    && multiset(s.errs) == Bag(s.workers, FailedLabel)
  }

  ghost predicate Inv(s: State, keepAll: bool, ids: seq<string>) {
    Shape(s, keepAll, ids) && Counters(s) && Results(s)
  }

  lemma {:induction false} InitBags(workers: seq<Worker>)
    requires forall i :: 0 <= i < |workers| ==> workers[i].pc.Outside?
    ensures Bag(workers, HoldLabel) == multiset{} && Bag(workers, KeptLabel) == multiset{}
    ensures Bag(workers, FailedLabel) == multiset{} && Bag(workers, WaitLabel)[true] == |workers|
  {
    if workers != [] {
      InitBags(workers[1..]);
    }
  }

  lemma StepKeepsShape(s: State, a: Action, keepAll: bool, ids: seq<string>)
    requires Shape(s, keepAll, ids) && Enabled(s, a)
    ensures Shape(Act(s, a), keepAll, ids)
  {
    if IsWorkerStep(a) {
      OneMoves(s, a);
      PcMoves(s, a);
    }
  }

  /** A worker step as an exchange of one element of workers. */
  lemma OneMoves(s: State, a: Action)
    requires Enabled(s, a) && IsWorkerStep(a)
    ensures a.i < |s.workers| && |Act(s, a).workers| == |s.workers|
    ensures Act(s, a).workers == s.workers[a.i := Act(s, a).workers[a.i]]
    ensures Act(s, a).workers[a.i].id == s.workers[a.i].id
  {
  }

  lemma PcMoves(s: State, a: Action)
    requires Enabled(s, a) && IsWorkerStep(a)
    ensures a.i < |s.workers| && a.i < |Act(s, a).workers|
    ensures var pc, pc' := s.workers[a.i].pc, Act(s, a).workers[a.i].pc;
            && Holding(pc) == !a.Acquire? && Holding(pc') == !a.Release?
            && (HasSignalled(pc') <==> HasSignalled(pc) || a.Done?) && (a.Done? ==> !HasSignalled(pc))
            && (if a.CallApi? then !Finished(pc) && pc' == Recorded(a.o)
                else (Finished(pc) <==> Finished(pc')) && (Finished(pc) ==> pc'.o == pc.o))
  {
  }

  lemma HoldersMove(s: State, a: Action)
    requires Enabled(s, a) && IsWorkerStep(a)
    ensures Holders(Act(s, a)) == Holders(s) + (if a.Acquire? then 1 else if a.Release? then -1 else 0)
  {
    var s' := Act(s, a);
    OneMoves(s, a);
    PcMoves(s, a);
    BagUpdateAt(s.workers, a.i, s'.workers[a.i], true, HoldLabel);
    assert HoldLabel(s.workers[a.i])[true] == if a.Acquire? then 0 else 1;
    assert HoldLabel(s'.workers[a.i])[true] == if a.Release? then 0 else 1;
  }

  lemma WaitersMove(s: State, a: Action)
    requires Enabled(s, a) && IsWorkerStep(a)
    ensures Bag(Act(s, a).workers, WaitLabel)[true] + (if a.Done? then 1 else 0) == Bag(s.workers, WaitLabel)[true]
  {
    OneMoves(s, a);
    PcMoves(s, a);
    BagUpdateAt(s.workers, a.i, Act(s, a).workers[a.i], true, WaitLabel);
  }

  lemma StepKeepsCounters(s: State, a: Action)
    requires Counters(s) && Enabled(s, a)
    ensures Counters(Act(s, a))
  {
    if IsWorkerStep(a) {
      HoldersMove(s, a);
      WaitersMove(s, a);
    }
  }

  lemma StepKeepsKept(s: State, a: Action, s': State, more: seq<string>)
    requires multiset(s.updated) == Bag(s.workers, KeptLabel) && Enabled(s, a) && IsWorkerStep(a) && s' == Act(s, a)
    requires a.i < |s.workers| && more == if a.CallApi? && a.o.kept then [s.workers[a.i].id] else []
    ensures multiset(s.updated + more) == Bag(s'.workers, KeptLabel)
  {
    OneMoves(s, a);
    PcMoves(s, a);
    BagGrow(s.workers, a.i, s'.workers[a.i], multiset(more), KeptLabel);
  }

  lemma StepKeepsFailed(s: State, a: Action, s': State, more: seq<string>)
    requires multiset(s.errs) == Bag(s.workers, FailedLabel) && Enabled(s, a) && IsWorkerStep(a) && s' == Act(s, a)
    requires a.i < |s.workers| && more == if a.CallApi? && a.o.failed then [s.workers[a.i].id] else []
    ensures multiset(s.errs + more) == Bag(s'.workers, FailedLabel)
  {
    OneMoves(s, a);
    PcMoves(s, a);
    BagGrow(s.workers, a.i, s'.workers[a.i], multiset(more), FailedLabel);
  }

  lemma ResultsMove(s: State, a: Action)
    requires Enabled(s, a) && IsWorkerStep(a) && a.i < |s.workers|
    ensures Act(s, a).updated == s.updated + (if a.CallApi? && a.o.kept then [s.workers[a.i].id] else [])
    ensures Act(s, a).errs == s.errs + (if a.CallApi? && a.o.failed then [s.workers[a.i].id] else [])
  {
  }

  lemma StepKeepsResults(s: State, a: Action)
    requires Results(s) && Enabled(s, a)
    ensures Results(Act(s, a))
  {
    if IsWorkerStep(a) {
      OneMoves(s, a);
      ResultsMove(s, a);
      StepKeepsKept(s, a, Act(s, a), if a.CallApi? && a.o.kept then [s.workers[a.i].id] else []);
      StepKeepsFailed(s, a, Act(s, a), if a.CallApi? && a.o.failed then [s.workers[a.i].id] else []);
    }
  }

  lemma StepKeepsInv(s: State, a: Action, keepAll: bool, ids: seq<string>)
    requires Inv(s, keepAll, ids) && Enabled(s, a)
    ensures Inv(Act(s, a), keepAll, ids)
  {
    StepKeepsShape(s, a, keepAll, ids);
    StepKeepsCounters(s, a);
    StepKeepsResults(s, a);
  }

  lemma {:induction false} EveryRun(trace: seq<State>, keepAll: bool, ids: seq<string>, i: nat)
    requires Run(trace, keepAll, ids) && i < |trace|
    ensures Inv(trace[i], keepAll, ids)
  {
    if i == 0 {
      InitBags(trace[0].workers);
    } else {
      EveryRun(trace, keepAll, ids, i - 1);
      assert Follows(trace[i - 1], trace[i]);
      var a :| Enabled(trace[i - 1], a) && trace[i] == Act(trace[i - 1], a);
      StepKeepsInv(trace[i - 1], a, keepAll, ids);
    }
  }

  // ---------- what every schedule guarantees ----------

  /** At most 20 goroutines are past the semaphore, at most one is in the critical
      section. */
  lemma Throttled(trace: seq<State>, keepAll: bool, ids: seq<string>, n: nat, i: nat, j: nat)
    requires Run(trace, keepAll, ids) && n < |trace| && i < |ids| && j < |ids|
    ensures Holders(trace[n]) + trace[n].foreign <= 20
    ensures |trace[n].workers| == |ids|
    ensures InCriticalSection(trace[n].workers[i].pc) && InCriticalSection(trace[n].workers[j].pc) ==> i == j
  {
    EveryRun(trace, keepAll, ids, n);
  }

  /** The goroutines still to run as a number of steps. */
  function StepsLeft(workers: seq<Worker>): nat {
    if workers == [] then 0
    else (match workers[0].pc
          case Outside => 6 case Permitted => 5 case Locked => 4 case Recorded(_) => 3
          case Unlocked(_) => 2 case Signalled(_) => 1 case Released(_) => 0) + StepsLeft(workers[1..])
  }

  lemma {:induction false} StepsLeftAt(workers: seq<Worker>, i: nat, w: Worker)
    requires i < |workers|
    ensures StepsLeft(workers[i := w]) + StepsLeft([workers[i]]) == StepsLeft(workers) + StepsLeft([w])
  {
    assert [w][1..] == [] && [workers[i]][1..] == [];
    if i == 0 {
      assert workers[0 := w][1..] == workers[1..];
    } else {
      assert workers[i := w][1..] == workers[1..][i - 1 := w];
      StepsLeftAt(workers[1..], i - 1, w);
    }
  }

  lemma HolderExists(workers: seq<Worker>)
    requires Bag(workers, HoldLabel)[true] > 0
    ensures exists i :: 0 <= i < |workers| && Holding(workers[i].pc)
  {
    var i := BagWitness(workers, true, HoldLabel);
  }

  /** The step that takes worker i on. */
  function Onward(s: State, i: nat): Action
    requires i < |s.workers|
  {
    match s.workers[i].pc
    case Outside => Acquire(i)
    case Permitted => Lock(i)
    case Locked => CallApi(i, CallResult(false, true))
    case Recorded(_) => Unlock(i)
    case Unlocked(_) => Done(i)
    case Signalled(_) => Release(i)
    case Released(_) => Release(i)
  }

  /** No schedule gets stuck: as long as some goroutine has not ended, one of them
      can take a step, or all 20 permits are held by other fan-outs. */
  lemma NeverStuck(s: State, keepAll: bool, ids: seq<string>, i: nat) returns (j: nat)
    requires Inv(s, keepAll, ids) && i < |ids| && !s.workers[i].pc.Released?
    ensures s.foreign < PERMITS ==> j < |ids| && Enabled(s, Onward(s, j))
    ensures s.foreign >= PERMITS ==> Enabled(s, ForeignRelease)
  {
    j := i;
    if s.lock.Some? {
      j := s.lock.value;
    } else if s.foreign < PERMITS && s.workers[i].pc.Outside? && s.permits == 0 {
      HolderExists(s.workers);
      j :| 0 <= j < |ids| && Holding(s.workers[j].pc);
    }
    if s.foreign < PERMITS {
      OnwardIsEnabled(s, keepAll, ids, j);
    }
  }

  lemma OnwardIsEnabled(s: State, keepAll: bool, ids: seq<string>, j: nat)
    requires Inv(s, keepAll, ids) && j < |ids| && !s.workers[j].pc.Released?
    requires s.lock == Some(j) || s.lock.None?
    requires s.workers[j].pc.Outside? ==> s.permits > 0
    ensures Enabled(s, Onward(s, j))
  {
    if s.workers[j].pc.Unlocked? {
      BagContains(s.workers, j, true, WaitLabel);
    }
  }

  /** Every step of a goroutine brings the fan-out closer to its end. */
  lemma StepsDecrease(s: State, a: Action)
    requires Enabled(s, a)
    ensures IsWorkerStep(a) ==> StepsLeft(Act(s, a).workers) == StepsLeft(s.workers) - 1
    ensures !IsWorkerStep(a) ==> Act(s, a).workers == s.workers
  {
    if IsWorkerStep(a) {
      var w := Act(s, a).workers[a.i];
      StepsLeftAt(s.workers, a.i, w);
      assert [w][1..] == [] && [s.workers[a.i]][1..] == [];
    }
  }

  lemma {:induction false} AllLabels(workers: seq<Worker>, ids: seq<string>)
    requires |workers| == |ids| && forall i :: 0 <= i < |ids| ==> workers[i].id == ids[i]
    ensures Bag(workers, IdLabel) == multiset(ids)
  {
    if ids != [] {
      AllLabels(workers[1..], ids[1..]);
      assert ids == [ids[0]] + ids[1..];
    }
  }

  lemma {:induction false} AllKept(workers: seq<Worker>)
    requires forall i :: 0 <= i < |workers| ==> Finished(workers[i].pc) && workers[i].pc.o.kept
    ensures Bag(workers, KeptLabel) == Bag(workers, IdLabel)
  {
    if workers != [] {
      AllKept(workers[1..]);
    }
  }

  lemma AllSignalled(s: State, keepAll: bool, ids: seq<string>)
    requires Inv(s, keepAll, ids) && s.wg == 0
    ensures forall i :: 0 <= i < |ids| ==> HasSignalled(s.workers[i].pc)
  {
    forall i | 0 <= i < |ids|
      ensures HasSignalled(s.workers[i].pc)
    {
      BagContains(s.workers, i, true, WaitLabel);
    }
  }

  /** When the wait group lets the caller go, under any schedule, the protection
      switch has listed every id once, in some order, whether its call failed or
      not, and there is one error for each call that failed. */
  lemma AllUpdated(trace: seq<State>, ids: seq<string>, n: nat)
    requires Run(trace, true, ids) && n < |trace| && trace[n].wg == 0
    ensures multiset(trace[n].updated) == multiset(ids)
    ensures |trace[n].workers| == |ids| && multiset(trace[n].errs) == Bag(trace[n].workers, FailedLabel)
    ensures forall i :: 0 <= i < |ids| ==> Finished(trace[n].workers[i].pc)
  {
    EveryRun(trace, true, ids, n);
    AllSignalled(trace[n], true, ids);
    AllKept(trace[n].workers);
    AllLabels(trace[n].workers, ids);
  }

  /** No error is returned exactly if no call has failed. */
  lemma NoErrorsNoFailures(trace: seq<State>, ids: seq<string>, n: nat)
    requires Run(trace, true, ids) && n < |trace| && trace[n].wg == 0
    ensures |trace[n].workers| == |ids|
    ensures trace[n].errs == [] <==>
              forall i :: 0 <= i < |ids| ==> Finished(trace[n].workers[i].pc) && !trace[n].workers[i].pc.o.failed
  {
    AllUpdated(trace, ids, n);
    var workers := trace[n].workers;
    if trace[n].errs == [] {
      forall i | 0 <= i < |ids|
        ensures !workers[i].pc.o.failed
      {
        if workers[i].pc.o.failed {
          BagContains(workers, i, workers[i].id, FailedLabel);
        }
      }
    } else if forall i :: 0 <= i < |ids| ==> !workers[i].pc.o.failed {
      var id := trace[n].errs[0];
      assert id in multiset(trace[n].errs);
      var i := BagWitness(workers, id, FailedLabel);
    }
  }

  /** The role search returns exactly the matching roles, each once; a role whose
      tags could not be read is not returned. */
  lemma MatchesCollected(trace: seq<State>, ids: seq<string>, n: nat)
    requires Run(trace, false, ids) && n < |trace| && trace[n].wg == 0
    ensures multiset(trace[n].updated) == Bag(trace[n].workers, KeptLabel)
    ensures |trace[n].workers| == |ids|
    ensures forall i :: 0 <= i < |ids| ==>
              && Finished(trace[n].workers[i].pc)
              && (trace[n].workers[i].pc.o.failed ==> !trace[n].workers[i].pc.o.kept)
  {
    EveryRun(trace, false, ids, n);
    AllSignalled(trace[n], false, ids);
  }

  /** The result does not change under the caller's hands afterwards. */
  lemma ResultStable(s: State, keepAll: bool, ids: seq<string>, a: Action)
    requires Inv(s, keepAll, ids) && s.wg == 0 && Enabled(s, a)
    ensures Act(s, a).updated == s.updated && Act(s, a).errs == s.errs && Act(s, a).wg == 0
  {
    AllSignalled(s, keepAll, ids);
  }
}
