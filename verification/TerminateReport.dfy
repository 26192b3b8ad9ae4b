/** What a run of the terminate lambda leaves in its log, and what it reports of that. */
module TerminateReports {
  import opened Bags
  import opened Cloud
  import opened Terminate
  import opened TerminateCoverage

  // ---------- the log tells what the cloud has answered ----------

  ghost predicate RecordedAt(env: Env, e: Event, n: nat) {
    match e
    case ListedGroup(reply) => reply == env.group(n)
    case Described(ids, instances) => ids != [] && instances == env.describe(n, ids)
    case Unlocked(ids, updated, errs) => (updated, errs) == env.unlock(n, ids)
    case Unprotected(ids, ok) => ok == env.unprotect(n, ids)
    case TerminateCalled(ids, terminating) => terminating == env.terminate(n, ids)
    case Detached(ids, ok) => ok == env.detach(n, ids)
  }

  /** From position t on. */
  ghost predicate Recorded(env: Env, log: seq<Event>, t: nat) {
    forall n :: t <= n < |log| ==> RecordedAt(env, log[n], n)
  }

  lemma RecordedThen(env: Env, a: seq<Event>, b: seq<Event>, c: seq<Event>, t: nat)
    requires a <= b <= c && Recorded(env, a, t) && Recorded(env, b, |a|) && Recorded(env, c, |b|)
    ensures Recorded(env, c, t)
  {
    forall n | t <= n < |c|
      ensures RecordedAt(env, c[n], n)
    {
      if n < |a| {
        assert c[n] == a[n];
      } else if n < |b| {
        assert c[n] == b[n];
      }
    }
  }

  /** What a termination of ids makes of a log that ends at position t: the first 50 ids have
      termination protection removed, those listed by that lose scale-in protection, and if
      that works they are terminated; otherwise the call is made for none. errs are the
      errors of all three, terminated what the cloud confirms. */
  ghost predicate Termination(log: seq<Event>, t: nat, ids: seq<string>, terminated: seq<string>, errs: seq<string>) {
    if ids == [] then |log| == t && terminated == [] && errs == []
    else
      && |log| == t + 3 && log[t].Unlocked? && log[t + 1].Unprotected? && log[t + 2].TerminateCalled?
      && log[t].ids == (if |ids| <= 50 then ids else ids[..50])
      && log[t + 1].ids == log[t].updated
      && log[t + 2].ids == (if log[t + 1].ok then log[t].updated else [])
      && terminated == (if log[t + 2].terminating.Some? then log[t + 2].terminating.value else [])
      && errs == log[t].errs + (if log[t + 1].ok then [] else ["SetInstanceProtection"])
                 + (if log[t + 2].terminating.Some? then [] else ["TerminateInstances"])
  }

  lemma AsgTells(env: Env, log: seq<Event>, ids: seq<string>)
    ensures var e := TerminateAsg(env, log, ids);
            && log <= e.log && Recorded(env, e.log, |log|)
            && Termination(e.log, |log|, ids, e.terminated, e.errs)
  {
  }


  // ---------- the unhealthy step ----------

  /** Who has to be described before it is dealt with. */
  function Suspects(members: seq<AsgInstance>): seq<string> {
    if members == [] then []
    else
      var a := members[0];
      (if a.unhealthy && a.protectedFromScaleIn then [a.id] else []) + Suspects(members[1..])
  }

  function Unhealthy(members: seq<AsgInstance>): nat {
    if members == [] then 0 else (if members[0].unhealthy then 1 else 0) + Unhealthy(members[1..])
  }

  lemma {:induction false} SuspectsSnoc(members: seq<AsgInstance>, a: AsgInstance)
    ensures Suspects(members + [a]) ==
            Suspects(members) + if a.unhealthy && a.protectedFromScaleIn then [a.id] else []
  {
    if members == [] {
      assert [a][1..] == [];
    } else {
      assert (members + [a])[1..] == members[1..] + [a];
      SuspectsSnoc(members[1..], a);
    }
  }

  lemma {:induction false} UnhealthySnoc(members: seq<AsgInstance>, a: AsgInstance)
    ensures Unhealthy(members + [a]) == Unhealthy(members) + if a.unhealthy then 1 else 0
  {
    if members != [] {
      assert (members + [a])[1..] == members[1..] + [a];
      UnhealthySnoc(members[1..], a);
    }
  }

  /** Exactly the suspects are described, one at a time and in order; those seen stopped are
      to be terminated, and no member is dealt with twice. */
  ghost predicate TriageLog(t: Triage, start: nat, members: seq<AsgInstance>) {
    && |t.log| == start + |Suspects(members)|
    && (forall n :: start <= n < |t.log| ==> t.log[n].Described? && t.log[n].ids == [Suspects(members)[n - start]])
    && t.toTerminate == StoppedIds(t.log, start)
    && |t.toDetach| + |t.toTerminate| + |t.errs| <= Unhealthy(members)
  }

  /** The instances that a description from position t of the log on shows stopped. */
  function StoppedIds(log: seq<Event>, t: nat): seq<string> {
    if |log| <= t then []
    else
      var e := log[|log| - 1];
      StoppedIds(log[..|log| - 1], t) +
      if e.Described? && e.instances.Some? && e.instances.value != [] && e.instances.value[0].state.Stopped?
      then [e.instances.value[0].id] else []
  }

  lemma {:induction false} TriageTells(env: Env, log: seq<Event>, members: seq<AsgInstance>)
    ensures var t := TriageAll(env, log, members);
            log <= t.log && Recorded(env, t.log, |log|) && TriageLog(t, |log|, members)
  {
    if members != [] {
      var n := |members| - 1;
      TriageTells(env, log, members[..n]);
      assert members == members[..n] + [members[n]];
      OneTells(env, TriageAll(env, log, members[..n]), |log|, members[..n], members[n]);
    }
  }

  lemma OneTells(env: Env, t: Triage, start: nat, members: seq<AsgInstance>, a: AsgInstance)
    requires start <= |t.log| && Recorded(env, t.log, start) && TriageLog(t, start, members)
    ensures var t' := TriageOne(env, t, a);
            t.log <= t'.log && Recorded(env, t'.log, start) && TriageLog(t', start, members + [a])
  {
    SuspectsSnoc(members, a);
    UnhealthySnoc(members, a);
    var t' := TriageOne(env, t, a);
    if a.unhealthy && a.protectedFromScaleIn {
      var e := Described([a.id], env.describe(|t.log|, [a.id]));
      assert t'.log == t.log + [e];
      assert t'.log[..|t'.log| - 1] == t.log;
      assert Suspects(members + [a])[|t.log| - start] == a.id;
      assert t'.toTerminate == StoppedIds(t'.log, start);
    }
  }

  /** Calls that detach batches of 20, the last of fewer, up to the first that fails. */
  ghost predicate Detaching(log: seq<Event>, t: nat, ok: bool) {
    && t <= |log|
    && (forall n :: t <= n < |log| ==> log[n].Detached? && 0 < |log[n].ids| <= 20)
    && (forall n :: t <= n < |log| - 1 ==> log[n].ok && |log[n].ids| == 20)
    && (ok <==> |log| > t ==> log[|log| - 1].ok)
  }

  lemma {:induction false} DetachTells(env: Env, log: seq<Event>, ids: seq<string>)
    ensures var (log', ok) := DetachFrom(env, log, ids);
            && log <= log' && Recorded(env, log', |log|) && Detaching(log', |log|, ok)
            && (ids != [] ==> |log'| > |log|)
    decreases |ids|
  {
    if ids != [] {
      var batch := ids[..Min(|ids|, DETACH_LIMIT)];
      var ok := env.detach(|log|, batch);
      var log1 := log + [Detached(batch, ok)];
      if ok && |ids| > |batch| {
        DetachTells(env, log1, ids[|batch|..]);
        var log' := DetachFrom(env, log, ids).0;
        assert log'[|log|] == log1[|log|];
      } else if ok {
        assert ids[|batch|..] == [];
      }
    }
  }

  /** As many errors as descriptions from position t of the log on have failed. */
  function DescribeErrors(log: seq<Event>, t: nat): seq<string>
    requires t <= |log|
  {
    seq(FailedDescriptions(log, t), _ => "DescribeInstances")
  }

  predicate AllDetached(log: seq<Event>, b: nat) { |log| > b ==> log[|log| - 1].Detached? && log[|log| - 1].ok }

  /** The unhealthy step: from position start of the log the triage t, then its termination
      up to position b, then calls that detach what the triage has put down for that and
      what was confirmed as terminating. All errors are lost if there is none of those. */
  ghost predicate UnhealthyStep(log: seq<Event>, start: nat, t: Triage, b: nat, terminated: seq<string>,
                                ended: seq<string>, errs: seq<string>)
  {
    && start <= |t.log| <= b <= |log| && t.log <= log
    && Termination(log[..b], |t.log|, t.toTerminate, terminated, ended)
    && Detaching(log, b, AllDetached(log, b))
    && DetachedIds(log, b) <= t.toDetach + terminated
    && (AllDetached(log, b) ==> DetachedIds(log, b) == t.toDetach + terminated)
    && (|log| == b <==> t.toDetach + terminated == [])
    && errs == if |log| == b then []
               else DescribeErrors(t.log, start) + ended + (if AllDetached(log, b) then [] else ["DetachInstances"])
  }

  lemma UnhealthyTells(env: Env, log: seq<Event>, members: seq<AsgInstance>)
    returns (t: Triage, b: nat, terminated: seq<string>, ended: seq<string>)
    ensures t == TriageAll(env, log, members) && TriageLog(t, |log|, members)
    ensures var (log', errs) := DetachUnhealthy(env, log, members);
            log <= log' && Recorded(env, log', |log|) && UnhealthyStep(log', |log|, t, b, terminated, ended, errs)
  {
    t := TriageAll(env, log, members);
    TriageTells(env, log, members);
    TriageErrors(env, log, members);
    assert t.errs == DescribeErrors(t.log, |log|);
    var e := TerminateAsg(env, t.log, t.toTerminate);
    AsgTells(env, t.log, t.toTerminate);
    b, terminated, ended := |e.log|, e.terminated, e.errs;
    DetachPart(env, e.log, t.toDetach + terminated);
    var log' := DetachUnhealthy(env, log, members).0;
    assert log' == DetachFrom(env, e.log, t.toDetach + terminated).0;
    assert log'[..b] == e.log;
    RecordedThen(env, t.log, e.log, log', |log|);
  }

  lemma DetachPart(env: Env, log: seq<Event>, ids: seq<string>)
    ensures var (log', ok) := DetachFrom(env, log, ids);
            && log <= log' && Recorded(env, log', |log|)
            && (ok <==> AllDetached(log', |log|)) && Detaching(log', |log|, ok)
            && DetachedIds(log', |log|) <= ids && (ok ==> DetachedIds(log', |log|) == ids)
            && (|log'| == |log| <==> ids == [])
  {
    DetachTells(env, log, ids);
    DetachSendsAll(env, log, ids);
  }

  // ---------- the surplus step ----------

  /** The ids of the instances with an address that is no host's. */
  ghost predicate Strays(instances: seq<Ec2>, hosts: seq<string>, ids: seq<string>) {
    forall id :: id in ids <==>
      exists n :: 0 <= n < |instances| && instances[n].id == id && instances[n].ip.Some? && instances[n].ip.value !in hosts
  }

  /** The ids of the instances that are not going down and are listed for removal by id and
      address, or were half an hour old when the clock was read for them. */
  ghost predicate Chosen(env: Env, t: nat, instances: seq<Ec2>, toTerminate: seq<HgInstance>, ids: seq<string>) {
    forall id :: id in ids <==>
      exists n :: 0 <= n < |instances| && instances[n].id == id
        && !instances[n].state.ShuttingDown? && !instances[n].state.Terminated?
        && (env.now(t, n) - instances[n].launch >= 1800
            || exists h :: h in toTerminate && h.id == id && instances[n].ip == Some(h.ip))
  }

  ghost predicate Homeless(instances: seq<Ec2>, toTerminate: seq<HgInstance>) {
    toTerminate != [] && exists n :: 0 <= n < |instances| && instances[n].ip.None?
  }

  /** The calls of the surplus step: from position t of the log the members are described,
      then the strays, and then those chosen are terminated; it stops if a description
      fails, if nothing strays, or at an explicit list and an instance without address. */
  ghost predicate SurplusCalls(env: Env, log: seq<Event>, t: nat, memberIds: seq<string>, request: ScaleResponse,
                               strays: seq<string>, chosen: seq<string>, terminated: seq<string>, errs: seq<string>)
  {
    if memberIds == [] then |log| == t && errs == []
    else
      && |log| > t && log[t].Described? && log[t].ids == memberIds
      && if log[t].instances.None? then |log| == t + 1 && errs == []
         else
           && Strays(log[t].instances.value, request.hosts, strays)
           && if strays == [] then |log| == t + 1 && errs == []
              else
                && |log| > t + 1 && log[t + 1].Described? && log[t + 1].ids == strays
                && if log[t + 1].instances.None? || Homeless(log[t + 1].instances.value, request.toTerminate)
                   then |log| == t + 2 && errs == []
                   else
                     && Chosen(env, t + 2, log[t + 1].instances.value, request.toTerminate, chosen)
                     && Termination(log, t + 2, chosen, terminated, errs)
  }

  lemma {:induction false} DeltaStrays(instances: seq<Ec2>, hosts: seq<string>)
    ensures Strays(instances, hosts, DeltaIds(instances, hosts))
  {
    if instances != [] {
      var n := |instances| - 1;
      DeltaStrays(instances[..n], hosts);
      assert instances == instances[..n] + [instances[n]];
    }
  }

  lemma {:induction false} DoomedAreChosen(env: Env, t: nat, instances: seq<Ec2>, toTerminate: seq<HgInstance>)
    ensures Chosen(env, t, instances, toTerminate, DoomedIds(env, t, instances, toTerminate))
  {
    if instances != [] {
      var n := |instances| - 1;
      DoomedAreChosen(env, t, instances[..n], toTerminate);
      assert instances == instances[..n] + [instances[n]];
    }
  }

  /** The response names the terminated instances in order, each with the launch time of a
      described instance of that id. */
  ghost predicate Names(named: seq<(string, int)>, instances: seq<Ec2>, terminated: seq<string>) {
    && |named| == |terminated|
    && forall k :: 0 <= k < |named| ==> named[k].0 == terminated[k] && Launched(instances, named[k].0, named[k].1)
  }

  ghost predicate Launched(instances: seq<Ec2>, id: string, launch: int) {
    exists i :: i in instances && i.id == id && i.launch == launch
  }

  /** How the surplus step ends, by its calls from position t of the log on. */
  ghost predicate SurplusResult(log: seq<Event>, t: nat, request: ScaleResponse, errors: seq<string>,
                                terminated: seq<string>, later: seq<string>, result: Result)
  {
    if |log| <= t || (log[|log| - 1].Described? && log[|log| - 1].instances.None?)
    then result == Failed(Response([], errors), "DescribeInstances")
    else if |log| == t + 1 then result == Done(Response([], errors))
    else
      log[t + 1].Described? && log[t + 1].instances.Some? &&
      var candidates := log[t + 1].instances.value;
      if Homeless(candidates, request.toTerminate) || !KnowsAll(candidates, terminated) then result == Crashed
      else result.Done? && result.response.errors == errors + later && Names(result.response.instances, candidates, terminated)
  }

  lemma ReportNames(instances: seq<Ec2>, terminated: seq<string>)
    requires KnowsAll(instances, terminated)
    ensures Names(Report(instances, terminated), instances, terminated)
  {
    ReportLength(instances, terminated);
    forall k | 0 <= k < |terminated|
      ensures Report(instances, terminated)[k].0 == terminated[k]
      ensures Launched(instances, terminated[k], Report(instances, terminated)[k].1)
    {
      ReportTells(instances, terminated, k);
    }
  }

  /** The surplus step if both descriptions succeed and there is something to choose from. */
  lemma ToTermination(env: Env, log: seq<Event>, memberIds: seq<string>, request: ScaleResponse, errors: seq<string>,
                      first: seq<Ec2>, strays: seq<string>, second: seq<Ec2>, log2: seq<Event>, e: Ending)
    requires memberIds != [] && env.describe(|log|, memberIds) == Some(first) && strays == DeltaIds(first, request.hosts)
    requires strays != [] && env.describe(|log| + 1, strays) == Some(second) && !CrashesOn(second, request.toTerminate)
    requires log2 == log + [Described(memberIds, Some(first))] + [Described(strays, Some(second))]
    requires e == TerminateAsg(env, log2, DoomedIds(env, |log2|, second, request.toTerminate))
    ensures TerminateSurplus(env, log, memberIds, request, errors) ==
            (e.log, if KnowsAll(second, e.terminated) then Done(Response(Report(second, e.terminated), errors + e.errs)) else Crashed)
  {
  }

  lemma CallsOfTermination(env: Env, log: seq<Event>, memberIds: seq<string>, request: ScaleResponse, first: seq<Ec2>,
                           strays: seq<string>, second: seq<Ec2>, log2: seq<Event>, chosen: seq<string>, e: Ending)
    requires memberIds != [] && strays != [] && Strays(first, request.hosts, strays) && !Homeless(second, request.toTerminate)
    requires env.describe(|log|, memberIds) == Some(first) && env.describe(|log| + 1, strays) == Some(second)
    requires log2 == log + [Described(memberIds, Some(first))] + [Described(strays, Some(second))]
    requires log2 <= e.log && Recorded(env, e.log, |log2|)
    requires Chosen(env, |log2|, second, request.toTerminate, chosen)
    requires Termination(e.log, |log2|, chosen, e.terminated, e.errs)
    ensures log <= e.log && Recorded(env, e.log, |log|)
    ensures SurplusCalls(env, e.log, |log|, memberIds, request, strays, chosen, e.terminated, e.errs)
  {
    assert e.log[|log|] == log2[|log|] && e.log[|log| + 1] == log2[|log| + 1];
  }

  lemma ResultOfTermination(log: seq<Event>, t: nat, request: ScaleResponse, errors: seq<string>, strays: seq<string>,
                            second: seq<Ec2>, chosen: seq<string>, e: Ending)
    requires |log| == t + 2 && log[t + 1] == Described(strays, Some(second)) && log <= e.log
    requires !Homeless(second, request.toTerminate)
    requires Termination(e.log, |log|, chosen, e.terminated, e.errs)
    ensures SurplusResult(e.log, t, request, errors, e.terminated, e.errs,
                          if KnowsAll(second, e.terminated)
                          then Done(Response(Report(second, e.terminated), errors + e.errs)) else Crashed)
  {
    assert e.log[t + 1] == log[t + 1];
    if KnowsAll(second, e.terminated) {
      ReportNames(second, e.terminated);
    }
  }

  lemma TerminationTells(env: Env, log: seq<Event>, memberIds: seq<string>, request: ScaleResponse, errors: seq<string>,
                         first: seq<Ec2>, strays: seq<string>, second: seq<Ec2>)
    returns (chosen: seq<string>, e: Ending)
    requires memberIds != [] && env.describe(|log|, memberIds) == Some(first) && strays == DeltaIds(first, request.hosts)
    requires strays != [] && env.describe(|log| + 1, strays) == Some(second) && !CrashesOn(second, request.toTerminate)
    ensures var (log', result) := TerminateSurplus(env, log, memberIds, request, errors);
            && log <= log' && Recorded(env, log', |log|)
            && SurplusCalls(env, log', |log|, memberIds, request, strays, chosen, e.terminated, e.errs)
            && SurplusResult(log', |log|, request, errors, e.terminated, e.errs, result)
  {
    var log2 := log + [Described(memberIds, Some(first))] + [Described(strays, Some(second))];
    chosen := DoomedIds(env, |log2|, second, request.toTerminate);
    e := TerminateAsg(env, log2, chosen);
    ToTermination(env, log, memberIds, request, errors, first, strays, second, log2, e);
    NotHomeless(second, request.toTerminate);
    DeltaStrays(first, request.hosts);
    DoomedAreChosen(env, |log2|, second, request.toTerminate);
    AsgTells(env, log2, chosen);
    CallsOfTermination(env, log, memberIds, request, first, strays, second, log2, chosen, e);
    ResultOfTermination(log2, |log|, request, errors, strays, second, chosen, e);
  }

  lemma NotHomeless(instances: seq<Ec2>, toTerminate: seq<HgInstance>)
    ensures CrashesOn(instances, toTerminate) <==> Homeless(instances, toTerminate)
  {
    if i :| i in instances && i.ip.None? {
      var n :| 0 <= n < |instances| && instances[n] == i;
    }
  }

  /** The surplus step, by its log: which calls it makes for whom, and what it reports. */
  lemma SurplusTells(env: Env, log: seq<Event>, memberIds: seq<string>, request: ScaleResponse, errors: seq<string>)
    returns (strays: seq<string>, chosen: seq<string>, terminated: seq<string>, later: seq<string>)
    ensures var (log', result) := TerminateSurplus(env, log, memberIds, request, errors);
            && log <= log' && Recorded(env, log', |log|)
            && SurplusCalls(env, log', |log|, memberIds, request, strays, chosen, terminated, later)
            && SurplusResult(log', |log|, request, errors, terminated, later, result)
  {
    strays, chosen, terminated, later := [], [], [], [];
    var first := env.describe(|log|, memberIds);
    if memberIds != [] && first.Some? {
      strays := DeltaIds(first.value, request.hosts);
      var second := env.describe(|log| + 1, strays);
      if strays != [] && second.Some? && !CrashesOn(second.value, request.toTerminate) {
        var e: Ending;
        chosen, e := TerminationTells(env, log, memberIds, request, errors, first.value, strays, second.value);
        terminated, later := e.terminated, e.errs;
      } else {
        DeltaStrays(first.value, request.hosts);
        if second.Some? {
          NotHomeless(second.value, request.toTerminate);
        }
      }
    }
  }

  // ---------- the whole run ----------

  /** A run without a group: refused without any call, failed, or crashed. */
  lemma HandlerRefuses(env: Env, supported: int, asgName: string, request: ScaleResponse)
    requires request.version != supported || asgName == "" || !env.group(0).Listed?
    ensures var (log, result) := Handle(env, supported, asgName, request);
            if request.version != supported || asgName == ""
            then log == [] && result.Failed? && result.response == Response([], [])
            else
              && log == [ListedGroup(env.group(0))]
              && (if env.group(0).NoSuchGroup? then result.Crashed?
                  else result.Failed? && result.response == Response([], request.transientErrors))
  {
  }

  /** What a run comes to: the triage; the termination that ends at position b of the log,
      with what it confirmed and its errors; the log up to the end of the unhealthy step,
      and the errors of that; and the surplus step. */
  datatype Course = Course(t: Triage, b: nat, gone: seq<string>, ended: seq<string>, before: seq<Event>, errs: seq<string>,
                           strays: seq<string>, chosen: seq<string>, terminated: seq<string>, later: seq<string>)

  /** A run for a group, by its log: the group is listed, then the unhealthy step, then the
      surplus step, with the errors that each hands on. */
  lemma HandlerTells(env: Env, supported: int, asgName: string, request: ScaleResponse, members: seq<AsgInstance>)
    returns (s: Course)
    requires request.version == supported && asgName != "" && env.group(0) == Listed(members)
    ensures var (log, result) := Handle(env, supported, asgName, request);
            var start := [ListedGroup(Listed(members))];
            && Recorded(env, log, 0) && start <= s.before <= log
            && s.t == TriageAll(env, start, members) && TriageLog(s.t, 1, members)
            && UnhealthyStep(s.before, 1, s.t, s.b, s.gone, s.ended, s.errs)
            && SurplusCalls(env, log, |s.before|, Ids(members), request, s.strays, s.chosen, s.terminated, s.later)
            && SurplusResult(log, |s.before|, request, request.transientErrors + s.errs, s.terminated, s.later, result)
  {
    var start := [ListedGroup(Listed(members))];
    var t, b, gone, ended := UnhealthyTells(env, start, members);
    var (before, errs) := DetachUnhealthy(env, start, members);
    var strays, chosen, terminated, later :=
      SurplusTells(env, before, MemberIds(members), request, request.transientErrors + errs);
    s := Course(t, b, gone, ended, before, errs, strays, chosen, terminated, later);
    RecordedThen(env, start, before, Handle(env, supported, asgName, request).0, 0);
  }

  function Ids(members: seq<AsgInstance>): seq<string> {
    seq(|members|, i requires 0 <= i < |members| => members[i].id)
  }

  // ---------- which errors reach the response ----------

  /** The errors of a termination, by its calls, which are those between two positions. */
  function EndErrors(log: seq<Event>, t: nat, end: nat): seq<string>
    requires t <= end <= |log|
  {
    if end == t + 3 && log[t].Unlocked? && log[t + 1].Unprotected? && log[t + 2].TerminateCalled?
    then log[t].errs + (if log[t + 1].ok then [] else ["SetInstanceProtection"])
         + (if log[t + 2].terminating.Some? then [] else ["TerminateInstances"])
    else []
  }

  /** The errors of the unhealthy step that ends at position c. */
  function UnhealthyErrors(log: seq<Event>, a: nat, b: nat, c: nat): seq<string>
    requires 1 <= a <= b <= c <= |log|
  {
    if b == c then []
    else
      DescribeErrors(log[..a], 1) + EndErrors(log, a, b)
      + (if log[c - 1].Detached? && log[c - 1].ok then [] else ["DetachInstances"])
  }

  lemma UnhealthyReports(before: seq<Event>, log: seq<Event>, t: Triage, b: nat, gone: seq<string>, ended: seq<string>,
                         errs: seq<string>)
    requires before <= log && |t.log| >= 1 && UnhealthyStep(before, 1, t, b, gone, ended, errs)
    ensures |t.log| <= b <= |before| && errs == UnhealthyErrors(log, |t.log|, b, |before|)
    ensures forall n :: b <= n < |before| ==> log[n].Detached?
  {
    var a := |t.log|;
    assert log[..a] == t.log;
    assert ended == EndErrors(log, a, b) by {
      if t.toTerminate != [] {
        assert before[..b][a] == log[a] && before[..b][a + 1] == log[a + 1] && before[..b][a + 2] == log[a + 2];
      }
    }
  }

  lemma SurplusReports(env: Env, log: seq<Event>, c: nat, memberIds: seq<string>, request: ScaleResponse, errors: seq<string>,
                       s: Course, result: Result)
    requires SurplusCalls(env, log, c, memberIds, request, s.strays, s.chosen, s.terminated, s.later)
    requires SurplusResult(log, c, request, errors, s.terminated, s.later, result) && !result.Crashed?
    ensures c <= |log| && result.response.errors == errors + if |log| <= c + 2 then [] else EndErrors(log, c + 2, |log|)
    ensures forall n :: c <= n < |log| ==> !log[n].Detached?
  {
    assert s.later == if |log| <= c + 2 then [] else EndErrors(log, c + 2, |log|);
    assert errors + [] == errors;
  }

  /** What a run reports: the errors handed on to it; then those of its unhealthy step, one
      for each failed description, those of its termination and that of detaching, unless
      nothing was to be detached, when all of them are lost; then those of the termination
      of the surplus step, if it gets there. */
  lemma HandlerErrors(env: Env, supported: int, asgName: string, request: ScaleResponse, members: seq<AsgInstance>)
    returns (a: nat, b: nat, c: nat)
    requires request.version == supported && asgName != "" && env.group(0) == Listed(members)
    requires !Handle(env, supported, asgName, request).1.Crashed?
    ensures var (log, result) := Handle(env, supported, asgName, request);
            && 1 <= a <= b <= c <= |log| && a == 1 + |Suspects(members)|
            && (forall n :: b <= n < |log| ==> (log[n].Detached? <==> n < c))
            && result.response.errors == request.transientErrors + UnhealthyErrors(log, a, b, c)
                                         + (if |log| <= c + 2 then [] else EndErrors(log, c + 2, |log|))
  {
    var s := HandlerTells(env, supported, asgName, request, members);
    var (log, result) := Handle(env, supported, asgName, request);
    a, b, c := |s.t.log|, s.b, |s.before|;
    UnhealthyReports(s.before, log, s.t, s.b, s.gone, s.ended, s.errs);
    SurplusReports(env, log, c, Ids(members), request, request.transientErrors + s.errs, s, result);
  }

  /** A single unhealthy, protected member whose description fails: the error is lost. */
  lemma ErrorIsLost(env: Env, log: seq<Event>, a: AsgInstance)
    requires a.unhealthy && a.protectedFromScaleIn && env.describe(|log|, [a.id]) == None
    ensures TriageAll(env, log, [a]).errs == ["DescribeInstances"]
    ensures DetachUnhealthy(env, log, [a]).1 == []
  {
    assert [a][..0] == [];
    assert TriageAll(env, log, []) == Triage(log, [], [], []);
    assert TriageAll(env, log, [a]) == TriageOne(env, Triage(log, [], [], []), a);
  }

  /** An instance whose termination protection could not be switched off is terminated all
      the same, as far as the calls go, and the failure reported. */
  lemma StillProtectedIsTerminated(env: Env, log: seq<Event>, id: string)
    requires env.unlock(|log|, [id]) == ([id], ["UnauthorizedOperation"]) && env.unprotect(|log| + 1, [id])
    ensures var e := TerminateAsg(env, log, [id]);
            && e.log[|log|..] == [Unlocked([id], [id], ["UnauthorizedOperation"]), Unprotected([id], true),
                                  TerminateCalled([id], env.terminate(|log| + 2, [id]))]
            && ["UnauthorizedOperation"] <= e.errs
  {
    assert [id][..1] == [id];
  }
}
