/** What a run of the terminate lambda does not miss: every unhealthy member is dealt
    with, everything to detach is detached, and the response tells what was terminated. */
module TerminateCoverage {
  import opened Bags
  import opened Cloud
  import opened Terminate

  predicate InUse(a: AsgInstance) { a.lifecycle.InService? || a.lifecycle.Standby? }

  /** What a description of an unhealthy, protected member leads to. */
  predicate ActedOn(t: Triage, a: AsgInstance, found: Option<seq<Ec2>>) {
    match found
    case None => t.errs != []
    case Some(instances) =>
      if instances == [] || instances[0].state.Terminated? then InUse(a) ==> a.id in t.toDetach
      else instances[0].state.Stopped? ==> instances[0].id in t.toTerminate
  }

  /** An unhealthy member without protection is to be detached if it is in use; one with
      protection has been described, and the description acted on. */
  ghost predicate DealtWith(t: Triage, a: AsgInstance) {
    a.unhealthy ==>
      if !a.protectedFromScaleIn then InUse(a) ==> a.id in t.toDetach
      else exists n :: 0 <= n < |t.log| && DescribedIn(t.log[n], a.id) && ActedOn(t, a, t.log[n].instances)
  }

  predicate DescribedIn(e: Event, id: string) { e.Described? && e.ids == [id] }

  /** The lists only grow. */
  predicate Extends(t: Triage, t': Triage) {
    t.log <= t'.log && t.toDetach <= t'.toDetach && t.toTerminate <= t'.toTerminate && t.errs <= t'.errs
  }

  lemma OneExtends(env: Env, t: Triage, a: AsgInstance)
    ensures Extends(t, TriageOne(env, t, a))
  {
  }

  lemma DealtWithStays(t: Triage, t': Triage, a: AsgInstance)
    requires Extends(t, t') && DealtWith(t, a)
    ensures DealtWith(t', a)
  {
    if a.unhealthy && a.protectedFromScaleIn {
      var n :| 0 <= n < |t.log| && DescribedIn(t.log[n], a.id) && ActedOn(t, a, t.log[n].instances);
      assert t'.log[n] == t.log[n] && ActedOn(t', a, t'.log[n].instances);
    }
  }

  lemma OneIsDealtWith(env: Env, t: Triage, a: AsgInstance)
    ensures DealtWith(TriageOne(env, t, a), a)
  {
    var t' := TriageOne(env, t, a);
    if a.unhealthy && a.protectedFromScaleIn {
      var n := |t.log|;
      assert t'.log[n] == Described([a.id], env.describe(n, [a.id]));
      assert DescribedIn(t'.log[n], a.id) && ActedOn(t', a, t'.log[n].instances);
    }
  }

  /** No unhealthy member is passed over. */
  lemma {:induction false} TriageMissesNone(env: Env, log: seq<Event>, members: seq<AsgInstance>, k: nat)
    requires k < |members|
    ensures DealtWith(TriageAll(env, log, members), members[k])
  {
    var n := |members| - 1;
    var t := TriageAll(env, log, members[..n]);
    if k == n {
      OneIsDealtWith(env, t, members[n]);
    } else {
      TriageMissesNone(env, log, members[..n], k);
      OneExtends(env, t, members[n]);
      DealtWithStays(t, TriageOne(env, t, members[n]), members[k]);
    }
  }

  /** How many of the descriptions from position t of the log on failed. */
  function FailedDescriptions(log: seq<Event>, t: nat): nat
    requires t <= |log|
  {
    if t == |log| then 0
    else
      var e := log[|log| - 1];
      FailedDescriptions(log[..|log| - 1], t) + (if e.Described? && e.instances.None? then 1 else 0)
  }

  /** There is exactly one error for each description that failed. */
  lemma {:induction false} TriageErrors(env: Env, log: seq<Event>, members: seq<AsgInstance>)
    ensures var t := TriageAll(env, log, members);
            && log <= t.log && |t.errs| == FailedDescriptions(t.log, |log|)
            && forall k :: 0 <= k < |t.errs| ==> t.errs[k] == "DescribeInstances"
  {
    if members != [] {
      var n := |members| - 1;
      TriageErrors(env, log, members[..n]);
      var t, a := TriageAll(env, log, members[..n]), members[n];
      if a.unhealthy && a.protectedFromScaleIn {
        var described := t.log + [Described([a.id], env.describe(|t.log|, [a.id]))];
        assert described[..|t.log|] == t.log;
        assert TriageOne(env, t, a).log == described;
      }
    }
  }

  /** The ids sent to be detached from position t of the log on. */
  function DetachedIds(log: seq<Event>, t: nat): seq<string>
    requires t <= |log|
    decreases |log| - t
  {
    if t == |log| then []
    else (if log[t].Detached? then log[t].ids else []) + DetachedIds(log, t + 1)
  }

  lemma {:induction false} DetachedAfter(log: seq<Event>, more: seq<Event>, t: nat)
    requires t <= |log| <= |more| && log <= more
    ensures DetachedIds(more, t) == DetachedIds(log, t) + DetachedIds(more, |log|)
    decreases |log| - t
  {
    if t < |log| {
      DetachedAfter(log, more, t + 1);
    }
  }

  /** The batches sent to be detached are an initial part of the list, and all of it if
      no call fails. */
  lemma {:induction false} DetachSendsAll(env: Env, log: seq<Event>, ids: seq<string>)
    ensures var (log', ok) := DetachFrom(env, log, ids);
            log <= log' && DetachedIds(log', |log|) <= ids && (ok ==> DetachedIds(log', |log|) == ids)
    decreases |ids|
  {
    if ids != [] {
      var n := Min(|ids|, DETACH_LIMIT);
      var batch, rest := ids[..n], ids[n..];
      var ok := env.detach(|log|, batch);
      var log1 := log + [Detached(batch, ok)];
      assert ids == batch + rest;
      assert DetachedIds(log1, |log|) == batch;
      if ok {
        DetachSendsAll(env, log1, rest);
        DetachedAfter(log1, DetachFrom(env, log1, rest).0, |log|);
      }
    }
  }

  /** The response names the terminated instances in the order of the confirmation, each
      with the launch time of a described instance of that id. */
  lemma {:induction false} ReportTells(instances: seq<Ec2>, terminated: seq<string>, k: nat)
    requires KnowsAll(instances, terminated) && k < |terminated|
    ensures |Report(instances, terminated)| == |terminated| && Report(instances, terminated)[k].0 == terminated[k]
    ensures exists i :: i in instances && i.id == terminated[k] && i.launch == Report(instances, terminated)[k].1
  {
    var n := |terminated| - 1;
    ReportLength(instances, terminated[..n]);
    if k < n {
      ReportTells(instances, terminated[..n], k);
    } else {
      assert terminated[n] in terminated;
      LaunchIsKnown(instances, terminated[n]);
    }
  }

  lemma {:induction false} ReportLength(instances: seq<Ec2>, terminated: seq<string>)
    ensures |Report(instances, terminated)| == |terminated|
  {
    if terminated != [] {
      ReportLength(instances, terminated[..|terminated| - 1]);
    }
  }

  lemma {:induction false} LaunchIsKnown(instances: seq<Ec2>, id: string)
    requires Knows(instances, id)
    ensures exists i :: i in instances && i.id == id && i.launch == LaunchOf(instances, id)
  {
    var n := |instances| - 1;
    if instances[n].id != id {
      var i :| i in instances && i.id == id;
      assert i in instances[..n];
      LaunchIsKnown(instances[..n], id);
    }
  }
}
