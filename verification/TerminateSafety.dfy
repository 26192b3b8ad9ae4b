/** Which instances a run of the terminate lambda may destroy or detach, whatever
    the cloud answers. */
module TerminateSafety {
  import opened Bags
  import opened Cloud
  import opened Terminate

  /** What the run works on: the group's members, the request, and the environment. */
  datatype Context = Context(env: Env, members: seq<AsgInstance>, request: ScaleResponse)

  /** What a description can show about an instance. */
  datatype Look = IsStopped | IsTerminated | IsSurplus

  predicate Shows(c: Context, i: Ec2, look: Look) {
    match look
    case IsStopped => i.state.Stopped?
    case IsTerminated => i.state.Terminated?
    case IsSurplus => i.ip.Some? && i.ip.value !in c.request.hosts
  }

  predicate SeenAt(e: Event, i: Ec2, id: string) {
    e.Described? && e.instances.Some? && i in e.instances.value && i.id == id && id in e.ids
  }

  /** The log holds a description of the instance that shows the look. */
  ghost predicate Seen(c: Context, log: seq<Event>, id: string, look: Look) {
    exists n, i :: 0 <= n < |log| && SeenAt(log[n], i, id) && Shows(c, i, look)
  }

  /** The log holds, at position m, the description of the candidates, those of the members
      described just before that have no host's address. The n-th is the instance: not
      going down, and explicitly listed or, by the clock as read for this candidate
      after that description, half an hour old. */
  ghost predicate CondemnedAt(c: Context, log: seq<Event>, id: string, m: nat, n: nat) {
    && 0 < m < |log| && log[m].Described? && log[m].instances.Some? && n < |log[m].instances.value|
    && log[m - 1].Described? && log[m - 1].ids == MemberIds(c.members) && log[m - 1].instances.Some?
    && log[m].ids == DeltaIds(log[m - 1].instances.value, c.request.hosts)
    && id in log[m].ids
    && var i := log[m].instances.value[n];
       && i.id == id && !i.state.ShuttingDown? && !i.state.Terminated?
       && (Named(i, c.request.toTerminate) || c.env.now(m + 1, n) - i.launch >= HALF_HOUR)
  }

  /** Named by id and address in the explicit list. */
  ghost predicate Named(i: Ec2, toTerminate: seq<HgInstance>) {
    exists h :: h in toTerminate && h.id == i.id && i.ip == Some(h.ip)
  }

  ghost predicate Condemned(c: Context, log: seq<Event>, id: string) {
    exists m: nat, n: nat :: CondemnedAt(c, log, id, m, n)
  }

  /** An unhealthy, protected member that was seen stopped. */
  ghost predicate StoppedMember(c: Context, log: seq<Event>, id: string) {
    && (exists a :: a in c.members && a.id == id && a.unhealthy && a.protectedFromScaleIn)
    && Seen(c, log, id, IsStopped)
  }

  /** A member that was seen with an address that is no Weka host's, and seen alive
      and either half an hour old or listed for removal by id and address. */
  ghost predicate SurplusMember(c: Context, log: seq<Event>, id: string) {
    && (exists a :: a in c.members && a.id == id)
    && Seen(c, log, id, IsSurplus)
    && Condemned(c, log, id)
  }

  ghost predicate MayTerminate(c: Context, log: seq<Event>, id: string) {
    StoppedMember(c, log, id) || SurplusMember(c, log, id)
  }

  /** The call at position n is for no ids, or for at most 50 that may be terminated, right
      after scale-in protection was switched off for those very ids. Termination protection
      was called off for them before, and is off for all exactly if that gave no errors. */
  ghost predicate TerminationOk(c: Context, log: seq<Event>, n: nat)
    requires n < |log| && log[n].TerminateCalled?
  {
    var ids := log[n].ids;
    ids == [] ||
    (&& |ids| <= MAX_TERMINATE
     && n >= 2 && log[n - 1] == Unprotected(ids, true)
     && log[n - 2].Unlocked? && log[n - 2].updated == ids && multiset(log[n - 2].ids) == multiset(ids)
     && (log[n - 2].errs == [] <==> forall id :: id in ids ==> c.env.unlocks(n - 2, id))
     && forall id :: id in ids ==> MayTerminate(c, log[..n], id))
  }

  /** An unhealthy member in service or standby that is not protected, or is gone,
      or an instance whose termination the cloud has just confirmed. */
  ghost predicate MayDetach(c: Context, log: seq<Event>, id: string) {
    || (exists a :: a in c.members && a.id == id && Removable(c, log, a))
    || Confirmed(log, id)
  }

  ghost predicate Removable(c: Context, log: seq<Event>, a: AsgInstance) {
    && a.unhealthy && (a.lifecycle.InService? || a.lifecycle.Standby?)
    && (a.protectedFromScaleIn ==> Gone(c, log, a.id))
  }

  /** Seen terminated, or unknown to the cloud. */
  ghost predicate Gone(c: Context, log: seq<Event>, id: string) {
    || Seen(c, log, id, IsTerminated)
    || exists n :: 0 <= n < |log| && log[n] == Described([id], Some([]))
  }

  ghost predicate Confirmed(log: seq<Event>, id: string) {
    exists n :: 0 <= n < |log| && log[n].TerminateCalled? && log[n].terminating.Some? && id in log[n].terminating.value
  }

  ghost predicate DetachOk(c: Context, log: seq<Event>, n: nat)
    requires n < |log| && log[n].Detached?
  {
    0 < |log[n].ids| <= DETACH_LIMIT && forall id :: id in log[n].ids ==> MayDetach(c, log[..n], id)
  }

  ghost predicate EventOk(c: Context, log: seq<Event>, n: nat)
    requires n < |log|
  {
    (log[n].TerminateCalled? ==> TerminationOk(c, log, n)) && (log[n].Detached? ==> DetachOk(c, log, n))
  }

  ghost predicate Safe(c: Context, log: seq<Event>) {
    forall n :: 0 <= n < |log| ==> EventOk(c, log, n)
  }

  // ---------- what was seen stays seen ----------

  lemma SeenStays(c: Context, log: seq<Event>, log': seq<Event>, id: string, look: Look)
    requires log <= log' && Seen(c, log, id, look)
    ensures Seen(c, log', id, look)
  {
    var n, i :| 0 <= n < |log| && SeenAt(log[n], i, id) && Shows(c, i, look);
    assert log'[n] == log[n];
    assert SeenAt(log'[n], i, id) && Shows(c, i, look);
  }

  /** An event judged by an extension of the log is judged the same. */
  lemma PrefixOk(c: Context, log: seq<Event>, log': seq<Event>, n: nat)
    requires log <= log' && n < |log| && EventOk(c, log, n)
    ensures EventOk(c, log', n)
  {
    assert log'[..n] == log[..n];
    assert log'[n] == log[n] && (n >= 1 ==> log'[n - 1] == log[n - 1]) && (n >= 2 ==> log'[n - 2] == log[n - 2]);
  }

  lemma SafeAfter(c: Context, log: seq<Event>, e: Event)
    requires Safe(c, log) && EventOk(c, log + [e], |log|)
    ensures Safe(c, log + [e])
  {
    forall n | 0 <= n < |log + [e]|
      ensures EventOk(c, log + [e], n)
    {
      if n < |log| {
        PrefixOk(c, log, log + [e], n);
      }
    }
  }

  lemma MayTerminateStays(c: Context, log: seq<Event>, log': seq<Event>, id: string)
    requires log <= log' && MayTerminate(c, log, id)
    ensures MayTerminate(c, log', id)
  {
    if StoppedMember(c, log, id) {
      SeenStays(c, log, log', id, IsStopped);
    } else {
      SeenStays(c, log, log', id, IsSurplus);
      var m: nat, n: nat :| CondemnedAt(c, log, id, m, n);
      assert CondemnedAt(c, log', id, m, n);
    }
  }

  lemma MayDetachStays(c: Context, log: seq<Event>, log': seq<Event>, id: string)
    requires log <= log' && MayDetach(c, log, id)
    ensures MayDetach(c, log', id)
  {
    if Confirmed(log, id) {
      var n :| 0 <= n < |log| && log[n].TerminateCalled? && log[n].terminating.Some? && id in log[n].terminating.value;
      assert log'[n] == log[n];
    } else {
      var a :| a in c.members && a.id == id && Removable(c, log, a);
      if a.protectedFromScaleIn {
        GoneStays(c, log, log', id);
      }
      assert Removable(c, log', a);
    }
  }

  lemma GoneStays(c: Context, log: seq<Event>, log': seq<Event>, id: string)
    requires log <= log' && Gone(c, log, id)
    ensures Gone(c, log', id)
  {
    if Seen(c, log, id, IsTerminated) {
      SeenStays(c, log, log', id, IsTerminated);
    } else {
      var n :| 0 <= n < |log| && log[n] == Described([id], Some([]));
      assert log'[n] == log[n];
    }
  }

  // ---------- the steps of a run ----------

  lemma SameElements(a: seq<string>, b: seq<string>)
    requires multiset(a) == multiset(b)
    ensures |a| == |b| && forall x :: x in a <==> x in b
  {
    assert |multiset(a)| == |multiset(b)|;
    forall x
      ensures x in a <==> x in b
    {
      assert x in multiset(a) <==> x in multiset(b);
    }
  }

  /** Terminating ids that may be terminated is safe, confirms what it reports, and
      goes at most to the first 50. */
  lemma TerminateAsgSafe(c: Context, log: seq<Event>, ids: seq<string>)
    requires Honest(c.env) && Safe(c, log)
    requires forall id :: id in ids ==> MayTerminate(c, log, id)
    ensures var e := TerminateAsg(c.env, log, ids);
            && log <= e.log && Safe(c, e.log)
            && forall id :: id in e.terminated ==> Confirmed(e.log, id) && id in ids
  {
    if ids != [] {
      var batch := ids[..Min(|ids|, MAX_TERMINATE)];
      var (updated, errs) := c.env.unlock(|log|, batch);
      var log1 := log + [Unlocked(batch, updated, errs)];
      SafeAfter(c, log, Unlocked(batch, updated, errs));
      var ok := c.env.unprotect(|log1|, updated);
      var log2 := log1 + [Unprotected(updated, ok)];
      SafeAfter(c, log1, Unprotected(updated, ok));
      var targets := if ok then updated else [];
      var call := TerminateCalled(targets, c.env.terminate(|log2|, targets));
      var log3 := log2 + [call];
      SameElements(updated, batch);
      NoneLockedStill(c.env, |log|, batch);
      assert log3[..|log2|] == log2;
      forall id | id in targets
        ensures MayTerminate(c, log3[..|log2|], id) && id in ids
      {
        assert id in batch;
        MayTerminateStays(c, log, log2, id);
      }
      assert log3[|log2| - 1] == Unprotected(updated, ok) && log3[|log2| - 2] == Unlocked(batch, updated, errs);
      SafeAfter(c, log2, call);
      assert log3[|log2|] == call;
    }
  }

  lemma {:induction false} DetachSafe(c: Context, log: seq<Event>, ids: seq<string>)
    requires Safe(c, log) && forall id :: id in ids ==> MayDetach(c, log, id)
    ensures log <= DetachFrom(c.env, log, ids).0 && Safe(c, DetachFrom(c.env, log, ids).0)
    decreases |ids|
  {
    if ids != [] {
      var batch := ids[..Min(|ids|, DETACH_LIMIT)];
      var e := Detached(batch, c.env.detach(|log|, batch));
      assert (log + [e])[..|log|] == log;
      SafeAfter(c, log, e);
      forall id | id in ids[|batch|..]
        ensures MayDetach(c, log + [e], id)
      {
        MayDetachStays(c, log, log + [e], id);
      }
      DetachSafe(c, log + [e], ids[|batch|..]);
    }
  }

  ghost predicate TriageOk(c: Context, t: Triage) {
    && Safe(c, t.log)
    && (forall id :: id in t.toDetach ==> MayDetach(c, t.log, id))
    && (forall id :: id in t.toTerminate ==> MayTerminate(c, t.log, id))
  }

  lemma TriageExtends(c: Context, t: Triage, e: Event)
    requires TriageOk(c, t) && !e.TerminateCalled? && !e.Detached?
    ensures TriageOk(c, t.(log := t.log + [e]))
  {
    SafeAfter(c, t.log, e);
    forall id | id in t.toDetach
      ensures MayDetach(c, t.log + [e], id)
    {
      MayDetachStays(c, t.log, t.log + [e], id);
    }
    forall id | id in t.toTerminate
      ensures MayTerminate(c, t.log + [e], id)
    {
      MayTerminateStays(c, t.log, t.log + [e], id);
    }
  }

  lemma DiscardSafe(c: Context, t: Triage, a: AsgInstance)
    requires TriageOk(c, t) && a in c.members && a.unhealthy
    requires a.protectedFromScaleIn ==> Gone(c, t.log, a.id)
    ensures TriageOk(c, Discard(t, a))
  {
    if a.lifecycle.Standby? || a.lifecycle.InService? {
      assert Removable(c, t.log, a);
      assert MayDetach(c, t.log, a.id);
    }
  }

  lemma TriageOneSafe(c: Context, t: Triage, a: AsgInstance)
    requires Honest(c.env) && TriageOk(c, t) && a in c.members
    ensures t.log <= TriageOne(c.env, t, a).log && TriageOk(c, TriageOne(c.env, t, a))
  {
    if a.unhealthy && !a.protectedFromScaleIn {
      DiscardSafe(c, t, a);
    } else if a.unhealthy {
      var reply := c.env.describe(|t.log|, [a.id]);
      var e := Described([a.id], reply);
      var t' := t.(log := t.log + [e]);
      TriageExtends(c, t, e);
      assert t'.log[|t.log|] == e;
      if reply.Some? && reply.value == [] {
        assert Gone(c, t'.log, a.id);
        DiscardSafe(c, t', a);
      } else if reply.Some? {
        var i := reply.value[0];
        assert i in reply.value;
        assert i.id == a.id;
        assert SeenAt(t'.log[|t.log|], i, a.id);
        if i.state.Stopped? {
          assert Shows(c, i, IsStopped);
          assert MayTerminate(c, t'.log, a.id);
        } else if i.state.Terminated? {
          assert Shows(c, i, IsTerminated);
          DiscardSafe(c, t', a);
        }
      }
    }
  }

  lemma {:induction false} TriageSafe(c: Context, log: seq<Event>, members: seq<AsgInstance>)
    requires Honest(c.env) && Safe(c, log) && forall a :: a in members ==> a in c.members
    ensures var t := TriageAll(c.env, log, members); log <= t.log && TriageOk(c, t)
  {
    if members != [] {
      TriageSafe(c, log, members[..|members| - 1]);
      TriageOneSafe(c, TriageAll(c.env, log, members[..|members| - 1]), members[|members| - 1]);
    }
  }

  lemma DetachUnhealthySafe(c: Context, log: seq<Event>)
    requires Honest(c.env) && Safe(c, log)
    ensures var (log', _) := DetachUnhealthy(c.env, log, c.members); log <= log' && Safe(c, log')
  {
    TriageSafe(c, log, c.members);
    var t := TriageAll(c.env, log, c.members);
    TerminateAsgSafe(c, t.log, t.toTerminate);
    var e := TerminateAsg(c.env, t.log, t.toTerminate);
    forall id | id in t.toDetach + e.terminated
      ensures MayDetach(c, e.log, id)
    {
      if id in t.toDetach {
        MayDetachStays(c, t.log, e.log, id);
      }
    }
    DetachSafe(c, e.log, t.toDetach + e.terminated);
  }

  lemma {:induction false} DeltaSource(instances: seq<Ec2>, hosts: seq<string>, id: string)
    requires id in DeltaIds(instances, hosts)
    ensures exists i :: i in instances && i.id == id && Surplus(i, hosts)
  {
    if instances != [] {
      var n := |instances| - 1;
      if id in DeltaIds(instances[..n], hosts) {
        DeltaSource(instances[..n], hosts, id);
      } else {
        assert instances[n] in instances;
      }
    }
  }

  lemma {:induction false} DoomedSource(env: Env, t: nat, instances: seq<Ec2>, toTerminate: seq<HgInstance>, id: string)
    returns (n: nat)
    requires id in DoomedIds(env, t, instances, toTerminate)
    ensures n < |instances| && instances[n].id == id && Doomed(instances[n], toTerminate, env.now(t, n))
  {
    n := |instances| - 1;
    if id in DoomedIds(env, t, instances[..n], toTerminate) {
      n := DoomedSource(env, t, instances[..n], toTerminate, id);
    }
  }

  lemma CandidateIsSurplus(c: Context, log: seq<Event>, first: Event, second: Event, id: string)
    requires Honest(c.env) && |log| >= 2 && log[|log| - 2] == first && log[|log| - 1] == second
    requires first.Described? && first.instances.Some? && second.Described? && second.instances.Some?
    requires first.ids == MemberIds(c.members)
    requires first.instances == c.env.describe(|log| - 2, first.ids)
    requires second.ids == DeltaIds(first.instances.value, c.request.hosts)
    requires second.instances == c.env.describe(|log| - 1, second.ids)
    requires id in DoomedIds(c.env, |log|, second.instances.value, c.request.toTerminate)
    ensures SurplusMember(c, log, id)
  {
    var n := DoomedSource(c.env, |log|, second.instances.value, c.request.toTerminate, id);
    assert second.instances.value[n] in second.instances.value && id in second.ids;
    assert CondemnedAt(c, log, id, |log| - 1, n);
    DeltaSource(first.instances.value, c.request.hosts, id);
    var i1 :| i1 in first.instances.value && i1.id == id && Surplus(i1, c.request.hosts);
    assert id in first.ids;
    assert SeenAt(log[|log| - 2], i1, id);
    assert Shows(c, i1, IsSurplus);
    var k :| 0 <= k < |c.members| && MemberIds(c.members)[k] == id;
    assert c.members[k] in c.members;
  }

  lemma TerminateSurplusSafe(c: Context, log: seq<Event>, errors: seq<string>)
    requires Honest(c.env) && Safe(c, log)
    ensures var (log', _) := TerminateSurplus(c.env, log, MemberIds(c.members), c.request, errors);
            log <= log' && Safe(c, log')
  {
    var ids := MemberIds(c.members);
    if ids == [] {
      return;
    }
    var first := Described(ids, c.env.describe(|log|, ids));
    var log1 := log + [first];
    SafeAfter(c, log, first);
    if first.instances.None? {
      return;
    }
    var delta := DeltaIds(first.instances.value, c.request.hosts);
    if delta == [] {
      return;
    }
    var second := Described(delta, c.env.describe(|log1|, delta));
    var log2 := log1 + [second];
    SafeAfter(c, log1, second);
    if second.instances.None? || CrashesOn(second.instances.value, c.request.toTerminate) {
      return;
    }
    var doomed := DoomedIds(c.env, |log2|, second.instances.value, c.request.toTerminate);
    forall id | id in doomed
      ensures MayTerminate(c, log2, id)
    {
      CandidateIsSurplus(c, log2, first, second, id);
    }
    TerminateAsgSafe(c, log2, doomed);
  }

  lemma ConfirmedWasAsked(env: Env, log: seq<Event>, ids: seq<string>, id: string)
    requires Honest(env) && id in TerminateAsg(env, log, ids).terminated
    ensures id in ids
  {
    var batch := ids[..Min(|ids|, MAX_TERMINATE)];
    SameElements(env.unlock(|log|, batch).0, batch);
  }

  /** The surplus part meets, after two successful descriptions, an explicit list and a
      candidate that has lost its private address in between. */
  ghost predicate LostAddress(env: Env, log: seq<Event>, memberIds: seq<string>, request: ScaleResponse) {
    && memberIds != [] && env.describe(|log|, memberIds).Some?
    && var delta := DeltaIds(env.describe(|log|, memberIds).value, request.hosts);
       && delta != [] && env.describe(|log| + 1, delta).Some?
       && request.toTerminate != [] && exists i :: i in env.describe(|log| + 1, delta).value && i.ip.None?
  }

  lemma CrashNeedsLostAddress(env: Env, log: seq<Event>, memberIds: seq<string>, request: ScaleResponse, errors: seq<string>)
    requires Honest(env)
    ensures TerminateSurplus(env, log, memberIds, request, errors).1.Crashed? <==> LostAddress(env, log, memberIds, request)
  {
    var first := env.describe(|log|, memberIds);
    if memberIds != [] && first.Some? {
      var delta := DeltaIds(first.value, request.hosts);
      var second := env.describe(|log| + 1, delta);
      if delta != [] && second.Some? {
        var log2 := log + [Described(memberIds, first)] + [Described(delta, second)];
        var doomed := DoomedIds(env, |log2|, second.value, request.toTerminate);
        forall id | id in TerminateAsg(env, log2, doomed).terminated
          ensures Knows(second.value, id)
        {
          ConfirmedWasAsked(env, log2, doomed, id);
          var n := DoomedSource(env, |log2|, second.value, request.toTerminate, id);
          assert second.value[n] in second.value;
        }
      }
    }
  }

  /** With an honest cloud, a run crashes exactly if the group does not exist, or its
      surplus part meets an explicit list and a candidate without a private address. */
  lemma HandlerCrashes(env: Env, supported: int, asgName: string, request: ScaleResponse)
    requires Honest(env)
    ensures Handle(env, supported, asgName, request).1.Crashed? <==>
              && request.version == supported && asgName != ""
              && match env.group(0)
                 case NoSuchGroup => true
                 case GroupFailed => false
                 case Listed(members) =>
                   LostAddress(env, DetachUnhealthy(env, [ListedGroup(env.group(0))], members).0, MemberIds(members), request)
  {
    if request.version == supported && asgName != "" && env.group(0).Listed? {
      var members := env.group(0).members;
      var (log1, errs) := DetachUnhealthy(env, [ListedGroup(env.group(0))], members);
      CrashNeedsLostAddress(env, log1, MemberIds(members), request, request.transientErrors + errs);
    }
  }

  /** Over a whole run, under any answers of an honest cloud: only unhealthy stopped
      members and surplus members are ever terminated, at most 50 in a call and
      only once unprotected, and only members that are gone or unprotected, or
      just terminated, are detached. */
  lemma HandlerSafe(env: Env, supported: int, asgName: string, request: ScaleResponse)
    requires Honest(env)
    ensures var (log, _) := Handle(env, supported, asgName, request);
            && (log != [] ==> log[0] == ListedGroup(env.group(0)))
            && Safe(Context(env, if env.group(0).Listed? then env.group(0).members else [], request), log)
  {
    if request.version == supported && asgName != "" && env.group(0).Listed? {
      var members := env.group(0).members;
      var c := Context(env, members, request);
      var log := [ListedGroup(env.group(0))];
      assert Safe(c, log);
      DetachUnhealthySafe(c, log);
      var (log1, errs) := DetachUnhealthy(env, log, members);
      TerminateSurplusSafe(c, log1, request.transientErrors + errs);
      var (log2, r) := TerminateSurplus(env, log1, MemberIds(members), request, request.transientErrors + errs);
      assert log <= log1 <= log2;
    }
  }
}
