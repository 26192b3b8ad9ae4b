/** Repeated runs drain the surplus: a run in which no call fails terminates
    exactly 50 of the eligible surplus instances, or all of them if fewer. */
module Drain {
  import opened Bags
  import opened Cloud
  import opened Terminate

  ghost predicate Distinct(world: seq<Ec2>) {
    forall i, j :: 0 <= i < j < |world| ==> world[i].id != world[j].id
  }

  /** The instances that a run with this request at this time may terminate as surplus. */
  ghost function Eligible(world: seq<Ec2>, memberIds: seq<string>, request: ScaleResponse, now: int): set<string> {
    set i | i in world && i.id in memberIds && Surplus(i, request.hosts) && Doomed(i, request.toTerminate, now) :: i.id
  }

  /** r lists, each once and in any order, the instances of the world asked for. */
  ghost predicate Lists(r: seq<Ec2>, world: seq<Ec2>, ids: seq<string>) {
    Distinct(r) && forall i :: i in r <==> i in world && i.id in ids
  }

  /** From log length t on, no call fails, descriptions are true of the world, every
      termination asked for is confirmed, and the clock stands at now. */
  ghost predicate Works(env: Env, t: nat, world: seq<Ec2>, now: int) {
    && (forall n, ids :: n >= t ==> env.describe(n, ids).Some? && Lists(env.describe(n, ids).value, world, ids))
    && (forall n, ids :: n >= t ==> multiset(env.unlock(n, ids).0) == multiset(ids) && env.unlock(n, ids).1 == [])
    && (forall n, ids :: n >= t ==> env.unprotect(n, ids))
    && (forall n, ids :: n >= t ==> env.terminate(n, ids) == Some(ids))
    && (forall n, k :: n >= t ==> env.now(n, k) == now)
  }

  /** The world after the instances have been told to terminate. */
  function After(world: seq<Ec2>, ids: seq<string>): seq<Ec2> {
    seq(|world|, k requires 0 <= k < |world| => if world[k].id in ids then world[k].(state := ShuttingDown) else world[k])
  }

  ghost predicate DistinctIds(ids: seq<string>) { forall i, j :: 0 <= i < j < |ids| ==> ids[i] != ids[j] }

  function Elements(ids: seq<string>): set<string> { set id | id in ids }

  lemma {:induction false} CountDistinct(ids: seq<string>)
    requires DistinctIds(ids)
    ensures |Elements(ids)| == |ids|
  {
    if ids != [] {
      var n := |ids| - 1;
      CountDistinct(ids[..n]);
      assert Elements(ids) == Elements(ids[..n]) + {ids[n]};
    }
  }

  lemma {:induction false} DeltaExactly(instances: seq<Ec2>, hosts: seq<string>, id: string)
    ensures id in DeltaIds(instances, hosts) <==> exists i :: i in instances && i.id == id && Surplus(i, hosts)
  {
    if instances != [] {
      var n := |instances| - 1;
      DeltaExactly(instances[..n], hosts, id);
      assert forall i :: i in instances <==> i in instances[..n] || i == instances[n];
    }
  }

  lemma {:induction false} DoomedExactly(env: Env, t: nat, instances: seq<Ec2>, toTerminate: seq<HgInstance>, now: int)
    requires Distinct(instances) && forall k: nat :: env.now(t, k) == now
    ensures var ids := DoomedIds(env, t, instances, toTerminate);
            && DistinctIds(ids)
            && forall id :: id in ids <==> exists i :: i in instances && i.id == id && Doomed(i, toTerminate, now)
  {
    if instances != [] {
      var n := |instances| - 1;
      DoomedExactly(env, t, instances[..n], toTerminate, now);
      assert forall i :: i in instances <==> i in instances[..n] || i == instances[n];
      forall i | i in instances[..n]
        ensures i.id != instances[n].id
      {
        var k :| 0 <= k < n && instances[..n][k] == i;
        assert instances[k].id != instances[n].id;
      }
      assert instances[n].id !in DoomedIds(env, t, instances[..n], toTerminate);
    }
  }

  lemma NoCrash(instances: seq<Ec2>, delta: seq<string>, first: seq<Ec2>, world: seq<Ec2>, hosts: seq<string>,
                toTerminate: seq<HgInstance>, memberIds: seq<string>)
    requires Distinct(world) && Lists(first, world, memberIds) && delta == DeltaIds(first, hosts) && Lists(instances, world, delta)
    ensures !CrashesOn(instances, toTerminate)
    ensures forall i :: i in instances <==> i in world && i.id in memberIds && Surplus(i, hosts)
  {
    forall i | i in world
      ensures i.id in delta <==> i.id in memberIds && Surplus(i, hosts)
    {
      DeltaExactly(first, hosts, i.id);
    }
  }

  lemma DoomedAreEligible(env: Env, t: nat, instances: seq<Ec2>, world: seq<Ec2>, memberIds: seq<string>,
                          request: ScaleResponse, now: int)
    requires Distinct(instances) && forall k: nat :: env.now(t, k) == now
    requires forall i :: i in instances <==> i in world && i.id in memberIds && Surplus(i, request.hosts)
    ensures var ids := DoomedIds(env, t, instances, request.toTerminate);
            DistinctIds(ids) && Elements(ids) == Eligible(world, memberIds, request, now)
  {
    DoomedExactly(env, t, instances, request.toTerminate, now);
  }

  /** The ids named in a final terminate call after position t of a log, none if there was none. */
  function LastTerminated(log: seq<Event>, t: nat): seq<string> {
    if |log| > t && log[|log| - 1].TerminateCalled? then log[|log| - 1].ids else []
  }

  lemma AsgTerminates(env: Env, log: seq<Event>, ids: seq<string>, world: seq<Ec2>, now: int) returns (batch: seq<string>)
    requires Works(env, |log|, world, now) && DistinctIds(ids) && ids != []
    ensures var e := TerminateAsg(env, log, ids);
            && |e.log| == |log| + 3 && log <= e.log
            && e.log[|log|].Unlocked? && e.log[|log| + 1].Unprotected?
            && e.log[|log| + 2] == TerminateCalled(batch, Some(batch))
            && e.terminated == batch && e.errs == []
    ensures multiset(batch) == multiset(ids[..Min(|ids|, MAX_TERMINATE)])
  {
    batch := env.unlock(|log|, ids[..Min(|ids|, MAX_TERMINATE)]).0;
  }

  lemma BatchCounts(ids: seq<string>, batch: seq<string>)
    requires DistinctIds(ids) && multiset(batch) == multiset(ids[..Min(|ids|, MAX_TERMINATE)])
    ensures Elements(batch) <= Elements(ids) && |Elements(batch)| == Min(|ids|, MAX_TERMINATE)
  {
    var front := ids[..Min(|ids|, MAX_TERMINATE)];
    forall x
      ensures x in batch <==> x in front
    {
      assert x in multiset(batch) <==> x in multiset(front);
    }
    assert Elements(batch) == Elements(front);
    CountDistinct(front);
  }

  /** The events from position t on contain no terminate call but the one for batch. */
  ghost predicate Terminates(log: seq<Event>, t: nat, batch: seq<string>) {
    && (forall n :: t <= n < |log| && log[n].TerminateCalled? ==> log[n] == TerminateCalled(batch, Some(batch)))
    && (batch != [] ==> log != [] && t < |log| && log[|log| - 1] == TerminateCalled(batch, Some(batch)))
  }

  lemma CandidatesTerminate(env: Env, log: seq<Event>, world: seq<Ec2>, now: int, doomed: seq<string>) returns (batch: seq<string>)
    requires Works(env, |log|, world, now) && DistinctIds(doomed)
    requires |log| >= 2 && log[|log| - 1].Described? && log[|log| - 2].Described?
    ensures var e := TerminateAsg(env, log, doomed);
            log <= e.log && e.errs == [] && Terminates(e.log, |log| - 2, batch) && Elements(e.terminated) == Elements(batch)
    ensures Elements(batch) <= Elements(doomed) && |Elements(batch)| == Min(|doomed|, MAX_TERMINATE)
  {
    if doomed == [] {
      batch := [];
    } else {
      batch := AsgTerminates(env, log, doomed, world, now);
      BatchCounts(doomed, batch);
    }
  }

  /** What TerminateSurplus does when both descriptions succeed and it does not crash. */
  lemma SurplusSteps(env: Env, log: seq<Event>, memberIds: seq<string>, request: ScaleResponse, errors: seq<string>,
                     first: seq<Ec2>, delta: seq<string>, second: seq<Ec2>)
    requires memberIds != [] && env.describe(|log|, memberIds) == Some(first) && delta == DeltaIds(first, request.hosts)
    requires delta != [] ==> env.describe(|log| + 1, delta) == Some(second) && !CrashesOn(second, request.toTerminate)
    ensures var log1 := log + [Described(memberIds, Some(first))];
            var log2 := log1 + [Described(delta, Some(second))];
            var e := TerminateAsg(env, log2, DoomedIds(env, |log2|, second, request.toTerminate));
            TerminateSurplus(env, log, memberIds, request, errors) ==
            if delta == [] then (log1, Done(Response([], errors)))
            else if !KnowsAll(second, e.terminated) then (e.log, Crashed)
            else (e.log, Done(Response(Report(second, e.terminated), errors + e.errs)))
  {
  }

  /** The candidates that a run describes for the second time are terminated as they should be. */
  lemma DoomedTerminate(env: Env, log2: seq<Event>, second: seq<Ec2>, world: seq<Ec2>, memberIds: seq<string>,
                        request: ScaleResponse, now: int) returns (batch: seq<string>)
    requires Distinct(world) && Works(env, |log2|, world, now)
    requires |log2| >= 2 && log2[|log2| - 1].Described? && log2[|log2| - 2].Described?
    requires Distinct(second)
    requires forall i :: i in second <==> i in world && i.id in memberIds && Surplus(i, request.hosts)
    ensures var e := TerminateAsg(env, log2, DoomedIds(env, |log2|, second, request.toTerminate));
            log2 <= e.log && e.errs == [] && Terminates(e.log, |log2| - 2, batch) && KnowsAll(second, e.terminated)
    ensures var eligible := Eligible(world, memberIds, request, now);
            Elements(batch) <= eligible && |Elements(batch)| == Min(|eligible|, MAX_TERMINATE)
  {
    DoomedAreEligible(env, |log2|, second, world, memberIds, request, now);
    var doomed := DoomedIds(env, |log2|, second, request.toTerminate);
    CountDistinct(doomed);
    batch := CandidatesTerminate(env, log2, world, now, doomed);
    var terminated := TerminateAsg(env, log2, doomed).terminated;
    DoomedExactly(env, |log2|, second, request.toTerminate, now);
    forall id | id in terminated
      ensures Knows(second, id)
    {
      assert id in Elements(batch) && id in doomed;
    }
  }

  lemma RunFindsNone(env: Env, log: seq<Event>, world: seq<Ec2>, memberIds: seq<string>, request: ScaleResponse,
                     errors: seq<string>, now: int, first: seq<Ec2>)
    requires memberIds != [] && env.describe(|log|, memberIds) == Some(first) && Lists(first, world, memberIds)
    requires DeltaIds(first, request.hosts) == []
    ensures TerminateSurplus(env, log, memberIds, request, errors)
            == (log + [Described(memberIds, Some(first))], Done(Response([], errors)))
    ensures Eligible(world, memberIds, request, now) == {}
  {
    SurplusSteps(env, log, memberIds, request, errors, first, [], []);
    NothingEligible(first, world, memberIds, request, now);
  }

  lemma RunEnds(env: Env, log: seq<Event>, memberIds: seq<string>, request: ScaleResponse, errors: seq<string>,
                first: seq<Ec2>, delta: seq<string>, second: seq<Ec2>, log2: seq<Event>, batch: seq<string>)
    requires memberIds != [] && env.describe(|log|, memberIds) == Some(first)
    requires delta == DeltaIds(first, request.hosts) && delta != []
    requires env.describe(|log| + 1, delta) == Some(second) && !CrashesOn(second, request.toTerminate)
    requires log2 == log + [Described(memberIds, Some(first))] + [Described(delta, Some(second))]
    requires var e := TerminateAsg(env, log2, DoomedIds(env, |log2|, second, request.toTerminate));
             log2 <= e.log && e.errs == [] && Terminates(e.log, |log2| - 2, batch) && KnowsAll(second, e.terminated)
    ensures var (log', result) := TerminateSurplus(env, log, memberIds, request, errors);
            log <= log' && result.Done? && result.response.errors == errors && Terminates(log', |log|, batch)
  {
    SurplusSteps(env, log, memberIds, request, errors, first, delta, second);
    assert errors + [] == errors;
  }

  lemma RunFindsSome(env: Env, log: seq<Event>, world: seq<Ec2>, memberIds: seq<string>, request: ScaleResponse,
                     errors: seq<string>, now: int, first: seq<Ec2>, delta: seq<string>) returns (batch: seq<string>)
    requires Distinct(world) && memberIds != [] && Works(env, |log|, world, now)
    requires first == env.describe(|log|, memberIds).value && delta == DeltaIds(first, request.hosts) && delta != []
    ensures var (log', result) := TerminateSurplus(env, log, memberIds, request, errors);
            log <= log' && result.Done? && result.response.errors == errors && Terminates(log', |log|, batch)
    ensures var eligible := Eligible(world, memberIds, request, now);
            Elements(batch) <= eligible && |Elements(batch)| == Min(|eligible|, MAX_TERMINATE)
  {
    var second := env.describe(|log| + 1, delta).value;
    NoCrash(second, delta, first, world, request.hosts, request.toTerminate, memberIds);
    var log2 := log + [Described(memberIds, Some(first))] + [Described(delta, Some(second))];
    WorksLater(env, |log|, |log2|, world, now);
    batch := DoomedTerminate(env, log2, second, world, memberIds, request, now);
    RunEnds(env, log, memberIds, request, errors, first, delta, second, log2, batch);
  }

  /** One run: of the eligible instances exactly min(50, n) are terminated, no other
      instance is, and nothing fails. */
  lemma RunTerminates(env: Env, log: seq<Event>, world: seq<Ec2>, memberIds: seq<string>, request: ScaleResponse,
                      errors: seq<string>, now: int) returns (batch: seq<string>)
    requires Distinct(world) && memberIds != [] && Works(env, |log|, world, now)
    ensures var (log', result) := TerminateSurplus(env, log, memberIds, request, errors);
            log <= log' && result.Done? && result.response.errors == errors && Terminates(log', |log|, batch)
    ensures var eligible := Eligible(world, memberIds, request, now);
            Elements(batch) <= eligible && |Elements(batch)| == Min(|eligible|, MAX_TERMINATE)
  {
    var first := env.describe(|log|, memberIds).value;
    var delta := DeltaIds(first, request.hosts);
    if delta == [] {
      batch := [];
      RunFindsNone(env, log, world, memberIds, request, errors, now, first);
    } else {
      batch := RunFindsSome(env, log, world, memberIds, request, errors, now, first, delta);
    }
  }

  /** The same for a run of the whole lambda, with the world as it is after the
      unhealthy members have been seen to: position t of the log. */
  lemma HandlerTerminates(env: Env, supported: int, asgName: string, request: ScaleResponse, members: seq<AsgInstance>,
                          world: seq<Ec2>, now: int) returns (t: nat, batch: seq<string>)
    requires request.version == supported && asgName != "" && env.group(0) == Listed(members) && members != []
    requires Distinct(world)
    requires Works(env, |DetachUnhealthy(env, [ListedGroup(Listed(members))], members).0|, world, now)
    ensures var (log', result) := Handle(env, supported, asgName, request);
            && t == |DetachUnhealthy(env, [ListedGroup(Listed(members))], members).0| <= |log'|
            && result.Done? && Terminates(log', t, batch)
    ensures var eligible := Eligible(world, MemberIds(members), request, now);
            Elements(batch) <= eligible && |Elements(batch)| == Min(|eligible|, MAX_TERMINATE)
  {
    var (log1, errs) := DetachUnhealthy(env, [ListedGroup(Listed(members))], members);
    t := |log1|;
    batch := RunTerminates(env, log1, world, MemberIds(members), request, request.transientErrors + errs, now);
  }

  lemma WorksLater(env: Env, t: nat, t': nat, world: seq<Ec2>, now: int)
    requires Works(env, t, world, now) && t <= t'
    ensures Works(env, t', world, now)
  {
  }

  lemma NothingEligible(first: seq<Ec2>, world: seq<Ec2>, memberIds: seq<string>, request: ScaleResponse, now: int)
    requires Lists(first, world, memberIds) && DeltaIds(first, request.hosts) == []
    ensures Eligible(world, memberIds, request, now) == {}
  {
    forall i | i in world && i.id in memberIds
      ensures !Surplus(i, request.hosts)
    {
      DeltaExactly(first, request.hosts, i.id);
    }
  }

  /** Terminating a batch takes exactly its members out of the eligible set. */
  lemma AfterEligible(world: seq<Ec2>, ids: seq<string>, memberIds: seq<string>, request: ScaleResponse, now: int)
    requires Distinct(world)
    ensures Distinct(After(world, ids))
    ensures Eligible(After(world, ids), memberIds, request, now) == Eligible(world, memberIds, request, now) - Elements(ids)
  {
    var a, b := Eligible(After(world, ids), memberIds, request, now), Eligible(world, memberIds, request, now) - Elements(ids);
    forall id | id in a
      ensures id in b
    {
      var k :| 0 <= k < |world| && After(world, ids)[k].id == id && Doomed(After(world, ids)[k], request.toTerminate, now)
               && Surplus(After(world, ids)[k], request.hosts);
      assert After(world, ids)[k] == world[k] && world[k] in world;
    }
    forall id | id in b
      ensures id in a
    {
      var k :| 0 <= k < |world| && world[k].id == id && Doomed(world[k], request.toTerminate, now)
               && Surplus(world[k], request.hosts);
      assert After(world, ids)[k] in After(world, ids) && After(world, ids)[k] == world[k];
    }
  }

  /** One run of the lambda: its environment and input, the members it finds, and the world
      and the time once it has seen to the unhealthy ones. */
  datatype Round = Round(env: Env, supported: int, asgName: string, request: ScaleResponse,
                         members: seq<AsgInstance>, world: seq<Ec2>, now: int)

  /** The position in the log at which the surplus part begins. */
  function SurplusStart(r: Round): nat {
    |DetachUnhealthy(r.env, [ListedGroup(Listed(r.members))], r.members).0|
  }

  /** A run for a group with members in which nothing fails from then on. */
  ghost predicate GoodRound(r: Round) {
    && r.request.version == r.supported && r.asgName != "" && r.env.group(0) == Listed(r.members) && r.members != []
    && Distinct(r.world) && Works(r.env, SurplusStart(r), r.world, r.now)
  }

  ghost function Left(r: Round): set<string> { EligibleIn(r, r.world) }

  ghost function EligibleIn(r: Round, world: seq<Ec2>): set<string> {
    Eligible(world, MemberIds(r.members), r.request, r.now)
  }

  ghost function Killed(r: Round): seq<string> {
    LastTerminated(Handle(r.env, r.supported, r.asgName, r.request).0, SurplusStart(r))
  }

  /** A series of failure-free runs: whatever else happens in between, to members, hosts or
      requests, no instance becomes eligible that was not before. */
  ghost predicate Series(rounds: seq<Round>) {
    rounds == [] ||
    (&& GoodRound(rounds[0])
     && (|rounds| > 1 ==> NoNewcomers(rounds[0], rounds[1]))
     && Series(rounds[1..]))
  }

  ghost predicate NoNewcomers(r: Round, next: Round) { Left(next) <= EligibleIn(r, After(r.world, Killed(r))) }

  lemma RoundShrinks(r: Round)
    requires GoodRound(r)
    ensures var n := |Left(r)|; |EligibleIn(r, After(r.world, Killed(r)))| == n - Min(n, MAX_TERMINATE)
  {
    var t, batch := HandlerTerminates(r.env, r.supported, r.asgName, r.request, r.members, r.world, r.now);
    LastIsBatch(r, batch);
    AfterEligible(r.world, batch, MemberIds(r.members), r.request, r.now);
  }

  lemma LastIsBatch(r: Round, batch: seq<string>)
    requires GoodRound(r)
    requires var log' := Handle(r.env, r.supported, r.asgName, r.request).0;
             SurplusStart(r) <= |log'| && Terminates(log', SurplusStart(r), batch)
    ensures Killed(r) == batch
  {
  }

  lemma RoundLeaves(r: Round, next: Round)
    requires GoodRound(r) && NoNewcomers(r, next)
    ensures |Left(next)| <= |Left(r)| - Min(|Left(r)|, MAX_TERMINATE)
  {
    RoundShrinks(r);
    Subset(Left(next), EligibleIn(r, After(r.world, Killed(r))));
  }

  /** After n failure-free runs at most N - 50 n of the N eligible instances are left:
      they are all gone after N / 50 runs, rounded up. */
  lemma {:induction false} Drained(rounds: seq<Round>, n: nat)
    requires Series(rounds) && n < |rounds|
    ensures var before, after := |Left(rounds[0])|, |Left(rounds[n])|;
            after <= if before <= MAX_TERMINATE * n then 0 else before - MAX_TERMINATE * n
  {
    if n > 0 {
      RoundLeaves(rounds[0], rounds[1]);
      Drained(rounds[1..], n - 1);
      Falls(|Left(rounds[0])|, |Left(rounds[1])|, |Left(rounds[n])|, n);
    }
  }

  lemma Falls(first: nat, second: nat, last: nat, n: nat)
    requires n > 0 && second <= first - Min(first, MAX_TERMINATE)
    requires last <= if second <= MAX_TERMINATE * (n - 1) then 0 else second - MAX_TERMINATE * (n - 1)
    ensures last <= if first <= MAX_TERMINATE * n then 0 else first - MAX_TERMINATE * n
  {
  }

  lemma Subset<T>(a: set<T>, b: set<T>)
    requires a <= b
    ensures |a| <= |b|
  {
    assert b == a + (b - a);
  }
}
