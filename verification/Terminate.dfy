/** The terminate lambda as a function of the environment: which instances it
    detaches and destroys, in which order of calls. */
module Terminate {
  import opened Bags
  import opened Cloud

  const MAX_TERMINATE := 50
  const DETACH_LIMIT := 20
  const HALF_HOUR := 1800

  /** A host that the scale-down step has chosen for removal. */
  datatype HgInstance = HgInstance(id: string, ip: string)

  datatype ScaleResponse = ScaleResponse(version: int, hosts: seq<string>, toTerminate: seq<HgInstance>,
                                         transientErrors: seq<string>)

  datatype Response = Response(instances: seq<(string, int)>, errors: seq<string>)

  /** Crashed is a nil dereference, or an index past the end of an empty answer. */
  datatype Result = Done(response: Response) | Failed(response: Response, err: string) | Crashed

  function Min(a: nat, b: nat): nat { if a < b then a else b }

  // ---------- calls ----------

  function Describe(env: Env, log: seq<Event>, ids: seq<string>): (seq<Event>, Option<seq<Ec2>>) {
    if ids == [] then (log, None)
    else (log + [Described(ids, env.describe(|log|, ids))], env.describe(|log|, ids))
  }

  datatype Ending = Ending(log: seq<Event>, terminated: seq<string>, errs: seq<string>)

  /** Protection off, scale-in protection off, terminate: for the first 50 ids. When
      scale-in protection cannot be removed the call is still made, for no ids. */
  function TerminateAsg(env: Env, log: seq<Event>, ids: seq<string>): Ending {
    if ids == [] then Ending(log, [], [])
    else
      var batch := ids[..Min(|ids|, MAX_TERMINATE)];
      var (updated, errs) := env.unlock(|log|, batch);
      var log1 := log + [Unlocked(batch, updated, errs)];
      var ok := env.unprotect(|log1|, updated);
      var log2 := log1 + [Unprotected(updated, ok)];
      var targets := if ok then updated else [];
      var errs2 := if ok then errs else errs + ["SetInstanceProtection"];
      var reply := env.terminate(|log2|, targets);
      var log3 := log2 + [TerminateCalled(targets, reply)];
      match reply
      case None => Ending(log3, [], errs2 + ["TerminateInstances"])
      case Some(terminated) => Ending(log3, terminated, errs2)
  }

  /** Detaching in batches of 20, stopping at the first that fails. */
  function DetachFrom(env: Env, log: seq<Event>, ids: seq<string>): (seq<Event>, bool)
    decreases |ids|
  {
    if ids == [] then (log, true)
    else
      var batch := ids[..Min(|ids|, DETACH_LIMIT)];
      var ok := env.detach(|log|, batch);
      var log' := log + [Detached(batch, ok)];
      if ok then DetachFrom(env, log', ids[|batch|..]) else (log', false)
  }

  // ---------- unhealthy members ----------

  datatype Triage = Triage(log: seq<Event>, toDetach: seq<string>, toTerminate: seq<string>, errs: seq<string>)

  function Discard(t: Triage, a: AsgInstance): Triage {
    if a.lifecycle.Standby? || a.lifecycle.InService? then t.(toDetach := t.toDetach + [a.id]) else t
  }

  function TriageOne(env: Env, t: Triage, a: AsgInstance): Triage {
    if !a.unhealthy then t
    else if !a.protectedFromScaleIn then Discard(t, a)
    else
      var (log, found) := Describe(env, t.log, [a.id]);
      var t' := t.(log := log);
      match found
      case None => t'.(errs := t'.errs + ["DescribeInstances"])
      case Some(instances) =>
        if instances == [] then Discard(t', a)
        else if instances[0].state.Stopped? then t'.(toTerminate := t'.toTerminate + [instances[0].id])
        else if instances[0].state.Terminated? then Discard(t', a)
        else t'
  }

  function TriageAll(env: Env, log: seq<Event>, members: seq<AsgInstance>): Triage {
    if members == [] then Triage(log, [], [], [])
    else TriageOne(env, TriageAll(env, log, members[..|members| - 1]), members[|members| - 1])
  }

  /** Errors are reported only if there was something to detach. */
  function DetachUnhealthy(env: Env, log: seq<Event>, members: seq<AsgInstance>): (seq<Event>, seq<string>) {
    var t := TriageAll(env, log, members);
    var e := TerminateAsg(env, t.log, t.toTerminate);
    var toDetach := t.toDetach + e.terminated;
    if toDetach == [] then (e.log, [])
    else
      var (log', ok) := DetachFrom(env, e.log, toDetach);
      (log', t.errs + e.errs + (if ok then [] else ["DetachInstances"]))
  }

  // ---------- surplus members ----------

  predicate Surplus(i: Ec2, hosts: seq<string>) { i.ip.Some? && i.ip.value !in hosts }

  function DeltaIds(instances: seq<Ec2>, hosts: seq<string>): seq<string> {
    if instances == [] then []
    else
      var last := instances[|instances| - 1];
      DeltaIds(instances[..|instances| - 1], hosts) + (if Surplus(last, hosts) then [last.id] else [])
  }

  predicate Explicit(i: Ec2, toTerminate: seq<HgInstance>) {
    i.ip.Some? && HgInstance(i.id, i.ip.value) in toTerminate
  }

  predicate Doomed(i: Ec2, toTerminate: seq<HgInstance>, now: int) {
    && (Explicit(i, toTerminate) || now - i.launch >= HALF_HOUR)
    && !i.state.ShuttingDown? && !i.state.Terminated?
  }

  /** The candidates to terminate; the clock is read anew for each instance. */
  function DoomedIds(env: Env, t: nat, instances: seq<Ec2>, toTerminate: seq<HgInstance>): seq<string> {
    if instances == [] then []
    else
      var n := |instances| - 1;
      DoomedIds(env, t, instances[..n], toTerminate)
      + (if Doomed(instances[n], toTerminate, env.now(t, n)) then [instances[n].id] else [])
  }

  /** Matching against the explicit list dereferences the private address. */
  predicate CrashesOn(instances: seq<Ec2>, toTerminate: seq<HgInstance>) {
    toTerminate != [] && exists i :: i in instances && i.ip.None?
  }

  /** The launch time that the response reports for an id: that of its last description. */
  function LaunchOf(instances: seq<Ec2>, id: string): int {
    if instances == [] then 0
    else if instances[|instances| - 1].id == id then instances[|instances| - 1].launch
    else LaunchOf(instances[..|instances| - 1], id)
  }

  function Report(instances: seq<Ec2>, terminated: seq<string>): seq<(string, int)> {
    if terminated == [] then []
    else
      var id := terminated[|terminated| - 1];
      Report(instances, terminated[..|terminated| - 1]) + [(id, LaunchOf(instances, id))]
  }

  predicate Knows(instances: seq<Ec2>, id: string) { exists i :: i in instances && i.id == id }

  predicate KnowsAll(instances: seq<Ec2>, ids: seq<string>) { forall id :: id in ids ==> Knows(instances, id) }

  function TerminateSurplus(env: Env, log: seq<Event>, memberIds: seq<string>, request: ScaleResponse,
                            errors: seq<string>): (seq<Event>, Result)
  {
    var (log1, described) := Describe(env, log, memberIds);
    if described.None? then (log1, Failed(Response([], errors), "DescribeInstances"))
    else
      var delta := DeltaIds(described.value, request.hosts);
      if delta == [] then (log1, Done(Response([], errors)))
      else
        var (log2, candidates) := Describe(env, log1, delta);
        if candidates.None? then (log2, Failed(Response([], errors), "DescribeInstances"))
        else if CrashesOn(candidates.value, request.toTerminate) then (log2, Crashed)
        else
          var e := TerminateAsg(env, log2, DoomedIds(env, |log2|, candidates.value, request.toTerminate));
          if !KnowsAll(candidates.value, e.terminated) then (e.log, Crashed)
          else (e.log, Done(Response(Report(candidates.value, e.terminated), errors + e.errs)))
  }

  function MemberIds(members: seq<AsgInstance>): seq<string> {
    seq(|members|, i requires 0 <= i < |members| => members[i].id)
  }

  function Handle(env: Env, supported: int, asgName: string, request: ScaleResponse): (seq<Event>, Result) {
    if request.version != supported then ([], Failed(Response([], []), "incompatible scale response version"))
    else if asgName == "" then ([], Failed(Response([], []), "ASG_NAME env var is mandatory"))
    else
      var log := [ListedGroup(env.group(0))];
      match env.group(0)
      case GroupFailed => (log, Failed(Response([], request.transientErrors), "DescribeAutoScalingGroups"))
      case NoSuchGroup => (log, Crashed)
      case Listed(members) =>
        var (log1, errs) := DetachUnhealthy(env, log, members);
        TerminateSurplus(env, log1, MemberIds(members), request, request.transientErrors + errs)
  }
}
