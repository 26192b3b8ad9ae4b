/** The terminate lambda as it runs: loops over instances, calls in order, each
    recorded by the session. Every method does exactly what Terminate says. */
module TerminateLambda {
  import opened Bags
  import opened Cloud
  import opened Terminate

  class Session {
    const env: Env
    var log: seq<Event>

    constructor (env: Env)
      ensures this.env == env && log == []
    {
      this.env, log := env, [];
    }

    method GetInstances(ids: seq<string>) returns (instances: Option<seq<Ec2>>)
      modifies this
      ensures (log, instances) == Describe(env, old(log), ids)
    {
      if ids == [] {
        return None;
      }
      instances := env.describe(|log|, ids);
      log := log + [Described(ids, instances)];
    }

    method TerminateAsgInstances(ids: seq<string>) returns (terminated: seq<string>, errs: seq<string>)
      modifies this
      ensures Ending(log, terminated, errs) == TerminateAsg(env, old(log), ids)
    {
      if ids == [] {
        return [], [];
      }
      var batch := ids[..Min(|ids|, MAX_TERMINATE)];
      var unlocked := env.unlock(|log|, batch);
      var toTerminate := unlocked.0;
      errs := unlocked.1;
      log := log + [Unlocked(batch, toTerminate, errs)];
      var ok := env.unprotect(|log|, toTerminate);
      log := log + [Unprotected(toTerminate, ok)];
      if !ok {
        toTerminate := [];
        errs := errs + ["SetInstanceProtection"];
      }
      var reply := env.terminate(|log|, toTerminate);
      log := log + [TerminateCalled(toTerminate, reply)];
      if reply.None? {
        return [], errs + ["TerminateInstances"];
      }
      terminated := reply.value;
    }

    method DetachInstances(ids: seq<string>) returns (ok: bool)
      modifies this
      ensures (log, ok) == DetachFrom(env, old(log), ids)
    {
      var i := 0;
      while i < |ids|
        invariant 0 <= i
        invariant DetachFrom(env, old(log), ids) == if i < |ids| then DetachFrom(env, log, ids[i..]) else (log, true)
      {
        var batch := ids[i..Min(i + DETACH_LIMIT, |ids|)];
        assert batch == ids[i..][..Min(|ids[i..]|, DETACH_LIMIT)];
        ok := env.detach(|log|, batch);
        log := log + [Detached(batch, ok)];
        if !ok {
          return false;
        }
        assert ids[i..][|batch|..] == ids[i + |batch|..];
        i := i + DETACH_LIMIT;
      }
      return true;
    }

    method DetachUnhealthyInstances(members: seq<AsgInstance>) returns (errs: seq<string>)
      modifies this
      ensures (log, errs) == DetachUnhealthy(env, old(log), members)
    {
      var toDetach, toTerminate := [], [];
      errs := [];
      var i := 0;
      while i < |members|
        invariant 0 <= i <= |members|
        invariant Triage(log, toDetach, toTerminate, errs) == TriageAll(env, old(log), members[..i])
      {
        assert members[..i + 1][..i] == members[..i];
        var a := members[i];
        i := i + 1;
        if a.unhealthy {
          var toDelete := !a.protectedFromScaleIn;
          if !toDelete {
            var found := GetInstances([a.id]);
            if found.None? {
              errs := errs + ["DescribeInstances"];
              continue;
            }
            if found.value == [] {
              toDelete := true;
            } else {
              var inst := found.value[0];
              if inst.state.Stopped? {
                toTerminate := toTerminate + [inst.id];
              }
              if inst.state.Terminated? {
                toDelete := true;
              }
            }
          }
          if toDelete && (a.lifecycle.Standby? || a.lifecycle.InService?) {
            toDetach := toDetach + [a.id];
          }
        }
      }
      assert members[..|members|] == members;
      var terminated, terminateErrs := TerminateAsgInstances(toTerminate);
      errs := errs + terminateErrs;
      toDetach := toDetach + terminated;
      if toDetach == [] {
        return [];
      }
      var ok := DetachInstances(toDetach);
      errs := errs + (if ok then [] else ["DetachInstances"]);
    }

    method GetDeltaInstancesIds(memberIds: seq<string>, hosts: seq<string>) returns (delta: Option<seq<string>>)
      modifies this
      ensures log == Describe(env, old(log), memberIds).0
      ensures var described := Describe(env, old(log), memberIds).1;
              delta == if described.Some? then Some(DeltaIds(described.value, hosts)) else None
    {
      var described := GetInstances(memberIds);
      if described.None? {
        return None;
      }
      var instances, ids := described.value, [];
      var i := 0;
      while i < |instances|
        invariant 0 <= i <= |instances|
        invariant ids == DeltaIds(instances[..i], hosts)
      {
        assert instances[..i + 1][..i] == instances[..i];
        if instances[i].ip.Some? && instances[i].ip.value !in hosts {
          ids := ids + [instances[i].id];
        }
        i := i + 1;
      }
      assert instances[..|instances|] == instances;
      return Some(ids);
    }

    /** Which candidates to terminate; None stands for the nil dereference. */
    method ChooseInstances(instances: seq<Ec2>, toRemove: seq<HgInstance>) returns (ids: Option<seq<string>>)
      ensures ids == if CrashesOn(instances, toRemove) then None else Some(DoomedIds(env, |log|, instances, toRemove))
    {
      var chosen := [];
      var i := 0;
      while i < |instances|
        invariant 0 <= i <= |instances|
        invariant chosen == DoomedIds(env, |log|, instances[..i], toRemove)
        invariant toRemove != [] ==> forall k :: 0 <= k < i ==> instances[k].ip.Some?
      {
        assert instances[..i + 1][..i] == instances[..i];
        var inst := instances[i];
        if toRemove != [] && inst.ip.None? {
          assert inst in instances;
          return None;
        }
        var explicitly := inst.ip.Some? && HgInstance(inst.id, inst.ip.value) in toRemove;
        if explicitly || env.now(|log|, i) - inst.launch >= HALF_HOUR {
          if !inst.state.ShuttingDown? && !inst.state.Terminated? {
            chosen := chosen + [inst.id];
          }
        }
        i := i + 1;
      }
      assert instances[..|instances|] == instances;
      return Some(chosen);
    }

    method Handler(supported: int, asgName: string, request: ScaleResponse) returns (result: Result)
      requires log == []
      modifies this
      ensures (log, result) == Handle(env, supported, asgName, request)
    {
      if request.version != supported {
        return Failed(Response([], []), "incompatible scale response version");
      }
      if asgName == "" {
        return Failed(Response([], []), "ASG_NAME env var is mandatory");
      }
      var reply := env.group(0);
      log := log + [ListedGroup(reply)];
      assert log == [ListedGroup(reply)];
      var errors := request.transientErrors;
      if reply.GroupFailed? {
        return Failed(Response([], errors), "DescribeAutoScalingGroups");
      }
      if reply.NoSuchGroup? {
        return Crashed;
      }
      var members := reply.members;
      var errs := DetachUnhealthyInstances(members);
      errors := errors + errs;
      var delta := GetDeltaInstancesIds(MemberIds(members), request.hosts);
      if delta.None? {
        return Failed(Response([], errors), "DescribeInstances");
      }
      if delta.value == [] {
        return Done(Response([], errors));
      }
      var candidates := GetInstances(delta.value);
      if candidates.None? {
        return Failed(Response([], errors), "DescribeInstances");
      }
      var chosen := ChooseInstances(candidates.value, request.toTerminate);
      if chosen.None? {
        return Crashed;
      }
      var terminated, terminateErrs := TerminateAsgInstances(chosen.value);
      if !KnowsAll(candidates.value, terminated) {
        return Crashed;
      }
      return Done(Response(Report(candidates.value, terminated), errors + terminateErrs));
    }
  }
}
