/** The cloud as the lambdas see it: every API call may answer anything, and is
    recorded in a log. An environment fixes the answers by the length of the log
    at the time of the call, so it can change its mind between any two calls. */
module Cloud {
  import opened Bags

  datatype Lifecycle = InService | Standby | OtherLifecycle
  datatype AsgInstance = AsgInstance(id: string, unhealthy: bool, protectedFromScaleIn: bool, lifecycle: Lifecycle)

  datatype InstanceState = Pending | Running | ShuttingDown | Terminated | Stopping | Stopped
  datatype Ec2 = Ec2(id: string, ip: Option<string>, state: InstanceState, launch: int)

  /** A group that does not exist is an empty answer, not an error. */
  datatype GroupReply = Listed(members: seq<AsgInstance>) | NoSuchGroup | GroupFailed

  /** Unlocked is the fan-out that switches off termination protection. */
  datatype Event =
    | ListedGroup(reply: GroupReply)
    | Described(ids: seq<string>, instances: Option<seq<Ec2>>)
    | Unlocked(ids: seq<string>, updated: seq<string>, errs: seq<string>)
    | Unprotected(ids: seq<string>, ok: bool)
    | TerminateCalled(ids: seq<string>, terminating: Option<seq<string>>)
    | Detached(ids: seq<string>, ok: bool)

  /** unlock is the fan-out as a whole, unlocks tells which of its calls succeed. */
  datatype Env = Env(
    group: nat -> GroupReply,
    describe: (nat, seq<string>) -> Option<seq<Ec2>>,
    unlock: (nat, seq<string>) -> (seq<string>, seq<string>),
    unlocks: (nat, string) -> bool,
    unprotect: (nat, seq<string>) -> bool,
    terminate: (nat, seq<string>) -> Option<seq<string>>,
    detach: (nat, seq<string>) -> bool,
    now: (nat, nat) -> int)

  /** For how many of the ids the call that switches termination protection off fails. */
  function LockedStill(env: Env, t: nat, ids: seq<string>): nat {
    if ids == [] then 0
    else LockedStill(env, t, ids[..|ids| - 1]) + (if env.unlocks(t, ids[|ids| - 1]) then 0 else 1)
  }

  lemma {:induction false} NoneLockedStill(env: Env, t: nat, ids: seq<string>)
    ensures LockedStill(env, t, ids) == 0 <==> forall id :: id in ids ==> env.unlocks(t, id)
  {
    if ids != [] {
      var n := |ids| - 1;
      NoneLockedStill(env, t, ids[..n]);
      assert ids == ids[..n] + [ids[n]];
    }
  }

  /** What the services promise: they speak only of the instances asked about, and the
      fan-out lists each id once, with one error for each call that failed
      (FanOut.AllUpdated). */
  ghost predicate Honest(env: Env) {
    && (forall t, ids, i :: env.describe(t, ids).Some? && i in env.describe(t, ids).value ==> i.id in ids)
    && (forall t, ids, id :: env.terminate(t, ids).Some? && id in env.terminate(t, ids).value ==> id in ids)
    && (forall t, ids :: multiset(env.unlock(t, ids).0) == multiset(ids))
    && (forall t, ids :: |env.unlock(t, ids).1| == LockedStill(env, t, ids))
  }
}
