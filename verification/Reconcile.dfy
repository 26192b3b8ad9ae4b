/** EnsureResource: post-order reconciliation of a resource tree with the cloud. */
module Reconcile {

  datatype Kind = HostGroup | AwsCluster | Managed

  type Path = seq<nat>

  /** deployed is the version that the next Fetch of a managed resource will find,
      the empty string if there is none. */
  datatype Tree = Node(kind: Kind, target: string, deployed: string, subs: seq<Tree>)

  datatype Effect = Fetched(path: Path, ok: bool) | Created(path: Path, kind: Kind, ok: bool) | Updated(path: Path, kind: Kind, ok: bool)

  /** A Create or Update succeeds and leaves the target version, or fails and may
      leave any version behind. */
  datatype Reply = Succeeds | Fails(leaves: string)

  /** The answers of the cloud, by the length of the log at the time of the call. */
  datatype Env = Env(fetch: (nat, Path) -> bool, create: (nat, Path) -> Reply, update: (nat, Path) -> Reply)

  /** Host groups and clusters have nothing in the cloud that carries a version. */
  predicate IsVirtual(n: Tree) { !n.kind.Managed? }

  function DeployedVersion(n: Tree): string { if IsVirtual(n) then "" else n.deployed }

  datatype Run = Run(tree: Tree, log: seq<Effect>, ok: bool)
  datatype SubsRun = SubsRun(subs: seq<Tree>, log: seq<Effect>, ok: bool)

  function Apply(n: Tree, reply: Reply): Tree {
    if IsVirtual(n) then n
    else n.(deployed := if reply.Succeeds? then n.target else reply.leaves)
  }

  /** The resource itself, after its sub-resources. */
  function EnsureSelf(env: Env, n: Tree, path: Path, log: seq<Effect>, dryRun: bool): Run {
    var fetched := env.fetch(|log|, path);
    var log1 := log + [Fetched(path, fetched)];
    if !fetched then Run(n, log1, false)
    else if DeployedVersion(n) == "" then
      if dryRun && !IsVirtual(n) then Run(n, log1, true)
      else
        var reply := env.create(|log1|, path);
        Run(Apply(n, reply), log1 + [Created(path, n.kind, reply.Succeeds?)], reply.Succeeds?)
    else if DeployedVersion(n) != n.target then
      if dryRun then Run(n, log1, true)
      else
        var reply := env.update(|log1|, path);
        Run(Apply(n, reply), log1 + [Updated(path, n.kind, reply.Succeeds?)], reply.Succeeds?)
    else Run(n, log1, true)
  }

  function Ensure(env: Env, n: Tree, path: Path, log: seq<Effect>, dryRun: bool): Run
    decreases n, |n.subs| + 1
  {
    var s := EnsureSubs(env, n, 0, path, log, dryRun);
    if !s.ok then Run(n.(subs := s.subs), s.log, false)
    else EnsureSelf(env, n.(subs := s.subs), path, s.log, dryRun)
  }

  /** The sub-resources of n from the i-th on. */
  function EnsureSubs(env: Env, n: Tree, i: nat, path: Path, log: seq<Effect>, dryRun: bool): SubsRun
    requires i <= |n.subs|
    decreases n, |n.subs| - i
  {
    if i == |n.subs| then SubsRun([], log, true)
    else
      var r := Ensure(env, n.subs[i], path + [i], log, dryRun);
      if !r.ok then SubsRun([r.tree] + n.subs[i + 1..], r.log, false)
      else
        var rest := EnsureSubs(env, n, i + 1, path, r.log, dryRun);
        SubsRun([r.tree] + rest.subs, rest.log, rest.ok)
  }

  /** The loop over sub-resources with its early exit, on a session that records
      every call. */
  class Session {
    const env: Env
    var log: seq<Effect>

    constructor (env: Env)
      ensures this.env == env && log == []
    {
      this.env, log := env, [];
    }

    /** Fetch, then Create or Update as the two versions demand. */
    method EnsureFetched(n: Tree, path: Path, dryRun: bool) returns (n': Tree, ok: bool)
      modifies this
      ensures Run(n', log, ok) == EnsureSelf(env, n, path, old(log), dryRun)
    {
      ok := env.fetch(|log|, path);
      log := log + [Fetched(path, ok)];
      n' := n;
      if !ok {
        return;
      }
      if DeployedVersion(n) == "" {
        if dryRun && !IsVirtual(n) {
          return;
        }
        var reply := env.create(|log|, path);
        ok := reply.Succeeds?;
        log := log + [Created(path, n.kind, ok)];
        n' := Apply(n, reply);
      } else if DeployedVersion(n) != n.target {
        if dryRun {
          return;
        }
        var reply := env.update(|log|, path);
        ok := reply.Succeeds?;
        log := log + [Updated(path, n.kind, ok)];
        n' := Apply(n, reply);
      }
    }

    method EnsureResource(n: Tree, path: Path, dryRun: bool) returns (n': Tree, ok: bool)
      modifies this
      ensures Run(n', log, ok) == Ensure(env, n, path, old(log), dryRun)
      decreases n
    {
      var subs: seq<Tree> := [];
      var i := 0;
      while i < |n.subs|
        invariant 0 <= i <= |n.subs|
        invariant EnsureSubs(env, n, 0, path, old(log), dryRun) == After(subs, EnsureSubs(env, n, i, path, log, dryRun))
      {
        ghost var before := log;
        var sub, subOk := EnsureResource(n.subs[i], path + [i], dryRun);
        AfterStep(env, n, i, path, before, dryRun, subs);
        subs := subs + [sub];
        if !subOk {
          return n.(subs := subs + n.subs[i + 1..]), false;
        }
        i := i + 1;
      }
      assert subs + [] == subs;
      n', ok := EnsureFetched(n.(subs := subs), path, dryRun);
    }
  }

  /** The outcome for all sub-resources, given the first ones and that of the rest. */
  function After(subs: seq<Tree>, rest: SubsRun): SubsRun { SubsRun(subs + rest.subs, rest.log, rest.ok) }

  lemma AfterStep(env: Env, n: Tree, i: nat, path: Path, log: seq<Effect>, dryRun: bool, subs: seq<Tree>)
    requires i < |n.subs|
    ensures var r := Ensure(env, n.subs[i], path + [i], log, dryRun);
            After(subs, EnsureSubs(env, n, i, path, log, dryRun)) ==
            if r.ok then After(subs + [r.tree], EnsureSubs(env, n, i + 1, path, r.log, dryRun))
            else SubsRun(subs + [r.tree] + n.subs[i + 1..], r.log, false)
  {
    var r := Ensure(env, n.subs[i], path + [i], log, dryRun);
    assert subs + ([r.tree] + n.subs[i + 1..]) == subs + [r.tree] + n.subs[i + 1..];
    if r.ok {
      var rest := EnsureSubs(env, n, i + 1, path, r.log, dryRun);
      assert subs + ([r.tree] + rest.subs) == subs + [r.tree] + rest.subs;
    }
  }
}
