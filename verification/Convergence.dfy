/** What EnsureResource guarantees on any tree and under any schedule of failures. */
module Convergence {
  import opened Bags
  import opened Reconcile

  // ---------- order of effects ----------

  function PostOrder(n: Tree, path: Path): seq<Path>
    decreases n, |n.subs| + 1
  {
    PostOrderSubs(n, 0, path) + [path]
  }

  function PostOrderSubs(n: Tree, i: nat, path: Path): seq<Path>
    requires i <= |n.subs|
    decreases n, |n.subs| - i
  {
    if i == |n.subs| then [] else PostOrder(n.subs[i], path + [i]) + PostOrderSubs(n, i + 1, path)
  }

  /** The resources fetched, in order. */
  function Visits(log: seq<Effect>): seq<Path> {
    if log == [] then []
    else
      var last := log[|log| - 1];
      Visits(log[..|log| - 1]) + (if last.Fetched? then [last.path] else [])
  }

  /** A resource is created or updated only right after it was fetched, and nothing
      happens after a failure. */
  ghost predicate Orderly(log: seq<Effect>) {
    && (forall k :: 0 <= k < |log| - 1 ==> log[k].ok)
    && (forall k :: 0 <= k < |log| && !log[k].Fetched? ==> k > 0 && log[k - 1] == Fetched(log[k].path, true))
  }

  lemma {:induction false} VisitsConcat(a: seq<Effect>, b: seq<Effect>)
    ensures Visits(a + b) == Visits(a) + Visits(b)
  {
    if b == [] {
      assert a + b == a;
    } else {
      var n := |b| - 1;
      assert (a + b)[..|a + b| - 1] == a + b[..n];
      VisitsConcat(a, b[..n]);
    }
  }

  /** The effects that a run has added to a log. */
  function Added(log: seq<Effect>, log': seq<Effect>): seq<Effect>
    requires log <= log'
  {
    log'[|log|..]
  }

  lemma OrderlyConcat(a: seq<Effect>, b: seq<Effect>)
    requires Orderly(a) && Orderly(b) && (a != [] ==> a[|a| - 1].ok)
    ensures Orderly(a + b)
  {
    var c := a + b;
    forall k | 0 <= k < |c| && !c[k].Fetched?
      ensures k > 0 && c[k - 1] == Fetched(c[k].path, true)
    {
      if k >= |a| {
        assert c[k] == b[k - |a|] && c[k - 1] == b[k - |a| - 1];
      }
    }
  }

  /** log' extends log by orderly effects that visit a prefix of want, all of it if
      the run succeeded; the run failed iff its last effect did. */
  ghost predicate Walks(log: seq<Effect>, log': seq<Effect>, ok: bool, want: seq<Path>) {
    && log <= log'
    && Orderly(Added(log, log'))
    && Visits(Added(log, log')) <= want
    && (ok ==> Visits(Added(log, log')) == want)
    && (if Added(log, log') == [] then ok else ok == log'[|log'| - 1].ok)
  }

  lemma WalksThen(log: seq<Effect>, mid: seq<Effect>, end: seq<Effect>, ok: bool, first: seq<Path>, second: seq<Path>)
    requires Walks(log, mid, true, first) && Walks(mid, end, ok, second)
    ensures Walks(log, end, ok, first + second)
  {
    var a, b := Added(log, mid), Added(mid, end);
    assert Added(log, end) == a + b;
    VisitsConcat(a, b);
    OrderlyConcat(a, b);
  }

  lemma SelfWalks(env: Env, n: Tree, path: Path, log: seq<Effect>, dryRun: bool)
    ensures var r := EnsureSelf(env, n, path, log, dryRun);
            Walks(log, r.log, r.ok, [path])
  {
    var r := EnsureSelf(env, n, path, log, dryRun);
    var added := Added(log, r.log);
    var fetch := Fetched(path, env.fetch(|log|, path));
    assert added[0] == fetch && |added| <= 2;
    assert Visits([fetch]) == [path] by {
      assert [fetch][..0] == [];
    }
    if |added| == 2 {
      assert added[..1] == [fetch];
    } else {
      assert added == [fetch];
    }
  }

  lemma {:induction false} RunWalks(env: Env, n: Tree, path: Path, log: seq<Effect>, dryRun: bool)
    ensures var r := Ensure(env, n, path, log, dryRun);
            Walks(log, r.log, r.ok, PostOrder(n, path))
    decreases n, |n.subs| + 1
  {
    SubsWalk(env, n, 0, path, log, dryRun);
    var s := EnsureSubs(env, n, 0, path, log, dryRun);
    if s.ok {
      SelfWalks(env, n.(subs := s.subs), path, s.log, dryRun);
      var r := EnsureSelf(env, n.(subs := s.subs), path, s.log, dryRun);
      WalksThen(log, s.log, r.log, r.ok, PostOrderSubs(n, 0, path), [path]);
    }
  }

  lemma {:induction false} SubsWalk(env: Env, n: Tree, i: nat, path: Path, log: seq<Effect>, dryRun: bool)
    requires i <= |n.subs|
    ensures var s := EnsureSubs(env, n, i, path, log, dryRun);
            Walks(log, s.log, s.ok, PostOrderSubs(n, i, path))
    decreases n, |n.subs| - i
  {
    if i < |n.subs| {
      RunWalks(env, n.subs[i], path + [i], log, dryRun);
      var r := Ensure(env, n.subs[i], path + [i], log, dryRun);
      if r.ok {
        SubsWalk(env, n, i + 1, path, r.log, dryRun);
        var rest := EnsureSubs(env, n, i + 1, path, r.log, dryRun);
        WalksThen(log, r.log, rest.log, rest.ok, PostOrder(n.subs[i], path + [i]), PostOrderSubs(n, i + 1, path));
      }
    } else {
      assert Added(log, log) == [];
    }
  }

  predicate Below(p: Path, q: Path) { |q| < |p| && q <= p }

  lemma {:induction false} PathsUnder(n: Tree, path: Path)
    ensures forall k :: 0 <= k < |PostOrder(n, path)| ==> path <= PostOrder(n, path)[k]
    ensures forall k :: 0 <= k < |PostOrder(n, path)| - 1 ==> PostOrder(n, path)[k] != path
    decreases n, |n.subs| + 1
  {
    SubPathsUnder(n, 0, path);
  }

  lemma {:induction false} SubPathsUnder(n: Tree, i: nat, path: Path)
    requires i <= |n.subs|
    ensures forall k :: 0 <= k < |PostOrderSubs(n, i, path)| ==>
              var p := PostOrderSubs(n, i, path)[k]; path <= p && |p| > |path| && p[|path|] >= i
    decreases n, |n.subs| - i
  {
    if i < |n.subs| {
      PathsUnder(n.subs[i], path + [i]);
      SubPathsUnder(n, i + 1, path);
      var here := PostOrder(n.subs[i], path + [i]);
      forall k | 0 <= k < |here|
        ensures path <= here[k] && |here[k]| > |path| && here[k][|path|] == i
      {
        assert path + [i] <= here[k];
      }
    }
  }

  /** In post-order no resource comes before one of its descendants. */
  lemma {:induction false} DescendantsFirst(n: Tree, path: Path, j: nat, k: nat)
    requires j < k < |PostOrder(n, path)|
    ensures !Below(PostOrder(n, path)[k], PostOrder(n, path)[j])
    ensures PostOrder(n, path)[k] != PostOrder(n, path)[j]
    decreases n, |n.subs| + 1
  {
    PathsUnder(n, path);
    if k < |PostOrderSubs(n, 0, path)| {
      SubDescendantsFirst(n, 0, path, j, k);
    }
  }

  lemma {:induction false} SubDescendantsFirst(n: Tree, i: nat, path: Path, j: nat, k: nat)
    requires i <= |n.subs| && j < k < |PostOrderSubs(n, i, path)|
    ensures !Below(PostOrderSubs(n, i, path)[k], PostOrderSubs(n, i, path)[j])
    ensures PostOrderSubs(n, i, path)[k] != PostOrderSubs(n, i, path)[j]
    decreases n, |n.subs| - i
  {
    var here := PostOrder(n.subs[i], path + [i]);
    if k < |here| {
      DescendantsFirst(n.subs[i], path + [i], j, k);
    } else if j >= |here| {
      SubDescendantsFirst(n, i + 1, path, j - |here|, k - |here|);
    } else {
      PathsUnder(n.subs[i], path + [i]);
      SubPathsUnder(n, i + 1, path);
      var p, q := here[j], PostOrderSubs(n, i, path)[k];
      assert q == PostOrderSubs(n, i + 1, path)[k - |here|];
      assert path + [i] <= p;
      assert p[|path|] == i && q[|path|] >= i + 1;
    }
  }

  /** On any tree and under any failures: resources are fetched in post-order, each
      at most once, and never after one of their ancestors; a resource is created or
      updated only right after its fetch; the first failure is the last effect, and
      the run fails iff there is one. */
  lemma EffectsInOrder(env: Env, n: Tree, dryRun: bool)
    ensures var r := Ensure(env, n, [], [], dryRun);
            && Orderly(r.log)
            && Visits(r.log) <= PostOrder(n, [])
            && (r.ok ==> Visits(r.log) == PostOrder(n, []))
            && r.log != [] && r.ok == r.log[|r.log| - 1].ok
            && (forall j, k :: 0 <= j < k < |Visits(r.log)| ==>
                  Visits(r.log)[j] != Visits(r.log)[k] && !Below(Visits(r.log)[k], Visits(r.log)[j]))
  {
    var r := Ensure(env, n, [], [], dryRun);
    RunWalks(env, n, [], [], dryRun);
    assert Added([], r.log) == r.log;
    forall j, k | 0 <= j < k < |Visits(r.log)|
      ensures Visits(r.log)[j] != Visits(r.log)[k] && !Below(Visits(r.log)[k], Visits(r.log)[j])
    {
      DescendantsFirst(n, [], j, k);
    }
  }

  // ---------- which resources may be touched ----------

  /** From position t on, only host groups and clusters are created, and nothing is updated. */
  ghost predicate Harmless(log: seq<Effect>, t: nat) {
    forall k :: t <= k < |log| ==> !log[k].Updated? && (log[k].Created? ==> !log[k].kind.Managed?)
  }

  /** Nothing that carries a version needs work in this tree. */
  ghost predicate AllUpToDate(n: Tree)
    decreases n
  {
    UpToDate(n) && forall i :: 0 <= i < |n.subs| ==> AllUpToDate(n.subs[i])
  }

  predicate UpToDate(n: Tree) { IsVirtual(n) || (n.deployed == n.target && n.target != "") }

  /** A run that may not, or need not, change anything: it changes nothing, and the
      only calls besides Fetch create host groups and clusters. */
  lemma {:induction false} Untouched(env: Env, n: Tree, path: Path, log: seq<Effect>, dryRun: bool)
    requires dryRun || AllUpToDate(n)
    ensures var r := Ensure(env, n, path, log, dryRun);
            r.tree == n && log <= r.log && Harmless(r.log, |log|)
    decreases n, |n.subs| + 1
  {
    SubsUntouched(env, n, 0, path, log, dryRun);
    assert n.subs[0..] == n.subs;
    assert n.(subs := n.subs) == n;
  }

  lemma {:induction false} SubsUntouched(env: Env, n: Tree, i: nat, path: Path, log: seq<Effect>, dryRun: bool)
    requires i <= |n.subs|
    requires dryRun || forall j :: i <= j < |n.subs| ==> AllUpToDate(n.subs[j])
    ensures var s := EnsureSubs(env, n, i, path, log, dryRun);
            s.subs == n.subs[i..] && log <= s.log && Harmless(s.log, |log|)
    decreases n, |n.subs| - i
  {
    if i < |n.subs| {
      Untouched(env, n.subs[i], path + [i], log, dryRun);
      var r := Ensure(env, n.subs[i], path + [i], log, dryRun);
      assert [n.subs[i]] + n.subs[i + 1..] == n.subs[i..];
      if r.ok {
        SubsUntouched(env, n, i + 1, path, r.log, dryRun);
      }
    }
  }

  // ---------- which call each resource gets ----------

  /** The resource at a path below n. */
  function Find(n: Tree, p: Path): Option<Tree>
    decreases |p|
  {
    if p == [] then Some(n) else if p[0] < |n.subs| then Find(n.subs[p[0]], p[1..]) else None
  }

  predicate Follows(log: seq<Effect>, k: nat, path: Path) { k + 1 < |log| && !log[k + 1].Fetched? && log[k + 1].path == path }

  /** The effect at position k is of a resource m of the tree. A resource is created if it
      is a host group or cluster, even in a dry run, or has no deployed version; it is
      updated if its version is neither empty nor the target; and if it was fetched and
      either is due then that call comes next. */
  ghost predicate Fits(m: Tree, dryRun: bool, log: seq<Effect>, k: nat)
    requires k < |log|
  {
    match log[k]
    case Created(_, kind, _) => kind == m.kind && (m.kind.Managed? ==> m.deployed == "" && !dryRun)
    case Updated(_, kind, _) => kind == m.kind && m.kind.Managed? && m.deployed !in {"", m.target} && !dryRun
    case Fetched(path, ok) =>
      ok && (!m.kind.Managed? || ((m.deployed == "" || m.deployed != m.target) && !dryRun)) ==> Follows(log, k, path)
  }

  ghost predicate FitsAt(n: Tree, path: Path, dryRun: bool, log: seq<Effect>, k: nat)
    requires k < |log|
  {
    path <= log[k].path && Find(n, log[k].path[|path|..]).Some? && Fits(Find(n, log[k].path[|path|..]).value, dryRun, log, k)
  }

  /** log consists of effects of n, at path, that fit. */
  ghost predicate AllFit(n: Tree, path: Path, dryRun: bool, log: seq<Effect>) {
    forall k :: 0 <= k < |log| ==> FitsAt(n, path, dryRun, log, k)
  }

  lemma FitConcat(n: Tree, path: Path, dryRun: bool, a: seq<Effect>, b: seq<Effect>)
    requires AllFit(n, path, dryRun, a) && AllFit(n, path, dryRun, b)
    ensures AllFit(n, path, dryRun, a + b)
  {
    forall k | 0 <= k < |a + b|
      ensures FitsAt(n, path, dryRun, a + b, k)
    {
      if k < |a| {
        assert FitsAt(n, path, dryRun, a, k);
      } else {
        assert FitsAt(n, path, dryRun, b, k - |a|);
      }
    }
  }

  lemma FitAbove(n: Tree, i: nat, path: Path, dryRun: bool, log: seq<Effect>)
    requires i < |n.subs| && AllFit(n.subs[i], path + [i], dryRun, log)
    ensures AllFit(n, path, dryRun, log)
  {
    forall k | 0 <= k < |log|
      ensures FitsAt(n, path, dryRun, log, k)
    {
      assert FitsAt(n.subs[i], path + [i], dryRun, log, k);
      var p := log[k].path[|path|..];
      assert p[0] == i && p[1..] == log[k].path[|path| + 1..];
    }
  }

  lemma SelfFits(env: Env, n: Tree, subs: seq<Tree>, path: Path, log: seq<Effect>, dryRun: bool)
    ensures var r := EnsureSelf(env, n.(subs := subs), path, log, dryRun);
            log <= r.log && AllFit(n, path, dryRun, Added(log, r.log))
  {
    assert path[|path|..] == [];
  }

  lemma {:induction false} RunFits(env: Env, n: Tree, path: Path, log: seq<Effect>, dryRun: bool)
    ensures var r := Ensure(env, n, path, log, dryRun);
            log <= r.log && AllFit(n, path, dryRun, Added(log, r.log))
    decreases n, |n.subs| + 1
  {
    SubsFit(env, n, 0, path, log, dryRun);
    var s := EnsureSubs(env, n, 0, path, log, dryRun);
    if s.ok {
      SelfFits(env, n, s.subs, path, s.log, dryRun);
      var r := Ensure(env, n, path, log, dryRun);
      FitConcat(n, path, dryRun, Added(log, s.log), Added(s.log, r.log));
      assert Added(log, r.log) == Added(log, s.log) + Added(s.log, r.log);
    }
  }

  lemma {:induction false} SubsFit(env: Env, n: Tree, i: nat, path: Path, log: seq<Effect>, dryRun: bool)
    requires i <= |n.subs|
    ensures var s := EnsureSubs(env, n, i, path, log, dryRun);
            log <= s.log && AllFit(n, path, dryRun, Added(log, s.log))
    decreases n, |n.subs| - i
  {
    if i < |n.subs| {
      RunFits(env, n.subs[i], path + [i], log, dryRun);
      var r := Ensure(env, n.subs[i], path + [i], log, dryRun);
      FitAbove(n, i, path, dryRun, Added(log, r.log));
      if r.ok {
        SubsFit(env, n, i + 1, path, r.log, dryRun);
        var s := EnsureSubs(env, n, i + 1, path, r.log, dryRun);
        FitConcat(n, path, dryRun, Added(log, r.log), Added(r.log, s.log));
        assert Added(log, s.log) == Added(log, r.log) + Added(r.log, s.log);
      }
    }
  }

  /** On any tree and under any failures, dry or not: a resource is created or updated only
      if its version asks for it, and once fetched gets the call that is due. */
  lemma CallsFit(env: Env, n: Tree, dryRun: bool)
    ensures AllFit(n, [], dryRun, Ensure(env, n, [], [], dryRun).log)
  {
    RunFits(env, n, [], [], dryRun);
    var log := Ensure(env, n, [], [], dryRun).log;
    assert Added([], log) == log;
  }

  // ---------- what a failed call leaves ----------

  /** What the cloud left of the last resource of the log when its call failed. */
  function LeftBy(env: Env, log: seq<Effect>): Option<string> {
    if log == [] then None
    else
      var t, e := |log| - 1, log[|log| - 1];
      match e
      case Fetched(_, _) => None
      case Created(path, _, _) => LeavesOf(env.create(t, path))
      case Updated(path, _, _) => LeavesOf(env.update(t, path))
  }

  function LeavesOf(reply: Reply): Option<string> { if reply.Fails? then Some(reply.leaves) else None }

  /** If the last call failed, what it left is now the version of its resource. */
  ghost predicate Shown(env: Env, n': Tree, path: Path, log: seq<Effect>) {
    LeftBy(env, log).Some? && log[|log| - 1].kind.Managed? ==>
      var p := log[|log| - 1].path;
      path <= p && Find(n', p[|path|..]).Some? && Find(n', p[|path|..]).value.deployed == LeftBy(env, log).value
  }

  lemma {:induction false} FailureShows(env: Env, n: Tree, path: Path, log: seq<Effect>, dryRun: bool)
    requires !Ensure(env, n, path, log, dryRun).ok
    ensures var r := Ensure(env, n, path, log, dryRun);
            Shown(env, r.tree, path, r.log)
    decreases n, |n.subs| + 1
  {
    var s := EnsureSubs(env, n, 0, path, log, dryRun);
    if s.ok {
      assert path[|path|..] == [];
    } else {
      SubFailureShows(env, n, 0, path, log, dryRun, []);
      assert [] + s.subs == s.subs;
    }
  }

  lemma {:induction false} SubFailureShows(env: Env, n: Tree, i: nat, path: Path, log: seq<Effect>, dryRun: bool,
                                           before: seq<Tree>)
    requires i <= |n.subs| && |before| == i && !EnsureSubs(env, n, i, path, log, dryRun).ok
    ensures var s := EnsureSubs(env, n, i, path, log, dryRun);
            Shown(env, n.(subs := before + s.subs), path, s.log)
    decreases n, |n.subs| - i
  {
    var r := Ensure(env, n.subs[i], path + [i], log, dryRun);
    var s := EnsureSubs(env, n, i, path, log, dryRun);
    if r.ok {
      SubFailureShows(env, n, i + 1, path, r.log, dryRun, before + [r.tree]);
      var rest := EnsureSubs(env, n, i + 1, path, r.log, dryRun);
      assert before + s.subs == before + [r.tree] + rest.subs;
    } else {
      FailureShows(env, n.subs[i], path + [i], log, dryRun);
      ShownAbove(env, n.(subs := before + s.subs), i, path, s.log);
    }
  }

  lemma ShownAbove(env: Env, n: Tree, i: nat, path: Path, log: seq<Effect>)
    requires i < |n.subs| && Shown(env, n.subs[i], path + [i], log)
    ensures Shown(env, n, path, log)
  {
    if LeftBy(env, log).Some? {
      var p := log[|log| - 1].path;
      if path + [i] <= p {
        assert p[|path|..][1..] == p[|path| + 1..];
      }
    }
  }

  // ---------- convergence ----------

  /** The same tree later: what was up to date has stayed as it was. */
  ghost predicate Grown(n: Tree, n': Tree)
    decreases n
  {
    && n'.kind == n.kind && n'.target == n.target && |n'.subs| == |n.subs|
    && (UpToDate(n) ==> n'.deployed == n.deployed)
    && forall i :: 0 <= i < |n.subs| ==> Grown(n.subs[i], n'.subs[i])
  }

  lemma {:induction false} GrownSelf(n: Tree)
    ensures Grown(n, n)
    decreases n
  {
    forall i | 0 <= i < |n.subs|
      ensures Grown(n.subs[i], n.subs[i])
    {
      GrownSelf(n.subs[i]);
    }
  }

  lemma {:induction false} GrownTransitive(a: Tree, b: Tree, c: Tree)
    requires Grown(a, b) && Grown(b, c)
    ensures Grown(a, c)
    decreases a
  {
    forall i | 0 <= i < |a.subs|
      ensures Grown(a.subs[i], c.subs[i])
    {
      GrownTransitive(a.subs[i], b.subs[i], c.subs[i]);
    }
  }

  /** Whatever fails, a run undoes nothing: resources up to date stay so. */
  lemma {:induction false} RunGrows(env: Env, n: Tree, path: Path, log: seq<Effect>, dryRun: bool)
    ensures Grown(n, Ensure(env, n, path, log, dryRun).tree)
    decreases n, |n.subs| + 1
  {
    SubsGrow(env, n, 0, path, log, dryRun);
    assert n.subs[0..] == n.subs;
  }

  lemma {:induction false} SubsGrow(env: Env, n: Tree, i: nat, path: Path, log: seq<Effect>, dryRun: bool)
    requires i <= |n.subs|
    ensures GrownSubs(n.subs[i..], EnsureSubs(env, n, i, path, log, dryRun).subs)
    decreases n, |n.subs| - i
  {
    if i < |n.subs| {
      RunGrows(env, n.subs[i], path + [i], log, dryRun);
      var r := Ensure(env, n.subs[i], path + [i], log, dryRun);
      var rest := n.subs[i + 1..];
      assert n.subs[i..] == [n.subs[i]] + rest;
      if r.ok {
        SubsGrow(env, n, i + 1, path, r.log, dryRun);
        GrownCons(n.subs[i], r.tree, rest, EnsureSubs(env, n, i + 1, path, r.log, dryRun).subs);
      } else {
        forall j | 0 <= j < |rest|
          ensures Grown(rest[j], rest[j])
        {
          GrownSelf(rest[j]);
        }
        GrownCons(n.subs[i], r.tree, rest, rest);
      }
    }
  }

  ghost predicate GrownSubs(subs: seq<Tree>, subs': seq<Tree>) {
    |subs'| == |subs| && forall j :: 0 <= j < |subs| ==> Grown(subs[j], subs'[j])
  }

  lemma GrownCons(n: Tree, n': Tree, subs: seq<Tree>, subs': seq<Tree>)
    requires Grown(n, n') && GrownSubs(subs, subs')
    ensures GrownSubs([n] + subs, [n'] + subs')
  {
  }

  /** Every managed resource has a non-empty target version. */
  ghost predicate Targeted(n: Tree)
    decreases n
  {
    (IsVirtual(n) || n.target != "") && forall i :: 0 <= i < |n.subs| ==> Targeted(n.subs[i])
  }

  /** A successful run leaves every resource at its target. */
  ghost predicate AllDeployed(n: Tree)
    decreases n
  {
    (IsVirtual(n) || n.deployed == n.target) && forall i :: 0 <= i < |n.subs| ==> AllDeployed(n.subs[i])
  }

  lemma {:induction false} SuccessDeploys(env: Env, n: Tree, path: Path, log: seq<Effect>)
    requires Ensure(env, n, path, log, false).ok
    ensures AllDeployed(Ensure(env, n, path, log, false).tree)
    decreases n, |n.subs| + 1
  {
    SubsDeploy(env, n, 0, path, log);
  }

  lemma {:induction false} SubsDeploy(env: Env, n: Tree, i: nat, path: Path, log: seq<Effect>)
    requires i <= |n.subs| && EnsureSubs(env, n, i, path, log, false).ok
    ensures forall t :: t in EnsureSubs(env, n, i, path, log, false).subs ==> AllDeployed(t)
    decreases n, |n.subs| - i
  {
    if i < |n.subs| {
      SuccessDeploys(env, n.subs[i], path + [i], log);
      SubsDeploy(env, n, i + 1, path, Ensure(env, n.subs[i], path + [i], log, false).log);
    }
  }

  lemma {:induction false} DeployedIsUpToDate(n: Tree)
    requires AllDeployed(n)
    ensures AllUpToDate(n) <==> Targeted(n)
    decreases n
  {
    forall i | 0 <= i < |n.subs|
      ensures AllUpToDate(n.subs[i]) <==> Targeted(n.subs[i])
    {
      DeployedIsUpToDate(n.subs[i]);
    }
  }

  /** Targets never change. */
  lemma {:induction false} GrownTargeted(n: Tree, n': Tree)
    requires Grown(n, n')
    ensures Targeted(n) <==> Targeted(n')
    decreases n
  {
    forall i | 0 <= i < |n.subs|
      ensures Targeted(n.subs[i]) <==> Targeted(n'.subs[i])
    {
      GrownTargeted(n.subs[i], n'.subs[i]);
    }
  }

  /** The tree after a series of runs, each in its own environment. */
  function Runs(envs: seq<Env>, n: Tree): Tree {
    if envs == [] then n else Ensure(envs[|envs| - 1], Runs(envs[..|envs| - 1], n), [], [], false).tree
  }

  lemma {:induction false} RetriesGrow(envs: seq<Env>, n: Tree, k: nat)
    requires k <= |envs|
    ensures Grown(Runs(envs[..k], n), Runs(envs, n))
    decreases |envs|
  {
    if k == |envs| {
      assert envs[..k] == envs;
      GrownSelf(Runs(envs, n));
    } else {
      var front := envs[..|envs| - 1];
      RetriesGrow(front, n, k);
      assert front[..k] == envs[..k];
      RunGrows(envs[|envs| - 1], Runs(front, n), [], [], false);
      GrownTransitive(Runs(envs[..k], n), Runs(front, n), Runs(envs, n));
    }
  }

  /** A run fails only if some call does. */
  ghost predicate NothingFails(env: Env) {
    forall t, p :: env.fetch(t, p) && env.create(t, p).Succeeds? && env.update(t, p).Succeeds?
  }

  lemma {:induction false} GoodRunSucceeds(env: Env, n: Tree, path: Path, log: seq<Effect>, dryRun: bool)
    requires NothingFails(env)
    ensures Ensure(env, n, path, log, dryRun).ok
    decreases n, |n.subs| + 1
  {
    GoodSubsSucceed(env, n, 0, path, log, dryRun);
  }

  lemma {:induction false} GoodSubsSucceed(env: Env, n: Tree, i: nat, path: Path, log: seq<Effect>, dryRun: bool)
    requires i <= |n.subs| && NothingFails(env)
    ensures EnsureSubs(env, n, i, path, log, dryRun).ok
    decreases n, |n.subs| - i
  {
    if i < |n.subs| {
      GoodRunSucceeds(env, n.subs[i], path + [i], log, dryRun);
      GoodSubsSucceed(env, n, i + 1, path, Ensure(env, n.subs[i], path + [i], log, dryRun).log, dryRun);
    }
  }

  lemma {:induction false} VisitIsFetch(log: seq<Effect>, p: Path)
    requires p in Visits(log)
    ensures Fetched(p, true) in log || Fetched(p, false) in log
  {
    var n := |log| - 1;
    if !(log[n].Fetched? && log[n].path == p) {
      VisitIsFetch(log[..n], p);
    }
  }

  lemma {:induction false} FindIsVisited(n: Tree, path: Path, p: Path)
    requires Find(n, p).Some?
    ensures path + p in PostOrder(n, path)
    decreases |p|
  {
    if p == [] {
      assert path + p == path;
    } else {
      FindIsVisited(n.subs[p[0]], path + [p[0]], p[1..]);
      assert path + [p[0]] + p[1..] == path + p;
      SubIsVisited(n, 0, path, p[0], path + p);
    }
  }

  lemma {:induction false} SubIsVisited(n: Tree, i: nat, path: Path, j: nat, q: Path)
    requires i <= j < |n.subs| && q in PostOrder(n.subs[j], path + [j])
    ensures q in PostOrderSubs(n, i, path)
    decreases j - i
  {
    if i < j {
      SubIsVisited(n, i + 1, path, j, q);
    }
  }

  lemma EachIsFetched(env: Env, n: Tree, p: Path, dryRun: bool) returns (k: nat)
    requires NothingFails(env) && Find(n, p).Some?
    ensures var log := Ensure(env, n, [], [], dryRun).log;
            k < |log| && log[k] == Fetched(p, true) && forall j :: 0 <= j < |log| ==> log[j].ok
  {
    var r := Ensure(env, n, [], [], dryRun);
    GoodRunSucceeds(env, n, [], [], dryRun);
    EffectsInOrder(env, n, dryRun);
    assert [] + p == p;
    FindIsVisited(n, [], p);
    VisitIsFetch(r.log, p);
    k :| 0 <= k < |r.log| && r.log[k].Fetched? && r.log[k].path == p;
    assert r.log[k].ok;
  }

  /** In a failure-free run every resource of the tree is fetched and gets exactly the call
      that its version asks for; host groups and clusters are created even in a dry run. */
  lemma EachGetsItsCall(env: Env, n: Tree, p: Path, dryRun: bool)
    requires NothingFails(env) && Find(n, p).Some?
    ensures var m, log := Find(n, p).value, Ensure(env, n, [], [], dryRun).log;
            && Fetched(p, true) in log
            && (Created(p, m.kind, true) in log <==> !m.kind.Managed? || (m.deployed == "" && !dryRun))
            && (Updated(p, m.kind, true) in log <==> m.kind.Managed? && m.deployed !in {"", m.target} && !dryRun)
  {
    var log, m := Ensure(env, n, [], [], dryRun).log, Find(n, p).value;
    var k := EachIsFetched(env, n, p, dryRun);
    CallsFit(env, n, dryRun);
    assert p[0..] == p;
    forall j | 0 <= j < |log| && log[j].path == p
      ensures Fits(m, dryRun, log, j)
    {
      assert FitsAt(n, [], dryRun, log, j);
    }
    if Follows(log, k, p) {
      assert log[k + 1].ok && Fits(m, dryRun, log, k + 1);
    }
  }

  lemma {:induction false} Extends(env: Env, n: Tree, path: Path, log: seq<Effect>)
    ensures log <= Ensure(env, n, path, log, false).log
    decreases n, |n.subs| + 1
  {
    RunWalks(env, n, path, log, false);
  }

  /** A failure-free run does work on a managed resource if any needs it. */
  lemma {:induction false} WorkIsDone(env: Env, n: Tree, path: Path, log: seq<Effect>)
    requires NothingFails(env) && !AllUpToDate(n)
    ensures !Harmless(Ensure(env, n, path, log, false).log, |log|)
    decreases n, |n.subs| + 1
  {
    GoodSubsSucceed(env, n, 0, path, log, false);
    SubsWalk(env, n, 0, path, log, false);
    SubsGrow(env, n, 0, path, log, false);
    var s := EnsureSubs(env, n, 0, path, log, false);
    var r := Ensure(env, n, path, log, false);
    if i :| 0 <= i < |n.subs| && !AllUpToDate(n.subs[i]) {
      SubWorkIsDone(env, n, 0, path, log, i);
      var k :| |log| <= k < |s.log| && (s.log[k].Updated? || (s.log[k].Created? && s.log[k].kind.Managed?));
      assert r.log[k] == s.log[k];
    } else {
      assert r.log[|r.log| - 1].Updated? || r.log[|r.log| - 1].Created?;
    }
  }

  lemma {:induction false} SubWorkIsDone(env: Env, n: Tree, i: nat, path: Path, log: seq<Effect>, j: nat)
    requires NothingFails(env) && i <= j < |n.subs| && !AllUpToDate(n.subs[j])
    ensures !Harmless(EnsureSubs(env, n, i, path, log, false).log, |log|)
    decreases n, |n.subs| - i
  {
    GoodRunSucceeds(env, n.subs[i], path + [i], log, false);
    Extends(env, n.subs[i], path + [i], log);
    var r := Ensure(env, n.subs[i], path + [i], log, false);
    SubsWalk(env, n, i + 1, path, r.log, false);
    var s := EnsureSubs(env, n, i, path, log, false);
    if i == j {
      WorkIsDone(env, n.subs[i], path + [i], log);
      var k :| |log| <= k < |r.log| && (r.log[k].Updated? || (r.log[k].Created? && r.log[k].kind.Managed?));
      assert s.log[k] == r.log[k];
    } else {
      SubWorkIsDone(env, n, i + 1, path, r.log, j);
    }
  }

  /** Crash and retry: after any number of runs that failed anywhere, a run that
      succeeds has brought every resource to its target. If every managed resource
      has a target version then, whatever the cloud answers, the next run changes
      nothing and creates or updates nothing but host groups and clusters; and if
      some has none, then even a failure-free next run works on a managed resource. */
  lemma Converges(envs: seq<Env>, last: Env, next: Env, n: Tree)
    requires Ensure(last, Runs(envs, n), [], [], false).ok
    ensures var done := Ensure(last, Runs(envs, n), [], [], false).tree;
            var again := Ensure(next, done, [], [], false);
            && AllDeployed(done)
            && (Targeted(n) ==> again.tree == done && Harmless(again.log, 0))
            && (!Targeted(n) && NothingFails(next) ==> !Harmless(again.log, 0))
  {
    var before := Runs(envs, n);
    SuccessDeploys(last, before, [], []);
    var done := Ensure(last, before, [], [], false).tree;
    DeployedIsUpToDate(done);
    RetriesGrow(envs, n, 0);
    assert envs[..0] == [];
    RunGrows(last, before, [], [], false);
    GrownTargeted(n, before);
    GrownTargeted(before, done);
    if Targeted(n) {
      Untouched(next, done, [], [], false);
    } else if NothingFails(next) {
      WorkIsDone(next, done, [], []);
    }
  }
}
