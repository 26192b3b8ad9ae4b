/** Attaching instances to an autoscaling group: only those missing, in batches,
    with a stop at the first failure and a rerun that takes up where it stopped. */
module Batching {
  const LIMIT := 20

  /** How a call to attach a batch ends; one that fails may have attached some of it. */
  datatype Reply = Attached | Refused(partly: set<string>)

  /** A group that does not exist is an empty answer, which the listing indexes. */
  datatype Listing = Listed | NoSuchGroup | ListFailed

  /** list: how the listing of the group ends, attach: the reply for a batch; both by the
      number of batches sent before. */
  datatype Env = Env(list: nat -> Listing, attach: (nat, seq<string>) -> Reply)

  datatype Outcome = Done | Failed | Crashed

  /** members is the group, sent the batches sent, joined the ids that a call attached,
      in order. */
  datatype World = World(members: seq<string>, sent: seq<seq<string>>, joined: seq<string>)

  function Min(a: nat, b: nat): nat { if a < b then a else b }

  /** The ids that are not among the members, in order. */
  function Delta(members: seq<string>, ids: seq<string>): seq<string> {
    if ids == [] then []
    else
      var last := ids[|ids| - 1];
      Delta(members, ids[..|ids| - 1]) + (if last in members then [] else [last])
  }

  lemma {:induction false} DeltaMeans(members: seq<string>, ids: seq<string>, id: string)
    ensures id in Delta(members, ids) <==> id in ids && id !in members
  {
    if ids != [] {
      var n := |ids| - 1;
      DeltaMeans(members, ids[..n], id);
      assert ids == ids[..n] + [ids[n]];
    }
  }

  function Gained(r: Reply, batch: seq<string>): seq<string> {
    match r
    case Attached => batch
    case Refused(partly) => Within(batch, partly)
  }

  function Within(batch: seq<string>, some: set<string>): seq<string> {
    if batch == [] then []
    else (if batch[0] in some then [batch[0]] else []) + Within(batch[1..], some)
  }

  function Send(env: Env, w: World, batch: seq<string>): (World, bool) {
    var r := env.attach(|w.sent|, batch);
    var gained := Gained(r, batch);
    (World(w.members + gained, w.sent + [batch], w.joined + gained), r.Attached?)
  }

  function AttachFrom(env: Env, w: World, ids: seq<string>): (World, bool)
    decreases |ids|
  {
    if ids == [] then (w, true)
    else
      var n := Min(LIMIT, |ids|);
      var (w', ok) := Send(env, w, ids[..n]);
      if ok then AttachFrom(env, w', ids[n..]) else (w', false)
  }

  function Attach(env: Env, w: World, ids: seq<string>): (World, Outcome) {
    match env.list(|w.sent|)
    case ListFailed => (w, Failed)
    case NoSuchGroup => (w, Crashed)
    case Listed =>
      var (w', ok) := AttachFrom(env, w, Delta(w.members, ids));
      (w', if ok then Done else Failed)
  }

  // ---------- the calls as they are made ----------

  method GetDeltaInstancesIds(ids1: seq<string>, ids2: seq<string>) returns (delta: seq<string>)
    ensures delta == Delta(ids1, ids2)
  {
    var known: set<string> := {};
    for i := 0 to |ids1|
      invariant forall id :: id in known <==> id in ids1[..i]
    {
      known := known + {ids1[i]};
    }
    delta := [];
    for i := 0 to |ids2|
      invariant delta == Delta(ids1, ids2[..i])
    {
      assert ids2[..i + 1][..i] == ids2[..i];
      if ids2[i] !in known {
        delta := delta + [ids2[i]];
      }
    }
    assert ids2[..|ids2|] == ids2;
  }

  class Group {
    const env: Env
    var world: World

    constructor (env: Env, members: seq<string>)
      ensures this.env == env && world == World(members, [], [])
    {
      this.env, world := env, World(members, [], []);
    }

    method AttachInstances(ids: seq<string>) returns (outcome: Outcome)
      modifies this
      ensures (world, outcome) == Attach(env, old(world), ids)
    {
      var listing := env.list(|world.sent|);
      if listing.ListFailed? {
        return Failed;
      }
      if listing.NoSuchGroup? {
        return Crashed;
      }
      var delta := GetDeltaInstancesIds(world.members, ids);
      var i := 0;
      while i < |delta|
        invariant 0 <= i
        invariant AttachFrom(env, world, if i < |delta| then delta[i..] else [])
               == AttachFrom(env, old(world), delta)
      {
        var batch := delta[i..Min(i + LIMIT, |delta|)];
        assert batch == delta[i..][..Min(LIMIT, |delta| - i)];
        var (w, sent) := Send(env, world, batch);
        world := w;
        if !sent {
          return Failed;
        }
        if i + LIMIT < |delta| {
          assert delta[i..][LIMIT..] == delta[i + LIMIT..];
        }
        i := i + LIMIT;
      }
      return Done;
    }
  }

  // ---------- one run ----------

  function Flatten(batches: seq<seq<string>>): seq<string> {
    if batches == [] then [] else batches[0] + Flatten(batches[1..])
  }

  /** Batches of 20, the last of 1 to 20. */
  predicate Sized(batches: seq<seq<string>>) {
    forall k :: 0 <= k < |batches| ==> 0 < |batches[k]| <= 20 && (k < |batches| - 1 ==> |batches[k]| == 20)
  }

  /** The batches are of legal size and hold the first ids, all of them if done. */
  predicate Covers(batches: seq<seq<string>>, ids: seq<string>, done: bool) {
    Sized(batches) && Flatten(batches) <= ids && (done ==> Flatten(batches) == ids)
  }

  lemma CoversMore(n: nat, more: seq<seq<string>>, ids: seq<string>, done: bool)
    requires 0 < n <= |ids| && (n == LIMIT || (n < LIMIT && n == |ids|)) && Covers(more, ids[n..], done)
    ensures Covers([ids[..n]] + more, ids, done)
  {
    assert n == |ids| ==> more == [];
    var batches := [ids[..n]] + more;
    assert batches[1..] == more;
    assert ids == ids[..n] + ids[n..];
  }

  lemma SentThen(sent: seq<seq<string>>, batch: seq<string>, more: seq<seq<string>>)
    ensures sent + [batch] + more == sent + ([batch] + more)
  {
  }

  /** The batches sent are never empty and never too long; together they are the first
      ids of the list, and all of them if the run succeeds. */
  lemma {:induction false} BatchesCover(env: Env, w: World, ids: seq<string>) returns (batches: seq<seq<string>>)
    ensures var (w', ok) := AttachFrom(env, w, ids);
            w'.sent == w.sent + batches && Covers(batches, ids, ok)
    decreases |ids|
  {
    if ids == [] {
      batches := [];
    } else {
      var n := Min(LIMIT, |ids|);
      var (w1, ok1) := Send(env, w, ids[..n]);
      var more := [];
      if ok1 {
        more := BatchesCover(env, w1, ids[n..]);
      }
      CoversMore(n, more, ids, AttachFrom(env, w, ids).1);
      SentThen(w.sent, ids[..n], more);
      batches := [ids[..n]] + more;
    }
  }

  /** The batches are answered in order, and the run succeeds iff every call does. */
  lemma {:induction false} AllAttached(env: Env, w: World, ids: seq<string>)
    ensures var (w', ok) := AttachFrom(env, w, ids);
            && w.sent <= w'.sent
            && (ok <==> forall k :: |w.sent| <= k < |w'.sent| ==> env.attach(k, w'.sent[k]).Attached?)
    decreases |ids|
  {
    if ids != [] {
      var n := Min(LIMIT, |ids|);
      var (w1, ok1) := Send(env, w, ids[..n]);
      var w' := AttachFrom(env, w, ids).0;
      assert w1.sent[|w.sent|] == ids[..n];
      if ok1 {
        AllAttached(env, w1, ids[n..]);
        assert w'.sent[|w.sent|] == w1.sent[|w.sent|];
      }
    }
  }

  /** How a run ends: it crashes iff the group does not exist, and fails iff the listing or
      one of the calls does; without a listing nothing is sent. */
  lemma AttachEnds(env: Env, w: World, ids: seq<string>)
    ensures var (w', outcome) := Attach(env, w, ids);
            && w.sent <= w'.sent
            && (outcome.Crashed? <==> env.list(|w.sent|).NoSuchGroup?)
            && (outcome.Done? <==>
                  && env.list(|w.sent|).Listed?
                  && forall k :: |w.sent| <= k < |w'.sent| ==> env.attach(k, w'.sent[k]).Attached?)
            && (!env.list(|w.sent|).Listed? ==> w' == w)
  {
    AllAttached(env, w, Delta(w.members, ids));
  }

  lemma {:induction false} WithinIsPart(batch: seq<string>, some: set<string>)
    ensures forall id :: id in Within(batch, some) <==> id in batch && id in some
    ensures multiset(Within(batch, some)) <= multiset(batch)
  {
    if batch != [] {
      WithinIsPart(batch[1..], some);
      assert batch == [batch[0]] + batch[1..];
    }
  }

  lemma PartsAdd(a: seq<string>, b: seq<string>, c: seq<string>, d: seq<string>)
    requires multiset(a) <= multiset(c) && multiset(b) <= multiset(d)
    ensures multiset(a + b) <= multiset(c + d)
  {
  }

  lemma SendGains(env: Env, w: World, batch: seq<string>)
    ensures var gained := Gained(env.attach(|w.sent|, batch), batch);
            && multiset(gained) <= multiset(batch) && (Send(env, w, batch).1 ==> gained == batch)
  {
    var r := env.attach(|w.sent|, batch);
    if r.Refused? {
      WithinIsPart(batch, r.partly);
    }
  }

  /** From w to w', gained is what was attached. */
  predicate Grew(w: World, w': World, gained: seq<string>) {
    w'.members == w.members + gained && w'.joined == w.joined + gained
  }

  lemma GrewTwice(a: World, b: World, c: World, first: seq<string>, second: seq<string>)
    requires Grew(a, b, first) && Grew(b, c, second)
    ensures Grew(a, c, first + second)
  {
    assert a.members + first + second == a.members + (first + second);
    assert a.joined + first + second == a.joined + (first + second);
  }

  /** What a run attaches is part of the list it was given, and all of it on success. */
  lemma {:induction false} RunGains(env: Env, w: World, ids: seq<string>) returns (gained: seq<string>)
    ensures Grew(w, AttachFrom(env, w, ids).0, gained)
    ensures multiset(gained) <= multiset(ids) && (AttachFrom(env, w, ids).1 ==> gained == ids)
    decreases |ids|
  {
    if ids == [] {
      return [];
    }
    var n := Min(LIMIT, |ids|);
    var batch, rest := ids[..n], ids[n..];
    assert ids == batch + rest;
    SendGains(env, w, batch);
    gained := Gained(env.attach(|w.sent|, batch), batch);
    var (w1, ok1) := Send(env, w, batch);
    if ok1 {
      var more := RunGains(env, w1, rest);
      PartsAdd(gained, more, batch, rest);
      GrewTwice(w, w1, AttachFrom(env, w1, rest).0, gained, more);
      gained := gained + more;
    } else {
      PartsAdd(gained, [], batch, rest);
      assert gained + [] == gained;
    }
  }

  // ---------- any number of runs ----------

  function Runs(env: Env, w: World, ids: seq<string>, k: nat): World {
    if k == 0 then w else Attach(env, Runs(env, w, ids, k - 1), ids).0
  }

  lemma CountsAdd(a: seq<string>, b: seq<string>, id: string)
    ensures multiset(a + b)[id] == multiset(a)[id] + multiset(b)[id]
  {
  }

  lemma CountsOne(a: seq<string>, b: string, id: string)
    ensures multiset(a + [b])[id] == multiset(a)[id] + (if b == id then 1 else 0)
  {
  }

  lemma {:induction false} DeltaCounts(members: seq<string>, ids: seq<string>, id: string)
    ensures multiset(Delta(members, ids))[id] == if id in members then 0 else multiset(ids)[id]
  {
    if ids != [] {
      var n := |ids| - 1;
      var d := Delta(members, ids[..n]);
      DeltaCounts(members, ids[..n], id);
      assert ids == ids[..n] + [ids[n]];
      CountsOne(ids[..n], ids[n], id);
      CountsOne(d, ids[n], id);
    }
  }

  /** id joined at most once, and only if it was no member of the group at first. */
  predicate JoinedOnce(first: seq<string>, w: World, id: string) {
    && multiset(w.joined)[id] <= 1
    && (id in w.members <==> id in first || id in w.joined)
    && (id in first ==> id !in w.joined)
  }

  lemma RunJoinsOnce(env: Env, first: seq<string>, w: World, ids: seq<string>, id: string)
    requires JoinedOnce(first, w, id) && multiset(ids)[id] <= 1
    ensures JoinedOnce(first, Attach(env, w, ids).0, id)
  {
    if env.list(|w.sent|).Listed? {
      var delta := Delta(w.members, ids);
      DeltaCounts(w.members, ids, id);
      var gained := RunGains(env, w, delta);
      assert multiset(gained)[id] <= multiset(delta)[id];
      CountsAdd(w.joined, gained, id);
    }
  }

  /** However many runs fail at whatever call, an id that the list names once is attached
      at most once, and never if it was a member from the start. */
  lemma {:induction false} NeverAttachedTwice(env: Env, w: World, ids: seq<string>, k: nat, id: string)
    requires w.joined == [] && multiset(ids)[id] <= 1
    ensures JoinedOnce(w.members, Runs(env, w, ids, k), id)
  {
    if k > 0 {
      NeverAttachedTwice(env, w, ids, k - 1, id);
      RunJoinsOnce(env, w.members, Runs(env, w, ids, k - 1), ids, id);
    }
  }

  /** A run that succeeds leaves every requested id in the group, and the next run
      sends nothing. */
  lemma SuccessIsComplete(env: Env, w: World, ids: seq<string>)
    requires Attach(env, w, ids).1 == Done
    ensures var w' := Attach(env, w, ids).0;
            && (forall id :: id in ids ==> id in w'.members)
            && (env.list(|w'.sent|).Listed? ==> Attach(env, w', ids) == (w', Done))
  {
    var gained := RunGains(env, w, Delta(w.members, ids));
    var w' := Attach(env, w, ids).0;
    forall id | id in ids ensures id in w'.members {
      DeltaMeans(w.members, ids, id);
    }
    AllKnown(w'.members, ids);
  }

  // ---------- failures that attach nothing ----------

  ghost predicate Atomic(env: Env) { forall t, batch :: env.attach(t, batch) != Attached ==> env.attach(t, batch) == Refused({}) }

  lemma {:induction false} WithinNone(batch: seq<string>)
    ensures Within(batch, {}) == []
  {
    if batch != [] {
      WithinNone(batch[1..]);
    }
  }

  /** A run attaches the first ids of its list, whole batches of them. */
  lemma {:induction false} AtomicGains(env: Env, w: World, ids: seq<string>) returns (n: nat)
    requires Atomic(env)
    ensures n <= |ids| && (n % LIMIT == 0 || n == |ids|)
    ensures AttachFrom(env, w, ids).0.members == w.members + ids[..n]
    decreases |ids|
  {
    n := 0;
    if ids != [] {
      var b := Min(LIMIT, |ids|);
      var (w1, ok1) := Send(env, w, ids[..b]);
      if ok1 {
        var rest := AtomicGains(env, w1, ids[b..]);
        n := b + rest;
        assert ids[..n] == ids[..b] + ids[b..][..rest];
      } else {
        WithinNone(ids[..b]);
      }
    }
  }

  predicate Distinct(ids: seq<string>) { forall i, j :: 0 <= i < j < |ids| ==> ids[i] != ids[j] }

  lemma {:induction false} DeltaOfDistinct(members: seq<string>, ids: seq<string>)
    requires Distinct(ids)
    ensures Distinct(Delta(members, ids))
  {
    if ids != [] {
      var n := |ids| - 1;
      DeltaOfDistinct(members, ids[..n]);
      DeltaMeans(members, ids[..n], ids[n]);
      assert ids[n] !in ids[..n];
    }
  }

  lemma DeltaSnoc(members: seq<string>, ids: seq<string>, id: string)
    ensures Delta(members, ids + [id]) == Delta(members, ids) + (if id in members then [] else [id])
  {
    assert (ids + [id])[..|ids|] == ids;
  }

  lemma {:induction false} DeltaTwice(members: seq<string>, more: seq<string>, ids: seq<string>)
    ensures Delta(members + more, ids) == Delta(more, Delta(members, ids))
  {
    if ids != [] {
      var n := |ids| - 1;
      DeltaTwice(members, more, ids[..n]);
      var d := Delta(members, ids[..n]);
      if ids[n] in members {
        assert Delta(members, ids) == d;
      } else {
        assert Delta(members, ids) == d + [ids[n]];
        DeltaSnoc(more, d, ids[n]);
      }
    }
  }

  lemma DeltaOfPrefix(ids: seq<string>, n: nat)
    requires Distinct(ids) && n <= |ids|
    ensures Delta(ids[..n], ids) == ids[n..]
  {
    DeltaSplits(ids[..n], ids, n);
  }

  lemma {:induction false} DeltaSplits(known: seq<string>, ids: seq<string>, n: nat)
    requires n <= |ids| && known == ids[..n]
    requires forall k :: n <= k < |ids| ==> ids[k] !in known
    ensures Delta(known, ids) == ids[n..]
  {
    if ids != [] {
      var m := |ids| - 1;
      var last := ids[m];
      if n <= m {
        assert known == ids[..m][..n];
        DeltaSplits(known, ids[..m], n);
        assert ids[..m][n..] + [last] == ids[n..];
      } else {
        AllKnown(known, ids);
      }
    }
  }

  lemma {:induction false} AllKnown(known: seq<string>, ids: seq<string>)
    requires forall id :: id in ids ==> id in known
    ensures Delta(known, ids) == []
  {
    if ids != [] {
      AllKnown(known, ids[..|ids| - 1]);
    }
  }

  /** A rerun is given exactly what the stopped run left over: a list without repeats is
      continued after the last batch that went through. */
  lemma RerunContinues(env: Env, w: World, ids: seq<string>) returns (n: nat)
    requires Atomic(env) && Distinct(ids) && env.list(|w.sent|).Listed?
    ensures var delta := Delta(w.members, ids);
            && n <= |delta| && (n % LIMIT == 0 || n == |delta|)
            && Attach(env, w, ids).0.members == w.members + delta[..n]
            && Delta(Attach(env, w, ids).0.members, ids) == delta[n..]
  {
    var delta := Delta(w.members, ids);
    n := AtomicGains(env, w, delta);
    DeltaTwice(w.members, delta[..n], ids);
    DeltaOfDistinct(w.members, ids);
    DeltaOfPrefix(delta, n);
  }
}
