/** Repair of the load balancer from whatever earlier passes left behind. */
module LoadBalancerRepair {
  import opened Bags
  import opened LoadBalancer

  predicate Has(c: Cloud, p: Part) {
    match p
    case Balancer => c.balancer.Some?
    case TargetGroup => c.targetGroup.Some?
    case Listener => c.listener.Some?
    case Alias => c.alias
  }

  /** What this resource itself can leave in the cloud: parts of version v1, and
      listener and alias only on a balancer. */
  predicate Sane(c: Cloud) {
    && c.balancer in {None, Some(ALB_VERSION)} && c.targetGroup in {None, Some(ALB_VERSION)}
    && c.listener in {None, Some(ALB_VERSION)}
    && (c.listener.Some? || c.alias ==> c.balancer.Some?)
  }

  predicate Complete(c: Cloud, dns: bool) {
    Sane(c) && Has(c, Balancer) && Has(c, TargetGroup) && Has(c, Listener) && (dns ==> Has(c, Alias))
  }

  predicate Happened(r: Reply) { r.Good? || r.happened }

  /** How often a part has come into being. */
  function Births(log: seq<Event>, p: Part): nat {
    if log == [] then 0
    else
      var e := log[|log| - 1];
      Births(log[..|log| - 1], p) + (if e.part == p && Happened(e.reply) then 1 else 0)
  }

  /** Every part that exists has come into being once, every other never. */
  ghost predicate BornOnce(w: World) {
    forall p :: Births(w.log, p) == if Has(w.cloud, p) then 1 else 0
  }

  ghost predicate Consistent(w: World) { Sane(w.cloud) && BornOnce(w) }

  lemma MakeGood(o: Oracle, w: World, p: Part)
    requires Consistent(w) && !Has(w.cloud, p) && (p.Listener? || p.Alias? ==> w.cloud.balancer.Some?)
    ensures Consistent(Make(o, w, p).0)
    ensures forall q :: q != p ==> (Has(Make(o, w, p).0.cloud, q) <==> Has(w.cloud, q))
    ensures Make(o, w, p).1 ==> Has(Make(o, w, p).0.cloud, p)
  {
    var w' := Make(o, w, p).0;
    assert w'.log[..|w'.log| - 1] == w.log;
  }

  lemma CreateGood(o: Oracle, w: World, dns: bool)
    requires Consistent(w) && forall p :: !Has(w.cloud, p)
    ensures Consistent(Create(o, w, dns).0)
  {
    MakeGood(o, w, Balancer);
    var (w1, ok1) := Make(o, w, Balancer);
    if ok1 {
      MakeGood(o, w1, TargetGroup);
      var (w2, ok2) := Make(o, w1, TargetGroup);
      if ok2 {
        MakeGood(o, w2, Listener);
        var (w3, ok3) := Make(o, w2, Listener);
        if ok3 && dns {
          MakeGood(o, w3, Alias);
        }
      }
    }
  }

  lemma AliasGood(o: Oracle, w: World, f: Fields, dns: bool, known: bool, e: Outcome)
    requires Consistent(w) && (dns && !f.record && known ==> !w.cloud.alias && w.cloud.balancer.Some?)
    ensures Consistent(UpdateAlias(o, w, f, dns, known, e).0)
  {
    if dns && !f.record && known {
      MakeGood(o, w, Alias);
    }
  }

  lemma ListenerGood(o: Oracle, w: World, f: Fields, dns: bool)
    requires Consistent(w) && !Has(w.cloud, Listener) && w.cloud.balancer.Some? && (dns && !f.record ==> !w.cloud.alias)
    ensures Consistent(UpdateListener(o, w, f, dns).0)
  {
    var (w1, ok1) := if f.targetGroupVersion != "" then Ask(o, w) else (w, true);
    if ok1 {
      FetchSame(o, w1, ClusterBalancerReads(o, w1.cloud));
      var (w2, ok2) := if f.version != "" then Fetch(o, w1, ClusterBalancerReads(o, w1.cloud)) else (w1, true);
      if ok2 {
        MakeGood(o, w2, Listener);
        var (w3, ok3) := Make(o, w2, Listener);
        if ok3 {
          AliasGood(o, w3, f, dns, true, Ok);
        }
      }
    }
  }

  lemma UpdateGood(o: Oracle, w: World, dns: bool)
    requires Consistent(w)
    ensures Consistent(Update(o, w, FieldsOf(w.cloud, dns), dns).0)
  {
    var f := FieldsOf(w.cloud, dns);
    if f.targetGroupVersion == "" {
      MakeGood(o, w, TargetGroup);
    }
    var (w1, ok1) := if f.targetGroupVersion == "" then Make(o, w, TargetGroup) else (w, true);
    if ok1 {
      if f.version == "" {
        MakeGood(o, w1, Balancer);
      }
      var (w2, ok2) := if f.version == "" then Make(o, w1, Balancer) else (w1, true);
      if ok2 {
        var e2 := if f.version == "" then Ok else Unsupported(f.version, Unsupported(f.targetGroupVersion, Ok));
        if f.listenerVersion == "" {
          ListenerGood(o, w2, f, dns);
        } else {
          AliasGood(o, w2, f, dns, f.version == "", Unsupported(f.listenerVersion, e2));
        }
      }
    }
  }

  /** A pass, failed or not, leaves a sane cloud, and creates no part that exists. */
  lemma PassGood(o: Oracle, w: World, dns: bool)
    requires Consistent(w)
    ensures Consistent(Pass(o, w, dns).0)
  {
    FetchSame(o, w, FetchReads(o, w.cloud, dns));
    var (w1, ok) := Fetch(o, w, FetchReads(o, w.cloud, dns));
    assert forall p :: Births(w1.log, p) == Births(w.log, p);
    if ok {
      var d := DeployedVersion(FieldsOf(w1.cloud, dns), dns);
      if d == "" {
        CreateGood(o, w1, dns);
      } else if d != ALB_VERSION {
        UpdateGood(o, w1, dns);
      }
    }
  }

  /** A series of passes, each with its own answers. */
  function Passes(os: seq<Oracle>, w: World, dns: bool): World {
    if os == [] then w else Pass(os[|os| - 1], Passes(os[..|os| - 1], w, dns), dns).0
  }

  const NOTHING := World(Cloud(None, None, None, false), [], 0)

  /** However often the repair fails and wherever, no part is ever created twice. */
  lemma {:induction false} NeverTwice(os: seq<Oracle>, dns: bool)
    ensures Consistent(Passes(os, NOTHING, dns))
    ensures forall p :: Births(Passes(os, NOTHING, dns).log, p) <= 1
  {
    if os == [] {
      assert forall p :: Births([], p) == 0;
    } else {
      NeverTwice(os[..|os| - 1], dns);
      PassGood(os[|os| - 1], Passes(os[..|os| - 1], NOTHING, dns), dns);
    }
  }

  ghost predicate NothingFails(o: Oracle) { forall t :: o.answer(t).Good? }

  /** Balancer and listener exist, but the alias does not. */
  predicate Stranded(c: Cloud, dns: bool) { dns && !c.alias && c.balancer.Some? && c.listener.Some? }

  /** The outcome of a repair of c that ends in w' without a failed call. */
  predicate Repairs(c: Cloud, dns: bool, w': World, outcome: Outcome) {
    if Stranded(c, dns) then outcome == Crash && !Complete(w'.cloud, dns)
    else outcome == Ok && Complete(w'.cloud, dns)
  }

  /** Reads that are all answered succeed. */
  lemma {:induction false} FetchAnswers(o: Oracle, w: World, n: nat)
    requires forall t :: w.calls <= t < w.calls + n ==> o.answer(t).Good?
    ensures Fetch(o, w, n) == (w.(calls := w.calls + n), true)
    decreases n
  {
    if n > 0 {
      FetchAnswers(o, Ask(o, w).0, n - 1);
    }
  }

  /** What the look-up of the balancer in a repair of the listener does. */
  lemma LookUpKeeps(o: Oracle, w: World)
    ensures Fetch(o, w, ClusterBalancerReads(o, w.cloud)).0.cloud == w.cloud
    ensures NothingFails(o) ==> Fetch(o, w, ClusterBalancerReads(o, w.cloud)).1
  {
    FetchSame(o, w, ClusterBalancerReads(o, w.cloud));
    if NothingFails(o) {
      FetchAnswers(o, w, ClusterBalancerReads(o, w.cloud));
    }
  }

  lemma UpdateLooksUp(o: Oracle, w: World, f: Fields)
    ensures var w2 := if f.targetGroupVersion != "" then Ask(o, w).0 else w;
            && Fetch(o, w2, ClusterBalancerReads(o, w2.cloud)).0.cloud == w2.cloud
            && (NothingFails(o) ==> Fetch(o, w2, ClusterBalancerReads(o, w2.cloud)).1)
  {
    LookUpKeeps(o, if f.targetGroupVersion != "" then Ask(o, w).0 else w);
  }

  lemma RepairLooksUp(o: Oracle, w: World, f: Fields)
    ensures var w1 := if f.targetGroupVersion == "" then Make(o, w, TargetGroup).0 else w;
            var w2 := if f.version == "" then Make(o, w1, Balancer).0 else w1;
            var w3 := if f.targetGroupVersion != "" then Ask(o, w2).0 else w2;
            && Fetch(o, w3, ClusterBalancerReads(o, w3.cloud)).0.cloud == w3.cloud
            && (NothingFails(o) ==> Fetch(o, w3, ClusterBalancerReads(o, w3.cloud)).1)
  {
    var w1 := if f.targetGroupVersion == "" then Make(o, w, TargetGroup).0 else w;
    var w2 := if f.version == "" then Make(o, w1, Balancer).0 else w1;
    UpdateLooksUp(o, w2, f);
  }

  lemma GoodUpdate(o: Oracle, w: World, dns: bool)
    requires Sane(w.cloud) && NothingFails(o)
    ensures var (w', outcome) := Update(o, w, FieldsOf(w.cloud, dns), dns);
            DeployedVersion(FieldsOf(w.cloud, dns), dns) != "" ==> Repairs(w.cloud, dns, w', outcome)
  {
    RepairLooksUp(o, w, FieldsOf(w.cloud, dns));
  }

  lemma GoodCreate(o: Oracle, w: World, dns: bool)
    requires Sane(w.cloud) && NothingFails(o)
    ensures DeployedVersion(FieldsOf(w.cloud, dns), dns) == "" ==>
              !Stranded(w.cloud, dns) && Create(o, w, dns).1 == Ok && Complete(Create(o, w, dns).0.cloud, dns)
  {
  }

  lemma CompleteIsTarget(c: Cloud, dns: bool)
    requires Sane(c)
    ensures DeployedVersion(FieldsOf(c, dns), dns) == ALB_VERSION <==> Complete(c, dns)
  {
  }

  /** A pass in which no call fails completes the load balancer, and its version is
      then the target, exactly unless balancer and listener were already there and
      the alias was not: then it crashes. */
  lemma GoodPassRepairs(o: Oracle, w: World, dns: bool)
    requires Sane(w.cloud) && NothingFails(o)
    ensures var (w', outcome) := Pass(o, w, dns);
            if Stranded(w.cloud, dns) then outcome == Crash && !Complete(w'.cloud, dns)
            else outcome == Ok && Complete(w'.cloud, dns) && DeployedVersion(FieldsOf(w'.cloud, dns), dns) == ALB_VERSION
  {
    FetchSame(o, w, FetchReads(o, w.cloud, dns));
    FetchAnswers(o, w, FetchReads(o, w.cloud, dns));
    var w1 := Fetch(o, w, FetchReads(o, w.cloud, dns)).0;
    GoodCreate(o, w1, dns);
    GoodUpdate(o, w1, dns);
    CompleteIsTarget(w1.cloud, dns);
    CompleteIsTarget(Pass(o, w, dns).0.cloud, dns);
  }

  /** Whatever the calls answer, a pass that reports success has completed the load
      balancer: the version that the next Fetch finds is the target. */
  lemma SuccessMeansComplete(o: Oracle, w: World, dns: bool)
    requires Sane(w.cloud) && Pass(o, w, dns).1 == Ok
    ensures Complete(Pass(o, w, dns).0.cloud, dns)
    ensures DeployedVersion(FieldsOf(Pass(o, w, dns).0.cloud, dns), dns) == ALB_VERSION
  {
    var w1 := Fetch(o, w, FetchReads(o, w.cloud, dns)).0;
    FetchSame(o, w, FetchReads(o, w.cloud, dns));
    var d := DeployedVersion(FieldsOf(w1.cloud, dns), dns);
    CompleteIsTarget(w1.cloud, dns);
    if d == "" {
      CreateCompletes(o, w1, dns);
    } else if d != ALB_VERSION {
      UpdateCompletes(o, w1, dns);
    }
    CompleteIsTarget(Pass(o, w, dns).0.cloud, dns);
  }

  lemma CreateCompletes(o: Oracle, w: World, dns: bool)
    requires Sane(w.cloud) && Create(o, w, dns).1 == Ok
    ensures Complete(Create(o, w, dns).0.cloud, dns)
  {
  }

  lemma UpdateCompletes(o: Oracle, w: World, dns: bool)
    requires Sane(w.cloud) && Update(o, w, FieldsOf(w.cloud, dns), dns).1 == Ok
    ensures Complete(Update(o, w, FieldsOf(w.cloud, dns), dns).0.cloud, dns)
  {
    RepairLooksUp(o, w, FieldsOf(w.cloud, dns));
  }

  /** After any failures from scratch, one pass without failures repairs everything,
      if no alias is configured. */
  lemma RepairedAfterFailures(os: seq<Oracle>, o: Oracle)
    requires NothingFails(o)
    ensures var (w', outcome) := Pass(o, Passes(os, NOTHING, false), false);
            outcome == Ok && Complete(w'.cloud, false)
            && DeployedVersion(FieldsOf(w'.cloud, false), false) == ALB_VERSION
            && forall p :: Births(w'.log, p) == if p.Alias? then 0 else 1
  {
    NeverTwice(os, false);
    var w := Passes(os, NOTHING, false);
    PassGood(o, w, false);
    GoodPassRepairs(o, w, false);
    NoAlias(os + [o]);
    assert (os + [o])[..|os|] == os;
  }

  lemma {:induction false} NoAlias(os: seq<Oracle>)
    ensures !Passes(os, NOTHING, false).cloud.alias
  {
    if os != [] {
      NoAlias(os[..|os| - 1]);
      var w := Passes(os[..|os| - 1], NOTHING, false);
      var o := os[|os| - 1];
      var w1 := Fetch(o, w, FetchReads(o, w.cloud, false)).0;
      FetchSame(o, w, FetchReads(o, w.cloud, false));
      RepairLooksUp(o, w1, FieldsOf(w1.cloud, false));
    }
  }

  /** A stranded load balancer stays stranded: no pass, whatever fails, succeeds. */
  lemma StrandedForGood(o: Oracle, w: World, dns: bool)
    requires Sane(w.cloud) && Stranded(w.cloud, dns)
    ensures var (w', outcome) := Pass(o, w, dns);
            Sane(w'.cloud) && Stranded(w'.cloud, dns) && outcome != Ok
  {
    FetchSame(o, w, FetchReads(o, w.cloud, dns));
  }

  /** It takes one failure: the alias call of the first pass. */
  lemma AliasFailureStrands(o: Oracle)
    requires forall t :: o.answer(t) == if t == o.otherBalancers + 7 then Bad(false) else Good
    ensures Stranded(Pass(o, NOTHING, true).0.cloud, true)
  {
    FetchAnswers(o, NOTHING, FetchReads(o, NOTHING.cloud, true));
  }

  /** The version is supported, or the part is missing. */
  predicate Supported(version: string) { version == "" || version == ALB_VERSION }

  /** A part of another version makes an update fail in which no call fails, exactly if
      nothing is created after the check that found it: the error lives in a variable
      that each later creation, of the alias too, overwrites. */
  lemma UnsupportedFails(o: Oracle, w: World, f: Fields, dns: bool)
    requires NothingFails(o)
    ensures Update(o, w, f, dns).1 == Error <==>
              && f.listenerVersion != "" && !(dns && !f.record)
              && (|| !Supported(f.listenerVersion)
                  || (f.version != "" && !(Supported(f.version) && Supported(f.targetGroupVersion))))
  {
    RepairLooksUp(o, w, f);
  }

  /** So an old target group goes unnoticed when the listener is missing: the update
      succeeds, and the versions still differ. */
  lemma OldTargetGroupMasked(o: Oracle, w: World, version: string)
    requires NothingFails(o) && !Supported(version)
    requires w.cloud == Cloud(Some(ALB_VERSION), Some(version), None, false)
    ensures var (w', outcome) := Pass(o, w, false);
            outcome == Ok && DeployedVersion(FieldsOf(w'.cloud, false), false) != ALB_VERSION
  {
    var n := FetchReads(o, w.cloud, false);
    var w1 := Fetch(o, w, n).0;
    FetchSame(o, w, n);
    FetchAnswers(o, w, n);
    RepairLooksUp(o, w1, FieldsOf(w1.cloud, false));
  }

  // ---------- what a pass calls and what it makes of the answers ----------

  /** Reads succeed iff all are answered, and stop at the first that is not. */
  lemma {:induction false} FetchStops(o: Oracle, w: World, n: nat)
    ensures var (w', ok) := Fetch(o, w, n);
            && w.calls <= w'.calls <= w.calls + n
            && (forall t :: w.calls <= t < w'.calls - 1 ==> o.answer(t).Good?)
            && (ok <==> w'.calls == w.calls + n && (n > 0 ==> o.answer(w'.calls - 1).Good?))
            && (!ok ==> w'.calls > w.calls && !o.answer(w'.calls - 1).Good?)
    decreases n
  {
    if n > 0 {
      FetchStops(o, Ask(o, w).0, n - 1);
    }
  }

  /** How many reads a Fetch takes: three listings, and one for the other listeners, the
      tags of each part and the record as far as the balancer leads to them; the look-up of
      the cluster's balancer passes the other ones. */
  lemma FetchTakes(o: Oracle, c: Cloud, dns: bool)
    ensures var b, t, l := if c.balancer.Some? then 1 else 0, if c.targetGroup.Some? then 1 else 0, if c.listener.Some? then 1 else 0;
            FetchReads(o, c, dns) ==
            3 + b + t + b * (1 + o.otherListeners + l) + (if dns then 1 + o.otherBalancers + 2 * b else 0)
  {
  }

  /** What has been answered between two worlds: all but perhaps the last call, and that
      too unless the outcome is an error. */
  predicate Answered(o: Oracle, w: World, w': World, outcome: Outcome) {
    && w.calls <= w'.calls
    && (forall t :: w.calls <= t < w'.calls - 1 ==> o.answer(t).Good?)
    && (w'.calls > w.calls && !o.answer(w'.calls - 1).Good? ==> outcome == Error)
  }

  /** A creation makes its parts in order, up to the first failure, and succeeds iff each
      is answered. */
  lemma CreateMakes(o: Oracle, w: World, dns: bool)
    ensures var (w', outcome) := Create(o, w, dns);
            var parts := [Balancer, TargetGroup, Listener] + if dns then [Alias] else [];
            var n := |w'.log| - |w.log|;
            && 0 < n <= |parts| && w'.calls == w.calls + n && w.log <= w'.log
            && (forall k :: 0 <= k < n ==> w'.log[|w.log| + k] == Event(parts[k], o.answer(w.calls + k)))
            && (outcome == Ok <==> n == |parts| && o.answer(w'.calls - 1).Good?) && outcome != Crash
            && Answered(o, w, w', outcome)
  {
  }

  lemma ListenerAnswered(o: Oracle, w: World, f: Fields, dns: bool)
    ensures var (w', outcome) := UpdateListener(o, w, f, dns);
            Answered(o, w, w', outcome)
  {
    var (w1, ok1) := if f.targetGroupVersion != "" then Ask(o, w) else (w, true);
    if ok1 {
      FetchStops(o, w1, ClusterBalancerReads(o, w1.cloud));
    }
  }

  lemma UpdateAnswered(o: Oracle, w: World, f: Fields, dns: bool)
    ensures var (w', outcome) := Update(o, w, f, dns);
            Answered(o, w, w', outcome)
  {
    var (w1, ok1) := if f.targetGroupVersion == "" then Make(o, w, TargetGroup) else (w, true);
    if ok1 {
      var (w2, ok2) := if f.version == "" then Make(o, w1, Balancer) else (w1, true);
      if ok2 && f.listenerVersion == "" {
        ListenerAnswered(o, w2, f, dns);
      }
    }
  }

  /** Under any answers a pass stops at the first call that fails, and reports an error. */
  lemma PassStops(o: Oracle, w: World, dns: bool)
    ensures var (w', outcome) := Pass(o, w, dns);
            Answered(o, w, w', outcome)
  {
    var n := FetchReads(o, w.cloud, dns);
    FetchStops(o, w, n);
    var w1 := Fetch(o, w, n).0;
    CreateMakes(o, w1, dns);
    UpdateAnswered(o, w1, FieldsOf(w1.cloud, dns), dns);
  }

  /** A load balancer that is not complete reads as "v1#", or as "" if nothing of it exists
      and no alias is configured: only then is it created, otherwise repaired. */
  lemma PartialVersion(c: Cloud, dns: bool)
    requires Sane(c) && !Complete(c, dns)
    ensures DeployedVersion(FieldsOf(c, dns), dns) ==
            if !dns && c.balancer.None? && c.targetGroup.None? then "" else "v1#"
  {
  }

  /** A record found by an earlier Fetch stays exactly if the alias is not looked up. */
  lemma RecordStays(f: Fields, c: Cloud, dns: bool)
    ensures FetchedFields(f, c, dns) == FieldsOf(c, dns) <==> (dns && c.balancer.Some?) || !f.record
    ensures !(dns && c.balancer.Some?) ==> FetchedFields(f, c, dns).record == f.record
  {
  }

  function IfMade(missing: bool, p: Part): seq<Event> { if missing then [Event(p, Good)] else [] }

  lemma ListenerMakes(o: Oracle, w: World, f: Fields, dns: bool)
    requires NothingFails(o) && (f.version != "" ==> w.cloud.balancer.Some?)
    ensures var w' := UpdateListener(o, w, f, dns).0;
            var parts := [Event(Listener, Good)] + IfMade(dns && !f.record, Alias);
            && w'.log == w.log + parts
            && w'.calls == w.calls + |parts|
                           + (if f.targetGroupVersion == "" then 0 else 1) + (if f.version == "" then 0 else 2 + o.otherBalancers)
  {
    var w1 := if f.targetGroupVersion != "" then Ask(o, w).0 else w;
    FetchAnswers(o, w1, ClusterBalancerReads(o, w1.cloud));
  }

  /** A repair without failures makes the missing parts in order, the alias only if the
      balancer is known by then; before a listener it looks up a target group that exists,
      and a balancer that does, past the other ones. */
  lemma UpdateMakes(o: Oracle, w: World, f: Fields, dns: bool)
    requires NothingFails(o) && (f.version != "" <==> w.cloud.balancer.Some?)
    ensures var w' := Update(o, w, f, dns).0;
            var t, b, l := f.targetGroupVersion == "", f.version == "", f.listenerVersion == "";
            var parts := IfMade(t, TargetGroup) + IfMade(b, Balancer) + IfMade(l, Listener)
                         + IfMade(dns && !f.record && (b || l), Alias);
            && w'.log == w.log + parts
            && w'.calls == w.calls + |parts| + if l then (if t then 0 else 1) + (if b then 0 else 2 + o.otherBalancers) else 0
  {
    var w2 := FirstMakes(o, w, f, dns);
    if f.listenerVersion == "" {
      ListenerMakes(o, w2, f, dns);
    } else {
      AliasMakes(o, w2, f, dns);
    }
  }

  /** Target group and balancer. */
  lemma FirstMakes(o: Oracle, w: World, f: Fields, dns: bool) returns (w2: World)
    requires NothingFails(o)
    ensures w2.log == w.log + IfMade(f.targetGroupVersion == "", TargetGroup) + IfMade(f.version == "", Balancer)
    ensures w2.calls == w.calls + (if f.targetGroupVersion == "" then 1 else 0) + (if f.version == "" then 1 else 0)
    ensures f.version != "" ==> w2.cloud.balancer == w.cloud.balancer
    ensures Update(o, w, f, dns).0 ==
            if f.listenerVersion == "" then UpdateListener(o, w2, f, dns).0
            else UpdateAlias(o, w2, f, dns, f.version == "", Ok).0
  {
    var w1 := if f.targetGroupVersion == "" then Make(o, w, TargetGroup).0 else w;
    w2 := if f.version == "" then Make(o, w1, Balancer).0 else w1;
  }

  lemma AliasMakes(o: Oracle, w: World, f: Fields, dns: bool)
    requires NothingFails(o)
    ensures var w' := UpdateAlias(o, w, f, dns, f.version == "", Ok).0;
            var parts := IfMade(dns && !f.record && f.version == "", Alias);
            w'.log == w.log + parts && w'.calls == w.calls + |parts|
  {
  }
}
