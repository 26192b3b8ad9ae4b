/** The application load balancer resource: three parts and an optional DNS alias,
    created or repaired part by part by calls that may fail. */
module LoadBalancer {
  import opened Bags

  const ALB_VERSION := "v1"

  datatype Part = Balancer | TargetGroup | Listener | Alias

  /** The version tag of each part that exists; the listener lives on the balancer. */
  datatype Cloud = Cloud(balancer: Option<string>, targetGroup: Option<string>, listener: Option<string>, alias: bool)

  /** A read or create call answers, or fails; a failed creation may have happened
      all the same. */
  datatype Reply = Good | Bad(happened: bool)

  datatype Event = Event(part: Part, reply: Reply)

  /** What a creation call did to the cloud is part of the state: cloud, the creation
      calls made so far, and the oracle for the answers. */
  datatype World = World(cloud: Cloud, log: seq<Event>, calls: nat)

  /** The answers by the number of calls made before, and how many other load balancers of
      the account and other listeners of the balancer are listed before the one sought. */
  datatype Oracle = Oracle(answer: nat -> Reply, otherBalancers: nat, otherListeners: nat)

  datatype Outcome = Ok | Error | Crash

  /** The fields of the resource that Fetch fills in; an absent part reads as "". */
  datatype Fields = Fields(version: string, targetGroupVersion: string, listenerVersion: string, record: bool)

  function Read(o: Option<string>): string { match o case Some(v) => v case None => "" }

  /** Each field reads the cloud; the alias is looked up only if it is configured and
      the balancer exists. */
  function FieldsOf(c: Cloud, dns: bool): Fields {
    Fields(Read(c.balancer), Read(c.targetGroup), if c.balancer.Some? then Read(c.listener) else "",
           dns && c.balancer.Some? && c.alias)
  }

  function DeployedVersion(f: Fields, dns: bool): string {
    if dns && !f.record then ALB_VERSION + "#"
    else if f.version == f.targetGroupVersion && f.version == f.listenerVersion then f.version
    else ALB_VERSION + "#"
  }

  function WithPart(c: Cloud, p: Part): Cloud {
    match p
    case Balancer => c.(balancer := Some(ALB_VERSION))
    case TargetGroup => c.(targetGroup := Some(ALB_VERSION))
    case Listener => c.(listener := Some(ALB_VERSION))
    case Alias => c.(alias := true)
  }

  /** One creation call. */
  function Make(o: Oracle, w: World, p: Part): (World, bool) {
    var r := o.answer(w.calls);
    (World(if r.Good? || r.happened then WithPart(w.cloud, p) else w.cloud, w.log + [Event(p, r)], w.calls + 1), r.Good?)
  }

  /** One read call that succeeds or fails. */
  function Ask(o: Oracle, w: World): (World, bool) {
    (w.(calls := w.calls + 1), o.answer(w.calls).Good?)
  }

  // ---------- reading ----------

  function One(there: bool): nat { if there then 1 else 0 }

  /** Each look-up lists, and then reads the tags of what it has found so far. */
  function BalancerReads(c: Cloud): nat { 1 + One(c.balancer.Some?) }

  function TargetGroupReads(c: Cloud): nat { 1 + One(c.targetGroup.Some?) }

  function ListenerReads(o: Oracle, c: Cloud): nat {
    if c.balancer.None? then 1 else 2 + o.otherListeners + One(c.listener.Some?)
  }

  function ClusterBalancerReads(o: Oracle, c: Cloud): nat { 1 + o.otherBalancers + One(c.balancer.Some?) }

  /** The alias is looked up only if it is configured and the balancer exists. */
  function AliasReads(o: Oracle, c: Cloud, dns: bool): nat {
    if !dns then 0 else ClusterBalancerReads(o, c) + One(c.balancer.Some?)
  }

  function FetchReads(o: Oracle, c: Cloud, dns: bool): nat {
    BalancerReads(c) + TargetGroupReads(c) + ListenerReads(o, c) + AliasReads(o, c, dns)
  }

  /** n reads in a row, up to the first that fails. */
  function Fetch(o: Oracle, w: World, n: nat): (World, bool)
    decreases n
  {
    if n == 0 then (w, true)
    else
      var (w1, ok) := Ask(o, w);
      if ok then Fetch(o, w1, n - 1) else (w1, false)
  }

  lemma {:induction false} FetchSame(o: Oracle, w: World, n: nat)
    ensures Fetch(o, w, n).0.cloud == w.cloud && Fetch(o, w, n).0.log == w.log
    decreases n
  {
    if n > 0 {
      FetchSame(o, Ask(o, w).0, n - 1);
    }
  }

  lemma {:induction false} FetchInParts(o: Oracle, w: World, n: nat, m: nat)
    ensures Fetch(o, w, n + m) ==
            if Fetch(o, w, n).1 then Fetch(o, Fetch(o, w, n).0, m) else Fetch(o, w, n)
    decreases n
  {
    if n > 0 {
      FetchInParts(o, Ask(o, w).0, n - 1, m);
    }
  }

  /** The fields after a successful Fetch: a record found earlier is kept if the alias was
      not looked up. */
  function FetchedFields(f: Fields, c: Cloud, dns: bool): Fields {
    FieldsOf(c, dns).(record := if dns && c.balancer.Some? then c.alias else f.record)
  }

  // ---------- creating and repairing ----------

  function Create(o: Oracle, w: World, dns: bool): (World, Outcome) {
    var (w1, ok1) := Make(o, w, Balancer);
    if !ok1 then (w1, Error)
    else
      var (w2, ok2) := Make(o, w1, TargetGroup);
      if !ok2 then (w2, Error)
      else
        var (w3, ok3) := Make(o, w2, Listener);
        if !ok3 then (w3, Error)
        else if !dns then (w3, Ok)
        else
          var (w4, ok4) := Make(o, w3, Alias);
          (w4, if ok4 then Ok else Error)
  }

  /** A part of the wrong version sets an error that a later successful call clears. */
  function Unsupported(version: string, e: Outcome): Outcome {
    if version != "" && version != ALB_VERSION then Error else e
  }

  /** The repair of Update, part by part. known tells whether the balancer has been
      created or looked up on the way: the alias dereferences it. */
  function Update(o: Oracle, w: World, f: Fields, dns: bool): (World, Outcome) {
    var (w1, ok1) := if f.targetGroupVersion == "" then Make(o, w, TargetGroup) else (w, true);
    if !ok1 then (w1, Error)
    else
      var (w2, ok2) := if f.version == "" then Make(o, w1, Balancer) else (w1, true);
      if !ok2 then (w2, Error)
      else
        var e2 := if f.version == "" then Ok else Unsupported(f.version, Unsupported(f.targetGroupVersion, Ok));
        if f.listenerVersion == "" then UpdateListener(o, w2, f, dns)
        else UpdateAlias(o, w2, f, dns, f.version == "", Unsupported(f.listenerVersion, e2))
  }

  function UpdateListener(o: Oracle, w: World, f: Fields, dns: bool): (World, Outcome) {
    var (w1, ok1) := if f.targetGroupVersion != "" then Ask(o, w) else (w, true);
    if !ok1 then (w1, Error)
    else
      var (w2, ok2) := if f.version != "" then Fetch(o, w1, ClusterBalancerReads(o, w1.cloud)) else (w1, true);
      if !ok2 then (w2, Error)
      else
        var (w3, ok3) := Make(o, w2, Listener);
        if !ok3 then (w3, Error) else UpdateAlias(o, w3, f, dns, true, Ok)
  }

  function UpdateAlias(o: Oracle, w: World, f: Fields, dns: bool, known: bool, e: Outcome): (World, Outcome) {
    if dns && !f.record then
      if !known then (w, Crash)
      else
        var (w1, ok) := Make(o, w, Alias);
        (w1, if ok then Ok else Error)
    else (w, e)
  }

  /** One pass of EnsureResource over the load balancer. */
  function Pass(o: Oracle, w: World, dns: bool): (World, Outcome) {
    var (w1, ok) := Fetch(o, w, FetchReads(o, w.cloud, dns));
    if !ok then (w1, Error)
    else
      var f := FieldsOf(w1.cloud, dns);
      if DeployedVersion(f, dns) == "" then Create(o, w1, dns)
      else if DeployedVersion(f, dns) != ALB_VERSION then Update(o, w1, f, dns)
      else (w1, Ok)
  }

  // ---------- the resource object ----------

  class ApplicationLoadBalancer {
    const dns: bool
    const oracle: Oracle
    var fields: Fields
    var world: World

    constructor (dns: bool, oracle: Oracle, world: World)
      ensures this.dns == dns && this.oracle == oracle && this.world == world
    {
      this.dns, this.oracle, this.world := dns, oracle, world;
      fields := Fields("", "", "", false);
    }

    /** Reads n times, up to the first failure. */
    method ReadTimes(n: nat) returns (ok: bool)
      modifies this`world
      ensures (world, ok) == Fetch(oracle, old(world), n)
      ensures world.cloud == old(world).cloud
    {
      FetchSame(oracle, world, n);
      var left := n;
      while left > 0
        invariant Fetch(oracle, old(world), n) == Fetch(oracle, world, left)
      {
        var (w, answered) := Ask(oracle, world);
        world := w;
        if !answered {
          return false;
        }
        left := left - 1;
      }
      return true;
    }

    /** Fetch, field by field; a failure leaves the fields not yet read as they were. */
    method FetchVersions() returns (ok: bool)
      modifies this
      ensures (world, ok) == Fetch(oracle, old(world), FetchReads(oracle, old(world).cloud, dns))
      ensures world.cloud == old(world).cloud
      ensures ok ==> fields == FetchedFields(old(fields), world.cloud, dns)
      ensures !ok ==> fields.record == old(fields.record)
    {
      ghost var w := world;
      var c := world.cloud;
      var a, b, l, d := BalancerReads(c), TargetGroupReads(c), ListenerReads(oracle, c), AliasReads(oracle, c, dns);
      FetchInParts(oracle, w, a + b + l, d);
      FetchInParts(oracle, w, a + b, l);
      FetchInParts(oracle, w, a, b);
      ok := ReadTimes(a);
      if !ok { return; }
      fields := fields.(version := Read(world.cloud.balancer));
      ok := ReadTimes(b);
      if !ok { return; }
      fields := fields.(targetGroupVersion := Read(world.cloud.targetGroup));
      ok := ReadTimes(l);
      if !ok { return; }
      fields := fields.(listenerVersion := if world.cloud.balancer.Some? then Read(world.cloud.listener) else "");
      ok := ReadTimes(d);
      if !ok { return; }
      if dns && world.cloud.balancer.Some? {
        fields := fields.(record := world.cloud.alias);
      }
    }

    method MakePart(p: Part) returns (ok: bool)
      modifies this`world
      ensures (world, ok) == Make(oracle, old(world), p)
    {
      var (w, made) := Make(oracle, world, p);
      world, ok := w, made;
    }

    method LookUp() returns (ok: bool)
      modifies this`world
      ensures (world, ok) == Ask(oracle, old(world))
    {
      var (w, answered) := Ask(oracle, world);
      world, ok := w, answered;
    }

    method CreateParts() returns (outcome: Outcome)
      modifies this`world
      ensures (world, outcome) == Create(oracle, old(world), dns)
    {
      var ok := MakePart(Balancer);
      if !ok { return Error; }
      ok := MakePart(TargetGroup);
      if !ok { return Error; }
      ok := MakePart(Listener);
      if !ok { return Error; }
      if dns {
        ok := MakePart(Alias);
      }
      return if ok then Ok else Error;
    }

    method UpdateParts() returns (outcome: Outcome)
      modifies this`world
      ensures (world, outcome) == Update(oracle, old(world), fields, dns)
    {
      outcome := Ok;
      var ok, haveTarget, known := true, false, false;
      if fields.targetGroupVersion == "" {
        ok := MakePart(TargetGroup);
        if !ok { return Error; }
        haveTarget := true;
      } else if fields.targetGroupVersion != ALB_VERSION {
        outcome := Error;
      }
      if fields.version == "" {
        ok := MakePart(Balancer);
        if !ok { return Error; }
        known, outcome := true, Ok;
      } else if fields.version != ALB_VERSION {
        outcome := Error;
      }
      if fields.listenerVersion == "" {
        if !haveTarget {
          ok := LookUp();
          if !ok { return Error; }
        }
        if !known {
          ok := ReadTimes(ClusterBalancerReads(oracle, world.cloud));
          if !ok { return Error; }
          known := true;
        }
        ok := MakePart(Listener);
        if !ok { return Error; }
        outcome := Ok;
      } else if fields.listenerVersion != ALB_VERSION {
        outcome := Error;
      }
      if dns && !fields.record {
        if !known { return Crash; }
        ok := MakePart(Alias);
        outcome := if ok then Ok else Error;
      }
    }
  }
}
