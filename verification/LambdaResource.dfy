/** The Lambda resource: a version tag that a wrong role marks with "#", and an
    update that repairs configuration, role and code in turn. */
module LambdaResource {
  import opened Bags

  const RUNTIME := "provided.al2"
  const HANDLER := "bootstrap"
  const ARCH := "arm64"

  /** The deployed function. endpoint is the USE_DYNAMODB_ENDPOINT variable. */
  datatype Function = Function(tag: string, code: string, role: string,
                               runtime: string, handler: string, arch: string, endpoint: Option<string>)

  datatype Op = SetRuntime | SetArch | SetEndpoint | SetRole | UploadCode | SetTag

  /** How a call that changes the function ends: done, failed without effect, or failed
      although it had its effect; again tells an InvalidParameterValueException. */
  datatype Reply = Done | Failed(again: bool) | FailedAfterEffect(again: bool)

  /** What a status read finds. */
  datatype Status = Unreadable | InProgress | Successful

  /** arn is the answer to a look-up of the profile's role: None if it fails, "" if there is
      no such role. */
  datatype Oracle = Oracle(read: nat -> bool, arn: nat -> Option<string>, status: nat -> Status, write: nat -> Reply)

  const ATTEMPTS := 3
  const STATUS_READS := 12

  datatype World = World(f: Function, log: seq<Op>, calls: nat)

  datatype Outcome = Ok | Error | Crash

  /** What the caller wants: the code version, the role, "" as long as it is not known, and
      the endpoint flag; bucket tells whether the region has a bucket for the code. */
  datatype Want = Want(target: string, role: string, endpoint: bool, bucket: bool)

  function Ask(o: Oracle, w: World): (World, bool) { (w.(calls := w.calls + 1), o.read(w.calls)) }

  function Effect(f: Function, op: Op, want: Want): Function {
    match op
    case SetRuntime => f.(runtime := RUNTIME, handler := HANDLER)
    case SetArch => f.(arch := ARCH, code := want.target)
    case SetEndpoint => f.(endpoint := Some(if want.endpoint then "true" else "false"))
    case SetRole => f.(role := want.role)
    case UploadCode => f.(code := want.target)
    case SetTag => f.(tag := want.target)
  }

  /** One call that changes the function; the log lists the calls made. */
  function Change(o: Oracle, w: World, op: Op, want: Want): (World, bool) {
    var r := o.write(w.calls);
    (World(if r.Failed? then w.f else Effect(w.f, op, want), w.log + [op], w.calls + 1), r.Done?)
  }

  /** The wait for the last update to be successful: at most n reads of the status. */
  function Wait(o: Oracle, w: World, n: nat): (World, bool)
    decreases n
  {
    if n == 0 then (w, false)
    else
      var w1 := w.(calls := w.calls + 1);
      match o.status(w.calls)
      case Unreadable => (w1, false)
      case Successful => (w1, true)
      case InProgress => Wait(o, w1, n - 1)
  }

  predicate Again(r: Reply) { !r.Done? && r.again }

  /** The call repeated as long as the parameter is refused: n attempts at most. */
  function Attempts(o: Oracle, w: World, op: Op, want: Want, n: nat): (World, bool)
    requires n > 0
    decreases n
  {
    var (w1, ok) := Change(o, w, op, want);
    if Again(o.write(w.calls)) && n > 1 then Attempts(o, w1, op, want, n - 1) else (w1, ok)
  }

  /** The runtime update drops its error for the result of the wait. */
  function ChangeRuntime(o: Oracle, w: World, want: Want): (World, bool) {
    Wait(o, Attempts(o, w, SetRuntime, want, ATTEMPTS).0, STATUS_READS)
  }

  /** So does the environment update, after one attempt. */
  function ChangeEndpoint(o: Oracle, w: World, want: Want): (World, bool) {
    Wait(o, Change(o, w, SetEndpoint, want).0, STATUS_READS)
  }

  /** The architecture update reports the call's error, and otherwise that of the wait. */
  function ChangeArch(o: Oracle, w: World, want: Want): (World, bool) {
    if !want.bucket then (w, false)
    else
      var (w1, ok) := Change(o, w, SetArch, want);
      if ok then Wait(o, w1, STATUS_READS) else (w1, false)
  }

  predicate HasMark(s: string) { s != "" && s[|s| - 1] == '#' }

  /** The version that Fetch finds: the tag, marked if the role is not the wanted one. */
  function DeployedVersion(f: Function, want: Want): string {
    if f.tag != "" && f.role != want.role then f.tag + "#" else f.tag
  }

  /** The role of the profile, looked up if it is not known. */
  function KnowRole(o: Oracle, w: World, want: Want): (World, Want, bool) {
    if want.role != "" then (w, want, true)
    else
      match o.arn(w.calls)
      case None => (w.(calls := w.calls + 1), want, false)
      case Some(arn) => (w.(calls := w.calls + 1), want.(role := arn), true)
  }

  /** Fetch of an existing function: its tag, the role of the profile, and then, if there is
      a tag, the role of the function. */
  function Fetch(o: Oracle, w: World, want: Want): (World, Want, Option<string>) {
    var (w1, seen) := Ask(o, w);
    if !seen then (w1, want, None)
    else
      var (w2, want2, known) := KnowRole(o, w1, want);
      if !known then (w2, want2, None)
      else if w2.f.tag == "" then (w2, want2, Some(""))
      else
        var (w3, seen3) := Ask(o, w2);
        (w3, want2, if seen3 then Some(DeployedVersion(w3.f, want2)) else None)
  }

  /** strconv.ParseBool */
  function ParseBool(s: string): Option<bool> {
    if s in {"1", "t", "T", "TRUE", "true", "True"} then Some(true)
    else if s in {"0", "f", "F", "FALSE", "false", "False"} then Some(false)
    else None
  }

  function Configure(o: Oracle, w: World, want: Want): (World, Outcome) {
    var (w0, seen) := Ask(o, w);
    if !seen then (w0, Error)
    else
      var info := w0.f;
      var (w1, ok1) := StepRuntime(o, w0, want);
      if !ok1 then (w1, Error)
      else
        var (w2, ok2) := StepArch(o, w1, info, want);
        if !ok2 then (w2, Error)
        else ConfigureEndpoint(o, w2, info, want)
  }

  function StepRuntime(o: Oracle, w: World, want: Want): (World, bool) {
    if w.f.runtime != RUNTIME || w.f.handler != HANDLER then ChangeRuntime(o, w, want) else (w, true)
  }

  function StepArch(o: Oracle, w: World, info: Function, want: Want): (World, bool) {
    if info.arch != ARCH then ChangeArch(o, w, want) else (w, true)
  }

  /** The world in which Configure comes to the endpoint. */
  function BeforeEndpoint(o: Oracle, w: World, want: Want): World {
    var w0 := Ask(o, w).0;
    StepArch(o, StepRuntime(o, w0, want).0, w0.f, want).0
  }

  /** A function without the endpoint variable makes the update dereference nil. */
  function ConfigureEndpoint(o: Oracle, w: World, info: Function, want: Want): (World, Outcome) {
    match info.endpoint
    case None => (w, Crash)
    case Some(s) =>
      match ParseBool(s)
      case None => (w, Error)
      case Some(b) =>
        if b == want.endpoint then (w, Ok)
        else
          var (w1, ok) := ChangeEndpoint(o, w, want);
          (w1, if ok then Ok else Error)
  }

  /** deployed is the version that Fetch found before. */
  function RoleAndCode(o: Oracle, w: World, deployed: string, want: Want): (World, Outcome) {
    var (w1, ok1) := if HasMark(deployed) then Attempts(o, w, SetRole, want, ATTEMPTS) else (w, true);
    if !ok1 then (w1, Error)
    else if deployed != want.target && deployed != want.target + "#" then Upload(o, w1, want)
    else (w1, Ok)
  }

  /** New code first, then the tag that claims it. */
  function Upload(o: Oracle, w: World, want: Want): (World, Outcome) {
    var (w1, ok1) := if want.bucket then Change(o, w, UploadCode, want) else (w, false);
    if !ok1 then (w1, Error)
    else
      var (w2, ok2) := Ask(o, w1);
      if !ok2 then (w2, Error)
      else
        var (w3, ok3) := Change(o, w2, SetTag, want);
        (w3, if ok3 then Ok else Error)
  }

  function Update(o: Oracle, w: World, deployed: string, want: Want): (World, Outcome) {
    var (w1, c) := Configure(o, w, want);
    if !c.Ok? then (w1, c) else RoleAndCode(o, w1, deployed, want)
  }

  // ---------- the resource object ----------

  class Lambda {
    const oracle: Oracle
    var want: Want
    var version: string
    var world: World

    constructor (want: Want, oracle: Oracle, world: World)
      ensures this.want == want && this.oracle == oracle && this.world == world
    {
      this.oracle, this.want, this.world, version := oracle, want, world, "";
    }

    /** Fetch; the profile keeps the role that was looked up. */
    method FetchVersion() returns (ok: bool)
      modifies this
      ensures var (w, known, found) := Fetch(oracle, old(world), old(want));
              world == w && want == known && ok == found.Some? && (ok ==> found == Some(version))
    {
      ok := Read();
      if !ok { return false; }
      version := world.f.tag;
      if want.role == "" {
        var arn := oracle.arn(world.calls);
        world := world.(calls := world.calls + 1);
        if arn.None? { return false; }
        want := want.(role := arn.value);
      }
      if version != "" {
        ok := Read();
        if !ok { return false; }
        if world.f.role != want.role {
          version := version + "#";
        }
      }
      return true;
    }

    method ChangeFunction(op: Op) returns (ok: bool)
      modifies this`world
      ensures (world, ok) == Change(oracle, old(world), op, want)
    {
      var (w, done) := Change(oracle, world, op, want);
      world, ok := w, done;
    }

    method Read() returns (ok: bool)
      modifies this`world
      ensures (world, ok) == Ask(oracle, old(world))
    {
      var (w, seen) := Ask(oracle, world);
      world, ok := w, seen;
    }

    /** The attempts of a runtime or role update. */
    method TryChange(op: Op) returns (ok: bool)
      modifies this`world
      ensures (world, ok) == Attempts(oracle, old(world), op, want, ATTEMPTS)
    {
      ok := false;
      var retry, i := true, 0;
      while i < ATTEMPTS && retry
        invariant 0 <= i <= ATTEMPTS && (i == 0 ==> retry) && (i == ATTEMPTS && retry ==> !ok)
        invariant if retry && i < ATTEMPTS
                  then Attempts(oracle, world, op, want, ATTEMPTS - i) == Attempts(oracle, old(world), op, want, ATTEMPTS)
                  else (world, ok) == Attempts(oracle, old(world), op, want, ATTEMPTS)
      {
        retry := Again(oracle.write(world.calls));
        ok := ChangeFunction(op);
        i := i + 1;
      }
    }

    method WaitForUpdate() returns (ok: bool)
      modifies this`world
      ensures (world, ok) == Wait(oracle, old(world), STATUS_READS)
    {
      for i := 0 to STATUS_READS
        invariant Wait(oracle, world, STATUS_READS - i) == Wait(oracle, old(world), STATUS_READS)
      {
        var status := oracle.status(world.calls);
        world := world.(calls := world.calls + 1);
        if !status.InProgress? {
          return status.Successful?;
        }
      }
      return false;
    }

    method ConfigureFunction() returns (outcome: Outcome)
      modifies this`world
      ensures (world, outcome) == Configure(oracle, old(world), want)
    {
      var ok := Read();
      if !ok { return Error; }
      var info := world.f;
      if info.runtime != RUNTIME || info.handler != HANDLER {
        var _ := TryChange(SetRuntime);
        ok := WaitForUpdate();
        if !ok { return Error; }
      }
      if info.arch != ARCH {
        if !want.bucket { return Error; }
        ok := ChangeFunction(SetArch);
        if !ok { return Error; }
        ok := WaitForUpdate();
        if !ok { return Error; }
      }
      if info.endpoint.None? { return Crash; }
      var flag := ParseBool(info.endpoint.value);
      if flag.None? { return Error; }
      if flag.value != want.endpoint {
        var _ := ChangeFunction(SetEndpoint);
        ok := WaitForUpdate();
        if !ok { return Error; }
      }
      return Ok;
    }

    method UpdateFunction() returns (outcome: Outcome)
      modifies this`world
      ensures (world, outcome) == Update(oracle, old(world), version, want)
    {
      outcome := ConfigureFunction();
      if !outcome.Ok? { return; }
      var ok := true;
      if HasMark(version) {
        ok := TryChange(SetRole);
        if !ok { return Error; }
      }
      if version != want.target && version != want.target + "#" {
        if !want.bucket { return Error; }
        ok := ChangeFunction(UploadCode);
        if !ok { return Error; }
        ok := Read();
        if !ok { return Error; }
        ok := ChangeFunction(SetTag);
        if !ok { return Error; }
      }
      return Ok;
    }
  }

  // ---------- convergence ----------

  predicate Configuring(op: Op) { op.SetRuntime? || op.SetArch? || op.SetEndpoint? }

  /** From w to w' only configuring calls were made: they touch neither tag nor role,
      and code only to bring in the target. */
  predicate OnlyConfigured(w: World, w': World, want: Want) {
    && w'.f.tag == w.f.tag && w'.f.role == w.f.role
    && (w'.f.code == w.f.code || w'.f.code == want.target)
    && w.log <= w'.log && forall k :: |w.log| <= k < |w'.log| ==> Configuring(w'.log[k])
  }

  lemma {:induction false} WaitKeeps(o: Oracle, w: World, n: nat)
    ensures Wait(o, w, n).0 == w.(calls := Wait(o, w, n).0.calls)
    decreases n
  {
    if n > 0 && o.status(w.calls).InProgress? {
      WaitKeeps(o, w.(calls := w.calls + 1), n - 1);
    }
  }

  lemma ChangeConfigures(o: Oracle, w: World, op: Op, want: Want)
    requires Configuring(op)
    ensures OnlyConfigured(w, Change(o, w, op, want).0, want)
  {
  }

  lemma {:induction false} AttemptsConfigure(o: Oracle, w: World, op: Op, want: Want, n: nat)
    requires Configuring(op) && n > 0
    ensures OnlyConfigured(w, Attempts(o, w, op, want, n).0, want)
    decreases n
  {
    var w1 := Change(o, w, op, want).0;
    ChangeConfigures(o, w, op, want);
    if Again(o.write(w.calls)) && n > 1 {
      AttemptsConfigure(o, w1, op, want, n - 1);
      OnlyConfiguredChains(w, w1, Attempts(o, w1, op, want, n - 1).0, want);
    }
  }

  lemma ChangesConfigure(o: Oracle, w: World, want: Want)
    ensures OnlyConfigured(w, ChangeRuntime(o, w, want).0, want)
    ensures OnlyConfigured(w, ChangeArch(o, w, want).0, want)
    ensures OnlyConfigured(w, ChangeEndpoint(o, w, want).0, want)
  {
    AttemptsConfigure(o, w, SetRuntime, want, ATTEMPTS);
    WaitKeeps(o, Attempts(o, w, SetRuntime, want, ATTEMPTS).0, STATUS_READS);
    ChangeConfigures(o, w, SetArch, want);
    WaitKeeps(o, Change(o, w, SetArch, want).0, STATUS_READS);
    ChangeConfigures(o, w, SetEndpoint, want);
    WaitKeeps(o, Change(o, w, SetEndpoint, want).0, STATUS_READS);
  }

  lemma OnlyConfiguredChains(a: World, b: World, c: World, want: Want)
    requires OnlyConfigured(a, b, want) && OnlyConfigured(b, c, want)
    ensures OnlyConfigured(a, c, want)
  {
    forall k | |a.log| <= k < |c.log| ensures Configuring(c.log[k]) {
      if k < |b.log| {
        assert c.log[k] == b.log[k];
      }
    }
  }

  lemma EndpointKeeps(o: Oracle, w: World, info: Function, want: Want)
    ensures OnlyConfigured(w, ConfigureEndpoint(o, w, info, want).0, want)
  {
    ChangesConfigure(o, w, want);
  }

  lemma ConfigureKeeps(o: Oracle, w: World, want: Want)
    ensures OnlyConfigured(w, Configure(o, w, want).0, want)
  {
    var (w0, seen) := Ask(o, w);
    if seen {
      ChangesConfigure(o, w0, want);
      var (w1, ok1) := StepRuntime(o, w0, want);
      assert OnlyConfigured(w, w1, want);
      if ok1 {
        ChangesConfigure(o, w1, want);
        var (w2, ok2) := StepArch(o, w1, w0.f, want);
        assert OnlyConfigured(w1, w2, want);
        OnlyConfiguredChains(w, w1, w2, want);
        if ok2 {
          EndpointKeeps(o, w2, w0.f, want);
          OnlyConfiguredChains(w, w2, ConfigureEndpoint(o, w2, w0.f, want).0, want);
        }
      }
    }
  }

  predicate RightRuntime(f: Function) { f.runtime == RUNTIME && f.handler == HANDLER }

  predicate RightEndpoint(f: Function, want: Want) {
    f.endpoint.Some? && ParseBool(f.endpoint.value) == Some(want.endpoint)
  }

  /** Whether one of the attempts made from the t-th call on has had its effect. */
  predicate AnyTook(o: Oracle, t: nat, n: nat)
    requires n > 0
    decreases n
  {
    !o.write(t).Failed? || (Again(o.write(t)) && n > 1 && AnyTook(o, t + 1, n - 1))
  }

  lemma {:induction false} AttemptsSet(o: Oracle, w: World, op: Op, want: Want, n: nat)
    requires n > 0
    ensures var f' := Attempts(o, w, op, want, n).0.f;
            f' == if AnyTook(o, w.calls, n) then Effect(w.f, op, want) else w.f
    ensures Attempts(o, w, op, want, n).1 ==> AnyTook(o, w.calls, n)
    decreases n
  {
    if Again(o.write(w.calls)) && n > 1 {
      AttemptsSet(o, Change(o, w, op, want).0, op, want, n - 1);
      EffectTwice(w.f, op, want);
    }
  }

  /** A wait of at most n reads: it goes on as long as the update is in progress, and
      succeeds iff the last read finds it successful. */
  lemma {:induction false} WaitMeans(o: Oracle, w: World, n: nat)
    ensures var (w', ok) := Wait(o, w, n);
            && w.calls <= w'.calls <= w.calls + n
            && (forall t :: w.calls <= t < w'.calls - 1 ==> o.status(t).InProgress?)
            && (ok <==> w'.calls > w.calls && o.status(w'.calls - 1).Successful?)
            && (w'.calls < w.calls + n ==> w'.calls > w.calls && !o.status(w'.calls - 1).InProgress?)
    decreases n
  {
    if n > 0 && o.status(w.calls).InProgress? {
      WaitMeans(o, w.(calls := w.calls + 1), n - 1);
    }
  }

  /** At most n attempts: each but the last was refused its parameter, and the last decides. */
  lemma {:induction false} AttemptsMean(o: Oracle, w: World, op: Op, want: Want, n: nat)
    requires n > 0
    ensures var (w', ok) := Attempts(o, w, op, want, n);
            var k := w'.calls - w.calls;
            && 0 < k <= n && |w'.log| == |w.log| + k && w.log <= w'.log
            && (forall i :: |w.log| <= i < |w'.log| ==> w'.log[i] == op)
            && (forall t :: w.calls <= t < w'.calls - 1 ==> o.write(t) in {Failed(true), FailedAfterEffect(true)})
            && (k < n ==> o.write(w'.calls - 1) !in {Failed(true), FailedAfterEffect(true)})
            && (ok <==> o.write(w'.calls - 1) == Done)
    decreases n
  {
    if Again(o.write(w.calls)) && n > 1 {
      AttemptsMean(o, Change(o, w, op, want).0, op, want, n - 1);
    }
  }

  lemma WaitsInVain(o: Oracle, w: World, n: nat)
    requires forall t :: o.status(t) == InProgress
    ensures Wait(o, w, n) == (w.(calls := w.calls + n), false)
  {
    WaitMeans(o, w, n);
    WaitKeeps(o, w, n);
  }

  lemma {:induction false} TriesInVain(o: Oracle, w: World, op: Op, want: Want, n: nat)
    requires n > 0 && forall t :: o.write(t) == Failed(true)
    ensures var w' := Attempts(o, w, op, want, n).0; w'.f == w.f && w'.calls == w.calls + n
    decreases n
  {
    if n > 1 {
      TriesInVain(o, Change(o, w, op, want).0, op, want, n - 1);
    }
  }

  /** The number of attempts and of status reads. */
  lemma PatienceEnds(o: Oracle, w: World, want: Want)
    requires forall t :: o.write(t) == Failed(true) && o.status(t) == InProgress
    ensures var (w', ok) := ChangeRuntime(o, w, want); !ok && |w'.log| == |w.log| + 3 && w'.calls == w.calls + 3 + 12
    ensures var (w', ok) := ChangeEndpoint(o, w, want); !ok && |w'.log| == |w.log| + 1 && w'.calls == w.calls + 1 + 12
  {
    AttemptsMean(o, w, SetRuntime, want, ATTEMPTS);
    TriesInVain(o, w, SetRuntime, want, ATTEMPTS);
    WaitsInVain(o, Attempts(o, w, SetRuntime, want, ATTEMPTS).0, STATUS_READS);
    WaitsInVain(o, Change(o, w, SetEndpoint, want).0, STATUS_READS);
  }

  /** Configuring that reports success has read the function, and in each of its steps seen
      the update successful, if it made any. */
  lemma SuccessWasSeen(o: Oracle, w: World, want: Want)
    requires Configure(o, w, want).1.Ok?
    ensures var w' := Configure(o, w, want).0;
            var w0 := Ask(o, w).0;
            var w1 := StepRuntime(o, w0, want).0;
            var w2 := BeforeEndpoint(o, w, want);
            && o.read(w.calls) && Seen(o, w0, w1) && Seen(o, w1, w2) && Seen(o, w2, w')
            && (w.f.arch != ARCH ==> want.bucket && o.write(w1.calls) == Done)
  {
    var w0 := Ask(o, w).0;
    var w1 := StepRuntime(o, w0, want).0;
    var w2 := BeforeEndpoint(o, w, want);
    RuntimeSeen(o, w0, want);
    ArchSeen(o, w1, w0.f, want);
    EndpointSeen(o, w2, w0.f, want);
  }

  /** Any call was followed by a wait whose last read found the update successful. */
  predicate Seen(o: Oracle, w: World, w': World) {
    w'.log != w.log ==> w'.calls > w.calls && o.status(w'.calls - 1).Successful?
  }

  lemma RuntimeSeen(o: Oracle, w: World, want: Want)
    requires StepRuntime(o, w, want).1
    ensures Seen(o, w, StepRuntime(o, w, want).0)
  {
    AttemptsMean(o, w, SetRuntime, want, ATTEMPTS);
    WaitMeans(o, Attempts(o, w, SetRuntime, want, ATTEMPTS).0, STATUS_READS);
  }

  lemma ArchSeen(o: Oracle, w: World, info: Function, want: Want)
    requires StepArch(o, w, info, want).1
    ensures Seen(o, w, StepArch(o, w, info, want).0)
    ensures info.arch != ARCH ==> want.bucket && o.write(w.calls) == Done
  {
    WaitMeans(o, Change(o, w, SetArch, want).0, STATUS_READS);
  }

  lemma EndpointSeen(o: Oracle, w: World, info: Function, want: Want)
    requires ConfigureEndpoint(o, w, info, want).1.Ok?
    ensures Seen(o, w, ConfigureEndpoint(o, w, info, want).0)
  {
    WaitMeans(o, Change(o, w, SetEndpoint, want).0, STATUS_READS);
  }

  /** The flags that are understood. */
  lemma FlagsAre(s: string)
    ensures ParseBool(s) == Some(true) <==> s in {"1", "t", "T", "true", "TRUE", "True"}
    ensures ParseBool(s) == Some(false) <==> s in {"0", "f", "F", "false", "FALSE", "False"}
  {
  }

  lemma EffectTwice(f: Function, op: Op, want: Want)
    ensures Effect(Effect(f, op, want), op, want) == Effect(f, op, want)
  {
  }

  lemma EndpointResult(o: Oracle, w: World, info: Function, want: Want)
    requires info.endpoint == w.f.endpoint && ConfigureEndpoint(o, w, info, want).1.Ok?
    ensures var w' := ConfigureEndpoint(o, w, info, want).0;
            && w'.f.runtime == w.f.runtime && w'.f.handler == w.f.handler && w'.f.arch == w.f.arch
            && (RightEndpoint(w'.f, want) <==> RightEndpoint(w.f, want) || !o.write(w.calls).Failed?)
  {
    WaitKeeps(o, Change(o, w, SetEndpoint, want).0, STATUS_READS);
  }

  lemma RuntimeResult(o: Oracle, w: World, want: Want)
    ensures var f' := ChangeRuntime(o, w, want).0.f;
            f' == if AnyTook(o, w.calls, ATTEMPTS) then Effect(w.f, SetRuntime, want) else w.f
  {
    AttemptsSet(o, w, SetRuntime, want, ATTEMPTS);
    WaitKeeps(o, Attempts(o, w, SetRuntime, want, ATTEMPTS).0, STATUS_READS);
  }

  lemma ArchResult(o: Oracle, w: World, want: Want)
    requires ChangeArch(o, w, want).1
    ensures ChangeArch(o, w, want).0.f == Effect(w.f, SetArch, want)
  {
    WaitKeeps(o, Change(o, w, SetArch, want).0, STATUS_READS);
  }

  /** Configuring that reports success has set the architecture, but runtime and endpoint
      exactly if they were right before or a call to set them did not fail, for the runtime
      one of its attempts, for the endpoint its only call: the error of those calls is
      dropped for the result of a later status read. */
  lemma ConfigureResult(o: Oracle, w: World, want: Want)
    requires Configure(o, w, want).1.Ok?
    ensures var w' := Configure(o, w, want).0;
            && w'.f.arch == ARCH
            && (RightRuntime(w'.f) <==> RightRuntime(w.f) || AnyTook(o, w.calls + 1, ATTEMPTS))
            && (RightEndpoint(w'.f, want) <==>
                RightEndpoint(w.f, want) || !o.write(BeforeEndpoint(o, w, want).calls).Failed?)
  {
    var w0 := Ask(o, w).0;
    RuntimeResult(o, w0, want);
    var w1 := StepRuntime(o, w0, want).0;
    assert w1.f.endpoint == w0.f.endpoint && (RightRuntime(w1.f) <==> RightRuntime(w.f) || AnyTook(o, w.calls + 1, ATTEMPTS));
    if w0.f.arch != ARCH {
      ArchResult(o, w1, want);
    }
    EndpointResult(o, BeforeEndpoint(o, w, want), w0.f, want);
  }

  /** For a function that is right but for its endpoint, every write failing and every read
      succeeding: configuring reports success and has changed nothing. */
  lemma FailedEndpointReported(o: Oracle, w: World, want: Want)
    requires w.f.runtime == RUNTIME && w.f.handler == HANDLER && w.f.arch == ARCH
    requires w.f.endpoint == Some("false") && want.endpoint
    requires forall t :: o.read(t) && o.status(t) == Successful && o.write(t) == Failed(false)
    ensures Configure(o, w, want).1 == Ok && Configure(o, w, want).0.f == w.f
    ensures !RightEndpoint(Configure(o, w, want).0.f, want)
  {
  }

  /** The same for a function that is right but for its runtime. */
  lemma FailedRuntimeReported(o: Oracle, w: World, want: Want)
    requires w.f.runtime != RUNTIME && w.f.arch == ARCH && RightEndpoint(w.f, want)
    requires forall t :: o.read(t) && o.status(t) == Successful && o.write(t) == Failed(false)
    ensures Configure(o, w, want).1 == Ok && Configure(o, w, want).0.f == w.f
  {
    RuntimeResult(o, Ask(o, w).0, want);
  }

  /** Whether an operation is among the calls made since position t. */
  predicate Made(log: seq<Op>, t: nat, op: Op) { exists k :: t <= k < |log| && log[k] == op }

  predicate AllSetRole(ops: seq<Op>) { forall k :: 0 <= k < |ops| ==> ops[k].SetRole? }

  lemma {:induction false} AttemptsLog(o: Oracle, w: World, want: Want, n: nat) returns (roles: seq<Op>)
    requires n > 0
    ensures Attempts(o, w, SetRole, want, n).0.log == w.log + roles && roles != [] && AllSetRole(roles)
    decreases n
  {
    roles := [SetRole];
    if Again(o.write(w.calls)) && n > 1 {
      var more := AttemptsLog(o, Change(o, w, SetRole, want).0, want, n - 1);
      roles := roles + more;
      assert w.log + [SetRole] + more == w.log + roles;
    }
  }

  lemma RoleAndCodeResult(o: Oracle, w: World, deployed: string, want: Want) returns (roles: seq<Op>)
    requires RoleAndCode(o, w, deployed, want).1.Ok?
    ensures var w' := RoleAndCode(o, w, deployed, want).0;
            var uploads := deployed != want.target && deployed != want.target + "#";
            && w'.f.role == (if HasMark(deployed) then want.role else w.f.role)
            && w'.f.tag == (if uploads then want.target else w.f.tag)
            && (uploads ==> w'.f.code == want.target)
            && AllSetRole(roles) && (roles != [] <==> HasMark(deployed))
            && w'.log == w.log + roles + (if uploads then [UploadCode, SetTag] else [])
  {
    roles := [];
    if HasMark(deployed) {
      roles := AttemptsLog(o, w, want, ATTEMPTS);
      AttemptsSet(o, w, SetRole, want, ATTEMPTS);
    }
    var w1 := if HasMark(deployed) then Attempts(o, w, SetRole, want, ATTEMPTS).0 else w;
    assert w1.log == w.log + roles;
    if deployed != want.target && deployed != want.target + "#" {
      UploadResult(o, w1, want);
    }
  }

  lemma UploadResult(o: Oracle, w: World, want: Want)
    requires Upload(o, w, want).1.Ok?
    ensures var w' := Upload(o, w, want).0;
            w'.f == w.f.(code := want.target, tag := want.target) && w'.log == w.log + [UploadCode, SetTag]
  {
  }

  /** Marks are ambiguous for these functions: a target tag that already ends in "#",
      or a tag that is the target without its own final "#". */
  predicate Ambiguous(f: Function, target: string, role: string) {
    (f.tag == target + "#" && f.role == role) || (f.tag + "#" == target && f.role != role)
  }

  /** A pass over an existing function with a tag: nothing if Fetch finds the target, else
      Update. */
  function Pass(o: Oracle, w: World, want: Want): (World, Outcome) {
    var (w1, known, found) := Fetch(o, w, want);
    match found
    case None => (w1, Error)
    case Some(deployed) => if deployed == known.target then (w1, Ok) else Update(o, w1, deployed, known)
  }

  /** The role wanted: the one that is known, or the answer to the look-up, which is the
      call after the read of the tag. */
  predicate IsWanted(o: Oracle, w: World, want: Want, role: string) {
    if want.role != "" then role == want.role else o.arn(w.calls + 1) == Some(role)
  }

  /** A Fetch that succeeds finds the tag, with a mark exactly if the function has another
      role than the one wanted; it fails exactly if one of its calls does. */
  lemma FetchSees(o: Oracle, w: World, want: Want)
    ensures var (w', known, found) := Fetch(o, w, want);
            && w'.f == w.f && w'.log == w.log
            && (found.Some? ==>
                  && IsWanted(o, w, want, known.role) && known == want.(role := known.role)
                  && found.value == w.f.tag + (if w.f.tag != "" && w.f.role != known.role then "#" else ""))
            && (found.Some? <==>
                  && o.read(w.calls)
                  && (want.role == "" ==> o.arn(w.calls + 1).Some?)
                  && (w.f.tag != "" ==> o.read(w.calls + if want.role == "" then 2 else 1)))
            && w'.calls == w.calls + 1
                           + (if o.read(w.calls) && want.role == "" then 1 else 0)
                           + (if o.read(w.calls) && (want.role == "" ==> o.arn(w.calls + 1).Some?) && w.f.tag != "" then 1 else 0)
  {
    assert w.f.tag + "" == w.f.tag;
  }

  /** A successful pass leaves the wanted role and tag, so that the next Fetch finds
      the target version, exactly if the marks were not ambiguous. */
  lemma PassConverges(o: Oracle, w: World, want: Want, role: string)
    requires w.f.tag != "" && Pass(o, w, want).1.Ok? && IsWanted(o, w, want, role)
    ensures var f' := Pass(o, w, want).0.f;
            (f'.tag == want.target && f'.role == role) <==> !Ambiguous(w.f, want.target, role)
  {
    FetchSees(o, w, want);
    var (w1, known, found) := Fetch(o, w, want);
    var d := DeployedVersion(w.f, known);
    if d != known.target {
      ConfigureKeeps(o, w1, known);
      var _ := RoleAndCodeResult(o, Configure(o, w1, known).0, d, known);
      LastMark(w.f.tag);
    }
  }

  lemma LastMark(s: string)
    ensures HasMark(s + "#") && (s + "#")[..|s|] == s
  {
  }

  /** For an unmarked tag and any target: a successful update makes the next Fetch find
      exactly the target; it re-points the role iff it differed, and uploads code
      iff the tag differed. */
  lemma UpdateConverges(o: Oracle, w: World, want: Want)
    requires w.f.tag != "" && !HasMark(w.f.tag)
    requires DeployedVersion(w.f, want) != want.target
    requires Update(o, w, DeployedVersion(w.f, want), want).1.Ok?
    ensures var w' := Update(o, w, DeployedVersion(w.f, want), want).0;
            && DeployedVersion(w'.f, want) == want.target
            && (Made(w'.log, |w.log|, SetRole) <==> w.f.role != want.role)
            && (Made(w'.log, |w.log|, UploadCode) <==> w.f.tag != want.target)
            && (w.f.tag != want.target ==> w'.f.code == want.target)
  {
    var d := DeployedVersion(w.f, want);
    var w1 := Configure(o, w, want).0;
    ConfigureKeeps(o, w, want);
    var roles := RoleAndCodeResult(o, w1, d, want);
    LastMark(w.f.tag);
    LastMark(want.target);
    CallsMade(w.log, w1.log, Update(o, w, d, want).0.log, roles, w.f.tag != want.target);
  }

  /** Which calls a log that is made up of configuring, role and code calls shows. */
  lemma CallsMade(log: seq<Op>, log1: seq<Op>, log2: seq<Op>, roles: seq<Op>, upload: bool)
    requires log <= log1 && forall k :: |log| <= k < |log1| ==> Configuring(log1[k])
    requires AllSetRole(roles) && log2 == log1 + roles + (if upload then [UploadCode, SetTag] else [])
    ensures Made(log2, |log|, SetRole) <==> roles != []
    ensures Made(log2, |log|, UploadCode) <==> upload
  {
    assert roles != [] ==> log2[|log1|] == SetRole;
    assert upload ==> log2[|log2| - 2] == UploadCode;
  }

  /** An upload: the code, a read of the function, and the tag, each only if all before it
      went well, and success iff all do. */
  lemma UploadMeans(o: Oracle, w: World, want: Want)
    ensures var (w', outcome) := Upload(o, w, want);
            var t := w.calls;
            var coded := want.bucket && o.write(t) == Done;
            && w'.log == w.log + (if want.bucket then [UploadCode] else []) + (if coded && o.read(t + 1) then [SetTag] else [])
            && outcome == (if coded && o.read(t + 1) && o.write(t + 2) == Done then Ok else Error)
            && w'.calls == t + (if want.bucket then 1 else 0) + (if coded then 1 else 0) + (if coded && o.read(t + 1) then 1 else 0)
  {
    assert w.log + [] == w.log;
  }

  /** A tag that claims the target version is true of the code. */
  predicate TagHonest(f: Function, want: Want) { f.tag == want.target ==> f.code == want.target }

  lemma UploadStaysHonest(o: Oracle, w: World, want: Want)
    requires TagHonest(w.f, want)
    ensures TagHonest(Upload(o, w, want).0.f, want)
  {
  }

  lemma RoleAndCodeStaysHonest(o: Oracle, w: World, deployed: string, want: Want)
    requires TagHonest(w.f, want)
    ensures TagHonest(RoleAndCode(o, w, deployed, want).0.f, want)
  {
    AttemptsSet(o, w, SetRole, want, ATTEMPTS);
    var w1 := if HasMark(deployed) then Attempts(o, w, SetRole, want, ATTEMPTS).0 else w;
    assert TagHonest(w1.f, want);
    UploadStaysHonest(o, w1, want);
  }

  /** Whatever fails, the tag never runs ahead of the code. */
  lemma UpdateStaysHonest(o: Oracle, w: World, deployed: string, want: Want)
    requires TagHonest(w.f, want)
    ensures TagHonest(Update(o, w, deployed, want).0.f, want)
  {
    ConfigureKeeps(o, w, want);
    RoleAndCodeStaysHonest(o, Configure(o, w, want).0, deployed, want);
  }

  /** Every call succeeds at once. */
  ghost predicate NothingFails(o: Oracle) {
    forall t :: o.read(t) && o.arn(t).Some? && o.status(t) == Successful && o.write(t) == Done
  }

  /** How an update ends in which no call fails: it crashes exactly if the function has no
      endpoint variable, it fails exactly if that is no flag or there is no bucket for code
      that is needed, and otherwise all is as wanted. */
  lemma GoodUpdate(o: Oracle, w: World, deployed: string, want: Want)
    requires NothingFails(o)
    ensures var (w', outcome) := Update(o, w, deployed, want);
            var uploads := deployed != want.target && deployed != want.target + "#";
            var stuck := w.f.arch != ARCH && !want.bucket;
            && (outcome.Crash? <==> !stuck && w.f.endpoint.None?)
            && (outcome.Ok? <==>
                  && !stuck && w.f.endpoint.Some? && ParseBool(w.f.endpoint.value).Some? && (uploads ==> want.bucket))
            && (outcome.Ok? ==>
                  && RightRuntime(w'.f) && w'.f.arch == ARCH && RightEndpoint(w'.f, want)
                  && (HasMark(deployed) ==> w'.f.role == want.role)
                  && (uploads ==> w'.f.tag == want.target && w'.f.code == want.target))
  {
    GoodConfigure(o, w, want);
    var (w1, c) := Configure(o, w, want);
    if c.Ok? {
      GoodRoleAndCode(o, w1, deployed, want);
    }
  }

  lemma GoodRoleAndCode(o: Oracle, w: World, deployed: string, want: Want)
    requires NothingFails(o)
    ensures var (w', outcome) := RoleAndCode(o, w, deployed, want);
            var uploads := deployed != want.target && deployed != want.target + "#";
            && outcome == (if uploads && !want.bucket then Error else Ok)
            && (outcome.Ok? ==>
                  w'.f == w.f.(role := if HasMark(deployed) then want.role else w.f.role,
                               tag := if uploads then want.target else w.f.tag,
                               code := if uploads then want.target else w.f.code))
  {
  }

  lemma GoodConfigure(o: Oracle, w: World, want: Want)
    requires NothingFails(o)
    ensures var (w', outcome) := Configure(o, w, want);
            var stuck := w.f.arch != ARCH && !want.bucket;
            && (outcome.Crash? <==> !stuck && w.f.endpoint.None?)
            && (outcome.Ok? <==> !stuck && w.f.endpoint.Some? && ParseBool(w.f.endpoint.value).Some?)
            && (outcome.Ok? ==>
                  && w'.f.runtime == "provided.al2" && w'.f.handler == "bootstrap" && w'.f.arch == "arm64"
                  && RightEndpoint(w'.f, want)
                  && w'.log == w.log + (if RightRuntime(w.f) then [] else [SetRuntime])
                                     + (if w.f.arch == ARCH then [] else [SetArch])
                                     + (if RightEndpoint(w.f, want) then [] else [SetEndpoint])
                  && w'.f.code == if w.f.arch == ARCH then w.f.code else want.target)
  {
    var w0 := Ask(o, w).0;
    RuntimeResult(o, w0, want);
    if Configure(o, w, want).1.Ok? {
      ConfigureResult(o, w, want);
      var w1 := StepRuntime(o, w0, want).0;
      assert w1.log == w.log + (if RightRuntime(w.f) then [] else [SetRuntime]);
      var w2 := StepArch(o, w1, w0.f, want).0;
      assert w2.log == w1.log + (if w.f.arch == ARCH then [] else [SetArch]);
    }
  }

  /** The ambiguous case in the concrete: a pass succeeds and changes neither tag nor
      role, so every later pass updates again. */
  lemma MarkedTagNeverSettles(o: Oracle, w: World, want: Want)
    requires w.f.tag == want.target + "#" && IsWanted(o, w, want, w.f.role) && Pass(o, w, want).1.Ok?
    ensures var f' := Pass(o, w, want).0.f;
            f'.tag == w.f.tag && f'.role == w.f.role && f'.tag != want.target
  {
    FetchSees(o, w, want);
    var (w1, known, found) := Fetch(o, w, want);
    LastMark(want.target);
    ConfigureKeeps(o, w1, known);
    var _ := RoleAndCodeResult(o, Configure(o, w1, known).0, w.f.tag, known);
  }
}
