/** What holds of one PR's world between any two calls of the operator, and how single calls keep it. */
module Invariants {
  import opened Types
  import opened Api
  import opened Names
  import opened Conditions
  import opened Handlers

  // ---------------------------------------------------------------- the invariant

  /** Phases in which services run or are being deployed. */
  predicate Live(p: Phase) {
    p == Deploying || p == Running || p == Degraded
  }

  /** The PRStack exists and carries the operator's finalizer. */
  predicate Held(w: World) {
    w.stack.Some? && FINALIZER in w.stack.value.finalizers
  }

  /** Phases that a deployment concludes with. */
  predicate Served(p: Phase) {
    p == Running || p == Degraded
  }

  /** The deployed config map holds the connection and the databases. */
  predicate Configured(pr: string, c: Credentials, n: Namespace) {
    MONGO_CONFIG in n.objects && n.objects[MONGO_CONFIG] == MongoConfig(pr, c).content
  }

  /** The status, the Mongo user and the secret hold one password; the user is granted exactly the PR's databases,
      which exist; all three connection blocks are set; once the services are deployed, so is their config map. */
  predicate CredentialsAgree(pr: string, status: Status, w: World) {
    && status.mongo.Some? && status.nats.Some? && status.redis.Some?
    && var c := status.mongo.value;
    && c == CredentialsFor(pr, c.password)
    && w.user == Some(MongoUser(c.password, Granted(pr)))
    && w.ns.Some? && MONGO_SECRET in w.ns.value.secrets
    && w.ns.value.secrets[MONGO_SECRET] == Secret(c.user, c.password)
    && SetOf(Granted(pr)) <= w.dbs
    && (Served(status.phase) ==> Configured(pr, c, w.ns.value))
  }

  predicate HasRunning(services: seq<ServiceStatus>) {
    exists i :: 0 <= i < |services| && services[i].running
  }

  predicate ServicesFit(status: Status) {
    && (status.phase == Running ==> status.services != [] && AllRunning(status.services))
    && (status.phase == Degraded ==> !AllRunning(status.services) && HasRunning(status.services))
  }

  predicate ConditionsFit(status: Status) {
    && Distinct(status.conditions)
    && (status.phase == Running ==> Is(status.conditions, READY, true) && Is(status.conditions, DEGRADED, false))
    && (status.phase == Degraded ==> Is(status.conditions, READY, true) && Is(status.conditions, DEGRADED, true))
    && (status.phase == Failed ==> Is(status.conditions, READY, false) && Is(status.conditions, DEGRADED, true))
  }

  predicate TimesFit(status: Status, now: int) {
    && (status.createdAt.Some? <==> status.lastActiveAt.Some?)
    && (status.createdAt.Some? ==> status.createdAt.value <= status.lastActiveAt.value <= now)
    && TimedBy(status.conditions, now)
  }

  /** What a status promises by itself. Only deleted stacks are in the cleanup phases. */
  predicate StatusFits(status: Status, deleted: bool, now: int) {
    && (status.phase == Cleaning || status.phase == Cleaned ==> deleted)
    && ServicesFit(status)
    && ConditionsFit(status)
    && TimesFit(status, now)
  }

  predicate StackFits(pr: string, w: World, st: Stack) {
    && Once(st.finalizers) && (st.deleted ==> st.finalizers != [])
    && 0 < st.born <= st.version <= w.rv
    && StatusFits(st.status, st.deleted, w.now)
    && (Live(st.status.phase) ==> CredentialsAgree(pr, st.status, w) && FINALIZER in st.finalizers)
  }

  /** Outside the reach of the finalizer, a namespace or user exists exactly when cleanup swallowed its error. */
  predicate LeaksKnown(w: World) {
    && (w.meter.nsSwallowed ==> w.ns.Some?)
    && (w.meter.dropSwallowed ==> w.user.Some?)
    && (!Held(w) ==> (w.ns.Some? <==> w.meter.nsSwallowed) && (w.user.Some? <==> w.meter.dropSwallowed))
  }

  predicate Pending(st: Option<Stack>) {
    st.Some? && ShouldRollout(st.value)
  }

  /** Expiry renewals: each found the stack expired more than one period after the time the previous one stored. */
  predicate Spaced(renewals: seq<Renewal>) {
    && (forall i :: 0 <= i < |renewals| ==> renewals[i].at <= renewals[i].read)
    && (forall i :: 0 < i < |renewals| ==>
          && renewals[i - 1].read <= renewals[i].at
          && renewals[i - 1].at + EXPIRATION < renewals[i].read)
  }

  function Last<T>(s: seq<T>): T
    requires s != []
  {
    s[|s| - 1]
  }

  predicate MeterFits(w: World) {
    && w.meter.unfinished == 0
    && w.meter.rollouts + (if Pending(w.stack) then 1 else 0) <= w.meter.deployWrites
    && Spaced(w.meter.renewals)
    && (w.meter.renewals != [] ==>
          && Last(w.meter.renewals).read <= w.now
          && (w.stack.Some? && w.stack.value.status.lastActiveAt.Some? ==>
                Last(w.meter.renewals).at <= w.stack.value.status.lastActiveAt.value))
  }

  /** Only the granted databases are ever created. */
  predicate DbsWithin(pr: string, w: World) {
    w.dbs <= SetOf(Granted(pr))
  }

  /** A deployment is told the database of its name; only those of NATS and Redis may be told none. */
  predicate Told(pr: string, name: string, d: Deployment) {
    d.database == Some(DatabaseName(name, pr)) || (d.database.None? && name in {"nats", "redis"})
  }

  predicate AllTold(pr: string, ns: Option<Namespace>) {
    ns.Some? ==> forall name :: name in ns.value.deployments ==> Told(pr, name, ns.value.deployments[name])
  }

  datatype Claim = ObjectClaim | LeakClaim | HistoryClaim | DbClaim | EnvClaim

  ghost predicate Holds(c: Claim, pr: string, w: World) {
    match c
    case ObjectClaim => w.stack.Some? ==> StackFits(pr, w, w.stack.value)
    case LeakClaim => LeaksKnown(w)
    case HistoryClaim => MeterFits(w)
    case DbClaim => DbsWithin(pr, w)
    case EnvClaim => AllTold(pr, w.ns)
  }

  /** The invariant: every claim holds. Stated as one quantifier so that proofs which only pass it on need not
      look inside; `InvFacts` and `InvFrom` open and close it. */
  ghost predicate Inv(pr: string, w: World) {
    forall c: Claim :: Holds(c, pr, w)
  }

  lemma InvFacts(pr: string, w: World)
    requires Inv(pr, w)
    ensures w.stack.Some? ==> StackFits(pr, w, w.stack.value)
    ensures LeaksKnown(w) && MeterFits(w) && DbsWithin(pr, w) && AllTold(pr, w.ns)
  {
    assert Holds(ObjectClaim, pr, w) && Holds(LeakClaim, pr, w) && Holds(HistoryClaim, pr, w) && Holds(DbClaim, pr, w);
    assert Holds(EnvClaim, pr, w);
  }

  lemma InvFrom(pr: string, w: World)
    requires w.stack.Some? ==> StackFits(pr, w, w.stack.value)
    requires LeaksKnown(w) && MeterFits(w) && DbsWithin(pr, w) && AllTold(pr, w.ns)
    ensures Inv(pr, w)
  {
  }

  // ---------------------------------------------------------------- growth of one object over time

  predicate StatusGrows(a: Status, b: Status) {
    && (a.createdAt.Some? ==> b.createdAt == a.createdAt)
    && (a.lastActiveAt.Some? ==> b.lastActiveAt.Some? && a.lastActiveAt.value <= b.lastActiveAt.value)
    && (a.mongo.Some? ==> b.mongo.Some?) && (a.nats.Some? ==> b.nats.Some?) && (a.redis.Some? ==> b.redis.Some?)
  }

  /** `b` comes after `a`: an object of `b` is either the same, grown, or one created since. */
  predicate Grows(a: World, b: World) {
    && a.now <= b.now && a.rv <= b.rv && a.dbs <= b.dbs
    && (b.stack.Some? && b.stack.value.born <= a.rv ==>
          && a.stack.Some? && a.stack.value.born == b.stack.value.born
          && StatusGrows(a.stack.value.status, b.stack.value.status)
          && (a.stack.value.deleted ==> b.stack.value.deleted))
  }

  /** Growth without an expiry or an expiry renewal. */
  predicate Ages(a: World, b: World) {
    Grows(a, b) && b.meter.expiries == a.meter.expiries && b.meter.renewals == a.meter.renewals
  }

  lemma AgesTransitive(a: World, b: World, c: World)
    requires Ages(a, b) && Ages(b, c)
    ensures Ages(a, c)
  {
  }

  // ---------------------------------------------------------------- what users are assumed to do

  /** Either users act freely, or they keep `Active` at one value and do not delete; `valid` also keeps the
      quantities of the spec parsable. */
  datatype Mode = Free | Steady(active: bool, valid: bool)

  predicate ValidSpec(spec: Spec) {
    spec.limitsParse && (spec.backup ==> spec.storageParses)
  }

  predicate SpecIn(spec: Spec, mode: Mode) {
    mode.Steady? ==> spec.active == mode.active && (mode.valid ==> ValidSpec(spec))
  }

  predicate EditIn(e: Edit, mode: Mode) {
    mode.Steady? ==> !e.Delete? && (e.EditSpec? ==> SpecIn(e.spec, mode))
  }

  predicate TapeIn(tape: seq<Tick>, mode: Mode) {
    forall i, j :: 0 <= i < |tape| && 0 <= j < |tape[i].edits| ==> EditIn(tape[i].edits[j], mode)
  }

  predicate WorldIn(w: World, mode: Mode) {
    mode.Steady? ==> w.stack.Some? && !w.stack.value.deleted && SpecIn(w.stack.value.spec, mode)
  }

  // ---------------------------------------------------------------- the operator's copy

  /** The operator's copy is of the present object, at its present version or an older one. */
  predicate Tracks(w: World, st: Stack) {
    && Held(w)
    && st.version <= w.stack.value.version
    && st.born == w.stack.value.born
    && (st.deleted ==> w.stack.value.deleted)
    && (st.version == w.stack.value.version ==>
          && w.stack.value.spec == st.spec
          && w.stack.value.finalizers == st.finalizers
          && w.stack.value.deleted == st.deleted)
  }

  /** The server's status; that of a new object if there is none. */
  function Server(s: Sys): Status {
    if s.w.stack.Some? then s.w.stack.value.status else NEW_STATUS
  }

  datatype Part = InvPart | AgePart | ModePart

  ghost predicate Sure(p: Part, pr: string, w0: World, s: Sys, mode: Mode) {
    match p
    case InvPart => Inv(pr, s.w)
    case AgePart => Ages(w0, s.w)
    case ModePart => WorldIn(s.w, mode) && TapeIn(s.tape, mode)
  }

  /** What every state of a `Reconcile` that started at `w0` promises; opened by `Open` and closed by `Close`. */
  ghost predicate Promise(pr: string, w0: World, s: Sys, mode: Mode) {
    forall p: Part :: Sure(p, pr, w0, s, mode)
  }

  lemma Open(pr: string, w0: World, s: Sys, mode: Mode)
    requires Promise(pr, w0, s, mode)
    ensures Inv(pr, s.w) && Ages(w0, s.w) && WorldIn(s.w, mode) && TapeIn(s.tape, mode)
  {
    assert Sure(InvPart, pr, w0, s, mode) && Sure(AgePart, pr, w0, s, mode) && Sure(ModePart, pr, w0, s, mode);
  }

  lemma Close(pr: string, w0: World, s: Sys, mode: Mode)
    requires Inv(pr, s.w) && Ages(w0, s.w) && WorldIn(s.w, mode) && TapeIn(s.tape, mode)
    ensures Promise(pr, w0, s, mode)
  {
  }

  /** The object has moved on since the copy was read. */
  predicate Stale(w: World, st: Stack) {
    w.stack.Some? && st.version < w.stack.value.version
  }

  /** The state of a `Reconcile` that has secured the finalizer. */
  ghost predicate Good(pr: string, w0: World, s: Sys, st: Stack, mode: Mode) {
    Promise(pr, w0, s, mode) && Tracks(s.w, st)
  }

  // ---------------------------------------------------------------- users' steps keep the invariant

  /** The parts of a world that only the operator's own calls change. */
  predicate SameSides(a: World, b: World) {
    && b.ns == a.ns && b.user == a.user && b.dbs == a.dbs
    && b.meter == a.meter.(deployWrites := b.meter.deployWrites)
  }

  /** A user's write to an existing object: the status and the operator's finalizer stay. */
  predicate Rewritten(w: World, v: World) {
    && w.stack.Some? && SameSides(w, v) && v.now == w.now && v.rv == w.rv + 1
    && var x := w.stack.value;
    && (v.stack.None? ==> FINALIZER !in x.finalizers && v.meter == w.meter)
    && (v.stack.Some? ==>
          && var y := v.stack.value;
          && y.status == x.status && y.born == x.born && y.version == v.rv && (x.deleted ==> y.deleted)
          && (y.deleted ==> y.finalizers != [])
          && Once(y.finalizers) && (FINALIZER in y.finalizers <==> FINALIZER in x.finalizers)
          && v.meter.deployWrites ==
             w.meter.deployWrites + if y.spec.deployedAt == x.spec.deployedAt then 0 else 1)
  }

  lemma RewrittenKeeps(pr: string, w: World, v: World)
    requires Inv(pr, w) && Rewritten(w, v)
    ensures Inv(pr, v)
    ensures Ages(w, v)
  {
    InvFacts(pr, w);
    if v.stack.Some? {
      var x, y := w.stack.value, v.stack.value;
      assert StackFits(pr, w, x) && MeterFits(w);
      assert Live(y.status.phase) ==> CredentialsAgree(pr, y.status, v);
      assert StackFits(pr, v, y);
    }
    InvFrom(pr, v);
  }

  lemma EditRewrites(w: World, spec: Spec)
    requires w.stack.Some? && Once(w.stack.value.finalizers)
    requires w.stack.value.deleted ==> w.stack.value.finalizers != []
    ensures Rewritten(w, Apply(w, EditSpec(spec)))
  {
  }

  lemma DeleteRewrites(w: World)
    requires w.stack.Some? && Once(w.stack.value.finalizers)
    ensures Apply(w, Delete) == w || Rewritten(w, Apply(w, Delete))
  {
  }

  lemma ReleaseRewrites(w: World, f: string)
    requires w.stack.Some? && Once(w.stack.value.finalizers)
    ensures Apply(w, Release(f)) == w || Rewritten(w, Apply(w, Release(f)))
  {
    RemoveKeepsOnce(w.stack.value.finalizers, f);
  }

  lemma ApplyRewrites(w: World, e: Edit)
    requires w.stack.Some? && Once(w.stack.value.finalizers)
    requires w.stack.value.deleted ==> w.stack.value.finalizers != []
    ensures Apply(w, e) == w || Rewritten(w, Apply(w, e))
  {
    match e
    case EditSpec(spec) => EditRewrites(w, spec);
    case Delete => DeleteRewrites(w);
    case Create(spec, foreign) =>
    case Release(f) => ReleaseRewrites(w, f);
  }

  /** `v` is `w` with a new object. */
  lemma BornKeeps(pr: string, w: World, v: World, st: Stack)
    requires Inv(pr, w) && w.stack.None? && st.status == NEW_STATUS && !st.deleted && st.born == st.version == w.rv + 1
    requires FINALIZER !in multiset(st.finalizers)
    requires v == w.(stack := Some(st), rv := w.rv + 1, meter := v.meter)
    requires v.meter == w.meter.(deployWrites := w.meter.deployWrites + if st.spec.deployedAt.Some? then 1 else 0)
    ensures Inv(pr, v) && Ages(w, v) && SameSides(w, v) && v.now == w.now
  {
    InvFacts(pr, w);
    assert StackFits(pr, v, st);
    InvFrom(pr, v);
  }

  lemma CreateKeeps(pr: string, w: World, spec: Spec, foreign: seq<string>)
    requires Inv(pr, w) && w.stack.None? && FINALIZER !in foreign
    ensures var v := Apply(w, Create(spec, foreign));
            Inv(pr, v) && Ages(w, v) && SameSides(w, v) && v.now == w.now
  {
    assert FINALIZER !in multiset(foreign);
    BornKeeps(pr, w, Apply(w, Create(spec, foreign)), Stack(spec, NEW_STATUS, foreign, false, w.rv + 1, w.rv + 1));
  }

  lemma ApplyKeeps(pr: string, w: World, e: Edit, mode: Mode)
    requires Inv(pr, w)
    ensures var v := Apply(w, e);
            && Inv(pr, v) && Ages(w, v) && SameSides(w, v) && v.now == w.now
            && (WorldIn(w, mode) && EditIn(e, mode) ==> WorldIn(v, mode))
            && (Held(w) ==> Held(v) && v.stack.value.status == w.stack.value.status)
  {
    InvFacts(pr, w);
    if w.stack.Some? {
      ApplyRewrites(w, e);
      if Apply(w, e) != w { RewrittenKeeps(pr, w, Apply(w, e)); }
    } else if e.Create? && FINALIZER !in e.foreign {
      CreateKeeps(pr, w, e.spec, e.foreign);
    }
  }

  lemma ApplyTracks(w: World, e: Edit, st: Stack)
    requires Tracks(w, st) && w.stack.value.version <= w.rv && Once(w.stack.value.finalizers)
    ensures Tracks(Apply(w, e), st)
    ensures Stale(w, st) ==> Stale(Apply(w, e), st)
  {
    match e
    case EditSpec(spec) =>
    case Delete =>
    case Create(spec, foreign) =>
    case Release(f) => RemoveKeepsOnce(w.stack.value.finalizers, f);
  }

  lemma {:induction false} EditsKeep(pr: string, w: World, edits: seq<Edit>, mode: Mode)
    requires Inv(pr, w)
    requires forall j :: 0 <= j < |edits| ==> EditIn(edits[j], mode)
    ensures var v := ApplyAll(w, edits);
            && Inv(pr, v) && Ages(w, v) && SameSides(w, v) && v.now == w.now
            && (WorldIn(w, mode) ==> WorldIn(v, mode))
            && (Held(w) ==> Held(v) && v.stack.value.status == w.stack.value.status)
    decreases |edits|
  {
    if edits != [] {
      ApplyKeeps(pr, w, edits[0], mode);
      EditsKeep(pr, Apply(w, edits[0]), edits[1..], mode);
      AgesTransitive(w, Apply(w, edits[0]), ApplyAll(w, edits));
    }
  }

  lemma {:induction false} EditsTrack(pr: string, w: World, edits: seq<Edit>, st: Stack)
    requires Inv(pr, w) && Tracks(w, st)
    ensures Tracks(ApplyAll(w, edits), st)
    ensures Stale(w, st) ==> Stale(ApplyAll(w, edits), st)
    decreases |edits|
  {
    InvFacts(pr, w);
    if edits != [] {
      ApplyKeeps(pr, w, edits[0], Free);
      ApplyTracks(w, edits[0], st);
      EditsTrack(pr, Apply(w, edits[0]), edits[1..], st);
    }
  }

  lemma TimePasses(pr: string, w: World, now: int, mode: Mode)
    requires Inv(pr, w) && w.now <= now
    ensures var v := w.(now := now); Inv(pr, v) && Ages(w, v) && (WorldIn(w, mode) ==> WorldIn(v, mode))
  {
    InvFacts(pr, w);
    var v := w.(now := now);
    if w.stack.Some? {
      assert Live(w.stack.value.status.phase) ==> CredentialsAgree(pr, w.stack.value.status, v);
    }
    InvFrom(pr, v);
  }

  /** Time and users' steps keep the invariant. */
  lemma AfterKeeps(pr: string, s: Sys, mode: Mode)
    requires Inv(pr, s.w) && TapeIn(s.tape, mode)
    ensures var a := After(s);
            && Inv(pr, a.w) && Ages(s.w, a.w) && SameSides(s.w, a.w) && TapeIn(a.tape, mode)
            && (WorldIn(s.w, mode) ==> WorldIn(a.w, mode))
            && (Held(s.w) ==> Held(a.w) && a.w.stack.value.status == s.w.stack.value.status)
            && (s.tape != [] ==> a.w.now >= s.tape[0].now)
  {
    if s.tape != [] {
      var t := s.tape[0];
      var v := s.w.(now := if t.now > s.w.now then t.now else s.w.now);
      TimePasses(pr, s.w, v.now, mode);
      EditsKeep(pr, v, t.edits, mode);
      AgesTransitive(s.w, v, After(s).w);
    }
  }

  /** Reading the clock, or the time before a call. */
  lemma AfterGood(pr: string, w0: World, s: Sys, st: Stack, mode: Mode)
    requires Good(pr, w0, s, st, mode)
    ensures Good(pr, w0, After(s), st, mode)
    ensures Server(After(s)) == Server(s) && SameSides(s.w, After(s).w) && s.w.now <= After(s).w.now
    ensures Stale(s.w, st) ==> Stale(After(s).w, st)
  {
    Open(pr, w0, s, mode);
    AfterKeeps(pr, s, mode);
    AgesTransitive(w0, s.w, After(s).w);
    Close(pr, w0, After(s), mode);
    if s.tape != [] {
      var t := s.tape[0];
      var v := s.w.(now := if t.now > s.w.now then t.now else s.w.now);
      TimePasses(pr, s.w, v.now, mode);
      EditsTrack(pr, v, t.edits, st);
    }
  }

  // ---------------------------------------------------------------- calls that do not write the PRStack

  /** Calls that cannot disturb the agreement of credentials in a live phase. */
  predicate Harmless(pr: string, op: Op, status: Status) {
    match op
    case CreateObj(m) => Foreign(m) || (status.mongo.Some? && m in MongoManifests(pr, status.mongo.value))
    case UpdateObj(m) => Foreign(m) || (status.mongo.Some? && m in MongoManifests(pr, status.mongo.value))
    case GetObj(_) => true
    case ListDeployments => true
    case GetStack => true
    case _ => false
  }

  predicate Foreign(m: Manifest) {
    m.Ref() != SecretRef(MONGO_SECRET) && m.Ref() != ObjectRef(MONGO_CONFIG)
  }

  predicate Latched(w: World) {
    && (w.meter.nsSwallowed ==> w.ns.Some?)
    && (w.meter.dropSwallowed ==> w.user.Some?)
  }

  predicate ToldBy(pr: string, m: Manifest) {
    m.DeploymentManifest? ==> Told(pr, m.name, m.deployment)
  }

  /** Provisioning creates granted databases only, cleanup drops none of them, and deployments are told theirs. */
  predicate Lawful(pr: string, op: Op) {
    && !WritesStack(op)
    && (op.CreateObj? || op.UpdateObj? ==> ToldBy(pr, op.m))
    && (op.MakeDb? ==> op.name in SetOf(Granted(pr)))
    && (op.DropDb? ==> op.name !in SetOf(Granted(pr)))
  }

  /** The PRStack, the clock and the history stay, apart from the swallowed errors. */
  predicate SideStep(pr: string, w: World, v: World) {
    && (DbsWithin(pr, w) ==> w.dbs <= v.dbs && DbsWithin(pr, v))
    && (AllTold(pr, w.ns) ==> AllTold(pr, v.ns))
    && v.stack == w.stack && v.now == w.now && v.rv == w.rv
    && v.meter == w.meter.(nsSwallowed := v.meter.nsSwallowed, dropSwallowed := v.meter.dropSwallowed)
    && Latched(v)
  }

  lemma ExecSide(pr: string, w: World, op: Op, t: Tick)
    requires Lawful(pr, op) && Latched(w)
    ensures SideStep(pr, w, Exec(w, op, t).w)
  {
  }

  lemma SideStepKeeps(pr: string, w: World, v: World)
    requires Inv(pr, w) && Held(w) && SideStep(pr, w, v)
    requires Live(w.stack.value.status.phase) ==> CredentialsAgree(pr, w.stack.value.status, v)
    ensures Inv(pr, v) && Ages(w, v)
  {
    InvFacts(pr, w);
    InvFrom(pr, v);
  }

  /** The config map of the status, if it is there, is not lost. */
  predicate KeepsConfig(pr: string, status: Status, w: World, v: World) {
    status.mongo.Some? && w.ns.Some? && Configured(pr, status.mongo.value, w.ns.value) ==>
      v.ns.Some? && Configured(pr, status.mongo.value, v.ns.value)
  }

  /** The Mongo user, its secret and the databases are those of `w`, and the config map is not lost. */
  predicate SameAccess(pr: string, status: Status, w: World, v: World) {
    && KeepsConfig(pr, status, w, v)
    && v.user == w.user && w.dbs <= v.dbs && v.ns.Some? && w.ns.Some?
    && (MONGO_SECRET in w.ns.value.secrets ==>
          && MONGO_SECRET in v.ns.value.secrets
          && v.ns.value.secrets[MONGO_SECRET] == w.ns.value.secrets[MONGO_SECRET])
  }

  lemma ExecHarmless(pr: string, w: World, op: Op, t: Tick, status: Status)
    requires CredentialsAgree(pr, status, w) && Harmless(pr, op, status)
    ensures SameAccess(pr, status, w, Exec(w, op, t).w)
  {
  }

  lemma AccessKeeps(pr: string, status: Status, w: World, v: World)
    requires CredentialsAgree(pr, status, w) && SameAccess(pr, status, w, v)
    ensures CredentialsAgree(pr, status, v)
  {
  }

  /** From `a` to `r` by the effect of a call that does not write the PRStack. */
  predicate Beside(pr: string, a: Sys, r: Sys) {
    && SideStep(pr, a.w, r.w) && r.tape == a.tape
    && (Live(Server(a).phase) ==> SameAccess(pr, Server(a), a.w, r.w))
  }

  /** What a call leaves: the world before it or the world after it, perhaps marked by a swallowed error. */
  lemma CallWorld(s: Sys, op: Op)
    ensures var v := if Head(s).outcome.Fail? then After(s).w else Exec(After(s).w, op, Head(s)).w;
            Call(s, op).s.w == v || Call(s, op).s.w == Swallow(v, op)
    ensures Call(s, op).s.tape == After(s).tape
  {
  }

  lemma EffectBeside(pr: string, a: World, op: Op, t: Tick, status: Status)
    requires Lawful(pr, op) && Latched(a)
    ensures SideStep(pr, a, Exec(a, op, t).w) && SideStep(pr, a, a)
    ensures CredentialsAgree(pr, status, a) && Harmless(pr, op, status) ==>
              SameAccess(pr, status, a, Exec(a, op, t).w) && SameAccess(pr, status, a, a)
  {
    ExecSide(pr, a, op, t);
    if CredentialsAgree(pr, status, a) && Harmless(pr, op, status) { ExecHarmless(pr, a, op, t, status); }
  }

  lemma SwallowBeside(pr: string, a: World, v: World, op: Op, status: Status)
    requires SideStep(pr, a, v)
    ensures SideStep(pr, a, Swallow(v, op))
    ensures SameAccess(pr, status, a, v) ==> SameAccess(pr, status, a, Swallow(v, op))
  {
  }

  lemma CallBeside(pr: string, s: Sys, op: Op)
    requires Held(After(s).w) && Latched(After(s).w) && Lawful(pr, op)
    requires Live(Server(After(s)).phase) ==>
               Harmless(pr, op, Server(After(s))) && CredentialsAgree(pr, Server(After(s)), After(s).w)
    ensures Beside(pr, After(s), Call(s, op).s)
  {
    var a := After(s).w;
    EffectBeside(pr, a, op, Head(s), Server(After(s)));
    var v := if Head(s).outcome.Fail? then a else Exec(a, op, Head(s)).w;
    SwallowBeside(pr, a, v, op, Server(After(s)));
    CallWorld(s, op);
  }

  lemma BesideGood(pr: string, w0: World, a: Sys, r: Sys, st: Stack, mode: Mode)
    requires Good(pr, w0, a, st, mode) && Beside(pr, a, r)
    ensures Good(pr, w0, r, st, mode)
  {
    Open(pr, w0, a, mode);
    InvFacts(pr, a.w);
    if Live(Server(a).phase) { AccessKeeps(pr, Server(a), a.w, r.w); }
    SideStepKeeps(pr, a.w, r.w);
    AgesTransitive(w0, a.w, r.w);
    Close(pr, w0, r, mode);
  }

  lemma SideCall(pr: string, w0: World, s: Sys, op: Op, st: Stack, mode: Mode)
    requires Good(pr, w0, s, st, mode)
    requires Lawful(pr, op)
    requires Live(Server(s).phase) ==> Harmless(pr, op, Server(s))
    ensures Good(pr, w0, Call(s, op).s, st, mode)
    ensures Server(Call(s, op).s) == Server(s)
    ensures Stale(s.w, st) ==> Stale(Call(s, op).s.w, st)
    ensures s.w.now <= Call(s, op).s.w.now
    ensures s.w.meter.renewals == Call(s, op).s.w.meter.renewals
    ensures Live(Server(s).phase) ==> KeepsConfig(pr, Server(s), s.w, Call(s, op).s.w)
  {
    AfterGood(pr, w0, s, st, mode);
    Open(pr, w0, After(s), mode);
    InvFacts(pr, After(s).w);
    CallBeside(pr, s, op);
    BesideGood(pr, w0, After(s), Call(s, op).s, st, mode);
  }

  // ---------------------------------------------------------------- status writes

  /** The next call, a write of the copy, reaches the server and finds the version it expects. */
  predicate Lands(s: Sys, st: Stack) {
    Current(After(s).w, st) && !Head(s).outcome.Fail?
  }

  /** What a status write must meet, given its note for the history. */
  predicate NoteFits(w: World, st: Stack, note: Note) {
    w.stack.Some? &&
    var before, after := w.stack.value.status, st.status;
    match note
    case Plain => after.lastDeployedAt == before.lastDeployedAt
    case RolledOut =>
      && st.spec.deployedAt.Some? && st.spec.deployedAt != before.lastDeployedAt
      && after.lastDeployedAt == st.spec.deployedAt
      && AllRestarted(w.ns, st.spec.deployedAt)
    case Renewed(at, read) =>
      && after.lastDeployedAt == before.lastDeployedAt
      && after.lastActiveAt == Some(at) && at <= read <= w.now
      && before.lastActiveAt.Some? && read - before.lastActiveAt.value > EXPIRATION
      && (w.meter.renewals != [] ==> Last(w.meter.renewals).read <= at)
  }

  /** A first activity stamp comes after all renewals of earlier objects. */
  predicate StampFits(w: World, st: Stack) {
    w.meter.renewals != [] && w.stack.Some? && w.stack.value.status.lastActiveAt.None? && st.status.lastActiveAt.Some? ==>
      Last(w.meter.renewals).read <= st.status.lastActiveAt.value
  }

  predicate Writable(pr: string, w: World, st: Stack, note: Note) {
    && w.stack.Some?
    && StampFits(w, st)
    && StatusFits(st.status, st.deleted, w.now)
    && StatusGrows(w.stack.value.status, st.status)
    && (Live(st.status.phase) ==> CredentialsAgree(pr, st.status, w))
    && NoteFits(w, st, note)
  }

  /** `b` is `a` after the operator has written the status of `st`. */
  predicate Committed(a: World, b: World, st: Stack, note: Note) {
    && a.stack.Some?
    && b == a.(stack := Some(a.stack.value.(status := st.status, version := a.rv + 1)), rv := a.rv + 1,
               meter := Record(a, st, note))
  }

  lemma CommitMeter(a: World, b: World, st: Stack, note: Note)
    requires MeterFits(a) && Committed(a, b, st, note) && st.spec == a.stack.value.spec
    requires StampFits(a, st) && NoteFits(a, st, note) && StatusGrows(a.stack.value.status, st.status)
    ensures MeterFits(b)
  {
    var renewals := a.meter.renewals;
    if note.Renewed? {
      assert b.meter.renewals == renewals + [Renewal(note.at, note.read)];
      assert Last(b.meter.renewals) == Renewal(note.at, note.read);
    } else {
      assert b.meter.renewals == renewals;
    }
  }

  lemma CommitFits(pr: string, a: World, b: World, st: Stack, note: Note)
    requires Inv(pr, a) && Tracks(a, st) && st.version == a.stack.value.version && Writable(pr, a, st, note)
    requires Committed(a, b, st, note)
    ensures Inv(pr, b) && Grows(a, b) && (!note.Renewed? ==> Ages(a, b))
  {
    InvFacts(pr, a);
    CommitMeter(a, b, st, note);
    assert LeaksKnown(b);
    assert Live(st.status.phase) ==> CredentialsAgree(pr, st.status, b);
    assert StackFits(pr, b, b.stack.value);
    InvFrom(pr, b);
  }

  /** Writability does not depend on what users do before the write. */
  lemma WritableAfter(pr: string, a: World, b: World, st: Stack, note: Note)
    requires a.stack.Some? && b.stack.Some? && Writable(pr, a, st, note)
    requires b.stack.value.status == a.stack.value.status && SameSides(a, b) && a.now <= b.now
    ensures Writable(pr, b, st, note)
  {
    assert Live(st.status.phase) ==> CredentialsAgree(pr, st.status, b);
  }

  /** The fate of a status write: refused or lost before it, or committed. */
  lemma StatusCall(s: Sys, st: Stack, note: Note)
    ensures var a, r := After(s), UpdateStatus(s, st, note);
            && r.s.tape == a.tape
            && (r.s.w == a.w || (Current(a.w, st) && Committed(a.w, r.s.w, st, note)))
            && (r.ok ==> Current(a.w, st) && Committed(a.w, r.s.w, st, note) && r.st == r.s.w.stack.value)
            && (!r.ok ==> r.st == st && !Clean(s, r.s))
            && (!r.ok && NoFault(s, r.s) ==> r.s.w == a.w && !Current(a.w, st))
  {
  }

  /** A write that fits, applied to the state `a` it reaches. */
  lemma CommitGood(pr: string, w0: World, a: Sys, r: Sys, st: Stack, st': Stack, note: Note, mode: Mode)
    requires Good(pr, w0, a, st, mode) && Writable(pr, a.w, st, note) && Current(a.w, st)
    requires !note.Renewed? && Committed(a.w, r.w, st, note) && r.tape == a.tape && (st' == st || st' == r.w.stack.value)
    ensures Good(pr, w0, r, st', mode)
  {
    Open(pr, w0, a, mode);
    InvFacts(pr, a.w);
    CommitFits(pr, a.w, r.w, st, note);
    AgesTransitive(w0, a.w, r.w);
    Close(pr, w0, r, mode);
  }

  /** A status write that fits keeps everything, whatever its fate; when it succeeds the copy is fresh. */
  lemma StatusWrite(pr: string, w0: World, s: Sys, st: Stack, note: Note, mode: Mode)
    requires Good(pr, w0, s, st, mode) && Writable(pr, s.w, st, note) && !note.Renewed?
    ensures var r := UpdateStatus(s, st, note);
            && Good(pr, w0, r.s, r.st, mode)
            && r.s.w.ns == s.w.ns && r.s.w.user == s.w.user && r.s.w.dbs == s.w.dbs && s.w.now <= r.s.w.now
            && (Server(r.s) == Server(s) || Server(r.s) == st.status)
            && (r.ok ==> Server(r.s) == st.status && r.st == st.(version := r.st.version))
            && (r.ok ==> r.s.w.stack == Some(r.st))
            && (!r.ok ==> r.st == st && !Clean(s, r.s))
            && (Stale(s.w, st) ==> Server(r.s) == Server(s))
            && (!r.ok && NoFault(s, r.s) ==> Server(r.s) == Server(s) && Stale(r.s.w, r.st))
  {
    AfterGood(pr, w0, s, st, mode);
    StatusCall(s, st, note);
    var a, r := After(s), UpdateStatus(s, st, note);
    WritableAfter(pr, s.w, a.w, st, note);
    if Current(a.w, st) && Committed(a.w, r.s.w, st, note) {
      CommitGood(pr, w0, a, r.s, st, r.st, note, mode);
    } else {
      UnmovedGood(pr, w0, a, r.s, st, mode);
    }
  }

  lemma UnmovedGood(pr: string, w0: World, a: Sys, r: Sys, st: Stack, mode: Mode)
    requires Good(pr, w0, a, st, mode) && r.w == a.w && r.tape == a.tape
    ensures Good(pr, w0, r, st, mode)
  {
    Open(pr, w0, a, mode);
    Close(pr, w0, r, mode);
  }
}
