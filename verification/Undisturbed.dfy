/** Passes that nothing disturbs: no user acts, every call reaches its server, the operator does not die. No call of such
    a pass fails, so they bring a stack with a valid spec to Running, and leave one whose limits do not parse in Deploying
    for ever. */
module Undisturbed {
  import opened Types
  import opened Api
  import opened Names
  import opened Conditions
  import opened Handlers
  import opened Invariants
  import opened Staleness
  import opened Reconciling
  import opened Safety
  import opened Convergence
  import opened Expiry
  import A = Activity
  import D = Deploying

  // ---------------------------------------------------------------- calls of an undisturbed pass

  /** The spec stays, but for what an expiry does to it. */
  predicate SameSpec(w: World, v: World) {
    w.stack.Some? ==> v.stack.Some? && v.stack.value.spec == w.stack.value.spec.(active := v.stack.value.spec.active)
  }

  /** From `s` to `r` at most `n` ticks are taken, no call fails, and the spec stays. */
  predicate Easy(s: Sys, r: Sys, n: nat) {
    && Smooth(r.tape) && |r.tape| >= |s.tape| - n
    && Clean(s, r)
    && SameSpec(s.w, r.w)
  }

  /** And the whole PRStack stays. */
  predicate Aside(s: Sys, r: Sys, n: nat) {
    Easy(s, r, n) && r.w.stack == s.w.stack
  }

  predicate Enough(s: Sys, n: nat) {
    Smooth(s.tape) && |s.tape| >= n
  }

  predicate Full(ns: Option<Namespace>, tape: seq<Tick>) {
    ns.Some? ==> forall i :: 0 <= i < |tape| ==> IsListing(tape[i].order, ns.value.deployments.Keys)
  }

  /** Every List to come returns all deployments there are. */
  predicate Listable(s: Sys) {
    Full(s.w.ns, s.tape)
  }

  /** How many deployments there are. */
  function Size(ns: Option<Namespace>): nat {
    if ns.Some? then |ns.value.deployments.Keys| else 0
  }

  /** From `s` to `r` no deployment comes or goes. */
  predicate Level(s: Sys, r: Sys) {
    Size(r.w.ns) == Size(s.w.ns) && (r.w.ns.Some? <==> s.w.ns.Some?) && (Listable(s) ==> Listable(r))
  }

  lemma AsideCall(s: Sys, op: Op)
    requires Enough(s, 1) && !WritesStack(op)
    requires !Broken(op, Exec(s.w.(now := After(s).w.now), op, s.tape[0]).reply)
    ensures var c := Call(s, op);
            && Aside(s, c.s, 1) && (c.s.w.ns == s.w.ns ==> Level(s, c.s)) && c.s.tape == s.tape[1..]
            && Effect(c.s.w, c.reply) == Exec(s.w.(now := After(s).w.now), op, s.tape[0])
  {
    SmoothCall(s, op);
    SmoothAfter(s);
  }

  /** A status write of a current copy is committed. */
  lemma EasyStatus(s: Sys, x: Stack, note: Note)
    requires Enough(s, 1) && Current(s.w, x)
    ensures var u := UpdateStatus(s, x, note);
            && Easy(s, u.s, 1) && Level(s, u.s) && u.ok && u.s.w.stack == Some(u.st) && u.s.w.ns == s.w.ns
            && u.st == s.w.stack.value.(status := x.status, version := u.st.version)
  {
    SmoothCall(s, PutStatus(x, note));
    SmoothAfter(s);
  }

  /** So is a write of the finalizers, or of `Active`. */
  lemma EasyStack(s: Sys, x: Stack)
    requires Enough(s, 1) && Current(s.w, x) && !s.w.stack.value.deleted
    requires x.spec == s.w.stack.value.spec.(active := x.spec.active)
    ensures var u := UpdateStack(s, x);
            && Easy(s, u.s, 1) && Level(s, u.s) && u.ok && u.s.w.stack == Some(u.st) && u.s.w.ns == s.w.ns
            && u.st == s.w.stack.value.(spec := x.spec, finalizers := x.finalizers, version := u.st.version)
  {
    SmoothCall(s, PutStack(x));
    SmoothAfter(s);
  }

  // ---------------------------------------------------------------- objects of the namespace

  lemma EasyUpsert(s: Sys, m: Manifest)
    requires Enough(s, 2) && s.w.ns.Some?
    ensures var r := Upsert(s, m); r.ok && Aside(s, r.s, 2) && r.s.w.ns.Some?
  {
    AsideCall(s, CreateObj(m));
    var c := Call(s, CreateObj(m));
    if c.reply.Exists? { AsideCall(c.s, UpdateObj(m)); }
  }

  lemma {:induction false} EasyUpserts(s: Sys, ms: seq<Manifest>)
    requires Enough(s, 2 * |ms|) && s.w.ns.Some?
    ensures var r := UpsertAll(s, ms); r.ok && Aside(s, r.s, 2 * |ms|) && r.s.w.ns.Some?
    decreases |ms|
  {
    if ms != [] {
      EasyUpsert(s, ms[0]);
      EasyUpserts(Upsert(s, ms[0]).s, ms[1..]);
    }
  }

  lemma EasyVolume(s: Sys, spec: Spec)
    requires Enough(s, 2) && s.w.ns.Some?
    ensures var r := EnsureVolume(s, spec); Aside(s, r.s, 2) && r.s.w.ns.Some?
  {
    if spec.backup && spec.storageParses {
      AsideCall(s, GetObj(ObjectRef(VOLUME)));
      var g := Call(s, GetObj(ObjectRef(VOLUME)));
      if g.reply.NotFound? { AsideCall(g.s, CreateObj(ObjectManifest(VOLUME, Line("")))); }
    }
  }

  lemma {:induction false} EasyServices(cfg: Config, pr: string, s: Sys, spec: Spec, services: seq<string>)
    requires Enough(s, 6 * |services|) && s.w.ns.Some?
    ensures var r := DeployServices(cfg, pr, s, spec, services); Aside(s, r.s, 6 * |services|)
    decreases |services|
  {
    if services != [] && spec.limitsParse && !s.crashed {
      var ms := ServiceManifests(cfg, pr, spec, services[0]);
      assert |ms| <= 3;
      EasyUpserts(s, ms);
      EasyServices(cfg, pr, UpsertAll(s, ms).s, spec, services[1..]);
    }
  }

  // ---------------------------------------------------------------- lists of deployments

  lemma EasyList(s: Sys)
    requires Enough(s, 1) && Listable(s)
    ensures var l := Call(s, ListDeployments);
            && Aside(s, l.s, 1) && l.s.w.ns == s.w.ns && Level(s, l.s)
            && l.reply.Items? && |l.reply.items| == Size(s.w.ns) && A.Present(s.w.ns, l.reply.items)
  {
    AsideCall(s, ListDeployments);
  }

  /** An update of a deployment that exists. */
  lemma EasyUpdate(s: Sys, name: string, d: Deployment)
    requires Enough(s, 1) && s.w.ns.Some? && name in s.w.ns.value.deployments
    ensures var u := Call(s, UpdateObj(DeploymentManifest(name, d)));
            && Aside(s, u.s, 1) && Level(s, u.s) && u.reply.Done?
            && u.s.w.ns.Some? && u.s.w.ns.value.deployments.Keys == s.w.ns.value.deployments.Keys
  {
    AsideCall(s, UpdateObj(DeploymentManifest(name, d)));
    assert s.w.ns.value.deployments[name := d].Keys == s.w.ns.value.deployments.Keys;
  }

  lemma {:induction false} EasyRestarts(s: Sys, items: seq<Item>, at: int)
    requires Enough(s, |items|) && A.Present(s.w.ns, items)
    ensures var r := RestartEach(s, items, at); r.ok && Aside(s, r.s, |items|) && Level(s, r.s)
    decreases |items|
  {
    if items != [] {
      var d := items[0].deployment.(restartedAt := Some(at));
      EasyUpdate(s, items[0].name, d);
      EasyRestarts(Call(s, UpdateObj(DeploymentManifest(items[0].name, d))).s, items[1..], at);
    }
  }

  lemma {:induction false} EasyScales(s: Sys, items: seq<Item>, replicas: int)
    requires Enough(s, |items|) && A.Present(s.w.ns, items)
    ensures var r := ScaleEach(s, items, replicas); r.ok && Aside(s, r.s, |items|) && Level(s, r.s)
    decreases |items|
  {
    if items != [] {
      var d := items[0].deployment.(replicas := Some(replicas));
      if items[0].deployment.replicas == Some(replicas) {
        EasyScales(s, items[1..], replicas);
      } else {
        EasyUpdate(s, items[0].name, d);
        EasyScales(Call(s, UpdateObj(DeploymentManifest(items[0].name, d))).s, items[1..], replicas);
      }
    }
  }

  lemma EasyScaling(s: Sys, replicas: int)
    requires Enough(s, Size(s.w.ns) + 1) && Listable(s)
    ensures var r := ScaleDeployments(s, replicas); r.ok && Aside(s, r.s, Size(s.w.ns) + 1) && Level(s, r.s)
  {
    EasyList(s);
    var l := Call(s, ListDeployments);
    EasyScales(l.s, l.reply.items, replicas);
  }

  lemma EasyMatch(s: Sys, active: bool)
    requires Enough(s, Size(s.w.ns) + 2) && Listable(s)
    ensures Aside(s, MatchReplicas(s, active), Size(s.w.ns) + 2)
  {
    EasyList(s);
    EasyScaling(Call(s, ListDeployments).s, if active then 1 else 0);
  }

  lemma EasyRollout(s: Sys, st: Stack)
    requires Enough(s, Size(s.w.ns) + 2) && Listable(s) && s.w.stack == Some(st)
    ensures var r := Rollout(s, st);
            && r.ok && Easy(s, r.s, Size(s.w.ns) + 2) && Level(s, r.s) && r.s.w.stack == Some(r.st)
            && r.st == st.(status := r.st.status, version := r.st.version)
            && r.st.status == st.status.(lastDeployedAt := r.st.status.lastDeployedAt)
  {
    if ShouldRollout(st) {
      EasyList(s);
      var l := Call(s, ListDeployments);
      EasyRestarts(l.s, l.reply.items, st.spec.deployedAt.value);
      var d := RestartDeployments(s, st.spec.deployedAt.value);
      EasyStatus(d.s, st.(status := st.status.(lastDeployedAt := st.spec.deployedAt)), RolledOut);
    }
  }

  // ---------------------------------------------------------------- deployment

  /** A deployment under way, stopped or not. */
  predicate Going(s: Sys, i: Infra, n: nat) {
    Aside(s, i.s, n) && i.s.w.ns.Some?
  }

  lemma EasyStage(s: Sys, i: Infra, n: nat, ms: seq<Manifest>, what: string)
    requires Going(s, i, n) && Enough(s, n + 2 * |ms|)
    ensures Going(s, Stage(i, ms, what), n + 2 * |ms|)
  {
    if !i.Stopped() { EasyUpserts(i.s, ms); }
  }

  lemma EasyUrl(s: Sys, i: Infra, n: nat, name: string, url: Option<string>)
    requires Going(s, i, n) && Enough(s, n + 2)
    ensures Going(s, UrlStage(i, name, url), n + 2)
  {
    if url.Some? { EasyStage(s, i, n, [UrlManifest(name, url.value)], MONGO_FAILED); }
  }

  lemma EasyConfig(cfg: Config, pr: string, s: Sys, status: Status)
    requires Enough(s, 10) && s.w.ns.Some?
    ensures Going(s, DeployConfig(cfg, pr, s, status), 10)
  {
    var what := "Failed to create registry secret";
    EasyStage(s, Infra(s, None), 0, RegistryManifests(cfg), what);
    var c := Stage(Infra(s, None), RegistryManifests(cfg), what);
    if status.mongo.Some? { EasyStage(s, c, 2, MongoManifests(pr, status.mongo.value), MONGO_FAILED); }
    var m := if status.mongo.None? then Panic(c) else Stage(c, MongoManifests(pr, status.mongo.value), MONGO_FAILED);
    EasyUrl(s, m, 6, "nats-config", status.nats);
    EasyUrl(s, UrlStage(m, "nats-config", status.nats), 8, "redis-config", status.redis);
  }

  lemma EasyServers(pr: string, s: Sys, i: Infra, n: nat, spec: Spec)
    requires Going(s, i, n) && Enough(s, n + 10)
    ensures Going(s, DeployServers(pr, i, spec), n + 10)
  {
    var nats, redis := ServerManifests(pr, "nats", "nats:2.10-alpine"), ServerManifests(pr, "redis", "redis:7-alpine");
    EasyStage(s, i, n, nats, "Failed to create NATS resources");
    var a := Stage(i, nats, "Failed to create NATS resources");
    EasyStage(s, a, n + 4, redis, "Failed to create Redis resources");
    EasyVolume(Stage(a, redis, "Failed to create Redis resources").s, spec);
  }

  lemma EasyFinish(s: Sys, d: Services, n: nat, st: Stack)
    requires Aside(s, d.s, n) && Enough(s, n + 1) && s.w.stack == Some(st)
    ensures Easy(s, FinishDeployment(d, st), n + 1)
  {
    EasyStatus(d.s, Concluded(st, d.statuses, CountFailed(d.statuses), d.s.w.now), Plain);
  }

  lemma EasyRun(cfg: Config, pr: string, s: Sys, i: Infra, n: nat, st: Stack)
    requires Going(s, i, n) && Enough(s, n + 6 * |ServicesOf(st.spec)| + 1) && s.w.stack == Some(st)
    ensures Easy(s, RunServices(cfg, pr, i, st), n + 6 * |ServicesOf(st.spec)| + 1)
  {
    if i.failed.Some? {
      EasyStatus(i.s, WithError(st, i.failed.value, i.s.w.now), Plain);
    } else {
      EasyServices(cfg, pr, i.s, st.spec, ServicesOf(st.spec));
      EasyFinish(s, DeployServices(cfg, pr, i.s, st.spec, ServicesOf(st.spec)), n + 6 * |ServicesOf(st.spec)|, st);
    }
  }

  lemma EasyDeployment(cfg: Config, pr: string, s: Sys, st: Stack)
    requires s.w.stack == Some(st) && Enough(s, 21 + 6 * |ServicesOf(st.spec)|) && s.w.ns.Some?
    ensures Easy(s, HandleDeployment(cfg, pr, s, st), 21 + 6 * |ServicesOf(st.spec)|)
  {
    EasyConfig(cfg, pr, s, st.status);
    EasyServers(pr, s, DeployConfig(cfg, pr, s, st.status), 10, st.spec);
    EasyRun(cfg, pr, s, DeployServers(pr, DeployConfig(cfg, pr, s, st.status), st.spec), 20, st);
  }

  // ---------------------------------------------------------------- initialization and provisioning

  lemma EasyNamespace(s: Sys)
    requires Enough(s, 2)
    ensures var r := EnsureNamespace(s); r.ok && Aside(s, r.s, 2) && r.s.w.ns.Some?
  {
    AsideCall(s, GetNs(false));
    var g := Call(s, GetNs(false));
    if g.reply.NotFound? { AsideCall(g.s, CreateNs); }
  }

  lemma {:induction false} EasyDbs(s: Sys, names: seq<string>)
    requires Enough(s, |names|)
    ensures var r := MakeDbs(s, names); r.ok && Aside(s, r.s, |names|) && r.s.w.ns == s.w.ns
    decreases |names|
  {
    if names != [] {
      AsideCall(s, MakeDb(names[0]));
      EasyDbs(Call(s, MakeDb(names[0])).s, names[1..]);
    }
  }

  lemma EasyUser(pr: string, s: Sys, password: string)
    requires Enough(s, 14)
    ensures var r := ReplaceUser(pr, s, password); r.ok && Aside(s, r.s, 14) && r.s.w.ns == s.w.ns
  {
    AsideCall(s, DropUser(false));
    var d := Call(s, DropUser(false)).s;
    AsideCall(d, CreateUser(MongoUser(password, Granted(pr))));
    EasyDbs(Call(d, CreateUser(MongoUser(password, Granted(pr)))).s, Granted(pr));
  }

  lemma EasyDraw(s: Sys)
    requires Enough(s, 2)
    ensures var d := DrawPassword(s); d.reply.Password? && Aside(s, d.s, 2) && d.s.w.ns == s.w.ns
  {
    AsideCall(s, Ping);
    AsideCall(Call(s, Ping).s, Draw);
  }

  lemma EasyMongo(pr: string, s: Sys, st: Stack)
    requires Enough(s, 17) && Current(s.w, st)
    ensures var m := ProvisionMongo(pr, s, st);
            && m.ok && Easy(s, m.s, 17) && m.s.w.ns == s.w.ns
            && m.s.w.stack == Some(m.st) && m.st.status.mongo.Some?
  {
    EasyDraw(s);
    var d := DrawPassword(s);
    EasyUser(pr, d.s, d.reply.password);
    var made := ReplaceUser(pr, d.s, d.reply.password);
    EasyStatus(made.s, st.(status := st.status.(mongo := Some(CredentialsFor(pr, d.reply.password)))), Plain);
  }

  lemma EasySecret(pr: string, m: Res)
    requires Enough(m.s, 3) && m.ok && m.s.w.ns.Some? && m.s.w.stack == Some(m.st) && m.st.status.mongo.Some?
    ensures Easy(m.s, ProvisionSecret(pr, m), 3)
  {
    EasyUpsert(m.s, MongoSecret(m.st.status.mongo.value));
    var c := CreateMongoSecret(m.s, m.st);
    EasyStatus(c.s, Provisioned(pr, m.st, c.s.w.now), Plain);
  }

  lemma EasyProvisioning(pr: string, s: Sys, st: Stack)
    requires Enough(s, 22) && s.w.stack == Some(st)
    ensures Easy(s, HandleProvisioning(pr, s, st), 22)
  {
    var x := WithProgress(st, "Provisioning", "Provisioning MongoDB, NATS, and Redis", s.w.now);
    EasyNamespace(s);
    var n := EnsureNamespace(s);
    EasyMongo(pr, n.s, x);
    EasySecret(pr, ProvisionMongo(pr, n.s, x));
  }

  lemma EasyInitialization(s: Sys, st: Stack)
    requires Enough(s, 1) && Current(s.w, st)
    ensures Easy(s, HandleInitialization(s, st), 1)
  {
    var y := WithPhase(st, Phase.Provisioning, Text("Starting PR stack provisioning"));
    EasyStatus(s, WithProgress(y, "Initializing", "Preparing to provision infrastructure", s.w.now), Plain);
  }

  lemma EasyReactivation(s: Sys, st: Stack)
    requires Enough(s, 2) && s.w.stack == Some(st)
    ensures Easy(s, Reinitialize(UpdateStatus(s, st.(status := st.status.(phase := Initialization)), Plain)), 2)
  {
    var x := st.(status := st.status.(phase := Initialization));
    EasyStatus(s, x, Plain);
    var u := UpdateStatus(s, x, Plain);
    EasyInitialization(u.s, u.st);
  }

  // ---------------------------------------------------------------- running and inactive stacks

  lemma EasyRunning(s: Sys, st: Stack)
    requires Enough(s, Size(s.w.ns) + 3) && Listable(s) && s.w.stack == Some(st)
    ensures Easy(s, HandleRunning(s, st), Size(s.w.ns) + 3)
  {
    EasyMatch(s, st.spec.active);
    EasyStatus(MatchReplicas(s, st.spec.active), st.(status := st.status.(message := UNHEALTHY)), Plain);
  }

  lemma EasyClock(s: Sys)
    requires Enough(s, 1)
    ensures Aside(s, ReadClock(s), 1) && Level(s, ReadClock(s)) && ReadClock(s).w.ns == s.w.ns
  {
    SmoothAfter(s);
  }

  lemma EasyInactive(s: Sys, st: Stack)
    requires Enough(s, Size(s.w.ns) + 4) && Listable(s) && s.w.stack == Some(st)
    ensures Easy(s, HandleInactive(s, st), Size(s.w.ns) + 4)
  {
    EasyClock(s);
    EasyScaling(ReadClock(s), 0);
    var d := ScaleDeployments(ReadClock(s), 0);
    EasyClock(d.s);
    EasyStatus(d.s, WithPhase(st, Inactive, Text(INACTIVE_TEXT)), Plain);
    EasyStatus(ReadClock(d.s), WithPhase(st, Inactive, Text(EXPIRED_TEXT)), Plain);
  }

  // ---------------------------------------------------------------- whole passes

  /** What the invariant gives of a stack that is not deleted. */
  predicate Sound(w: World, st: Stack) {
    && w.stack == Some(st) && !st.deleted
    && st.status.phase != Cleaning && (Live(st.status.phase) ==> w.ns.Some?)
  }

  /** The ticks the work of a pass may need, and those of a whole pass. */
  function Work(ns: Option<Namespace>, spec: Spec): nat {
    22 + Size(ns) + 6 * |ServicesOf(spec)|
  }

  function Budget(ns: Option<Namespace>, spec: Spec): nat {
    Work(ns, spec) + Size(ns) + 8
  }

  lemma EasyByPhase(cfg: Config, pr: string, s: Sys, st: Stack)
    requires Sound(s.w, st) && Enough(s, Work(s.w.ns, st.spec)) && Listable(s)
    ensures Easy(s, ReconcileByPhase(cfg, pr, s, st), Work(s.w.ns, st.spec))
  {
    match st.status.phase
    case Inactive => EasyReactivation(s, st);
    case Initialization => EasyInitialization(s, st);
    case Provisioning => EasyProvisioning(pr, s, st);
    case Deploying => EasyDeployment(cfg, pr, s, st);
    case Running => EasyRunning(s, st);
    case Degraded => EasyRunning(s, st);
    case _ =>
  }

  lemma EasyActive(cfg: Config, pr: string, s: Sys, st: Stack)
    requires Sound(s.w, st) && Enough(s, Work(s.w.ns, st.spec) + Size(s.w.ns) + 2) && Listable(s)
    ensures Easy(s, ReconcileActive(cfg, pr, s, st), Work(s.w.ns, st.spec) + Size(s.w.ns) + 2)
  {
    if st.spec.active {
      EasyRollout(s, st);
      EasyByPhase(cfg, pr, Rollout(s, st).s, Rollout(s, st).st);
    } else {
      EasyInactive(s, st);
    }
  }

  lemma EasyRenewed(cfg: Config, pr: string, s: Sys, st: Stack, now: int)
    requires Sound(s.w, st) && Enough(s, Work(s.w.ns, st.spec) + Size(s.w.ns) + 3) && Listable(s)
    ensures Easy(s, ReconcileRenewed(cfg, pr, Renew(s, st, now)), Work(s.w.ns, st.spec) + Size(s.w.ns) + 3)
  {
    EasyStatus(s, st.(status := st.status.(lastActiveAt := Some(now))),
               if st.status.phase == Inactive then Plain else Renewed(now, s.w.now));
    var u := Renew(s, st, now);
    EasyActive(cfg, pr, u.s, u.st);
  }

  lemma EasyUnrenewed(cfg: Config, pr: string, s: Sys, st: Stack)
    requires Sound(s.w, st) && Enough(s, Work(s.w.ns, st.spec) + Size(s.w.ns) + 2) && Listable(s)
    ensures Easy(s, ReconcileUnrenewed(cfg, pr, s, st), Work(s.w.ns, st.spec) + Size(s.w.ns) + 2)
  {
    EasyActive(cfg, pr, s, st);
    EasyStack(s, Deactivated(st));
  }

  lemma EasyExpiry(cfg: Config, pr: string, s: Sys, st: Stack, now: int)
    requires Sound(s.w, st) && Enough(s, Work(s.w.ns, st.spec) + Size(s.w.ns) + 4) && Listable(s)
    ensures Easy(s, ReconcileExpiry(cfg, pr, s, st, now), Work(s.w.ns, st.spec) + Size(s.w.ns) + 4)
  {
    EasyClock(s);
    var first := ReadClock(s);
    if Reactivates(st, first.w.now) {
      EasyRenewed(cfg, pr, first, st, now);
    } else {
      EasyClock(first);
      EasyUnrenewed(cfg, pr, ReadClock(first), st);
    }
  }

  lemma EasyStamped(cfg: Config, pr: string, s: Sys, st: Stack, now: int)
    requires Sound(s.w, st) && Enough(s, Work(s.w.ns, st.spec) + Size(s.w.ns) + 5) && Listable(s)
    ensures Easy(s, ReconcileStamped(cfg, pr, StampCreation(s, st, now), now), Work(s.w.ns, st.spec) + Size(s.w.ns) + 5)
  {
    if st.status.createdAt.None? {
      EasyStatus(s, st.(status := st.status.(createdAt := Some(now), lastActiveAt := Some(now))), Plain);
    }
    var c := StampCreation(s, st, now);
    EasyExpiry(cfg, pr, c.s, c.st, now);
  }

  lemma EasyFrom(cfg: Config, pr: string, s: Sys, st: Stack)
    requires Sound(s.w, st) && Enough(s, Work(s.w.ns, st.spec) + Size(s.w.ns) + 7) && Listable(s)
    ensures Easy(s, ReconcileFrom(cfg, pr, s, st), Work(s.w.ns, st.spec) + Size(s.w.ns) + 7)
  {
    if FINALIZER !in st.finalizers { EasyStack(s, st.(finalizers := st.finalizers + [FINALIZER])); }
    var f := AddFinalizer(s, st);
    EasyClock(f.s);
    EasyStamped(cfg, pr, ReadClock(f.s), f.st, ReadClock(f.s).w.now);
  }

  /** Nothing disturbs a pass over this tape: no user acts, every call reaches its server, every List is complete, and the
      process lives long enough. */
  predicate Quiet(w: World, tape: seq<Tick>)
    requires w.stack.Some?
  {
    Smooth(tape) && |tape| >= Budget(w.ns, w.stack.value.spec) && Full(w.ns, tape)
  }

  /** No call of an undisturbed pass over a stack that is not deleted fails, and no version race is lost. */
  lemma EasyPass(cfg: Config, pr: string, w: World, tape: seq<Tick>)
    requires Inv(pr, w) && w.stack.Some? && !w.stack.value.deleted && Quiet(w, tape)
    ensures var r := Reconcile(cfg, pr, Start(pr, w, tape)); Clean(Start(pr, w, tape), r) && SameSpec(w, r.w)
  {
    InvFacts(pr, w);
    var s := Start(pr, w, tape);
    AsideCall(s, GetStack);
    EasyFrom(cfg, pr, Call(s, GetStack).s, w.stack.value);
  }

  // ---------------------------------------------------------------- undisturbed runs

  /** The hour passes between the two clock readings of the pass. */
  predicate Crosses(pr: string, w: World, tape: seq<Tick>) {
    var at := Arrive(Start(pr, w, tape));
    at.Arrival? && Fires(at.s, at.st)
  }

  /** Nothing disturbs the run, and in no pass the hour passes between the two clock readings. */
  predicate QuietRun(cfg: Config, pr: string, w: World, tapes: seq<seq<Tick>>)
    decreases |tapes|
  {
    tapes != [] ==>
      && w.stack.Some? && Quiet(w, tapes[0]) && !Crosses(pr, w, tapes[0])
      && QuietRun(cfg, pr, After1(cfg, pr, w, tapes[0]), tapes[1..])
  }

  /** An undisturbed pass of an active stack is clean, keeps it active, and keeps its spec. */
  lemma UndisturbedPass(cfg: Config, pr: string, w: World, tape: seq<Tick>, valid: bool)
    requires Inv(pr, w) && WorldIn(w, Steady(true, valid)) && Quiet(w, tape) && !Crosses(pr, w, tape)
    ensures var s := Start(pr, w, tape); var r := Reconcile(cfg, pr, s);
            && TapeIn(tape, Steady(true, valid)) && Inv(pr, r.w) && WorldIn(r.w, Steady(true, valid)) && Clean(s, r)
            && ReadBy(w, tape) == w.stack && r.w.stack.value.spec == w.stack.value.spec
  {
    EasyPass(cfg, pr, w, tape);
    PassHistory(cfg, pr, w, tape);
    ReconcileKeeps(cfg, pr, w, tape, Steady(true, valid));
    KeptFacts(pr, w, Reconcile(cfg, pr, Start(pr, w, tape)), Steady(true, valid));
    SmoothAfter(Start(pr, w, tape));
  }

  lemma {:induction false} UndisturbedIsClean(cfg: Config, pr: string, w: World, tapes: seq<seq<Tick>>, valid: bool)
    requires Inv(pr, w) && WorldIn(w, Steady(true, valid)) && QuietRun(cfg, pr, w, tapes)
    ensures StaysActive(cfg, pr, w, tapes, valid) && CleanPasses(cfg, pr, w, tapes) == |tapes|
    ensures var v := Run(cfg, pr, w, tapes); v.stack.Some? && v.stack.value.spec == w.stack.value.spec
    ensures D.Stalls(w.stack.value.spec) ==> AlwaysStalls(cfg, pr, w, tapes)
    decreases |tapes|
  {
    if tapes != [] {
      UndisturbedPass(cfg, pr, w, tapes[0], valid);
      UndisturbedIsClean(cfg, pr, After1(cfg, pr, w, tapes[0]), tapes[1..], valid);
    }
  }

  /** From every reachable state of an active stack with a valid spec that is not yet settled, as many undisturbed passes as
      its rank, three at most, bring it to Running, with all its services running and credentials that agree. */
  lemma UndisturbedSucceeds(cfg: Config, pr: string, past: seq<seq<Tick>>, w: World, tapes: seq<seq<Tick>>)
    requires w == Reached(cfg, pr, past) && WorldIn(w, Steady(true, true)) && |tapes| >= Rank(PhaseOf(w)) > 0
    requires QuietRun(cfg, pr, w, tapes)
    ensures var v := Run(cfg, pr, w, tapes);
            && PhaseIs(v, Running) && AllRunning(v.stack.value.status.services)
            && CredentialsAgree(pr, v.stack.value.status, v)
  {
    Reachable(cfg, pr, past);
    UndisturbedIsClean(cfg, pr, w, tapes, true);
    ActivationSucceeds(cfg, pr, past, w, tapes);
    RunKeeps(cfg, pr, w, tapes);
    InvFacts(pr, Run(cfg, pr, w, tapes));
  }

  /** If only the resource limits do not parse, undisturbed passes bring it to Deploying, and never any further. */
  lemma UndisturbedStalls(cfg: Config, pr: string, past: seq<seq<Tick>>, w: World, tapes: seq<seq<Tick>>)
    requires w == Reached(cfg, pr, past) && WorldIn(w, Steady(true, false)) && D.Stalls(w.stack.value.spec)
    requires |tapes| >= Rank(PhaseOf(w)) - 1 >= 0 && QuietRun(cfg, pr, w, tapes)
    ensures PhaseOf(Run(cfg, pr, w, tapes)) == Phase.Deploying
  {
    Reachable(cfg, pr, past);
    UndisturbedIsClean(cfg, pr, w, tapes, false);
    StalledNeverSettles(cfg, pr, w, tapes);
  }
}
