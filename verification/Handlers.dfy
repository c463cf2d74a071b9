/** What one `Reconcile` call does, as a function of the world, the ticks and the operator's copy of the PRStack. */
module Handlers {
  import opened Types
  import opened Api
  import opened Names
  import opened Conditions

  /** The operator's configuration: registry credentials, if set, and the base domain. */
  datatype Config = Config(registry: Option<Secret>, baseDomain: string)

  datatype Step = Step(s: Sys, ok: bool)

  /** A step that may refresh the copy `st`. */
  datatype Res = Res(s: Sys, st: Stack, ok: bool)

  function Start(pr: string, w: World, tape: seq<Tick>): Sys {
    Sys(w, tape, 0, 0, false, false, Origin(pr, w), [])
  }

  // ---------------------------------------------------------------- PRStack writes

  function UpdateStack(s: Sys, st: Stack): (r: Res)
    ensures r.s.faults >= s.faults && r.s.conflicts >= s.conflicts && r.s.origin == s.origin
    ensures Faithful(s) ==> Faithful(r.s)
    ensures r.s.panicked == s.panicked && r.s.crashed == s.crashed
  {
    var c := Call(s, PutStack(st));
    Res(c.s, if c.reply.Found? then c.reply.st else st, c.reply.Found?)
  }

  function UpdateStatus(s: Sys, st: Stack, note: Note): (r: Res)
    ensures r.s.faults >= s.faults && r.s.conflicts >= s.conflicts && r.s.origin == s.origin
    ensures Faithful(s) ==> Faithful(r.s)
    ensures r.s.panicked == s.panicked && r.s.crashed == s.crashed
  {
    var c := Call(s, PutStatus(st, note));
    Res(c.s, if c.reply.Found? then c.reply.st else st, c.reply.Found?)
  }

  function WithCondition(st: Stack, kind: string, status: bool, reason: string, message: Message, now: int): Stack {
    st.(status := st.status.(conditions :=
      SetCond(st.status.conditions, Condition(kind, status, reason, message, now), now)))
  }

  function WithReady(st: Stack, reason: string, message: Message, now: int): Stack {
    WithCondition(WithCondition(st, READY, true, reason, message, now),
                  DEGRADED, false, "Healthy", Text("Stack is operating normally"), now)
  }

  function WithProgress(st: Stack, reason: string, message: string, now: int): Stack {
    WithCondition(st, PROGRESSING, true, reason, Text(message), now)
  }

  function WithPhase(st: Stack, phase: Phase, message: Message): Stack {
    st.(status := st.status.(phase := phase, message := message))
  }

  function WithError(st: Stack, what: string, now: int): Stack {
    WithCondition(
      WithCondition(WithPhase(st, Failed, Text(what)), READY, false, "Error", Text(what), now),
      DEGRADED, true, "ReconciliationFailed", Text(what), now)
  }

  /** `updateStatusWithError`: a failure to write the error itself is only logged. */
  function RecordError(s: Sys, st: Stack, what: string): (r: Sys)
    ensures r.faults >= s.faults && r.conflicts >= s.conflicts && r.origin == s.origin
    ensures Faithful(s) ==> Faithful(r)
    ensures r.panicked == s.panicked && r.crashed == s.crashed
  {
    UpdateStatus(s, WithError(st, what, s.w.now), Plain).s
  }

  // ---------------------------------------------------------------- writes into the namespace

  /** `CreateOrUpdate`. */
  function Upsert(s: Sys, m: Manifest): (r: Step)
    ensures r.s.faults >= s.faults && r.s.conflicts >= s.conflicts && r.s.origin == s.origin
    ensures Faithful(s) ==> Faithful(r.s)
    ensures r.s.panicked == s.panicked && r.s.crashed == s.crashed
  {
    var c := Call(s, CreateObj(m));
    if c.reply.Exists? then
      var u := Call(c.s, UpdateObj(m));
      Step(u.s, u.reply.Done?)
    else Step(c.s, c.reply.Done?)
  }

  /** Upserts in order, up to the first failure. */
  function UpsertAll(s: Sys, ms: seq<Manifest>): (r: Step)
    ensures r.s.faults >= s.faults && r.s.conflicts >= s.conflicts && r.s.origin == s.origin
    ensures Faithful(s) ==> Faithful(r.s)
    ensures r.s.panicked == s.panicked && r.s.crashed == s.crashed
    decreases |ms|
  {
    if ms == [] then Step(s, true)
    else
      var u := Upsert(s, ms[0]);
      if u.ok then UpsertAll(u.s, ms[1..]) else u
  }

  // ---------------------------------------------------------------- initialization and provisioning

  function HandleInitialization(s: Sys, st: Stack): (r: Sys)
    ensures r.faults >= s.faults && r.conflicts >= s.conflicts && r.origin == s.origin
    ensures Faithful(s) ==> Faithful(r)
    ensures r.panicked == s.panicked && r.crashed == s.crashed
  {
    var begun := WithProgress(WithPhase(st, Provisioning, Text("Starting PR stack provisioning")),
                              "Initializing", "Preparing to provision infrastructure", s.w.now);
    UpdateStatus(s, begun, Plain).s
  }

  function EnsureNamespace(s: Sys): (r: Step)
    ensures r.s.faults >= s.faults && r.s.conflicts >= s.conflicts && r.s.origin == s.origin
    ensures Faithful(s) ==> Faithful(r.s)
    ensures r.s.panicked == s.panicked && r.s.crashed == s.crashed
  {
    var g := Call(s, GetNs(false));
    if g.reply.NotFound? then
      var c := Call(g.s, CreateNs);
      Step(c.s, c.reply.Done?)
    else Step(g.s, g.reply.Done?)
  }

  function ConnectionString(user: string, password: string): string {
    "mongodb://" + user + ":" + password + "@mongodb.pishop-base.svc.cluster.local:27017"
  }

  function CredentialsFor(pr: string, password: string): Credentials {
    Credentials(MongoUserName(pr), password, ConnectionString(MongoUserName(pr), password), Granted(pr))
  }

  function MakeDbs(s: Sys, names: seq<string>): (r: Step)
    ensures r.s.faults >= s.faults && r.s.conflicts >= s.conflicts && r.s.origin == s.origin
    ensures Faithful(s) && (forall i :: 0 <= i < |names| ==> names[i] in Touched(s.origin.pr)) ==> Faithful(r.s)
    ensures r.s.panicked == s.panicked && r.s.crashed == s.crashed
    decreases |names|
  {
    if names == [] then Step(s, true)
    else
      var c := Call(s, MakeDb(names[0]));
      if c.reply.Done? then MakeDbs(c.s, names[1..]) else Step(c.s, false)
  }

  /** Drop the user (errors ignored), create it anew with the given password, create the databases. */
  function ReplaceUser(pr: string, s: Sys, password: string): (r: Step)
    ensures r.s.faults >= s.faults && r.s.conflicts >= s.conflicts && r.s.origin == s.origin
    ensures Faithful(s) && s.origin.pr == pr ==> Faithful(r.s)
    ensures r.s.panicked == s.panicked && r.s.crashed == s.crashed
  {
    var u := Call(Call(s, DropUser(false)).s, CreateUser(MongoUser(password, Granted(pr))));
    if u.reply.Done? then MakeDbs(u.s, Granted(pr)) else Step(u.s, false)
  }

  /** A fresh password, once MongoDB has answered. */
  function DrawPassword(s: Sys): (r: Ret)
    ensures r.s.faults >= s.faults && r.s.conflicts >= s.conflicts && r.s.origin == s.origin
    ensures Faithful(s) ==> Faithful(r.s)
    ensures r.s.panicked == s.panicked && r.s.crashed == s.crashed
  {
    var p := Call(s, Ping);
    if p.reply.Done? then Call(p.s, Draw) else p
  }

  function StoreCredentials(made: Step, c: Credentials, st: Stack): (r: Res)
    ensures r.s.faults >= made.s.faults && r.s.conflicts >= made.s.conflicts && r.s.origin == made.s.origin
    ensures Faithful(made.s) ==> Faithful(r.s)
    ensures r.s.panicked == made.s.panicked && r.s.crashed == made.s.crashed
  {
    if made.ok then UpdateStatus(made.s, st.(status := st.status.(mongo := Some(c))), Plain)
    else Res(made.s, st, false)
  }

  function ProvisionMongo(pr: string, s: Sys, st: Stack): (r: Res)
    ensures r.s.faults >= s.faults && r.s.conflicts >= s.conflicts && r.s.origin == s.origin
    ensures Faithful(s) && s.origin.pr == pr ==> Faithful(r.s)
    ensures r.s.panicked == s.panicked && r.s.crashed == s.crashed
  {
    var d := DrawPassword(s);
    if !d.reply.Password? then Res(d.s, st, false)
    else StoreCredentials(ReplaceUser(pr, d.s, d.reply.password), CredentialsFor(pr, d.reply.password), st)
  }

  function MongoSecret(c: Credentials): Manifest {
    SecretManifest(MONGO_SECRET, Secret(c.user, c.password))
  }

  function CreateMongoSecret(s: Sys, st: Stack): (r: Step)
    ensures r.s.faults >= s.faults && r.s.conflicts >= s.conflicts && r.s.origin == s.origin
    ensures Faithful(s) ==> Faithful(r.s)
    ensures r.s.panicked == s.panicked && r.s.crashed == s.crashed
  {
    if st.status.mongo.None? then Step(s, false) else Upsert(s, MongoSecret(st.status.mongo.value))
  }

  function NatsUrl(pr: string): string { "nats://nats." + NamespaceName(pr) + ".svc.cluster.local:4222" }

  function RedisUrl(pr: string): string { "redis://redis." + NamespaceName(pr) + ".svc.cluster.local:6379" }

  function Provisioned(pr: string, st: Stack, now: int): Stack {
    WithProgress(
      WithPhase(st.(status := st.status.(nats := Some(NatsUrl(pr)), redis := Some(RedisUrl(pr)))),
                Deploying, Text("Resources provisioned, starting service deployment")),
      "Deploying", "Deploying services to cluster", now)
  }

  function FinishProvisioning(pr: string, c: Step, st: Stack): (r: Sys)
    ensures r.faults >= c.s.faults && r.conflicts >= c.s.conflicts && r.origin == c.s.origin
    ensures Faithful(c.s) && c.s.origin.pr == pr ==> Faithful(r)
    ensures r.panicked == c.s.panicked && r.crashed == c.s.crashed
  {
    if !c.ok then RecordError(c.s, st, "MongoDB secret provisioning failed")
    else UpdateStatus(c.s, Provisioned(pr, st, c.s.w.now), Plain).s
  }

  function ProvisionSecret(pr: string, m: Res): (r: Sys)
    ensures r.faults >= m.s.faults && r.conflicts >= m.s.conflicts && r.origin == m.s.origin
    ensures Faithful(m.s) && m.s.origin.pr == pr ==> Faithful(r)
    ensures r.panicked == m.s.panicked && r.crashed == m.s.crashed
  {
    if !m.ok then RecordError(m.s, m.st, "MongoDB provisioning failed")
    else FinishProvisioning(pr, CreateMongoSecret(m.s, m.st), m.st)
  }

  function HandleProvisioning(pr: string, s: Sys, st0: Stack): (r: Sys)
    ensures r.faults >= s.faults && r.conflicts >= s.conflicts && r.origin == s.origin
    ensures Faithful(s) && s.origin.pr == pr ==> Faithful(r)
    ensures r.panicked == s.panicked && r.crashed == s.crashed
  {
    var st := WithProgress(st0, "Provisioning", "Provisioning MongoDB, NATS, and Redis", s.w.now);
    var n := EnsureNamespace(s);
    if !n.ok then RecordError(n.s, st, "Namespace provisioning failed")
    else ProvisionSecret(pr, ProvisionMongo(pr, n.s, st))
  }

  // ---------------------------------------------------------------- deployment

  function ImageFor(pr: string, spec: Spec, service: string): string {
    "ghcr.io/pilab-dev/" + service + ":" + if spec.imageTag != "" then spec.imageTag else "pr-" + pr
  }

  function DomainFor(cfg: Config, pr: string, spec: Spec): string {
    if spec.customDomain != "" then spec.customDomain else "pr-" + pr + "." + cfg.baseDomain
  }

  function RegistryManifests(cfg: Config): seq<Manifest> {
    if cfg.registry.Some? then [SecretManifest("ghcr-secret", cfg.registry.value)] else []
  }

  /** The database config map, with the connection of the stack. */
  function MongoConfig(pr: string, c: Credentials): Manifest {
    ObjectManifest(MONGO_CONFIG, Data(ConfigData(DEFAULT_SERVICES, pr)["uri" := c.connection]))
  }

  function MongoManifests(pr: string, c: Credentials): seq<Manifest> {
    [MongoConfig(pr, c), MongoSecret(c)]
  }

  function UrlManifest(name: string, url: string): Manifest {
    ObjectManifest(Key(ConfigMap, name), Data(map["url" := url]))
  }

  function ServerManifests(pr: string, name: string, image: string): seq<Manifest> {
    [DeploymentManifest(name, Deployment(Some(1), None, image, None)), ObjectManifest(Key(Service, name), Line(pr))]
  }

  /** The deployment of a service, told its database by `GetServiceConfig`. */
  function ServiceDeployment(pr: string, spec: Spec, service: string): Deployment {
    Deployment(Some(if spec.active then 1 else 0), None, ImageFor(pr, spec, service), Some(DatabaseName(service, pr)))
  }

  function ServiceManifests(cfg: Config, pr: string, spec: Spec, service: string): seq<Manifest> {
    [DeploymentManifest(service, ServiceDeployment(pr, spec, service)),
     ObjectManifest(Key(Service, service), Line(pr))]
    + if service == "graphql-service"
      then [ObjectManifest(Key(Ingress, service), Line(DomainFor(cfg, pr, spec)))] else []
  }

  const VOLUME := Key(Volume, "mongodb-backup-pvc")

  /** `ensureBackupStorage`: the claim is created if it is missing, and never changed. */
  function EnsureVolume(s: Sys, spec: Spec): (r: Step)
    ensures r.s.faults >= s.faults && r.s.conflicts >= s.conflicts && r.s.origin == s.origin
    ensures Faithful(s) ==> Faithful(r.s)
    ensures r.s.panicked == s.panicked && r.s.crashed == s.crashed
  {
    if !spec.backup then Step(s, true)
    else if !spec.storageParses then Step(s, false)
    else
      var g := Call(s, GetObj(ObjectRef(VOLUME)));
      if g.reply.NotFound? then
        var c := Call(g.s, CreateObj(ObjectManifest(VOLUME, Line(""))));
        Step(c.s, c.reply.Done?)
      else Step(g.s, g.reply.Done?)
  }

  /** A deployment under way; `failed` names what stopped it. */
  datatype Infra = Infra(s: Sys, failed: Option<string>)
  {
    predicate Stopped() {
      s.panicked || failed.Some?
    }
  }

  const MONGO_FAILED := "Failed to create MongoDB resources"

  function Stage(i: Infra, ms: seq<Manifest>, what: string): (r: Infra)
    ensures r.s.faults >= i.s.faults && r.s.conflicts >= i.s.conflicts && r.s.origin == i.s.origin
    ensures Faithful(i.s) ==> Faithful(r.s)
    ensures r.s.panicked == i.s.panicked && r.s.crashed == i.s.crashed
  {
    if i.Stopped() then i
    else
      var u := UpsertAll(i.s, ms);
      Infra(u.s, if u.ok then None else Some(what))
  }

  /** Dereferencing an unset status block. */
  function Panic(i: Infra): Infra {
    if i.Stopped() then i else Infra(i.s.(panicked := true), None)
  }

  function VolumeStage(i: Infra, spec: Spec): (r: Infra)
    ensures r.s.faults >= i.s.faults && r.s.conflicts >= i.s.conflicts && r.s.origin == i.s.origin
    ensures Faithful(i.s) ==> Faithful(r.s)
    ensures r.s.panicked == i.s.panicked && r.s.crashed == i.s.crashed
  {
    if i.Stopped() then i
    else
      var v := EnsureVolume(i.s, spec);
      Infra(v.s, if v.ok then None else Some("Failed to create backup storage"))
  }

  function UrlStage(i: Infra, name: string, url: Option<string>): (r: Infra)
    ensures r.s.faults >= i.s.faults && r.s.conflicts >= i.s.conflicts && r.s.origin == i.s.origin
    ensures Faithful(i.s) ==> Faithful(r.s)
    ensures r.s.crashed == i.s.crashed
  {
    if url.None? then Panic(i) else Stage(i, [UrlManifest(name, url.value)], MONGO_FAILED)
  }

  /** `createMongoDBResources`: each block is dereferenced when its turn comes. */
  function MongoStages(pr: string, i: Infra, status: Status): (r: Infra)
    ensures r.s.faults >= i.s.faults && r.s.conflicts >= i.s.conflicts && r.s.origin == i.s.origin
    ensures Faithful(i.s) ==> Faithful(r.s)
    ensures r.s.crashed == i.s.crashed
  {
    var m := if status.mongo.None? then Panic(i) else Stage(i, MongoManifests(pr, status.mongo.value), MONGO_FAILED);
    UrlStage(UrlStage(m, "nats-config", status.nats), "redis-config", status.redis)
  }

  /** The registry secret and what `createMongoDBResources` writes. */
  function DeployConfig(cfg: Config, pr: string, s: Sys, status: Status): (r: Infra)
    ensures r.s.faults >= s.faults && r.s.conflicts >= s.conflicts && r.s.origin == s.origin
    ensures Faithful(s) ==> Faithful(r.s)
    ensures r.s.crashed == s.crashed
  {
    MongoStages(pr, Stage(Infra(s, None), RegistryManifests(cfg), "Failed to create registry secret"), status)
  }

  function DeployServers(pr: string, i: Infra, spec: Spec): (r: Infra)
    ensures r.s.faults >= i.s.faults && r.s.conflicts >= i.s.conflicts && r.s.origin == i.s.origin
    ensures Faithful(i.s) && i.s.origin.pr == pr ==> Faithful(r.s)
    ensures r.s.panicked == i.s.panicked && r.s.crashed == i.s.crashed
  {
    var n := Stage(i, ServerManifests(pr, "nats", "nats:2.10-alpine"), "Failed to create NATS resources");
    var r := Stage(n, ServerManifests(pr, "redis", "redis:7-alpine"), "Failed to create Redis resources");
    VolumeStage(r, spec)
  }

  datatype Services = Services(s: Sys, statuses: seq<ServiceStatus>)

  /** One entry per service, in order; a failed service does not stop the next ones. Unparsable limits crash. */
  function DeployServices(cfg: Config, pr: string, s: Sys, spec: Spec, services: seq<string>): (r: Services)
    ensures r.s.faults >= s.faults && r.s.conflicts >= s.conflicts && r.s.origin == s.origin
    ensures Faithful(s) && s.origin.pr == pr ==> Faithful(r.s)
    ensures r.s.panicked == s.panicked
    ensures !r.s.crashed ==> |r.statuses| == |services| && !s.crashed
    ensures !r.s.crashed ==> forall i :: 0 <= i < |services| ==> r.statuses[i].name == services[i]
    decreases |services|
  {
    if s.crashed || services == [] then Services(s, [])
    else if !spec.limitsParse then Services(s.(crashed := true), [])
    else
      var u := UpsertAll(s, ServiceManifests(cfg, pr, spec, services[0]));
      var rest := DeployServices(cfg, pr, u.s, spec, services[1..]);
      Services(rest.s, [ServiceStatus(services[0], u.ok)] + rest.statuses)
  }

  function CountFailed(statuses: seq<ServiceStatus>): (n: nat)
    ensures n <= |statuses|
    decreases |statuses|
  {
    if statuses == [] then 0
    else (if statuses[0].running then 0 else 1) + CountFailed(statuses[1..])
  }

  function AllFailed(st: Stack, total: nat, now: int): Stack {
    var message := Count("All services failed to deploy", total, total);
    WithCondition(
      WithCondition(WithPhase(st, Failed, message), READY, false, "AllServicesFailed", message, now),
      DEGRADED, true, "AllServicesFailed", Text("No services are running"), now)
  }

  function SomeFailed(st: Stack, failed: nat, total: nat, now: int): Stack {
    WithCondition(
      WithCondition(WithPhase(st, Degraded, Count("Stack is degraded", failed, total)),
                    READY, true, "PartiallyDegraded", Count("services running", total - failed, total), now),
      DEGRADED, true, "ServiceFailures", Count("services failed to deploy", failed, total), now)
  }

  function NoneFailed(st: Stack, total: nat, now: int): Stack {
    WithProgress(WithReady(WithPhase(st, Running, Text("PR stack is running")),
                           "StackRunning", Count("All services deployed successfully", total, total), now),
                 "Complete", "Stack deployment completed", now)
  }

  function Concluded(st0: Stack, statuses: seq<ServiceStatus>, failed: nat, now: int): Stack {
    var st := st0.(status := st0.status.(services := statuses));
    if failed == |statuses| then AllFailed(st, |statuses|, now)
    else if failed > 0 then SomeFailed(st, failed, |statuses|, now)
    else NoneFailed(st, |statuses|, now)
  }

  function ServicesOf(spec: Spec): (services: seq<string>)
    ensures services != []
  {
    if spec.services == [] then DEFAULT_SERVICES else spec.services
  }

  function FinishDeployment(d: Services, st: Stack): (r: Sys)
    ensures r.faults >= d.s.faults && r.conflicts >= d.s.conflicts && r.origin == d.s.origin
    ensures Faithful(d.s) ==> Faithful(r)
  {
    if d.s.crashed then d.s
    else UpdateStatus(d.s, Concluded(st, d.statuses, CountFailed(d.statuses), d.s.w.now), Plain).s
  }

  function RunServices(cfg: Config, pr: string, i: Infra, st: Stack): (r: Sys)
    ensures r.faults >= i.s.faults && r.conflicts >= i.s.conflicts && r.origin == i.s.origin
    ensures Faithful(i.s) && i.s.origin.pr == pr ==> Faithful(r)
  {
    if i.s.panicked then i.s
    else if i.failed.Some? then RecordError(i.s, st, i.failed.value)
    else FinishDeployment(DeployServices(cfg, pr, i.s, st.spec, ServicesOf(st.spec)), st)
  }

  function HandleDeployment(cfg: Config, pr: string, s: Sys, st: Stack): (r: Sys)
    ensures r.faults >= s.faults && r.conflicts >= s.conflicts && r.origin == s.origin
    ensures Faithful(s) && s.origin.pr == pr ==> Faithful(r)
  {
    RunServices(cfg, pr, DeployServers(pr, DeployConfig(cfg, pr, s, st.status), st.spec), st)
  }

  // ---------------------------------------------------------------- running stacks

  function ScaleEach(s: Sys, items: seq<Item>, replicas: int): (r: Step)
    ensures r.s.faults >= s.faults && r.s.conflicts >= s.conflicts && r.s.origin == s.origin
    ensures Faithful(s) ==> Faithful(r.s)
    ensures r.s.panicked == s.panicked && r.s.crashed == s.crashed
    decreases |items|
  {
    if items == [] then Step(s, true)
    else if items[0].deployment.replicas == Some(replicas) then ScaleEach(s, items[1..], replicas)
    else
      var u := Call(s, UpdateObj(DeploymentManifest(items[0].name, items[0].deployment.(replicas := Some(replicas)))));
      if u.reply.Done? then ScaleEach(u.s, items[1..], replicas) else Step(u.s, false)
  }

  function ScaleDeployments(s: Sys, replicas: int): (r: Step)
    ensures r.s.faults >= s.faults && r.s.conflicts >= s.conflicts && r.s.origin == s.origin
    ensures Faithful(s) ==> Faithful(r.s)
    ensures r.s.panicked == s.panicked && r.s.crashed == s.crashed
  {
    var l := Call(s, ListDeployments);
    if l.reply.Items? then ScaleEach(l.s, l.reply.items, replicas) else Step(l.s, false)
  }

  function RestartEach(s: Sys, items: seq<Item>, at: int): (r: Step)
    ensures r.s.faults >= s.faults && r.s.conflicts >= s.conflicts && r.s.origin == s.origin
    ensures Faithful(s) ==> Faithful(r.s)
    ensures r.s.panicked == s.panicked && r.s.crashed == s.crashed
    decreases |items|
  {
    if items == [] then Step(s, true)
    else
      var u := Call(s, UpdateObj(DeploymentManifest(items[0].name, items[0].deployment.(restartedAt := Some(at)))));
      if u.reply.Done? then RestartEach(u.s, items[1..], at) else Step(u.s, false)
  }

  function RestartDeployments(s: Sys, at: int): (r: Step)
    ensures r.s.faults >= s.faults && r.s.conflicts >= s.conflicts && r.s.origin == s.origin
    ensures Faithful(s) ==> Faithful(r.s)
    ensures r.s.panicked == s.panicked && r.s.crashed == s.crashed
  {
    var l := Call(s, ListDeployments);
    if l.reply.Items? then RestartEach(l.s, l.reply.items, at) else Step(l.s, false)
  }

  predicate AllRunning(services: seq<ServiceStatus>) {
    forall i :: 0 <= i < |services| ==> services[i].running
  }

  const UNHEALTHY := Text("Some services are not healthy")

  /** Scaling by the first listed deployment; both the List and the scaling may fail without consequence. */
  function MatchReplicas(s: Sys, active: bool): (r: Sys)
    ensures r.faults >= s.faults && r.conflicts >= s.conflicts && r.origin == s.origin
    ensures Faithful(s) ==> Faithful(r)
    ensures r.panicked == s.panicked && r.crashed == s.crashed
  {
    var l := Call(s, ListDeployments);
    if !l.reply.Items? || l.reply.items == [] then l.s else
    var desired := if active then 1 else 0;
    var first := l.reply.items[0].deployment.replicas;
    var current := if first.Some? then first.value else -1;
    if current == desired then l.s else ScaleDeployments(l.s, desired).s
  }

  function HandleRunning(s: Sys, st: Stack): (r: Sys)
    ensures r.faults >= s.faults && r.conflicts >= s.conflicts && r.origin == s.origin
    ensures Faithful(s) ==> Faithful(r)
  {
    var r := MatchReplicas(s, st.spec.active);
    if AllRunning(st.status.services) then r
    else UpdateStatus(r, st.(status := st.status.(message := UNHEALTHY)), Plain).s
  }

  // ---------------------------------------------------------------- deletion

  function DropDbs(s: Sys, names: seq<string>): (r: Sys)
    ensures r.faults >= s.faults && r.conflicts >= s.conflicts && r.origin == s.origin
    ensures Faithful(s) && (forall i :: 0 <= i < |names| ==> names[i] in Touched(s.origin.pr)) ==> Faithful(r)
    ensures r.panicked == s.panicked && r.crashed == s.crashed
    decreases |names|
  {
    if names == [] then s else DropDbs(Call(s, DropDb(names[0])).s, names[1..])
  }

  function CleanupMongo(pr: string, s: Sys): (r: Step)
    ensures r.s.faults >= s.faults && r.s.conflicts >= s.conflicts && r.s.origin == s.origin
    ensures Faithful(s) && s.origin.pr == pr ==> Faithful(r.s)
    ensures r.s.panicked == s.panicked && r.s.crashed == s.crashed
  {
    var p := Call(s, Ping);
    if !p.reply.Done? then Step(p.s, false)
    else
      var d := DropDbs(p.s, CleanupDatabaseNames(DEFAULT_SERVICES, pr));
      Step(Call(d, DropUser(true)).s, true)
  }

  /** Delete an object if a Get finds it; any error of the Get counts as absence. */
  function CleanupObj(s: Sys, ref: Ref): (r: Step)
    ensures r.s.faults >= s.faults && r.s.conflicts >= s.conflicts && r.s.origin == s.origin
    ensures Faithful(s) ==> Faithful(r.s)
    ensures r.s.panicked == s.panicked && r.s.crashed == s.crashed
  {
    var g := Call(s, GetObj(ref));
    if g.reply.Done? then
      var d := Call(g.s, DeleteObj(ref));
      Step(d.s, d.reply.Done?)
    else Step(g.s, true)
  }

  /** `cleanupNATS` and `cleanupRedis`. */
  function CleanupServer(s: Sys, name: string): (r: Step)
    ensures r.s.faults >= s.faults && r.s.conflicts >= s.conflicts && r.s.origin == s.origin
    ensures Faithful(s) ==> Faithful(r.s)
    ensures r.s.panicked == s.panicked && r.s.crashed == s.crashed
  {
    var d := CleanupObj(s, DeploymentRef(name));
    if !d.ok then d else CleanupObj(d.s, ObjectRef(Key(Service, name)))
  }

  function CleanupNamespace(s: Sys): (r: Step)
    ensures r.s.faults >= s.faults && r.s.conflicts >= s.conflicts && r.s.origin == s.origin
    ensures Faithful(s) ==> Faithful(r.s)
    ensures r.s.panicked == s.panicked && r.s.crashed == s.crashed
  {
    var g := Call(s, GetNs(true));
    if g.reply.Done? then
      var d := Call(g.s, DeleteNs);
      Step(d.s, d.reply.Done?)
    else Step(g.s, true)
  }

  /** Only a failure to delete the namespace is returned. */
  function CleanupAll(pr: string, s: Sys): (r: Step)
    ensures r.s.faults >= s.faults && r.s.conflicts >= s.conflicts && r.s.origin == s.origin
    ensures Faithful(s) && s.origin.pr == pr ==> Faithful(r.s)
    ensures r.s.panicked == s.panicked && r.s.crashed == s.crashed
  {
    CleanupNamespace(CleanupServer(CleanupServer(CleanupMongo(pr, s).s, "nats").s, "redis").s)
  }

  /** The final backup job, when enabled; its error is ignored. */
  function Backup(pr: string, s: Sys, st: Stack): (r: Sys)
    ensures r.faults >= s.faults && r.conflicts >= s.conflicts && r.origin == s.origin
    ensures Faithful(s) && s.origin.pr == pr ==> Faithful(r)
    ensures r.panicked == s.panicked && r.crashed == s.crashed
  {
    if st.spec.backup && st.status.mongo.Some? then
      Call(s, CreateObj(ObjectManifest(Key(Job(s.w.now), "backup-pr-" + pr), Line("")))).s
    else s
  }

  /** What follows `cleanupAllResources` in `handleCleaning`, up to the first returned error. */
  function CleanupRest(pr: string, s: Sys): (r: Infra)
    ensures r.s.faults >= s.faults && r.s.conflicts >= s.conflicts && r.s.origin == s.origin
    ensures Faithful(s) && s.origin.pr == pr ==> Faithful(r.s)
    ensures r.s.panicked == s.panicked && r.s.crashed == s.crashed
  {
    var m := CleanupMongo(pr, s);
    if !m.ok then Infra(m.s, Some("MongoDB cleanup failed")) else
    var n := CleanupServer(m.s, "nats");
    if !n.ok then Infra(n.s, Some("NATS cleanup failed")) else
    var r := CleanupServer(n.s, "redis");
    Infra(r.s, if r.ok then None else Some("Redis cleanup failed"))
  }

  function CleanupPass(pr: string, s: Sys): (r: Infra)
    ensures r.s.faults >= s.faults && r.s.conflicts >= s.conflicts && r.s.origin == s.origin
    ensures Faithful(s) && s.origin.pr == pr ==> Faithful(r.s)
    ensures r.s.panicked == s.panicked && r.s.crashed == s.crashed
  {
    var k := CleanupAll(pr, s);
    if k.ok then CleanupRest(pr, k.s) else Infra(k.s, Some("Kubernetes cleanup failed"))
  }

  function RemoveFinalizer(u: Res): (r: Sys)
    ensures r.faults >= u.s.faults && r.conflicts >= u.s.conflicts && r.origin == u.s.origin
    ensures Faithful(u.s) ==> Faithful(r)
    ensures r.panicked == u.s.panicked && r.crashed == u.s.crashed
  {
    if u.ok then UpdateStack(u.s, u.st.(finalizers := RemoveString(u.st.finalizers, FINALIZER))).s else u.s
  }

  function FinishCleaning(c: Infra, st: Stack): (r: Sys)
    ensures r.faults >= c.s.faults && r.conflicts >= c.s.conflicts && r.origin == c.s.origin
    ensures Faithful(c.s) ==> Faithful(r)
    ensures r.panicked == c.s.panicked && r.crashed == c.s.crashed
  {
    if c.failed.Some? then RecordError(c.s, st, c.failed.value)
    else RemoveFinalizer(UpdateStatus(c.s, WithPhase(st, Cleaned, Text("All resources have been cleaned up")), Plain))
  }

  function HandleCleaning(pr: string, s: Sys, st: Stack): (r: Sys)
    ensures r.faults >= s.faults && r.conflicts >= s.conflicts && r.origin == s.origin
    ensures Faithful(s) && s.origin.pr == pr ==> Faithful(r)
  {
    FinishCleaning(CleanupPass(pr, Backup(pr, s, st)), st)
  }

  function HandleDeletion(pr: string, s: Sys, st: Stack): (r: Sys)
    ensures r.faults >= s.faults && r.conflicts >= s.conflicts && r.origin == s.origin
    ensures Faithful(s) && s.origin.pr == pr ==> Faithful(r)
  {
    if st.status.phase == Cleaning then HandleCleaning(pr, s, st)
    else UpdateStatus(s, WithPhase(st, Cleaning, Text("Cleaning up PR stack resources")), Plain).s
  }

  // ---------------------------------------------------------------- activity

  function LastActive(st: Stack): Option<int> {
    if st.status.lastActiveAt.Some? then st.status.lastActiveAt else st.status.createdAt
  }

  predicate IsExpired(st: Stack, now: int) {
    LastActive(st).Some? && now - LastActive(st).value > EXPIRATION
  }

  const INACTIVE_TEXT := "Stack is inactive - all deployments scaled to 0"
  const EXPIRED_TEXT := "Stack expired - all deployments scaled to 0"

  /** The age of an expired stack, put in the message, is a further clock reading and reads `CreatedAt`. */
  function FinishInactive(d: Step, expired: bool, st: Stack): (r: Sys)
    ensures r.faults >= d.s.faults && r.conflicts >= d.s.conflicts && r.origin == d.s.origin
    ensures Faithful(d.s) ==> Faithful(r)
  {
    if !d.ok then RecordError(d.s, st, "Failed to scale down")
    else if !expired then UpdateStatus(d.s, WithPhase(st, Inactive, Text(INACTIVE_TEXT)), Plain).s
    else if st.status.createdAt.None? then d.s.(panicked := true)
    else UpdateStatus(ReadClock(d.s), WithPhase(st, Inactive, Text(EXPIRED_TEXT)), Plain).s
  }

  function HandleInactive(s: Sys, st: Stack): (r: Sys)
    ensures r.faults >= s.faults && r.conflicts >= s.conflicts && r.origin == s.origin
    ensures Faithful(s) ==> Faithful(r)
  {
    var clock := ReadClock(s);
    FinishInactive(ScaleDeployments(clock, 0), IsExpired(st, clock.w.now), st)
  }

  predicate ShouldRollout(st: Stack) {
    st.spec.deployedAt.Some? && st.spec.deployedAt != st.status.lastDeployedAt
  }

  function FinishRollout(d: Step, st: Stack): (r: Res)
    ensures r.s.faults >= d.s.faults && r.s.conflicts >= d.s.conflicts && r.s.origin == d.s.origin
    ensures Faithful(d.s) ==> Faithful(r.s)
    ensures r.s.panicked == d.s.panicked && r.s.crashed == d.s.crashed
  {
    if !d.ok then
      Res(UpdateStatus(d.s, st.(status := st.status.(message := Text("Rollout failed"))), Plain).s, st, false)
    else
      UpdateStatus(d.s, st.(status := st.status.(lastDeployedAt := st.spec.deployedAt)), RolledOut)
  }

  function Rollout(s: Sys, st: Stack): (r: Res)
    ensures r.s.faults >= s.faults && r.s.conflicts >= s.conflicts && r.s.origin == s.origin
    ensures Faithful(s) ==> Faithful(r.s)
    ensures r.s.panicked == s.panicked && r.s.crashed == s.crashed
  {
    if ShouldRollout(st) then FinishRollout(RestartDeployments(s, st.spec.deployedAt.value), st)
    else Res(s, st, true)
  }

  // ---------------------------------------------------------------- Reconcile

  function Reinitialize(u: Res): (r: Sys)
    ensures r.faults >= u.s.faults && r.conflicts >= u.s.conflicts && r.origin == u.s.origin
    ensures Faithful(u.s) ==> Faithful(r)
    ensures r.panicked == u.s.panicked && r.crashed == u.s.crashed
  {
    if u.ok then HandleInitialization(u.s, u.st) else u.s
  }

  function ReconcileByPhase(cfg: Config, pr: string, s: Sys, st: Stack): (r: Sys)
    ensures r.faults >= s.faults && r.conflicts >= s.conflicts && r.origin == s.origin
    ensures Faithful(s) && s.origin.pr == pr ==> Faithful(r)
  {
    match st.status.phase
    case Initialization => HandleInitialization(s, st)
    case Inactive => Reinitialize(UpdateStatus(s, st.(status := st.status.(phase := Initialization)), Plain))
    case Provisioning => HandleProvisioning(pr, s, st)
    case Deploying => HandleDeployment(cfg, pr, s, st)
    case Running => HandleRunning(s, st)
    case Degraded => HandleRunning(s, st)
    case Failed => s
    case Cleaning => HandleCleaning(pr, s, st)
    case Cleaned => s
  }

  function AddFinalizer(s: Sys, st: Stack): (r: Res)
    ensures r.s.faults >= s.faults && r.s.conflicts >= s.conflicts && r.s.origin == s.origin
    ensures Faithful(s) ==> Faithful(r.s)
    ensures r.s.panicked == s.panicked && r.s.crashed == s.crashed
  {
    if FINALIZER in st.finalizers then Res(s, st, true)
    else UpdateStack(s, st.(finalizers := st.finalizers + [FINALIZER]))
  }

  function StampCreation(s: Sys, st: Stack, now: int): (r: Res)
    ensures r.s.faults >= s.faults && r.s.conflicts >= s.conflicts && r.s.origin == s.origin
    ensures Faithful(s) ==> Faithful(r.s)
    ensures r.s.panicked == s.panicked && r.s.crashed == s.crashed
  {
    if st.status.createdAt.Some? then Res(s, st, true)
    else UpdateStatus(s, st.(status := st.status.(createdAt := Some(now), lastActiveAt := Some(now))), Plain)
  }

  /** A write of `LastActiveAt`; in the phase Inactive it is a reactivation, otherwise an expiry renewal. */
  function Renew(s: Sys, st: Stack, now: int): (r: Res)
    ensures r.s.faults >= s.faults && r.s.conflicts >= s.conflicts && r.s.origin == s.origin
    ensures Faithful(s) ==> Faithful(r.s)
    ensures r.s.panicked == s.panicked && r.s.crashed == s.crashed
  {
    UpdateStatus(s, st.(status := st.status.(lastActiveAt := Some(now))),
                 if st.status.phase == Inactive then Plain else Renewed(now, s.w.now))
  }

  predicate Reactivates(st: Stack, read: int) {
    st.spec.active && (st.status.phase == Inactive || IsExpired(st, read))
  }

  /** The rest of `Reconcile` once the expiry checks let it pass. */
  function ReconcileActive(cfg: Config, pr: string, s: Sys, st: Stack): (r: Sys)
    ensures r.faults >= s.faults && r.conflicts >= s.conflicts && r.origin == s.origin
    ensures Faithful(s) && s.origin.pr == pr ==> Faithful(r)
  {
    if !st.spec.active then HandleInactive(s, st) else
    var r := Rollout(s, st);
    if r.ok then ReconcileByPhase(cfg, pr, r.s, r.st) else r.s
  }

  function Deactivated(st: Stack): Stack {
    st.(spec := st.spec.(active := false))
  }

  function ReconcileRenewed(cfg: Config, pr: string, u: Res): (r: Sys)
    ensures r.faults >= u.s.faults && r.conflicts >= u.s.conflicts && r.origin == u.s.origin
    ensures Faithful(u.s) && u.s.origin.pr == pr ==> Faithful(r)
  {
    if u.ok then ReconcileActive(cfg, pr, u.s, u.st) else u.s
  }

  /** `handleStackExpiration`: its log line dereferences `LastActiveAt`. */
  function Expire(s: Sys, st: Stack): (r: Sys)
    ensures r.faults >= s.faults && r.conflicts >= s.conflicts && r.origin == s.origin
    ensures Faithful(s) ==> Faithful(r)
  {
    if st.status.lastActiveAt.None? then s.(panicked := true) else UpdateStack(s, Deactivated(st)).s
  }

  /** The check for expiry proper, by a clock reading of its own. */
  function ReconcileUnrenewed(cfg: Config, pr: string, second: Sys, st: Stack): (r: Sys)
    ensures r.faults >= second.faults && r.conflicts >= second.conflicts && r.origin == second.origin
    ensures Faithful(second) && second.origin.pr == pr ==> Faithful(r)
  {
    if IsExpired(st, second.w.now) && st.spec.active then Expire(second, st)
    else ReconcileActive(cfg, pr, second, st)
  }

  /** Two separate clock readings decide on reactivation and on expiry; the first comes first. */
  function ReconcileExpiry(cfg: Config, pr: string, s: Sys, st: Stack, now: int): (r: Sys)
    ensures r.faults >= s.faults && r.conflicts >= s.conflicts && r.origin == s.origin
    ensures Faithful(s) && s.origin.pr == pr ==> Faithful(r)
  {
    var first := ReadClock(s);
    if Reactivates(st, first.w.now) then ReconcileRenewed(cfg, pr, Renew(first, st, now))
    else ReconcileUnrenewed(cfg, pr, ReadClock(first), st)
  }

  function ReconcileStamped(cfg: Config, pr: string, c: Res, now: int): (r: Sys)
    ensures r.faults >= c.s.faults && r.conflicts >= c.s.conflicts && r.origin == c.s.origin
    ensures Faithful(c.s) && c.s.origin.pr == pr ==> Faithful(r)
  {
    if c.ok then ReconcileExpiry(cfg, pr, c.s, c.st, now) else c.s
  }

  function ReconcileHeld(cfg: Config, pr: string, f: Res): (r: Sys)
    ensures r.faults >= f.s.faults && r.conflicts >= f.s.conflicts && r.origin == f.s.origin
    ensures Faithful(f.s) && f.s.origin.pr == pr ==> Faithful(r)
  {
    if !f.ok then f.s else
    var clock := ReadClock(f.s);
    ReconcileStamped(cfg, pr, StampCreation(clock, f.st, clock.w.now), clock.w.now)
  }

  /** `Reconcile` from the copy it has read. */
  function ReconcileFrom(cfg: Config, pr: string, s: Sys, st: Stack): (r: Sys)
    ensures r.faults >= s.faults && r.conflicts >= s.conflicts && r.origin == s.origin
    ensures Faithful(s) && s.origin.pr == pr ==> Faithful(r)
  {
    if st.deleted then HandleDeletion(pr, s, st) else ReconcileHeld(cfg, pr, AddFinalizer(s, st))
  }

  function Reconcile(cfg: Config, pr: string, s: Sys): (r: Sys)
    ensures r.faults >= s.faults && r.conflicts >= s.conflicts && r.origin == s.origin
    ensures Faithful(s) && s.origin.pr == pr ==> Faithful(r)
  {
    var g := Call(s, GetStack);
    if g.reply.Found? then ReconcileFrom(cfg, pr, g.s, g.reply.st) else g.s
  }

  // ---------------------------------------------------------------- the way to the expiry checks

  /** The point at which a pass comes to its two expiry checks, with the time it has taken for `now`; `Nowhere` if it
      ends before. */
  datatype Arrival = Nowhere | Arrival(s: Sys, st: Stack, now: int)

  function ArriveStamped(c: Res, now: int): Arrival {
    if c.ok then Arrival(c.s, c.st, now) else Nowhere
  }

  function ArriveHeld(f: Res): Arrival {
    if !f.ok then Nowhere else
    var clock := ReadClock(f.s);
    ArriveStamped(StampCreation(clock, f.st, clock.w.now), clock.w.now)
  }

  function ArriveFrom(s: Sys, st: Stack): Arrival {
    if st.deleted then Nowhere else ArriveHeld(AddFinalizer(s, st))
  }

  function Arrive(s: Sys): Arrival {
    var g := Call(s, GetStack);
    if g.reply.Found? then ArriveFrom(g.s, g.reply.st) else Nowhere
  }

  // ---------------------------------------------------------------- runs

  function After1(cfg: Config, pr: string, w: World, tape: seq<Tick>): World {
    Reconcile(cfg, pr, Start(pr, w, tape)).w
  }

  /** A run: one `Reconcile` per tape. Users act inside the tapes, crashes are tapes that end early. */
  function Run(cfg: Config, pr: string, w: World, tapes: seq<seq<Tick>>): World
    decreases |tapes|
  {
    if tapes == [] then w else Run(cfg, pr, After1(cfg, pr, w, tapes[0]), tapes[1..])
  }

  /** The failed calls of a run. */
  function Failures(cfg: Config, pr: string, w: World, tapes: seq<seq<Tick>>): nat
    decreases |tapes|
  {
    if tapes == [] then 0
    else
      var s := Reconcile(cfg, pr, Start(pr, w, tapes[0]));
      s.faults + s.conflicts + Failures(cfg, pr, s.w, tapes[1..])
  }
}
