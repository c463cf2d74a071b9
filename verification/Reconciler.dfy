/** The operator in the form of its source: a reconciler whose methods edit a local copy of the PRStack in place and
    commit it call by call. Each method is proved against the function of the same name in `Handlers`. */
module Reconcilers {
  import opened Types
  import opened Api
  import opened Names
  import opened Conditions
  import opened Handlers
  import opened Clusters
  import opened Invariants
  import opened Safety

  /** The local copy of a PRStack. */
  class PRStack {
    const number: string
    var spec: Spec
    var phase: Phase
    var message: Message
    var createdAt: Option<int>
    var lastActiveAt: Option<int>
    var lastDeployedAt: Option<int>
    var mongo: Option<Credentials>
    var nats: Option<string>
    var redis: Option<string>
    var services: seq<ServiceStatus>
    var conditions: seq<Condition>
    var finalizers: seq<string>
    var deleted: bool
    var version: nat
    var born: nat

    function Value(): Stack
      reads this
    {
      Stack(spec, Status(phase, message, createdAt, lastActiveAt, lastDeployedAt, mongo, nats, redis, services, conditions),
            finalizers, deleted, version, born)
    }

    constructor (number: string, st: Stack)
      ensures this.number == number && Value() == st
    {
      this.number := number;
      spec, phase, message := st.spec, st.status.phase, st.status.message;
      createdAt, lastActiveAt, lastDeployedAt := st.status.createdAt, st.status.lastActiveAt, st.status.lastDeployedAt;
      mongo, nats, redis := st.status.mongo, st.status.nats, st.status.redis;
      services, conditions := st.status.services, st.status.conditions;
      finalizers, deleted, version, born := st.finalizers, st.deleted, st.version, st.born;
    }

    method LoadHistory(s: Status)
      modifies this`createdAt, this`lastActiveAt, this`lastDeployedAt, this`services, this`conditions
      ensures (createdAt, lastActiveAt, lastDeployedAt) == (s.createdAt, s.lastActiveAt, s.lastDeployedAt)
      ensures services == s.services && conditions == s.conditions
    {
      createdAt, lastActiveAt, lastDeployedAt := s.createdAt, s.lastActiveAt, s.lastDeployedAt;
      services, conditions := s.services, s.conditions;
    }

    method LoadStatus(s: Status)
      modifies this`phase, this`message, this`createdAt, this`lastActiveAt, this`lastDeployedAt,
               this`mongo, this`nats, this`redis, this`services, this`conditions
      ensures Value() == old(Value()).(status := s)
    {
      LoadHistory(s);
      phase, message := s.phase, s.message;
      mongo, nats, redis := s.mongo, s.nats, s.redis;
    }

    method Load(st: Stack)
      modifies this
      ensures Value() == st
    {
      LoadStatus(st.status);
      spec, finalizers, deleted, version, born := st.spec, st.finalizers, st.deleted, st.version, st.born;
    }

    /** `setCondition`: overwrites the condition of this kind in place, or appends it. */
    method SetCondition(kind: string, status: bool, reason: string, message: Message, now: int)
      modifies this`conditions
      ensures Value() == WithCondition(old(Value()), kind, status, reason, message, now)
    {
      var c := Condition(kind, status, reason, message, now);
      for i := 0 to |conditions|
        invariant conditions == old(conditions)
        invariant forall j :: 0 <= j < i ==> conditions[j].kind != kind
      {
        if conditions[i].kind == kind {
          IndexIs(conditions, kind, i);
          if conditions[i].status != c.status || conditions[i].reason != c.reason {
            c := c.(time := now);
          } else {
            c := c.(time := conditions[i].time);
          }
          conditions := conditions[i := c];
          return;
        }
      }
      IndexMissing(conditions, kind);
      conditions := conditions + [c];
    }

    method SetReadyCondition(reason: string, message: Message, now: int)
      modifies this`conditions
      ensures Value() == WithReady(old(Value()), reason, message, now)
    {
      SetCondition(READY, true, reason, message, now);
      SetCondition(DEGRADED, false, "Healthy", Text("Stack is operating normally"), now);
    }

    method SetProgressingCondition(reason: string, message: string, now: int)
      modifies this`conditions
      ensures Value() == WithProgress(old(Value()), reason, message, now)
    {
      SetCondition(PROGRESSING, true, reason, Text(message), now);
    }

    method SetPhase(phase: Phase, message: Message)
      modifies this`phase, this`message
      ensures Value() == WithPhase(old(Value()), phase, message)
    {
      this.phase, this.message := phase, message;
    }

    method SetError(what: string, now: int)
      modifies this`phase, this`message, this`conditions
      ensures Value() == WithError(old(Value()), what, now)
    {
      SetPhase(Failed, Text(what));
      SetCondition(READY, false, "Error", Text(what), now);
      SetCondition(DEGRADED, true, "ReconciliationFailed", Text(what), now);
    }

    /** `removeString`, on the finalizers. */
    method RemoveFinalizer(x: string)
      modifies this`finalizers
      ensures Value() == old(Value()).(finalizers := RemoveString(old(finalizers), x))
    {
      for i := 0 to |finalizers|
        invariant finalizers == old(finalizers)
        invariant x !in finalizers[..i]
      {
        if finalizers[i] == x {
          FirstRemoved(finalizers, x, i);
          finalizers := finalizers[..i] + finalizers[i + 1..];
          return;
        }
      }
      NoneRemoved(finalizers, x);
    }
  }

  lemma {:induction false} FirstRemoved(s: seq<string>, x: string, i: nat)
    requires i < |s| && s[i] == x && x !in s[..i]
    ensures RemoveString(s, x) == s[..i] + s[i + 1..]
    decreases i
  {
    if i > 0 {
      var t := s[1..];
      assert t[i - 1] == s[i];
      assert x !in t[..i - 1] by {
        forall j | 0 <= j < i - 1 ensures t[j] != x { assert s[..i][j + 1] == t[j]; }
      }
      FirstRemoved(t, x, i - 1);
      assert s[..i][0] == s[0] != x;
      assert t[..i - 1] == s[1..i] && t[i..] == s[i + 1..];
      assert [s[0]] + s[1..i] == s[..i];
    }
  }

  lemma {:induction false} NoneRemoved(s: seq<string>, x: string)
    requires x !in s
    ensures RemoveString(s, x) == s
    decreases |s|
  {
    if s != [] { NoneRemoved(s[1..], x); }
  }

  lemma NotedLater(s: Sys, w: World, op: Op, t: Tick, reply: Reply)
    ensures Noted(s.(w := w), op, t, Effect(w, reply)) == Noted(s, op, t, Effect(w, reply))
  {
  }

  /** The operator process. `tape` is what will befall its calls; the rest records what has, for the specification. */
  class Reconciler {
    const cluster: Cluster
    const cfg: Config
    var tape: seq<Tick>
    var faults: nat
    var conflicts: nat
    var panicked: bool
    var crashed: bool
    ghost var origin: Origin
    ghost var log: seq<Entry>

    constructor (cluster: Cluster, cfg: Config)
      ensures this.cluster == cluster && this.cfg == cfg
    {
      this.cluster, this.cfg := cluster, cfg;
      tape, faults, conflicts, panicked, crashed := [], 0, 0, false, false;
    }

    /** The process and the PR's part of the cluster, as the specification sees them. */
    ghost function State(pr: string): Sys
      reads this, cluster
    {
      Sys(cluster.View(pr), tape, faults, conflicts, panicked, crashed, origin, log)
    }

    // -------------------------------------------------------------- calls

    /** Takes the next tick: time passes and users act. When the ticks have run out the process is dead. */
    method Advance(pr: string) returns (t: Tick)
      modifies this, cluster
      ensures State(pr) == After(old(State(pr))) && t == Head(old(State(pr)))
      ensures cluster.Others(pr) == old(cluster.Others(pr))
    {
      if tape == [] { return DEAD; }
      t := tape[0];
      cluster.Elapse(pr, t);
      tape, log := tape[1..], log + [Passed(t)];
    }

    /** The answer to a call goes on record. */
    method Note(ghost pr: string, op: Op, t: Tick, reply: Reply)
      modifies this`faults, this`conflicts, this`log
      ensures State(pr) == Noted(old(State(pr)), op, t, Effect(old(State(pr)).w, reply))
    {
      log := log + [Asked(op, t, reply)];
      if !t.outcome.Ok? || Broken(op, reply) {
        if t.outcome.Ok? && WritesStack(op) { conflicts := conflicts + 1; } else { faults := faults + 1; }
      }
    }

    /** A call whose tick has been taken. */
    method Ask(pr: string, op: Op, t: Tick) returns (reply: Reply)
      requires Within(pr, op)
      modifies this, cluster
      ensures var e := Serve(old(State(pr)).w, op, t);
              State(pr) == Noted(old(State(pr)), op, t, e) && reply == e.reply
      ensures cluster.Others(pr) == old(cluster.Others(pr))
    {
      ghost var before := State(pr);
      reply := cluster.Serve(pr, op, t);
      NotedLater(before, cluster.View(pr), op, t, reply);
      Note(pr, op, t, reply);
    }

    /** Every call of the operator, to the API server or to MongoDB. */
    method Call(pr: string, op: Op) returns (reply: Reply)
      requires Within(pr, op)
      modifies this, cluster
      ensures Ret(State(pr), reply) == Api.Call(old(State(pr)), op)
      ensures cluster.Others(pr) == old(cluster.Others(pr))
    {
      if tape == [] {
        faults := faults + 1;
        return Failure;
      }
      var t := Advance(pr);
      reply := Ask(pr, op, t);
    }

    method Now(pr: string)
      modifies this, cluster
      ensures State(pr) == ReadClock(old(State(pr)))
      ensures cluster.Others(pr) == old(cluster.Others(pr))
    {
      var t := Advance(pr);
    }

    method Update(st: PRStack) returns (ok: bool)
      modifies this, cluster, st
      ensures Res(State(st.number), st.Value(), ok) == UpdateStack(old(State(st.number)), old(st.Value()))
      ensures cluster.Others(st.number) == old(cluster.Others(st.number))
    {
      var reply := Call(st.number, PutStack(st.Value()));
      ok := reply.Found?;
      if ok { st.Load(reply.st); }
    }

    method UpdateStatus(st: PRStack, note: Note) returns (ok: bool)
      modifies this, cluster, st
      ensures Res(State(st.number), st.Value(), ok) == Handlers.UpdateStatus(old(State(st.number)), old(st.Value()), note)
      ensures cluster.Others(st.number) == old(cluster.Others(st.number))
    {
      var reply := Call(st.number, PutStatus(st.Value(), note));
      ok := reply.Found?;
      if ok { st.Load(reply.st); }
    }

    method UpdateStatusWithError(st: PRStack, what: string)
      modifies this, cluster, st
      ensures State(st.number) == RecordError(old(State(st.number)), old(st.Value()), what)
      ensures cluster.Others(st.number) == old(cluster.Others(st.number))
    {
      st.SetError(what, cluster.BookOf(st.number).now);
      var ok := UpdateStatus(st, Plain);
    }

    method CreateOrUpdate(pr: string, m: Manifest) returns (ok: bool)
      modifies this, cluster
      ensures Step(State(pr), ok) == Upsert(old(State(pr)), m)
      ensures cluster.Others(pr) == old(cluster.Others(pr))
    {
      var reply := Call(pr, CreateObj(m));
      if reply.Exists? { reply := Call(pr, UpdateObj(m)); }
      ok := reply.Done?;
    }

    // -------------------------------------------------------------- initialization and provisioning

    method HandleInitialization(st: PRStack)
      modifies this, cluster, st
      ensures State(st.number) == Handlers.HandleInitialization(old(State(st.number)), old(st.Value()))
      ensures cluster.Others(st.number) == old(cluster.Others(st.number))
    {
      st.SetPhase(Provisioning, Text("Starting PR stack provisioning"));
      st.SetProgressingCondition("Initializing", "Preparing to provision infrastructure", cluster.BookOf(st.number).now);
      var ok := UpdateStatus(st, Plain);
    }

    method CreateNamespace(pr: string) returns (ok: bool)
      modifies this, cluster
      ensures Step(State(pr), ok) == EnsureNamespace(old(State(pr)))
      ensures cluster.Others(pr) == old(cluster.Others(pr))
    {
      var reply := Call(pr, GetNs(false));
      if reply.NotFound? { reply := Call(pr, CreateNs); }
      ok := reply.Done?;
    }

    /** Creates the databases one by one, up to the first failure. */
    method CreateDatabases(pr: string, databases: seq<string>) returns (ok: bool)
      requires forall i :: 0 <= i < |databases| ==> databases[i] in Touched(pr)
      modifies this, cluster
      ensures Step(State(pr), ok) == MakeDbs(old(State(pr)), databases)
      ensures cluster.Others(pr) == old(cluster.Others(pr))
    {
      for i := 0 to |databases|
        invariant MakeDbs(old(State(pr)), databases) == MakeDbs(State(pr), databases[i..])
        invariant cluster.Others(pr) == old(cluster.Others(pr))
      {
        assert databases[i..][0] == databases[i] && databases[i..][1..] == databases[i + 1..];
        var reply := Call(pr, MakeDb(databases[i]));
        if !reply.Done? { return false; }
      }
      ok := true;
    }

    /** The user is dropped (errors are ignored) and created anew with one role per default service. */
    method ReplaceMongoUser(pr: string, password: string) returns (ok: bool)
      modifies this, cluster
      ensures Step(State(pr), ok) == ReplaceUser(pr, old(State(pr)), password)
      ensures cluster.Others(pr) == old(cluster.Others(pr))
    {
      var roles, databases := ProvisionLists(DEFAULT_SERVICES, pr);
      var reply := Call(pr, DropUser(false));
      reply := Call(pr, CreateUser(MongoUser(password, roles)));
      if !reply.Done? { return false; }
      ok := CreateDatabases(pr, databases);
    }

    method GeneratePassword(pr: string) returns (reply: Reply)
      modifies this, cluster
      ensures Ret(State(pr), reply) == DrawPassword(old(State(pr)))
      ensures cluster.Others(pr) == old(cluster.Others(pr))
    {
      reply := Call(pr, Ping);
      if reply.Done? { reply := Call(pr, Draw); }
    }

    /** Writes the credentials of the new user into the status and commits it. */
    method SaveCredentials(st: PRStack, password: string) returns (ok: bool)
      modifies this, cluster, st
      ensures Res(State(st.number), st.Value(), ok) ==
              StoreCredentials(Step(old(State(st.number)), true), CredentialsFor(st.number, password), old(st.Value()))
      ensures cluster.Others(st.number) == old(cluster.Others(st.number))
    {
      st.mongo := Some(CredentialsFor(st.number, password));
      ok := UpdateStatus(st, Plain);
    }

    method ProvisionMongoDB(st: PRStack) returns (ok: bool)
      modifies this, cluster, st
      ensures Res(State(st.number), st.Value(), ok) == ProvisionMongo(st.number, old(State(st.number)), old(st.Value()))
      ensures cluster.Others(st.number) == old(cluster.Others(st.number))
    {
      var reply := GeneratePassword(st.number);
      if !reply.Password? { return false; }
      ok := ReplaceMongoUser(st.number, reply.password);
      if ok { ok := SaveCredentials(st, reply.password); }
    }

    method CreateMongoDBSecret(st: PRStack) returns (ok: bool)
      modifies this, cluster
      ensures Step(State(st.number), ok) == CreateMongoSecret(old(State(st.number)), st.Value())
      ensures cluster.Others(st.number) == old(cluster.Others(st.number))
    {
      if st.mongo.None? { return false; }
      ok := CreateOrUpdate(st.number, MongoSecret(st.mongo.value));
    }

    /** The end of provisioning: the NATS and Redis blocks, then the phase. */
    method CompleteProvisioning(st: PRStack)
      modifies this, cluster, st
      ensures State(st.number) ==
              Handlers.UpdateStatus(old(State(st.number)),
                                    Provisioned(st.number, old(st.Value()), old(State(st.number)).w.now), Plain).s
      ensures cluster.Others(st.number) == old(cluster.Others(st.number))
    {
      st.nats := Some(NatsUrl(st.number));
      st.redis := Some(RedisUrl(st.number));
      st.SetPhase(Deploying, Text("Resources provisioned, starting service deployment"));
      st.SetProgressingCondition("Deploying", "Deploying services to cluster", cluster.BookOf(st.number).now);
      var ok := UpdateStatus(st, Plain);
    }

    method HandleProvisioning(st: PRStack)
      modifies this, cluster, st
      ensures State(st.number) == Handlers.HandleProvisioning(st.number, old(State(st.number)), old(st.Value()))
      ensures cluster.Others(st.number) == old(cluster.Others(st.number))
    {
      st.SetProgressingCondition("Provisioning", "Provisioning MongoDB, NATS, and Redis", cluster.BookOf(st.number).now);
      var ok := CreateNamespace(st.number);
      if !ok {
        UpdateStatusWithError(st, "Namespace provisioning failed");
        return;
      }
      ok := ProvisionMongoDB(st);
      if !ok {
        UpdateStatusWithError(st, "MongoDB provisioning failed");
        return;
      }
      ok := CreateMongoDBSecret(st);
      if !ok {
        UpdateStatusWithError(st, "MongoDB secret provisioning failed");
        return;
      }
      CompleteProvisioning(st);
    }

    // -------------------------------------------------------------- deployment

    method CreateOrUpdateBoth(pr: string, a: Manifest, b: Manifest) returns (ok: bool)
      modifies this, cluster
      ensures Step(State(pr), ok) == UpsertAll(old(State(pr)), [a, b])
      ensures cluster.Others(pr) == old(cluster.Others(pr))
    {
      UpsertTwo(State(pr), a, b);
      ok := CreateOrUpdate(pr, a);
      if ok { ok := CreateOrUpdate(pr, b); }
    }

    method CreateRegistrySecret(pr: string) returns (ok: bool)
      modifies this, cluster
      ensures Step(State(pr), ok) == UpsertAll(old(State(pr)), RegistryManifests(cfg))
      ensures cluster.Others(pr) == old(cluster.Others(pr))
    {
      if cfg.registry.None? { return true; }
      UpsertOne(State(pr), SecretManifest("ghcr-secret", cfg.registry.value));
      ok := CreateOrUpdate(pr, SecretManifest("ghcr-secret", cfg.registry.value));
    }

    method CreateUrlConfig(pr: string, name: string, url: Option<string>) returns (failed: Option<string>)
      requires !panicked
      modifies this, cluster
      ensures Infra(State(pr), failed) == UrlStage(Infra(old(State(pr)), None), name, url)
      ensures cluster.Others(pr) == old(cluster.Others(pr))
    {
      if url.None? {
        panicked := true;
        return None;
      }
      UpsertOne(State(pr), UrlManifest(name, url.value));
      var ok := CreateOrUpdate(pr, UrlManifest(name, url.value));
      failed := if ok then None else Some(MONGO_FAILED);
    }

    /** The config maps of NATS and Redis. */
    method CreateServerConfigs(st: PRStack) returns (failed: Option<string>)
      requires !panicked
      modifies this, cluster
      ensures Infra(State(st.number), failed) ==
              UrlStage(UrlStage(Infra(old(State(st.number)), None), "nats-config", st.nats), "redis-config", st.redis)
      ensures cluster.Others(st.number) == old(cluster.Others(st.number))
    {
      failed := CreateUrlConfig(st.number, "nats-config", st.nats);
      if panicked || failed.Some? { return; }
      failed := CreateUrlConfig(st.number, "redis-config", st.redis);
    }

    /** The config map with all database names and the connection, and the secret. */
    method CreateMongoDBConfig(pr: string, c: Credentials) returns (ok: bool)
      modifies this, cluster
      ensures Step(State(pr), ok) == UpsertAll(old(State(pr)), MongoManifests(pr, c))
      ensures cluster.Others(pr) == old(cluster.Others(pr))
    {
      var data := DatabaseConfigMapData(pr);
      data := data["uri" := c.connection];
      ok := CreateOrUpdateBoth(pr, ObjectManifest(MONGO_CONFIG, Data(data)), MongoSecret(c));
    }

    method CreateMongoDBResources(st: PRStack) returns (failed: Option<string>)
      requires !panicked
      modifies this, cluster
      ensures Infra(State(st.number), failed) == MongoStages(st.number, Infra(old(State(st.number)), None), st.Value().status)
      ensures cluster.Others(st.number) == old(cluster.Others(st.number))
    {
      if st.mongo.None? {
        panicked := true;
        return None;
      }
      var ok := CreateMongoDBConfig(st.number, st.mongo.value);
      if !ok { return Some(MONGO_FAILED); }
      failed := CreateServerConfigs(st);
    }

    method EnsureBackupStorage(st: PRStack) returns (ok: bool)
      modifies this, cluster
      ensures Step(State(st.number), ok) == EnsureVolume(old(State(st.number)), st.spec)
      ensures cluster.Others(st.number) == old(cluster.Others(st.number))
    {
      if !st.spec.backup { return true; }
      if !st.spec.storageParses { return false; }
      var reply := Call(st.number, GetObj(ObjectRef(VOLUME)));
      if reply.NotFound? { reply := Call(st.number, CreateObj(ObjectManifest(VOLUME, Line("")))); }
      ok := reply.Done?;
    }

    /** NATS, Redis and the backup storage. */
    method CreateServers(st: PRStack) returns (failed: Option<string>)
      requires !panicked
      modifies this, cluster
      ensures Infra(State(st.number), failed) == DeployServers(st.number, Infra(old(State(st.number)), None), st.spec)
      ensures cluster.Others(st.number) == old(cluster.Others(st.number))
    {
      var pr := st.number;
      var ok := CreateOrUpdateBoth(pr, DeploymentManifest("nats", Deployment(Some(1), None, "nats:2.10-alpine", None)),
                                   ObjectManifest(Key(Service, "nats"), Line(pr)));
      if !ok { return Some("Failed to create NATS resources"); }
      ok := CreateOrUpdateBoth(pr, DeploymentManifest("redis", Deployment(Some(1), None, "redis:7-alpine", None)),
                               ObjectManifest(Key(Service, "redis"), Line(pr)));
      if !ok { return Some("Failed to create Redis resources"); }
      ok := EnsureBackupStorage(st);
      failed := if ok then None else Some("Failed to create backup storage");
    }

    /** `createServiceDeployment`, once the resource limits have parsed. */
    method CreateServiceDeployment(st: PRStack, service: string) returns (ok: bool)
      modifies this, cluster
      ensures Step(State(st.number), ok) ==
              UpsertAll(old(State(st.number)), ServiceManifests(cfg, st.number, st.spec, service))
      ensures cluster.Others(st.number) == old(cluster.Others(st.number))
    {
      var pr := st.number;
      var replicas := if st.spec.active then 1 else 0;
      var a := DeploymentManifest(service, Deployment(Some(replicas), None, ImageFor(pr, st.spec, service),
                                                    Some(DatabaseName(service, pr))));
      var c := ObjectManifest(Key(Ingress, service), Line(DomainFor(cfg, pr, st.spec)));
      ServiceUpserts(cfg, pr, State(pr), st.spec, service, a, c);
      ok := CreateOrUpdateBoth(pr, a, ObjectManifest(Key(Service, service), Line(pr)));
      if ok && service == "graphql-service" { ok := CreateOrUpdate(pr, c); }
    }

    /** One entry per service, in order, and the number of failed ones. */
    method DeployServices(st: PRStack, services: seq<string>) returns (statuses: seq<ServiceStatus>, failedServices: nat)
      requires !crashed
      modifies this, cluster
      ensures State(st.number) == Handlers.DeployServices(cfg, st.number, old(State(st.number)), st.spec, services).s
      ensures statuses == Handlers.DeployServices(cfg, st.number, old(State(st.number)), st.spec, services).statuses
      ensures failedServices == CountFailed(statuses)
      ensures cluster.Others(st.number) == old(cluster.Others(st.number))
    {
      statuses, failedServices := [], 0;
      ghost var all := Handlers.DeployServices(cfg, st.number, State(st.number), st.spec, services);
      for i := 0 to |services|
        invariant !crashed && failedServices == CountFailed(statuses)
        invariant Agree(all, Handlers.DeployServices(cfg, st.number, State(st.number), st.spec, services[i..]), statuses)
        invariant cluster.Others(st.number) == old(cluster.Others(st.number))
      {
        assert services[i..][0] == services[i] && services[i..][1..] == services[i + 1..];
        FirstService(cfg, st.number, State(st.number), st.spec, services[i..], all, statuses);
        if !st.spec.limitsParse {
          crashed := true;
          return;
        }
        var ok := CreateServiceDeployment(st, services[i]);
        CountFailedMore(statuses, ServiceStatus(services[i], ok));
        statuses := statuses + [ServiceStatus(services[i], ok)];
        if !ok { failedServices := failedServices + 1; }
      }
    }

    /** The phase, message and conditions that the outcomes of the services ask for. */
    method Conclude(st: PRStack, statuses: seq<ServiceStatus>, failedServices: nat)
      requires failedServices <= |statuses|
      modifies st
      ensures st.Value() == Concluded(old(st.Value()), statuses, failedServices, cluster.BookOf(st.number).now)
    {
      var now, total := cluster.BookOf(st.number).now, |statuses|;
      st.services := statuses;
      if failedServices == total {
        var message := Count("All services failed to deploy", total, total);
        st.SetPhase(Failed, message);
        st.SetCondition(READY, false, "AllServicesFailed", message, now);
        st.SetCondition(DEGRADED, true, "AllServicesFailed", Text("No services are running"), now);
      } else if failedServices > 0 {
        st.SetPhase(Degraded, Count("Stack is degraded", failedServices, total));
        st.SetCondition(READY, true, "PartiallyDegraded", Count("services running", total - failedServices, total), now);
        st.SetCondition(DEGRADED, true, "ServiceFailures", Count("services failed to deploy", failedServices, total), now);
      } else {
        st.SetPhase(Running, Text("PR stack is running"));
        st.SetReadyCondition("StackRunning", Count("All services deployed successfully", total, total), now);
        st.SetProgressingCondition("Complete", "Stack deployment completed", now);
      }
    }

    method RunServices(st: PRStack)
      requires !panicked && !crashed
      modifies this, cluster, st
      ensures State(st.number) == Handlers.RunServices(cfg, st.number, Infra(old(State(st.number)), None), old(st.Value()))
      ensures cluster.Others(st.number) == old(cluster.Others(st.number))
    {
      var services := if st.spec.services == [] then DEFAULT_SERVICES else st.spec.services;
      var statuses, failedServices := DeployServices(st, services);
      if crashed { return; }
      Conclude(st, statuses, failedServices);
      var ok := UpdateStatus(st, Plain);
    }

    /** The registry secret and what `createMongoDBResources` writes. */
    method DeployConfiguration(st: PRStack) returns (failed: Option<string>)
      requires !panicked
      modifies this, cluster
      ensures Infra(State(st.number), failed) == DeployConfig(cfg, st.number, old(State(st.number)), st.Value().status)
      ensures cluster.Others(st.number) == old(cluster.Others(st.number))
    {
      var ok := CreateRegistrySecret(st.number);
      if !ok { return Some("Failed to create registry secret"); }
      failed := CreateMongoDBResources(st);
    }

    /** Everything before the services, up to the first failure. */
    method PrepareDeployment(st: PRStack) returns (failed: Option<string>)
      requires !panicked
      modifies this, cluster
      ensures Infra(State(st.number), failed) ==
              DeployServers(st.number, DeployConfig(cfg, st.number, old(State(st.number)), st.Value().status), st.spec)
      ensures cluster.Others(st.number) == old(cluster.Others(st.number))
    {
      failed := DeployConfiguration(st);
      if panicked || failed.Some? { return; }
      failed := CreateServers(st);
    }

    method HandleDeployment(st: PRStack)
      requires !panicked && !crashed
      modifies this, cluster, st
      ensures State(st.number) == Handlers.HandleDeployment(cfg, st.number, old(State(st.number)), old(st.Value()))
      ensures cluster.Others(st.number) == old(cluster.Others(st.number))
    {
      var failed := PrepareDeployment(st);
      if panicked { return; }
      if failed.Some? {
        UpdateStatusWithError(st, failed.value);
        return;
      }
      RunServices(st);
    }

    // -------------------------------------------------------------- running stacks

    method ScaleDeployments(pr: string, replicas: int) returns (ok: bool)
      modifies this, cluster
      ensures Step(State(pr), ok) == Handlers.ScaleDeployments(old(State(pr)), replicas)
      ensures cluster.Others(pr) == old(cluster.Others(pr))
    {
      var reply := Call(pr, ListDeployments);
      if !reply.Items? { return false; }
      var items := reply.items;
      ghost var all := ScaleEach(State(pr), items, replicas);
      for i := 0 to |items|
        invariant all == ScaleEach(State(pr), items[i..], replicas)
        invariant cluster.Others(pr) == old(cluster.Others(pr))
      {
        assert items[i..][0] == items[i] && items[i..][1..] == items[i + 1..];
        var d := items[i].deployment;
        if d.replicas != Some(replicas) {
          reply := Call(pr, UpdateObj(DeploymentManifest(items[i].name, d.(replicas := Some(replicas)))));
          if !reply.Done? { return false; }
        }
      }
      ok := true;
    }

    method RolloutDeployments(pr: string, at: int) returns (ok: bool)
      modifies this, cluster
      ensures Step(State(pr), ok) == RestartDeployments(old(State(pr)), at)
      ensures cluster.Others(pr) == old(cluster.Others(pr))
    {
      var reply := Call(pr, ListDeployments);
      if !reply.Items? { return false; }
      var items := reply.items;
      ghost var all := RestartEach(State(pr), items, at);
      for i := 0 to |items|
        invariant all == RestartEach(State(pr), items[i..], at)
        invariant cluster.Others(pr) == old(cluster.Others(pr))
      {
        assert items[i..][0] == items[i] && items[i..][1..] == items[i + 1..];
        var d := items[i].deployment.(restartedAt := Some(at));
        reply := Call(pr, UpdateObj(DeploymentManifest(items[i].name, d)));
        if !reply.Done? { return false; }
      }
      ok := true;
    }

    /** The List and the scaling of `handleRunning`; neither may fail it. */
    method MatchReplicas(pr: string, active: bool)
      modifies this, cluster
      ensures State(pr) == Handlers.MatchReplicas(old(State(pr)), active)
      ensures cluster.Others(pr) == old(cluster.Others(pr))
    {
      var reply := Call(pr, ListDeployments);
      if reply.Items? && |reply.items| > 0 {
        var desired := if active then 1 else 0;
        var current := -1;
        if reply.items[0].deployment.replicas.Some? { current := reply.items[0].deployment.replicas.value; }
        if current != desired { var ok := ScaleDeployments(pr, desired); }
      }
    }

    method AllHealthy(services: seq<ServiceStatus>) returns (allHealthy: bool)
      ensures allHealthy == AllRunning(services)
    {
      allHealthy := true;
      for i := 0 to |services|
        invariant allHealthy && forall j :: 0 <= j < i ==> services[j].running
      {
        if !services[i].running {
          allHealthy := false;
          break;
        }
      }
    }

    method ReportUnhealthy(st: PRStack)
      modifies this, cluster, st
      ensures State(st.number) ==
              Handlers.UpdateStatus(old(State(st.number)),
                                    old(st.Value()).(status := old(st.Value()).status.(message := UNHEALTHY)), Plain).s
      ensures cluster.Others(st.number) == old(cluster.Others(st.number))
    {
      st.message := UNHEALTHY;
      var ok := UpdateStatus(st, Plain);
    }

    method HandleRunning(st: PRStack)
      modifies this, cluster, st
      ensures State(st.number) == Handlers.HandleRunning(old(State(st.number)), old(st.Value()))
      ensures cluster.Others(st.number) == old(cluster.Others(st.number))
    {
      MatchReplicas(st.number, st.spec.active);
      var allHealthy := AllHealthy(st.services);
      if !allHealthy { ReportUnhealthy(st); }
    }

    // -------------------------------------------------------------- inactive stacks and rollouts

    method ReportInactive(st: PRStack, text: string)
      modifies this, cluster, st
      ensures State(st.number) ==
              Handlers.UpdateStatus(old(State(st.number)), WithPhase(old(st.Value()), Inactive, Text(text)), Plain).s
      ensures cluster.Others(st.number) == old(cluster.Others(st.number))
    {
      st.SetPhase(Inactive, Text(text));
      var ok := UpdateStatus(st, Plain);
    }

    /** The age of an expired stack is computed for the message: another clock reading, and a dereference. */
    method FinishInactive(st: PRStack, expired: bool)
      modifies this, cluster, st
      ensures State(st.number) == Handlers.FinishInactive(Step(old(State(st.number)), true), expired, old(st.Value()))
      ensures cluster.Others(st.number) == old(cluster.Others(st.number))
    {
      if !expired {
        ReportInactive(st, INACTIVE_TEXT);
      } else if st.createdAt.None? {
        panicked := true;
      } else {
        Now(st.number);
        ReportInactive(st, EXPIRED_TEXT);
      }
    }

    method HandleInactiveStack(st: PRStack)
      modifies this, cluster, st
      ensures State(st.number) == HandleInactive(old(State(st.number)), old(st.Value()))
      ensures cluster.Others(st.number) == old(cluster.Others(st.number))
    {
      Now(st.number);
      var expired := IsExpired(st.Value(), cluster.BookOf(st.number).now);
      var ok := ScaleDeployments(st.number, 0);
      if !ok {
        UpdateStatusWithError(st, "Failed to scale down");
        return;
      }
      FinishInactive(st, expired);
    }

    method CompleteRollout(st: PRStack) returns (ok: bool)
      modifies this, cluster, st
      ensures Res(State(st.number), st.Value(), ok) ==
              FinishRollout(Step(old(State(st.number)), true), old(st.Value()))
      ensures cluster.Others(st.number) == old(cluster.Others(st.number))
    {
      st.lastDeployedAt := st.spec.deployedAt;
      ok := UpdateStatus(st, RolledOut);
    }

    method ReportRollout(st: PRStack)
      modifies this, cluster, st
      ensures State(st.number) == FinishRollout(Step(old(State(st.number)), false), old(st.Value())).s
      ensures cluster.Others(st.number) == old(cluster.Others(st.number))
    {
      st.message := Text("Rollout failed");
      var ok := UpdateStatus(st, Plain);
    }

    /** The rollout part of `Reconcile`; after a failed one the copy is not used any more. */
    method RolloutIfDue(st: PRStack) returns (ok: bool)
      modifies this, cluster, st
      ensures var r := Rollout(old(State(st.number)), old(st.Value()));
              State(st.number) == r.s && ok == r.ok && (ok ==> st.Value() == r.st)
      ensures cluster.Others(st.number) == old(cluster.Others(st.number))
    {
      if !ShouldRollout(st.Value()) { return true; }
      ok := RolloutDeployments(st.number, st.spec.deployedAt.value);
      if ok {
        ok := CompleteRollout(st);
      } else {
        ReportRollout(st);
      }
    }

    // -------------------------------------------------------------- deletion

    method DropDatabases(pr: string, databases: seq<string>)
      requires forall i :: 0 <= i < |databases| ==> databases[i] in Touched(pr)
      modifies this, cluster
      ensures State(pr) == DropDbs(old(State(pr)), databases)
      ensures cluster.Others(pr) == old(cluster.Others(pr))
    {
      ghost var all := DropDbs(State(pr), databases);
      for i := 0 to |databases|
        invariant all == DropDbs(State(pr), databases[i..])
        invariant cluster.Others(pr) == old(cluster.Others(pr))
      {
        assert databases[i..][0] == databases[i] && databases[i..][1..] == databases[i + 1..];
        var reply := Call(pr, DropDb(databases[i]));
      }
    }

    /** `cleanupMongoDB`: it builds its own names, and only the connection can fail it. */
    method CleanupMongoDB(pr: string) returns (ok: bool)
      modifies this, cluster
      ensures Step(State(pr), ok) == CleanupMongo(pr, old(State(pr)))
      ensures cluster.Others(pr) == old(cluster.Others(pr))
    {
      var reply := Call(pr, Ping);
      if !reply.Done? { return false; }
      DropDatabases(pr, CleanupDatabaseNames(DEFAULT_SERVICES, pr));
      reply := Call(pr, DropUser(true));
      ok := true;
    }

    method DeleteIfFound(pr: string, ref: Ref) returns (ok: bool)
      modifies this, cluster
      ensures Step(State(pr), ok) == CleanupObj(old(State(pr)), ref)
      ensures cluster.Others(pr) == old(cluster.Others(pr))
    {
      var reply := Call(pr, GetObj(ref));
      if !reply.Done? { return true; }
      reply := Call(pr, DeleteObj(ref));
      ok := reply.Done?;
    }

    /** `cleanupNATS` and `cleanupRedis`. */
    method CleanupServer(pr: string, name: string) returns (ok: bool)
      modifies this, cluster
      ensures Step(State(pr), ok) == Handlers.CleanupServer(old(State(pr)), name)
      ensures cluster.Others(pr) == old(cluster.Others(pr))
    {
      ok := DeleteIfFound(pr, DeploymentRef(name));
      if ok { ok := DeleteIfFound(pr, ObjectRef(Key(Service, name))); }
    }

    method CleanupNamespace(pr: string) returns (ok: bool)
      modifies this, cluster
      ensures Step(State(pr), ok) == Handlers.CleanupNamespace(old(State(pr)))
      ensures cluster.Others(pr) == old(cluster.Others(pr))
    {
      var reply := Call(pr, GetNs(true));
      if !reply.Done? { return true; }
      reply := Call(pr, DeleteNs);
      ok := reply.Done?;
    }

    /** `cleanupAllResources`: of all the errors on the way only that of the namespace is returned. */
    method CleanupAllResources(pr: string) returns (ok: bool)
      modifies this, cluster
      ensures Step(State(pr), ok) == CleanupAll(pr, old(State(pr)))
      ensures cluster.Others(pr) == old(cluster.Others(pr))
    {
      ok := CleanupMongoDB(pr);
      ok := CleanupServer(pr, "nats");
      ok := CleanupServer(pr, "redis");
      ok := CleanupNamespace(pr);
    }

    method CreateBackup(st: PRStack)
      modifies this, cluster
      ensures State(st.number) == Backup(st.number, old(State(st.number)), st.Value())
      ensures cluster.Others(st.number) == old(cluster.Others(st.number))
    {
      if st.spec.backup && st.mongo.Some? {
        var job := Key(Job(cluster.BookOf(st.number).now), "backup-pr-" + st.number);
        var reply := Call(st.number, CreateObj(ObjectManifest(job, Line(""))));
      }
    }

    /** The four cleanups of `handleCleaning`, up to the first error. */
    method CleanupPass(pr: string) returns (failed: Option<string>)
      modifies this, cluster
      ensures Infra(State(pr), failed) == Handlers.CleanupPass(pr, old(State(pr)))
      ensures cluster.Others(pr) == old(cluster.Others(pr))
    {
      var ok := CleanupAllResources(pr);
      if !ok { return Some("Kubernetes cleanup failed"); }
      ok := CleanupMongoDB(pr);
      if !ok { return Some("MongoDB cleanup failed"); }
      ok := CleanupServer(pr, "nats");
      if !ok { return Some("NATS cleanup failed"); }
      ok := CleanupServer(pr, "redis");
      failed := if ok then None else Some("Redis cleanup failed");
    }

    method DropFinalizer(st: PRStack)
      modifies this, cluster, st
      ensures State(st.number) ==
              Handlers.RemoveFinalizer(Res(old(State(st.number)), old(st.Value()), true))
      ensures cluster.Others(st.number) == old(cluster.Others(st.number))
    {
      st.RemoveFinalizer(FINALIZER);
      var ok := Update(st);
    }

    method HandleCleaning(st: PRStack)
      modifies this, cluster, st
      ensures State(st.number) == Handlers.HandleCleaning(st.number, old(State(st.number)), old(st.Value()))
      ensures cluster.Others(st.number) == old(cluster.Others(st.number))
    {
      CreateBackup(st);
      var failed := CleanupPass(st.number);
      if failed.Some? {
        UpdateStatusWithError(st, failed.value);
        return;
      }
      st.SetPhase(Cleaned, Text("All resources have been cleaned up"));
      var ok := UpdateStatus(st, Plain);
      if ok { DropFinalizer(st); }
    }

    method HandleDeletion(st: PRStack)
      modifies this, cluster, st
      ensures State(st.number) == Handlers.HandleDeletion(st.number, old(State(st.number)), old(st.Value()))
      ensures cluster.Others(st.number) == old(cluster.Others(st.number))
    {
      if st.phase == Cleaning {
        HandleCleaning(st);
      } else {
        st.SetPhase(Cleaning, Text("Cleaning up PR stack resources"));
        var ok := UpdateStatus(st, Plain);
      }
    }

    // -------------------------------------------------------------- Reconcile

    method Reactivate(st: PRStack)
      modifies this, cluster, st
      ensures var x := old(st.Value());
              State(st.number) ==
              Reinitialize(Handlers.UpdateStatus(old(State(st.number)),
                                                 x.(status := x.status.(phase := Initialization)), Plain))
      ensures cluster.Others(st.number) == old(cluster.Others(st.number))
    {
      st.phase := Initialization;
      var ok := UpdateStatus(st, Plain);
      if ok { HandleInitialization(st); }
    }

    method ReconcileByPhase(st: PRStack)
      requires !panicked && !crashed
      modifies this, cluster, st
      ensures State(st.number) == Handlers.ReconcileByPhase(cfg, st.number, old(State(st.number)), old(st.Value()))
      ensures cluster.Others(st.number) == old(cluster.Others(st.number))
    {
      match st.phase
      case Initialization => HandleInitialization(st);
      case Inactive => Reactivate(st);
      case Provisioning => HandleProvisioning(st);
      case Deploying => HandleDeployment(st);
      case Running => HandleRunning(st);
      case Degraded => HandleRunning(st);
      case Failed =>
      case Cleaning => HandleCleaning(st);
      case Cleaned =>
    }

    method ReconcileActive(st: PRStack)
      requires !panicked && !crashed
      modifies this, cluster, st
      ensures State(st.number) == Handlers.ReconcileActive(cfg, st.number, old(State(st.number)), old(st.Value()))
      ensures cluster.Others(st.number) == old(cluster.Others(st.number))
    {
      if !st.spec.active {
        HandleInactiveStack(st);
        return;
      }
      var ok := RolloutIfDue(st);
      if ok { ReconcileByPhase(st); }
    }

    method AddFinalizer(st: PRStack) returns (ok: bool)
      modifies this, cluster, st
      ensures var r := Handlers.AddFinalizer(old(State(st.number)), old(st.Value()));
              State(st.number) == r.s && ok == r.ok && (ok ==> st.Value() == r.st)
      ensures cluster.Others(st.number) == old(cluster.Others(st.number))
    {
      if FINALIZER in st.finalizers { return true; }
      st.finalizers := st.finalizers + [FINALIZER];
      ok := Update(st);
    }

    method StampCreation(st: PRStack, now: int) returns (ok: bool)
      modifies this, cluster, st
      ensures var r := Handlers.StampCreation(old(State(st.number)), old(st.Value()), now);
              State(st.number) == r.s && ok == r.ok && (ok ==> st.Value() == r.st)
      ensures cluster.Others(st.number) == old(cluster.Others(st.number))
    {
      if st.createdAt.Some? { return true; }
      st.createdAt, st.lastActiveAt := Some(now), Some(now);
      ok := UpdateStatus(st, Plain);
    }

    method Renew(st: PRStack, now: int) returns (ok: bool)
      modifies this, cluster, st
      ensures Res(State(st.number), st.Value(), ok) == Handlers.Renew(old(State(st.number)), old(st.Value()), now)
      ensures cluster.Others(st.number) == old(cluster.Others(st.number))
    {
      var note := if st.phase == Inactive then Plain else Renewed(now, cluster.BookOf(st.number).now);
      st.lastActiveAt := Some(now);
      ok := UpdateStatus(st, note);
    }

    method HandleStackExpiration(st: PRStack)
      modifies this, cluster, st
      ensures State(st.number) == Expire(old(State(st.number)), old(st.Value()))
      ensures cluster.Others(st.number) == old(cluster.Others(st.number))
    {
      if st.lastActiveAt.None? {
        panicked := true;
        return;
      }
      st.spec := st.spec.(active := false);
      var ok := Update(st);
    }

    /** Reactivation, expiry, and what comes after them. */
    method ReconcileExpiry(st: PRStack, now: int)
      requires !panicked && !crashed
      modifies this, cluster, st
      ensures State(st.number) == Handlers.ReconcileExpiry(cfg, st.number, old(State(st.number)), old(st.Value()), now)
      ensures cluster.Others(st.number) == old(cluster.Others(st.number))
    {
      Now(st.number);
      if Reactivates(st.Value(), cluster.BookOf(st.number).now) {
        var ok := Renew(st, now);
        if ok { ReconcileActive(st); }
        return;
      }
      Now(st.number);
      if IsExpired(st.Value(), cluster.BookOf(st.number).now) && st.spec.active {
        HandleStackExpiration(st);
      } else {
        ReconcileActive(st);
      }
    }

    /** A stack that is not deleted. */
    method ReconcileLive(st: PRStack)
      requires !panicked && !crashed
      modifies this, cluster, st
      ensures State(st.number) ==
              ReconcileHeld(cfg, st.number, Handlers.AddFinalizer(old(State(st.number)), old(st.Value())))
      ensures cluster.Others(st.number) == old(cluster.Others(st.number))
    {
      var ok := AddFinalizer(st);
      if !ok { return; }
      Now(st.number);
      var now := cluster.BookOf(st.number).now;
      ok := StampCreation(st, now);
      if ok { ReconcileExpiry(st, now); }
    }

    method Begin(pr: string, ticks: seq<Tick>)
      modifies this
      ensures State(pr) == Start(pr, cluster.View(pr), ticks)
    {
      tape, faults, conflicts, panicked, crashed := ticks, 0, 0, false, false;
      origin, log := Origin(pr, cluster.View(pr)), [];
    }

    /** A pass from the copy it has read. */
    method ReconcileCopy(st: PRStack)
      requires !panicked && !crashed
      modifies this, cluster, st
      ensures State(st.number) == ReconcileFrom(cfg, st.number, old(State(st.number)), old(st.Value()))
      ensures cluster.Others(st.number) == old(cluster.Others(st.number))
    {
      if st.deleted {
        HandleDeletion(st);
      } else {
        ReconcileLive(st);
      }
    }

    /** One pass: it computes what the specification says, and leaves every other PR alone. */
    method Reconcile(pr: string, ticks: seq<Tick>)
      modifies this, cluster
      ensures State(pr) == Handlers.Reconcile(cfg, pr, Start(pr, old(cluster.View(pr)), ticks))
      ensures cluster.Others(pr) == old(cluster.Others(pr))
    {
      Begin(pr, ticks);
      var reply := Call(pr, GetStack);
      if reply.Found? {
        var st := new PRStack(pr, reply.st);
        ReconcileCopy(st);
      }
    }

    /** Non-interference of whole passes: a schedule of passes of many PRs leaves of each PR what the run of its own
        passes leaves. */
    method RunAll(schedule: seq<Pass>)
      modifies this, cluster
      ensures forall p :: cluster.View(p) == Run(cfg, p, old(cluster.View(p)), TapesOf(schedule, p))
    {
      for i := 0 to |schedule|
        invariant forall p :: cluster.View(p) == Run(cfg, p, old(cluster.View(p)), TapesOf(schedule[..i], p))
      {
        var pass := schedule[i];
        ghost var views := cluster.Views();
        cluster.AllApart(pass.pr);
        Reconcile(pass.pr, pass.ticks);
        cluster.AllApart(pass.pr);
        forall p ensures cluster.View(p) == Run(cfg, p, old(cluster.View(p)), TapesOf(schedule[..i + 1], p)) {
          ScheduleGrows(cfg, old(cluster.View(p)), views(p), cluster.View(p), schedule, i, p);
        }
      }
      assert schedule[..|schedule|] == schedule;
    }
  }

  /** What is left to do, `rest`, completes what was asked for, `all`. */
  predicate Agree(all: Services, rest: Services, statuses: seq<ServiceStatus>) {
    all.s == rest.s && all.statuses == statuses + rest.statuses
  }

  lemma FirstService(cfg: Config, pr: string, s: Sys, spec: Spec, services: seq<string>, all: Services,
                     statuses: seq<ServiceStatus>)
    requires !s.crashed && services != []
    requires Agree(all, Handlers.DeployServices(cfg, pr, s, spec, services), statuses)
    ensures !spec.limitsParse ==> Agree(all, Services(s.(crashed := true), []), statuses)
    ensures spec.limitsParse ==>
              var u := UpsertAll(s, ServiceManifests(cfg, pr, spec, services[0]));
              Agree(all, Handlers.DeployServices(cfg, pr, u.s, spec, services[1..]),
                    statuses + [ServiceStatus(services[0], u.ok)])
  {
    var u := UpsertAll(s, ServiceManifests(cfg, pr, spec, services[0]));
    var rest := Handlers.DeployServices(cfg, pr, u.s, spec, services[1..]).statuses;
    assert statuses + ([ServiceStatus(services[0], u.ok)] + rest) == statuses + [ServiceStatus(services[0], u.ok)] + rest;
  }

  lemma {:induction false} CountFailedMore(statuses: seq<ServiceStatus>, last: ServiceStatus)
    ensures CountFailed(statuses + [last]) == CountFailed(statuses) + if last.running then 0 else 1
    decreases |statuses|
  {
    if statuses != [] {
      assert (statuses + [last])[1..] == statuses[1..] + [last];
      CountFailedMore(statuses[1..], last);
    }
  }

  lemma ServiceUpserts(cfg: Config, pr: string, s: Sys, spec: Spec, service: string, a: Manifest, c: Manifest)
    requires a == DeploymentManifest(service, ServiceDeployment(pr, spec, service))
    requires c == ObjectManifest(Key(Ingress, service), Line(DomainFor(cfg, pr, spec)))
    ensures var u := UpsertAll(s, [a, ObjectManifest(Key(Service, service), Line(pr))]);
            UpsertAll(s, ServiceManifests(cfg, pr, spec, service)) ==
            if u.ok && service == "graphql-service" then Upsert(u.s, c) else u
  {
    var b := ObjectManifest(Key(Service, service), Line(pr));
    UpsertThree(s, a, b, c);
    assert [a, b] + [] == [a, b];
  }

  lemma UpsertOne(s: Sys, a: Manifest)
    ensures UpsertAll(s, [a]) == Upsert(s, a)
  {
    assert [a][1..] == [];
  }

  lemma UpsertTwo(s: Sys, a: Manifest, b: Manifest)
    ensures UpsertAll(s, [a, b]) == if Upsert(s, a).ok then Upsert(Upsert(s, a).s, b) else Upsert(s, a)
  {
    assert [a, b][1..] == [b];
    UpsertOne(Upsert(s, a).s, b);
  }

  lemma UpsertThree(s: Sys, a: Manifest, b: Manifest, c: Manifest)
    ensures UpsertAll(s, [a, b] + [c]) ==
            var u := UpsertAll(s, [a, b]); if u.ok then Upsert(u.s, c) else u
  {
    assert ([a, b] + [c])[0] == a && ([a, b] + [c])[1..] == [b, c];
    UpsertTwo(s, a, b);
    UpsertTwo(Upsert(s, a).s, b, c);
  }

  // ---------------------------------------------------------------- schedules of passes

  datatype Pass = Pass(pr: string, ticks: seq<Tick>)

  function TapesOf(schedule: seq<Pass>, pr: string): seq<seq<Tick>>
    decreases |schedule|
  {
    if schedule == [] then []
    else
      var sofar := TapesOf(schedule[..|schedule| - 1], pr);
      var last := schedule[|schedule| - 1];
      if last.pr == pr then sofar + [last.ticks] else sofar
  }

  lemma {:induction false} RunMore(cfg: Config, pr: string, w: World, tapes: seq<seq<Tick>>, last: seq<Tick>)
    ensures Run(cfg, pr, w, tapes + [last]) == After1(cfg, pr, Run(cfg, pr, w, tapes), last)
    decreases |tapes|
  {
    if tapes == [] {
      assert tapes + [last] == [last] && [last][1..] == [];
    } else {
      assert (tapes + [last])[0] == tapes[0] && (tapes + [last])[1..] == tapes[1..] + [last];
      RunMore(cfg, pr, After1(cfg, pr, w, tapes[0]), tapes[1..], last);
    }
  }

  lemma ScheduleGrows(cfg: Config, start: World, v: World, v': World, schedule: seq<Pass>, i: nat, p: string)
    requires i < |schedule| && v == Run(cfg, p, start, TapesOf(schedule[..i], p))
    requires v' == if schedule[i].pr == p then After1(cfg, p, v, schedule[i].ticks) else v
    ensures v' == Run(cfg, p, start, TapesOf(schedule[..i + 1], p))
  {
    assert schedule[..i + 1][..i] == schedule[..i];
    if schedule[i].pr == p { RunMore(cfg, p, start, TapesOf(schedule[..i], p), schedule[i].ticks); }
  }

  // ---------------------------------------------------------------- a cluster under the operator

  /** Whatever passes of whatever PRs an operator makes in a new cluster, each PR is in a state its own run reaches, and
      so has all the properties of such states; its credentials in particular agree. */
  method Operate(cfg: Config, schedule: seq<Pass>) returns (cluster: Cluster)
    ensures forall p :: cluster.View(p) == Reached(cfg, p, TapesOf(schedule, p)) && Inv(p, cluster.View(p))
    ensures forall p :: p in cluster.stacks && Live(cluster.stacks[p].status.phase) ==>
              CredentialsAgree(p, cluster.stacks[p].status, cluster.View(p))
  {
    cluster := new Cluster();
    var operator := new Reconciler(cluster, cfg);
    operator.RunAll(schedule);
    forall p ensures cluster.View(p) == Reached(cfg, p, TapesOf(schedule, p)) && Inv(p, cluster.View(p)) {
      Reachable(cfg, p, TapesOf(schedule, p));
    }
    forall p | p in cluster.stacks && Live(cluster.stacks[p].status.phase)
      ensures CredentialsAgree(p, cluster.stacks[p].status, cluster.View(p))
    {
      InvFacts(p, cluster.View(p));
    }
  }
}
