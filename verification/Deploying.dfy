/** `handleDeployment` and `handleRunning` keep the invariant; the phase they persist tells the outcomes of the
    services, and no status block is dereferenced while unset. */
module Deploying {
  import opened Types
  import opened Api
  import opened Names
  import opened Conditions
  import opened Handlers
  import opened Invariants
  import opened Steps

  /** A deployment under way that has left the phase Deploying alone. */
  ghost predicate InfraGood(pr: string, w0: World, s0: Sys, i: Infra, st: Stack, mode: Mode) {
    && Good(pr, w0, i.s, st, mode)
    && Server(i.s) == st.status && Live(st.status.phase)
    && i.s.w.ns.Some?
    && i.s.panicked == s0.panicked && i.s.crashed == s0.crashed
    && i.s.faults >= s0.faults && i.s.conflicts >= s0.conflicts
  }

  lemma StageGood(pr: string, w0: World, s0: Sys, i: Infra, ms: seq<Manifest>, what: string, st: Stack, mode: Mode)
    requires InfraGood(pr, w0, s0, i, st, mode) && HarmlessAll(pr, ms, st.status) && ToldByAll(pr, ms)
    ensures var r := Stage(i, ms, what);
            && InfraGood(pr, w0, s0, r, st, mode)
            && (NoFault(i.s, r.s) ==> r.failed == i.failed)
            && KeepsConfig(pr, st.status, i.s.w, r.s.w)
  {
    if !i.Stopped() { UpsertAllGood(pr, w0, i.s, ms, st, mode); }
  }

  predicate StorageFits(spec: Spec) {
    spec.backup ==> spec.storageParses
  }

  /** A deployment of this spec crashes in front of its first service, in every pass. */
  predicate Stalls(spec: Spec) {
    StorageFits(spec) && !spec.limitsParse
  }

  lemma ClaimGood(pr: string, w0: World, s: Sys, st: Stack, mode: Mode)
    requires Good(pr, w0, s, st, mode) && s.w.ns.Some? && !Has(s.w.ns.value, ObjectRef(VOLUME))
    ensures var c := Call(s, CreateObj(ObjectManifest(VOLUME, Line(""))));
            && Good(pr, w0, c.s, st, mode) && Server(c.s) == Server(s) && c.s.w.ns.Some?
            && (NoFault(s, c.s) ==> c.reply.Done?)
            && (Live(Server(s).phase) ==> KeepsConfig(pr, Server(s), s.w, c.s.w))
  {
    var m := ObjectManifest(VOLUME, Line(""));
    SideCall(pr, w0, s, CreateObj(m), st, mode);
    Open(pr, w0, s, mode);
    CreateEffect(pr, s, m);
  }

  lemma VolumeGood(pr: string, w0: World, s: Sys, spec: Spec, st: Stack, mode: Mode)
    requires Good(pr, w0, s, st, mode) && s.w.ns.Some?
    ensures var r := EnsureVolume(s, spec);
            && Good(pr, w0, r.s, st, mode) && Server(r.s) == Server(s) && r.s.w.ns.Some?
            && (NoFault(s, r.s) ==> (r.ok <==> StorageFits(spec)))
            && (Live(Server(s).phase) ==> KeepsConfig(pr, Server(s), s.w, r.s.w))
  {
    if spec.backup && spec.storageParses {
      var get := GetObj(ObjectRef(VOLUME));
      var g := Call(s, get);
      SideCall(pr, w0, s, get, st, mode);
      Open(pr, w0, s, mode);
      VolumeSeen(pr, s);
      if g.reply.NotFound? { ClaimGood(pr, w0, g.s, st, mode); }
    }
  }

  /** Asking for the claim tells whether it exists. */
  lemma VolumeSeen(pr: string, s: Sys)
    requires Inv(pr, s.w) && s.w.ns.Some?
    ensures var g := Call(s, GetObj(ObjectRef(VOLUME)));
            && g.s.w.ns == s.w.ns
            && (g.reply.Done? ==> Has(s.w.ns.value, ObjectRef(VOLUME)))
            && (g.reply.NotFound? ==> !Has(s.w.ns.value, ObjectRef(VOLUME)))
            && (NoFault(s, g.s) ==> g.reply.Done? || g.reply.NotFound?)
  {
    AfterKeeps(pr, s, Free);
  }

  lemma VolumeStageGood(pr: string, w0: World, s0: Sys, i: Infra, spec: Spec, st: Stack, mode: Mode)
    requires InfraGood(pr, w0, s0, i, st, mode)
    ensures var r := VolumeStage(i, spec);
            && InfraGood(pr, w0, s0, r, st, mode)
            && (NoFault(i.s, r.s) && StorageFits(spec) ==> r.failed == i.failed)
            && (NoFault(i.s, r.s) && !StorageFits(spec) && !i.s.panicked ==> r.failed.Some?)
            && KeepsConfig(pr, st.status, i.s.w, r.s.w)
  {
    if !i.Stopped() { VolumeGood(pr, w0, i.s, spec, st, mode); }
  }

  /** As long as nothing has stopped the deployment, the config map is that of the status. */
  predicate Set(pr: string, i: Infra, st: Stack) {
    i.failed.None? ==>
      st.status.mongo.Some? && i.s.w.ns.Some? && Configured(pr, st.status.mongo.value, i.s.w.ns.value)
  }

  lemma MongoConfigSets(pr: string, w0: World, s: Sys, c: Credentials, st: Stack, mode: Mode)
    requires Good(pr, w0, s, st, mode) && Live(Server(s).phase) && Server(s).mongo == Some(c)
    ensures var u := Upsert(s, MongoConfig(pr, c));
            && Good(pr, w0, u.s, st, mode) && Server(u.s) == Server(s)
            && (u.ok ==> u.s.w.ns.Some? && Configured(pr, c, u.s.w.ns.value))
  {
    UpsertGood(pr, w0, s, MongoConfig(pr, c), st, mode);
    UpsertEffect(pr, w0, s, MongoConfig(pr, c), st, mode);
  }

  lemma MongoPairSets(pr: string, w0: World, s: Sys, c: Credentials, st: Stack, mode: Mode)
    requires Good(pr, w0, s, st, mode) && Live(Server(s).phase) && Server(s).mongo == Some(c)
    ensures var r := UpsertAll(s, MongoManifests(pr, c));
            r.ok ==> r.s.w.ns.Some? && Configured(pr, c, r.s.w.ns.value)
  {
    MongoConfigSets(pr, w0, s, c, st, mode);
    assert MongoManifests(pr, c)[1..] == [MongoSecret(c)];
    var u := Upsert(s, MongoConfig(pr, c));
    if u.ok { UpsertAllGood(pr, w0, u.s, [MongoSecret(c)], st, mode); }
  }

  /** The config map and the secret of MongoDB: without an error, the config map is that of the status. */
  lemma MongoStageGood(pr: string, w0: World, s0: Sys, i: Infra, st: Stack, mode: Mode)
    requires InfraGood(pr, w0, s0, i, st, mode) && st.status.mongo.Some? && !s0.panicked
    ensures var r := Stage(i, MongoManifests(pr, st.status.mongo.value), MONGO_FAILED);
            && InfraGood(pr, w0, s0, r, st, mode)
            && (NoFault(i.s, r.s) ==> r.failed == i.failed)
            && Set(pr, r, st)
  {
    StageGood(pr, w0, s0, i, MongoManifests(pr, st.status.mongo.value), MONGO_FAILED, st, mode);
    if !i.Stopped() { MongoPairSets(pr, w0, i.s, st.status.mongo.value, st, mode); }
  }

  lemma ConfigGood(cfg: Config, pr: string, w0: World, s: Sys, st: Stack, mode: Mode)
    requires InfraGood(pr, w0, s, Infra(s, None), st, mode) && !s.panicked
    ensures var r := DeployConfig(cfg, pr, s, st.status);
            && InfraGood(pr, w0, s, r, st, mode)
            && (NoFault(s, r.s) ==> r.failed.None?)
            && Set(pr, r, st)
  {
    GoodStatus(pr, w0, s, st, mode);
    var i := Infra(s, None);
    StageGood(pr, w0, s, i, RegistryManifests(cfg), "Failed to create registry secret", st, mode);
    var c := Stage(i, RegistryManifests(cfg), "Failed to create registry secret");
    MongoStageGood(pr, w0, s, c, st, mode);
    var m := Stage(c, MongoManifests(pr, st.status.mongo.value), MONGO_FAILED);
    UrlStageGood(pr, w0, s, m, "nats-config", st.status.nats, st, mode);
    UrlStageGood(pr, w0, s, UrlStage(m, "nats-config", st.status.nats), "redis-config", st.status.redis, st, mode);
  }

  lemma UrlStageGood(pr: string, w0: World, s0: Sys, i: Infra, name: string, url: Option<string>, st: Stack, mode: Mode)
    requires InfraGood(pr, w0, s0, i, st, mode) && url.Some? && Key(ConfigMap, name) != MONGO_CONFIG && !s0.panicked
    ensures var r := UrlStage(i, name, url);
            && InfraGood(pr, w0, s0, r, st, mode)
            && (NoFault(i.s, r.s) ==> r.failed == i.failed)
            && (Set(pr, i, st) ==> Set(pr, r, st))
  {
    StageGood(pr, w0, s0, i, [UrlManifest(name, url.value)], MONGO_FAILED, st, mode);
  }

  lemma ServersGood(pr: string, w0: World, s0: Sys, i: Infra, st: Stack, mode: Mode)
    requires InfraGood(pr, w0, s0, i, st, mode) && Set(pr, i, st) && !s0.panicked
    ensures var r := DeployServers(pr, i, st.spec);
            && InfraGood(pr, w0, s0, r, st, mode) && Set(pr, r, st)
            && (NoFault(i.s, r.s) && StorageFits(st.spec) ==> r.failed == i.failed)
            && (NoFault(i.s, r.s) && !StorageFits(st.spec) && !i.s.panicked ==> r.failed.Some?)
  {
    var nats, redis := ServerManifests(pr, "nats", "nats:2.10-alpine"), ServerManifests(pr, "redis", "redis:7-alpine");
    StageGood(pr, w0, s0, i, nats, "Failed to create NATS resources", st, mode);
    var n := Stage(i, nats, "Failed to create NATS resources");
    StageGood(pr, w0, s0, n, redis, "Failed to create Redis resources", st, mode);
    VolumeStageGood(pr, w0, s0, Stage(n, redis, "Failed to create Redis resources"), st.spec, st, mode);
  }

  // ---------------------------------------------------------------- services

  lemma ServiceManifestsHarmless(cfg: Config, pr: string, spec: Spec, service: string, status: Status)
    ensures HarmlessAll(pr, ServiceManifests(cfg, pr, spec, service), status)
    ensures ToldByAll(pr, ServiceManifests(cfg, pr, spec, service))
  {
  }

  /** One entry per service, all Running when no call failed. */
  lemma {:induction false} ServicesGood(cfg: Config, pr: string, w0: World, s: Sys, spec: Spec, services: seq<string>,
                                        st: Stack, mode: Mode)
    requires Good(pr, w0, s, st, mode) && s.w.ns.Some?
    ensures var r := DeployServices(cfg, pr, s, spec, services);
            && Good(pr, w0, r.s, st, mode) && Server(r.s) == Server(s) && r.s.w.ns.Some?
            && (NoFault(s, r.s) ==> AllRunning(r.statuses))
            && (Live(Server(s).phase) ==> KeepsConfig(pr, Server(s), s.w, r.s.w))
            && (spec.limitsParse ==> r.s.crashed == s.crashed)
            && (!spec.limitsParse && services != [] ==> r.s.crashed)
    decreases |services|
  {
    if s.crashed || services == [] {
    } else if !spec.limitsParse {
      Open(pr, w0, s, mode);
      Close(pr, w0, s.(crashed := true), mode);
    } else {
      var ms := ServiceManifests(cfg, pr, spec, services[0]);
      ServiceManifestsHarmless(cfg, pr, spec, services[0], Server(s));
      UpsertAllGood(pr, w0, s, ms, st, mode);
      ServicesGood(cfg, pr, w0, UpsertAll(s, ms).s, spec, services[1..], st, mode);
    }
  }

  function Outcomes(statuses: seq<ServiceStatus>): (outcomes: seq<bool>)
    ensures |outcomes| == |statuses| && forall i :: 0 <= i < |statuses| ==> outcomes[i] == statuses[i].running
  {
    seq(|statuses|, i requires 0 <= i < |statuses| => statuses[i].running)
  }

  /** The failure count is the number of failed entries. */
  lemma {:induction false} CountsFailed(statuses: seq<ServiceStatus>)
    ensures CountFailed(statuses) == multiset(Outcomes(statuses))[false]
    decreases |statuses|
  {
    if statuses != [] {
      CountsFailed(statuses[1..]);
      assert Outcomes(statuses) == [statuses[0].running] + Outcomes(statuses[1..]);
    }
  }

  /** It tells whether all services run, and whether any does. */
  lemma {:induction false} FailedCount(statuses: seq<ServiceStatus>)
    ensures CountFailed(statuses) == 0 <==> AllRunning(statuses)
    ensures CountFailed(statuses) < |statuses| <==> HasRunning(statuses)
    decreases |statuses|
  {
    if statuses != [] {
      FailedCount(statuses[1..]);
      assert forall i :: 0 < i < |statuses| ==> statuses[i] == statuses[1..][i - 1];
      if HasRunning(statuses[1..]) {
        var i :| 0 <= i < |statuses[1..]| && statuses[1..][i].running;
        assert statuses[i + 1].running;
      }
      assert AllRunning(statuses) <==> statuses[0].running && AllRunning(statuses[1..]) by {
        if statuses[0].running && AllRunning(statuses[1..]) {
          forall i | 0 <= i < |statuses| ensures statuses[i].running {
            if i > 0 { assert statuses[1..][i - 1].running; }
          }
        }
        if AllRunning(statuses) {
          forall i | 0 <= i < |statuses[1..]| ensures statuses[1..][i].running { assert statuses[i + 1].running; }
        }
      }
    }
  }

  /** A concluded status fits its phase, given how its services came out. */
  predicate Conclusion(w: World, st: Stack, x: Stack, phase: Phase) {
    && Derived(w, x) && ConditionsFit(x.status)
    && x == st.(status := x.status) && x.status.phase == phase && x.status.services == st.status.services
    && x.status.mongo == st.status.mongo && x.status.nats == st.status.nats && x.status.redis == st.status.redis
  }

  lemma AllFailedFits(w: World, st: Stack, total: nat)
    requires Derived(w, st)
    ensures Conclusion(w, st, AllFailed(st, total, w.now), Failed)
  {
    var message := Count("All services failed to deploy", total, total);
    PairSet(WithPhase(st, Failed, message), false, "AllServicesFailed", message,
            true, "AllServicesFailed", Text("No services are running"), w.now);
  }

  lemma SomeFailedFits(w: World, st: Stack, failed: nat, total: nat)
    requires Derived(w, st)
    ensures Conclusion(w, st, SomeFailed(st, failed, total, w.now), Degraded)
  {
    PairSet(WithPhase(st, Degraded, Count("Stack is degraded", failed, total)),
            true, "PartiallyDegraded", Count("services running", total - failed, total),
            true, "ServiceFailures", Count("services failed to deploy", failed, total), w.now);
  }

  lemma NoneFailedFits(w: World, st: Stack, total: nat)
    requires Derived(w, st)
    ensures Conclusion(w, st, NoneFailed(st, total, w.now), Running)
  {
    var z := WithPhase(st, Running, Text("PR stack is running"));
    var message := Count("All services deployed successfully", total, total);
    PairSet(z, true, "StackRunning", message, false, "Healthy", Text("Stack is operating normally"), w.now);
    ProgressSet(WithReady(z, "StackRunning", message, w.now), "Complete", "Stack deployment completed", w.now);
  }

  /** The phase a deployment concludes with, and its conditions, tell how many services failed. */
  lemma ConcludedFits(w: World, st: Stack, statuses: seq<ServiceStatus>)
    requires Derived(w, st) && statuses != []
    ensures var x := Concluded(st, statuses, CountFailed(statuses), w.now);
            && Derived(w, x) && ServicesFit(x.status) && ConditionsFit(x.status)
            && x == st.(status := x.status) && x.status.services == statuses
            && x.status.mongo == st.status.mongo && x.status.nats == st.status.nats && x.status.redis == st.status.redis
            && (x.status.phase == Running <==> AllRunning(statuses))
            && (x.status.phase == Failed <==> !HasRunning(statuses))
            && x.status.phase in {Running, Degraded, Failed}
  {
    FailedCount(statuses);
    var failed, total := CountFailed(statuses), |statuses|;
    var y := st.(status := st.status.(services := statuses));
    assert Derived(w, y);
    if failed == total {
      AllFailedFits(w, y, total);
    } else if failed > 0 {
      SomeFailedFits(w, y, failed, total);
    } else {
      NoneFailedFits(w, y, total);
    }
  }

  /** The message of a degraded stack gives the number of failed services and of all. */
  lemma DegradedMessage(st: Stack, statuses: seq<ServiceStatus>, now: int)
    requires statuses != []
    ensures var x := Concluded(st, statuses, CountFailed(statuses), now).status;
            x.phase == Degraded ==>
              x.message == Count("Stack is degraded", multiset(Outcomes(statuses))[false], |statuses|)
  {
    CountsFailed(statuses);
  }

  // ---------------------------------------------------------------- ends

  ghost predicate DeploymentEnds(pr: string, w0: World, s: Sys, r: Sys, st: Stack, mode: Mode) {
    && Final(pr, w0, r, mode)
    && (Server(r) == st.status || Server(r).phase in {Running, Degraded, Failed})
    && r.panicked == s.panicked
    && (Clean(s, r) ==> (Server(r).phase == Phase.Deploying <==> Stalls(st.spec)) && (r.crashed <==> Stalls(st.spec)))
    && (st.spec.limitsParse ==> !r.crashed)
    && (NoFault(s, r) && ValidSpec(st.spec) ==> Server(r).phase in {Phase.Deploying, Running})
  }

  lemma AccessOf(pr: string, a: Status, b: Status, w: World)
    requires CredentialsAgree(pr, a, w) && b.mongo == a.mongo && b.nats == a.nats && b.redis == a.redis
    requires Configured(pr, a.mongo.value, w.ns.value)
    ensures CredentialsAgree(pr, b, w)
  {
  }

  lemma FinishGood(pr: string, w0: World, s0: Sys, d: Services, st: Stack, mode: Mode)
    requires Good(pr, w0, d.s, st, mode) && Server(d.s) == st.status && st.status.phase == Phase.Deploying
    requires d.s.faults >= s0.faults && d.s.conflicts >= s0.conflicts && d.s.panicked == s0.panicked
    requires !d.s.crashed ==> d.statuses != []
    requires NoFault(s0, d.s) && ValidSpec(st.spec) ==> AllRunning(d.statuses)
    requires d.s.crashed <==> !st.spec.limitsParse
    requires NoFault(s0, d.s) ==> StorageFits(st.spec)
    requires CredentialsAgree(pr, st.status, d.s.w) && Configured(pr, st.status.mongo.value, d.s.w.ns.value)
    ensures DeploymentEnds(pr, w0, s0, FinishDeployment(d, st), st, mode)
  {
    GoodStatus(pr, w0, d.s, st, mode);
    if !d.s.crashed {
      var x := Concluded(st, d.statuses, CountFailed(d.statuses), d.s.w.now);
      assert Synced(d.s, st);
      ConcludedFits(d.s.w, st, d.statuses);
      AccessOf(pr, st.status, x.status, d.s.w);
      ConcludedWrite(pr, w0, d.s, st, x, mode);
    }
  }

  lemma ConcludedWrite(pr: string, w0: World, s: Sys, st: Stack, x: Stack, mode: Mode)
    requires Good(pr, w0, s, st, mode) && x == st.(status := x.status) && Derived(s.w, x)
    requires ServicesFit(x.status) && ConditionsFit(x.status) && CredentialsAgree(pr, x.status, s.w)
    requires x.status.phase in {Running, Degraded, Failed}
    ensures var r := UpdateStatus(s, x, Plain);
            && Final(pr, w0, r.s, mode) && (Server(r.s) == Server(s) || Server(r.s) == x.status)
            && (Clean(s, r.s) ==> Server(r.s) == x.status)
  {
    assert Writable(pr, s.w, x, Plain);
    StatusWrite(pr, w0, s, x, Plain, mode);
  }

  /** Nothing has stopped the deployment before its services. */
  lemma RunningServicesGood(cfg: Config, pr: string, w0: World, s0: Sys, i: Infra, st: Stack, mode: Mode)
    requires InfraGood(pr, w0, s0, i, st, mode) && st.status.phase == Phase.Deploying && !s0.panicked && !s0.crashed
    requires Set(pr, i, st) && i.failed.None? && (NoFault(s0, i.s) ==> StorageFits(st.spec))
    ensures var d := DeployServices(cfg, pr, i.s, st.spec, ServicesOf(st.spec));
            DeploymentEnds(pr, w0, s0, FinishDeployment(d, st), st, mode)
  {
    var d := DeployServices(cfg, pr, i.s, st.spec, ServicesOf(st.spec));
    ServicesGood(cfg, pr, w0, i.s, st.spec, ServicesOf(st.spec), st, mode);
    GoodStatus(pr, w0, d.s, st, mode);
    FinishGood(pr, w0, s0, d, st, mode);
  }

  lemma StoppedGood(pr: string, w0: World, s0: Sys, i: Infra, st: Stack, what: string, mode: Mode)
    requires InfraGood(pr, w0, s0, i, st, mode) && st.status.phase == Phase.Deploying && !s0.crashed
    requires NoFault(s0, i.s) ==> !StorageFits(st.spec)
    ensures DeploymentEnds(pr, w0, s0, RecordError(i.s, st, what), st, mode)
  {
    GoodStatus(pr, w0, i.s, st, mode);
    assert Synced(i.s, st);
    ErrorKeeps(pr, w0, i.s, st, what, mode);
  }

  lemma RunServicesGood(cfg: Config, pr: string, w0: World, s0: Sys, i: Infra, st: Stack, mode: Mode)
    requires InfraGood(pr, w0, s0, i, st, mode) && st.status.phase == Phase.Deploying && !s0.panicked && !s0.crashed
    requires Set(pr, i, st)
    requires NoFault(s0, i.s) ==> (i.failed.None? <==> StorageFits(st.spec))
    ensures DeploymentEnds(pr, w0, s0, RunServices(cfg, pr, i, st), st, mode)
  {
    if i.failed.Some? {
      StoppedGood(pr, w0, s0, i, st, i.failed.value, mode);
    } else {
      RunningServicesGood(cfg, pr, w0, s0, i, st, mode);
    }
  }

  /** From the phase Deploying a pass ends in Deploying, Running, Degraded or Failed. It never panics; with a
      parsable spec it does not crash, and only faults lead to Degraded or Failed. */
  lemma DeploymentKeeps(cfg: Config, pr: string, w0: World, s: Sys, st: Stack, mode: Mode)
    requires Good(pr, w0, s, st, mode) && Synced(s, st) && st.status.phase == Phase.Deploying
    requires !s.panicked && !s.crashed
    ensures DeploymentEnds(pr, w0, s, HandleDeployment(cfg, pr, s, st), st, mode)
  {
    GoodStatus(pr, w0, s, st, mode);
    ConfigGood(cfg, pr, w0, s, st, mode);
    var c := DeployConfig(cfg, pr, s, st.status);
    ServersGood(pr, w0, s, c, st, mode);
    RunServicesGood(cfg, pr, w0, s, DeployServers(pr, c, st.spec), st, mode);
  }
}
