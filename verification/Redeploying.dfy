/** Crash convergence of `handleDeployment`: an attempt that stops anywhere, for whatever reason, followed by a complete
    one leaves the namespace exactly as one complete attempt from the start would have. */
module Redeploying {
  import opened Types
  import opened Api
  import opened Names
  import opened Conditions
  import opened Handlers
  import opened Invariants
  import opened Steps
  import opened Deploying

  // ---------------------------------------------------------------- lookups

  /** The object a namespace holds under a reference. */
  function Look(n: Namespace, ref: Ref): Option<Manifest> {
    match ref
    case DeploymentRef(name) => if name in n.deployments then Some(DeploymentManifest(name, n.deployments[name])) else None
    case SecretRef(name) => if name in n.secrets then Some(SecretManifest(name, n.secrets[name])) else None
    case ObjectRef(key) => if key in n.objects then Some(ObjectManifest(key, n.objects[key])) else None
  }

  lemma SameEverywhere(a: Namespace, b: Namespace)
    requires forall ref: Ref :: Look(a, ref) == Look(b, ref)
    ensures a == b
  {
    forall name ensures name in a.deployments <==> name in b.deployments
      ensures name in a.deployments ==> name in b.deployments && a.deployments[name] == b.deployments[name]
    {
      assert Look(a, DeploymentRef(name)) == Look(b, DeploymentRef(name));
    }
    forall name ensures name in a.secrets <==> name in b.secrets
      ensures name in a.secrets ==> name in b.secrets && a.secrets[name] == b.secrets[name]
    {
      assert Look(a, SecretRef(name)) == Look(b, SecretRef(name));
    }
    forall key ensures key in a.objects <==> key in b.objects
      ensures key in a.objects ==> key in b.objects && a.objects[key] == b.objects[key]
    {
      assert Look(a, ObjectRef(key)) == Look(b, ObjectRef(key));
    }
    assert a.deployments == b.deployments && a.secrets == b.secrets && a.objects == b.objects;
  }

  lemma PutLook(n: Namespace, m: Manifest, ref: Ref)
    ensures Look(Put(n, m), ref) == if ref == m.Ref() then Some(m) else Look(n, ref)
    ensures Has(n, ref) <==> Look(n, ref).Some?
  {
  }

  // ---------------------------------------------------------------- sequences of puts

  function PutAll(n: Namespace, ms: seq<Manifest>): Namespace
    decreases |ms|
  {
    if ms == [] then n else PutAll(Put(n, ms[0]), ms[1..])
  }

  function Refs(ms: seq<Manifest>): set<Ref> {
    set i | 0 <= i < |ms| :: ms[i].Ref()
  }

  lemma RefsOf(x: seq<Manifest>, y: seq<Manifest>)
    ensures Refs(x + y) == Refs(x) + Refs(y)
  {
    forall ref | ref in Refs(x) ensures ref in Refs(x + y) {
      var i :| 0 <= i < |x| && x[i].Ref() == ref;
      assert (x + y)[i].Ref() == ref;
    }
    forall ref | ref in Refs(y) ensures ref in Refs(x + y) {
      var i :| 0 <= i < |y| && y[i].Ref() == ref;
      assert (x + y)[|x| + i].Ref() == ref;
    }
  }

  lemma RefsRest(ms: seq<Manifest>)
    requires ms != []
    ensures Refs(ms) == {ms[0].Ref()} + Refs(ms[1..])
  {
    assert ms == [ms[0]] + ms[1..];
    RefsOf([ms[0]], ms[1..]);
    assert [ms[0]][0].Ref() in Refs([ms[0]]);
  }

  /** What is under a reference after the puts depends on what was there only if no put writes it. */
  lemma {:induction false} PutAllLook(a: Namespace, b: Namespace, ms: seq<Manifest>, ref: Ref)
    ensures ref !in Refs(ms) ==> Look(PutAll(a, ms), ref) == Look(a, ref)
    ensures ref in Refs(ms) || Look(a, ref) == Look(b, ref) ==> Look(PutAll(a, ms), ref) == Look(PutAll(b, ms), ref)
    decreases |ms|
  {
    if ms != [] {
      RefsRest(ms);
      PutLook(a, ms[0], ref);
      PutLook(b, ms[0], ref);
      PutAllLook(Put(a, ms[0]), Put(b, ms[0]), ms[1..], ref);
    }
  }

  lemma {:induction false} PutAllSplit(n: Namespace, x: seq<Manifest>, y: seq<Manifest>)
    ensures PutAll(n, x + y) == PutAll(PutAll(n, x), y)
    decreases |x|
  {
    if x == [] {
      assert x + y == y;
    } else {
      assert (x + y)[0] == x[0] && (x + y)[1..] == x[1..] + y;
      PutAllSplit(Put(n, x[0]), x[1..], y);
    }
  }

  /** `b` differs from `a` at most under the given references. */
  ghost predicate Off(a: Namespace, b: Namespace, refs: set<Ref>) {
    forall ref: Ref :: ref !in refs ==> Look(b, ref) == Look(a, ref)
  }

  lemma OffTransitive(a: Namespace, b: Namespace, c: Namespace, refs: set<Ref>)
    requires Off(a, b, refs) && Off(b, c, refs)
    ensures Off(a, c, refs)
  {
  }

  lemma OffPut(n: Namespace, m: Manifest, refs: set<Ref>)
    requires m.Ref() in refs
    ensures Off(n, Put(n, m), refs)
  {
    forall ref: Ref | ref !in refs ensures Look(Put(n, m), ref) == Look(n, ref) {
      PutLook(n, m, ref);
    }
  }

  /** Upserts write only their own objects, whatever fails; without an error, all of them. */
  lemma {:induction false} UpsertAllWrites(pr: string, w0: World, s: Sys, ms: seq<Manifest>, st: Stack, mode: Mode)
    requires Good(pr, w0, s, st, mode) && s.w.ns.Some? && ToldByAll(pr, ms)
    requires Live(Server(s).phase) ==> HarmlessAll(pr, ms, Server(s))
    ensures var r := UpsertAll(s, ms);
            && r.s.w.ns.Some? && Off(s.w.ns.value, r.s.w.ns.value, Refs(ms))
            && (r.ok ==> r.s.w.ns.value == PutAll(s.w.ns.value, ms))
    decreases |ms|
  {
    if ms != [] {
      UpsertGood(pr, w0, s, ms[0], st, mode);
      UpsertEffect(pr, w0, s, ms[0], st, mode);
      var u := Upsert(s, ms[0]);
      RefsRest(ms);
      OffPut(s.w.ns.value, ms[0], Refs(ms));
      if u.ok {
        UpsertAllWrites(pr, w0, u.s, ms[1..], st, mode);
        OffTransitive(s.w.ns.value, u.s.w.ns.value, UpsertAll(s, ms).s.w.ns.value, Refs(ms));
      }
    }
  }

  // ---------------------------------------------------------------- the manifests of a deployment

  const CLAIM := ObjectRef(VOLUME)

  /** What is written before the backup claim. */
  function EarlyManifests(cfg: Config, pr: string, status: Status): seq<Manifest>
    requires status.mongo.Some? && status.nats.Some? && status.redis.Some?
  {
    RegistryManifests(cfg) + MongoManifests(pr, status.mongo.value)
    + [UrlManifest("nats-config", status.nats.value)] + [UrlManifest("redis-config", status.redis.value)]
    + ServerManifests(pr, "nats", "nats:2.10-alpine") + ServerManifests(pr, "redis", "redis:7-alpine")
  }

  /** What is written after it, service by service. */
  function LateManifests(cfg: Config, pr: string, spec: Spec, services: seq<string>): seq<Manifest>
    decreases |services|
  {
    if services == [] then []
    else ServiceManifests(cfg, pr, spec, services[0]) + LateManifests(cfg, pr, spec, services[1..])
  }

  predicate NoClaim(ms: seq<Manifest>) {
    forall i :: 0 <= i < |ms| ==> ms[i].Ref() != CLAIM
  }

  /** The claim is created if it is missing and never changed. */
  function WithClaim(n: Namespace, spec: Spec): Namespace {
    if spec.backup && !Has(n, CLAIM) then Put(n, ObjectManifest(VOLUME, Line(""))) else n
  }

  /** The namespace that one complete deployment makes of `n`. */
  function Deployed(cfg: Config, pr: string, n: Namespace, st: Stack): Namespace
    requires st.status.mongo.Some? && st.status.nats.Some? && st.status.redis.Some?
  {
    PutAll(WithClaim(PutAll(n, EarlyManifests(cfg, pr, st.status)), st.spec),
           LateManifests(cfg, pr, st.spec, ServicesOf(st.spec)))
  }

  function Scope(cfg: Config, pr: string, st: Stack): set<Ref>
    requires st.status.mongo.Some? && st.status.nats.Some? && st.status.redis.Some?
  {
    Refs(EarlyManifests(cfg, pr, st.status)) + {CLAIM} + Refs(LateManifests(cfg, pr, st.spec, ServicesOf(st.spec)))
  }

  /** `b` is what some attempts to deploy, complete or not, may have made of `a`: nothing outside the manifests has
      changed, and the claim at most came into being. */
  ghost predicate Attempted(cfg: Config, pr: string, st: Stack, a: Namespace, b: Namespace)
    requires st.status.mongo.Some? && st.status.nats.Some? && st.status.redis.Some?
  {
    && Off(a, b, Scope(cfg, pr, st))
    && (Look(b, CLAIM) == Look(a, CLAIM) ||
        (st.spec.backup && Look(a, CLAIM).None? && Look(b, CLAIM) == Some(ObjectManifest(VOLUME, Line("")))))
  }

  lemma AttemptedTransitive(cfg: Config, pr: string, st: Stack, a: Namespace, b: Namespace, c: Namespace)
    requires st.status.mongo.Some? && st.status.nats.Some? && st.status.redis.Some?
    requires Attempted(cfg, pr, st, a, b) && Attempted(cfg, pr, st, b, c)
    ensures Attempted(cfg, pr, st, a, c)
  {
    OffTransitive(a, b, c, Scope(cfg, pr, st));
  }

  lemma EarlyNoClaim(cfg: Config, pr: string, status: Status)
    requires status.mongo.Some? && status.nats.Some? && status.redis.Some?
    ensures NoClaim(EarlyManifests(cfg, pr, status)) && CLAIM !in Refs(EarlyManifests(cfg, pr, status))
  {
  }

  lemma {:induction false} LateNoClaim(cfg: Config, pr: string, spec: Spec, services: seq<string>)
    ensures NoClaim(LateManifests(cfg, pr, spec, services)) && CLAIM !in Refs(LateManifests(cfg, pr, spec, services))
    decreases |services|
  {
    if services != [] { LateNoClaim(cfg, pr, spec, services[1..]); }
  }

  /** A complete deployment forgets earlier attempts. */
  lemma AttemptsForgotten(cfg: Config, pr: string, st: Stack, a: Namespace, b: Namespace)
    requires st.status.mongo.Some? && st.status.nats.Some? && st.status.redis.Some?
    requires Attempted(cfg, pr, st, a, b)
    ensures Deployed(cfg, pr, b, st) == Deployed(cfg, pr, a, st)
  {
    var early, late := EarlyManifests(cfg, pr, st.status), LateManifests(cfg, pr, st.spec, ServicesOf(st.spec));
    EarlyNoClaim(cfg, pr, st.status);
    LateNoClaim(cfg, pr, st.spec, ServicesOf(st.spec));
    var x, y := PutAll(a, early), PutAll(b, early);
    var x', y' := WithClaim(x, st.spec), WithClaim(y, st.spec);
    forall ref: Ref ensures Look(PutAll(x', late), ref) == Look(PutAll(y', late), ref) {
      PutAllLook(a, b, early, ref);
      PutAllLook(a, b, early, CLAIM);
      PutAllLook(b, a, early, CLAIM);
      PutLook(x, ObjectManifest(VOLUME, Line("")), ref);
      PutLook(y, ObjectManifest(VOLUME, Line("")), ref);
      PutLook(x, ObjectManifest(VOLUME, Line("")), CLAIM);
      PutLook(y, ObjectManifest(VOLUME, Line("")), CLAIM);
      PutAllLook(x', y', late, ref);
    }
    SameEverywhere(PutAll(x', late), PutAll(y', late));
  }

  // ---------------------------------------------------------------- what the stages write

  /** A stage of the early part: of `a`, only objects of `all` have been touched; without an error, all of `done`. */
  ghost predicate Built(a: Namespace, i: Infra, done: seq<Manifest>, all: set<Ref>) {
    && i.s.w.ns.Some? && Off(a, i.s.w.ns.value, all)
    && (i.failed.None? ==> i.s.w.ns.value == PutAll(a, done))
  }

  lemma OffWider(a: Namespace, b: Namespace, refs: set<Ref>, all: set<Ref>)
    requires Off(a, b, refs) && refs <= all
    ensures Off(a, b, all)
  {
  }

  lemma StageBuilds(pr: string, w0: World, s0: Sys, i: Infra, ms: seq<Manifest>, what: string, st: Stack, mode: Mode,
                    a: Namespace, done: seq<Manifest>, all: set<Ref>)
    requires InfraGood(pr, w0, s0, i, st, mode) && HarmlessAll(pr, ms, st.status) && ToldByAll(pr, ms) && !s0.panicked
    requires Built(a, i, done, all) && Refs(ms) <= all
    ensures var r := Stage(i, ms, what); InfraGood(pr, w0, s0, r, st, mode) && Built(a, r, done + ms, all)
  {
    StageGood(pr, w0, s0, i, ms, what, st, mode);
    if !i.Stopped() {
      UpsertAllWrites(pr, w0, i.s, ms, st, mode);
      var r := Stage(i, ms, what);
      OffWider(i.s.w.ns.value, r.s.w.ns.value, Refs(ms), all);
      OffTransitive(a, i.s.w.ns.value, r.s.w.ns.value, all);
      PutAllSplit(a, done, ms);
    }
  }

  lemma EarlyRefs(cfg: Config, pr: string, status: Status)
    requires status.mongo.Some? && status.nats.Some? && status.redis.Some?
    ensures var all := Refs(EarlyManifests(cfg, pr, status));
            && Refs(RegistryManifests(cfg)) <= all && Refs(MongoManifests(pr, status.mongo.value)) <= all
            && Refs([UrlManifest("nats-config", status.nats.value)]) <= all
            && Refs([UrlManifest("redis-config", status.redis.value)]) <= all
            && Refs(ServerManifests(pr, "nats", "nats:2.10-alpine")) <= all
            && Refs(ServerManifests(pr, "redis", "redis:7-alpine")) <= all
  {
    var m1 := RegistryManifests(cfg) + MongoManifests(pr, status.mongo.value);
    var m2 := m1 + [UrlManifest("nats-config", status.nats.value)];
    var m3 := m2 + [UrlManifest("redis-config", status.redis.value)];
    var m4 := m3 + ServerManifests(pr, "nats", "nats:2.10-alpine");
    RefsOf(RegistryManifests(cfg), MongoManifests(pr, status.mongo.value));
    RefsOf(m1, [UrlManifest("nats-config", status.nats.value)]);
    RefsOf(m2, [UrlManifest("redis-config", status.redis.value)]);
    RefsOf(m3, ServerManifests(pr, "nats", "nats:2.10-alpine"));
    RefsOf(m4, ServerManifests(pr, "redis", "redis:7-alpine"));
  }

  lemma UrlsBuild(pr: string, w0: World, s0: Sys, i: Infra, st: Stack, mode: Mode, a: Namespace, done: seq<Manifest>,
                  all: set<Ref>)
    requires InfraGood(pr, w0, s0, i, st, mode) && !s0.panicked && st.status.nats.Some? && st.status.redis.Some?
    requires Built(a, i, done, all)
    requires Refs([UrlManifest("nats-config", st.status.nats.value)]) <= all
    requires Refs([UrlManifest("redis-config", st.status.redis.value)]) <= all
    ensures var r := UrlStage(UrlStage(i, "nats-config", st.status.nats), "redis-config", st.status.redis);
            && InfraGood(pr, w0, s0, r, st, mode)
            && Built(a, r, done + [UrlManifest("nats-config", st.status.nats.value)]
                           + [UrlManifest("redis-config", st.status.redis.value)], all)
  {
    var m2, m3 := [UrlManifest("nats-config", st.status.nats.value)], [UrlManifest("redis-config", st.status.redis.value)];
    StageBuilds(pr, w0, s0, i, m2, MONGO_FAILED, st, mode, a, done, all);
    StageBuilds(pr, w0, s0, Stage(i, m2, MONGO_FAILED), m3, MONGO_FAILED, st, mode, a, done + m2, all);
  }

  lemma MongoBuilds(pr: string, w0: World, s0: Sys, i: Infra, st: Stack, mode: Mode, a: Namespace, done: seq<Manifest>,
                    all: set<Ref>)
    requires InfraGood(pr, w0, s0, i, st, mode) && !s0.panicked
    requires st.status.mongo.Some? && st.status.nats.Some? && st.status.redis.Some?
    requires Built(a, i, done, all) && Refs(MongoManifests(pr, st.status.mongo.value)) <= all
    requires Refs([UrlManifest("nats-config", st.status.nats.value)]) <= all
    requires Refs([UrlManifest("redis-config", st.status.redis.value)]) <= all
    ensures var r := MongoStages(pr, i, st.status);
            && InfraGood(pr, w0, s0, r, st, mode)
            && Built(a, r, done + MongoManifests(pr, st.status.mongo.value)
                           + [UrlManifest("nats-config", st.status.nats.value)]
                           + [UrlManifest("redis-config", st.status.redis.value)], all)
  {
    var m1 := MongoManifests(pr, st.status.mongo.value);
    StageBuilds(pr, w0, s0, i, m1, MONGO_FAILED, st, mode, a, done, all);
    UrlsBuild(pr, w0, s0, Stage(i, m1, MONGO_FAILED), st, mode, a, done + m1, all);
  }

  lemma ConfigBuilds(cfg: Config, pr: string, w0: World, s: Sys, st: Stack, mode: Mode, all: set<Ref>)
    requires InfraGood(pr, w0, s, Infra(s, None), st, mode) && !s.panicked
    requires st.status.mongo.Some? && st.status.nats.Some? && st.status.redis.Some?
    requires all == Refs(EarlyManifests(cfg, pr, st.status))
    ensures var r := DeployConfig(cfg, pr, s, st.status);
            && InfraGood(pr, w0, s, r, st, mode)
            && Built(s.w.ns.value, r, RegistryManifests(cfg) + MongoManifests(pr, st.status.mongo.value)
                     + [UrlManifest("nats-config", st.status.nats.value)]
                     + [UrlManifest("redis-config", st.status.redis.value)], all)
  {
    EarlyRefs(cfg, pr, st.status);
    var a, i, m0 := s.w.ns.value, Infra(s, None), RegistryManifests(cfg);
    StageBuilds(pr, w0, s, i, m0, "Failed to create registry secret", st, mode, a, [], all);
    assert [] + m0 == m0;
    MongoBuilds(pr, w0, s, Stage(i, m0, "Failed to create registry secret"), st, mode, a, m0, all);
  }

  lemma ServersBuild(pr: string, w0: World, s0: Sys, i: Infra, st: Stack, mode: Mode, a: Namespace, done: seq<Manifest>,
                     all: set<Ref>)
    requires InfraGood(pr, w0, s0, i, st, mode) && !s0.panicked && Built(a, i, done, all)
    requires Refs(ServerManifests(pr, "nats", "nats:2.10-alpine")) <= all
    requires Refs(ServerManifests(pr, "redis", "redis:7-alpine")) <= all
    ensures var n := Stage(i, ServerManifests(pr, "nats", "nats:2.10-alpine"), "Failed to create NATS resources");
            var r := Stage(n, ServerManifests(pr, "redis", "redis:7-alpine"), "Failed to create Redis resources");
            && InfraGood(pr, w0, s0, r, st, mode)
            && Built(a, r, done + ServerManifests(pr, "nats", "nats:2.10-alpine")
                           + ServerManifests(pr, "redis", "redis:7-alpine"), all)
  {
    var m4, m5 := ServerManifests(pr, "nats", "nats:2.10-alpine"), ServerManifests(pr, "redis", "redis:7-alpine");
    StageBuilds(pr, w0, s0, i, m4, "Failed to create NATS resources", st, mode, a, done, all);
    StageBuilds(pr, w0, s0, Stage(i, m4, "Failed to create NATS resources"), m5, "Failed to create Redis resources", st, mode,
                a, done + m4, all);
  }

  /** The claim appears if it is missing; without an error it is there. */
  lemma VolumeWrites(pr: string, w0: World, s: Sys, spec: Spec, st: Stack, mode: Mode)
    requires Good(pr, w0, s, st, mode) && s.w.ns.Some?
    ensures var r := EnsureVolume(s, spec);
            && r.s.w.ns.Some?
            && (r.s.w.ns.value == s.w.ns.value || r.s.w.ns.value == WithClaim(s.w.ns.value, spec))
            && (r.ok ==> r.s.w.ns.value == WithClaim(s.w.ns.value, spec))
  {
    VolumeGood(pr, w0, s, spec, st, mode);
    if spec.backup && spec.storageParses {
      var get, m := GetObj(CLAIM), ObjectManifest(VOLUME, Line(""));
      var g := Call(s, get);
      SideCall(pr, w0, s, get, st, mode);
      Open(pr, w0, s, mode);
      CallSides(pr, s, get);
      VolumeSeen(pr, s);
      if g.reply.NotFound? {
        Open(pr, w0, g.s, mode);
        CreateEffect(pr, g.s, m);
      }
    }
  }

  lemma {:induction false} ServicesWrite(cfg: Config, pr: string, w0: World, s: Sys, spec: Spec, services: seq<string>,
                                         st: Stack, mode: Mode)
    requires Good(pr, w0, s, st, mode) && s.w.ns.Some?
    ensures var r := DeployServices(cfg, pr, s, spec, services); var ms := LateManifests(cfg, pr, spec, services);
            && r.s.w.ns.Some? && Off(s.w.ns.value, r.s.w.ns.value, Refs(ms))
            && (!r.s.crashed && AllRunning(r.statuses) ==> r.s.w.ns.value == PutAll(s.w.ns.value, ms))
    decreases |services|
  {
    if !s.crashed && services != [] && spec.limitsParse {
      var ms, rest := ServiceManifests(cfg, pr, spec, services[0]), LateManifests(cfg, pr, spec, services[1..]);
      ServiceManifestsHarmless(cfg, pr, spec, services[0], Server(s));
      UpsertAllGood(pr, w0, s, ms, st, mode);
      UpsertAllWrites(pr, w0, s, ms, st, mode);
      var u := UpsertAll(s, ms);
      ServicesWrite(cfg, pr, w0, u.s, spec, services[1..], st, mode);
      var r := DeployServices(cfg, pr, s, spec, services);
      RefsOf(ms, rest);
      OffWider(s.w.ns.value, u.s.w.ns.value, Refs(ms), Refs(ms + rest));
      OffWider(u.s.w.ns.value, r.s.w.ns.value, Refs(rest), Refs(ms + rest));
      OffTransitive(s.w.ns.value, u.s.w.ns.value, r.s.w.ns.value, Refs(ms + rest));
      PutAllSplit(s.w.ns.value, ms, rest);
      FirstRuns(r.statuses, DeployServices(cfg, pr, u.s, spec, services[1..]).statuses, ServiceStatus(services[0], u.ok));
    }
  }

  lemma FirstRuns(all: seq<ServiceStatus>, rest: seq<ServiceStatus>, first: ServiceStatus)
    requires all == [first] + rest
    ensures AllRunning(all) ==> first.running && AllRunning(rest)
  {
    if AllRunning(all) {
      assert all[0].running;
      forall i | 0 <= i < |rest| ensures rest[i].running { assert all[i + 1].running; }
    }
  }

  // ---------------------------------------------------------------- whole attempts

  /** The infrastructure part of an attempt: the early manifests, then the claim. */
  ghost predicate Founded(cfg: Config, pr: string, st: Stack, a: Namespace, i: Infra)
    requires st.status.mongo.Some? && st.status.nats.Some? && st.status.redis.Some?
  {
    && i.s.w.ns.Some?
    && Attempted(cfg, pr, st, a, i.s.w.ns.value)
    && (i.failed.None? ==> i.s.w.ns.value == WithClaim(PutAll(a, EarlyManifests(cfg, pr, st.status)), st.spec))
  }

  lemma EarlyAttempted(cfg: Config, pr: string, st: Stack, a: Namespace, b: Namespace)
    requires st.status.mongo.Some? && st.status.nats.Some? && st.status.redis.Some?
    requires Off(a, b, Refs(EarlyManifests(cfg, pr, st.status)))
    ensures Attempted(cfg, pr, st, a, b)
  {
    EarlyNoClaim(cfg, pr, st.status);
    OffWider(a, b, Refs(EarlyManifests(cfg, pr, st.status)), Scope(cfg, pr, st));
  }

  lemma LateAttempted(cfg: Config, pr: string, st: Stack, a: Namespace, b: Namespace)
    requires st.status.mongo.Some? && st.status.nats.Some? && st.status.redis.Some?
    requires Off(a, b, Refs(LateManifests(cfg, pr, st.spec, ServicesOf(st.spec))))
    ensures Attempted(cfg, pr, st, a, b)
  {
    LateNoClaim(cfg, pr, st.spec, ServicesOf(st.spec));
    OffWider(a, b, Refs(LateManifests(cfg, pr, st.spec, ServicesOf(st.spec))), Scope(cfg, pr, st));
  }

  lemma ClaimAttempted(cfg: Config, pr: string, st: Stack, a: Namespace)
    requires st.status.mongo.Some? && st.status.nats.Some? && st.status.redis.Some?
    ensures Attempted(cfg, pr, st, a, WithClaim(a, st.spec))
  {
    PutLook(a, ObjectManifest(VOLUME, Line("")), CLAIM);
    OffPut(a, ObjectManifest(VOLUME, Line("")), Scope(cfg, pr, st));
  }

  lemma VolumeFounds(cfg: Config, pr: string, w0: World, s0: Sys, i: Infra, st: Stack, mode: Mode, a: Namespace)
    requires st.status.mongo.Some? && st.status.nats.Some? && st.status.redis.Some?
    requires InfraGood(pr, w0, s0, i, st, mode) && !s0.panicked
    requires Built(a, i, EarlyManifests(cfg, pr, st.status), Refs(EarlyManifests(cfg, pr, st.status)))
    ensures Founded(cfg, pr, st, a, VolumeStage(i, st.spec))
  {
    EarlyAttempted(cfg, pr, st, a, i.s.w.ns.value);
    if !i.Stopped() {
      VolumeWrites(pr, w0, i.s, st.spec, st, mode);
      ClaimAttempted(cfg, pr, st, i.s.w.ns.value);
      var r := VolumeStage(i, st.spec);
      if r.s.w.ns != i.s.w.ns { AttemptedTransitive(cfg, pr, st, a, i.s.w.ns.value, r.s.w.ns.value); }
    }
  }

  /** What an attempt leaves of the namespace `a`: an attempted one in any case, the deployed one if it completes. */
  ghost predicate AttemptEnds(cfg: Config, pr: string, st: Stack, a: Namespace, s: Sys, r: Sys)
    requires st.status.mongo.Some? && st.status.nats.Some? && st.status.redis.Some?
  {
    && r.w.ns.Some? && Attempted(cfg, pr, st, a, r.w.ns.value)
    && (Clean(s, r) && ValidSpec(st.spec) ==> r.w.ns.value == Deployed(cfg, pr, a, st))
  }

  lemma ServicesAttempt(cfg: Config, pr: string, w0: World, i: Infra, st: Stack, mode: Mode, a: Namespace)
    requires Good(pr, w0, i.s, st, mode)
    requires st.status.mongo.Some? && st.status.nats.Some? && st.status.redis.Some?
    requires Founded(cfg, pr, st, a, i)
    ensures var d := DeployServices(cfg, pr, i.s, st.spec, ServicesOf(st.spec));
            && Good(pr, w0, d.s, st, mode) && d.s.w.ns.Some? && Attempted(cfg, pr, st, a, d.s.w.ns.value)
            && (i.failed.None? && NoFault(i.s, d.s) && !d.s.crashed ==> d.s.w.ns.value == Deployed(cfg, pr, a, st))
            && (st.spec.limitsParse ==> d.s.crashed == i.s.crashed)
  {
    var services := ServicesOf(st.spec);
    ServicesWrite(cfg, pr, w0, i.s, st.spec, services, st, mode);
    ServicesGood(cfg, pr, w0, i.s, st.spec, services, st, mode);
    var d := DeployServices(cfg, pr, i.s, st.spec, services);
    LateAttempted(cfg, pr, st, i.s.w.ns.value, d.s.w.ns.value);
    AttemptedTransitive(cfg, pr, st, a, i.s.w.ns.value, d.s.w.ns.value);
  }

  lemma ServicesEnd(cfg: Config, pr: string, w0: World, s0: Sys, i: Infra, st: Stack, mode: Mode, a: Namespace)
    requires InfraGood(pr, w0, s0, i, st, mode) && !s0.panicked && !s0.crashed
    requires st.status.mongo.Some? && st.status.nats.Some? && st.status.redis.Some?
    requires Founded(cfg, pr, st, a, i) && (NoFault(s0, i.s) && ValidSpec(st.spec) ==> i.failed.None?)
    ensures AttemptEnds(cfg, pr, st, a, s0, RunServices(cfg, pr, i, st))
  {
    Open(pr, w0, i.s, mode);
    if i.failed.Some? {
      StatusNs(pr, i.s, WithError(st, i.failed.value, i.s.w.now), Plain);
    } else {
      ServicesAttempt(cfg, pr, w0, i, st, mode, a);
      var d := DeployServices(cfg, pr, i.s, st.spec, ServicesOf(st.spec));
      Open(pr, w0, d.s, mode);
      StatusNs(pr, d.s, Concluded(st, d.statuses, CountFailed(d.statuses), d.s.w.now), Plain);
    }
  }

  /** Any attempt to deploy, with any failures, version conflicts and wherever it stops, writes within its manifests; a
      complete one makes the deployed namespace. */
  lemma AttemptWrites(cfg: Config, pr: string, w0: World, s: Sys, st: Stack, mode: Mode)
    requires Good(pr, w0, s, st, mode) && Synced(s, st) && st.status.phase == Phase.Deploying
    requires !s.panicked && !s.crashed
    ensures s.w.ns.Some? && st.status.mongo.Some? && st.status.nats.Some? && st.status.redis.Some?
    ensures AttemptEnds(cfg, pr, st, s.w.ns.value, s, HandleDeployment(cfg, pr, s, st))
  {
    GoodStatus(pr, w0, s, st, mode);
    var a, all := s.w.ns.value, Refs(EarlyManifests(cfg, pr, st.status));
    EarlyRefs(cfg, pr, st.status);
    ConfigBuilds(cfg, pr, w0, s, st, mode, all);
    ConfigGood(cfg, pr, w0, s, st, mode);
    var c := DeployConfig(cfg, pr, s, st.status);
    var done := RegistryManifests(cfg) + MongoManifests(pr, st.status.mongo.value)
      + [UrlManifest("nats-config", st.status.nats.value)] + [UrlManifest("redis-config", st.status.redis.value)];
    ServersBuild(pr, w0, s, c, st, mode, a, done, all);
    ServersGood(pr, w0, s, c, st, mode);
    var n := Stage(c, ServerManifests(pr, "nats", "nats:2.10-alpine"), "Failed to create NATS resources");
    var r := Stage(n, ServerManifests(pr, "redis", "redis:7-alpine"), "Failed to create Redis resources");
    VolumeFounds(cfg, pr, w0, s, r, st, mode, a);
    ServicesEnd(cfg, pr, w0, s, DeployServers(pr, c, st.spec), st, mode, a);
  }

  /** Crash convergence: after any attempts that made `b` of the namespace `a`, one complete attempt makes of it exactly
      what one complete attempt makes of `a`; and no attempt changes an object outside the manifests. */
  lemma AttemptsConverge(cfg: Config, pr: string, w0: World, s: Sys, st: Stack, mode: Mode, a: Namespace)
    requires Good(pr, w0, s, st, mode) && Synced(s, st) && st.status.phase == Phase.Deploying
    requires !s.panicked && !s.crashed && ValidSpec(st.spec) && s.w.ns.Some?
    requires st.status.mongo.Some? && st.status.nats.Some? && st.status.redis.Some?
    requires Attempted(cfg, pr, st, a, s.w.ns.value)
    requires Clean(s, HandleDeployment(cfg, pr, s, st))
    ensures HandleDeployment(cfg, pr, s, st).w.ns == Some(Deployed(cfg, pr, a, st))
    ensures Off(a, Deployed(cfg, pr, a, st), Scope(cfg, pr, st))
  {
    AttemptWrites(cfg, pr, w0, s, st, mode);
    AttemptsForgotten(cfg, pr, st, a, s.w.ns.value);
    AttemptedTransitive(cfg, pr, st, a, s.w.ns.value, HandleDeployment(cfg, pr, s, st).w.ns.value);
  }

  /** The copy `x` asks for the same deployment as `st`. */
  predicate SameDemand(st: Stack, x: Stack) {
    x.spec == st.spec && x.status.mongo == st.status.mongo && x.status.nats == st.status.nats && x.status.redis == st.status.redis
  }

  /** Stopping `handleDeployment` anywhere and then running it completely, on a later copy that asks for the same, gives
      exactly the namespace of one complete run from the first start. */
  lemma CrashConvergence(cfg: Config, pr: string, w0: World, s: Sys, st: Stack, w1: World, t: Sys, x: Stack, mode: Mode)
    requires Good(pr, w0, s, st, mode) && Synced(s, st) && st.status.phase == Phase.Deploying && !s.panicked && !s.crashed
    requires Good(pr, w1, t, x, mode) && Synced(t, x) && x.status.phase == Phase.Deploying && !t.panicked && !t.crashed
    requires SameDemand(st, x) && ValidSpec(x.spec) && t.w.ns == HandleDeployment(cfg, pr, s, st).w.ns
    requires Clean(t, HandleDeployment(cfg, pr, t, x))
    ensures s.w.ns.Some? && st.status.mongo.Some? && st.status.nats.Some? && st.status.redis.Some?
    ensures HandleDeployment(cfg, pr, t, x).w.ns == Some(Deployed(cfg, pr, s.w.ns.value, st))
  {
    AttemptWrites(cfg, pr, w0, s, st, mode);
    SameAttempt(cfg, pr, st, x, s.w.ns.value, t.w.ns.value);
    AttemptsConverge(cfg, pr, w1, t, x, mode, s.w.ns.value);
  }

  lemma SameAttempt(cfg: Config, pr: string, st: Stack, x: Stack, a: Namespace, b: Namespace)
    requires st.status.mongo.Some? && st.status.nats.Some? && st.status.redis.Some? && SameDemand(st, x)
    requires Attempted(cfg, pr, st, a, b)
    ensures Attempted(cfg, pr, x, a, b) && Deployed(cfg, pr, a, x) == Deployed(cfg, pr, a, st)
  {
  }
}
