/** What holds in every state that any run of the operator reaches: every interleaving of users' steps, failed calls,
    lost replies, version conflicts and crashes. A run that stops between two calls is a run whose last tape ends
    there, so these are statements about every state between two calls, not only about the ends of passes. */
module Safety {
  import opened Types
  import opened Api
  import opened Names
  import opened Conditions
  import opened Handlers
  import opened Invariants
  import opened Reconciling
  import opened Deletion

  lemma NewWorldInv(pr: string)
    ensures Inv(pr, NEW_WORLD)
  {
    InvFrom(pr, NEW_WORLD);
  }

  lemma StepKeeps(cfg: Config, pr: string, w: World, tape: seq<Tick>)
    requires Inv(pr, w)
    ensures var r := Reconcile(cfg, pr, Start(pr, w, tape)); Inv(pr, r.w) && Grows(w, r.w) && !r.panicked
  {
    ReconcileKeeps(cfg, pr, w, tape, Free);
    KeptFacts(pr, w, Reconcile(cfg, pr, Start(pr, w, tape)), Free);
  }

  lemma {:induction false} RunKeeps(cfg: Config, pr: string, w: World, tapes: seq<seq<Tick>>)
    requires Inv(pr, w)
    ensures Inv(pr, Run(cfg, pr, w, tapes)) && Grows(w, Run(cfg, pr, w, tapes))
    decreases |tapes|
  {
    if tapes == [] {
      GrowsSelf(w);
    } else {
      StepKeeps(cfg, pr, w, tapes[0]);
      var v := After1(cfg, pr, w, tapes[0]);
      RunKeeps(cfg, pr, v, tapes[1..]);
      GrowsTransitive(w, v, Run(cfg, pr, w, tapes));
    }
  }

  /** The world after any run from the empty world. */
  function Reached(cfg: Config, pr: string, tapes: seq<seq<Tick>>): World {
    Run(cfg, pr, NEW_WORLD, tapes)
  }

  lemma Reachable(cfg: Config, pr: string, tapes: seq<seq<Tick>>)
    ensures Inv(pr, Reached(cfg, pr, tapes))
  {
    NewWorldInv(pr);
    RunKeeps(cfg, pr, NEW_WORLD, tapes);
  }

  predicate PhaseIs(w: World, p: Phase) {
    w.stack.Some? && w.stack.value.status.phase == p
  }

  // ---------------------------------------------------------------- the properties

  /** While a phase is live, the status, MongoDB and the secret hold one password, though every provisioning pass
      draws a new one; the user has exactly the roles that are recorded, and the databases exist. */
  lemma CredentialAgreement(cfg: Config, pr: string, tapes: seq<seq<Tick>>)
    ensures var w := Reached(cfg, pr, tapes);
            w.stack.Some? && Live(w.stack.value.status.phase) ==>
              && var status := w.stack.value.status;
              && status.mongo.Some? && w.user.Some? && w.ns.Some? && MONGO_SECRET in w.ns.value.secrets
              && status.mongo.value.password == w.user.value.password == w.ns.value.secrets[MONGO_SECRET].password
              && status.mongo.value.user == w.ns.value.secrets[MONGO_SECRET].username == MongoUserName(pr)
              && status.mongo.value.databases == w.user.value.roles == Granted(pr)
              && w.dbs == SetOf(Granted(pr))
  {
    Reachable(cfg, pr, tapes);
    InvFacts(pr, Reached(cfg, pr, tapes));
  }

  /** The config map holds the connection of the status, and names exactly the databases that the status records, that the
      user is granted, and that exist. */
  ghost predicate NamesDatabases(pr: string, data: map<string, string>, c: Credentials, w: World) {
    && ConfigMapFor(data, DEFAULT_SERVICES, pr) && data["uri"] == c.connection
    && w.user.Some? && DatabasesIn(data) == SetOf(c.databases) == SetOf(w.user.value.roles) == w.dbs
  }

  /** Every container of these services is told the database that the config map holds under the key of its service, and
      that database exists. */
  predicate ContainersTold(services: seq<string>, data: map<string, string>, n: Namespace, dbs: set<string>) {
    forall name :: name in n.deployments && name in services ==>
      && ConfigKey(name) in data && data[ConfigKey(name)] in dbs
      && n.deployments[name].database == Some(data[ConfigKey(name)])
  }

  lemma AgreeingNames(pr: string, status: Status, w: World)
    requires CredentialsAgree(pr, status, w) && DbsWithin(pr, w)
    ensures var c := status.mongo.value; NamesDatabases(pr, ConfigData(DEFAULT_SERVICES, pr)["uri" := c.connection], c, w)
  {
    ConfigWithUri(pr, status.mongo.value.connection);
  }

  lemma AgreeingContainers(pr: string, services: seq<string>, data: map<string, string>, n: Namespace, dbs: set<string>)
    requires ConfigMapFor(data, services, pr) && AllTold(pr, Some(n)) && DatabasesIn(data) == dbs
    requires forall name :: name in services ==>
               name !in {"nats", "redis"} && ConfigKey(name) != "uri" && ConfigKey(name) != "timeout"
    ensures ContainersTold(services, data, n, dbs)
  {
    forall name | name in n.deployments && name in services
      ensures ConfigKey(name) in data && data[ConfigKey(name)] in dbs
      ensures n.deployments[name].database == Some(data[ConfigKey(name)])
    {
      assert Told(pr, name, n.deployments[name]);
    }
  }

  /** So it is with the config map in the namespace, once the services are deployed, and with their containers. */
  lemma DatabaseConservation(cfg: Config, pr: string, tapes: seq<seq<Tick>>)
    ensures var w := Reached(cfg, pr, tapes);
            w.stack.Some? && Served(w.stack.value.status.phase) ==>
              && w.stack.value.status.mongo.Some?
              && w.ns.Some? && MONGO_CONFIG in w.ns.value.objects && w.ns.value.objects[MONGO_CONFIG].Data?
              && var data := w.ns.value.objects[MONGO_CONFIG].entries;
              && NamesDatabases(pr, data, w.stack.value.status.mongo.value, w)
              && ContainersTold(DEFAULT_SERVICES, data, w.ns.value, w.dbs)
  {
    Reachable(cfg, pr, tapes);
    var w := Reached(cfg, pr, tapes);
    InvFacts(pr, w);
    if w.stack.Some? && Served(w.stack.value.status.phase) {
      AgreeingNames(pr, w.stack.value.status, w);
      DefaultServicesApart();
      AgreeingContainers(pr, DEFAULT_SERVICES, w.ns.value.objects[MONGO_CONFIG].entries, w.ns.value, w.dbs);
    }
  }

  /** No pass dereferences an unset status block; in a live phase all three are set. */
  lemma NilSafety(cfg: Config, pr: string, tapes: seq<seq<Tick>>, tape: seq<Tick>)
    ensures !Reconcile(cfg, pr, Start(pr, Reached(cfg, pr, tapes), tape)).panicked
    ensures var w := Reached(cfg, pr, tapes);
            w.stack.Some? && Live(w.stack.value.status.phase) ==>
              w.stack.value.status.mongo.Some? && w.stack.value.status.nats.Some? && w.stack.value.status.redis.Some?
  {
    Reachable(cfg, pr, tapes);
    StepKeeps(cfg, pr, Reached(cfg, pr, tapes), tape);
    InvFacts(pr, Reached(cfg, pr, tapes));
  }

  /** Running means a non-empty list of services that all run; Degraded means that some run and some do not. */
  lemma ServiceOutcomes(cfg: Config, pr: string, tapes: seq<seq<Tick>>)
    ensures var w := Reached(cfg, pr, tapes);
            && (PhaseIs(w, Running) ==> w.stack.value.status.services != [] && AllRunning(w.stack.value.status.services))
            && (PhaseIs(w, Degraded) ==>
                  !AllRunning(w.stack.value.status.services) && HasRunning(w.stack.value.status.services))
  {
    Reachable(cfg, pr, tapes);
    InvFacts(pr, Reached(cfg, pr, tapes));
  }

  lemma ConditionsCohere(cfg: Config, pr: string, tapes: seq<seq<Tick>>)
    ensures var w := Reached(cfg, pr, tapes);
            && (w.stack.Some? ==> Distinct(w.stack.value.status.conditions))
            && (PhaseIs(w, Running) ==>
                  Is(w.stack.value.status.conditions, READY, true) && Is(w.stack.value.status.conditions, DEGRADED, false))
            && (PhaseIs(w, Degraded) ==>
                  Is(w.stack.value.status.conditions, READY, true) && Is(w.stack.value.status.conditions, DEGRADED, true))
            && (PhaseIs(w, Failed) ==>
                  Is(w.stack.value.status.conditions, READY, false) && Is(w.stack.value.status.conditions, DEGRADED, true))
  {
    Reachable(cfg, pr, tapes);
    InvFacts(pr, Reached(cfg, pr, tapes));
  }

  /** The cleanup phases belong to deleted stacks, so the Cleaning and the default arm of `reconcileByPhase`, which
      runs for stacks that are not deleted, are never taken. */
  lemma CleanupOnlyDeleted(cfg: Config, pr: string, tapes: seq<seq<Tick>>)
    ensures var w := Reached(cfg, pr, tapes);
            PhaseIs(w, Cleaning) || PhaseIs(w, Cleaned) ==> w.stack.value.deleted
  {
    Reachable(cfg, pr, tapes);
    InvFacts(pr, Reached(cfg, pr, tapes));
  }

  /** Behind the finalizer nothing leaks: without a PRStack that carries it, the namespace exists exactly when cleanup
      swallowed a failing Get of it, and the user exactly when cleanup swallowed a failing dropUser. */
  lemma NoLeak(cfg: Config, pr: string, tapes: seq<seq<Tick>>)
    ensures var w := Reached(cfg, pr, tapes);
            && (!Held(w) ==> (w.ns.Some? <==> w.meter.nsSwallowed) && (w.user.Some? <==> w.meter.dropSwallowed))
            && (!w.meter.nsSwallowed && !w.meter.dropSwallowed && (w.ns.Some? || w.user.Some?) ==> Held(w))
  {
    Reachable(cfg, pr, tapes);
    InvFacts(pr, Reached(cfg, pr, tapes));
  }

  /** Rollouts are completed at most once per write of `DeployedAt`, and each completion found the annotation of the
      current `DeployedAt` on every deployment. */
  lemma RolloutsCounted(cfg: Config, pr: string, tapes: seq<seq<Tick>>)
    ensures var w := Reached(cfg, pr, tapes);
            && w.meter.rollouts <= w.meter.deployWrites
            && w.meter.unfinished == 0
            && (w.stack.Some? && ShouldRollout(w.stack.value) ==> w.meter.rollouts < w.meter.deployWrites)
  {
    Reachable(cfg, pr, tapes);
    InvFacts(pr, Reached(cfg, pr, tapes));
  }

  /** As long as one object exists, its times and status blocks only grow: `CreatedAt` and `LastActiveAt` come
      together, the first never changes, the second never decreases, and no block is ever unset. */
  lemma StatusOnlyGrows(cfg: Config, pr: string, tapes: seq<seq<Tick>>, more: seq<seq<Tick>>)
    ensures var w := Reached(cfg, pr, tapes); var v := Run(cfg, pr, w, more);
            && (w.stack.Some? ==> (w.stack.value.status.createdAt.Some? <==> w.stack.value.status.lastActiveAt.Some?))
            && (w.stack.Some? && v.stack.Some? && v.stack.value.born == w.stack.value.born ==>
                  && var x, y := w.stack.value.status, v.stack.value.status;
                  && (x.createdAt.Some? ==> y.createdAt == x.createdAt)
                  && (x.lastActiveAt.Some? ==> y.lastActiveAt.Some? && x.lastActiveAt.value <= y.lastActiveAt.value)
                  && (x.mongo.Some? ==> y.mongo.Some?) && (x.nats.Some? ==> y.nats.Some?) && (x.redis.Some? ==> y.redis.Some?)
                  && (w.stack.value.deleted ==> v.stack.value.deleted))
  {
    Reachable(cfg, pr, tapes);
    var w := Reached(cfg, pr, tapes);
    InvFacts(pr, w);
    RunKeeps(cfg, pr, w, more);
  }

  /** Cleanup leaves every database behind: what exists are granted databases, and none of them ever disappears. */
  lemma DatabasesStay(cfg: Config, pr: string, tapes: seq<seq<Tick>>, more: seq<seq<Tick>>)
    ensures var w := Reached(cfg, pr, tapes); w.dbs <= Run(cfg, pr, w, more).dbs <= SetOf(Granted(pr))
  {
    Reachable(cfg, pr, tapes);
    var w := Reached(cfg, pr, tapes);
    RunKeeps(cfg, pr, w, more);
    InvFacts(pr, Run(cfg, pr, w, more));
  }
}
