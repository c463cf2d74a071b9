/** `handleInitialization` and `handleProvisioning` keep the invariant; provisioning ends with one password in the
    status, in MongoDB and in the secret, although every pass draws a new one. */
module Provisioning {
  import opened Types
  import opened Api
  import opened Names
  import opened Conditions
  import opened Handlers
  import opened Invariants
  import opened Steps

  lemma EnsureNamespaceGood(pr: string, w0: World, s: Sys, st: Stack, mode: Mode)
    requires Good(pr, w0, s, st, mode) && !Live(Server(s).phase)
    ensures var r := EnsureNamespace(s);
            && Good(pr, w0, r.s, st, mode) && Server(r.s) == Server(s) && s.w.now <= r.s.w.now
            && (r.ok ==> r.s.w.ns.Some?)
            && (NoFault(s, r.s) ==> r.ok)
  {
    var g := Call(s, GetNs(false));
    SideCall(pr, w0, s, GetNs(false), st, mode);
    Executed(s, GetNs(false));
    if g.reply.NotFound? {
      SideCall(pr, w0, g.s, CreateNs, st, mode);
      Open(pr, w0, s, mode);
      Open(pr, w0, g.s, mode);
      CallSides(pr, s, GetNs(false));
      AfterKeeps(pr, g.s, Free);
      AfterKeeps(pr, s, Free);
      Executed(g.s, CreateNs);
    }
  }

  lemma {:induction false} MakeDbsGood(pr: string, w0: World, s: Sys, names: seq<string>, st: Stack, mode: Mode)
    requires Good(pr, w0, s, st, mode) && !Live(Server(s).phase) && SetOf(names) <= SetOf(Granted(pr))
    ensures var r := MakeDbs(s, names);
            && Good(pr, w0, r.s, st, mode) && Server(r.s) == Server(s) && s.w.now <= r.s.w.now
            && r.s.w.ns == s.w.ns && r.s.w.user == s.w.user
            && (r.ok ==> s.w.dbs + SetOf(names) <= r.s.w.dbs)
            && (NoFault(s, r.s) ==> r.ok)
    decreases |names|
  {
    if names != [] {
      var c := Call(s, MakeDb(names[0]));
      assert names[0] in SetOf(names) && SetOf(names) == {names[0]} + SetOf(names[1..]);
      SideCall(pr, w0, s, MakeDb(names[0]), st, mode);
      Open(pr, w0, s, mode);
      CallSides(pr, s, MakeDb(names[0]));
      Executed(s, MakeDb(names[0]));
      AfterKeeps(pr, s, Free);
      if c.reply.Done? {
        assert c.s.w.dbs == s.w.dbs + {names[0]};
        MakeDbsGood(pr, w0, c.s, names[1..], st, mode);
      }
    }
  }

  lemma DrawGood(pr: string, w0: World, s: Sys, st: Stack, mode: Mode)
    requires Good(pr, w0, s, st, mode) && !Live(Server(s).phase)
    ensures var r := DrawPassword(s);
            && Good(pr, w0, r.s, st, mode) && Server(r.s) == Server(s) && s.w.now <= r.s.w.now
            && r.s.w.ns == s.w.ns
            && (NoFault(s, r.s) ==> r.reply.Password?)
  {
    var p := Call(s, Ping);
    SideCall(pr, w0, s, Ping, st, mode);
    Open(pr, w0, s, mode);
    CallSides(pr, s, Ping);
    Executed(s, Ping);
    if p.reply.Done? {
      SideCall(pr, w0, p.s, Draw, st, mode);
      Open(pr, w0, p.s, mode);
      CallSides(pr, p.s, Draw);
      Executed(p.s, Draw);
    }
  }

  /** The new user holds the password that was drawn. */
  lemma ReplaceUserGood(pr: string, w0: World, s: Sys, password: string, st: Stack, mode: Mode)
    requires Good(pr, w0, s, st, mode) && !Live(Server(s).phase)
    ensures var r := ReplaceUser(pr, s, password);
            && Good(pr, w0, r.s, st, mode) && Server(r.s) == Server(s) && s.w.now <= r.s.w.now
            && r.s.w.ns == s.w.ns
            && (r.ok ==> r.s.w.user == Some(MongoUser(password, Granted(pr))) && SetOf(Granted(pr)) <= r.s.w.dbs)
            && (NoFault(s, r.s) ==> r.ok)
  {
    var user := MongoUser(password, Granted(pr));
    var d := Call(s, DropUser(false));
    SideCall(pr, w0, s, DropUser(false), st, mode);
    Open(pr, w0, s, mode);
    CallSides(pr, s, DropUser(false));
    Executed(s, DropUser(false));
    var u := Call(d.s, CreateUser(user));
    SideCall(pr, w0, d.s, CreateUser(user), st, mode);
    Open(pr, w0, d.s, mode);
    CallSides(pr, d.s, CreateUser(user));
    UserCreated(pr, d.s, user);
    assert NoFault(s, d.s) ==> d.s.w.user.None?;
    if u.reply.Done? { MakeDbsGood(pr, w0, u.s, Granted(pr), st, mode); }
  }

  lemma UserCreated(pr: string, s: Sys, user: MongoUser)
    requires Inv(pr, s.w)
    ensures var u := Call(s, CreateUser(user));
            && (u.reply.Done? ==> u.s.w.user == Some(user))
            && (s.w.user.None? && NoFault(s, u.s) ==> u.reply.Done?)
  {
    AfterKeeps(pr, s, Free);
    Executed(s, CreateUser(user));
  }

  /** The copy's credentials are those of the Mongo user. */
  predicate UserMatches(pr: string, w: World, st: Stack) {
    && st.status.mongo.Some?
    && st.status.mongo.value == CredentialsFor(pr, st.status.mongo.value.password)
    && w.user == Some(MongoUser(st.status.mongo.value.password, Granted(pr)))
    && SetOf(Granted(pr)) <= w.dbs
  }

  predicate InProvisioning(s: Sys, st: Stack) {
    && Derived(s.w, st)
    && Server(s).phase == st.status.phase == Phase.Provisioning
  }

  lemma StoreGood(pr: string, w0: World, made: Step, password: string, st: Stack, mode: Mode)
    requires Good(pr, w0, made.s, st, mode) && InProvisioning(made.s, st)
    requires made.ok ==> made.s.w.user == Some(MongoUser(password, Granted(pr))) && SetOf(Granted(pr)) <= made.s.w.dbs
    ensures var r := StoreCredentials(made, CredentialsFor(pr, password), st);
            && Good(pr, w0, r.s, r.st, mode) && InProvisioning(r.s, r.st) && r.s.w.ns == made.s.w.ns
            && (r.ok ==> UserMatches(pr, r.s.w, r.st))
            && (NoFault(made.s, r.s) && made.ok ==> r.ok || Stale(r.s.w, r.st))
            && (Clean(made.s, r.s) ==> r.ok == made.ok)
  {
    if made.ok {
      var x := st.(status := st.status.(mongo := Some(CredentialsFor(pr, password))));
      assert Derived(made.s.w, x);
      StatusWrite(pr, w0, made.s, x, Plain, mode);
      var r := UpdateStatus(made.s, x, Plain);
      GoodUnchanged(pr, w0, r.s, st, x, mode);
    }
  }

  /** A copy may be replaced by one that differs in its status only. */
  lemma GoodUnchanged(pr: string, w0: World, s: Sys, st: Stack, x: Stack, mode: Mode)
    requires x == st.(status := x.status)
    ensures Good(pr, w0, s, st, mode) <==> Good(pr, w0, s, x, mode)
  {
  }

  /** From the drawn password on. */
  lemma DrawnGood(pr: string, w0: World, s: Sys, password: string, st: Stack, mode: Mode)
    requires Good(pr, w0, s, st, mode) && InProvisioning(s, st)
    ensures var r := StoreCredentials(ReplaceUser(pr, s, password), CredentialsFor(pr, password), st);
            && Good(pr, w0, r.s, r.st, mode) && InProvisioning(r.s, r.st) && r.s.w.ns == s.w.ns
            && (r.ok ==> UserMatches(pr, r.s.w, r.st))
            && (NoFault(s, r.s) ==> r.ok || Stale(r.s.w, r.st))
            && (Clean(s, r.s) ==> r.ok)
  {
    ReplaceUserGood(pr, w0, s, password, st, mode);
    var made := ReplaceUser(pr, s, password);
    DerivedLater(s.w, made.s.w, st);
    StoreGood(pr, w0, made, password, st, mode);
  }

  lemma ProvisionMongoGood(pr: string, w0: World, s: Sys, st: Stack, mode: Mode)
    requires Good(pr, w0, s, st, mode) && InProvisioning(s, st)
    ensures var r := ProvisionMongo(pr, s, st);
            && Good(pr, w0, r.s, r.st, mode) && InProvisioning(r.s, r.st) && r.s.w.ns == s.w.ns
            && (r.ok ==> UserMatches(pr, r.s.w, r.st))
            && (NoFault(s, r.s) ==> r.ok || Stale(r.s.w, r.st))
            && (Clean(s, r.s) ==> r.ok)
  {
    DrawGood(pr, w0, s, st, mode);
    var d := DrawPassword(s);
    DerivedLater(s.w, d.s.w, st);
    if d.reply.Password? { DrawnGood(pr, w0, d.s, d.reply.password, st, mode); }
  }

  lemma MongoSecretGood(pr: string, w0: World, s: Sys, st: Stack, mode: Mode)
    requires Good(pr, w0, s, st, mode) && !Live(Server(s).phase) && st.status.mongo.Some?
    ensures var r := CreateMongoSecret(s, st); var c := st.status.mongo.value;
            && Good(pr, w0, r.s, st, mode) && Server(r.s) == Server(s) && s.w.now <= r.s.w.now
            && r.s.w.user == s.w.user && r.s.w.dbs == s.w.dbs
            && (r.ok ==> r.s.w.ns.Some? && MONGO_SECRET in r.s.w.ns.value.secrets
                         && r.s.w.ns.value.secrets[MONGO_SECRET] == Secret(c.user, c.password))
            && (s.w.ns.Some? && NoFault(s, r.s) ==> r.ok)
  {
    UpsertGood(pr, w0, s, MongoSecret(st.status.mongo.value), st, mode);
    UpsertEffect(pr, w0, s, MongoSecret(st.status.mongo.value), st, mode);
  }

  predicate SecretMatches(w: World, st: Stack) {
    && st.status.mongo.Some? && w.ns.Some? && MONGO_SECRET in w.ns.value.secrets
    && w.ns.value.secrets[MONGO_SECRET] == Secret(st.status.mongo.value.user, st.status.mongo.value.password)
  }

  /** Where a provisioning pass may end. */
  ghost predicate ProvisioningEnds(pr: string, w0: World, s: Sys, r: Sys, mode: Mode) {
    && Final(pr, w0, r, mode)
    && Server(r).phase in {Phase.Provisioning, Deploying, Failed}
    && (Clean(s, r) ==> Server(r).phase == Deploying)
    && (NoFault(s, r) ==> Server(r).phase != Failed)
  }

  /** The final write of provisioning makes the stack live with agreeing credentials. */
  lemma ProvisionedWrite(pr: string, w0: World, s: Sys, st: Stack, mode: Mode)
    requires Good(pr, w0, s, st, mode) && InProvisioning(s, st)
    requires UserMatches(pr, s.w, st) && SecretMatches(s.w, st)
    ensures ProvisioningEnds(pr, w0, s, UpdateStatus(s, Provisioned(pr, st, s.w.now), Plain).s, mode)
  {
    var y := WithPhase(st.(status := st.status.(nats := Some(NatsUrl(pr)), redis := Some(RedisUrl(pr)))),
                       Deploying, Text("Resources provisioned, starting service deployment"));
    ProgressSet(y, "Deploying", "Deploying services to cluster", s.w.now);
    var x := Provisioned(pr, st, s.w.now);
    assert x.status.phase == Deploying && Derived(s.w, x);
    assert CredentialsAgree(pr, x.status, s.w);
    StatusWrite(pr, w0, s, x, Plain, mode);
  }

  lemma ErrorEnds(pr: string, w0: World, s: Sys, s0: Sys, st: Stack, what: string, mode: Mode)
    requires Good(pr, w0, s, st, mode) && InProvisioning(s, st) && !Clean(s0, s)
    requires NoFault(s0, s) ==> Stale(s.w, st)
    requires s.faults >= s0.faults && s.conflicts >= s0.conflicts
    ensures ProvisioningEnds(pr, w0, s0, RecordError(s, st, what), mode)
  {
    ErrorKeeps(pr, w0, s, st, what, mode);
  }

  lemma FinishGood(pr: string, w0: World, s0: Sys, c: Step, st: Stack, mode: Mode)
    requires Good(pr, w0, c.s, st, mode) && InProvisioning(c.s, st) && UserMatches(pr, c.s.w, st)
    requires c.ok ==> SecretMatches(c.s.w, st)
    requires !c.ok ==> !NoFault(s0, c.s)
    requires c.s.faults >= s0.faults && c.s.conflicts >= s0.conflicts
    ensures ProvisioningEnds(pr, w0, s0, FinishProvisioning(pr, c, st), mode)
  {
    if c.ok {
      ProvisionedWrite(pr, w0, c.s, st, mode);
    } else {
      ErrorEnds(pr, w0, c.s, s0, st, "MongoDB secret provisioning failed", mode);
    }
  }

  lemma ProvisionSecretGood(pr: string, w0: World, s0: Sys, m: Res, mode: Mode)
    requires Good(pr, w0, m.s, m.st, mode) && InProvisioning(m.s, m.st)
    requires m.s.w.ns.Some? && (m.ok ==> UserMatches(pr, m.s.w, m.st)) && (!m.ok ==> !Clean(s0, m.s))
    requires !m.ok && NoFault(s0, m.s) ==> Stale(m.s.w, m.st)
    requires m.s.faults >= s0.faults && m.s.conflicts >= s0.conflicts
    ensures ProvisioningEnds(pr, w0, s0, ProvisionSecret(pr, m), mode)
  {
    if m.ok {
      MongoSecretGood(pr, w0, m.s, m.st, mode);
      var c := CreateMongoSecret(m.s, m.st);
      DerivedLater(m.s.w, c.s.w, m.st);
      FinishGood(pr, w0, s0, c, m.st, mode);
    } else {
      ErrorEnds(pr, w0, m.s, s0, m.st, "MongoDB provisioning failed", mode);
    }
  }

  /** From the phase Provisioning a pass ends in Provisioning, Deploying or Failed; without failures in Deploying. */
  lemma ProvisioningKeeps(pr: string, w0: World, s: Sys, st0: Stack, mode: Mode)
    requires Good(pr, w0, s, st0, mode) && Synced(s, st0) && st0.status.phase == Phase.Provisioning
    ensures ProvisioningEnds(pr, w0, s, HandleProvisioning(pr, s, st0), mode)
  {
    var st := WithProgress(st0, "Provisioning", "Provisioning MongoDB, NATS, and Redis", s.w.now);
    GoodStatus(pr, w0, s, st0, mode);
    ProgressSet(st0, "Provisioning", "Provisioning MongoDB, NATS, and Redis", s.w.now);
    assert InProvisioning(s, st);
    GoodUnchanged(pr, w0, s, st0, st, mode);
    EnsureNamespaceGood(pr, w0, s, st, mode);
    var n := EnsureNamespace(s);
    DerivedLater(s.w, n.s.w, st);
    if !n.ok {
      ErrorEnds(pr, w0, n.s, s, st, "Namespace provisioning failed", mode);
    } else {
      ProvisionMongoGood(pr, w0, n.s, st, mode);
      ProvisionSecretGood(pr, w0, s, ProvisionMongo(pr, n.s, st), mode);
    }
  }

  lemma InitializationKeeps(pr: string, w0: World, s: Sys, st: Stack, mode: Mode)
    requires Good(pr, w0, s, st, mode) && Synced(s, st)
    ensures var r := HandleInitialization(s, st);
            && Final(pr, w0, r, mode)
            && (Server(r) == Server(s) || Server(r).phase == Phase.Provisioning)
            && (Clean(s, r) ==> Server(r).phase == Phase.Provisioning)
            && r.panicked == s.panicked && r.crashed == s.crashed
  {
    GoodStatus(pr, w0, s, st, mode);
    var y := WithPhase(st, Phase.Provisioning, Text("Starting PR stack provisioning"));
    ProgressSet(y, "Initializing", "Preparing to provision infrastructure", s.w.now);
    StatusWrite(pr, w0, s, WithProgress(y, "Initializing", "Preparing to provision infrastructure", s.w.now), Plain, mode);
  }
}
