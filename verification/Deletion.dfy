/** Deletion: cleanup is entered only for deleted stacks, keeps the invariant even where the finalizer is already
    gone, and what it leaves behind is exactly what its swallowed errors say. */
module Deletion {
  import opened Types
  import opened Api
  import opened Names
  import opened Conditions
  import opened Handlers
  import opened Invariants
  import opened Steps

  // ---------------------------------------------------------------- copies without the finalizer

  /** If the copy is current, the object is as copied, with the status `base`. The object may have disappeared and
      another may have been created. */
  predicate Copied(w: World, st: Stack, base: Status) {
    && st.version <= w.rv
    && (Current(w, st) ==> w.stack.value == st.(status := base))
  }

  ghost predicate Loose(pr: string, w0: World, s: Sys, st: Stack, base: Status) {
    Promise(pr, w0, s, Free) && Copied(s.w, st, base)
  }

  /** The stack is being deleted, or belongs to nobody yet. */
  predicate Retired(w: World) {
    w.stack.Some? ==>
      && !Live(w.stack.value.status.phase)
      && (FINALIZER in w.stack.value.finalizers ==> w.stack.value.deleted)
  }

  /** The stack is deleted wherever the finalizer still holds it. */
  predicate HeldDeleted(w: World) {
    Held(w) ==> w.stack.value.deleted
  }

  lemma ApplyLoose(w: World, e: Edit, st: Stack, base: Status)
    requires Copied(w, st, base) && (w.stack.Some? ==> w.stack.value.version <= w.rv)
    ensures Copied(Apply(w, e), st, base)
  {
  }

  lemma ApplyRetired(w: World, e: Edit)
    requires w.stack.Some? ==> Once(w.stack.value.finalizers)
    ensures Retired(w) ==> Retired(Apply(w, e))
    ensures HeldDeleted(w) ==> HeldDeleted(Apply(w, e))
  {
    if e.Release? && w.stack.Some? { RemoveKeepsOnce(w.stack.value.finalizers, e.finalizer); }
  }

  lemma {:induction false} EditsLoose(pr: string, w: World, edits: seq<Edit>, st: Stack, base: Status)
    requires Inv(pr, w) && Copied(w, st, base)
    ensures Copied(ApplyAll(w, edits), st, base)
    ensures Retired(w) ==> Retired(ApplyAll(w, edits))
    ensures HeldDeleted(w) ==> HeldDeleted(ApplyAll(w, edits))
    decreases |edits|
  {
    if edits != [] {
      InvFacts(pr, w);
      ApplyKeeps(pr, w, edits[0], Free);
      ApplyLoose(w, edits[0], st, base);
      ApplyRetired(w, edits[0]);
      EditsLoose(pr, Apply(w, edits[0]), edits[1..], st, base);
    }
  }

  lemma AfterLoose(pr: string, w0: World, s: Sys, st: Stack, base: Status)
    requires Loose(pr, w0, s, st, base)
    ensures Loose(pr, w0, After(s), st, base)
    ensures Retired(s.w) ==> Retired(After(s).w)
    ensures HeldDeleted(s.w) ==> HeldDeleted(After(s).w)
    ensures SameSides(s.w, After(s).w) && s.w.now <= After(s).w.now
  {
    Open(pr, w0, s, Free);
    AfterKeeps(pr, s, Free);
    AgesTransitive(w0, s.w, After(s).w);
    Close(pr, w0, After(s), Free);
    if s.tape != [] {
      var t := s.tape[0];
      var v := s.w.(now := if t.now > s.w.now then t.now else s.w.now);
      TimePasses(pr, s.w, v.now, Free);
      EditsLoose(pr, v, t.edits, st, base);
    }
  }

  // ---------------------------------------------------------------- calls of the cleanup

  predicate CleaningOp(pr: string, op: Op) {
    match op
    case CreateObj(m) => m.ObjectManifest? && m.key.kind.Job?
    case GetObj(_) => true
    case DeleteObj(ref) => !ref.SecretRef?
    case GetNs(cleaning) => cleaning
    case DeleteNs => true
    case Ping => true
    case DropDb(name) => name !in SetOf(Granted(pr))
    case DropUser(cleaning) => cleaning
    case _ => false
  }

  predicate NamespaceShrinks(m: Namespace, n: Namespace) {
    && n.deployments.Keys <= m.deployments.Keys
    && (forall name :: name in n.deployments ==> n.deployments[name] == m.deployments[name])
    && n.secrets == m.secrets
    && (forall k :: k in n.objects && !k.kind.Job? ==> k in m.objects && n.objects[k] == m.objects[k])
  }

  /** Nothing appears but a backup job; the databases, the user and the namespace can only go. */
  predicate Shrinks(w: World, v: World) {
    && v.dbs <= w.dbs
    && (v.user == w.user || v.user.None?)
    && (v.ns.Some? ==> w.ns.Some? && NamespaceShrinks(w.ns.value, v.ns.value))
  }

  lemma ShrinksTransitive(a: World, b: World, c: World)
    requires Shrinks(a, b) && Shrinks(b, c)
    ensures Shrinks(a, c)
  {
  }

  predicate NsExact(w: World) {
    w.ns.Some? <==> w.meter.nsSwallowed
  }

  predicate UserExact(w: World) {
    w.user.Some? <==> w.meter.dropSwallowed
  }

  /** As long as the process lives, the history is exact about the namespace. */
  predicate NsKnown(s: Sys) {
    s.tape == [] || NsExact(s.w)
  }

  predicate UserKnown(s: Sys) {
    s.tape == [] || UserExact(s.w)
  }

  /** A cleanup call: what the history says of the namespace and the user stays exact. */
  predicate CleaningStep(pr: string, w: World, v: World) {
    && SideStep(pr, w, v) && Shrinks(w, v)
    && (NsExact(w) ==> NsExact(v))
    && (UserExact(w) ==> UserExact(v))
  }

  lemma RemoveShrinks(n: Namespace, ref: Ref)
    requires !ref.SecretRef?
    ensures NamespaceShrinks(n, Remove(n, ref))
  {
  }

  lemma ExecCleans(pr: string, w: World, op: Op, t: Tick)
    requires CleaningOp(pr, op) && Latched(w)
    ensures CleaningStep(pr, w, Exec(w, op, t).w) && CleaningStep(pr, w, w)
  {
    ExecSide(pr, w, op, t);
    if op.DeleteObj? && w.ns.Some? { RemoveShrinks(w.ns.value, op.ref); }
  }

  lemma SwallowCleans(pr: string, w: World, v: World, op: Op)
    requires CleaningStep(pr, w, v)
    ensures CleaningStep(pr, w, Swallow(v, op))
  {
  }

  lemma CallCleans(pr: string, s: Sys, op: Op)
    requires CleaningOp(pr, op) && Latched(After(s).w)
    ensures CleaningStep(pr, After(s).w, Call(s, op).s.w) && Call(s, op).s.tape == After(s).tape
  {
    var a := After(s).w;
    ExecCleans(pr, a, op, Head(s));
    var v := if Head(s).outcome.Fail? then a else Exec(a, op, Head(s)).w;
    SwallowCleans(pr, a, v, op);
    CallWorld(s, op);
  }

  lemma CleaningStepKeeps(pr: string, w: World, v: World)
    requires Inv(pr, w) && Retired(w) && CleaningStep(pr, w, v)
    ensures Inv(pr, v) && Ages(w, v)
  {
    InvFacts(pr, w);
    if w.stack.Some? { assert StackFits(pr, v, v.stack.value); }
    InvFrom(pr, v);
  }

  /** The states of a cleanup: `a` before it, `s` now. */
  ghost predicate Cleans(pr: string, w0: World, a: Sys, s: Sys, st: Stack, base: Status) {
    && Loose(pr, w0, s, st, base) && Retired(s.w)
    && Shrinks(a.w, s.w)
    && (NsKnown(a) ==> NsKnown(s)) && (UserKnown(a) ==> UserKnown(s))
    && s.faults >= a.faults && s.conflicts == a.conflicts && a.w.now <= s.w.now
    && (a.tape == [] ==> s.tape == [])
    && s.panicked == a.panicked && s.crashed == a.crashed
  }

  lemma CleansTransitive(pr: string, w0: World, a: Sys, b: Sys, c: Sys, st: Stack, base: Status)
    requires Cleans(pr, w0, a, b, st, base) && Cleans(pr, w0, b, c, st, base)
    ensures Cleans(pr, w0, a, c, st, base)
  {
    ShrinksTransitive(a.w, b.w, c.w);
  }

  lemma CleansSelf(pr: string, w0: World, s: Sys, st: Stack, base: Status)
    requires Loose(pr, w0, s, st, base) && Retired(s.w)
    ensures Cleans(pr, w0, s, s, st, base)
  {
  }

  lemma SideConflicts(s: Sys, op: Op)
    requires !WritesStack(op)
    ensures Call(s, op).s.conflicts == s.conflicts
  {
  }

  lemma CleaningStepLoose(pr: string, w0: World, a: Sys, r: Sys, st: Stack, base: Status)
    requires Loose(pr, w0, a, st, base) && Retired(a.w) && CleaningStep(pr, a.w, r.w) && r.tape == a.tape
    ensures Loose(pr, w0, r, st, base) && Retired(r.w)
  {
    Open(pr, w0, a, Free);
    CleaningStepKeeps(pr, a.w, r.w);
    AgesTransitive(w0, a.w, r.w);
    Close(pr, w0, r, Free);
  }

  lemma CleaningCall(pr: string, w0: World, s: Sys, op: Op, st: Stack, base: Status)
    requires Loose(pr, w0, s, st, base) && Retired(s.w) && CleaningOp(pr, op)
    ensures Cleans(pr, w0, s, Call(s, op).s, st, base)
    ensures Latched(After(s).w)
  {
    AfterLoose(pr, w0, s, st, base);
    var a, r := After(s), Call(s, op).s;
    Open(pr, w0, a, Free);
    InvFacts(pr, a.w);
    CallCleans(pr, s, op);
    CleaningStepLoose(pr, w0, a, r, st, base);
    SideConflicts(s, op);
  }

  // ---------------------------------------------------------------- the cleanup pass

  lemma {:induction false} DropDbsCleans(pr: string, w0: World, s: Sys, names: seq<string>, st: Stack, base: Status)
    requires Loose(pr, w0, s, st, base) && Retired(s.w)
    requires forall i :: 0 <= i < |names| ==> names[i] !in SetOf(Granted(pr))
    ensures Cleans(pr, w0, s, DropDbs(s, names), st, base)
    decreases |names|
  {
    if names == [] {
      CleansSelf(pr, w0, s, st, base);
    } else {
      CleaningCall(pr, w0, s, DropDb(names[0]), st, base);
      var c := Call(s, DropDb(names[0])).s;
      DropDbsCleans(pr, w0, c, names[1..], st, base);
      CleansTransitive(pr, w0, s, c, DropDbs(s, names), st, base);
    }
  }

  lemma {:induction false} EditsSides(w: World, edits: seq<Edit>)
    ensures ApplyAll(w, edits).dbs == w.dbs
    decreases |edits|
  {
    if edits != [] { EditsSides(Apply(w, edits[0]), edits[1..]); }
  }

  lemma AfterDbs(s: Sys)
    ensures After(s).w.dbs == s.w.dbs
  {
    if s.tape != [] {
      var t := s.tape[0];
      EditsSides(s.w.(now := if t.now > s.w.now then t.now else s.w.now), t.edits);
    }
  }

  lemma DropDbCall(s: Sys, name: string)
    ensures var c := Call(s, DropDb(name)).s;
            s.w.dbs - {name} <= c.w.dbs <= s.w.dbs && (NoFault(s, c) ==> c.w.dbs == s.w.dbs - {name})
  {
    AfterDbs(s);
  }

  /** What a sequence of drops leaves: without a failed call all of the names are gone. */
  lemma {:induction false} DropDbsExact(s: Sys, names: seq<string>)
    ensures var r := DropDbs(s, names);
            s.w.dbs - SetOf(names) <= r.w.dbs <= s.w.dbs && (NoFault(s, r) ==> r.w.dbs == s.w.dbs - SetOf(names))
    decreases |names|
  {
    if names != [] {
      DropDbCall(s, names[0]);
      DropDbsExact(Call(s, DropDb(names[0])).s, names[1..]);
      assert SetOf(names) == {names[0]} + SetOf(names[1..]);
    }
  }

  /** Dropping by the names that cleanup builds leaves every granted database that was there, whatever fails; dropping
      by the names of `getDatabaseName` leaves none, if no call fails. */
  lemma DroppedByName(pr: string, s: Sys)
    requires s.w.dbs <= SetOf(Granted(pr))
    ensures DropDbs(s, CleanupDatabaseNames(DEFAULT_SERVICES, pr)).w.dbs == s.w.dbs
    ensures var r := DropDbs(s, DatabaseNames(DEFAULT_SERVICES, pr)); NoFault(s, r) ==> r.w.dbs == {}
  {
    DropDbsExact(s, CleanupDatabaseNames(DEFAULT_SERVICES, pr));
    DropDbsExact(s, DatabaseNames(DEFAULT_SERVICES, pr));
    CleanupRemainder(pr, s.w.dbs);
  }

  /** The names cleanup builds are none of the granted databases. */
  lemma CleanupSpares(pr: string)
    ensures var names := CleanupDatabaseNames(DEFAULT_SERVICES, pr);
            forall i :: 0 <= i < |names| ==> names[i] !in SetOf(Granted(pr))
  {
    var names := CleanupDatabaseNames(DEFAULT_SERVICES, pr);
    forall i | 0 <= i < |names| ensures names[i] !in SetOf(Granted(pr)) {
      forall j | 0 <= j < |Granted(pr)| ensures Granted(pr)[j] != names[i] {
        CleanupMissesProvisioned(DEFAULT_SERVICES[i], pr, DEFAULT_SERVICES[j], pr);
      }
    }
  }

  /** Whatever becomes of a cleaning dropUser, the history then tells whether the user is still there. */
  lemma DropUserExact(s: Sys)
    requires Latched(After(s).w)
    ensures var d := Call(s, DropUser(true)).s; UserKnown(d) && (NoFault(s, d) ==> d.w.user.None?)
  {
  }

  /** The connection alone decides whether it is an error, and then nothing is dropped; otherwise the user is gone or the
      history knows why not. */
  lemma MongoCleans(pr: string, w0: World, s: Sys, st: Stack, base: Status)
    requires Loose(pr, w0, s, st, base) && Retired(s.w)
    ensures var r := CleanupMongo(pr, s);
            && Cleans(pr, w0, s, r.s, st, base)
            && (r.ok ==> UserKnown(r.s))
            && (NoFault(s, r.s) ==> r.ok && r.s.w.user.None?)
            && (!r.ok <==> Call(s, Ping).reply.Error()) && (!r.ok ==> r.s == Call(s, Ping).s)
  {
    CleaningCall(pr, w0, s, Ping, st, base);
    Executed(s, Ping);
    var p := Call(s, Ping);
    if p.reply.Done? {
      var names := CleanupDatabaseNames(DEFAULT_SERVICES, pr);
      CleanupSpares(pr);
      DropDbsCleans(pr, w0, p.s, names, st, base);
      var d := DropDbs(p.s, names);
      CleaningCall(pr, w0, d, DropUser(true), st, base);
      DropUserExact(d);
      CleansTransitive(pr, w0, s, p.s, d, st, base);
      CleansTransitive(pr, w0, s, d, Call(d, DropUser(true)).s, st, base);
    }
  }

  predicate Absent(ns: Option<Namespace>, ref: Ref) {
    ns.Some? ==> !Has(ns.value, ref)
  }

  lemma GetAbsent(s: Sys, ref: Ref)
    ensures var g := Call(s, GetObj(ref)); NoFault(s, g.s) && !g.reply.Done? ==> Absent(g.s.w.ns, ref)
  {
  }

  lemma DeleteAbsent(s: Sys, ref: Ref)
    ensures var d := Call(s, DeleteObj(ref)); d.reply.Done? ==> Absent(d.s.w.ns, ref)
  {
  }

  lemma AbsentStays(w: World, v: World, ref: Ref)
    requires Shrinks(w, v) && Absent(w.ns, ref) && !(ref.ObjectRef? && ref.key.kind.Job?)
    requires !ref.SecretRef?
    ensures Absent(v.ns, ref)
  {
  }

  /** The object was found, and its delete failed. */
  predicate DeleteFails(s: Sys, ref: Ref) {
    var g := Call(s, GetObj(ref));
    g.reply.Done? && Call(g.s, DeleteObj(ref)).reply.Error()
  }

  lemma DeleteReplies(s: Sys, ref: Ref)
    ensures var reply := Call(s, DeleteObj(ref)).reply; reply.Done? <==> !reply.Error()
  {
  }

  lemma ObjFails(s: Sys, ref: Ref)
    ensures CleanupObj(s, ref).ok <==> !DeleteFails(s, ref)
  {
    DeleteReplies(Call(s, GetObj(ref)).s, ref);
  }

  lemma ObjCleans(pr: string, w0: World, s: Sys, ref: Ref, st: Stack, base: Status)
    requires Loose(pr, w0, s, st, base) && Retired(s.w) && !ref.SecretRef?
    ensures var r := CleanupObj(s, ref);
            && Cleans(pr, w0, s, r.s, st, base)
            && (NoFault(s, r.s) ==> r.ok && Absent(r.s.w.ns, ref))
  {
    CleaningCall(pr, w0, s, GetObj(ref), st, base);
    GetAbsent(s, ref);
    var g := Call(s, GetObj(ref));
    if g.reply.Done? {
      CleaningCall(pr, w0, g.s, DeleteObj(ref), st, base);
      CleansTransitive(pr, w0, s, g.s, Call(g.s, DeleteObj(ref)).s, st, base);
      Executed(g.s, DeleteObj(ref));
      DeleteAbsent(g.s, ref);
    }
  }

  /** Without a failed call the deployment and the service of the server are gone. Of the calls that can fail only the
      deletes, of the deployment or, if that went well, of the service, make it an error. */
  lemma ServerCleans(pr: string, w0: World, s: Sys, name: string, st: Stack, base: Status)
    requires Loose(pr, w0, s, st, base) && Retired(s.w)
    ensures var r := CleanupServer(s, name);
            && Cleans(pr, w0, s, r.s, st, base)
            && (NoFault(s, r.s) ==>
                  r.ok && Absent(r.s.w.ns, DeploymentRef(name)) && Absent(r.s.w.ns, ObjectRef(Key(Service, name))))
            && (!r.ok <==> DeleteFails(s, DeploymentRef(name))
                           || DeleteFails(CleanupObj(s, DeploymentRef(name)).s, ObjectRef(Key(Service, name))))
  {
    ObjCleans(pr, w0, s, DeploymentRef(name), st, base);
    ObjFails(s, DeploymentRef(name));
    var d := CleanupObj(s, DeploymentRef(name));
    ObjFails(d.s, ObjectRef(Key(Service, name)));
    if d.ok {
      ObjCleans(pr, w0, d.s, ObjectRef(Key(Service, name)), st, base);
      var r := CleanupServer(s, name);
      CleansTransitive(pr, w0, s, d.s, r.s, st, base);
      if Absent(d.s.w.ns, DeploymentRef(name)) { AbsentStays(d.s.w, r.s.w, DeploymentRef(name)); }
    }
  }

  /** An unexecuted Get of the namespace either finds no namespace or is recorded as swallowed. */
  lemma GetNsExact(s: Sys)
    requires Latched(After(s).w)
    ensures var g := Call(s, GetNs(true));
            !g.reply.Done? ==> NsKnown(g.s) && (NoFault(s, g.s) ==> g.s.w.ns.None?)
  {
  }

  lemma DeleteNsExact(s: Sys)
    requires Latched(After(s).w)
    ensures var d := Call(s, DeleteNs); d.reply.Done? ==> NsKnown(d.s) && d.s.w.ns.None?
  {
  }

  lemma NamespaceCleans(pr: string, w0: World, s: Sys, st: Stack, base: Status)
    requires Loose(pr, w0, s, st, base) && Retired(s.w)
    ensures var r := CleanupNamespace(s);
            && Cleans(pr, w0, s, r.s, st, base)
            && (r.ok ==> NsKnown(r.s))
            && (NoFault(s, r.s) ==> r.ok && r.s.w.ns.None?)
  {
    CleaningCall(pr, w0, s, GetNs(true), st, base);
    GetNsExact(s);
    var g := Call(s, GetNs(true));
    if g.reply.Done? {
      CleaningCall(pr, w0, g.s, DeleteNs, st, base);
      DeleteNsExact(g.s);
      CleansTransitive(pr, w0, s, g.s, Call(g.s, DeleteNs).s, st, base);
      Executed(g.s, DeleteNs);
    }
  }

  /** Nothing of the PR is left but its databases. */
  predicate Gone(w: World) {
    w.ns.None? && w.user.None?
  }

  lemma AllCleans(pr: string, w0: World, s: Sys, st: Stack, base: Status)
    requires Loose(pr, w0, s, st, base) && Retired(s.w)
    ensures var r := CleanupAll(pr, s);
            && Cleans(pr, w0, s, r.s, st, base)
            && (r.ok ==> NsKnown(r.s))
            && (NoFault(s, r.s) ==> r.ok && Gone(r.s.w))
  {
    MongoCleans(pr, w0, s, st, base);
    var m := CleanupMongo(pr, s).s;
    ServerCleans(pr, w0, m, "nats", st, base);
    var n := CleanupServer(m, "nats").s;
    ServerCleans(pr, w0, n, "redis", st, base);
    var r := CleanupServer(n, "redis").s;
    NamespaceCleans(pr, w0, r, st, base);
    CleansTransitive(pr, w0, s, m, n, st, base);
    CleansTransitive(pr, w0, s, n, r, st, base);
    CleansTransitive(pr, w0, s, r, CleanupAll(pr, s).s, st, base);
  }

  lemma BackupCleans(pr: string, w0: World, s: Sys, st: Stack, base: Status)
    requires Loose(pr, w0, s, st, base) && Retired(s.w)
    ensures Cleans(pr, w0, s, Backup(pr, s, st), st, base)
  {
    CleaningCall(pr, w0, s, CreateObj(ObjectManifest(Key(Job(s.w.now), "backup-pr-" + pr), Line(""))), st, base);
    CleansSelf(pr, w0, s, st, base);
  }

  lemma RestCleans(pr: string, w0: World, s: Sys, st: Stack, base: Status)
    requires Loose(pr, w0, s, st, base) && Retired(s.w) && NsKnown(s)
    ensures var r := CleanupRest(pr, s);
            && Cleans(pr, w0, s, r.s, st, base)
            && (r.failed.None? ==> NsKnown(r.s) && UserKnown(r.s))
            && (NoFault(s, r.s) ==> r.failed.None?)
  {
    MongoCleans(pr, w0, s, st, base);
    var m := CleanupMongo(pr, s);
    if m.ok {
      ServerCleans(pr, w0, m.s, "nats", st, base);
      var n := CleanupServer(m.s, "nats");
      CleansTransitive(pr, w0, s, m.s, n.s, st, base);
      if n.ok {
        ServerCleans(pr, w0, n.s, "redis", st, base);
        CleansTransitive(pr, w0, s, n.s, CleanupServer(n.s, "redis").s, st, base);
      }
    }
  }

  lemma GoneStays(w: World, v: World)
    requires Shrinks(w, v) && Gone(w)
    ensures Gone(v)
  {
  }

  /** A cleanup pass that returns no error has deleted the namespace and the user, or recorded why not, unless the process
      has died; one without a failed call has deleted them. */
  lemma PassCleans(pr: string, w0: World, s: Sys, st: Stack, base: Status)
    requires Loose(pr, w0, s, st, base) && Retired(s.w)
    ensures var r := CleanupPass(pr, s);
            && Cleans(pr, w0, s, r.s, st, base)
            && (r.failed.None? ==> NsKnown(r.s) && UserKnown(r.s))
            && (NoFault(s, r.s) ==> r.failed.None? && Gone(r.s.w))
  {
    AllCleans(pr, w0, s, st, base);
    var k := CleanupAll(pr, s);
    if k.ok {
      RestCleans(pr, w0, k.s, st, base);
      var r := CleanupRest(pr, k.s);
      CleansTransitive(pr, w0, s, k.s, r.s, st, base);
      if Gone(k.s.w) { GoneStays(k.s.w, r.s.w); }
    }
  }

  // ---------------------------------------------------------------- writes during deletion

  /** A status the deletion path may write: the copy's, in a phase that is not live. */
  predicate Closing(st: Stack, x: Stack, base: Status, now: int) {
    && x == st.(status := x.status)
    && StatusFits(x.status, st.deleted, now) && !Live(x.status.phase)
    && StatusGrows(base, x.status)
    && x.status.lastActiveAt == base.lastActiveAt && x.status.lastDeployedAt == base.lastDeployedAt
  }

  lemma ClosingCommit(pr: string, a: World, b: World, st: Stack, x: Stack, base: Status)
    requires Inv(pr, a) && Copied(a, st, base) && Current(a, st) && Closing(st, x, base, a.now)
    requires Committed(a, b, x, Plain)
    ensures Inv(pr, b) && Ages(a, b)
  {
    InvFacts(pr, a);
    CommitMeter(a, b, x, Plain);
    assert StackFits(pr, b, b.stack.value);
    InvFrom(pr, b);
  }

  /** A status write on the deletion path, whatever its fate. */
  lemma ClosingWrite(pr: string, w0: World, s: Sys, st: Stack, x: Stack, base: Status)
    requires Loose(pr, w0, s, st, base) && Closing(st, x, base, s.w.now)
    ensures var r := UpdateStatus(s, x, Plain);
            && Promise(pr, w0, r.s, Free)
            && r.s.w.ns == s.w.ns && r.s.w.user == s.w.user && r.s.w.dbs == s.w.dbs
            && r.s.w.meter.nsSwallowed == s.w.meter.nsSwallowed && r.s.w.meter.dropSwallowed == s.w.meter.dropSwallowed
            && (s.tape == [] ==> r.s.tape == [])
            && (Retired(s.w) && st.deleted ==> Retired(r.s.w)) && (HeldDeleted(s.w) ==> HeldDeleted(r.s.w))
            && (r.ok ==> r.s.w.stack == Some(r.st) && r.st == x.(version := r.st.version) && Loose(pr, w0, r.s, r.st, x.status))
            && (!r.ok ==> !Clean(s, r.s))
            && r.s.panicked == s.panicked && r.s.crashed == s.crashed
  {
    AfterLoose(pr, w0, s, st, base);
    StatusCall(s, x, Plain);
    var a, r := After(s), UpdateStatus(s, x, Plain);
    Open(pr, w0, a, Free);
    if Current(a.w, x) && Committed(a.w, r.s.w, x, Plain) {
      ClosingCommit(pr, a.w, r.s.w, st, x, base);
      AgesTransitive(w0, a.w, r.s.w);
      InvFacts(pr, r.s.w);
    }
    assert TapeIn(r.s.tape, Free);
    Close(pr, w0, r.s, Free);
  }

  predicate ClosingBase(st: Stack, base: Status, now: int) {
    && st.status == base && st.deleted
    && Sound(base, now)
  }

  lemma ErrorCloses(st: Stack, base: Status, what: string, now: int)
    requires ClosingBase(st, base, now)
    ensures Closing(st, WithError(st, what, now), base, now)
  {
    PairSet(WithPhase(st, Failed, Text(what)), false, "Error", Text(what), true, "ReconciliationFailed", Text(what), now);
  }

  lemma PhaseCloses(st: Stack, base: Status, phase: Phase, text: string, now: int)
    requires ClosingBase(st, base, now) && (phase == Cleaning || phase == Cleaned)
    ensures Closing(st, WithPhase(st, phase, Text(text)), base, now)
  {
  }

  lemma SoundLater(base: Status, now: int, later: int)
    requires Sound(base, now) && now <= later
    ensures Sound(base, later)
  {
  }

  /** Where a `Reconcile` of a deleted stack may end: nothing has been created, and whatever the finalizer no longer
      guards is recorded. */
  ghost predicate DeletionEnds(pr: string, w0: World, a: Sys, r: Sys) {
    && Promise(pr, w0, r, Free)
    && Shrinks(a.w, r.w)
    && r.panicked == a.panicked && r.crashed == a.crashed
  }

  lemma RecordErrorCloses(pr: string, w0: World, a: Sys, s: Sys, st: Stack, base: Status, what: string)
    requires Cleans(pr, w0, a, s, st, base) && ClosingBase(st, base, s.w.now)
    ensures DeletionEnds(pr, w0, a, RecordError(s, st, what)) && Retired(RecordError(s, st, what).w)
  {
    ErrorCloses(st, base, what, s.w.now);
    ClosingWrite(pr, w0, s, st, WithError(st, what, s.w.now), base);
  }

  // ---------------------------------------------------------------- the removal of the finalizer

  predicate FinalizerRemoved(a: World, b: World, st: Stack) {
    && a.stack == Some(st) && st.deleted
    && var next := st.(finalizers := RemoveString(st.finalizers, FINALIZER), version := a.rv + 1);
    && b == Touch(a, next).(meter := a.meter)
  }

  lemma RemovalKeeps(pr: string, a: World, b: World, st: Stack)
    requires Inv(pr, a) && FinalizerRemoved(a, b, st) && NsExact(a) && UserExact(a) && !Live(st.status.phase)
    ensures Inv(pr, b) && Ages(a, b) && !Held(b) && Retired(b)
  {
    InvFacts(pr, a);
    RemoveKeepsOnce(st.finalizers, FINALIZER);
    if b.stack.Some? { assert StackFits(pr, b, b.stack.value); }
    InvFrom(pr, b);
  }

  lemma StackCall(s: Sys, x: Stack)
    ensures var a, r := After(s), UpdateStack(s, x);
            && r.s.tape == a.tape
            && r.s.w == (if Lands(s, x) then Exec(a.w, PutStack(x), Head(s)).w else a.w)
            && (r.ok ==> Lands(s, x) && r.s.w == Exec(a.w, PutStack(x), Head(s)).w
                         && r.st == a.w.stack.value.(spec := x.spec, finalizers := x.finalizers, version := a.w.rv + 1))
            && (!r.ok ==> r.st == x && !Clean(s, r.s))
            && (!r.ok && NoFault(s, r.s) ==> r.s.w == a.w && !Current(a.w, x))
            && (s.tape == [] ==> r.s.w == a.w)
  {
  }

  lemma RemovalWrite(pr: string, w0: World, s: Sys, st: Stack)
    requires Loose(pr, w0, s, st, st.status) && st.deleted && !Live(st.status.phase) && Retired(s.w)
    requires NsKnown(s) && UserKnown(s)
    ensures var x := st.(finalizers := RemoveString(st.finalizers, FINALIZER)); var r := UpdateStack(s, x);
            && DeletionEnds(pr, w0, s, r.s) && Retired(r.s.w)
            && (Clean(s, r.s) ==> !Held(r.s.w))
  {
    var x := st.(finalizers := RemoveString(st.finalizers, FINALIZER));
    AfterLoose(pr, w0, s, st, st.status);
    StackCall(s, x);
    var a, r := After(s), UpdateStack(s, x);
    Open(pr, w0, a, Free);
    if r.s.w != a.w {
      RemovalExec(a.w, st, Head(s));
      RemovalKeeps(pr, a.w, r.s.w, st);
      AgesTransitive(w0, a.w, r.s.w);
    }
    assert TapeIn(r.s.tape, Free);
    Close(pr, w0, r.s, Free);
  }

  lemma RemovalExec(a: World, st: Stack, t: Tick)
    requires a.stack == Some(st) && st.deleted
    ensures var x := st.(finalizers := RemoveString(st.finalizers, FINALIZER));
            FinalizerRemoved(a, Exec(a, PutStack(x), t).w, st)
  {
  }

  // ---------------------------------------------------------------- handleCleaning and handleDeletion

  ghost predicate CleaningEnds(pr: string, w0: World, a: Sys, r: Sys) {
    && DeletionEnds(pr, w0, a, r) && Retired(r.w)
    && (Clean(a, r) ==> !Held(r.w) && Gone(r.w))
  }

  lemma RemoveFinalizerEnds(pr: string, w0: World, a: Sys, u: Res)
    requires Promise(pr, w0, u.s, Free) && Shrinks(a.w, u.s.w) && Retired(u.s.w)
    requires u.ok ==> Loose(pr, w0, u.s, u.st, u.st.status) && u.st.deleted && !Live(u.st.status.phase)
    requires u.ok ==> NsKnown(u.s) && UserKnown(u.s)
    requires u.s.panicked == a.panicked && u.s.crashed == a.crashed
    requires u.s.faults >= a.faults && u.s.conflicts >= a.conflicts && (!u.ok ==> !Clean(a, u.s))
    requires NoFault(a, u.s) ==> Gone(u.s.w)
    ensures CleaningEnds(pr, w0, a, RemoveFinalizer(u))
  {
    if u.ok {
      RemovalWrite(pr, w0, u.s, u.st);
      ShrinksTransitive(a.w, u.s.w, RemoveFinalizer(u).w);
    }
  }

  lemma CleanedWrite(pr: string, w0: World, a: Sys, s: Sys, st: Stack, base: Status)
    requires Cleans(pr, w0, a, s, st, base) && ClosingBase(st, base, s.w.now) && NsKnown(s) && UserKnown(s)
    requires NoFault(a, s) ==> Gone(s.w)
    ensures CleaningEnds(pr, w0, a,
              RemoveFinalizer(UpdateStatus(s, WithPhase(st, Cleaned, Text("All resources have been cleaned up")), Plain)))
  {
    var x := WithPhase(st, Cleaned, Text("All resources have been cleaned up"));
    PhaseCloses(st, base, Cleaned, "All resources have been cleaned up", s.w.now);
    ClosingWrite(pr, w0, s, st, x, base);
    RemoveFinalizerEnds(pr, w0, a, UpdateStatus(s, x, Plain));
  }

  lemma FinishCleans(pr: string, w0: World, a: Sys, c: Infra, st: Stack, base: Status)
    requires Cleans(pr, w0, a, c.s, st, base) && ClosingBase(st, base, c.s.w.now)
    requires c.failed.None? ==> NsKnown(c.s) && UserKnown(c.s)
    requires NoFault(a, c.s) ==> c.failed.None? && Gone(c.s.w)
    ensures CleaningEnds(pr, w0, a, FinishCleaning(c, st))
  {
    if c.failed.Some? {
      RecordErrorCloses(pr, w0, a, c.s, st, base, c.failed.value);
    } else {
      CleanedWrite(pr, w0, a, c.s, st, base);
    }
  }

  /** A cleanup pass without a failed call removes the finalizer; any other keeps the invariant. */
  lemma CleaningKeeps(pr: string, w0: World, s: Sys, st: Stack)
    requires Loose(pr, w0, s, st, st.status) && Retired(s.w) && ClosingBase(st, st.status, s.w.now)
    ensures CleaningEnds(pr, w0, s, HandleCleaning(pr, s, st))
  {
    var base := st.status;
    BackupCleans(pr, w0, s, st, base);
    var b := Backup(pr, s, st);
    PassCleans(pr, w0, b, st, base);
    var c := CleanupPass(pr, b);
    CleansTransitive(pr, w0, s, b, c.s, st, base);
    SoundLater(base, s.w.now, c.s.w.now);
    FinishCleans(pr, w0, s, c, st, base);
  }

  /** One pass of `handleDeletion` on a fresh copy: the first writes the phase Cleaning, the next removes the
      finalizer, unless a call fails. */
  ghost predicate DeletionPass(pr: string, w0: World, s: Sys, r: Sys, st: Stack) {
    && DeletionEnds(pr, w0, s, r) && HeldDeleted(r.w)
    && (Clean(s, r) && st.status.phase == Cleaning ==> !Held(r.w) && Gone(r.w))
    && (Clean(s, r) && st.status.phase != Cleaning ==> r.w.stack.Some? && r.w.stack.value.status.phase == Cleaning)
  }

  lemma DeletionKeeps(pr: string, w0: World, s: Sys, st: Stack)
    requires Promise(pr, w0, s, Free) && s.w.stack == Some(st) && st.deleted
    ensures DeletionPass(pr, w0, s, HandleDeletion(pr, s, st), st)
  {
    Open(pr, w0, s, Free);
    InvFacts(pr, s.w);
    assert ClosingBase(st, st.status, s.w.now);
    if st.status.phase == Cleaning {
      CleaningKeeps(pr, w0, s, st);
    } else {
      PhaseCloses(st, st.status, Cleaning, "Cleaning up PR stack resources", s.w.now);
      ClosingWrite(pr, w0, s, st, WithPhase(st, Cleaning, Text("Cleaning up PR stack resources")), st.status);
    }
  }
}
