/** Steps the handlers share: what single calls change, recorded errors, upserts. */
module Steps {
  import opened Types
  import opened Api
  import opened Names
  import opened Conditions
  import opened Handlers
  import opened Invariants

  // ---------------------------------------------------------------- what calls change

  predicate TouchesNs(op: Op) {
    op.CreateNs? || op.DeleteNs? || op.CreateObj? || op.UpdateObj? || op.DeleteObj?
  }

  predicate TouchesUser(op: Op) {
    op.DropUser? || op.CreateUser?
  }

  predicate TouchesDbs(op: Op) {
    op.MakeDb? || op.DropDb?
  }

  predicate SidesBy(op: Op, w: World, v: World) {
    && (!TouchesNs(op) ==> v.ns == w.ns)
    && (!TouchesUser(op) ==> v.user == w.user)
    && (!TouchesDbs(op) ==> v.dbs == w.dbs)
  }

  lemma ExecSides(w: World, op: Op, t: Tick)
    ensures SidesBy(op, w, Exec(w, op, t).w)
  {
  }

  lemma SwallowSides(v: World, op: Op)
    ensures Swallow(v, op).ns == v.ns && Swallow(v, op).user == v.user && Swallow(v, op).dbs == v.dbs
  {
  }

  lemma CallSides(pr: string, s: Sys, op: Op)
    requires Inv(pr, s.w)
    ensures SidesBy(op, s.w, Call(s, op).s.w)
  {
    AfterKeeps(pr, s, Free);
    ExecSides(After(s).w, op, Head(s));
    var v := if Head(s).outcome.Fail? then After(s).w else Exec(After(s).w, op, Head(s)).w;
    SwallowSides(v, op);
    CallWorld(s, op);
  }

  /** A reply other than a failure comes from a call that was executed. */
  lemma Executed(s: Sys, op: Op)
    ensures var e := Exec(After(s).w, op, Head(s));
            (!Call(s, op).reply.Failure? || NoFault(s, Call(s, op).s)) ==>
              Call(s, op).s.w == e.w && Call(s, op).reply == e.reply
    ensures NoFault(s, Call(s, op).s) && !WritesStack(op) ==> !Broken(op, Call(s, op).reply)
  {
  }

  /** Writing the status leaves the namespace alone. */
  lemma StatusNs(pr: string, s: Sys, x: Stack, note: Note)
    requires Inv(pr, s.w)
    ensures UpdateStatus(s, x, note).s.w.ns == s.w.ns
  {
    AfterKeeps(pr, s, Free);
  }

  // ---------------------------------------------------------------- copies derived from the server's status

  /** The parts of a status that do not depend on the phase. */
  predicate Sound(status: Status, now: int) {
    Distinct(status.conditions) && TimesFit(status, now)
  }

  /** The copy's status is the server's, changed in phase, message, conditions, services or connection blocks. */
  predicate Derived(w: World, st: Stack) {
    w.stack.Some? &&
    var server := w.stack.value.status;
    && Sound(st.status, w.now)
    && StatusGrows(server, st.status)
    && st.status.lastActiveAt == server.lastActiveAt && st.status.lastDeployedAt == server.lastDeployedAt
  }

  predicate Synced(s: Sys, st: Stack) {
    && s.w.stack.Some? && st.status == Server(s)
    && (st.status.phase == Cleaning || st.status.phase == Cleaned ==> st.deleted)
  }

  lemma DerivedLater(a: World, b: World, st: Stack)
    requires Derived(a, st) && b.stack.Some?
    requires b.stack.value.status == a.stack.value.status && a.now <= b.now
    ensures Derived(b, st)
  {
  }

  lemma GoodStatus(pr: string, w0: World, s: Sys, st: Stack, mode: Mode)
    requires Good(pr, w0, s, st, mode)
    ensures StatusFits(Server(s), s.w.stack.value.deleted, s.w.now)
    ensures Live(Server(s).phase) ==> CredentialsAgree(pr, Server(s), s.w)
    ensures Synced(s, st) ==> Derived(s.w, st)
  {
    Open(pr, w0, s, mode);
    InvFacts(pr, s.w);
  }

  lemma ConditionSet(st: Stack, kind: string, status: bool, reason: string, message: Message, now: int, other: string)
    requires Distinct(st.status.conditions) && TimedBy(st.status.conditions, now)
    ensures var cs := WithCondition(st, kind, status, reason, message, now).status.conditions;
            && Distinct(cs) && TimedBy(cs, now) && Is(cs, kind, status)
            && (other != kind ==> Lookup(cs, other) == Lookup(st.status.conditions, other))
  {
    var c := Condition(kind, status, reason, message, now);
    SetCondIsMapUpdate(st.status.conditions, c, now, kind);
    SetCondIsMapUpdate(st.status.conditions, c, now, other);
    SetCondTimes(st.status.conditions, c, now);
  }

  /** Setting Ready and then Degraded leaves both as set. */
  lemma PairSet(st: Stack, ready: bool, r1: string, m1: Message, degraded: bool, r2: string, m2: Message, now: int)
    requires Sound(st.status, now)
    ensures var x := WithCondition(WithCondition(st, READY, ready, r1, m1, now), DEGRADED, degraded, r2, m2, now);
            Sound(x.status, now) && Is(x.status.conditions, READY, ready) && Is(x.status.conditions, DEGRADED, degraded)
  {
    ConditionSet(st, READY, ready, r1, m1, now, DEGRADED);
    ConditionSet(WithCondition(st, READY, ready, r1, m1, now), DEGRADED, degraded, r2, m2, now, READY);
  }

  lemma ProgressSet(st: Stack, reason: string, message: string, now: int)
    requires Sound(st.status, now)
    ensures var x := WithProgress(st, reason, message, now);
            && Sound(x.status, now)
            && Lookup(x.status.conditions, READY) == Lookup(st.status.conditions, READY)
            && Lookup(x.status.conditions, DEGRADED) == Lookup(st.status.conditions, DEGRADED)
            && x == st.(status := st.status.(conditions := x.status.conditions))
  {
    ConditionSet(st, PROGRESSING, true, reason, Text(message), now, READY);
    ConditionSet(st, PROGRESSING, true, reason, Text(message), now, DEGRADED);
  }

  // ---------------------------------------------------------------- ends of a Reconcile

  /** What is promised wherever a `Reconcile` may stop while the finalizer is in place. */
  ghost predicate Final(pr: string, w0: World, s: Sys, mode: Mode) {
    Promise(pr, w0, s, mode) && Held(s.w)
  }

  lemma ErrorStatus(w: World, st: Stack, what: string)
    requires Derived(w, st)
    ensures var x := WithError(st, what, w.now);
            && Derived(w, x) && ConditionsFit(x.status) && x.status.phase == Failed
            && x == st.(status := x.status)
  {
    var y := WithPhase(st, Failed, Text(what));
    PairSet(y, false, "Error", Text(what), true, "ReconciliationFailed", Text(what), w.now);
  }

  /** Recording an error either persists the phase Failed or leaves the status as it was. */
  lemma ErrorKeeps(pr: string, w0: World, s: Sys, st: Stack, what: string, mode: Mode)
    requires Good(pr, w0, s, st, mode) && Derived(s.w, st)
    ensures var r := RecordError(s, st, what);
            && Final(pr, w0, r, mode)
            && (Server(r) == Server(s) || Server(r).phase == Failed)
            && (Clean(s, r) ==> Server(r).phase == Failed)
            && (Stale(s.w, st) ==> Server(r) == Server(s))
            && r.w.ns == s.w.ns
            && r.panicked == s.panicked && r.crashed == s.crashed
  {
    ErrorStatus(s.w, st, what);
    StatusWrite(pr, w0, s, WithError(st, what, s.w.now), Plain, mode);
  }

  // ---------------------------------------------------------------- upserts

  lemma UpsertGood(pr: string, w0: World, s: Sys, m: Manifest, st: Stack, mode: Mode)
    requires Good(pr, w0, s, st, mode) && ToldBy(pr, m)
    requires Live(Server(s).phase) ==> Harmless(pr, CreateObj(m), Server(s))
    ensures var r := Upsert(s, m);
            && Good(pr, w0, r.s, st, mode) && Server(r.s) == Server(s) && s.w.now <= r.s.w.now
            && r.s.w.user == s.w.user && r.s.w.dbs == s.w.dbs
            && r.s.w.meter.renewals == s.w.meter.renewals
            && (Live(Server(s).phase) ==> KeepsConfig(pr, Server(s), s.w, r.s.w))
  {
    var c := Call(s, CreateObj(m));
    SideCall(pr, w0, s, CreateObj(m), st, mode);
    Open(pr, w0, s, mode);
    CallSides(pr, s, CreateObj(m));
    if c.reply.Exists? {
      SideCall(pr, w0, c.s, UpdateObj(m), st, mode);
      Open(pr, w0, c.s, mode);
      CallSides(pr, c.s, UpdateObj(m));
    }
  }

  predicate PutOrSame(a: Option<Namespace>, b: Option<Namespace>, m: Manifest) {
    if a.None? then b.None? else b == a || b == Some(Put(a.value, m))
  }

  lemma CreateEffect(pr: string, s: Sys, m: Manifest)
    requires Inv(pr, s.w)
    ensures var c := Call(s, CreateObj(m));
            && PutOrSame(s.w.ns, c.s.w.ns, m)
            && (c.reply.Done? ==> s.w.ns.Some? && c.s.w.ns == Some(Put(s.w.ns.value, m)))
            && (c.reply.Exists? ==> c.s.w.ns == s.w.ns && s.w.ns.Some? && Has(s.w.ns.value, m.Ref()))
            && (s.w.ns.Some? && NoFault(s, c.s) ==> c.reply.Done? || c.reply.Exists?)
  {
    AfterKeeps(pr, s, Free);
    CallWorld(s, CreateObj(m));
    Executed(s, CreateObj(m));
  }

  lemma UpdateEffect(pr: string, s: Sys, m: Manifest)
    requires Inv(pr, s.w)
    ensures var u := Call(s, UpdateObj(m));
            && PutOrSame(s.w.ns, u.s.w.ns, m)
            && (u.reply.Done? ==> s.w.ns.Some? && u.s.w.ns == Some(Put(s.w.ns.value, m)))
            && (s.w.ns.Some? && Has(s.w.ns.value, m.Ref()) && NoFault(s, u.s) ==> u.reply.Done?)
  {
    AfterKeeps(pr, s, Free);
    CallWorld(s, UpdateObj(m));
    Executed(s, UpdateObj(m));
  }

  /** The effect of an upsert on the namespace. */
  lemma UpsertEffect(pr: string, w0: World, s: Sys, m: Manifest, st: Stack, mode: Mode)
    requires Good(pr, w0, s, st, mode) && ToldBy(pr, m)
    requires Live(Server(s).phase) ==> Harmless(pr, CreateObj(m), Server(s))
    ensures var r := Upsert(s, m);
            && PutOrSame(s.w.ns, r.s.w.ns, m)
            && (r.ok ==> s.w.ns.Some? && r.s.w.ns == Some(Put(s.w.ns.value, m)))
            && (s.w.ns.Some? && NoFault(s, r.s) ==> r.ok)
  {
    Open(pr, w0, s, mode);
    CreateEffect(pr, s, m);
    var c := Call(s, CreateObj(m));
    if c.reply.Exists? {
      SideCall(pr, w0, s, CreateObj(m), st, mode);
      Open(pr, w0, c.s, mode);
      UpdateEffect(pr, c.s, m);
    }
  }

  predicate HarmlessAll(pr: string, ms: seq<Manifest>, status: Status) {
    forall i :: 0 <= i < |ms| ==> Harmless(pr, CreateObj(ms[i]), status)
  }

  predicate ToldByAll(pr: string, ms: seq<Manifest>) {
    forall i :: 0 <= i < |ms| ==> ToldBy(pr, ms[i])
  }

  lemma {:induction false} UpsertAllGood(pr: string, w0: World, s: Sys, ms: seq<Manifest>, st: Stack, mode: Mode)
    requires Good(pr, w0, s, st, mode) && ToldByAll(pr, ms)
    requires Live(Server(s).phase) ==> HarmlessAll(pr, ms, Server(s))
    ensures var r := UpsertAll(s, ms);
            && Good(pr, w0, r.s, st, mode) && Server(r.s) == Server(s) && s.w.now <= r.s.w.now
            && (s.w.ns.Some? ==> r.s.w.ns.Some?)
            && (s.w.ns.Some? && NoFault(s, r.s) ==> r.ok)
            && (Live(Server(s).phase) ==> KeepsConfig(pr, Server(s), s.w, r.s.w))
    decreases |ms|
  {
    if ms != [] {
      UpsertGood(pr, w0, s, ms[0], st, mode);
      UpsertEffect(pr, w0, s, ms[0], st, mode);
      if Upsert(s, ms[0]).ok { UpsertAllGood(pr, w0, Upsert(s, ms[0]).s, ms[1..], st, mode); }
    }
  }
}
