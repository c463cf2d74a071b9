/** Why every pass must read the latest version of the PRStack: a replay of `handleProvisioning` on an old copy replaces
    the Mongo password and then loses the race for the status. */
module Staleness {
  import opened Types
  import opened Api
  import opened Names
  import opened Conditions
  import opened Handlers
  import opened Invariants

  /** No user acts and no call fails. */
  predicate Smooth(tape: seq<Tick>) {
    forall i :: 0 <= i < |tape| ==> tape[i].edits == [] && tape[i].outcome.Ok?
  }

  /** `b` is `a` one call later, in which only time has passed. */
  predicate Ticked(a: Sys, b: Sys) {
    && a.tape != [] && b == a.(w := a.w.(now := b.w.now), tape := a.tape[1..], log := b.log)
  }

  lemma SmoothAfter(s: Sys)
    requires s.tape != [] && Smooth(s.tape)
    ensures Ticked(s, After(s)) && Smooth(After(s).tape)
  {
  }

  /** From `a` to `b` after `n` calls without a failure, the PRStack and the namespace are as they were. */
  predicate Smoothly(a: Sys, b: Sys, n: nat) {
    && n <= |a.tape| && b.tape == a.tape[n..] && Smooth(b.tape)
    && b.w.stack == a.w.stack && b.w.ns == a.w.ns && b.faults == a.faults
  }

  lemma SmoothlyTransitive(a: Sys, b: Sys, c: Sys, m: nat, n: nat)
    requires Smoothly(a, b, m) && Smoothly(b, c, n)
    ensures Smoothly(a, c, m + n)
  {
  }

  lemma SmoothCall(s: Sys, op: Op)
    requires s.tape != [] && Smooth(s.tape)
    ensures var c := Call(s, op); var e := Exec(s.w.(now := After(s).w.now), op, s.tape[0]);
            && c.s.w == e.w && c.reply == e.reply && c.s.tape == s.tape[1..] && Smooth(c.s.tape)
            && c.s.faults == s.faults + (if Broken(op, e.reply) && !WritesStack(op) then 1 else 0)
  {
    SmoothAfter(s);
  }

  lemma {:induction false} SmoothDbs(s: Sys, names: seq<string>)
    requires Smooth(s.tape) && |s.tape| >= |names|
    ensures var r := MakeDbs(s, names); r.ok && Smoothly(s, r.s, |names|) && r.s.w.user == s.w.user
    decreases |names|
  {
    if names == [] {
      assert s.tape[0..] == s.tape;
    } else {
      SmoothCall(s, MakeDb(names[0]));
      SmoothDbs(Call(s, MakeDb(names[0])).s, names[1..]);
    }
  }

  lemma SmoothSwap(pr: string, s: Sys, user: MongoUser)
    requires Smooth(s.tape) && |s.tape| >= 2
    ensures var u := Call(Call(s, DropUser(false)).s, CreateUser(user));
            u.reply.Done? && u.s.w.user == Some(user) && Smoothly(s, u.s, 2)
  {
    SmoothCall(s, DropUser(false));
    SmoothCall(Call(s, DropUser(false)).s, CreateUser(user));
  }

  /** The user is dropped and made anew with the given password. */
  lemma SmoothUser(pr: string, s: Sys, password: string)
    requires Smooth(s.tape) && |s.tape| >= |DEFAULT_SERVICES| + 2
    ensures var r := ReplaceUser(pr, s, password);
            r.ok && Smoothly(s, r.s, |DEFAULT_SERVICES| + 2) && r.s.w.user == Some(MongoUser(password, Granted(pr)))
  {
    var user := MongoUser(password, Granted(pr));
    SmoothSwap(pr, s, user);
    var u := Call(Call(s, DropUser(false)).s, CreateUser(user)).s;
    SmoothDbs(u, Granted(pr));
    SmoothlyTransitive(s, u, MakeDbs(u, Granted(pr)).s, 2, |DEFAULT_SERVICES|);
  }

  lemma SmoothDraw(s: Sys)
    requires Smooth(s.tape) && |s.tape| >= 2
    ensures var d := DrawPassword(s); d.reply == Password(s.tape[1].draw) && Smoothly(s, d.s, 2) && d.s.w.user == s.w.user
  {
    SmoothCall(s, Ping);
    SmoothCall(Call(s, Ping).s, Draw);
  }

  lemma SmoothNamespace(s: Sys)
    requires Smooth(s.tape) && |s.tape| >= 1 && s.w.ns.Some?
    ensures var n := EnsureNamespace(s); n.ok && Smoothly(s, n.s, 1) && n.s.w.user == s.w.user
  {
    SmoothCall(s, GetNs(false));
  }

  /** A status write of an old copy changes nothing. */
  lemma SmoothLoss(s: Sys, x: Stack, note: Note)
    requires Smooth(s.tape) && |s.tape| >= 1 && Stale(s.w, x)
    ensures var u := UpdateStatus(s, x, note);
            !u.ok && u.st == x && Smoothly(s, u.s, 1) && u.s.w.user == s.w.user && u.s.conflicts == s.conflicts + 1
  {
    SmoothCall(s, PutStatus(x, note));
  }

  /** Mongo provisioning on an old copy: the new user stays, the new credentials are lost. */
  lemma StaleMongo(pr: string, s: Sys, st: Stack)
    requires Smooth(s.tape) && |s.tape| >= |DEFAULT_SERVICES| + 5 && Stale(s.w, st)
    ensures var m := ProvisionMongo(pr, s, st);
            && !m.ok && Stale(m.s.w, m.st) && Smoothly(s, m.s, |DEFAULT_SERVICES| + 5)
            && m.s.w.user == Some(MongoUser(s.tape[1].draw, Granted(pr)))
  {
    SmoothDraw(s);
    var d := DrawPassword(s);
    SmoothUser(pr, d.s, d.reply.password);
    var made := ReplaceUser(pr, d.s, d.reply.password);
    SmoothLoss(made.s, st.(status := st.status.(mongo := Some(CredentialsFor(pr, d.reply.password)))), Plain);
  }

  const REPLAY := |DEFAULT_SERVICES| + 7

  /** For every live world with agreeing credentials and every older copy: without a single failed call, the replay
      leaves the status as it is and the Mongo user with the newly drawn password. */
  lemma StaleReplay(pr: string, w: World, tape: seq<Tick>, st: Stack)
    requires w.stack.Some? && Live(w.stack.value.status.phase) && CredentialsAgree(pr, w.stack.value.status, w)
    requires Stale(w, st) && Smooth(tape) && |tape| >= REPLAY
    requires tape[2].draw != w.stack.value.status.mongo.value.password
    ensures var r := HandleProvisioning(pr, Start(pr, w, tape), st);
            && r.faults == 0 && r.w.stack == w.stack
            && r.w.user == Some(MongoUser(tape[2].draw, Granted(pr)))
            && !CredentialsAgree(pr, r.w.stack.value.status, r.w)
  {
    var s := Start(pr, w, tape);
    var x := WithProgress(st, "Provisioning", "Provisioning MongoDB, NATS, and Redis", s.w.now);
    SmoothNamespace(s);
    var n := EnsureNamespace(s);
    StaleMongo(pr, n.s, x);
    var m := ProvisionMongo(pr, n.s, x);
    SmoothLoss(m.s, WithError(m.st, "MongoDB provisioning failed", m.s.w.now), Plain);
  }
}
