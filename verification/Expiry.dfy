/** Expiry: exactly when `Reconcile` deactivates a stack, exactly when it renews its activity, and how often. */
module Expiry {
  import opened Types
  import opened Api
  import opened Names
  import opened Conditions
  import opened Handlers
  import opened Invariants
  import opened Steps
  import opened Activity
  import opened Deletion
  import opened Reconciling
  import opened Safety

  // ---------------------------------------------------------------- the two checks of one pass

  /** The one-hour boundary falls between the two clock readings, and the write of the spec lands. */
  predicate Fires(s: Sys, st: Stack) {
    var first := ReadClock(s);
    var second := ReadClock(first);
    && st.spec.active && st.status.phase != Inactive
    && !IsExpired(st, first.w.now) && IsExpired(st, second.w.now)
    && Lands(second, st)
  }

  /** The first reading already finds the stack expired, and the write of the status lands. */
  predicate Renews(s: Sys, st: Stack) {
    && st.spec.active && st.status.phase != Inactive && IsExpired(st, ReadClock(s).w.now)
    && Lands(ReadClock(s), st)
  }

  predicate SameHistory(a: World, b: World) {
    b.meter.expiries == a.meter.expiries && b.meter.renewals == a.meter.renewals
  }

  /** From `a` to `b` the history records what the two checks decide. */
  predicate Decides(a: World, b: World, s: Sys, st: Stack, now: int) {
    && b.meter.expiries == a.meter.expiries + (if Fires(s, st) then 1 else 0)
    && b.meter.renewals == a.meter.renewals + (if Renews(s, st) then [Renewal(now, ReadClock(s).w.now)] else [])
  }

  lemma PromiseHistory(pr: string, base: World, r: Sys, mode: Mode)
    requires Promise(pr, base, r, mode)
    ensures SameHistory(base, r.w)
  {
    Open(pr, base, r, mode);
  }

  /** The world after a status write that lands is the committed one; otherwise the world before it. */
  lemma LandedCall(s: Sys, x: Stack, note: Note)
    ensures var a, u := After(s).w, UpdateStatus(s, x, note).s.w;
            if Lands(s, x) then Committed(a, u, x, note) else u == a
  {
  }

  lemma RenewCall(s: Sys, x: Stack, note: Note)
    requires !note.RolledOut?
    ensures var a, u := After(s), UpdateStatus(s, x, note);
            && u.s.w.meter.expiries == a.w.meter.expiries
            && u.s.w.meter.renewals ==
               a.w.meter.renewals + (if note.Renewed? && Lands(s, x) then [Renewal(note.at, note.read)] else [])
  {
    LandedCall(s, x, note);
  }

  lemma RenewHistory(pr: string, w0: World, s: Sys, st: Stack, now: int, mode: Mode)
    requires Good(pr, w0, s, st, mode)
    ensures var u := Renew(s, st, now);
            && u.s.w.meter.expiries == s.w.meter.expiries
            && u.s.w.meter.renewals ==
               s.w.meter.renewals + (if st.status.phase != Inactive && Lands(s, st) then [Renewal(now, s.w.now)] else [])
  {
    AfterGood(pr, w0, s, st, mode);
    var note := if st.status.phase == Inactive then Plain else Renewed(now, s.w.now);
    RenewCall(s, st.(status := st.status.(lastActiveAt := Some(now))), note);
  }

  lemma ActivityHistory(cfg: Config, pr: string, w0: World, s: Sys, st: Stack, mode: Mode)
    requires Good(pr, w0, s, st, mode) && Synced(s, st) && !st.deleted && !s.panicked && !s.crashed
    ensures SameHistory(s.w, ReconcileActive(cfg, pr, s, st).w)
  {
    ActivityKeeps(cfg, pr, w0, s, st, mode);
    PromiseHistory(pr, w0, s, mode);
    PromiseHistory(pr, w0, ReconcileActive(cfg, pr, s, st), mode);
  }

  lemma RenewedHistory(cfg: Config, pr: string, w0: World, s: Sys, u: Res, st: Stack, now: int, mode: Mode)
    requires Rebased(pr, w0, s, u, st, now, mode) && !st.deleted && !u.s.panicked && !u.s.crashed
    ensures SameHistory(u.s.w, ReconcileRenewed(cfg, pr, u).w)
  {
    if u.ok { ActivityHistory(cfg, pr, u.s.w, u.s, u.st, mode); }
  }

  lemma DeactivationHistory(pr: string, w0: World, s: Sys, st: Stack, mode: Mode)
    requires Good(pr, w0, s, st, mode) && Synced(s, st) && !st.deleted && st.spec.active
    ensures var r := UpdateStack(s, Deactivated(st)).s;
            && r.w.meter.expiries == s.w.meter.expiries + (if Lands(s, st) then 1 else 0)
            && r.w.meter.renewals == s.w.meter.renewals
            && s.w.now <= r.w.now
  {
    AfterGood(pr, w0, s, st, mode);
    DeactivationCall(s, st);
  }

  lemma UnrenewedHistory(cfg: Config, pr: string, w0: World, s: Sys, st: Stack, mode: Mode)
    requires Good(pr, w0, s, st, mode) && Synced(s, st) && !st.deleted && !s.panicked && !s.crashed
    ensures var r := ReconcileUnrenewed(cfg, pr, s, st);
            && r.w.meter.expiries == s.w.meter.expiries + (if IsExpired(st, s.w.now) && st.spec.active && Lands(s, st) then 1 else 0)
            && r.w.meter.renewals == s.w.meter.renewals
  {
    if IsExpired(st, s.w.now) && st.spec.active {
      GoodStatus(pr, w0, s, st, mode);
      DeactivationHistory(pr, w0, s, st, mode);
    } else {
      ActivityHistory(cfg, pr, w0, s, st, mode);
    }
  }

  lemma RenewingDecides(cfg: Config, pr: string, w0: World, s: Sys, st: Stack, now: int, mode: Mode)
    requires Good(pr, w0, s, st, mode) && Synced(s, st) && !st.deleted && Clocked(s.w, st, now)
    requires !s.panicked && !s.crashed && Reactivates(st, ReadClock(s).w.now)
    ensures Decides(s.w, ReconcileRenewed(cfg, pr, Renew(ReadClock(s), st, now)).w, s, st, now)
  {
    var first := ReadClock(s);
    AfterGood(pr, w0, s, st, mode);
    RenewKeeps(pr, w0, first, st, now, mode);
    RenewHistory(pr, w0, first, st, now, mode);
    RenewedHistory(cfg, pr, w0, first, Renew(first, st, now), st, now, mode);
  }

  lemma UnrenewingDecides(cfg: Config, pr: string, w0: World, s: Sys, st: Stack, now: int, mode: Mode)
    requires Good(pr, w0, s, st, mode) && Synced(s, st) && !st.deleted && !s.panicked && !s.crashed
    requires !Reactivates(st, ReadClock(s).w.now)
    ensures Decides(s.w, ReconcileUnrenewed(cfg, pr, ReadClock(ReadClock(s)), st).w, s, st, now)
  {
    AfterGood(pr, w0, s, st, mode);
    AfterGood(pr, w0, ReadClock(s), st, mode);
    UnrenewedHistory(cfg, pr, w0, ReadClock(ReadClock(s)), st, mode);
  }

  /** From the point where the two checks are made. */
  lemma ExpiryDecides(cfg: Config, pr: string, w0: World, s: Sys, st: Stack, now: int, mode: Mode)
    requires Good(pr, w0, s, st, mode) && Synced(s, st) && !st.deleted && Clocked(s.w, st, now)
    requires !s.panicked && !s.crashed
    ensures Decides(s.w, ReconcileExpiry(cfg, pr, s, st, now).w, s, st, now)
  {
    if Reactivates(st, ReadClock(s).w.now) {
      RenewingDecides(cfg, pr, w0, s, st, now, mode);
    } else {
      UnrenewingDecides(cfg, pr, w0, s, st, now, mode);
    }
  }

  // ---------------------------------------------------------------- whole passes

  predicate Accounted(a: World, b: World, arrival: Arrival) {
    match arrival
    case Nowhere => SameHistory(a, b)
    case Arrival(s, st, now) => Decides(a, b, s, st, now)
  }

  lemma HeldHistory(cfg: Config, pr: string, w0: World, s: Sys, f: Res, st: Stack, mode: Mode)
    requires Secured(pr, w0, s, f, st, mode) && !f.s.panicked && !f.s.crashed
    ensures Accounted(w0, ReconcileHeld(cfg, pr, f).w, ArriveHeld(f))
  {
    PromiseHistory(pr, w0, f.s, mode);
    if f.ok {
      var clock := ReadClock(f.s);
      AfterGood(pr, w0, f.s, f.st, mode);
      StampKeeps(pr, w0, clock, f.st, mode);
      var c := StampCreation(clock, f.st, clock.w.now);
      PromiseHistory(pr, w0, c.s, mode);
      if c.ok { ExpiryDecides(cfg, pr, w0, c.s, c.st, clock.w.now, mode); }
    }
  }

  lemma FromHistory(cfg: Config, pr: string, w0: World, s: Sys, st: Stack)
    requires Promise(pr, w0, s, Free) && s.w.stack == Some(st) && !s.panicked && !s.crashed
    ensures Accounted(w0, ReconcileFrom(cfg, pr, s, st).w, ArriveFrom(s, st))
  {
    if st.deleted {
      DeletionKeeps(pr, w0, s, st);
      PromiseHistory(pr, w0, HandleDeletion(pr, s, st), Free);
    } else {
      AddFinalizerKeeps(pr, w0, s, st, Free);
      HeldHistory(cfg, pr, w0, s, AddFinalizer(s, st), st, Free);
    }
  }

  /** Exactly when a pass deactivates its stack, and exactly when it records an expiry renewal. */
  lemma PassHistory(cfg: Config, pr: string, w: World, tape: seq<Tick>)
    requires Inv(pr, w)
    ensures Accounted(w, Reconcile(cfg, pr, Start(pr, w, tape)).w, Arrive(Start(pr, w, tape)))
  {
    var s := Start(pr, w, tape);
    StartPromise(pr, w, tape, Free);
    AfterPromise(pr, w, s, Free);
    GetCall(s);
    var g := Call(s, GetStack);
    PromiseMoved(pr, w, After(s), g.s, Free);
    PromiseHistory(pr, w, g.s, Free);
    if g.reply.Found? { FromHistory(cfg, pr, w, g.s, g.reply.st); }
  }

  // ---------------------------------------------------------------- one clock value per pass

  /** The three clock readings of the pass give one value. */
  predicate OneClock(arrival: Arrival) {
    arrival.Arrival? ==>
      ReadClock(arrival.s).w.now == ReadClock(ReadClock(arrival.s)).w.now == arrival.now
  }

  predicate OneClockRun(cfg: Config, pr: string, w: World, tapes: seq<seq<Tick>>)
    decreases |tapes|
  {
    tapes != [] ==>
      OneClock(Arrive(Start(pr, w, tapes[0]))) && OneClockRun(cfg, pr, After1(cfg, pr, w, tapes[0]), tapes[1..])
  }

  /** The renewals added to `before` were stored with the time at which the stack was found expired. */
  predicate Prompt(before: seq<Renewal>, after: seq<Renewal>) {
    && before <= after
    && forall i :: |before| <= i < |after| ==> after[i].at == after[i].read
  }

  lemma OneClockPass(a: World, b: World, arrival: Arrival)
    requires Accounted(a, b, arrival) && OneClock(arrival)
    ensures b.meter.expiries == a.meter.expiries && Prompt(a.meter.renewals, b.meter.renewals)
  {
  }

  lemma PromptTransitive(a: seq<Renewal>, b: seq<Renewal>, c: seq<Renewal>)
    requires Prompt(a, b) && Prompt(b, c)
    ensures Prompt(a, c)
  {
  }

  /** With one clock value per pass no stack is ever deactivated: the expiry branch is always pre-empted by the
      renewal branch before it. */
  lemma {:induction false} NeverDeactivated(cfg: Config, pr: string, w: World, tapes: seq<seq<Tick>>)
    requires Inv(pr, w) && OneClockRun(cfg, pr, w, tapes)
    ensures Run(cfg, pr, w, tapes).meter.expiries == w.meter.expiries
    ensures Prompt(w.meter.renewals, Run(cfg, pr, w, tapes).meter.renewals)
    decreases |tapes|
  {
    if tapes != [] {
      var v := After1(cfg, pr, w, tapes[0]);
      PassHistory(cfg, pr, w, tapes[0]);
      OneClockPass(w, v, Arrive(Start(pr, w, tapes[0])));
      StepKeeps(cfg, pr, w, tapes[0]);
      NeverDeactivated(cfg, pr, v, tapes[1..]);
      PromptTransitive(w.meter.renewals, v.meter.renewals, Run(cfg, pr, w, tapes).meter.renewals);
    }
  }

  // ---------------------------------------------------------------- the rate of renewals

  /** Readings two renewals apart are more than a period apart. */
  lemma {:induction false} Spread(renewals: seq<Renewal>, i: nat, m: nat)
    requires Spaced(renewals) && m > 0 && i + 2 * m < |renewals|
    ensures renewals[i + 2 * m].read - renewals[i].read > m * EXPIRATION
    decreases m
  {
    var j := i + 2 * m;
    assert renewals[j - 1].at + EXPIRATION < renewals[j].read && renewals[j - 2].read <= renewals[j - 1].at;
    if m > 1 { Spread(renewals, i, m - 1); }
  }

  lemma {:induction false} PromptSpread(renewals: seq<Renewal>, i: nat, m: nat)
    requires Spaced(renewals) && m > 0 && i + m < |renewals|
    requires forall j :: i <= j < |renewals| ==> renewals[j].at == renewals[j].read
    ensures renewals[i + m].read - renewals[i].read > m * EXPIRATION
    decreases m
  {
    var j := i + m;
    assert renewals[j - 1].at + EXPIRATION < renewals[j].read;
    if m > 1 { PromptSpread(renewals, i, m - 1); }
  }

  /** In a window of length `t` a stack is renewed at most 2 * (t / 1h) + 2 times. */
  lemma RenewalRate(cfg: Config, pr: string, tapes: seq<seq<Tick>>, i: nat, j: nat, t: nat)
    requires var renewals := Reached(cfg, pr, tapes).meter.renewals;
             i < j <= |renewals| && renewals[j - 1].read - renewals[i].read <= t
    ensures j - i <= 2 * (t / EXPIRATION) + 2
  {
    Reachable(cfg, pr, tapes);
    var w := Reached(cfg, pr, tapes);
    InvFacts(pr, w);
    var m := (j - 1 - i) / 2;
    if m > 0 { SpreadBound(w.meter.renewals, i, j, m, t); }
  }

  lemma SpreadBound(renewals: seq<Renewal>, i: nat, j: nat, m: nat, t: nat)
    requires Spaced(renewals) && i < j <= |renewals| && m == (j - 1 - i) / 2 && m > 0
    requires renewals[j - 1].read - renewals[i].read <= t
    ensures m <= t / EXPIRATION
  {
    Spread(renewals, i, m);
    if i + 2 * m < j - 1 { assert renewals[j - 2].read <= renewals[j - 1].at <= renewals[j - 1].read; }
    assert m * EXPIRATION < t;
  }

  /** With one clock value per pass the bound is t / 1h + 1. */
  lemma PromptRenewalRate(cfg: Config, pr: string, tapes: seq<seq<Tick>>, i: nat, j: nat, t: nat)
    requires OneClockRun(cfg, pr, NEW_WORLD, tapes)
    requires var renewals := Reached(cfg, pr, tapes).meter.renewals;
             i < j <= |renewals| && renewals[j - 1].read - renewals[i].read <= t
    ensures j - i <= t / EXPIRATION + 1
  {
    NewWorldInv(pr);
    Reachable(cfg, pr, tapes);
    InvFacts(pr, Reached(cfg, pr, tapes));
    NeverDeactivated(cfg, pr, NEW_WORLD, tapes);
    var renewals := Reached(cfg, pr, tapes).meter.renewals;
    if j - 1 > i { PromptBound(renewals, i, j, t); }
  }

  lemma PromptBound(renewals: seq<Renewal>, i: nat, j: nat, t: nat)
    requires Spaced(renewals) && i + 1 < j <= |renewals| && renewals[j - 1].read - renewals[i].read <= t
    requires forall k :: i <= k < |renewals| ==> renewals[k].at == renewals[k].read
    ensures j - i <= t / EXPIRATION + 1
  {
    PromptSpread(renewals, i, j - 1 - i);
    assert (j - 1 - i) * EXPIRATION < t;
  }
}
