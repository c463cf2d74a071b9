/** `Reconcile` as a whole keeps the invariant, and moves the phase only along the arrows of the state machine. */
module Reconciling {
  import opened Types
  import opened Api
  import opened Names
  import opened Conditions
  import opened Handlers
  import opened Invariants
  import opened Steps
  import opened Activity
  import P = Provisioning
  import D = Deploying
  import opened Deletion

  // ---------------------------------------------------------------- phases of an active stack

  /** How far an active stack is from settling. */
  function Rank(p: Phase): nat {
    match p
    case Inactive => 3
    case Initialization => 3
    case Provisioning => 2
    case Deploying => 1
    case _ => 0
  }

  /** The arrows an active stack can take in one `Reconcile`. */
  predicate Moves(a: Phase, b: Phase) {
    || b == a
    || (a == Inactive && b in {Initialization, Phase.Provisioning})
    || (a == Initialization && b == Phase.Provisioning)
    || (a == Phase.Provisioning && b in {Phase.Deploying, Failed})
    || (a == Phase.Deploying && b in {Running, Degraded, Failed})
  }

  lemma MovesDown(a: Phase, b: Phase)
    requires Moves(a, b)
    ensures Rank(b) <= Rank(a) && (Rank(a) == 0 ==> b == a)
  {
  }

  predicate Advances(a: Phase, b: Phase) {
    Rank(a) == 0 || Rank(b) < Rank(a)
  }

  /** What a pass of an active stack does to its phase: it follows an arrow; without a failed call it gets nearer to
      settling, except where the deployment crashes over unparsable limits; and, other than by deploying a spec with
      unparsable quantities, lost version races alone never lead to Failed or Degraded. */
  predicate Progresses(s: Sys, r: Sys, before: Phase, spec: Spec) {
    var after := Server(r).phase;
    && Moves(before, after)
    && (Clean(s, r) ==> (Advances(before, after) <==> !(before == Phase.Deploying && D.Stalls(spec))))
    && (Clean(s, r) && before == Phase.Deploying ==> (r.crashed <==> D.Stalls(spec)))
    && (spec.limitsParse ==> !r.crashed)
    && (NoFault(s, r) && (ValidSpec(spec) || before != Phase.Deploying) ==>
          after == before || after !in {Failed, Degraded})
  }

  predicate ActivePass(s: Sys, r: Sys, st: Stack) {
    Progresses(s, r, st.status.phase, st.spec)
  }

  /** A pass that found the stack expired: its phase stays. */
  predicate ExpiredPass(a: World, r: Sys, st: Stack) {
    Deactivates(a, r.w) && Server(r).phase == st.status.phase && !r.crashed
  }

  predicate InactivePass(s: Sys, r: Sys, st: Stack) {
    && (Server(r).phase == st.status.phase || Server(r).phase in {Inactive, Failed})
    && (Clean(s, r) ==> Server(r).phase == Inactive)
    && !r.crashed
  }

  // ---------------------------------------------------------------- reconcileByPhase

  ghost predicate PhaseEnds(pr: string, w0: World, s: Sys, r: Sys, st: Stack, mode: Mode) {
    Final(pr, w0, r, mode) && !r.panicked && ActivePass(s, r, st)
  }

  lemma ReinitializedGood(pr: string, w0: World, s: Sys, st: Stack, mode: Mode)
    requires Good(pr, w0, s, st, mode) && Synced(s, st) && st.status.phase == Inactive
    ensures var u := UpdateStatus(s, st.(status := st.status.(phase := Initialization)), Plain);
            && Final(pr, w0, u.s, mode) && Server(u.s).phase in {Inactive, Initialization}
            && (u.ok ==> Good(pr, w0, u.s, u.st, mode) && Synced(u.s, u.st) && Server(u.s).phase == Initialization)
            && (!u.ok ==> !Clean(s, u.s))
  {
    GoodStatus(pr, w0, s, st, mode);
    StatusWrite(pr, w0, s, st.(status := st.status.(phase := Initialization)), Plain, mode);
  }

  lemma InactiveArm(pr: string, w0: World, s: Sys, st: Stack, mode: Mode)
    requires Good(pr, w0, s, st, mode) && Synced(s, st) && st.status.phase == Inactive
    requires !s.panicked && !s.crashed
    ensures PhaseEnds(pr, w0, s, Reinitialize(UpdateStatus(s, st.(status := st.status.(phase := Initialization)), Plain)), st, mode)
  {
    ReinitializedGood(pr, w0, s, st, mode);
    var u := UpdateStatus(s, st.(status := st.status.(phase := Initialization)), Plain);
    if u.ok { P.InitializationKeeps(pr, w0, u.s, u.st, mode); }
  }

  lemma InitializationArm(pr: string, w0: World, s: Sys, st: Stack, mode: Mode)
    requires Good(pr, w0, s, st, mode) && Synced(s, st) && st.status.phase == Initialization
    requires !s.panicked && !s.crashed
    ensures PhaseEnds(pr, w0, s, HandleInitialization(s, st), st, mode)
  {
    P.InitializationKeeps(pr, w0, s, st, mode);
  }

  lemma ProvisioningArm(pr: string, w0: World, s: Sys, st: Stack, mode: Mode)
    requires Good(pr, w0, s, st, mode) && Synced(s, st) && st.status.phase == Phase.Provisioning
    requires !s.panicked && !s.crashed
    ensures PhaseEnds(pr, w0, s, HandleProvisioning(pr, s, st), st, mode)
  {
    P.ProvisioningKeeps(pr, w0, s, st, mode);
  }

  lemma DeploymentProgresses(pr: string, w0: World, s: Sys, r: Sys, st: Stack, mode: Mode)
    requires D.DeploymentEnds(pr, w0, s, r, st, mode) && st.status.phase == Phase.Deploying
    requires r.faults >= s.faults && r.conflicts >= s.conflicts
    ensures ActivePass(s, r, st)
  {
  }

  lemma DeployingArm(cfg: Config, pr: string, w0: World, s: Sys, st: Stack, mode: Mode)
    requires Good(pr, w0, s, st, mode) && Synced(s, st) && st.status.phase == Phase.Deploying
    requires !s.panicked && !s.crashed
    ensures PhaseEnds(pr, w0, s, HandleDeployment(cfg, pr, s, st), st, mode)
  {
    D.DeploymentKeeps(cfg, pr, w0, s, st, mode);
    DeploymentProgresses(pr, w0, s, HandleDeployment(cfg, pr, s, st), st, mode);
  }

  lemma RunningArm(pr: string, w0: World, s: Sys, st: Stack, mode: Mode)
    requires Good(pr, w0, s, st, mode) && Synced(s, st) && st.status.phase in {Running, Degraded}
    requires !s.panicked && !s.crashed
    ensures PhaseEnds(pr, w0, s, HandleRunning(s, st), st, mode)
  {
    RunningKeeps(pr, w0, s, st, mode);
  }

  lemma ByPhaseKeeps(cfg: Config, pr: string, w0: World, s: Sys, st: Stack, mode: Mode)
    requires Good(pr, w0, s, st, mode) && Synced(s, st) && !st.deleted && !s.panicked && !s.crashed
    ensures PhaseEnds(pr, w0, s, ReconcileByPhase(cfg, pr, s, st), st, mode)
  {
    match st.status.phase
    case Initialization => InitializationArm(pr, w0, s, st, mode);
    case Inactive => InactiveArm(pr, w0, s, st, mode);
    case Provisioning => ProvisioningArm(pr, w0, s, st, mode);
    case Deploying => DeployingArm(cfg, pr, w0, s, st, mode);
    case Running => RunningArm(pr, w0, s, st, mode);
    case Degraded => RunningArm(pr, w0, s, st, mode);
    case Failed =>
    case Cleaning =>
    case Cleaned =>
  }

  // ---------------------------------------------------------------- active and inactive stacks

  ghost predicate ActivityEnds(pr: string, w0: World, s: Sys, r: Sys, st: Stack, mode: Mode) {
    && Final(pr, w0, r, mode) && !r.panicked
    && (if st.spec.active then ActivePass(s, r, st) else InactivePass(s, r, st))
  }

  lemma RolledOutKeeps(cfg: Config, pr: string, w0: World, s: Sys, u: Res, st: Stack, mode: Mode)
    requires RolloutEnds(pr, w0, s, u, st, mode) && st.spec.active && !st.deleted && !s.panicked && !s.crashed
    requires Moves(st.status.phase, st.status.phase)
    requires u.s.faults >= s.faults && u.s.conflicts >= s.conflicts
    ensures ActivityEnds(pr, w0, s, if u.ok then ReconcileByPhase(cfg, pr, u.s, u.st) else u.s, st, mode)
  {
    if u.ok { ByPhaseKeeps(cfg, pr, w0, u.s, u.st, mode); }
  }

  lemma ActivityKeeps(cfg: Config, pr: string, w0: World, s: Sys, st: Stack, mode: Mode)
    requires Good(pr, w0, s, st, mode) && Synced(s, st) && !st.deleted && !s.panicked && !s.crashed
    ensures ActivityEnds(pr, w0, s, ReconcileActive(cfg, pr, s, st), st, mode)
  {
    if st.spec.active {
      RolloutKeeps(pr, w0, s, st, mode);
      RolledOutKeeps(cfg, pr, w0, s, Rollout(s, st), st, mode);
    } else {
      InactiveKeeps(pr, w0, s, st, mode);
    }
  }

  // ---------------------------------------------------------------- the expiry checks

  /** The copy is current enough to decide on expiry by the clock reading `now`. */
  predicate Clocked(w: World, st: Stack, now: int) {
    && now <= w.now
    && st.status.createdAt.Some?
    && (st.status.lastActiveAt.Some? ==> st.status.lastActiveAt.value <= now)
    && (w.meter.renewals != [] ==> Last(w.meter.renewals).read <= now)
  }

  datatype KeptPart = KeptInv | KeptGrowth | KeptMode

  /** Whether a pass has used its right to deactivate the stack. */
  predicate Deactivates(a: World, b: World) {
    b.meter.expiries == a.meter.expiries + 1 && b.stack.Some? && !b.stack.value.spec.active
  }

  ghost predicate KeepsPart(p: KeptPart, pr: string, a: World, r: Sys, mode: Mode) {
    match p
    case KeptInv => Inv(pr, r.w)
    case KeptGrowth => Grows(a, r.w)
    case KeptMode => TapeIn(r.tape, mode) && (WorldIn(r.w, mode) || (mode.Steady? && mode.active && Deactivates(a, r.w)))
  }

  /** What every `Reconcile` that starts in `a` keeps; opened by `KeptFacts`, closed by `KeptFrom`. */
  ghost predicate Kept(pr: string, a: World, r: Sys, mode: Mode) {
    forall p: KeptPart :: KeepsPart(p, pr, a, r, mode)
  }

  lemma KeptFacts(pr: string, a: World, r: Sys, mode: Mode)
    requires Kept(pr, a, r, mode)
    ensures Inv(pr, r.w) && Grows(a, r.w) && TapeIn(r.tape, mode)
    ensures WorldIn(r.w, mode) || (mode.Steady? && mode.active && Deactivates(a, r.w))
  {
    assert KeepsPart(KeptInv, pr, a, r, mode) && KeepsPart(KeptGrowth, pr, a, r, mode) && KeepsPart(KeptMode, pr, a, r, mode);
  }

  lemma KeptFrom(pr: string, a: World, r: Sys, mode: Mode)
    requires Inv(pr, r.w) && Grows(a, r.w) && TapeIn(r.tape, mode)
    requires WorldIn(r.w, mode) || (mode.Steady? && mode.active && Deactivates(a, r.w))
    ensures Kept(pr, a, r, mode)
  {
  }

  lemma PromiseKept(pr: string, a: World, base: World, r: Sys, mode: Mode)
    requires Promise(pr, base, r, mode) && Grows(a, base)
    ensures Kept(pr, a, r, mode)
  {
    Open(pr, base, r, mode);
    GrowsTransitive(a, base, r.w);
    KeptFrom(pr, a, r, mode);
  }

  lemma GrowsTransitive(a: World, b: World, c: World)
    requires Grows(a, b) && Grows(b, c)
    ensures Grows(a, c)
  {
  }

  /** The copy with a new activity time. */
  function ActiveAgain(st: Stack, now: int): Stack {
    st.(status := st.status.(lastActiveAt := Some(now)))
  }

  /** A renewal starts a new history of the pass: from here on no other renewal is recorded. It changes the activity time
      and, if the write is reported as done, gives a fresh copy in which nothing else is new. */
  ghost predicate Rebased(pr: string, a: World, s: Sys, u: Res, st: Stack, now: int, mode: Mode) {
    && Promise(pr, u.s.w, u.s, mode) && Held(u.s.w) && Grows(a, u.s.w)
    && (u.ok ==>
          && Good(pr, u.s.w, u.s, u.st, mode) && Synced(u.s, u.st)
          && u.st == ActiveAgain(st, now).(version := u.st.version))
    && (Server(u.s) == st.status || Server(u.s) == ActiveAgain(st, now).status)
    && (!u.ok ==> !Clean(s, u.s))
  }

  lemma RenewWritable(pr: string, w: World, st: Stack, now: int)
    requires w.stack.Some? && st.status == w.stack.value.status && Clocked(w, st, now) && !st.deleted
    requires StatusFits(st.status, false, w.now) && Reactivates(st, w.now)
    requires Live(st.status.phase) ==> CredentialsAgree(pr, st.status, w)
    ensures Writable(pr, w, ActiveAgain(st, now),
                     if st.status.phase == Inactive then Plain else Renewed(now, w.now))
  {
    var x := st.(status := st.status.(lastActiveAt := Some(now)));
    if Live(st.status.phase) { assert CredentialsAgree(pr, x.status, w); }
  }

  lemma RebaseUnmoved(pr: string, w0: World, s: Sys, a: Sys, u: Res, st: Stack, now: int, mode: Mode)
    requires Good(pr, w0, s, st, mode) && Good(pr, w0, a, st, mode) && Server(a) == st.status
    requires u.s.w == a.w && u.s.tape == a.tape && !u.ok && !Clean(s, u.s)
    ensures Rebased(pr, w0, s, u, st, now, mode)
  {
    Open(pr, w0, s, mode);
    Open(pr, w0, a, mode);
    Close(pr, u.s.w, u.s, mode);
  }

  lemma RebaseCommitted(pr: string, w0: World, s: Sys, a: Sys, u: Res, st: Stack, now: int, note: Note, mode: Mode)
    requires Good(pr, w0, s, st, mode) && Good(pr, w0, a, st, mode) && Current(a.w, st) && !st.deleted
    requires st.status.phase != Cleaning && st.status.phase != Cleaned
    requires Writable(pr, a.w, ActiveAgain(st, now), note) && Committed(a.w, u.s.w, ActiveAgain(st, now), note)
    requires u.s.tape == a.tape
    requires u.ok ==> u.st == u.s.w.stack.value
    requires !u.ok ==> !Clean(s, u.s)
    ensures Rebased(pr, w0, s, u, st, now, mode)
  {
    Open(pr, w0, s, mode);
    Open(pr, w0, a, mode);
    InvFacts(pr, a.w);
    CommitFits(pr, a.w, u.s.w, ActiveAgain(st, now), note);
    GrowsTransitive(w0, a.w, u.s.w);
    Close(pr, u.s.w, u.s, mode);
  }

  lemma RenewKeeps(pr: string, w0: World, s: Sys, st: Stack, now: int, mode: Mode)
    requires Good(pr, w0, s, st, mode) && Synced(s, st) && Clocked(s.w, st, now) && !st.deleted
    requires Reactivates(st, s.w.now)
    ensures Rebased(pr, w0, s, Renew(s, st, now), st, now, mode)
  {
    GoodStatus(pr, w0, s, st, mode);
    var x := ActiveAgain(st, now);
    var note := if st.status.phase == Inactive then Plain else Renewed(now, s.w.now);
    RenewWritable(pr, s.w, st, now);
    AfterGood(pr, w0, s, st, mode);
    StatusCall(s, x, note);
    var a, u := After(s), UpdateStatus(s, x, note);
    WritableAfter(pr, s.w, a.w, x, note);
    if Current(a.w, x) && Committed(a.w, u.s.w, x, note) {
      RebaseCommitted(pr, w0, s, a, u, st, now, note, mode);
    } else {
      RebaseUnmoved(pr, w0, s, a, u, st, now, mode);
    }
  }

  // ---------------------------------------------------------------- deactivation on expiry

  /** `b` is `a` after the operator has set `Active` to false. */
  predicate DeactivationOf(a: World, b: World, st: Stack) {
    && a.stack == Some(st) && !st.deleted
    && b == a.(stack := Some(Deactivated(st).(version := a.rv + 1)), rv := a.rv + 1,
               meter := a.meter.(expiries := a.meter.expiries + 1))
  }

  lemma DeactivationFits(pr: string, a: World, b: World, st: Stack)
    requires Inv(pr, a) && DeactivationOf(a, b, st)
    ensures Inv(pr, b) && Grows(a, b)
  {
    InvFacts(pr, a);
    if Live(st.status.phase) { assert CredentialsAgree(pr, st.status, b); }
    assert StackFits(pr, b, b.stack.value);
    InvFrom(pr, b);
  }

  lemma DeactivationExec(a: World, st: Stack, t: Tick)
    requires a.stack == Some(st) && !st.deleted && st.spec.active
    ensures DeactivationOf(a, Exec(a, PutStack(Deactivated(st)), t).w, st)
  {
  }

  /** The fate of the write: it lands exactly when it is executed on the object as copied. */
  lemma DeactivationCall(s: Sys, st: Stack)
    requires !st.deleted && st.spec.active
    requires Current(After(s).w, st) ==> After(s).w.stack.value == st
    ensures var a, r := After(s), UpdateStack(s, Deactivated(st)).s;
            && r.tape == a.tape
            && (if Current(a.w, st) && !Head(s).outcome.Fail? then DeactivationOf(a.w, r.w, st) else r.w == a.w)
            && (Clean(s, r) ==> DeactivationOf(a.w, r.w, st))
  {
    StackCall(s, Deactivated(st));
    if Current(After(s).w, st) { DeactivationExec(After(s).w, st, Head(s)); }
  }

  lemma DeactivateKeeps(pr: string, w0: World, s: Sys, st: Stack, mode: Mode)
    requires Good(pr, w0, s, st, mode) && Synced(s, st) && !st.deleted && st.spec.active && SpecIn(st.spec, mode)
    ensures var r := UpdateStack(s, Deactivated(st)).s;
            && Kept(pr, w0, r, mode) && Server(r) == Server(s)
            && (Clean(s, r) ==> Deactivates(w0, r.w))
  {
    AfterGood(pr, w0, s, st, mode);
    DeactivationCall(s, st);
    var a, r := After(s), UpdateStack(s, Deactivated(st)).s;
    Open(pr, w0, s, mode);
    Open(pr, w0, a, mode);
    if DeactivationOf(a.w, r.w, st) {
      DeactivationFits(pr, a.w, r.w, st);
      GrowsTransitive(w0, a.w, r.w);
    }
    KeptFrom(pr, w0, r, mode);
  }

  /** Where a pass may end that has secured the finalizer. */
  ghost predicate PassEnds(pr: string, a: World, s: Sys, r: Sys, st: Stack, mode: Mode) {
    && Kept(pr, a, r, mode) && !r.panicked
    && (if st.spec.active then ActivePass(s, r, st) || ExpiredPass(a, r, st) else InactivePass(s, r, st))
  }

  lemma ActivityPass(cfg: Config, pr: string, a: World, base: World, s: Sys, u: Res, st: Stack, mode: Mode)
    requires Good(pr, base, u.s, u.st, mode) && Synced(u.s, u.st) && !u.st.deleted && !u.s.panicked && !u.s.crashed
    requires u.st.spec == st.spec && u.st.status.phase == st.status.phase
    requires u.s.faults >= s.faults && u.s.conflicts >= s.conflicts
    requires Grows(a, base)
    ensures PassEnds(pr, a, s, ReconcileActive(cfg, pr, u.s, u.st), st, mode)
  {
    var r := ReconcileActive(cfg, pr, u.s, u.st);
    ActivityKeeps(cfg, pr, base, u.s, u.st, mode);
    PromiseKept(pr, a, base, r, mode);
  }

  lemma RenewedPass(cfg: Config, pr: string, a: World, s: Sys, u: Res, st: Stack, now: int, mode: Mode)
    requires Rebased(pr, a, s, u, st, now, mode) && !st.deleted && st.spec.active && !u.s.panicked && !u.s.crashed
    requires u.s.faults >= s.faults && u.s.conflicts >= s.conflicts
    ensures PassEnds(pr, a, s, ReconcileRenewed(cfg, pr, u), st, mode)
  {
    if u.ok {
      ActivityPass(cfg, pr, a, u.s.w, s, u, st, mode);
    } else {
      PromiseKept(pr, a, u.s.w, u.s, mode);
    }
  }

  lemma UnrenewedPass(cfg: Config, pr: string, w0: World, s: Sys, st: Stack, mode: Mode)
    requires Good(pr, w0, s, st, mode) && Synced(s, st) && !st.deleted && SpecIn(st.spec, mode)
    requires !s.panicked && !s.crashed
    ensures PassEnds(pr, w0, s, ReconcileUnrenewed(cfg, pr, s, st), st, mode)
  {
    if IsExpired(st, s.w.now) && st.spec.active {
      GoodStatus(pr, w0, s, st, mode);
      DeactivateKeeps(pr, w0, s, st, mode);
    } else {
      GrowsSelf(w0);
      ActivityPass(cfg, pr, w0, w0, s, Res(s, st, true), st, mode);
    }
  }

  lemma GrowsSelf(w: World)
    ensures Grows(w, w)
  {
  }

  lemma RenewingPass(cfg: Config, pr: string, w0: World, first: Sys, st: Stack, now: int, mode: Mode)
    requires Good(pr, w0, first, st, mode) && Synced(first, st) && !st.deleted && Clocked(first.w, st, now)
    requires !first.panicked && !first.crashed && Reactivates(st, first.w.now)
    ensures PassEnds(pr, w0, first, ReconcileRenewed(cfg, pr, Renew(first, st, now)), st, mode)
  {
    RenewKeeps(pr, w0, first, st, now, mode);
    RenewedPass(cfg, pr, w0, first, Renew(first, st, now), st, now, mode);
  }

  /** Reading the clock is no call that fails. */
  lemma PassEndsFrom(pr: string, a: World, s: Sys, first: Sys, r: Sys, st: Stack, mode: Mode)
    requires PassEnds(pr, a, first, r, st, mode) && first.faults == s.faults && first.conflicts == s.conflicts
    ensures PassEnds(pr, a, s, r, st, mode)
  {
  }

  lemma ExpiryPass(cfg: Config, pr: string, w0: World, s: Sys, st: Stack, now: int, mode: Mode)
    requires Good(pr, w0, s, st, mode) && Synced(s, st) && !st.deleted && SpecIn(st.spec, mode) && Clocked(s.w, st, now)
    requires !s.panicked && !s.crashed
    ensures PassEnds(pr, w0, s, ReconcileExpiry(cfg, pr, s, st, now), st, mode)
  {
    var first := ReadClock(s);
    AfterGood(pr, w0, s, st, mode);
    if Reactivates(st, first.w.now) {
      RenewingPass(cfg, pr, w0, first, st, now, mode);
      PassEndsFrom(pr, w0, s, first, ReconcileRenewed(cfg, pr, Renew(first, st, now)), st, mode);
    } else {
      var second := ReadClock(first);
      AfterGood(pr, w0, first, st, mode);
      UnrenewedPass(cfg, pr, w0, second, st, mode);
      PassEndsFrom(pr, w0, s, second, ReconcileUnrenewed(cfg, pr, second, st), st, mode);
    }
  }

  // ---------------------------------------------------------------- the finalizer and the creation time

  lemma StampKeeps(pr: string, w0: World, s: Sys, st: Stack, mode: Mode)
    requires Good(pr, w0, s, st, mode) && Synced(s, st) && !st.deleted
    ensures var u := StampCreation(s, st, s.w.now);
            && Good(pr, w0, u.s, u.st, mode) && Server(u.s).phase == st.status.phase
            && (u.ok ==> Synced(u.s, u.st) && Clocked(u.s.w, u.st, s.w.now))
            && u.st.spec == st.spec && !u.st.deleted && u.st.status.phase == st.status.phase
            && (!u.ok ==> !Clean(s, u.s))
  {
    GoodStatus(pr, w0, s, st, mode);
    Open(pr, w0, s, mode);
    InvFacts(pr, s.w);
    if st.status.createdAt.None? {
      var now := s.w.now;
      var x := st.(status := st.status.(createdAt := Some(now), lastActiveAt := Some(now)));
      if Live(st.status.phase) { assert CredentialsAgree(pr, x.status, s.w); }
      StatusWrite(pr, w0, s, x, Plain, mode);
      Open(pr, w0, UpdateStatus(s, x, Plain).s, mode);
    }
  }

  lemma {:induction false} EditsSteady(w: World, edits: seq<Edit>, mode: Mode)
    requires mode.Steady? && WorldIn(w, mode) && forall j :: 0 <= j < |edits| ==> EditIn(edits[j], mode)
    ensures ApplyAll(w, edits).stack.Some? && ApplyAll(w, edits).stack.value.status == w.stack.value.status
    decreases |edits|
  {
    if edits != [] { EditsSteady(Apply(w, edits[0]), edits[1..], mode); }
  }

  /** Time and users' steps, before the finalizer is in place. */
  lemma AfterPromise(pr: string, w0: World, s: Sys, mode: Mode)
    requires Promise(pr, w0, s, mode)
    ensures Promise(pr, w0, After(s), mode)
    ensures s.w.stack.Some? && mode.Steady? ==> Server(After(s)) == Server(s)
    ensures SameSides(s.w, After(s).w) && s.w.now <= After(s).w.now
  {
    Open(pr, w0, s, mode);
    AfterKeeps(pr, s, mode);
    AgesTransitive(w0, s.w, After(s).w);
    Close(pr, w0, After(s), mode);
    if s.tape != [] && mode.Steady? {
      var t := s.tape[0];
      EditsSteady(s.w.(now := if t.now > s.w.now then t.now else s.w.now), t.edits, mode);
    }
  }

  predicate FinalizerAdded(a: World, b: World, st: Stack) {
    && a.stack == Some(st) && !st.deleted && FINALIZER !in st.finalizers
    && b == a.(stack := Some(st.(finalizers := st.finalizers + [FINALIZER], version := a.rv + 1)), rv := a.rv + 1)
  }

  lemma AddedFits(pr: string, a: World, b: World, st: Stack, mode: Mode)
    requires Inv(pr, a) && FinalizerAdded(a, b, st) && WorldIn(a, mode)
    ensures Inv(pr, b) && Ages(a, b) && WorldIn(b, mode)
  {
    InvFacts(pr, a);
    assert FINALIZER !in multiset(st.finalizers);
    assert StackFits(pr, b, b.stack.value);
    InvFrom(pr, b);
  }

  lemma AddCall(s: Sys, st: Stack)
    requires !st.deleted && FINALIZER !in st.finalizers
    requires Current(After(s).w, st) ==> After(s).w.stack.value == st
    ensures var a, f := After(s), UpdateStack(s, st.(finalizers := st.finalizers + [FINALIZER]));
            && f.s.tape == a.tape
            && (f.s.w == a.w || FinalizerAdded(a.w, f.s.w, st))
            && (f.ok ==> FinalizerAdded(a.w, f.s.w, st) && f.s.w.stack == Some(f.st))
            && (!f.ok ==> !Clean(s, f.s))
  {
    StackCall(s, st.(finalizers := st.finalizers + [FINALIZER]));
  }

  /** The copy that `Reconcile` starts from, once the finalizer is in place. */
  ghost predicate Secured(pr: string, w0: World, s: Sys, f: Res, st: Stack, mode: Mode) {
    && Promise(pr, w0, f.s, mode)
    && (f.ok ==> Good(pr, w0, f.s, f.st, mode) && Synced(f.s, f.st))
    && (f.ok ==> f.st.spec == st.spec && f.st.status == st.status && !f.st.deleted)
    && (!f.ok ==> !Clean(s, f.s))
    && (mode.Steady? ==> Server(f.s) == st.status)
  }

  lemma FreshSynced(pr: string, w0: World, s: Sys, st: Stack, mode: Mode)
    requires Promise(pr, w0, s, mode) && s.w.stack == Some(st)
    ensures Synced(s, st)
  {
    Open(pr, w0, s, mode);
    InvFacts(pr, s.w);
  }

  lemma AddFinalizerKeeps(pr: string, w0: World, s: Sys, st: Stack, mode: Mode)
    requires Promise(pr, w0, s, mode) && s.w.stack == Some(st) && !st.deleted
    ensures Secured(pr, w0, s, AddFinalizer(s, st), st, mode)
  {
    if FINALIZER in st.finalizers {
      FreshSynced(pr, w0, s, st, mode);
    } else {
      Open(pr, w0, s, mode);
      InvFacts(pr, s.w);
      Close(pr, w0, s, Free);
      AfterLoose(pr, w0, s, st, st.status);
      AfterPromise(pr, w0, s, mode);
      AddCall(s, st);
      AddedKeeps(pr, w0, After(s), UpdateStack(s, st.(finalizers := st.finalizers + [FINALIZER])), st, mode);
    }
  }

  lemma AddedKeeps(pr: string, w0: World, a: Sys, f: Res, st: Stack, mode: Mode)
    requires Promise(pr, w0, a, mode) && f.s.tape == a.tape && (f.s.w == a.w || FinalizerAdded(a.w, f.s.w, st))
    requires f.ok ==> FinalizerAdded(a.w, f.s.w, st) && f.s.w.stack == Some(f.st)
    ensures Promise(pr, w0, f.s, mode)
    ensures f.ok ==> Good(pr, w0, f.s, f.st, mode) && Synced(f.s, f.st)
  {
    Open(pr, w0, a, mode);
    if FinalizerAdded(a.w, f.s.w, st) {
      AddedFits(pr, a.w, f.s.w, st, mode);
      AgesTransitive(w0, a.w, f.s.w);
    }
    Close(pr, w0, f.s, mode);
    if f.ok { FreshSynced(pr, w0, f.s, f.st, mode); }
  }

  // ---------------------------------------------------------------- Reconcile

  /** What a pass does to the phase `before` it, when users only act as `mode` allows. */
  predicate SteadyPass(mode: Mode, a: World, s: Sys, r: Sys, before: Phase, spec: Spec)
    requires mode.Steady?
  {
    var after := Server(r).phase;
    if mode.active then
      Progresses(s, r, before, spec) || (Deactivates(a, r.w) && after == before && !r.crashed)
    else
      && (after == before || after in {Inactive, Failed})
      && (Clean(s, r) ==> after == Inactive)
      && !r.crashed
  }

  ghost predicate ReconcileEnds(pr: string, a: World, s: Sys, r: Sys, st: Stack, mode: Mode) {
    && Kept(pr, a, r, mode) && !r.panicked
    && (mode.Steady? ==> SteadyPass(mode, a, s, r, st.status.phase, st.spec))
  }

  lemma StampedPass(cfg: Config, pr: string, w0: World, s: Sys, c: Sys, st: Stack, mode: Mode)
    requires Good(pr, w0, c, st, mode) && Synced(c, st) && !st.deleted && SpecIn(st.spec, mode)
    requires !c.panicked && !c.crashed && c.faults >= s.faults && c.conflicts >= s.conflicts
    ensures ReconcileEnds(pr, w0, s, ReconcileStamped(cfg, pr, StampCreation(c, st, c.w.now), c.w.now), st, mode)
  {
    StampKeeps(pr, w0, c, st, mode);
    var u := StampCreation(c, st, c.w.now);
    GrowsSelf(w0);
    if u.ok {
      ExpiryPass(cfg, pr, w0, u.s, u.st, c.w.now, mode);
    } else {
      PromiseKept(pr, w0, w0, u.s, mode);
    }
  }

  lemma HeldPass(cfg: Config, pr: string, w0: World, s: Sys, f: Res, st: Stack, mode: Mode)
    requires Secured(pr, w0, s, f, st, mode) && SpecIn(st.spec, mode)
    requires !f.s.panicked && !f.s.crashed && f.s.faults >= s.faults && f.s.conflicts >= s.conflicts
    ensures ReconcileEnds(pr, w0, s, ReconcileHeld(cfg, pr, f), st, mode)
  {
    if f.ok {
      AfterGood(pr, w0, f.s, f.st, mode);
      StampedPass(cfg, pr, w0, s, ReadClock(f.s), f.st, mode);
    } else {
      GrowsSelf(w0);
      PromiseKept(pr, w0, w0, f.s, mode);
    }
  }

  lemma FromKeeps(cfg: Config, pr: string, w0: World, s: Sys, st: Stack, mode: Mode)
    requires Promise(pr, w0, s, mode) && s.w.stack == Some(st) && !s.panicked && !s.crashed
    ensures ReconcileEnds(pr, w0, s, ReconcileFrom(cfg, pr, s, st), st, mode)
  {
    Open(pr, w0, s, mode);
    if st.deleted {
      DeletionKeeps(pr, w0, s, st);
      GrowsSelf(w0);
      PromiseKept(pr, w0, w0, HandleDeletion(pr, s, st), Free);
    } else {
      AddFinalizerKeeps(pr, w0, s, st, mode);
      HeldPass(cfg, pr, w0, s, AddFinalizer(s, st), st, mode);
    }
  }

  /** Reading the PRStack. */
  lemma GetCall(s: Sys)
    ensures var g := Call(s, GetStack);
            && g.s.w == After(s).w && g.s.tape == After(s).tape
            && (g.reply.Found? ==> g.s.w.stack == Some(g.reply.st))
            && (NoFault(s, g.s) && g.s.w.stack.Some? ==> g.reply.Found?)
            && g.s.conflicts == s.conflicts
  {
  }

  /** The PRStack as the pass on this tape reads it. */
  function ReadBy(w: World, tape: seq<Tick>): Option<Stack> {
    if tape == [] then w.stack else Elapse(w, tape[0]).stack
  }

  lemma StartPromise(pr: string, w: World, tape: seq<Tick>, mode: Mode)
    requires Inv(pr, w) && WorldIn(w, mode) && TapeIn(tape, mode)
    ensures Promise(pr, w, Start(pr, w, tape), mode)
  {
    Close(pr, w, Start(pr, w, tape), mode);
  }

  lemma PromiseMoved(pr: string, w0: World, s: Sys, r: Sys, mode: Mode)
    requires Promise(pr, w0, s, mode) && r.w == s.w && r.tape == s.tape
    ensures Promise(pr, w0, r, mode)
  {
    Open(pr, w0, s, mode);
    Close(pr, w0, r, mode);
  }

  /** One `Reconcile`, on any tape: the invariant is kept, the object only grows, nothing is dereferenced while
      unset; and while users keep `Active` at one value, the phase moves only along the arrows. */
  lemma ReconcileKeeps(cfg: Config, pr: string, w: World, tape: seq<Tick>, mode: Mode)
    requires Inv(pr, w) && WorldIn(w, mode) && TapeIn(tape, mode)
    ensures var r := Reconcile(cfg, pr, Start(pr, w, tape));
            && Kept(pr, w, r, mode) && !r.panicked
            && (mode.Steady? ==>
                  && w.stack.Some? && ReadBy(w, tape).Some?
                  && SteadyPass(mode, w, Start(pr, w, tape), r, w.stack.value.status.phase, ReadBy(w, tape).value.spec))
  {
    var s := Start(pr, w, tape);
    StartPromise(pr, w, tape, mode);
    AfterPromise(pr, w, s, mode);
    GetCall(s);
    var g := Call(s, GetStack);
    PromiseMoved(pr, w, After(s), g.s, mode);
    if g.reply.Found? {
      FromKeeps(cfg, pr, w, g.s, g.reply.st, mode);
    } else {
      Open(pr, w, g.s, mode);
      GrowsSelf(w);
      PromiseKept(pr, w, w, g.s, mode);
    }
  }
}
