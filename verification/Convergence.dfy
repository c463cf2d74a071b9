/** Bounded convergence: deletion and activation reach their goal in a number of passes that only the failed calls
    can extend. */
module Convergence {
  import opened Types
  import opened Api
  import opened Names
  import opened Conditions
  import opened Handlers
  import opened Invariants
  import opened Deletion
  import opened Reconciling
  import opened Safety
  import D = Deploying

  // ---------------------------------------------------------------- deletion

  /** The stack is deleted and the operator's finalizer still holds it. */
  predicate Deleting(w: World) {
    Held(w) && w.stack.value.deleted
  }

  function Remaining(w: World): nat {
    if PhaseIs(w, Cleaning) then 1 else 2
  }

  lemma ReadDeleted(pr: string, w: World, tape: seq<Tick>)
    requires Inv(pr, w) && Deleting(w)
    ensures var v := After(Start(pr, w, tape)).w; Deleting(v) && v.stack.value.status == w.stack.value.status
  {
    AfterKeeps(pr, Start(pr, w, tape), Free);
    StartPromise(pr, w, tape, Free);
    InvFacts(pr, w);
    AfterLoose(pr, w, Start(pr, w, tape), w.stack.value, w.stack.value.status);
  }

  /** A pass that reads a deleted stack creates no namespace, workload, secret or user, only a backup job; what there
      is can only go. */
  lemma DeletedOnlyShrinks(cfg: Config, pr: string, w: World, tape: seq<Tick>)
    requires Inv(pr, w) && ReadBy(w, tape).Some? && ReadBy(w, tape).value.deleted
    ensures Shrinks(w, Reconcile(cfg, pr, Start(pr, w, tape)).w)
    ensures HeldDeleted(Reconcile(cfg, pr, Start(pr, w, tape)).w)
    ensures var s := Start(pr, w, tape); var r := Reconcile(cfg, pr, s); var phase := ReadBy(w, tape).value.status.phase;
            && (Clean(s, r) && phase == Cleaning ==> !Held(r.w) && Gone(r.w))
            && (Clean(s, r) && phase != Cleaning ==> PhaseIs(r.w, Cleaning))
  {
    var s := Start(pr, w, tape);
    StartPromise(pr, w, tape, Free);
    AfterPromise(pr, w, s, Free);
    GetCall(s);
    var g := Call(s, GetStack);
    PromiseMoved(pr, w, After(s), g.s, Free);
    ShrinksAfter(w, g.s.w);
    if g.reply.Found? {
      DeletionKeeps(pr, w, g.s, g.reply.st);
      ShrinksTransitive(w, g.s.w, HandleDeletion(pr, g.s, g.reply.st).w);
    }
  }

  lemma ShrinksAfter(w: World, v: World)
    requires SameSides(w, v)
    ensures Shrinks(w, v)
  {
  }

  /** One pass of a deletion: the failed calls pay for whatever it does not achieve. */
  lemma DeletionStep(cfg: Config, pr: string, w: World, tape: seq<Tick>)
    requires Inv(pr, w) && Deleting(w)
    ensures var s := Start(pr, w, tape); var r := Reconcile(cfg, pr, s);
            && Inv(pr, r.w) && (Held(r.w) ==> Deleting(r.w))
            && (Held(r.w) && Clean(s, r) ==> Remaining(r.w) < Remaining(w))
  {
    ReadDeleted(pr, w, tape);
    StepKeeps(cfg, pr, w, tape);
    DeletedOnlyShrinks(cfg, pr, w, tape);
  }

  /** After the first `k` passes the finalizer is gone. */
  ghost predicate ReleasedBy(cfg: Config, pr: string, w: World, tapes: seq<seq<Tick>>, k: nat) {
    k <= |tapes| && !Held(Run(cfg, pr, w, tapes[..k]))
  }

  lemma {:induction false} DeletionBound(cfg: Config, pr: string, w: World, tapes: seq<seq<Tick>>) returns (k: nat)
    requires Inv(pr, w) && Deleting(w)
    requires |tapes| >= 2 * Failures(cfg, pr, w, tapes) + Remaining(w)
    ensures k <= 2 * Failures(cfg, pr, w, tapes) + Remaining(w)
    ensures ReleasedBy(cfg, pr, w, tapes, k)
    decreases |tapes|
  {
    DeletionStep(cfg, pr, w, tapes[0]);
    var v := After1(cfg, pr, w, tapes[0]);
    var j: nat := 0;
    if Held(v) { j := DeletionBound(cfg, pr, v, tapes[1..]); }
    k := j + 1;
    assert tapes[..k][0] == tapes[0] && tapes[..k][1..] == tapes[1..][..j];
  }

  /** Deletion terminates: from any reachable state in which the stack is deleted, with F failed calls from then on,
      at most 2F + 2 passes remove the finalizer. */
  lemma DeletionTerminates(cfg: Config, pr: string, past: seq<seq<Tick>>, w: World, tapes: seq<seq<Tick>>, bound: nat)
    requires w == Reached(cfg, pr, past) && Deleting(w)
    requires bound == 2 * Failures(cfg, pr, w, tapes) + 2 && |tapes| >= bound
    ensures exists k: nat :: k <= bound && ReleasedBy(cfg, pr, w, tapes, k)
  {
    Reachable(cfg, pr, past);
    var k := DeletionBound(cfg, pr, w, tapes);
  }

  // ---------------------------------------------------------------- activation

  /** `Active` stays true through the whole run, and users do not delete the stack; `valid` also keeps the quantities of
      the spec parsable. The operator itself may break this, by deactivating an expired stack. */
  predicate StaysActive(cfg: Config, pr: string, w: World, tapes: seq<seq<Tick>>, valid: bool)
    decreases |tapes|
  {
    && WorldIn(w, Steady(true, valid))
    && (tapes != [] ==>
          TapeIn(tapes[0], Steady(true, valid)) && StaysActive(cfg, pr, After1(cfg, pr, w, tapes[0]), tapes[1..], valid))
  }

  function PhaseOf(w: World): Phase {
    if w.stack.Some? then w.stack.value.status.phase else Initialization
  }

  /** The passes of a run in which no call fails. */
  function CleanPasses(cfg: Config, pr: string, w: World, tapes: seq<seq<Tick>>): nat
    decreases |tapes|
  {
    if tapes == [] then 0
    else
      var r := Reconcile(cfg, pr, Start(pr, w, tapes[0]));
      (if Clean(Start(pr, w, tapes[0]), r) then 1 else 0) + CleanPasses(cfg, pr, r.w, tapes[1..])
  }

  /** One pass of a stack that stays active. */
  lemma ActivationStep(cfg: Config, pr: string, w: World, tape: seq<Tick>, valid: bool)
    requires Inv(pr, w) && TapeIn(tape, Steady(true, valid))
    requires WorldIn(w, Steady(true, valid)) && WorldIn(After1(cfg, pr, w, tape), Steady(true, valid))
    ensures Inv(pr, After1(cfg, pr, w, tape))
    ensures ReadBy(w, tape).Some? && (valid ==> ValidSpec(ReadBy(w, tape).value.spec))
    ensures Progresses(Start(pr, w, tape), Reconcile(cfg, pr, Start(pr, w, tape)), PhaseOf(w), ReadBy(w, tape).value.spec)
  {
    ReconcileKeeps(cfg, pr, w, tape, Steady(true, valid));
    KeptFacts(pr, w, Reconcile(cfg, pr, Start(pr, w, tape)), Steady(true, valid));
    AfterKeeps(pr, Start(pr, w, tape), Steady(true, valid));
  }

  /** The rank never rises, whatever fails, and the phases of rank 0 are absorbing. */
  lemma {:induction false} RankNeverRises(cfg: Config, pr: string, w: World, tapes: seq<seq<Tick>>, valid: bool)
    requires Inv(pr, w) && StaysActive(cfg, pr, w, tapes, valid)
    ensures var v := Run(cfg, pr, w, tapes);
            && Rank(PhaseOf(v)) <= Rank(PhaseOf(w))
            && (Rank(PhaseOf(w)) == 0 ==> PhaseOf(v) == PhaseOf(w))
    decreases |tapes|
  {
    if tapes != [] {
      ActivationStep(cfg, pr, w, tapes[0], valid);
      MovesDown(PhaseOf(w), PhaseOf(After1(cfg, pr, w, tapes[0])));
      RankNeverRises(cfg, pr, After1(cfg, pr, w, tapes[0]), tapes[1..], valid);
    }
  }

  /** With a parsable spec every pass without a failed call lowers the rank, so three of them settle the stack. */
  lemma {:induction false} CleanPassesSettle(cfg: Config, pr: string, w: World, tapes: seq<seq<Tick>>)
    requires Inv(pr, w) && StaysActive(cfg, pr, w, tapes, true)
    ensures Rank(PhaseOf(Run(cfg, pr, w, tapes))) == 0
         || Rank(PhaseOf(Run(cfg, pr, w, tapes))) + CleanPasses(cfg, pr, w, tapes) <= Rank(PhaseOf(w))
    decreases |tapes|
  {
    if tapes != [] {
      var v := After1(cfg, pr, w, tapes[0]);
      ActivationStep(cfg, pr, w, tapes[0], true);
      MovesDown(PhaseOf(w), PhaseOf(v));
      CleanPassesSettle(cfg, pr, v, tapes[1..]);
      if Rank(PhaseOf(v)) == 0 { RankNeverRises(cfg, pr, v, tapes[1..], true); }
    }
  }

  /** No call fails in the run, other than PRStack writes that lose a version race. */
  predicate OnlyRaces(cfg: Config, pr: string, w: World, tapes: seq<seq<Tick>>)
    decreases |tapes|
  {
    tapes != [] ==>
      && NoFault(Start(pr, w, tapes[0]), Reconcile(cfg, pr, Start(pr, w, tapes[0])))
      && OnlyRaces(cfg, pr, After1(cfg, pr, w, tapes[0]), tapes[1..])
  }

  /** Lost version races alone never persist Failed or Degraded. */
  lemma {:induction false} RacesNeverFail(cfg: Config, pr: string, w: World, tapes: seq<seq<Tick>>)
    requires Inv(pr, w) && StaysActive(cfg, pr, w, tapes, true) && OnlyRaces(cfg, pr, w, tapes)
    ensures PhaseOf(Run(cfg, pr, w, tapes)) == PhaseOf(w) || PhaseOf(Run(cfg, pr, w, tapes)) !in {Failed, Degraded}
    decreases |tapes|
  {
    if tapes != [] {
      ActivationStep(cfg, pr, w, tapes[0], true);
      RacesNeverFail(cfg, pr, After1(cfg, pr, w, tapes[0]), tapes[1..]);
    }
  }

  lemma {:induction false} CleanIsRaceless(cfg: Config, pr: string, w: World, tapes: seq<seq<Tick>>)
    ensures CleanPasses(cfg, pr, w, tapes) <= |tapes|
    ensures CleanPasses(cfg, pr, w, tapes) == |tapes| ==> OnlyRaces(cfg, pr, w, tapes)
    decreases |tapes|
  {
    if tapes != [] { CleanIsRaceless(cfg, pr, After1(cfg, pr, w, tapes[0]), tapes[1..]); }
  }

  lemma {:induction false} ActiveEnd(cfg: Config, pr: string, w: World, tapes: seq<seq<Tick>>, valid: bool)
    requires Inv(pr, w) && StaysActive(cfg, pr, w, tapes, valid)
    ensures var v := Run(cfg, pr, w, tapes); Inv(pr, v) && WorldIn(v, Steady(true, valid))
    decreases |tapes|
  {
    if tapes != [] {
      ActivationStep(cfg, pr, w, tapes[0], valid);
      ActiveEnd(cfg, pr, After1(cfg, pr, w, tapes[0]), tapes[1..], valid);
    }
  }

  /** As many passes without a failed call as its rank, three at most, take a stack that is on its way to Running. */
  lemma ActivationSucceeds(cfg: Config, pr: string, past: seq<seq<Tick>>, w: World, tapes: seq<seq<Tick>>)
    requires w == Reached(cfg, pr, past) && Rank(PhaseOf(w)) > 0 && StaysActive(cfg, pr, w, tapes, true)
    requires CleanPasses(cfg, pr, w, tapes) == |tapes| >= Rank(PhaseOf(w))
    ensures PhaseIs(Run(cfg, pr, w, tapes), Running)
  {
    Reachable(cfg, pr, past);
    CleanPassesSettle(cfg, pr, w, tapes);
    CleanIsRaceless(cfg, pr, w, tapes);
    RacesNeverFail(cfg, pr, w, tapes);
    ActiveEnd(cfg, pr, w, tapes, true);
    InvFacts(pr, Run(cfg, pr, w, tapes));
  }

  /** In every pass of the run the spec is one over which deployments crash. */
  predicate AlwaysStalls(cfg: Config, pr: string, w: World, tapes: seq<seq<Tick>>)
    decreases |tapes|
  {
    tapes != [] ==>
      && ReadBy(w, tapes[0]).Some? && D.Stalls(ReadBy(w, tapes[0]).value.spec)
      && AlwaysStalls(cfg, pr, After1(cfg, pr, w, tapes[0]), tapes[1..])
  }

  lemma StalledArrow(s: Sys, r: Sys, before: Phase, spec: Spec)
    requires Progresses(s, r, before, spec) && Clean(s, r) && D.Stalls(spec) && Rank(before) > 0
    ensures PhaseOf(r.w) == if Rank(before) == 3 then Phase.Provisioning else Phase.Deploying
    ensures Rank(PhaseOf(r.w)) > 0 && (Rank(before) > 1 ==> Rank(PhaseOf(r.w)) < Rank(before))
  {
  }

  lemma StalledStep(cfg: Config, pr: string, w: World, tape: seq<Tick>)
    requires Inv(pr, w) && TapeIn(tape, Steady(true, false)) && Rank(PhaseOf(w)) > 0
    requires WorldIn(w, Steady(true, false)) && WorldIn(After1(cfg, pr, w, tape), Steady(true, false))
    requires ReadBy(w, tape).Some? && D.Stalls(ReadBy(w, tape).value.spec)
    requires Clean(Start(pr, w, tape), Reconcile(cfg, pr, Start(pr, w, tape)))
    ensures Inv(pr, After1(cfg, pr, w, tape)) && Rank(PhaseOf(After1(cfg, pr, w, tape))) > 0
    ensures Rank(PhaseOf(w)) > 1 ==> Rank(PhaseOf(After1(cfg, pr, w, tape))) < Rank(PhaseOf(w))
    ensures PhaseOf(w) == Phase.Deploying ==> PhaseOf(After1(cfg, pr, w, tape)) == Phase.Deploying
  {
    ActivationStep(cfg, pr, w, tape, false);
    StalledArrow(Start(pr, w, tape), Reconcile(cfg, pr, Start(pr, w, tape)), PhaseOf(w), ReadBy(w, tape).value.spec);
  }

  /** Why activation needs parsable limits: without them it halts in Deploying, however many passes follow without a
      failed call. */
  lemma {:induction false} StalledNeverSettles(cfg: Config, pr: string, w: World, tapes: seq<seq<Tick>>)
    requires Inv(pr, w) && StaysActive(cfg, pr, w, tapes, false) && AlwaysStalls(cfg, pr, w, tapes)
    requires CleanPasses(cfg, pr, w, tapes) == |tapes| && Rank(PhaseOf(w)) > 0
    ensures Rank(PhaseOf(Run(cfg, pr, w, tapes))) > 0
    ensures |tapes| >= Rank(PhaseOf(w)) - 1 ==>
              PhaseOf(Run(cfg, pr, w, tapes)) == Phase.Deploying
    decreases |tapes|
  {
    if tapes != [] {
      var v := After1(cfg, pr, w, tapes[0]);
      CleanIsRaceless(cfg, pr, v, tapes[1..]);
      StalledStep(cfg, pr, w, tapes[0]);
      StalledNeverSettles(cfg, pr, v, tapes[1..]);
    }
  }
}
