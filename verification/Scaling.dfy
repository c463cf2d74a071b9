/** Scaling an inactive stack down: each pass scales a prefix of the deployments still to scale, F failed calls cost at
    most F further passes, and what is at zero stays there. */
module Scaling {
  import opened Types
  import opened Api
  import opened Names
  import opened Conditions
  import opened Handlers
  import opened Invariants
  import opened Steps
  import opened Activity
  import opened Deletion
  import opened Reconciling
  import opened Safety
  import opened Convergence

  // ---------------------------------------------------------------- what a pass does to the deployments

  /** The names of the deployments that do not have `n` replicas. */
  function Mismatched(deployments: map<string, Deployment>, n: int): set<string> {
    set name | name in deployments && deployments[name].replicas != Some(n)
  }

  /** The listed deployments set to `n` replicas, one after the other, where they do not have them. */
  function Scaled(deployments: map<string, Deployment>, items: seq<Item>, n: int): map<string, Deployment>
    decreases |items|
  {
    if items == [] then deployments
    else if items[0].deployment.replicas == Some(n) then Scaled(deployments, items[1..], n)
    else Scaled(deployments[items[0].name := items[0].deployment.(replicas := Some(n))], items[1..], n)
  }

  /** The list describes deployments that exist, correctly for those that need no scaling. */
  predicate Truthful(deployments: map<string, Deployment>, items: seq<Item>, n: int) {
    forall i :: 0 <= i < |items| ==>
      && items[i].name in deployments
      && (items[i].deployment.replicas == Some(n) ==> deployments[items[i].name].replicas == Some(n))
  }

  function NamesOf(items: seq<Item>): set<string> {
    set i | 0 <= i < |items| :: items[i].name
  }

  /** Exactly the listed names stop being mismatched. */
  lemma {:induction false} ScaledMismatches(deployments: map<string, Deployment>, items: seq<Item>, n: int)
    requires Truthful(deployments, items, n)
    ensures Scaled(deployments, items, n).Keys == deployments.Keys
    ensures Mismatched(Scaled(deployments, items, n), n) == Mismatched(deployments, n) - NamesOf(items)
    decreases |items|
  {
    if items == [] {
    } else {
      assert NamesOf(items) == {items[0].name} + NamesOf(items[1..]) by {
        assert forall i :: 0 <= i < |items[1..]| ==> items[1..][i] == items[i + 1];
        forall x | x in NamesOf(items) ensures x in {items[0].name} + NamesOf(items[1..]) {
          var i :| 0 <= i < |items| && items[i].name == x;
          if i > 0 { assert items[1..][i - 1].name == x; }
        }
      }
      var next := if items[0].deployment.replicas == Some(n) then deployments
                  else deployments[items[0].name := items[0].deployment.(replicas := Some(n))];
      assert next.Keys == deployments.Keys;
      assert Mismatched(next, n) == Mismatched(deployments, n) - {items[0].name};
      ScaledMismatches(next, items[1..], n);
    }
  }

  /** The namespace after the first `k` listed deployments have been scaled. */
  function ScaledNs(ns: Namespace, items: seq<Item>, n: int): Namespace {
    ns.(deployments := Scaled(ns.deployments, items, n))
  }

  lemma ScaledFirst(ns: Namespace, items: seq<Item>, n: int, j: nat)
    requires items != [] && j < |items|
    ensures var d := items[0].deployment;
            ScaledNs(ns, items[..j + 1], n) ==
            if d.replicas == Some(n) then ScaledNs(ns, items[1..][..j], n)
            else ScaledNs(Put(ns, DeploymentManifest(items[0].name, d.(replicas := Some(n)))), items[1..][..j], n)
    ensures ScaledNs(ns, items[..0], n) == ns
  {
    assert items[..j + 1][0] == items[0] && items[..j + 1][1..] == items[1..][..j];
  }

  lemma ScaleOneGood(pr: string, w0: World, s: Sys, items: seq<Item>, d: Deployment, st: Stack, mode: Mode)
    requires Good(pr, w0, s, st, mode) && s.w.ns.Some? && items != [] && Present(s.w.ns, items)
    requires Told(pr, items[0].name, d)
    ensures var m := DeploymentManifest(items[0].name, d); var u := Call(s, UpdateObj(m));
            && Good(pr, w0, u.s, st, mode) && u.s.w.ns.Some? && Present(u.s.w.ns, items[1..])
            && (u.s.w.ns == s.w.ns || u.s.w.ns == Some(Put(s.w.ns.value, m)))
            && (u.reply.Done? ==> u.s.w.ns == Some(Put(s.w.ns.value, m)))
  {
    UpdateGood(pr, w0, s, items[0].name, d, st, mode);
  }

  /** A pass through the list stops after some prefix of it, which it has scaled and nothing else. */
  lemma {:induction false} ScaleEachPrefix(pr: string, w0: World, s: Sys, items: seq<Item>, n: int, st: Stack, mode: Mode)
    returns (k: nat)
    requires Good(pr, w0, s, st, mode) && s.w.ns.Some? && Present(s.w.ns, items) && ItemsTold(pr, items)
    ensures var r := ScaleEach(s, items, n);
            && k <= |items|
            && r.s.w.ns == Some(ScaledNs(s.w.ns.value, items[..k], n))
            && (r.ok ==> k == |items|)
    decreases |items|, 1
  {
    k := 0;
    if items != [] {
      if items[0].deployment.replicas == Some(n) {
        k := ScaleEachPrefix(pr, w0, s, items[1..], n, st, mode);
        ScaledFirst(s.w.ns.value, items, n, k);
        k := k + 1;
      } else {
        k := MismatchPrefix(pr, w0, s, items, n, st, mode);
      }
    }
  }

  /** The first deployment has to be scaled. */
  lemma {:induction false} MismatchPrefix(pr: string, w0: World, s: Sys, items: seq<Item>, n: int, st: Stack, mode: Mode)
    returns (k: nat)
    requires Good(pr, w0, s, st, mode) && s.w.ns.Some? && Present(s.w.ns, items) && ItemsTold(pr, items)
    requires items != [] && items[0].deployment.replicas != Some(n)
    ensures var r := ScaleEach(s, items, n);
            && k <= |items|
            && r.s.w.ns == Some(ScaledNs(s.w.ns.value, items[..k], n))
            && (r.ok ==> k == |items|)
    decreases |items|, 0
  {
    var d := items[0].deployment.(replicas := Some(n));
    ScaleOneGood(pr, w0, s, items, d, st, mode);
    var u := Call(s, UpdateObj(DeploymentManifest(items[0].name, d)));
    if u.reply.Done? {
      k := ScaleEachPrefix(pr, w0, u.s, items[1..], n, st, mode);
      ScaledFirst(s.w.ns.value, items, n, k);
      k := k + 1;
    } else {
      ScaledFirst(s.w.ns.value, items, n, 0);
      k := if u.s.w.ns == s.w.ns then 0 else 1;
    }
  }

  ghost predicate AllAt(ns: Option<Namespace>, n: int) {
    ns.Some? ==> Mismatched(ns.value.deployments, n) == {}
  }

  lemma {:induction false} ScaledNothing(deployments: map<string, Deployment>, items: seq<Item>, n: int)
    requires forall i :: 0 <= i < |items| ==> items[i].deployment.replicas == Some(n)
    ensures Scaled(deployments, items, n) == deployments
    decreases |items|
  {
    if items != [] { ScaledNothing(deployments, items[1..], n); }
  }

  /** From `a` to `b` the first `k` deployments of a listing have been scaled, and nothing else has changed. */
  ghost predicate ScalesPrefix(a: Option<Namespace>, b: Option<Namespace>, order: seq<string>, k: nat, n: int) {
    && a.Some? && IsListing(order, a.value.deployments.Keys) && k <= |order|
    && b == Some(ScaledNs(a.value, Listed(a.value.deployments, order)[..k], n))
  }

  /** What a prefix is worth: its names, and only they, stop being mismatched; with the whole list nothing is left. */
  lemma PrefixProgress(a: Option<Namespace>, b: Option<Namespace>, order: seq<string>, k: nat, n: int)
    requires ScalesPrefix(a, b, order, k, n)
    ensures b.Some? && Mismatched(b.value.deployments, n) == Mismatched(a.value.deployments, n) - SetOf(order[..k])
    ensures b.value.deployments.Keys == a.value.deployments.Keys
    ensures k == |order| ==> AllAt(b, n)
    ensures AllAt(a, n) ==> b == a
  {
    var items := Listed(a.value.deployments, order)[..k];
    ScaledMismatches(a.value.deployments, items, n);
    assert NamesOf(items) == SetOf(order[..k]) by {
      forall x | x in NamesOf(items) ensures x in SetOf(order[..k]) {
        var i :| 0 <= i < |items| && items[i].name == x;
        assert order[..k][i] == x;
      }
      forall x | x in SetOf(order[..k]) ensures x in NamesOf(items) {
        var i :| 0 <= i < |order[..k]| && order[..k][i] == x;
        assert items[i].name == x;
      }
    }
    if k == |order| { assert order[..k] == order; }
    if AllAt(a, n) {
      forall i | 0 <= i < |items| ensures items[i].deployment.replicas == Some(n) {
        assert items[i].name !in Mismatched(a.value.deployments, n);
      }
      ScaledNothing(a.value.deployments, items, n);
    }
  }

  /** `scaleDeployments` scales the first `k` listed deployments; all of them unless a call fails. */
  lemma ScalePrefix(pr: string, w0: World, s: Sys, n: int, st: Stack, mode: Mode) returns (k: nat)
    requires Good(pr, w0, s, st, mode)
    ensures var r := ScaleDeployments(s, n); var order := Head(s).order;
            && (r.s.w.ns == s.w.ns || ScalesPrefix(s.w.ns, r.s.w.ns, order, k, n))
            && (r.ok && s.w.ns.Some? ==> ScalesPrefix(s.w.ns, r.s.w.ns, order, k, n) && k == |order|)
  {
    k := 0;
    var l := Call(s, ListDeployments);
    ListGood(pr, w0, s, st, mode);
    if l.reply.Items? {
      Open(pr, w0, s, mode);
      ListPresent(pr, s);
      ListedBy(pr, s);
      if s.w.ns.Some? { k := ScaleEachPrefix(pr, w0, l.s, l.reply.items, n, st, mode); }
    }
  }

  lemma ListedAt(deployments: map<string, Deployment>, order: seq<string>, n: int)
    requires IsListing(order, deployments.Keys) && Mismatched(deployments, n) == {}
    ensures forall i :: 0 <= i < |order| ==> Listed(deployments, order)[i].deployment.replicas == Some(n)
  {
    forall i | 0 <= i < |order| ensures Listed(deployments, order)[i].deployment.replicas == Some(n) {
      assert order[i] !in Mismatched(deployments, n);
    }
  }

  /** With nothing to scale, only the List call can fail. */
  lemma IdleScale(pr: string, s: Sys, n: int)
    requires Inv(pr, s.w) && AllAt(s.w.ns, n)
    ensures var l := Call(s, ListDeployments); ScaleDeployments(s, n) == Step(l.s, l.reply.Items?)
  {
    ListedBy(pr, s);
    var l := Call(s, ListDeployments);
    if l.reply.Items? {
      if s.w.ns.Some? { ListedAt(s.w.ns.value.deployments, Head(s).order, n); }
      NothingToScale(l.s, l.reply.items, n);
    }
  }

  lemma {:induction false} NothingToScale(s: Sys, items: seq<Item>, n: int)
    requires forall i :: 0 <= i < |items| ==> items[i].deployment.replicas == Some(n)
    ensures ScaleEach(s, items, n) == Step(s, true)
    decreases |items|
  {
    if items != [] { NothingToScale(s, items[1..], n); }
  }

  lemma ListedBy(pr: string, s: Sys)
    requires Inv(pr, s.w)
    ensures var l := Call(s, ListDeployments); var order := Head(s).order;
            && (l.reply.Items? && s.w.ns.Some? ==>
                  && l.s.w.ns == s.w.ns && IsListing(order, s.w.ns.value.deployments.Keys)
                  && l.reply.items == Listed(s.w.ns.value.deployments, order))
            && (l.reply.Items? && s.w.ns.None? ==> l.reply.items == [])
  {
    AfterKeeps(pr, s, Free);
    Executed(s, ListDeployments);
  }

  // ---------------------------------------------------------------- handleRunning

  /** The first listed deployment decides: if it has `n` replicas, or if there is none, the others are not looked at. */
  predicate FirstDecides(ns: Option<Namespace>, order: seq<string>, n: int) {
    ns.None? || order == [] || (order[0] in ns.value.deployments && ns.value.deployments[order[0]].replicas == Some(n))
  }

  lemma MatchScales(pr: string, w0: World, s: Sys, active: bool, st: Stack, mode: Mode)
    requires Good(pr, w0, s, st, mode)
    ensures var r := MatchReplicas(s, active); var n := if active then 1 else 0;
            NoFault(s, r) ==> if FirstDecides(s.w.ns, Head(s).order, n) then r.w.ns == s.w.ns else AllAt(r.w.ns, n)
  {
    var n := if active then 1 else 0;
    var l := Call(s, ListDeployments);
    ListGood(pr, w0, s, st, mode);
    Open(pr, w0, s, mode);
    ListedBy(pr, s);
    if l.reply.Items? && l.reply.items != [] && !FirstDecides(s.w.ns, Head(s).order, n) {
      var k := ScalePrefix(pr, w0, l.s, n, st, mode);
      ScaleGood(pr, w0, l.s, n, st, mode);
      var r := ScaleDeployments(l.s, n);
      if r.ok { PrefixProgress(l.s.w.ns, r.s.w.ns, Head(l.s).order, k, n); }
    }
  }

  /** A pass of `handleRunning` without a failed call brings all deployments to the wanted number of replicas exactly
      when the first listed one has another number; otherwise it leaves all as they are. */
  lemma RunningScales(pr: string, w0: World, s: Sys, st: Stack, mode: Mode)
    requires Good(pr, w0, s, st, mode)
    ensures var r := HandleRunning(s, st); var n := if st.spec.active then 1 else 0;
            NoFault(s, r) ==> if FirstDecides(s.w.ns, Head(s).order, n) then r.w.ns == s.w.ns else AllAt(r.w.ns, n)
  {
    MatchScales(pr, w0, s, st.spec.active, st, mode);
    MatchGood(pr, w0, s, st.spec.active, st, mode);
    var r := MatchReplicas(s, st.spec.active);
    Open(pr, w0, r, mode);
    StatusNs(pr, r, st.(status := st.status.(message := UNHEALTHY)), Plain);
  }

  // ---------------------------------------------------------------- handleInactiveStack

  lemma FinishNs(pr: string, d: Step, expired: bool, st: Stack)
    requires Inv(pr, d.s.w)
    ensures FinishInactive(d, expired, st).w.ns == d.s.w.ns
  {
    AfterKeeps(pr, d.s, Free);
    if !d.ok {
      StatusNs(pr, d.s, WithError(st, "Failed to scale down", d.s.w.now), Plain);
    } else if !expired {
      StatusNs(pr, d.s, WithPhase(st, Inactive, Text(INACTIVE_TEXT)), Plain);
    } else if st.status.createdAt.Some? {
      StatusNs(pr, ReadClock(d.s), WithPhase(st, Inactive, Text(EXPIRED_TEXT)), Plain);
    }
  }

  /** What a pass over an inactive stack does to the namespace `a`, listed in `order`: the first `k` deployments are
      scaled to zero; all of them if no call fails. */
  ghost predicate ScaledDown(a: Option<Namespace>, s: Sys, r: Sys, order: seq<string>, k: nat) {
    && (r.w.ns == a || ScalesPrefix(a, r.w.ns, order, k, 0))
    && (Clean(s, r) ==> AllAt(r.w.ns, 0))
  }

  lemma HandleInactiveScales(pr: string, w0: World, s: Sys, st: Stack, mode: Mode) returns (k: nat)
    requires Good(pr, w0, s, st, mode)
    ensures ScaledDown(s.w.ns, s, HandleInactive(s, st), Head(ReadClock(s)).order, k)
  {
    var clock := ReadClock(s);
    AfterGood(pr, w0, s, st, mode);
    k := ScalePrefix(pr, w0, clock, 0, st, mode);
    ScaleGood(pr, w0, clock, 0, st, mode);
    var d := ScaleDeployments(clock, 0);
    Open(pr, w0, d.s, mode);
    FinishNs(pr, d, IsExpired(st, clock.w.now), st);
    if d.ok && s.w.ns.Some? { PrefixProgress(s.w.ns, d.s.w.ns, Head(clock).order, k, 0); }
  }

  lemma ErrorWrite(pr: string, w0: World, s: Sys, st: Stack, what: string, mode: Mode)
    requires Good(pr, w0, s, st, mode) && Server(s).phase == Inactive
    ensures Server(RecordError(s, st, what)).phase == if Lands(s, st) then Failed else Inactive
  {
    AfterGood(pr, w0, s, st, mode);
    StatusCall(s, WithError(st, what, s.w.now), Plain);
  }

  /** With nothing left to scale the phase stays Inactive, except in exactly one case: the List call fails and the
      write of that error is accepted. Then the phase is Failed. The namespace stays in any case. */
  lemma IdlePhase(pr: string, w0: World, s: Sys, st: Stack, mode: Mode)
    requires Good(pr, w0, s, st, mode) && Synced(s, st) && st.status.phase == Inactive && AllAt(s.w.ns, 0)
    ensures var l := Call(ReadClock(s), ListDeployments); var r := HandleInactive(s, st);
            && r.w.ns == s.w.ns
            && Server(r).phase in {Inactive, Failed}
            && (Server(r).phase == Failed <==> !l.reply.Items? && Lands(l.s, st))
  {
    var clock := ReadClock(s);
    AfterGood(pr, w0, s, st, mode);
    ListGood(pr, w0, clock, st, mode);
    Open(pr, w0, clock, mode);
    IdleScale(pr, clock, 0);
    var l := Call(clock, ListDeployments);
    Open(pr, w0, l.s, mode);
    FinishNs(pr, Step(l.s, l.reply.Items?), IsExpired(st, clock.w.now), st);
    if l.reply.Items? {
      StaysInactiveWrite(pr, w0, l.s, IsExpired(st, clock.w.now), st, mode);
    } else {
      ErrorWrite(pr, w0, l.s, st, "Failed to scale down", mode);
    }
  }

  lemma StaysInactiveWrite(pr: string, w0: World, s: Sys, expired: bool, st: Stack, mode: Mode)
    requires Good(pr, w0, s, st, mode) && Synced(s, st) && st.status.phase == Inactive
    ensures Server(FinishInactive(Step(s, true), expired, st)).phase == Inactive
  {
    AfterGood(pr, w0, s, st, mode);
    if !expired {
      InactiveWrite(pr, w0, s, st, INACTIVE_TEXT, mode);
    } else if st.status.createdAt.Some? {
      InactiveWrite(pr, w0, ReadClock(s), st, EXPIRED_TEXT, mode);
    }
  }

  // ---------------------------------------------------------------- whole passes of an inactive stack

  lemma StackNs(pr: string, s: Sys, x: Stack)
    requires Inv(pr, s.w)
    ensures UpdateStack(s, x).s.w.ns == s.w.ns
  {
    AfterKeeps(pr, s, Free);
  }

  lemma AddFinalizerNs(pr: string, s: Sys, st: Stack)
    requires Inv(pr, s.w)
    ensures AddFinalizer(s, st).s.w.ns == s.w.ns
  {
    StackNs(pr, s, st.(finalizers := st.finalizers + [FINALIZER]));
  }

  lemma StampNs(pr: string, s: Sys, st: Stack, now: int)
    requires Inv(pr, s.w)
    ensures StampCreation(s, st, now).s.w.ns == s.w.ns
  {
    StatusNs(pr, s, st.(status := st.status.(createdAt := Some(now), lastActiveAt := Some(now))), Plain);
  }

  /** The state in which a pass of an inactive stack enters `handleInactiveStack`, two clock readings after its arrival
      at the expiry checks. */
  function EntryState(s: Sys): Sys {
    ReadClock(ReadClock(s))
  }

  /** From its arrival on a pass is `handleInactiveStack`; if it does not arrive, a call has failed and nothing is done. */
  ghost predicate Enters(pr: string, w: World, from: Sys, ns: Option<Namespace>, before: Phase, r: Sys, at: Arrival, mode: Mode) {
    match at
    case Nowhere => r.w.ns == ns && !Clean(from, r) && PhaseOf(r.w) == before
    case Arrival(s, st, _) =>
      && r == HandleInactive(EntryState(s), st) && Good(pr, w, EntryState(s), st, mode) && Synced(EntryState(s), st)
      && EntryState(s).w.ns == ns && st.status.phase == before
  }

  lemma EnterStamped(cfg: Config, pr: string, w: World, from: Sys, c: Sys, st: Stack, mode: Mode)
    requires Good(pr, w, c, st, mode) && Synced(c, st) && !st.deleted && !st.spec.active
    requires c.faults >= from.faults && c.conflicts >= from.conflicts
    ensures var u := StampCreation(c, st, c.w.now);
            Enters(pr, w, from, c.w.ns, st.status.phase, ReconcileStamped(cfg, pr, u, c.w.now),
                   ArriveStamped(u, c.w.now), mode)
  {
    StampKeeps(pr, w, c, st, mode);
    Open(pr, w, c, mode);
    StampNs(pr, c, st, c.w.now);
    var u := StampCreation(c, st, c.w.now);
    if u.ok {
      AfterGood(pr, w, u.s, u.st, mode);
      AfterGood(pr, w, ReadClock(u.s), u.st, mode);
    }
  }

  lemma EnterHeld(cfg: Config, pr: string, w: World, s: Sys, st: Stack, mode: Mode)
    requires Promise(pr, w, s, mode) && s.w.stack == Some(st) && !st.deleted && !st.spec.active && mode.Steady?
    ensures Enters(pr, w, s, s.w.ns, st.status.phase, ReconcileFrom(cfg, pr, s, st), ArriveFrom(s, st), mode)
  {
    AddFinalizerKeeps(pr, w, s, st, mode);
    Open(pr, w, s, mode);
    AddFinalizerNs(pr, s, st);
    var f := AddFinalizer(s, st);
    if f.ok {
      AfterGood(pr, w, f.s, f.st, mode);
      EnterStamped(cfg, pr, w, s, ReadClock(f.s), f.st, mode);
    }
  }

  lemma InactiveRoute(cfg: Config, pr: string, w: World, tape: seq<Tick>, valid: bool)
    requires Inv(pr, w) && WorldIn(w, Steady(false, valid)) && TapeIn(tape, Steady(false, valid))
    ensures var s := Start(pr, w, tape);
            Enters(pr, w, s, w.ns, PhaseOf(w), Reconcile(cfg, pr, s), Arrive(s), Steady(false, valid))
  {
    var s, mode := Start(pr, w, tape), Steady(false, valid);
    StartPromise(pr, w, tape, mode);
    AfterPromise(pr, w, s, mode);
    GetCall(s);
    var g := Call(s, GetStack);
    PromiseMoved(pr, w, After(s), g.s, mode);
    Open(pr, w, g.s, mode);
    if g.reply.Found? { EnterHeld(cfg, pr, w, g.s, g.reply.st, mode); }
  }

  lemma EntryScales(pr: string, w: World, from: Sys, ns: Option<Namespace>, before: Phase, r: Sys, at: Arrival, mode: Mode)
    returns (order: seq<string>, k: nat)
    requires Enters(pr, w, from, ns, before, r, at, mode) && from.faults == 0 && from.conflicts == 0
    ensures ScaledDown(ns, from, r, order, k)
  {
    order, k := [], 0;
    if at.Arrival? {
      order := Head(ReadClock(EntryState(at.s))).order;
      k := HandleInactiveScales(pr, w, EntryState(at.s), at.st, mode);
    }
  }

  /** One pass of a stack that stays inactive. */
  lemma ScaleDownStep(cfg: Config, pr: string, w: World, tape: seq<Tick>, valid: bool) returns (order: seq<string>, k: nat)
    requires Inv(pr, w) && WorldIn(w, Steady(false, valid)) && TapeIn(tape, Steady(false, valid))
    ensures var r := Reconcile(cfg, pr, Start(pr, w, tape));
            && Inv(pr, r.w) && WorldIn(r.w, Steady(false, valid))
            && ScaledDown(w.ns, Start(pr, w, tape), r, order, k)
            && (PhaseOf(r.w) == PhaseOf(w) || PhaseOf(r.w) in {Inactive, Failed})
            && (Clean(Start(pr, w, tape), r) ==> PhaseOf(r.w) == Inactive)
  {
    ReconcileKeeps(cfg, pr, w, tape, Steady(false, valid));
    KeptFacts(pr, w, Reconcile(cfg, pr, Start(pr, w, tape)), Steady(false, valid));
    InactiveRoute(cfg, pr, w, tape, valid);
    var s := Start(pr, w, tape);
    order, k := EntryScales(pr, w, s, w.ns, PhaseOf(w), Reconcile(cfg, pr, s), Arrive(s), Steady(false, valid));
  }

  // ---------------------------------------------------------------- runs of an inactive stack

  predicate TapesIn(tapes: seq<seq<Tick>>, mode: Mode) {
    forall i :: 0 <= i < |tapes| ==> TapeIn(tapes[i], mode)
  }

  /** Every deployment is at zero replicas and the phase is Inactive. */
  ghost predicate AtRest(w: World) {
    AllAt(w.ns, 0) && PhaseIs(w, Inactive)
  }

  ghost predicate RestsBy(cfg: Config, pr: string, w: World, tapes: seq<seq<Tick>>, k: nat) {
    k <= |tapes| && AtRest(Run(cfg, pr, w, tapes[..k]))
  }

  lemma RestsLater(cfg: Config, pr: string, w: World, tapes: seq<seq<Tick>>, j: nat)
    requires tapes != [] && RestsBy(cfg, pr, After1(cfg, pr, w, tapes[0]), tapes[1..], j)
    ensures RestsBy(cfg, pr, w, tapes, j + 1)
  {
    assert tapes[..j + 1][0] == tapes[0] && tapes[..j + 1][1..] == tapes[1..][..j];
  }

  lemma {:induction false} ScaleDownBound(cfg: Config, pr: string, w: World, tapes: seq<seq<Tick>>, valid: bool) returns (k: nat)
    requires Inv(pr, w) && WorldIn(w, Steady(false, valid)) && TapesIn(tapes, Steady(false, valid))
    requires |tapes| > Failures(cfg, pr, w, tapes)
    ensures k <= Failures(cfg, pr, w, tapes) + 1 && RestsBy(cfg, pr, w, tapes, k)
    decreases |tapes|
  {
    var order, n := ScaleDownStep(cfg, pr, w, tapes[0], valid);
    var r := Reconcile(cfg, pr, Start(pr, w, tapes[0]));
    var j: nat := 0;
    if !Clean(Start(pr, w, tapes[0]), r) {
      j := ScaleDownBound(cfg, pr, r.w, tapes[1..], valid);
    } else {
      assert tapes[1..][..0] == [];
    }
    RestsLater(cfg, pr, w, tapes, j);
    k := j + 1;
  }

  /** With `Active` held false and F failed calls, at most F + 1 passes leave every deployment at zero replicas and the
      phase Inactive. */
  lemma ScaleDownConverges(cfg: Config, pr: string, past: seq<seq<Tick>>, w: World, tapes: seq<seq<Tick>>, bound: nat)
    requires w == Reached(cfg, pr, past) && WorldIn(w, Steady(false, false)) && TapesIn(tapes, Steady(false, false))
    requires bound == Failures(cfg, pr, w, tapes) + 1 && |tapes| >= bound
    ensures exists k: nat :: k <= bound && RestsBy(cfg, pr, w, tapes, k)
  {
    Reachable(cfg, pr, past);
    var k := ScaleDownBound(cfg, pr, w, tapes, false);
  }

  /** Once all deployments are at zero, no later pass changes anything in the namespace, whatever fails. */
  lemma {:induction false} ZeroStays(cfg: Config, pr: string, w: World, tapes: seq<seq<Tick>>, valid: bool)
    requires Inv(pr, w) && WorldIn(w, Steady(false, valid)) && TapesIn(tapes, Steady(false, valid)) && AllAt(w.ns, 0)
    ensures Run(cfg, pr, w, tapes).ns == w.ns
    decreases |tapes|
  {
    if tapes != [] {
      var order, k := ScaleDownStep(cfg, pr, w, tapes[0], valid);
      var v := After1(cfg, pr, w, tapes[0]);
      if v.ns != w.ns { PrefixProgress(w.ns, v.ns, order, k, 0); }
      ZeroStays(cfg, pr, v, tapes[1..], valid);
    }
  }

  /** The List call that follows fails, and the write of that error is accepted. */
  predicate ListErrorLands(at: Arrival) {
    at.Arrival? &&
    var l := Call(ReadClock(EntryState(at.s)), ListDeployments);
    !l.reply.Items? && Lands(l.s, at.st)
  }

  lemma EntryBreaks(pr: string, w: World, from: Sys, ns: Option<Namespace>, r: Sys, at: Arrival, mode: Mode)
    requires Enters(pr, w, from, ns, Inactive, r, at, mode) && AllAt(ns, 0)
    ensures r.w.ns == ns && PhaseOf(r.w) in {Inactive, Failed} && (PhaseOf(r.w) == Failed <==> ListErrorLands(at))
  {
    if at.Arrival? { IdlePhase(pr, w, EntryState(at.s), at.st, mode); }
  }

  /** From rest, a pass leaves the namespace alone, and the phase Inactive exactly in that case. */
  lemma RestBroken(cfg: Config, pr: string, w: World, tape: seq<Tick>, valid: bool)
    requires Inv(pr, w) && WorldIn(w, Steady(false, valid)) && TapeIn(tape, Steady(false, valid)) && AtRest(w)
    ensures var v := After1(cfg, pr, w, tape);
            && v.ns == w.ns && PhaseOf(v) in {Inactive, Failed}
            && (PhaseOf(v) == Failed <==> ListErrorLands(Arrive(Start(pr, w, tape))))
  {
    InactiveRoute(cfg, pr, w, tape, valid);
    var s := Start(pr, w, tape);
    EntryBreaks(pr, w, s, w.ns, Reconcile(cfg, pr, s), Arrive(s), Steady(false, valid));
  }
}
