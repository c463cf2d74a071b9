/** Runs from the empty world that show what the theorems cannot do without, each given by its ticks. */
module Cases {
  import opened Types
  import opened Api
  import opened Names
  import opened Conditions
  import opened Handlers
  import opened Invariants
  import opened Staleness
  import opened Reconciling
  import opened Safety
  import opened Convergence
  import opened Expiry
  import opened Scaling
  import opened Undisturbed
  import D = Deploying

  // ---------------------------------------------------------------- ticks of which one knows the effect

  function At(now: int): Tick {
    Tick([], Ok, now, "", [])
  }

  function Ticks(n: nat, now: int): (tape: seq<Tick>)
    ensures |tape| == n && forall i :: 0 <= i < n ==> tape[i] == At(now)
  {
    seq(n, i => At(now))
  }

  lemma CallAt(s: Sys, op: Op, now: int)
    requires s.tape != [] && s.tape[0] == At(now) && s.w.now <= now
    ensures After(s).w == s.w.(now := now) && After(s).tape == s.tape[1..]
    ensures var c := Call(s, op); var e := Exec(s.w.(now := now), op, At(now));
            c.s.w == e.w && c.reply == e.reply && c.s.tape == s.tape[1..]
  {
  }

  /** A user creates a stack, and the operator process dies after its first call. */
  function Creation(spec: Spec): seq<Tick> {
    [Tick([Create(spec, [])], Ok, 0, "", [])]
  }

  function Created(spec: Spec): World {
    Apply(NEW_WORLD, Create(spec, []))
  }

  lemma CreationPass(cfg: Config, pr: string, spec: Spec)
    ensures After1(cfg, pr, NEW_WORLD, Creation(spec)) == Created(spec)
    ensures Created(spec).stack == Some(Stack(spec, NEW_STATUS, [], false, 1, 1)) && Created(spec).now == 0
    ensures Created(spec).meter == NEW_WORLD.meter.(deployWrites := Created(spec).meter.deployWrites)
    ensures Created(spec).ns.None? && Inv(pr, Created(spec))
  {
    var s := Start(pr, NEW_WORLD, Creation(spec));
    var t := Creation(spec)[0];
    assert t.edits[1..] == [];
    assert ApplyAll(NEW_WORLD, t.edits) == Created(spec);
    assert Call(s, GetStack).s.tape == [];
    NewWorldInv(pr);
    StepKeeps(cfg, pr, NEW_WORLD, Creation(spec));
  }

  // ---------------------------------------------------------------- the way to the expiry checks

  /** The ticks a pass takes before its expiry checks. */
  function Approach(st: Stack): nat {
    2 + (if FINALIZER in st.finalizers then 0 else 1) + if st.status.createdAt.Some? then 0 else 1
  }

  /** Where it arrives if all these ticks come at the time `now`. */
  predicate ArrivesAt(w: World, tape: seq<Tick>, at: Arrival, now: int)
    requires w.stack.Some? && |tape| >= Approach(w.stack.value)
  {
    var st := w.stack.value;
    && at.Arrival? && at.now == now && at.s.tape == tape[Approach(st)..]
    && at.s.w.stack == Some(at.st) && at.s.w.now == now && at.s.w.ns == w.ns && at.s.w.meter == w.meter
    && at.st.spec == st.spec && !at.st.deleted
    && at.st.status == if st.status.createdAt.Some? then st.status
                       else st.status.(createdAt := Some(now), lastActiveAt := Some(now))
  }

  lemma HeldArrival(s: Sys, st: Stack, now: int)
    requires s.w.stack == Some(st) && !st.deleted && s.w.now <= now
    requires |s.tape| >= 1 && s.tape[0] == At(now)
    requires st.status.createdAt.None? ==> |s.tape| >= 2 && s.tape[1] == At(now)
    ensures var at := ArriveHeld(Res(s, st, true));
            && at.Arrival? && at.now == now && at.s.tape == s.tape[if st.status.createdAt.Some? then 1 else 2..]
            && at.s.w.stack == Some(at.st) && at.s.w.now == now && at.s.w.ns == s.w.ns && at.s.w.meter == s.w.meter
            && at.st.spec == st.spec && !at.st.deleted
            && at.st.status == if st.status.createdAt.Some? then st.status
                               else st.status.(createdAt := Some(now), lastActiveAt := Some(now))
  {
    CallAt(s, GetStack, now);
    var x := st.(status := st.status.(createdAt := Some(now), lastActiveAt := Some(now)));
    if st.status.createdAt.None? { CallAt(ReadClock(s), PutStatus(x, Plain), now); }
  }

  lemma PassArrives(pr: string, w: World, tape: seq<Tick>, now: int)
    requires w.stack.Some? && !w.stack.value.deleted && w.now <= now && |tape| >= Approach(w.stack.value)
    requires forall i :: 0 <= i < Approach(w.stack.value) ==> tape[i] == At(now)
    ensures ArrivesAt(w, tape, Arrive(Start(pr, w, tape)), now)
  {
    var s, st := Start(pr, w, tape), w.stack.value;
    CallAt(s, GetStack, now);
    var g := Call(s, GetStack).s;
    if FINALIZER in st.finalizers {
      HeldArrival(g, st, now);
    } else {
      CallAt(g, PutStack(st.(finalizers := st.finalizers + [FINALIZER])), now);
      var f := AddFinalizer(g, st);
      HeldArrival(f.s, f.st, now);
    }
  }

  // ---------------------------------------------------------------- expiry

  /** A pass that arrives goes on as the expiry checks decide. */
  lemma Arrived(cfg: Config, pr: string, s: Sys)
    requires Arrive(s).Arrival?
    ensures var at := Arrive(s); Reconcile(cfg, pr, s) == ReconcileExpiry(cfg, pr, at.s, at.st, at.now)
  {
  }

  /** A pass that arrives at the checks at the time `now` and then reads the clock at `reading`. */
  function PassAt(st: Stack, now: int, reading: int, rest: seq<Tick>): seq<Tick> {
    Ticks(Approach(st), now) + ([At(reading)] + rest)
  }

  lemma ReadsAt(pr: string, w: World, now: int, reading: int, rest: seq<Tick>)
    requires w.stack.Some? && !w.stack.value.deleted && w.now <= now <= reading
    ensures var tape := PassAt(w.stack.value, now, reading, rest); var at := Arrive(Start(pr, w, tape));
            ArrivesAt(w, tape, at, now) && ReadClock(at.s).w == at.s.w.(now := reading) && ReadClock(at.s).tape == rest
  {
    var tape := PassAt(w.stack.value, now, reading, rest);
    PassArrives(pr, w, tape, now);
    var at := Arrive(Start(pr, w, tape));
    assert at.s.tape == [At(reading)] + rest && ([At(reading)] + rest)[1..] == rest;
    CallAt(at.s, GetStack, reading);
  }

  lemma TwoPasses(cfg: Config, pr: string, a: seq<Tick>, b: seq<Tick>)
    ensures Reached(cfg, pr, [a, b]) == After1(cfg, pr, After1(cfg, pr, NEW_WORLD, a), b)
  {
    var w := After1(cfg, pr, NEW_WORLD, a);
    assert [a, b][1..] == [b] && [b][1..] == [];
    assert Run(cfg, pr, w, [b]) == After1(cfg, pr, w, b);
  }

  /** The pass after the creation of a stack. */
  function FirstPass(spec: Spec, now: int, reading: int, rest: seq<Tick>): seq<Tick> {
    PassAt(Stack(spec, NEW_STATUS, [], false, 1, 1), now, reading, rest)
  }

  /** From its arrival on. */
  lemma HourPasses(cfg: Config, pr: string, s: Sys, st: Stack, now: int, second: int)
    requires ReadClock(s).w.stack == Some(st) && !st.deleted && st.spec.active && st.status.phase != Inactive
    requires ReadClock(s).tape == [At(second), At(second)] && ReadClock(s).w.now <= second
    requires st.status.lastActiveAt.Some? && !IsExpired(st, ReadClock(s).w.now) && IsExpired(st, second)
    ensures var r := ReconcileExpiry(cfg, pr, s, st, now);
            Fires(s, st) && r.w.stack.Some? && !r.w.stack.value.spec.active
  {
    CallAt(ReadClock(s), GetStack, second);
    CallAt(ReadClock(ReadClock(s)), PutStack(Deactivated(st)), second);
  }

  /** The hour passes between the two readings of a pass: the operator turns off the stack, although the pass did not find
      it expired when it looked first. */
  lemma BoundaryDeactivates(cfg: Config, pr: string, spec: Spec, created: nat, first: int, second: int)
    requires spec.active && created <= first <= created + EXPIRATION < second
    ensures var w := Reached(cfg, pr, [Creation(spec), FirstPass(spec, created, first, [At(second), At(second)])]);
            w.meter.expiries == 1 && w.stack.Some? && !w.stack.value.spec.active
  {
    var w, tape := Created(spec), FirstPass(spec, created, first, [At(second), At(second)]);
    CreationPass(cfg, pr, spec);
    TwoPasses(cfg, pr, Creation(spec), tape);
    ReadsAt(pr, w, created, first, [At(second), At(second)]);
    Arrived(cfg, pr, Start(pr, w, tape));
    var at := Arrive(Start(pr, w, tape));
    HourPasses(cfg, pr, at.s, at.st, at.now, second);
    PassHistory(cfg, pr, w, tape);
  }

  // ---------------------------------------------------------------- renewals

  /** The call is done, but its reply is lost. */
  function Late(now: int): Tick {
    Tick([], Lost, now, "", [])
  }

  lemma RenewedLate(cfg: Config, pr: string, s: Sys, st: Stack, now: int, reading: int)
    requires ReadClock(s).w.stack == Some(st) && st.spec.active && st.status.phase != Inactive
    requires ReadClock(s).w.now == reading && ReadClock(s).tape == [Late(reading)] && IsExpired(st, reading)
    ensures var v := ReconcileExpiry(cfg, pr, s, st, now).w;
            && v.stack == Some(st.(status := st.status.(lastActiveAt := Some(now)), version := v.rv)) && v.now == reading
            && v.meter.renewals == ReadClock(s).w.meter.renewals + [Renewal(now, reading)]
  {
    assert After(ReadClock(s)).w == ReadClock(s).w;
  }

  /** An active stack that was last active at `active`, or is seen for the first time. */
  predicate ActiveAt(w: World, active: int) {
    && w.stack.Some? && !w.stack.value.deleted && w.stack.value.spec.active && w.stack.value.status.phase == Initialization
    && (w.stack.value.status.createdAt.Some? ==> w.stack.value.status.lastActiveAt == Some(active))
  }

  /** A pass that finds it expired renews its activity. */
  lemma RenewingPass(cfg: Config, pr: string, w: World, active: int, now: int, reading: int)
    requires ActiveAt(w, active) && w.now <= now <= reading && active + EXPIRATION < reading
    requires w.stack.value.status.createdAt.None? ==> now + EXPIRATION < reading
    ensures var v := After1(cfg, pr, w, PassAt(w.stack.value, now, reading, [Late(reading)]));
            && ActiveAt(v, now) && v.stack.value.status.createdAt.Some? && v.now == reading
            && v.meter.renewals == w.meter.renewals + [Renewal(now, reading)]
  {
    var tape := PassAt(w.stack.value, now, reading, [Late(reading)]);
    ReadsAt(pr, w, now, reading, [Late(reading)]);
    Arrived(cfg, pr, Start(pr, w, tape));
    var at := Arrive(Start(pr, w, tape));
    RenewedLate(cfg, pr, at.s, at.st, now, reading);
  }

  lemma ThreePasses(cfg: Config, pr: string, a: seq<Tick>, b: seq<Tick>, c: seq<Tick>)
    ensures Reached(cfg, pr, [a, b, c]) == After1(cfg, pr, After1(cfg, pr, After1(cfg, pr, NEW_WORLD, a), b), c)
  {
    var w := After1(cfg, pr, NEW_WORLD, a);
    assert [a, b, c][1..] == [b, c] && [b, c][1..] == [c] && [c][1..] == [];
    assert Run(cfg, pr, w, [b, c]) == Run(cfg, pr, After1(cfg, pr, w, b), [c]);
  }

  /** Another one, a second after the pass that made the first. */
  lemma RenewingAgain(cfg: Config, pr: string, v: World, now: int) returns (b: seq<Tick>)
    requires ActiveAt(v, 0) && v.stack.value.status.createdAt.Some? && v.now == now == EXPIRATION + 1
    ensures After1(cfg, pr, v, b).meter.renewals == v.meter.renewals + [Renewal(now, now + 1)]
  {
    RenewingPass(cfg, pr, v, 0, now, now + 1);
    b := PassAt(v.stack.value, now, now + 1, [Late(now + 1)]);
  }

  lemma RenewingTwice(cfg: Config, pr: string, w: World) returns (a: seq<Tick>, b: seq<Tick>)
    requires ActiveAt(w, 0) && w.stack.value.status.createdAt.None? && w.now == 0 && w.meter.renewals == []
    ensures After1(cfg, pr, After1(cfg, pr, w, a), b).meter.renewals ==
            [Renewal(0, EXPIRATION + 1), Renewal(EXPIRATION + 1, EXPIRATION + 2)]
  {
    var hour := EXPIRATION + 1;
    RenewingPass(cfg, pr, w, 0, 0, hour);
    a := PassAt(w.stack.value, 0, hour, [Late(hour)]);
    b := RenewingAgain(cfg, pr, After1(cfg, pr, w, a), hour);
  }

  /** The smaller bound on renewals needs its premise: if a pass takes an hour between its readings, two renewals can follow
      each other within one second. */
  lemma TwoReadingsRenewTwice(cfg: Config, pr: string, spec: Spec) returns (tapes: seq<seq<Tick>>)
    requires spec.active
    ensures var renewals := Reached(cfg, pr, tapes).meter.renewals;
            && |renewals| == 2 && renewals[1].read - renewals[0].read == 1
            && |renewals| > (renewals[1].read - renewals[0].read) / EXPIRATION + 1
  {
    CreationPass(cfg, pr, spec);
    var a, b := RenewingTwice(cfg, pr, Created(spec));
    tapes := [Creation(spec), a, b];
    ThreePasses(cfg, pr, tapes[0], tapes[1], tapes[2]);
  }

  // ---------------------------------------------------------------- rest

  /** At the approach everything goes well; after three clock readings the List fails, and the error is written. */
  function BreakingPass(st: Stack, now: int): seq<Tick> {
    Ticks(Approach(st), now) + (Ticks(3, now) + [At(now).(outcome := Fail), At(now)])
  }

  lemma ListFails(s: Sys, st: Stack, now: int)
    requires s.w.stack == Some(st) && s.w.now == now && s.tape == [At(now).(outcome := Fail), At(now)]
    ensures var l := Call(s, ListDeployments); !l.reply.Items? && Lands(l.s, st)
  {
    var l := Call(s, ListDeployments);
    assert l.s.w == s.w && l.s.tape == [At(now)];
    CallAt(l.s, GetStack, now);
  }

  lemma EntryFails(s: Sys, st: Stack, now: int)
    requires s.w.stack == Some(st) && s.w.now == now
    requires s.tape == Ticks(3, now) + [At(now).(outcome := Fail), At(now)]
    ensures ListErrorLands(Arrival(s, st, now))
  {
    var a, b, c := ReadClock(s), EntryState(s), ReadClock(EntryState(s));
    CallAt(s, GetStack, now);
    CallAt(a, GetStack, now);
    CallAt(b, GetStack, now);
    assert c.w == s.w && c.tape == [At(now).(outcome := Fail), At(now)];
    ListFails(c, st, now);
  }

  lemma BreakingEntry(pr: string, w: World)
    requires w.stack.Some? && !w.stack.value.deleted
    ensures ListErrorLands(Arrive(Start(pr, w, BreakingPass(w.stack.value, w.now))))
  {
    var tape := BreakingPass(w.stack.value, w.now);
    PassArrives(pr, w, tape, w.now);
    var at := Arrive(Start(pr, w, tape));
    assert at.s.tape == Ticks(3, w.now) + [At(w.now).(outcome := Fail), At(w.now)];
    EntryFails(at.s, at.st, w.now);
  }

  lemma BreakingTape(st: Stack, now: int, mode: Mode)
    ensures TapeIn(BreakingPass(st, now), mode)
  {
    var tape := BreakingPass(st, now);
    assert forall i :: 0 <= i < |tape| ==> tape[i].edits == [];
  }

  /** One failed List breaks the rest of any stack, in any state at rest that can be reached. */
  lemma RestCanBreak(cfg: Config, pr: string, past: seq<seq<Tick>>, w: World)
    requires w == Reached(cfg, pr, past) && WorldIn(w, Steady(false, false)) && AtRest(w)
    ensures PhaseIs(After1(cfg, pr, w, BreakingPass(w.stack.value, w.now)), Failed)
  {
    Reachable(cfg, pr, past);
    BreakingEntry(pr, w);
    BreakingTape(w.stack.value, w.now, Steady(false, false));
    RestBroken(cfg, pr, w, BreakingPass(w.stack.value, w.now), false);
  }

  // ---------------------------------------------------------------- undisturbed runs

  lemma {:induction false} HasListing(names: set<string>) returns (order: seq<string>)
    ensures IsListing(order, names)
    decreases |names|
  {
    if names == {} {
      order := [];
    } else {
      var x :| x in names;
      var rest := HasListing(names - {x});
      order := [x] + rest;
    }
  }

  /** Ticks in which time stands still and every List is complete. */
  predicate Still(s: Sys) {
    Smooth(s.tape) && forall i :: 0 <= i < |s.tape| ==> s.tape[i].now == s.w.now
  }

  lemma StillCall(s: Sys, op: Op)
    requires Still(s)
    ensures After(s).w == s.w && Still(After(s)) && Still(Call(s, op).s) && Call(s, op).s.w.now == s.w.now
  {
    if s.tape != [] { SmoothCall(s, op); }
  }

  lemma StillHeld(f: Res)
    requires Still(f.s)
    ensures var at := ArriveHeld(f); at.Arrival? ==> Still(at.s)
  {
    if f.ok {
      StillCall(f.s, GetStack);
      var clock := ReadClock(f.s);
      var x := f.st.(status := f.st.status.(createdAt := Some(clock.w.now), lastActiveAt := Some(clock.w.now)));
      StillCall(clock, PutStatus(x, Plain));
    }
  }

  lemma StillNeverCrosses(pr: string, w: World, tape: seq<Tick>)
    requires Still(Start(pr, w, tape))
    ensures !Crosses(pr, w, tape)
  {
    var s := Start(pr, w, tape);
    StillCall(s, GetStack);
    var g := Call(s, GetStack);
    if g.reply.Found? && !g.reply.st.deleted {
      var st := g.reply.st;
      StillCall(g.s, PutStack(st.(finalizers := st.finalizers + [FINALIZER])));
      StillHeld(AddFinalizer(g.s, st));
      var at := Arrive(s);
      if at.Arrival? {
        StillCall(at.s, GetStack);
        StillCall(ReadClock(at.s), GetStack);
      }
    }
  }

  /** Every pass can be undisturbed. */
  lemma QuietTape(pr: string, w: World) returns (tape: seq<Tick>)
    requires w.stack.Some?
    ensures Quiet(w, tape) && !Crosses(pr, w, tape)
  {
    var order := HasListing(if w.ns.Some? then w.ns.value.deployments.Keys else {});
    tape := seq(Budget(w.ns, w.stack.value.spec), i => Tick([], Ok, w.now, "", order));
    StillNeverCrosses(pr, w, tape);
  }

  /** Some stack comes to rest: one undisturbed pass is enough. */
  lemma RestHappens(cfg: Config, pr: string, spec: Spec) returns (tape: seq<Tick>)
    requires !spec.active
    ensures var w := Reached(cfg, pr, [Creation(spec), tape]); AtRest(w) && WorldIn(w, Steady(false, false))
  {
    CreationPass(cfg, pr, spec);
    var w := Created(spec);
    tape := QuietTape(pr, w);
    TwoPasses(cfg, pr, Creation(spec), tape);
    EasyPass(cfg, pr, w, tape);
    var order, k := ScaleDownStep(cfg, pr, w, tape, false);
  }

  /** Undisturbed runs of any length, from any state of an active stack. */
  lemma {:induction false} QuietTapes(cfg: Config, pr: string, w: World, n: nat) returns (tapes: seq<seq<Tick>>)
    requires Inv(pr, w) && WorldIn(w, Steady(true, false))
    ensures |tapes| == n && QuietRun(cfg, pr, w, tapes)
    decreases n
  {
    tapes := [];
    if n > 0 {
      var tape := QuietTape(pr, w);
      UndisturbedPass(cfg, pr, w, tape, false);
      var rest := QuietTapes(cfg, pr, After1(cfg, pr, w, tape), n - 1);
      tapes := [tape] + rest;
      assert tapes[1..] == rest;
    }
  }

  /** A pass that crashes over its limits without a failed call. */
  ghost predicate Stuck(cfg: Config, pr: string, w: World, tape: seq<Tick>) {
    var s := Start(pr, w, tape);
    var r := Reconcile(cfg, pr, s);
    PhaseIs(w, Phase.Deploying) && Quiet(w, tape) && Clean(s, r) && r.crashed && PhaseIs(r.w, Phase.Deploying)
  }

  lemma StuckPass(cfg: Config, pr: string, w: World) returns (tape: seq<Tick>)
    requires Inv(pr, w) && WorldIn(w, Steady(true, false)) && PhaseIs(w, Phase.Deploying) && D.Stalls(w.stack.value.spec)
    ensures Stuck(cfg, pr, w, tape)
  {
    tape := QuietTape(pr, w);
    UndisturbedPass(cfg, pr, w, tape, false);
    ActivationStep(cfg, pr, w, tape, false);
  }

  lemma StallReached(cfg: Config, pr: string, w: World) returns (tapes: seq<seq<Tick>>)
    requires Inv(pr, w) && WorldIn(w, Steady(true, false)) && PhaseIs(w, Initialization) && D.Stalls(w.stack.value.spec)
    ensures var v := Run(cfg, pr, w, tapes);
            && Inv(pr, v) && WorldIn(v, Steady(true, false)) && PhaseIs(v, Phase.Deploying)
            && D.Stalls(v.stack.value.spec)
  {
    tapes := QuietTapes(cfg, pr, w, 2);
    UndisturbedIsClean(cfg, pr, w, tapes, false);
    StalledNeverSettles(cfg, pr, w, tapes);
    ActiveEnd(cfg, pr, w, tapes, false);
  }

  /** Every stack whose limits are all that does not parse gets stuck: undisturbed passes from its creation bring it to
      Deploying, where the next one crashes. */
  lemma StallHappens(cfg: Config, pr: string, spec: Spec) returns (past: seq<seq<Tick>>, tape: seq<Tick>)
    requires spec.active && D.Stalls(spec)
    ensures Stuck(cfg, pr, Reached(cfg, pr, past), tape)
  {
    CreationPass(cfg, pr, spec);
    var tapes := StallReached(cfg, pr, Created(spec));
    past := [Creation(spec)] + tapes;
    assert past[1..] == tapes;
    tape := StuckPass(cfg, pr, Run(cfg, pr, Created(spec), tapes));
  }

  /** And every stack with a valid spec can come to Running. */
  lemma SuccessHappens(cfg: Config, pr: string, spec: Spec) returns (tapes: seq<seq<Tick>>)
    requires spec.active && ValidSpec(spec)
    ensures PhaseIs(Reached(cfg, pr, [Creation(spec)] + tapes), Running)
  {
    CreationPass(cfg, pr, spec);
    tapes := QuietTapes(cfg, pr, Created(spec), 3);
    assert [Creation(spec)][1..] == [] && ([Creation(spec)] + tapes)[1..] == tapes;
    assert Reached(cfg, pr, [Creation(spec)]) == Run(cfg, pr, Created(spec), []);
    UndisturbedSucceeds(cfg, pr, [Creation(spec)], Created(spec), tapes);
  }
}
