/** Status conditions: `setCondition` as an update of an ordered map from condition kinds. */
module Conditions {
  import opened Types

  const READY := "Ready"
  const DEGRADED := "Degraded"
  const PROGRESSING := "Progressing"

  /** The first position holding a condition of this kind, or the length of the list. */
  function IndexOf(cs: seq<Condition>, kind: string): (i: nat)
    ensures i <= |cs|
    ensures i < |cs| ==> cs[i].kind == kind
    ensures forall j :: 0 <= j < i ==> cs[j].kind != kind
  {
    if cs == [] then 0 else if cs[0].kind == kind then 0 else 1 + IndexOf(cs[1..], kind)
  }

  function Stamped(prior: Condition, c: Condition, now: int): Condition {
    c.(time := if prior.status != c.status || prior.reason != c.reason then now else prior.time)
  }

  function SetCond(cs: seq<Condition>, c: Condition, now: int): seq<Condition> {
    var i := IndexOf(cs, c.kind);
    if i < |cs| then cs[i := Stamped(cs[i], c, now)] else cs + [c]
  }

  predicate Distinct(cs: seq<Condition>) {
    forall i, j :: 0 <= i < j < |cs| ==> cs[i].kind != cs[j].kind
  }

  predicate TimedBy(cs: seq<Condition>, now: int) {
    forall i :: 0 <= i < |cs| ==> cs[i].time <= now
  }

  function Kinds(cs: seq<Condition>): (kinds: seq<string>)
    ensures |kinds| == |cs|
    ensures forall i :: 0 <= i < |cs| ==> kinds[i] == cs[i].kind
  {
    seq(|cs|, i requires 0 <= i < |cs| => cs[i].kind)
  }

  function Lookup(cs: seq<Condition>, kind: string): Option<Condition> {
    var i := IndexOf(cs, kind);
    if i < |cs| then Some(cs[i]) else None
  }

  predicate Is(cs: seq<Condition>, kind: string, status: bool) {
    Lookup(cs, kind).Some? && Lookup(cs, kind).value.status == status
  }

  lemma IndexIs(cs: seq<Condition>, kind: string, i: nat)
    requires i < |cs| && cs[i].kind == kind && forall j :: 0 <= j < i ==> cs[j].kind != kind
    ensures IndexOf(cs, kind) == i
  {
  }

  lemma IndexMissing(cs: seq<Condition>, kind: string)
    requires forall j :: 0 <= j < |cs| ==> cs[j].kind != kind
    ensures IndexOf(cs, kind) == |cs|
  {
  }

  /** One call is a map update: the entry of its own kind is replaced, all others stay, kinds stay distinct and in
      the order in which they first came, and the transition time only moves when status or reason change. */
  lemma SetCondIsMapUpdate(cs: seq<Condition>, c: Condition, now: int, kind: string)
    requires Distinct(cs)
    ensures Distinct(SetCond(cs, c, now))
    ensures Kinds(SetCond(cs, c, now)) == if c.kind in Kinds(cs) then Kinds(cs) else Kinds(cs) + [c.kind]
    ensures Lookup(SetCond(cs, c, now), kind) ==
            if kind != c.kind then Lookup(cs, kind)
            else Some(if Lookup(cs, kind).Some? then Stamped(Lookup(cs, kind).value, c, now) else c)
  {
    var r := SetCond(cs, c, now);
    var i, k := IndexOf(cs, c.kind), IndexOf(cs, kind);
    if i < |cs| {
      assert Kinds(cs)[i] == c.kind;
      forall j | 0 <= j < |cs| ensures r[j].kind == cs[j].kind {}
      if k < |cs| { IndexIs(r, kind, k); } else { IndexMissing(r, kind); }
    } else {
      assert c.kind !in Kinds(cs);
      if kind == c.kind { IndexIs(r, kind, |cs|); }
      else if k < |cs| { IndexIs(r, kind, k); }
      else { IndexMissing(r, kind); }
    }
  }

  lemma SetCondTimes(cs: seq<Condition>, c: Condition, now: int)
    requires TimedBy(cs, now) && c.time <= now
    ensures TimedBy(SetCond(cs, c, now), now)
  {
  }

  // ---------------------------------------------------------------- runs of calls

  /** A call of `setCondition`: the condition, with the time its caller put in, and the clock read inside. */
  datatype Setting = Setting(c: Condition, now: int)

  function RunSettings(cs: seq<Condition>, run: seq<Setting>): seq<Condition>
    decreases |run|
  {
    if run == [] then cs
    else RunSettings(SetCond(cs, run[0].c, run[0].now), run[1..])
  }

  /** The kinds of a list of calls, each at its first appearance after those in `seen`. */
  function FirstKinds(seen: seq<string>, run: seq<Setting>): seq<string>
    decreases |run|
  {
    if run == [] then seen
    else FirstKinds(if run[0].c.kind in seen then seen else seen + [run[0].c.kind], run[1..])
  }

  predicate ClockRuns(from: int, run: seq<Setting>)
    decreases |run|
  {
    run == [] || (from <= run[0].c.time <= run[0].now && ClockRuns(run[0].now, run[1..]))
  }

  /** Over any run of calls on a monotone clock: kinds stay distinct, in order of first appearance, and the
      transition time of a kind never goes back. */
  lemma {:induction false} RunOfSettings(cs: seq<Condition>, run: seq<Setting>, from: int, kind: string)
    requires Distinct(cs) && TimedBy(cs, from) && ClockRuns(from, run)
    ensures Distinct(RunSettings(cs, run))
    ensures Kinds(RunSettings(cs, run)) == FirstKinds(Kinds(cs), run)
    ensures Lookup(cs, kind).Some? ==>
              && Lookup(RunSettings(cs, run), kind).Some?
              && Lookup(cs, kind).value.time <= Lookup(RunSettings(cs, run), kind).value.time
    ensures (forall i :: 0 <= i < |run| ==> run[i].c.kind != kind) ==>
              Lookup(RunSettings(cs, run), kind) == Lookup(cs, kind)
    decreases |run|
  {
    if run != [] {
      var c, now := run[0].c, run[0].now;
      SetCondIsMapUpdate(cs, c, now, kind);
      SetCondTimes(cs, c, now);
      RunOfSettings(SetCond(cs, c, now), run[1..], now, kind);
    }
  }
}
