/** The API server and MongoDB as one PR sees them, and the faults between them and the operator.

    `World` is what exists for one PR. Every call the operator makes consumes one `Tick`: first the users' steps
    that happened since the previous call, then the fate of the call. When the ticks run out the process has died:
    all later calls fail and change nothing, so the runs on all finite tapes include a crash between any two calls. */
module Api {
  import opened Types
  import opened Names

  // ---------------------------------------------------------------- history

  /** What a status write records in the history: nothing, a completed rollout, or an expiry renewal
      (`at` is the time stored, `read` the clock reading that found the stack expired). */
  datatype Note = Plain | RolledOut | Renewed(at: int, read: int)

  datatype Renewal = Renewal(at: int, read: int)

  /** History of one PR. `unfinished` counts the rollouts recorded as complete while a deployment did not carry the
      annotation of the current `DeployedAt`. `nsSwallowed` and `dropSwallowed` latch the two errors cleanup swallows, until the
      namespace or the user is really gone. */
  datatype Meter = Meter(
    deployWrites: nat,
    rollouts: nat,
    unfinished: nat,
    expiries: nat,
    renewals: seq<Renewal>,
    nsSwallowed: bool,
    dropSwallowed: bool)

  datatype World = World(
    stack: Option<Stack>,
    ns: Option<Namespace>,
    user: Option<MongoUser>,
    dbs: set<string>,
    rv: nat,
    now: int,
    meter: Meter)

  const NEW_WORLD := World(None, None, None, {}, 0, 0, Meter(0, 0, 0, 0, [], false, false))

  // ---------------------------------------------------------------- the users

  datatype Edit =
    | EditSpec(spec: Spec)
    | Delete
    | Create(spec: Spec, foreign: seq<string>)
    | Release(finalizer: string)  // the owner of a foreign finalizer removes it

  /** A deleted object disappears once no finalizer is left. */
  function Settled(st: Stack): Option<Stack> {
    if st.deleted && st.finalizers == [] then None else Some(st)
  }

  function Touch(w: World, st: Stack): World {
    w.(stack := Settled(st.(version := w.rv + 1)), rv := w.rv + 1)
  }

  function CountWrite(w: World, before: Option<int>, after: Option<int>): World {
    if before == after then w else w.(meter := w.meter.(deployWrites := w.meter.deployWrites + 1))
  }

  /** The users' steps. They write neither the status nor the operator's finalizer. */
  function Apply(w: World, e: Edit): World {
    match e
    case EditSpec(spec) =>
      if w.stack.None? then w
      else CountWrite(Touch(w, w.stack.value.(spec := spec)), w.stack.value.spec.deployedAt, spec.deployedAt)
    case Delete =>
      if w.stack.None? || w.stack.value.deleted then w else Touch(w, w.stack.value.(deleted := true))
    case Create(spec, foreign) =>
      if w.stack.Some? || FINALIZER in foreign then w
      else CountWrite(Touch(w, Stack(spec, NEW_STATUS, foreign, false, 0, w.rv + 1)), None, spec.deployedAt)
    case Release(f) =>
      if w.stack.None? || f == FINALIZER || f !in w.stack.value.finalizers then w
      else Touch(w, w.stack.value.(finalizers := RemoveString(w.stack.value.finalizers, f)))
  }

  function ApplyAll(w: World, edits: seq<Edit>): World
    decreases |edits|
  {
    if edits == [] then w else ApplyAll(Apply(w, edits[0]), edits[1..])
  }

  // ---------------------------------------------------------------- the tape of ticks

  /** The fate of a call: done, failed without effect, or done but reported as failed. */
  datatype Outcome = Ok | Fail | Lost

  /** `draw` is the password drawn if the call draws one; `order` is the order in which a List call returns. */
  datatype Tick = Tick(edits: seq<Edit>, outcome: Outcome, now: int, draw: string, order: seq<string>)

  const DEAD := Tick([], Fail, 0, "", [])

  /** What a process has met: a tick (time and users' steps), or a call with the tick that decided its fate. */
  datatype Entry = Passed(tick: Tick) | Asked(op: Op, tick: Tick, reply: Reply)

  /** The PR a process works for, and the world in which it began. */
  datatype Origin = Origin(pr: string, w: World)

  /** One running operator process: the world, the ticks to come, the failed calls so far. `panicked` is set
      by a nil dereference, `crashed` by a quantity that does not parse (`resource.MustParse`). `log` is what the
      process has met since it began. */
  datatype Sys = Sys(
    w: World,
    tape: seq<Tick>,
    faults: nat,
    conflicts: nat,
    panicked: bool,
    crashed: bool,
    origin: Origin,
    log: seq<Entry>)

  function Elapse(w: World, t: Tick): World {
    ApplyAll(w.(now := if t.now > w.now then t.now else w.now), t.edits)
  }

  function Head(s: Sys): Tick {
    if s.tape == [] then DEAD else s.tape[0]
  }

  // ---------------------------------------------------------------- the calls

  datatype Op =
    | GetStack
    | PutStack(st: Stack)
    | PutStatus(st: Stack, note: Note)
    | GetNs(cleaning: bool)
    | CreateNs
    | DeleteNs
    | Ping
    | Draw
    | DropUser(cleaning: bool)
    | CreateUser(user: MongoUser)
    | MakeDb(name: string)
    | DropDb(name: string)
    | CreateObj(m: Manifest)
    | UpdateObj(m: Manifest)
    | GetObj(ref: Ref)
    | DeleteObj(ref: Ref)
    | ListDeployments

  datatype Item = Item(name: string, deployment: Deployment)

  datatype Reply =
    | Done
    | Found(st: Stack)
    | Password(password: string)
    | Items(items: seq<Item>)
    | NotFound
    | Exists
    | Conflict
    | Failure
  {
    predicate Error() {
      NotFound? || Exists? || Conflict? || Failure?
    }
  }

  datatype Effect = Effect(w: World, reply: Reply)

  predicate Current(w: World, st: Stack) {
    w.stack.Some? && w.stack.value.version == st.version
  }

  /** Every deployment of the namespace carries the restart annotation `at`. */
  predicate AllRestarted(ns: Option<Namespace>, at: Option<int>) {
    ns.Some? ==> forall name :: name in ns.value.deployments ==> ns.value.deployments[name].restartedAt == at
  }

  predicate RolledOutFully(w: World, st: Stack) {
    w.stack.Some? && st.status.lastDeployedAt == w.stack.value.spec.deployedAt && AllRestarted(w.ns, st.status.lastDeployedAt)
  }

  function Record(w: World, st: Stack, note: Note): Meter {
    match note
    case Plain => w.meter
    case RolledOut =>
      w.meter.(rollouts := w.meter.rollouts + 1,
               unfinished := w.meter.unfinished + if RolledOutFully(w, st) then 0 else 1)
    case Renewed(at, read) => w.meter.(renewals := w.meter.renewals + [Renewal(at, read)])
  }

  /** `order` lists every name of the namespace's deployments once. */
  predicate IsListing(order: seq<string>, names: set<string>) {
    && |order| == |names|
    && (forall x :: x in order ==> x in names)
    && (forall x :: x in names ==> x in order)
  }

  function Listed(deployments: map<string, Deployment>, order: seq<string>): seq<Item>
    requires IsListing(order, deployments.Keys)
  {
    seq(|order|, i requires 0 <= i < |order| => Item(order[i], deployments[order[i]]))
  }

  /** A List, in the order of the tick; an order that does not fit counts as a failed call. */
  function ListReply(ns: Option<Namespace>, order: seq<string>): Reply {
    if ns.None? then Items([])
    else if IsListing(order, ns.value.deployments.Keys) then Items(Listed(ns.value.deployments, order))
    else Failure
  }

  /** What the server does when a call reaches it. */
  function Exec(w: World, op: Op, t: Tick): Effect {
    match op
    case GetStack =>
      if w.stack.None? then Effect(w, NotFound) else Effect(w, Found(w.stack.value))
    case PutStack(st) =>
      if w.stack.None? then Effect(w, NotFound)
      else if !Current(w, st) then Effect(w, Conflict)
      else
        var was := w.stack.value;
        var next := was.(spec := st.spec, finalizers := st.finalizers, version := w.rv + 1);
        var deactivates := was.spec.active && !st.spec.active;
        Effect(Touch(w, next).(meter := w.meter.(expiries := w.meter.expiries + if deactivates then 1 else 0)), Found(next))
    case PutStatus(st, note) =>
      if w.stack.None? then Effect(w, NotFound)
      else if !Current(w, st) then Effect(w, Conflict)
      else
        var next := w.stack.value.(status := st.status, version := w.rv + 1);
        Effect(w.(stack := Some(next), rv := w.rv + 1, meter := Record(w, st, note)), Found(next))
    case GetNs(_) => Effect(w, if w.ns.Some? then Done else NotFound)
    case CreateNs =>
      if w.ns.Some? then Effect(w, Exists) else Effect(w.(ns := Some(EMPTY_NAMESPACE)), Done)
    case DeleteNs =>
      if w.ns.None? then Effect(w, NotFound)
      else Effect(w.(ns := None, meter := w.meter.(nsSwallowed := false)), Done)
    case Ping => Effect(w, Done)
    case Draw => Effect(w, Password(t.draw))
    case DropUser(_) =>
      if w.user.None? then Effect(w, NotFound)
      else Effect(w.(user := None, meter := w.meter.(dropSwallowed := false)), Done)
    case CreateUser(user) =>
      if w.user.Some? then Effect(w, Exists) else Effect(w.(user := Some(user)), Done)
    case MakeDb(name) => Effect(w.(dbs := w.dbs + {name}), Done)
    case DropDb(name) => Effect(w.(dbs := w.dbs - {name}), Done)
    case CreateObj(m) =>
      if w.ns.None? then Effect(w, NotFound)
      else if Has(w.ns.value, m.Ref()) then Effect(w, Exists)
      else Effect(w.(ns := Some(Put(w.ns.value, m))), Done)
    case UpdateObj(m) =>
      if w.ns.None? || !Has(w.ns.value, m.Ref()) then Effect(w, NotFound)
      else Effect(w.(ns := Some(Put(w.ns.value, m))), Done)
    case GetObj(ref) =>
      Effect(w, if w.ns.Some? && Has(w.ns.value, ref) then Done else NotFound)
    case DeleteObj(ref) =>
      if w.ns.None? || !Has(w.ns.value, ref) then Effect(w, NotFound)
      else Effect(w.(ns := Some(Remove(w.ns.value, ref))), Done)
    case ListDeployments =>
      Effect(w, ListReply(w.ns, t.order))
  }

  /** The two errors that cleanup swallows leave their mark in the history. */
  function Swallow(w: World, op: Op): World {
    if op == GetNs(true) && w.ns.Some? then w.(meter := w.meter.(nsSwallowed := true))
    else if op == DropUser(true) && w.user.Some? then w.(meter := w.meter.(dropSwallowed := true))
    else w
  }

  /** A reply that makes the call a failed one; the absent object of a Get, the existing object of a Create
      and the absent user of a dropUser are answers, not failures. */
  predicate Broken(op: Op, reply: Reply) {
    match op
    case GetStack => reply.Failure?
    case GetNs(_) => reply.Failure?
    case GetObj(_) => reply.Failure?
    case CreateObj(_) => reply.NotFound? || reply.Failure?
    case DropUser(_) => reply.Failure?
    case _ => reply.Error()
  }

  predicate WritesStack(op: Op) {
    op.PutStack? || op.PutStatus?
  }

  /** What becomes of a call whose tick has been taken. */
  function Serve(w: World, op: Op, t: Tick): Effect {
    if t.outcome.Fail? then Effect(Swallow(w, op), Failure)
    else
      var e := Exec(w, op, t);
      if t.outcome.Lost? then Effect(Swallow(e.w, op), Failure) else e
  }

  // ---------------------------------------------------------------- logs

  /** What a log makes of a world, and the replies its calls get. */
  datatype Course = Course(w: World, replies: seq<Reply>)

  function Meet(c: Course, e: Entry): Course {
    match e
    case Passed(t) => Course(Elapse(c.w, t), c.replies)
    case Asked(op, t, _) => var f := Serve(c.w, op, t); Course(f.w, c.replies + [f.reply])
  }

  function Replay(w: World, log: seq<Entry>): Course
    decreases |log|
  {
    if log == [] then Course(w, []) else Meet(Replay(w, log[..|log| - 1]), log[|log| - 1])
  }

  function RepliesIn(log: seq<Entry>): seq<Reply>
    decreases |log|
  {
    if log == [] then []
    else
      var last := log[|log| - 1];
      RepliesIn(log[..|log| - 1]) + if last.Asked? then [last.reply] else []
  }

  /** The only databases a call names are those of its PR. */
  predicate Within(pr: string, op: Op) {
    op.MakeDb? || op.DropDb? ==> op.name in Touched(pr)
  }

  datatype Account = StoreAccount | ReplyAccount | NameAccount

  ghost predicate Accounts(a: Account, from: Origin, log: seq<Entry>, w: World) {
    match a
    case StoreAccount => Replay(from.w, log).w == w
    case ReplyAccount => Replay(from.w, log).replies == RepliesIn(log)
    case NameAccount => forall i :: 0 <= i < |log| && log[i].Asked? ==> Within(from.pr, log[i].op)
  }

  /** The log accounts for the world, for the replies in it, and for the names it uses. One quantifier, so that functions
      which only pass it on need not look inside; `FaithfulFacts` opens it. */
  ghost predicate Faithful(s: Sys) {
    forall a: Account :: Accounts(a, s.origin, s.log, s.w)
  }

  lemma FaithfulFacts(s: Sys)
    requires Faithful(s)
    ensures Replay(s.origin.w, s.log) == Course(s.w, RepliesIn(s.log))
    ensures forall i :: 0 <= i < |s.log| && s.log[i].Asked? ==> Within(s.origin.pr, s.log[i].op)
  {
    assert Accounts(StoreAccount, s.origin, s.log, s.w);
    assert Accounts(ReplyAccount, s.origin, s.log, s.w);
    assert Accounts(NameAccount, s.origin, s.log, s.w);
  }

  /** A process that goes on by one entry stays accounted for. */
  lemma LogGrows(s: Sys, r: Sys, e: Entry)
    requires r.origin == s.origin && r.log == s.log + [e] && r.w == Meet(Course(s.w, []), e).w
    requires e.Asked? ==> e.reply == Serve(s.w, e.op, e.tick).reply
    ensures Faithful(s) && (e.Asked? ==> Within(s.origin.pr, e.op)) ==> Faithful(r)
  {
    assert r.log[..|r.log| - 1] == s.log && r.log[|r.log| - 1] == e;
    if Faithful(s) {
      FaithfulFacts(s);
      assert Replay(r.origin.w, r.log) == Meet(Replay(s.origin.w, s.log), e);
    }
  }

  /** The time before a call, or before a reading of the clock. When the ticks have run out nothing happens any more. */
  function After(s: Sys): (r: Sys)
    ensures r.origin == s.origin && (Faithful(s) ==> Faithful(r))
  {
    if s.tape == [] then s
    else
      var r := s.(w := Elapse(s.w, s.tape[0]), tape := s.tape[1..], log := s.log + [Passed(s.tape[0])]);
      LogGrows(s, r, Passed(s.tape[0]));
      r
  }

  datatype Ret = Ret(s: Sys, reply: Reply)

  /** A call that has been answered goes into the log, and among the failed ones if it is one: a refused PRStack write is
      a conflict, every other failed call a fault. */
  function Noted(a: Sys, op: Op, t: Tick, e: Effect): (r: Sys)
    ensures r.faults >= a.faults && r.conflicts >= a.conflicts && r.origin == a.origin
    ensures r.panicked == a.panicked && r.crashed == a.crashed
  {
    var b := a.(w := e.w, log := a.log + [Asked(op, t, e.reply)]);
    if t.outcome.Ok? && !Broken(op, e.reply) then b
    else if t.outcome.Ok? && WritesStack(op) then b.(conflicts := a.conflicts + 1)
    else b.(faults := a.faults + 1)
  }

  /** One call of the operator. A dead process reaches no server: its calls fail and change nothing. */
  function Call(s: Sys, op: Op): (r: Ret)
    ensures r.s.faults >= s.faults && r.s.conflicts >= s.conflicts && r.s.origin == s.origin
    ensures Faithful(s) && Within(s.origin.pr, op) ==> Faithful(r.s)
    ensures r.s.panicked == s.panicked && r.s.crashed == s.crashed
  {
    if s.tape == [] then Ret(s.(faults := s.faults + 1), Failure)
    else
      var t, a := s.tape[0], After(s);
      var e := Serve(a.w, op, t);
      LogGrows(a, Noted(a, op, t, e), Asked(op, t, e.reply));
      Ret(Noted(a, op, t, e), e.reply)
  }

  /** Reading the clock takes a tick too: time passes and users act, but a reading cannot fail. */
  function ReadClock(s: Sys): Sys {
    After(s)
  }

  /** No call failed between `a` and `b`, other than PRStack writes refused because the copy was stale. */
  predicate NoFault(a: Sys, b: Sys) {
    a.faults == b.faults
  }

  /** No call failed between `a` and `b`. */
  predicate Clean(a: Sys, b: Sys) {
    a.faults == b.faults && a.conflicts == b.conflicts
  }
}
