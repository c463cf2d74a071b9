/** The stores all PRs share: the API server's objects and MongoDB, keyed by the names the operator builds. One call on
    behalf of a PR behaves as in the world of that PR alone, and touches no other. */
module Clusters {
  import opened Types
  import opened Api
  import opened Names

  /** What the cluster remembers per PR besides its objects. */
  datatype Book = Book(rv: nat, now: int, meter: Meter)

  const BLANK := Book(0, 0, NEW_WORLD.meter)

  /** Everything in the cluster that does not belong to one given PR. */
  datatype Rest = Rest(
    stacks: map<string, Stack>,
    namespaces: map<string, Namespace>,
    users: map<string, MongoUser>,
    dbs: set<string>,
    books: map<string, Book>)

  function At<V>(m: map<string, V>, key: string): Option<V> {
    if key in m then Some(m[key]) else None
  }

  class Cluster {
    var stacks: map<string, Stack>
    var namespaces: map<string, Namespace>
    var users: map<string, MongoUser>
    var dbs: set<string>
    var books: map<string, Book>

    constructor ()
      ensures forall pr :: View(pr) == NEW_WORLD
    {
      stacks, namespaces, users, dbs, books := map[], map[], map[], {}, map[];
    }

    function BookOf(pr: string): Book
      reads this
    {
      if pr in books then books[pr] else BLANK
    }

    /** The cluster as the PR alone sees it. */
    function View(pr: string): World
      reads this
    {
      var book := BookOf(pr);
      World(At(stacks, pr), At(namespaces, NamespaceName(pr)), At(users, MongoUserName(pr)), dbs * Touched(pr),
            book.rv, book.now, book.meter)
    }

    /** The cluster without what belongs to the PR. */
    function Others(pr: string): Rest
      reads this
    {
      Rest(stacks - {pr}, namespaces - {NamespaceName(pr)}, users - {MongoUserName(pr)}, dbs - Touched(pr), books - {pr})
    }

    // -------------------------------------------------------------- PRStacks

    method Keep(pr: string, st: Option<Stack>, book: Book)
      modifies this`stacks, this`books
      ensures View(pr) == old(View(pr)).(stack := st, rv := book.rv, now := book.now, meter := book.meter)
      ensures Others(pr) == old(Others(pr))
    {
      books := books[pr := book];
      if st.Some? {
        stacks := stacks[pr := st.value];
      } else {
        stacks := stacks - {pr};
      }
    }

    /** Stores an object under a new version, or lets it go if it is deleted and nothing holds it. */
    method Store(pr: string, st: Stack, meter: Meter)
      modifies this`stacks, this`books
      ensures View(pr) == Touch(old(View(pr)), st).(meter := meter) && Others(pr) == old(Others(pr))
    {
      var book := BookOf(pr);
      Keep(pr, Settled(st.(version := book.rv + 1)), book.(rv := book.rv + 1, meter := meter));
    }

    method Update(pr: string, st: Stack) returns (reply: Reply)
      modifies this`stacks, this`books
      ensures Exec(old(View(pr)), PutStack(st), DEAD) == Effect(View(pr), reply)
      ensures Others(pr) == old(Others(pr))
    {
      if pr !in stacks { return NotFound; }
      var was, book := stacks[pr], BookOf(pr);
      if was.version != st.version { return Conflict; }
      var next := was.(spec := st.spec, finalizers := st.finalizers, version := book.rv + 1);
      var lapse := if was.spec.active && !st.spec.active then 1 else 0;
      Store(pr, next, book.meter.(expiries := book.meter.expiries + lapse));
      reply := Found(next);
    }

    method UpdateStatus(pr: string, st: Stack, note: Note) returns (reply: Reply)
      modifies this`stacks, this`books
      ensures Exec(old(View(pr)), PutStatus(st, note), DEAD) == Effect(View(pr), reply)
      ensures Others(pr) == old(Others(pr))
    {
      if pr !in stacks { return NotFound; }
      var was, book := stacks[pr], BookOf(pr);
      if was.version != st.version { return Conflict; }
      var next := was.(status := st.status, version := book.rv + 1);
      Keep(pr, Some(next), book.(rv := book.rv + 1, meter := Record(View(pr), st, note)));
      reply := Found(next);
    }

    // -------------------------------------------------------------- namespaces and their objects

    method SetNamespace(pr: string, ns: Namespace)
      modifies this`namespaces
      ensures View(pr) == old(View(pr)).(ns := Some(ns)) && Others(pr) == old(Others(pr))
    {
      namespaces := namespaces[NamespaceName(pr) := ns];
    }

    method SetMeter(pr: string, meter: Meter)
      modifies this`books
      ensures View(pr) == old(View(pr)).(meter := meter) && Others(pr) == old(Others(pr))
    {
      books := books[pr := BookOf(pr).(meter := meter)];
    }

    method CreateNamespace(pr: string) returns (reply: Reply)
      modifies this`namespaces
      ensures Exec(old(View(pr)), CreateNs, DEAD) == Effect(View(pr), reply)
      ensures Others(pr) == old(Others(pr))
    {
      if NamespaceName(pr) in namespaces { return Exists; }
      SetNamespace(pr, EMPTY_NAMESPACE);
      reply := Done;
    }

    method DeleteNamespace(pr: string) returns (reply: Reply)
      modifies this`namespaces, this`books
      ensures Exec(old(View(pr)), DeleteNs, DEAD) == Effect(View(pr), reply)
      ensures Others(pr) == old(Others(pr))
    {
      if NamespaceName(pr) !in namespaces { return NotFound; }
      namespaces := namespaces - {NamespaceName(pr)};
      SetMeter(pr, BookOf(pr).meter.(nsSwallowed := false));
      reply := Done;
    }

    /** Puts an object into the namespace, which exists. */
    method PutObject(pr: string, m: Manifest)
      requires NamespaceName(pr) in namespaces
      modifies this`namespaces
      ensures View(pr) == old(View(pr)).(ns := Some(Put(old(View(pr)).ns.value, m))) && Others(pr) == old(Others(pr))
    {
      SetNamespace(pr, Put(namespaces[NamespaceName(pr)], m));
    }

    method CreateObject(pr: string, m: Manifest) returns (reply: Reply)
      modifies this`namespaces
      ensures Exec(old(View(pr)), CreateObj(m), DEAD) == Effect(View(pr), reply)
      ensures Others(pr) == old(Others(pr))
    {
      var ns := At(namespaces, NamespaceName(pr));
      if ns.None? { return NotFound; }
      if Has(ns.value, m.Ref()) { return Exists; }
      PutObject(pr, m);
      reply := Done;
    }

    method UpdateObject(pr: string, m: Manifest) returns (reply: Reply)
      modifies this`namespaces
      ensures Exec(old(View(pr)), UpdateObj(m), DEAD) == Effect(View(pr), reply)
      ensures Others(pr) == old(Others(pr))
    {
      if NamespaceName(pr) !in namespaces { return NotFound; }
      if !Has(namespaces[NamespaceName(pr)], m.Ref()) { return NotFound; }
      PutObject(pr, m);
      reply := Done;
    }

    method DeleteObject(pr: string, ref: Ref) returns (reply: Reply)
      modifies this`namespaces
      ensures Exec(old(View(pr)), DeleteObj(ref), DEAD) == Effect(View(pr), reply)
      ensures Others(pr) == old(Others(pr))
    {
      if NamespaceName(pr) !in namespaces { return NotFound; }
      if !Has(namespaces[NamespaceName(pr)], ref) { return NotFound; }
      SetNamespace(pr, Remove(namespaces[NamespaceName(pr)], ref));
      reply := Done;
    }

    // -------------------------------------------------------------- MongoDB

    method DropMongoUser(pr: string) returns (reply: Reply)
      modifies this`users, this`books
      ensures Exec(old(View(pr)), DropUser(false), DEAD) == Effect(View(pr), reply)
      ensures Others(pr) == old(Others(pr))
    {
      if MongoUserName(pr) !in users { return NotFound; }
      users := users - {MongoUserName(pr)};
      SetMeter(pr, BookOf(pr).meter.(dropSwallowed := false));
      reply := Done;
    }

    method CreateMongoUser(pr: string, user: MongoUser) returns (reply: Reply)
      modifies this`users
      ensures Exec(old(View(pr)), CreateUser(user), DEAD) == Effect(View(pr), reply)
      ensures Others(pr) == old(Others(pr))
    {
      if MongoUserName(pr) in users { return Exists; }
      users := users[MongoUserName(pr) := user];
      reply := Done;
    }

    method CreateDatabase(pr: string, name: string)
      requires name in Touched(pr)
      modifies this`dbs
      ensures Exec(old(View(pr)), MakeDb(name), DEAD) == Effect(View(pr), Done)
      ensures Others(pr) == old(Others(pr))
    {
      dbs := dbs + {name};
      assert dbs * Touched(pr) == old(dbs) * Touched(pr) + {name};
      assert dbs - Touched(pr) == old(dbs) - Touched(pr);
    }

    method DropDatabase(pr: string, name: string)
      requires name in Touched(pr)
      modifies this`dbs
      ensures Exec(old(View(pr)), DropDb(name), DEAD) == Effect(View(pr), Done)
      ensures Others(pr) == old(Others(pr))
    {
      dbs := dbs - {name};
      assert dbs * Touched(pr) == old(dbs) * Touched(pr) - {name};
      assert dbs - Touched(pr) == old(dbs) - Touched(pr);
    }

    // -------------------------------------------------------------- any call

    /** Reads the deployments of the namespace in the order of the tick. */
    method List(pr: string, order: seq<string>) returns (reply: Reply)
      ensures reply == ListReply(View(pr).ns, order)
    {
      if NamespaceName(pr) !in namespaces { return Items([]); }
      var deployments := namespaces[NamespaceName(pr)].deployments;
      if !IsListing(order, deployments.Keys) { return Failure; }
      reply := Items(Listed(deployments, order));
    }

    method Read(pr: string, op: Op, t: Tick) returns (reply: Reply)
      requires op.GetStack? || op.GetNs? || op.GetObj? || op.Ping? || op.Draw? || op.ListDeployments?
      ensures Exec(View(pr), op, t) == Effect(View(pr), reply)
    {
      match op
      case GetStack => reply := if pr in stacks then Found(stacks[pr]) else NotFound;
      case GetNs(_) => reply := if NamespaceName(pr) in namespaces then Done else NotFound;
      case GetObj(ref) =>
        var found := NamespaceName(pr) in namespaces && Has(namespaces[NamespaceName(pr)], ref);
        reply := if found then Done else NotFound;
      case Ping => reply := Done;
      case Draw => reply := Password(t.draw);
      case ListDeployments => reply := List(pr, t.order);
    }

    /** One call that reaches the servers has the effect and the reply that the PR's own world gives it. */
    method Execute(pr: string, op: Op, t: Tick) returns (reply: Reply)
      requires Within(pr, op)
      modifies this
      ensures Effect(View(pr), reply) == Exec(old(View(pr)), op, t)
      ensures Others(pr) == old(Others(pr))
    {
      match op
      case PutStack(st) => reply := Update(pr, st);
      case PutStatus(st, note) => reply := UpdateStatus(pr, st, note);
      case CreateNs => reply := CreateNamespace(pr);
      case DeleteNs => reply := DeleteNamespace(pr);
      case DropUser(_) => reply := DropMongoUser(pr);
      case CreateUser(user) => reply := CreateMongoUser(pr, user);
      case MakeDb(name) => CreateDatabase(pr, name); reply := Done;
      case DropDb(name) => DropDatabase(pr, name); reply := Done;
      case CreateObj(m) => reply := CreateObject(pr, m);
      case UpdateObj(m) => reply := UpdateObject(pr, m);
      case DeleteObj(ref) => reply := DeleteObject(pr, ref);
      case _ => reply := Read(pr, op, t);
    }

    /** An error that cleanup is about to swallow is marked in the history. */
    method Mark(pr: string, op: Op)
      modifies this`books
      ensures View(pr) == Swallow(old(View(pr)), op) && Others(pr) == old(Others(pr))
    {
      if op == GetNs(true) && NamespaceName(pr) in namespaces {
        SetMeter(pr, BookOf(pr).meter.(nsSwallowed := true));
      } else if op == DropUser(true) && MongoUserName(pr) in users {
        SetMeter(pr, BookOf(pr).meter.(dropSwallowed := true));
      }
    }

    /** One call with its fate: done, failed, or done but reported as failed. */
    method Serve(pr: string, op: Op, t: Tick) returns (reply: Reply)
      requires Within(pr, op)
      modifies this
      ensures Effect(View(pr), reply) == Api.Serve(old(View(pr)), op, t)
      ensures Others(pr) == old(Others(pr))
    {
      reply := Failure;
      if !t.outcome.Fail? { reply := Execute(pr, op, t); }
      if !t.outcome.Ok? {
        Mark(pr, op);
        reply := Failure;
      }
    }

    // -------------------------------------------------------------- users and time

    method Edited(pr: string, spec: Spec)
      requires pr in stacks
      modifies this`stacks, this`books
      ensures View(pr) == Apply(old(View(pr)), EditSpec(spec)) && Others(pr) == old(Others(pr))
    {
      var was, meter := stacks[pr], BookOf(pr).meter;
      if was.spec.deployedAt != spec.deployedAt { meter := meter.(deployWrites := meter.deployWrites + 1); }
      Store(pr, was.(spec := spec), meter);
    }

    method Created(pr: string, spec: Spec, foreign: seq<string>)
      requires pr !in stacks && FINALIZER !in foreign
      modifies this`stacks, this`books
      ensures View(pr) == Apply(old(View(pr)), Create(spec, foreign)) && Others(pr) == old(Others(pr))
    {
      var book := BookOf(pr);
      var st := Stack(spec, NEW_STATUS, foreign, false, 0, book.rv + 1);
      CreateApplied(View(pr), spec, foreign);
      Store(pr, st, book.meter.(deployWrites := book.meter.deployWrites + if spec.deployedAt.Some? then 1 else 0));
    }

    method UserStep(pr: string, e: Edit)
      modifies this`stacks, this`books
      ensures View(pr) == Apply(old(View(pr)), e) && Others(pr) == old(Others(pr))
    {
      match e
      case EditSpec(spec) => if pr in stacks { Edited(pr, spec); }
      case Delete =>
        if pr in stacks && !stacks[pr].deleted { Store(pr, stacks[pr].(deleted := true), BookOf(pr).meter); }
      case Create(spec, foreign) => if pr !in stacks && FINALIZER !in foreign { Created(pr, spec, foreign); }
      case Release(f) =>
        if pr in stacks && f != FINALIZER && f in stacks[pr].finalizers {
          var st := stacks[pr];
          Store(pr, st.(finalizers := RemoveString(st.finalizers, f)), BookOf(pr).meter);
        }
    }

    /** Time passes and the users act. */
    method Elapse(pr: string, t: Tick)
      modifies this`stacks, this`books
      ensures View(pr) == Api.Elapse(old(View(pr)), t) && Others(pr) == old(Others(pr))
    {
      var book := BookOf(pr);
      if t.now > book.now { book := book.(now := t.now); }
      books := books[pr := book];
      ghost var w := View(pr);
      for i := 0 to |t.edits|
        invariant ApplyAll(w, t.edits) == ApplyAll(View(pr), t.edits[i..])
        invariant Others(pr) == old(Others(pr))
      {
        UserStep(pr, t.edits[i]);
        assert t.edits[i..][0] == t.edits[i] && t.edits[i..][1..] == t.edits[i + 1..];
      }
    }

    // -------------------------------------------------------------- non-interference

    /** What another PR sees is part of what does not belong to this one. */
    lemma Apart(pr: string, q: string)
      requires q != pr
      ensures View(q) == ViewIn(Others(pr), q)
    {
      PrsAreSeparate(pr, q);
      assert (dbs - Touched(pr)) * Touched(q) == dbs * Touched(q);
    }

    /** What one operator process meets next: time and its users' steps, or a call and the reply it gets. */
    method Step(e: Event) returns (met: Event)
      requires Permitted(e)
      modifies this
      ensures Heard(e, old(View(e.pr)), met) && View(e.pr) == Meet(Course(old(View(e.pr)), []), e.entry).w
      ensures Others(e.pr) == old(Others(e.pr))
    {
      match e.entry
      case Passed(t) =>
        Elapse(e.pr, t);
        met := e;
      case Asked(op, t, _) =>
        var reply := Serve(e.pr, op, t);
        met := Event(e.pr, Asked(op, t, reply));
    }

    lemma AllApart(pr: string)
      ensures forall q :: q != pr ==> View(q) == ViewIn(Others(pr), q)
    {
      forall q | q != pr ensures View(q) == ViewIn(Others(pr), q) { Apart(pr, q); }
    }

    /** A step of one PR leaves all others as they were. */
    method StepAlone(e: Event) returns (met: Event)
      requires Permitted(e)
      modifies this
      ensures Heard(e, old(View(e.pr)), met) && View(e.pr) == Meet(Course(old(View(e.pr)), []), e.entry).w
      ensures forall q :: q != e.pr ==> View(q) == old(View(q))
    {
      AllApart(e.pr);
      met := Step(e);
      AllApart(e.pr);
    }

    /** What all PRs see. */
    ghost function Views(): (v: string -> World)
      reads this
      ensures forall p :: v(p) == View(p)
    {
      var s, n, u, d, b := stacks, namespaces, users, dbs, books;
      pr => ViewIn(Rest(s, n, u, d, b), pr)
    }

    /** A further step after `events`. */
    method StepOn(e: Event, ghost start: string -> World, ghost events: seq<Event>, ghost met: seq<Event>)
      returns (next: Event)
      requires Permitted(e) && Retold(events, met) && Told(start, Views(), events, met)
      modifies this
      ensures Retold(events + [e], met + [next]) && Told(start, Views(), events + [e], met + [next])
    {
      ghost var views := Views();
      next := StepAlone(e);
      RetoldMore(events, met, e, next);
      ToldMore(start, views, Views(), events, met, e, next);
    }

    /** Steps of processes for many PRs, interleaved in any order: each PR's part of the cluster, and the replies each
        PR's calls get, are those of its own steps alone. */
    method Interleave(events: seq<Event>) returns (met: seq<Event>)
      requires forall i :: 0 <= i < |events| ==> Permitted(events[i])
      modifies this
      ensures Retold(events, met) && Told(old(Views()), Views(), events, met)
    {
      met := [];
      ghost var start := Views();
      for i := 0 to |events|
        invariant Retold(events[..i], met) && Told(start, Views(), events[..i], met)
      {
        var next := StepOn(events[i], start, events[..i], met);
        assert events[..i + 1] == events[..i] + [events[i]];
        met := met + [next];
      }
      assert events[..|events|] == events;
    }
  }

  lemma CreateApplied(w: World, spec: Spec, foreign: seq<string>)
    requires w.stack.None? && FINALIZER !in foreign
    ensures Apply(w, Create(spec, foreign)) ==
            Touch(w, Stack(spec, NEW_STATUS, foreign, false, 0, w.rv + 1)).(
              meter := w.meter.(deployWrites := w.meter.deployWrites + if spec.deployedAt.Some? then 1 else 0))
  {
  }

  function ViewIn(rest: Rest, pr: string): World {
    var book := if pr in rest.books then rest.books[pr] else BLANK;
    World(At(rest.stacks, pr), At(rest.namespaces, NamespaceName(pr)), At(rest.users, MongoUserName(pr)),
          rest.dbs * Touched(pr), book.rv, book.now, book.meter)
  }

  // ---------------------------------------------------------------- steps of many processes

  /** A step of the process that works for a PR. */
  datatype Event = Event(pr: string, entry: Entry)

  predicate Permitted(e: Event) {
    e.entry.Asked? ==> Within(e.pr, e.entry.op)
  }

  /** `met` is the step `e` with the reply that the world `w` gives it. */
  predicate Heard(e: Event, w: World, met: Event) {
    met == if e.entry.Passed? then e
           else e.(entry := e.entry.(reply := Api.Serve(w, e.entry.op, e.entry.tick).reply))
  }

  /** The same steps, up to the replies. */
  predicate SameStep(e: Event, met: Event) {
    && met.pr == e.pr
    && (if e.entry.Passed? then met.entry == e.entry
        else met.entry.Asked? && met.entry.op == e.entry.op && met.entry.tick == e.entry.tick)
  }

  predicate Retold(events: seq<Event>, met: seq<Event>) {
    |met| == |events| && forall i :: 0 <= i < |events| ==> SameStep(events[i], met[i])
  }

  /** Steps that take each PR from its world in `start` to its world in `end`, with the replies in `met`: as its own steps
      alone do. */
  ghost predicate Told(start: string -> World, end: string -> World, events: seq<Event>, met: seq<Event>) {
    forall p :: Replay(start(p), LogOf(events, p)) == Course(end(p), RepliesIn(LogOf(met, p)))
  }

  lemma RetoldMore(events: seq<Event>, met: seq<Event>, e: Event, next: Event)
    requires Retold(events, met) && SameStep(e, next)
    ensures Retold(events + [e], met + [next])
  {
  }

  lemma ToldMore(start: string -> World, v: string -> World, v': string -> World, events: seq<Event>, met: seq<Event>,
                 e: Event, next: Event)
    requires Told(start, v, events, met)
    requires Heard(e, v(e.pr), next) && v'(e.pr) == Meet(Course(v(e.pr), []), e.entry).w
    requires forall q :: q != e.pr ==> v'(q) == v(q)
    ensures Told(start, v', events + [e], met + [next])
  {
    forall p ensures Replay(start(p), LogOf(events + [e], p)) == Course(v'(p), RepliesIn(LogOf(met + [next], p))) {
      CourseGrows(start(p), v(p), v'(p), events, met, e, next, p);
    }
  }

  /** The steps of one PR. */
  function LogOf(events: seq<Event>, pr: string): seq<Entry>
    decreases |events|
  {
    if events == [] then []
    else
      var last := events[|events| - 1];
      LogOf(events[..|events| - 1], pr) + if last.pr == pr then [last.entry] else []
  }

  lemma LogMore(events: seq<Event>, e: Event, p: string)
    ensures LogOf(events + [e], p) == LogOf(events, p) + if e.pr == p then [e.entry] else []
  {
    assert (events + [e])[..|events|] == events;
  }

  lemma ReplayMore(w: World, log: seq<Entry>, e: Entry)
    ensures Replay(w, log + [e]) == Meet(Replay(w, log), e)
    ensures RepliesIn(log + [e]) == RepliesIn(log) + if e.Asked? then [e.reply] else []
  {
    assert (log + [e])[..|log|] == log;
  }

  lemma CourseGrows(start: World, v: World, v': World, events: seq<Event>, met: seq<Event>, e: Event, next: Event, p: string)
    requires Replay(start, LogOf(events, p)) == Course(v, RepliesIn(LogOf(met, p)))
    requires if e.pr == p then Heard(e, v, next) && v' == Meet(Course(v, []), e.entry).w else v' == v && next.pr == e.pr
    ensures Replay(start, LogOf(events + [e], p)) == Course(v', RepliesIn(LogOf(met + [next], p)))
  {
    LogMore(events, e, p);
    LogMore(met, next, p);
    if e.pr == p {
      ReplayMore(start, LogOf(events, p), e.entry);
      ReplayMore(start, LogOf(met, p), next.entry);
    } else {
      assert LogOf(events, p) + [] == LogOf(events, p) && LogOf(met, p) + [] == LogOf(met, p);
    }
  }

  /** If every PR's calls get the replies that were recorded, every step is as recorded. */
  lemma {:induction false} AsRecorded(events: seq<Event>, met: seq<Event>)
    requires Retold(events, met)
    requires forall p :: RepliesIn(LogOf(met, p)) == RepliesIn(LogOf(events, p))
    ensures met == events
    decreases |events|
  {
    if events != [] {
      var n := |events| - 1;
      var e, m := events[n], met[n];
      assert events == events[..n] + [e] && met == met[..n] + [m];
      forall p ensures RepliesIn(LogOf(met[..n], p)) == RepliesIn(LogOf(events[..n], p)) {
        LastReply(events[..n], met[..n], e, m, p);
      }
      LastReply(events[..n], met[..n], e, m, e.pr);
      AsRecorded(events[..n], met[..n]);
    }
  }

  lemma LastReply(events: seq<Event>, met: seq<Event>, e: Event, m: Event, p: string)
    requires SameStep(e, m) && RepliesIn(LogOf(met + [m], p)) == RepliesIn(LogOf(events + [e], p))
    ensures RepliesIn(LogOf(met, p)) == RepliesIn(LogOf(events, p))
    ensures e.pr == p ==> m == e
  {
    LogMore(events, e, p);
    LogMore(met, m, p);
    if e.pr == p {
      ReplayMore(NEW_WORLD, LogOf(events, p), e.entry);
      ReplayMore(NEW_WORLD, LogOf(met, p), m.entry);
      LastEqual(RepliesIn(LogOf(events, p)), RepliesIn(LogOf(met, p)), e.entry, m.entry);
    } else {
      assert LogOf(events, p) + [] == LogOf(events, p) && LogOf(met, p) + [] == LogOf(met, p);
    }
  }

  lemma LastEqual(x: seq<Reply>, y: seq<Reply>, e: Entry, m: Entry)
    requires e.Asked? <==> m.Asked?
    requires x + (if e.Asked? then [e.reply] else []) == y + (if m.Asked? then [m.reply] else [])
    ensures x == y && (e.Asked? ==> m.reply == e.reply)
  {
    if e.Asked? {
      var s, t := x + [e.reply], y + [m.reply];
      assert s[|s| - 1] == e.reply && t[|t| - 1] == m.reply && |x| == |y|;
      assert x == s[..|x|] && y == t[..|y|];
    } else {
      assert x + [] == x && y + [] == y;
    }
  }
}
