/** Non-interference, call by call: the passes of processes for many PRs, with their calls, clock readings and users' steps
    interleaved in any order, leave of each PR what its own run leaves, and every call gets the reply it gets there. */
module Interleavings {
  import opened Types
  import opened Api
  import opened Names
  import opened Handlers
  import opened Clusters
  import opened Reconcilers

  // ---------------------------------------------------------------- what a run meets

  /** Everything the passes of a run meet, in order: the calls `Reconcile` makes with the replies it gets, and the time and
      the users' steps between them. */
  function RunLog(cfg: Config, pr: string, w: World, tapes: seq<seq<Tick>>): seq<Entry>
    decreases |tapes|
  {
    if tapes == [] then []
    else
      var s := Reconcile(cfg, pr, Start(pr, w, tapes[0]));
      s.log + RunLog(cfg, pr, s.w, tapes[1..])
  }

  predicate AllWithin(pr: string, log: seq<Entry>) {
    forall i :: 0 <= i < |log| && log[i].Asked? ==> Within(pr, log[i].op)
  }

  lemma StartFaithful(pr: string, w: World, tape: seq<Tick>)
    ensures Faithful(Start(pr, w, tape))
  {
    var s := Start(pr, w, tape);
    forall a: Account ensures Accounts(a, s.origin, s.log, s.w) {
      match a
      case StoreAccount =>
      case ReplyAccount =>
      case NameAccount =>
    }
  }

  lemma {:induction false} ReplayAppend(w: World, a: seq<Entry>, b: seq<Entry>)
    ensures var c := Replay(w, a); var d := Replay(c.w, b);
            Replay(w, a + b) == Course(d.w, c.replies + d.replies)
    ensures RepliesIn(a + b) == RepliesIn(a) + RepliesIn(b)
    decreases |b|
  {
    if b == [] {
      assert a + b == a && Replay(w, a).replies + [] == Replay(w, a).replies && RepliesIn(a) + [] == RepliesIn(a);
    } else {
      var n := |b| - 1;
      ReplayAppend(w, a, b[..n]);
      assert b == b[..n] + [b[n]] && a + b == (a + b[..n]) + [b[n]];
      ReplayMore(w, a + b[..n], b[n]);
      ReplayMore(Replay(w, a).w, b[..n], b[n]);
    }
  }

  /** The log of one pass leads from the world before it to the world after it, with the replies on record. */
  lemma PassReplays(cfg: Config, pr: string, w: World, tape: seq<Tick>)
    ensures var s := Reconcile(cfg, pr, Start(pr, w, tape));
            Replay(w, s.log) == Course(s.w, RepliesIn(s.log)) && AllWithin(pr, s.log)
  {
    StartFaithful(pr, w, tape);
    FaithfulFacts(Reconcile(cfg, pr, Start(pr, w, tape)));
  }

  /** So does the log of a run; its calls name no database of another PR. */
  lemma {:induction false} RunReplays(cfg: Config, pr: string, w: World, tapes: seq<seq<Tick>>)
    ensures var log := RunLog(cfg, pr, w, tapes);
            Replay(w, log) == Course(Run(cfg, pr, w, tapes), RepliesIn(log)) && AllWithin(pr, log)
    decreases |tapes|
  {
    if tapes != [] {
      var s := Reconcile(cfg, pr, Start(pr, w, tapes[0]));
      PassReplays(cfg, pr, w, tapes[0]);
      RunReplays(cfg, pr, s.w, tapes[1..]);
      ReplayAppend(w, s.log, RunLog(cfg, pr, s.w, tapes[1..]));
    }
  }

  // ---------------------------------------------------------------- merges of runs

  /** A merge of what the runs of all PRs meet, each from its own world. */
  ghost predicate Merges(cfg: Config, start: string -> World, schedule: seq<Pass>, events: seq<Event>) {
    forall p :: LogOf(events, p) == RunLog(cfg, p, start(p), TapesOf(schedule, p))
  }

  function Tagged(pr: string, log: seq<Entry>): seq<Event> {
    seq(|log|, i requires 0 <= i < |log| => Event(pr, log[i]))
  }

  lemma {:induction false} LogOfTagged(events: seq<Event>, pr: string, log: seq<Entry>, p: string)
    ensures LogOf(events + Tagged(pr, log), p) == LogOf(events, p) + if p == pr then log else []
    decreases |log|
  {
    if log == [] {
      assert events + Tagged(pr, log) == events && LogOf(events, p) + [] == LogOf(events, p);
    } else {
      var n := |log| - 1;
      LogOfTagged(events, pr, log[..n], p);
      assert log == log[..n] + [log[n]];
      assert events + Tagged(pr, log) == (events + Tagged(pr, log[..n])) + [Event(pr, log[n])];
      LogMore(events + Tagged(pr, log[..n]), Event(pr, log[n]), p);
    }
  }

  /** The passes one after another are a merge, so every schedule has one. */
  function InOrder(cfg: Config, start: string -> World, schedule: seq<Pass>): seq<Event>
    decreases |schedule|
  {
    if schedule == [] then []
    else
      var before, last := schedule[..|schedule| - 1], schedule[|schedule| - 1];
      var w := Run(cfg, last.pr, start(last.pr), TapesOf(before, last.pr));
      InOrder(cfg, start, before) + Tagged(last.pr, Reconcile(cfg, last.pr, Start(last.pr, w, last.ticks)).log)
  }

  lemma {:induction false} RunLogMore(cfg: Config, pr: string, w: World, tapes: seq<seq<Tick>>, last: seq<Tick>)
    ensures RunLog(cfg, pr, w, tapes + [last]) ==
            RunLog(cfg, pr, w, tapes) + Reconcile(cfg, pr, Start(pr, Run(cfg, pr, w, tapes), last)).log
    decreases |tapes|
  {
    if tapes == [] {
      assert tapes + [last] == [last] && [last][1..] == [];
    } else {
      assert (tapes + [last])[0] == tapes[0] && (tapes + [last])[1..] == tapes[1..] + [last];
      RunLogMore(cfg, pr, After1(cfg, pr, w, tapes[0]), tapes[1..], last);
    }
  }

  lemma {:induction false} InOrderMerges(cfg: Config, start: string -> World, schedule: seq<Pass>)
    ensures Merges(cfg, start, schedule, InOrder(cfg, start, schedule))
    decreases |schedule|
  {
    if schedule != [] {
      var before, last := schedule[..|schedule| - 1], schedule[|schedule| - 1];
      InOrderMerges(cfg, start, before);
      var w := Run(cfg, last.pr, start(last.pr), TapesOf(before, last.pr));
      var log := Reconcile(cfg, last.pr, Start(last.pr, w, last.ticks)).log;
      forall p ensures LogOf(InOrder(cfg, start, schedule), p) == RunLog(cfg, p, start(p), TapesOf(schedule, p)) {
        LogOfTagged(InOrder(cfg, start, before), last.pr, log, p);
        if p == last.pr { RunLogMore(cfg, p, start(p), TapesOf(before, p), last.ticks); }
      }
    }
  }

  /** Every event is among those of its PR. */
  lemma {:induction false} Listed(events: seq<Event>, i: nat)
    requires i < |events|
    ensures events[i].entry in LogOf(events, events[i].pr)
    decreases |events|
  {
    var n := |events| - 1;
    if i < n { Listed(events[..n], i); }
  }

  lemma MergesPermitted(cfg: Config, start: string -> World, schedule: seq<Pass>, events: seq<Event>)
    requires Merges(cfg, start, schedule, events)
    ensures forall i :: 0 <= i < |events| ==> Permitted(events[i])
  {
    forall i | 0 <= i < |events| ensures Permitted(events[i]) {
      var p := events[i].pr;
      Listed(events, i);
      RunReplays(cfg, p, start(p), TapesOf(schedule, p));
    }
  }

  lemma MergedAsAlone(cfg: Config, start: string -> World, end: string -> World, schedule: seq<Pass>, events: seq<Event>,
                      met: seq<Event>)
    requires Merges(cfg, start, schedule, events) && Retold(events, met) && Told(start, end, events, met)
    ensures met == events
    ensures forall p :: end(p) == Run(cfg, p, start(p), TapesOf(schedule, p))
  {
    forall p
      ensures RepliesIn(LogOf(met, p)) == RepliesIn(LogOf(events, p))
      ensures end(p) == Run(cfg, p, start(p), TapesOf(schedule, p))
    {
      RunReplays(cfg, p, start(p), TapesOf(schedule, p));
    }
    AsRecorded(events, met);
  }

  /** Executes a merge of runs on the shared cluster, call by call. Every reply is the one on record, so every process is led
      to make the calls on record; and each PR ends where its own run ends. */
  method RunMerged(cluster: Cluster, cfg: Config, schedule: seq<Pass>, events: seq<Event>) returns (met: seq<Event>)
    requires Merges(cfg, cluster.Views(), schedule, events)
    modifies cluster
    ensures met == events
    ensures forall p :: cluster.View(p) == Run(cfg, p, old(cluster.View(p)), TapesOf(schedule, p))
  {
    ghost var start := cluster.Views();
    MergesPermitted(cfg, start, schedule, events);
    met := cluster.Interleave(events);
    MergedAsAlone(cfg, start, cluster.Views(), schedule, events, met);
  }
}
