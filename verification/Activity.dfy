/** Running, inactive and rolling-out stacks keep the invariant. */
module Activity {
  import opened Types
  import opened Api
  import opened Names
  import opened Conditions
  import opened Handlers
  import opened Invariants
  import opened Steps

  // ---------------------------------------------------------------- passes over the deployments

  lemma ListGood(pr: string, w0: World, s: Sys, st: Stack, mode: Mode)
    requires Good(pr, w0, s, st, mode)
    ensures var l := Call(s, ListDeployments);
            && Good(pr, w0, l.s, st, mode) && Server(l.s) == Server(s) && s.w.now <= l.s.w.now
            && l.s.w.ns == s.w.ns && l.s.conflicts == s.conflicts
            && (NoFault(s, l.s) ==> l.reply.Items?)
  {
    SideCall(pr, w0, s, ListDeployments, st, mode);
    Open(pr, w0, s, mode);
    CallSides(pr, s, ListDeployments);
    Executed(s, ListDeployments);
  }

  lemma UpdateGood(pr: string, w0: World, s: Sys, name: string, d: Deployment, st: Stack, mode: Mode)
    requires Good(pr, w0, s, st, mode) && Told(pr, name, d)
    ensures var u := Call(s, UpdateObj(DeploymentManifest(name, d)));
            && Good(pr, w0, u.s, st, mode) && Server(u.s) == Server(s) && s.w.now <= u.s.w.now
            && u.s.conflicts == s.conflicts
            && PutOrSame(s.w.ns, u.s.w.ns, DeploymentManifest(name, d))
            && (u.reply.Done? ==> s.w.ns.Some? && u.s.w.ns == Some(Put(s.w.ns.value, DeploymentManifest(name, d))))
            && (s.w.ns.Some? && name in s.w.ns.value.deployments && NoFault(s, u.s) ==> u.reply.Done?)
  {
    var m := DeploymentManifest(name, d);
    SideCall(pr, w0, s, UpdateObj(m), st, mode);
    Open(pr, w0, s, mode);
    UpdateEffect(pr, s, m);
  }

  /** The listed deployments exist. */
  predicate Present(ns: Option<Namespace>, items: seq<Item>) {
    items != [] ==> ns.Some? && forall i :: 0 <= i < |items| ==> items[i].name in ns.value.deployments
  }

  predicate ItemsTold(pr: string, items: seq<Item>) {
    forall i :: 0 <= i < |items| ==> Told(pr, items[i].name, items[i].deployment)
  }

  lemma {:induction false} ScaleEachGood(pr: string, w0: World, s: Sys, items: seq<Item>, n: int, st: Stack, mode: Mode)
    requires Good(pr, w0, s, st, mode) && Present(s.w.ns, items) && ItemsTold(pr, items)
    ensures var r := ScaleEach(s, items, n);
            && Good(pr, w0, r.s, st, mode) && Server(r.s) == Server(s) && s.w.now <= r.s.w.now
            && r.s.conflicts == s.conflicts
            && (NoFault(s, r.s) ==> r.ok)
    decreases |items|
  {
    if items != [] {
      if items[0].deployment.replicas == Some(n) {
        ScaleEachGood(pr, w0, s, items[1..], n, st, mode);
      } else {
        var d := items[0].deployment.(replicas := Some(n));
        UpdateGood(pr, w0, s, items[0].name, d, st, mode);
        var u := Call(s, UpdateObj(DeploymentManifest(items[0].name, d)));
        if u.reply.Done? { ScaleEachGood(pr, w0, u.s, items[1..], n, st, mode); }
      }
    }
  }

  /** A successful List returns deployments that exist, unchanged. */
  lemma ListShows(pr: string, s: Sys)
    requires Inv(pr, s.w)
    ensures var l := Call(s, ListDeployments);
            l.reply.Items? ==>
              && Present(l.s.w.ns, l.reply.items)
              && (forall i :: 0 <= i < |l.reply.items| ==>
                    && l.s.w.ns.Some?
                    && l.reply.items[i].name in l.s.w.ns.value.deployments
                    && l.reply.items[i].deployment == l.s.w.ns.value.deployments[l.reply.items[i].name])
              && (l.s.w.ns.Some? ==>
                    forall name :: name in l.s.w.ns.value.deployments ==>
                      exists i :: 0 <= i < |l.reply.items| && l.reply.items[i].name == name)
  {
    AfterKeeps(pr, s, Free);
    Executed(s, ListDeployments);
    var l, t, a := Call(s, ListDeployments), Head(s), After(s);
    if l.reply.Items? && a.w.ns.Some? {
      assert l.reply.items == Listed(a.w.ns.value.deployments, t.order);
      forall name | name in a.w.ns.value.deployments
        ensures exists i :: 0 <= i < |l.reply.items| && l.reply.items[i].name == name
      {
        assert name in t.order;
        var i :| 0 <= i < |t.order| && t.order[i] == name;
        assert l.reply.items[i].name == name;
      }
    }
  }

  /** They are told their databases. */
  lemma ListPresent(pr: string, s: Sys)
    requires Inv(pr, s.w)
    ensures var l := Call(s, ListDeployments);
            l.reply.Items? ==>
              && Present(l.s.w.ns, l.reply.items) && ItemsTold(pr, l.reply.items)
              && (forall i :: 0 <= i < |l.reply.items| ==>
                    && l.s.w.ns.Some?
                    && l.reply.items[i].name in l.s.w.ns.value.deployments
                    && l.reply.items[i].deployment == l.s.w.ns.value.deployments[l.reply.items[i].name])
              && (l.s.w.ns.Some? ==>
                    forall name :: name in l.s.w.ns.value.deployments ==>
                      exists i :: 0 <= i < |l.reply.items| && l.reply.items[i].name == name)
  {
    ListShows(pr, s);
    AfterKeeps(pr, s, Free);
    InvFacts(pr, After(s).w);
    CallSides(pr, s, ListDeployments);
  }

  lemma ScaleGood(pr: string, w0: World, s: Sys, n: int, st: Stack, mode: Mode)
    requires Good(pr, w0, s, st, mode)
    ensures var r := ScaleDeployments(s, n);
            && Good(pr, w0, r.s, st, mode) && Server(r.s) == Server(s) && s.w.now <= r.s.w.now
            && r.s.conflicts == s.conflicts
            && (NoFault(s, r.s) ==> r.ok)
  {
    var l := Call(s, ListDeployments);
    ListGood(pr, w0, s, st, mode);
    if l.reply.Items? {
      Open(pr, w0, s, mode);
      ListPresent(pr, s);
      ScaleEachGood(pr, w0, l.s, l.reply.items, n, st, mode);
    }
  }

  lemma {:induction false} RestartEachGood(pr: string, w0: World, s: Sys, items: seq<Item>, at: int, st: Stack, mode: Mode)
    requires Good(pr, w0, s, st, mode) && Present(s.w.ns, items) && ItemsTold(pr, items)
    ensures var r := RestartEach(s, items, at);
            && Good(pr, w0, r.s, st, mode) && Server(r.s) == Server(s) && s.w.now <= r.s.w.now
            && r.s.conflicts == s.conflicts
            && (NoFault(s, r.s) ==> r.ok)
    decreases |items|
  {
    if items != [] {
      var d := items[0].deployment.(restartedAt := Some(at));
      UpdateGood(pr, w0, s, items[0].name, d, st, mode);
      var u := Call(s, UpdateObj(DeploymentManifest(items[0].name, d)));
      if u.reply.Done? { RestartEachGood(pr, w0, u.s, items[1..], at, st, mode); }
    }
  }

  lemma RestartGood(pr: string, w0: World, s: Sys, at: int, st: Stack, mode: Mode)
    requires Good(pr, w0, s, st, mode)
    ensures var r := RestartDeployments(s, at);
            && Good(pr, w0, r.s, st, mode) && Server(r.s) == Server(s) && s.w.now <= r.s.w.now
            && r.s.conflicts == s.conflicts
            && (NoFault(s, r.s) ==> r.ok)
  {
    var l := Call(s, ListDeployments);
    ListGood(pr, w0, s, st, mode);
    if l.reply.Items? {
      Open(pr, w0, s, mode);
      ListPresent(pr, s);
      RestartEachGood(pr, w0, l.s, l.reply.items, at, st, mode);
    }
  }

  predicate Restarted(ns: Option<Namespace>, name: string, at: int) {
    ns.Some? && name in ns.value.deployments && ns.value.deployments[name].restartedAt == Some(at)
  }

  /** Restarting goes through the whole list and undoes nothing. */
  lemma {:induction false} RestartEachEffect(pr: string, w0: World, s: Sys, items: seq<Item>, at: int, st: Stack, mode: Mode)
    requires Good(pr, w0, s, st, mode) && s.w.ns.Some? && Present(s.w.ns, items) && ItemsTold(pr, items)
    ensures var r := RestartEach(s, items, at);
            && r.s.w.ns.Some? && r.s.w.ns.value.deployments.Keys == s.w.ns.value.deployments.Keys
            && (forall name :: Restarted(s.w.ns, name, at) ==> Restarted(r.s.w.ns, name, at))
            && (r.ok ==> forall i :: 0 <= i < |items| ==> Restarted(r.s.w.ns, items[i].name, at))
    decreases |items|
  {
    if items != [] {
      var d := items[0].deployment.(restartedAt := Some(at));
      UpdateGood(pr, w0, s, items[0].name, d, st, mode);
      var u := Call(s, UpdateObj(DeploymentManifest(items[0].name, d)));
      var v := Put(s.w.ns.value, DeploymentManifest(items[0].name, d));
      assert v.deployments.Keys == s.w.ns.value.deployments.Keys + {items[0].name} == s.w.ns.value.deployments.Keys;
      if u.reply.Done? { RestartEachEffect(pr, w0, u.s, items[1..], at, st, mode); }
    }
  }

  /** A restart without an error leaves the annotation on every deployment of the namespace. */
  lemma RestartsAll(pr: string, w0: World, s: Sys, at: int, st: Stack, mode: Mode)
    requires Good(pr, w0, s, st, mode)
    ensures var r := RestartDeployments(s, at); r.ok ==> AllRestarted(r.s.w.ns, Some(at))
  {
    var l := Call(s, ListDeployments);
    ListGood(pr, w0, s, st, mode);
    if l.reply.Items? {
      Open(pr, w0, s, mode);
      ListPresent(pr, s);
      if l.s.w.ns.Some? {
        RestartEachEffect(pr, w0, l.s, l.reply.items, at, st, mode);
        var r := RestartEach(l.s, l.reply.items, at);
        if r.ok {
          forall name | name in r.s.w.ns.value.deployments
            ensures r.s.w.ns.value.deployments[name].restartedAt == Some(at)
          {
            assert name in l.s.w.ns.value.deployments;
            assert Restarted(r.s.w.ns, name, at);
          }
        }
      }
    }
  }

  // ---------------------------------------------------------------- running

  lemma MatchGood(pr: string, w0: World, s: Sys, active: bool, st: Stack, mode: Mode)
    requires Good(pr, w0, s, st, mode)
    ensures var r := MatchReplicas(s, active);
            Good(pr, w0, r, st, mode) && Server(r) == Server(s) && s.w.now <= r.w.now && r.conflicts == s.conflicts
  {
    ListGood(pr, w0, s, st, mode);
    ScaleGood(pr, w0, Call(s, ListDeployments).s, if active then 1 else 0, st, mode);
  }

  /** A running stack keeps its status; a degraded one only gets the unhealthy message. */
  ghost predicate RunningEnds(pr: string, w0: World, s: Sys, r: Sys, st: Stack, mode: Mode) {
    && Final(pr, w0, r, mode)
    && (Server(r) == st.status ||
        (st.status.phase == Degraded && Server(r) == st.status.(message := UNHEALTHY)))
    && (st.status.phase == Degraded && Clean(s, r) ==> Server(r).message == UNHEALTHY)
    && r.panicked == s.panicked && r.crashed == s.crashed
  }

  lemma RunningKeeps(pr: string, w0: World, s: Sys, st: Stack, mode: Mode)
    requires Good(pr, w0, s, st, mode) && Synced(s, st) && st.status.phase in {Running, Degraded}
    ensures RunningEnds(pr, w0, s, HandleRunning(s, st), st, mode)
  {
    GoodStatus(pr, w0, s, st, mode);
    MatchGood(pr, w0, s, st.spec.active, st, mode);
    var r := MatchReplicas(s, st.spec.active);
    if !AllRunning(st.status.services) {
      MessageWrite(pr, w0, r, st, UNHEALTHY, mode);
    }
  }

  /** Writing back the server's status with another message is always allowed. */
  lemma MessageWritable(pr: string, w: World, st: Stack, x: Stack)
    requires w.stack.Some? && st.status == w.stack.value.status && StatusFits(st.status, w.stack.value.deleted, w.now)
    requires st.status.phase == Cleaning || st.status.phase == Cleaned ==> st.deleted
    requires Live(st.status.phase) ==> CredentialsAgree(pr, st.status, w)
    requires x == st.(status := st.status.(message := x.status.message))
    ensures Writable(pr, w, x, Plain)
  {
    if Live(st.status.phase) { assert CredentialsAgree(pr, x.status, w); }
  }

  lemma MessageWrite(pr: string, w0: World, s: Sys, st: Stack, message: Message, mode: Mode)
    requires Good(pr, w0, s, st, mode) && Synced(s, st)
    ensures var r := UpdateStatus(s, st.(status := st.status.(message := message)), Plain);
            && Final(pr, w0, r.s, mode)
            && (Server(r.s) == st.status || Server(r.s) == st.status.(message := message))
            && (r.ok ==> Server(r.s).message == message)
            && (!r.ok ==> !Clean(s, r.s))
  {
    GoodStatus(pr, w0, s, st, mode);
    var x := st.(status := st.status.(message := message));
    MessageWritable(pr, s.w, st, x);
    StatusWrite(pr, w0, s, x, Plain, mode);
  }

  // ---------------------------------------------------------------- inactive

  function InactiveText(expired: bool): Message {
    Text(if expired then EXPIRED_TEXT else INACTIVE_TEXT)
  }

  /** Without a failed call the status is the old one in phase Inactive, with the message that fits the clock. */
  ghost predicate InactiveEnds(pr: string, w0: World, s: Sys, r: Sys, st: Stack, expired: bool, mode: Mode) {
    && Final(pr, w0, r, mode)
    && (Server(r) == st.status || Server(r).phase in {Inactive, Failed})
    && (Clean(s, r) ==> Server(r) == st.status.(phase := Inactive, message := InactiveText(expired)))
    && (NoFault(s, r) ==> Server(r) == st.status || Server(r).phase == Inactive)
    && r.panicked == s.panicked && r.crashed == s.crashed
  }

  lemma InactiveWrite(pr: string, w0: World, s: Sys, st: Stack, text: string, mode: Mode)
    requires Good(pr, w0, s, st, mode) && Synced(s, st)
    ensures var r := UpdateStatus(s, WithPhase(st, Inactive, Text(text)), Plain);
            && Final(pr, w0, r.s, mode)
            && (Server(r.s) == st.status || Server(r.s).phase == Inactive)
            && (Clean(s, r.s) ==> Server(r.s) == st.status.(phase := Inactive, message := Text(text)))
  {
    GoodStatus(pr, w0, s, st, mode);
    StatusWrite(pr, w0, s, WithPhase(st, Inactive, Text(text)), Plain, mode);
  }

  lemma FinishInactiveGood(pr: string, w0: World, s0: Sys, d: Step, expired: bool, st: Stack, mode: Mode)
    requires Good(pr, w0, d.s, st, mode) && Synced(d.s, st) && (expired ==> st.status.createdAt.Some?)
    requires d.s.panicked == s0.panicked && d.s.crashed == s0.crashed
    requires d.s.faults >= s0.faults && d.s.conflicts >= s0.conflicts && (NoFault(s0, d.s) ==> d.ok)
    ensures InactiveEnds(pr, w0, s0, FinishInactive(d, expired, st), st, expired, mode)
  {
    if !d.ok {
      GoodStatus(pr, w0, d.s, st, mode);
      ErrorKeeps(pr, w0, d.s, st, "Failed to scale down", mode);
    } else if !expired {
      InactiveWrite(pr, w0, d.s, st, INACTIVE_TEXT, mode);
    } else {
      AfterGood(pr, w0, d.s, st, mode);
      InactiveWrite(pr, w0, ReadClock(d.s), st, EXPIRED_TEXT, mode);
    }
  }

  lemma InactiveKeeps(pr: string, w0: World, s: Sys, st: Stack, mode: Mode)
    requires Good(pr, w0, s, st, mode) && Synced(s, st)
    ensures InactiveEnds(pr, w0, s, HandleInactive(s, st), st, IsExpired(st, ReadClock(s).w.now), mode)
  {
    var clock := ReadClock(s);
    AfterGood(pr, w0, s, st, mode);
    GoodStatus(pr, w0, clock, st, mode);
    ScaleGood(pr, w0, clock, 0, st, mode);
    FinishInactiveGood(pr, w0, s, ScaleDeployments(clock, 0), IsExpired(st, clock.w.now), st, mode);
  }

  // ---------------------------------------------------------------- rollout

  /** A rollout succeeds with a fresh copy, in which a due one has recorded the time it rolled out, or ends the pass; the
      status it leaves is unchanged but for that time or the message. */
  ghost predicate RolloutEnds(pr: string, w0: World, s: Sys, r: Res, st: Stack, mode: Mode) {
    && Final(pr, w0, r.s, mode)
    && (r.ok ==>
          && Good(pr, w0, r.s, r.st, mode) && Synced(r.s, r.st)
          && r.st.spec == st.spec && r.st.deleted == st.deleted
          && r.st.status == if ShouldRollout(st) then st.status.(lastDeployedAt := st.spec.deployedAt) else st.status)
    && (Server(r.s) == st.status || Server(r.s) == st.status.(lastDeployedAt := st.spec.deployedAt)
        || Server(r.s) == st.status.(message := Text("Rollout failed")))
    && (Clean(s, r.s) ==> r.ok)
    && r.s.panicked == s.panicked && r.s.crashed == s.crashed
  }

  lemma FinishRolloutGood(pr: string, w0: World, s0: Sys, d: Step, st: Stack, mode: Mode)
    requires Good(pr, w0, d.s, st, mode) && Synced(d.s, st) && ShouldRollout(st)
    requires d.ok ==> AllRestarted(d.s.w.ns, st.spec.deployedAt)
    requires d.s.panicked == s0.panicked && d.s.crashed == s0.crashed
    requires d.s.faults >= s0.faults && d.s.conflicts >= s0.conflicts && (NoFault(s0, d.s) ==> d.ok)
    ensures RolloutEnds(pr, w0, s0, FinishRollout(d, st), st, mode)
  {
    if d.ok {
      RolloutWrite(pr, w0, d.s, st, mode);
    } else {
      MessageWrite(pr, w0, d.s, st, Text("Rollout failed"), mode);
    }
  }

  lemma RolloutKeeps(pr: string, w0: World, s: Sys, st: Stack, mode: Mode)
    requires Good(pr, w0, s, st, mode) && Synced(s, st)
    ensures RolloutEnds(pr, w0, s, Rollout(s, st), st, mode)
  {
    if ShouldRollout(st) {
      RestartGood(pr, w0, s, st.spec.deployedAt.value, st, mode);
      RestartsAll(pr, w0, s, st.spec.deployedAt.value, st, mode);
      FinishRolloutGood(pr, w0, s, RestartDeployments(s, st.spec.deployedAt.value), st, mode);
    }
  }

  lemma RolloutWrite(pr: string, w0: World, s: Sys, st: Stack, mode: Mode)
    requires Good(pr, w0, s, st, mode) && Synced(s, st) && ShouldRollout(st) && AllRestarted(s.w.ns, st.spec.deployedAt)
    ensures var x := st.(status := st.status.(lastDeployedAt := st.spec.deployedAt));
            var r := UpdateStatus(s, x, RolledOut);
            && Final(pr, w0, r.s, mode) && (Server(r.s) == st.status || Server(r.s) == x.status)
            && (Clean(s, r.s) ==> r.ok)
            && (r.ok ==> Good(pr, w0, r.s, r.st, mode) && Synced(r.s, r.st) && r.st == x.(version := r.st.version))
  {
    GoodStatus(pr, w0, s, st, mode);
    var x := st.(status := st.status.(lastDeployedAt := st.spec.deployedAt));
    if Live(st.status.phase) { assert CredentialsAgree(pr, x.status, s.w); }
    assert Writable(pr, s.w, x, RolledOut);
    StatusWrite(pr, w0, s, x, RolledOut, mode);
  }
}
