/** Properties of the run-level state machine, stated about one arm (Arm)
 *  and about a whole call of the step function (Drain). */
module SmProperties {
  import opened Sm

  /** How many times e occurs in an effect log. */
  function Count(effs: seq<Effect>, e: Effect): (n: nat)
    ensures n <= |effs|
    ensures n == 0 <==> e !in effs
  {
    if effs == [] then 0 else (if effs[0] == e then 1 else 0) + Count(effs[1..], e)
  }

  lemma {:induction false} CountAppend(a: seq<Effect>, b: seq<Effect>, e: Effect)
    ensures Count(a + b, e) == Count(a, e) + Count(b, e)
  {
    if a == [] {
      assert a + b == b;
    } else {
      assert (a + b)[1..] == a[1..] + b;
      CountAppend(a[1..], b, e);
    }
  }

  /** The six status names are pairwise distinct. */
  lemma StatusDistinct(a: State, b: State)
    ensures Status(a) == Status(b) ==> a == b
  {
    match a
    case Bootstrap => assert Status(a)[0] == 'b';
    case Running => assert Status(a)[0] == 'r' && |Status(a)| == 7;
    case RunlevelChange => assert Status(a)[9] == 'c';
    case RunlevelWait => assert Status(a)[9] == 'w';
    case ReloadChange => assert Status(a)[7] == 'c';
    case ReloadWait => assert Status(a)[7] == 'w';
  }

  /** Bootstrap always moves on: it logs the first-boot pass over run, task
   *  and service types and continues in Running. */
  lemma BootstrapMovesOn(m: Machine, stopDone: nat -> bool, k: nat)
    requires m.state == Bootstrap
    ensures var rest := Drain(m.(state := Running), stopDone, k);
      Drain(m, stopDone, k) == Run(rest.final, [ServiceStepAll(RunTaskService)] + rest.effects)
  {
    Unfold(m, stopDone, k);
  }

  /** A Wait state whose stop query answers "not done" returns at once and
   *  changes and logs nothing. */
  lemma WaitNotDone(m: Machine, stopDone: nat -> bool, k: nat)
    requires IsWait(m.state) && !stopDone(k)
    ensures Drain(m, stopDone, k) == Run(m, [])
  {
  }

  /** With no level request and no reload pending, Running is a fixed point:
   *  the step changes and logs nothing, however often it is called. */
  lemma StableRunning(m: Machine, stopDone: nat -> bool, k: nat)
    requires m.state == Running && !IsLevel(m.newlevel) && !m.reload
    ensures Drain(m, stopDone, k) == Run(m, [])
  {
  }

  /** A request for the current level is absorbed: the request is cleared,
   *  nothing else changes, nothing is logged, and a pending reload is left
   *  for the next call. */
  lemma AbsorbCurrentLevel(m: Machine, stopDone: nat -> bool, k: nat)
    requires m.state == Running && IsLevel(m.newlevel) && m.newlevel == m.runlevel
    ensures Drain(m, stopDone, k) == Run(m.(newlevel := -1), [])
    ensures Drain(m, stopDone, k).final.reload == m.reload
  {
  }

  /** The first half of the reload cycle: consume the flag, reload the
   *  configuration, raise the teardown flag, mark conditions in flux and stop
   *  affected services, in that order. */
  lemma ReloadStarts(m: Machine, stopDone: nat -> bool, k: nat)
    requires m.state == Running && !IsLevel(m.newlevel) && m.reload
    ensures var rest := Drain(m.(reload := false, inTeardown := true, state := ReloadWait), stopDone, k);
      Drain(m, stopDone, k)
      == Run(rest.final, [ConfReloadDynamic, Teardown(true), CondReload, ServiceStepAll(ServiceInetd)] + rest.effects)
  {
    var m1 := m.(reload := false, state := ReloadChange);
    Unfold(m, stopDone, k);
    Unfold(m1, stopDone, k);
  }

  /** The second half of the reload cycle, once stopping is done: lower the
   *  teardown flag, purge stale services, start services, run the
   *  reconfiguration hooks and start services again, then Running. */
  lemma ReloadFinishes(m: Machine, stopDone: nat -> bool, k: nat)
    requires m.state == ReloadWait && stopDone(k)
    ensures var rest := Drain(m.(inTeardown := false, state := Running), stopDone, k + 1);
      Drain(m, stopDone, k)
      == Run(rest.final, [Teardown(false), SvcCleanDynamic, ServiceStepAll(ServiceInetd),
                          RunHooks(HookSvcReconf), ServiceStepAll(ServiceInetd)] + rest.effects)
  {
    Unfold(m, stopDone, k);
  }

  /** A reload request met in Running with no valid level request, when
   *  stopping completes at once: the flag is consumed, the stored
   *  out-of-range level is kept, the levels and the marker are untouched,
   *  and exactly one reload cycle is logged, in a fixed order, before the
   *  machine is back in Running with the teardown flag lowered. */
  lemma ReloadCycle(m: Machine, stopDone: nat -> bool, k: nat)
    requires m.state == Running && !IsLevel(m.newlevel) && m.reload && stopDone(k)
    ensures var r := Drain(m, stopDone, k);
      && r.final == m.(reload := false, inTeardown := false)
      && r.effects == [ConfReloadDynamic, Teardown(true), CondReload, ServiceStepAll(ServiceInetd),
                       Teardown(false), SvcCleanDynamic, ServiceStepAll(ServiceInetd),
                       RunHooks(HookSvcReconf), ServiceStepAll(ServiceInetd)]
  {
    var m2 := m.(reload := false, inTeardown := true, state := ReloadWait);
    ReloadStarts(m, stopDone, k);
    ReloadFinishes(m2, stopDone, k);
    StableRunning(m2.(inTeardown := false, state := Running), stopDone, k + 1);
  }

  /** The same request when stopping is not yet done: the call parks in
   *  ReloadWait with the teardown flag raised, having logged only the first
   *  half of the cycle. */
  lemma ReloadCycleWaits(m: Machine, stopDone: nat -> bool, k: nat)
    requires m.state == Running && !IsLevel(m.newlevel) && m.reload && !stopDone(k)
    ensures var r := Drain(m, stopDone, k);
      && r.final == m.(reload := false, inTeardown := true, state := ReloadWait)
      && r.effects == [ConfReloadDynamic, Teardown(true), CondReload, ServiceStepAll(ServiceInetd)]
  {
    var m2 := m.(reload := false, inTeardown := true, state := ReloadWait);
    ReloadStarts(m, stopDone, k);
    WaitNotDone(m2, stopDone, k);
  }

  /** When no level request is pending in Running, a step never touches the
   *  levels or the marker and never asks for a shutdown, a TTY respawn or a
   *  level notification. */
  lemma {:induction false} QuietStep(m: Machine, stopDone: nat -> bool, k: nat)
    requires m.state == Running && !IsLevel(m.newlevel)
    ensures var r := Drain(m, stopDone, k);
      && r.final.runlevel == m.runlevel && r.final.prevlevel == m.prevlevel
      && r.final.newlevel == m.newlevel && r.final.nologin == m.nologin
      && !r.final.reload
      && (r.final.state == Running || (m.reload && r.final.state == ReloadWait))
      && DoShutdown(ShutOff) !in r.effects && DoShutdown(ShutReboot) !in r.effects
      && (forall l :: TtyRunlevel(l) !in r.effects)
      && (forall p, n :: RunlevelSet(p, n) !in r.effects)
  {
    if m.reload && stopDone(k) {
      ReloadCycle(m, stopDone, k);
    } else if m.reload {
      ReloadCycleWaits(m, stopDone, k);
    } else {
      StableRunning(m, stopDone, k);
    }
  }

  /** Completing RunlevelWait: hooks run before the teardown flag is cleared,
   *  services are started and stale ones purged, the marker ends up present
   *  exactly for levels 0, 1 and 6, and the machine is back in Running with
   *  the levels untouched. */
  lemma RunlevelWaitCompletes(m: Machine)
    requires m.state == RunlevelWait
    ensures var f := Arm(m, true);
      && f.next.state == Running && !f.next.inTeardown
      && f.next.runlevel == m.runlevel && f.next.prevlevel == m.prevlevel
      && f.next.newlevel == m.newlevel && f.next.reload == m.reload
      && (f.next.nologin <==> m.runlevel in {0, 1, 6})
      && |f.effects| >= 5
      && f.effects[..4] == [RunHooks(HookRunlevelChange), Teardown(false), ServiceStepAll(AnyType), SvcCleanDynamic]
      && f.effects[4] == (if m.runlevel in {0, 1, 6} then TouchNologin else EraseNologin)
  {
  }

  /** Completing RunlevelWait at level 0 asks for exactly one power-off, at
   *  level 6 for exactly one reboot, neither with a TTY respawn; any other
   *  level respawns TTYs for that level exactly when the previous level was
   *  above 0. */
  lemma RunlevelWaitShutdown(m: Machine)
    requires m.state == RunlevelWait
    ensures var f := Arm(m, true);
      && Count(f.effects, DoShutdown(ShutOff)) == (if m.runlevel == 0 then 1 else 0)
      && Count(f.effects, DoShutdown(ShutReboot)) == (if m.runlevel == 6 then 1 else 0)
      && Count(f.effects, TtyRunlevel(m.runlevel))
         == (if m.runlevel != 0 && m.runlevel != 6 && m.prevlevel > 0 then 1 else 0)
      && (forall l :: TtyRunlevel(l) in f.effects ==> l == m.runlevel)
      && (forall p, n :: RunlevelSet(p, n) !in f.effects)
  {
    var f := Arm(m, true);
    var marker := if NologinLevel(m.runlevel) then TouchNologin else EraseNologin;
    var head := [RunHooks(HookRunlevelChange), Teardown(false), ServiceStepAll(AnyType), SvcCleanDynamic, marker];
    var last := f.effects[5..];
    assert f.effects == head + last;
    assert DoShutdown(ShutOff) !in head && DoShutdown(ShutReboot) !in head;
    assert forall l :: TtyRunlevel(l) !in head;
    assert forall p, n :: RunlevelSet(p, n) !in head;
    CountAppend(head, last, DoShutdown(ShutOff));
    CountAppend(head, last, DoShutdown(ShutReboot));
    CountAppend(head, last, TtyRunlevel(m.runlevel));
    if m.runlevel == 0 {
      assert last == [DoShutdown(ShutOff)];
    } else if m.runlevel == 6 {
      assert last == [DoShutdown(ShutReboot)];
    } else if m.prevlevel > 0 {
      assert last == [TtyRunlevel(m.runlevel)];
    } else {
      assert last == [];
    }
  }

  /** A whole step begun in RunlevelWait, with stopping done and no newer
   *  level request queued: the shutdown, TTY and marker guarantees of
   *  completing RunlevelWait hold of everything the call logs; a pending
   *  reload may follow and park the machine in ReloadWait. */
  lemma {:induction false} LevelChangeCompletes(m: Machine, stopDone: nat -> bool, k: nat)
    requires m.state == RunlevelWait && stopDone(k) && !IsLevel(m.newlevel)
    ensures var r := Drain(m, stopDone, k);
      && r.final.runlevel == m.runlevel && r.final.prevlevel == m.prevlevel
      && r.final.newlevel == m.newlevel
      && (r.final.nologin <==> m.runlevel in {0, 1, 6})
      && (r.final.state == Running || (m.reload && r.final.state == ReloadWait))
      && |r.effects| >= 2
      && r.effects[..2] == [RunHooks(HookRunlevelChange), Teardown(false)]
      && Count(r.effects, DoShutdown(ShutOff)) == (if m.runlevel == 0 then 1 else 0)
      && Count(r.effects, DoShutdown(ShutReboot)) == (if m.runlevel == 6 then 1 else 0)
      && Count(r.effects, TtyRunlevel(m.runlevel))
         == (if m.runlevel != 0 && m.runlevel != 6 && m.prevlevel > 0 then 1 else 0)
      && (forall l :: TtyRunlevel(l) in r.effects ==> l == m.runlevel)
  {
    var f := Arm(m, true);
    RunlevelWaitCompletes(m);
    RunlevelWaitShutdown(m);
    Unfold(m, stopDone, k);
    var rest := Drain(f.next, stopDone, k + 1);
    QuietStep(f.next, stopDone, k + 1);
    assert Count(rest.effects, DoShutdown(ShutOff)) == 0;
    assert Count(rest.effects, DoShutdown(ShutReboot)) == 0;
    assert Count(rest.effects, TtyRunlevel(m.runlevel)) == 0;
    CountAppend(f.effects, rest.effects, DoShutdown(ShutOff));
    CountAppend(f.effects, rest.effects, DoShutdown(ShutReboot));
    CountAppend(f.effects, rest.effects, TtyRunlevel(m.runlevel));
    assert (f.effects + rest.effects)[..2] == f.effects[..2];
  }

  /** A step begun in RunlevelWait with no newer level request queued logs
   *  no level notification, whatever the stop queries answer. */
  lemma {:induction false} WaitDoesNotRenotify(m: Machine, stopDone: nat -> bool, k: nat)
    requires m.state == RunlevelWait && !IsLevel(m.newlevel)
    ensures forall p, n :: RunlevelSet(p, n) !in Drain(m, stopDone, k).effects
  {
    if stopDone(k) {
      var f := Arm(m, true);
      RunlevelWaitCompletes(m);
      RunlevelWaitShutdown(m);
      Unfold(m, stopDone, k);
      QuietStep(f.next, stopDone, k + 1);
    } else {
      WaitNotDone(m, stopDone, k);
    }
  }

  /** The first half of a run-level change: previous := current,
   *  current := requested, request cleared, then the level notification, the
   *  configuration reload, the raised teardown flag and the stop pass over
   *  all service types, in that order, and on to RunlevelWait. */
  lemma LevelChangeStarts(m: Machine, stopDone: nat -> bool, k: nat)
    requires m.state == Running && IsLevel(m.newlevel) && m.newlevel != m.runlevel
    ensures var m2 := m.(state := RunlevelWait, prevlevel := m.runlevel, runlevel := m.newlevel,
                         newlevel := -1, inTeardown := true);
      var rest := Drain(m2, stopDone, k);
      Drain(m, stopDone, k)
      == Run(rest.final, [RunlevelSet(m.runlevel, m.newlevel), ConfReloadDynamic, Teardown(true), ServiceStepAll(AnyType)]
                         + rest.effects)
  {
    Unfold(m, stopDone, k);
    Unfold(m.(state := RunlevelChange), stopDone, k);
  }

  /** A request for a different level, met in Running: the levels are updated
   *  (previous := current, current := requested, request cleared), the new
   *  level is a proper level, and the call first logs the level
   *  notification, the configuration reload, the raised teardown flag and
   *  the stop pass over all service types, whatever the stop queries
   *  answer. */
  lemma {:induction false} LevelChangeAccepted(m: Machine, stopDone: nat -> bool, k: nat)
    requires m.state == Running && IsLevel(m.newlevel) && m.newlevel != m.runlevel
    ensures var r := Drain(m, stopDone, k);
      && r.final.prevlevel == m.runlevel && r.final.runlevel == m.newlevel
      && IsLevel(r.final.runlevel) && r.final.newlevel == -1
      && |r.effects| >= 4
      && r.effects[..4] == [RunlevelSet(m.runlevel, m.newlevel), ConfReloadDynamic, Teardown(true), ServiceStepAll(AnyType)]
  {
    var m2 := m.(state := RunlevelWait, prevlevel := m.runlevel, runlevel := m.newlevel,
                 newlevel := -1, inTeardown := true);
    var e := [RunlevelSet(m.runlevel, m.newlevel), ConfReloadDynamic, Teardown(true), ServiceStepAll(AnyType)];
    LevelChangeStarts(m, stopDone, k);
    var r2 := Drain(m2, stopDone, k);
    if stopDone(k) {
      LevelChangeCompletes(m2, stopDone, k);
    } else {
      WaitNotDone(m2, stopDone, k);
    }
    assert (e + r2.effects)[..4] == e;
  }

  /** An accepted level change notifies the new level exactly once per call:
   *  no other level notification is logged. */
  lemma {:induction false} LevelNotifiedOnce(m: Machine, stopDone: nat -> bool, k: nat)
    requires m.state == Running && IsLevel(m.newlevel) && m.newlevel != m.runlevel
    ensures var r := Drain(m, stopDone, k);
      && Count(r.effects, RunlevelSet(m.runlevel, m.newlevel)) == 1
      && (forall p, n :: RunlevelSet(p, n) in r.effects ==> p == m.runlevel && n == m.newlevel)
  {
    var m2 := m.(state := RunlevelWait, prevlevel := m.runlevel, runlevel := m.newlevel,
                 newlevel := -1, inTeardown := true);
    var e := [RunlevelSet(m.runlevel, m.newlevel), ConfReloadDynamic, Teardown(true), ServiceStepAll(AnyType)];
    LevelChangeStarts(m, stopDone, k);
    var r2 := Drain(m2, stopDone, k);
    WaitDoesNotRenotify(m2, stopDone, k);
    assert Count(r2.effects, RunlevelSet(m.runlevel, m.newlevel)) == 0;
    assert Count(e, RunlevelSet(m.runlevel, m.newlevel)) == 1;
    CountAppend(e, r2.effects, RunlevelSet(m.runlevel, m.newlevel));
    forall p, n | RunlevelSet(p, n) in e + r2.effects
      ensures p == m.runlevel && n == m.newlevel
    {
      assert RunlevelSet(p, n) in e;
    }
  }

  /** The same request when stopping is not yet done: the call parks in
   *  RunlevelWait with the teardown flag raised and the levels already
   *  updated, having logged only the first half of the cycle. */
  lemma LevelChangeWaits(m: Machine, stopDone: nat -> bool, k: nat)
    requires m.state == Running && IsLevel(m.newlevel) && m.newlevel != m.runlevel && !stopDone(k)
    ensures var r := Drain(m, stopDone, k);
      && r.final == m.(state := RunlevelWait, prevlevel := m.runlevel, runlevel := m.newlevel,
                       newlevel := -1, inTeardown := true)
      && r.effects == [RunlevelSet(m.runlevel, m.newlevel), ConfReloadDynamic, Teardown(true), ServiceStepAll(AnyType)]
  {
    var m2 := m.(state := RunlevelWait, prevlevel := m.runlevel, runlevel := m.newlevel,
                 newlevel := -1, inTeardown := true);
    LevelChangeStarts(m, stopDone, k);
    WaitNotDone(m2, stopDone, k);
  }
}
