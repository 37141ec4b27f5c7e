/** Clients of the state machine object: what a caller can conclude from the
 *  contracts of StateMachine and the lemmas about Drain alone. */
module SmScenarios {
  import opened Sm
  import opened SmProperties

  /** Stop queries that never report completion, and ones that always do. */
  function NeverDone(i: nat): bool { false }
  function AlwaysDone(i: nat): bool { true }

  /** First boot at bootstrap level 0, then a change to level 2 that must
   *  wait once for services to stop.  Since the previous level is 0, no TTYs
   *  are respawned; logins stay enabled. */
  method BootThenLevelTwo()
  {
    var sm := new StateMachine(0, -1, false);
    BootstrapMovesOn(sm.Snapshot(), NeverDone, 0);
    StableRunning(sm.Snapshot().(state := Running), NeverDone, 0);
    sm.Step(NeverDone);
    assert sm.state == Running && sm.log == [ServiceStepAll(RunTaskService)];

    sm.SetRunlevel(2);
    LevelChangeWaits(sm.Snapshot(), NeverDone, 0);
    sm.Step(NeverDone);
    assert sm.state == RunlevelWait && sm.runlevel == 2 && sm.prevlevel == 0;
    assert sm.IsInTeardown();

    WaitNotDone(sm.Snapshot(), NeverDone, 0);
    sm.Step(NeverDone);
    assert sm.state == RunlevelWait;

    ghost var before := sm.Snapshot();
    LevelChangeCompletes(before, AlwaysDone, 0);
    sm.Step(AlwaysDone);
    assert sm.state == Running && !sm.IsInTeardown();
    assert !sm.nologin;
    assert Count(Drain(before, AlwaysDone, 0).effects, TtyRunlevel(2)) == 0;
  }

  /** Running at level 3, a request for level 0: the first call parks in
   *  RunlevelWait; once services have stopped, the next call requests
   *  exactly one power-off and no reboot, the login marker is present and
   *  the machine is back in Running. */
  method PowerOffFromLevelThree()
  {
    var sm := new StateMachine(3, 2, false);
    BootstrapMovesOn(sm.Snapshot(), NeverDone, 0);
    StableRunning(sm.Snapshot().(state := Running), NeverDone, 0);
    sm.Step(NeverDone);

    sm.SetRunlevel(0);
    LevelChangeWaits(sm.Snapshot(), NeverDone, 0);
    sm.Step(NeverDone);
    assert sm.state == RunlevelWait && sm.runlevel == 0 && sm.prevlevel == 3;

    ghost var before := sm.Snapshot();
    LevelChangeCompletes(before, AlwaysDone, 0);
    sm.Step(AlwaysDone);
    assert sm.state == Running && sm.nologin;
    assert Count(Drain(before, AlwaysDone, 0).effects, DoShutdown(ShutOff)) == 1;
    assert Count(Drain(before, AlwaysDone, 0).effects, DoShutdown(ShutReboot)) == 0;
  }

  /** Two reload requests before the machine runs collapse into one reload
   *  cycle. */
  method DoubleReload()
  {
    var sm := new StateMachine(2, 0, false);
    BootstrapMovesOn(sm.Snapshot(), AlwaysDone, 0);
    StableRunning(sm.Snapshot().(state := Running), AlwaysDone, 0);
    sm.Step(AlwaysDone);
    sm.SetReload();
    sm.SetReload();
    ghost var before := sm.Snapshot();
    ReloadCycle(before, AlwaysDone, 0);
    sm.Step(AlwaysDone);
    assert sm.state == Running && !sm.reload;
    assert Drain(before, AlwaysDone, 0).effects
        == [ConfReloadDynamic, Teardown(true), CondReload, ServiceStepAll(ServiceInetd),
            Teardown(false), SvcCleanDynamic, ServiceStepAll(ServiceInetd),
            RunHooks(HookSvcReconf), ServiceStepAll(ServiceInetd)];
  }
}
