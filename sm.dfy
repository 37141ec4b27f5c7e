/** The run-level state machine of the Finit init daemon.
 *
 *  The machine sequences bootstrap, run-level changes and configuration
 *  reloads.  Everything it calls into (the service layer, the configuration
 *  loader, the condition store, plugin hooks, the TTY manager and the
 *  shutdown executor) is a collaborator whose body is not modelled: each call
 *  is recorded as an entry in a ghost effect log, and the one query the
 *  machine makes, "have all services that were told to stop stopped?", is an
 *  oracle parameter.
 *
 *  The functions Arm (one arm of the switch) and Drain (the whole drain loop)
 *  specify the behaviour on values; the class StateMachine is the in-place
 *  object, and its Step method is proved to compute exactly what Drain does.
 */
module Sm {

  /** The six states of the machine. */
  datatype State = Bootstrap | Running | RunlevelChange | RunlevelWait | ReloadChange | ReloadWait

  /** The service-type masks the machine passes to service_step_all. */
  datatype SvcFilter =
    | RunTaskService   // run, task and service types: first boot in level S
    | AnyType          // every service type
    | ServiceInetd     // service and inetd types: the reload cycle

  /** Lifecycle events whose plugin hooks the machine runs. */
  datatype Hook = HookRunlevelChange | HookSvcReconf

  /** The two modes of the shutdown executor. */
  datatype ShutdownMode = ShutOff | ShutReboot

  /** One entry of the effect log: a collaborator call, or a write of the
   *  teardown flag or the login marker that collaborators can observe. */
  datatype Effect =
    | ServiceStepAll(filter: SvcFilter)
    | RunlevelSet(prev: int, next: int)
    | ConfReloadDynamic
    | CondReload
    | RunHooks(hook: Hook)
    | SvcCleanDynamic
    | Teardown(on: bool)
    | TouchNologin
    | EraseNologin
    | DoShutdown(mode: ShutdownMode)
    | TtyRunlevel(level: int)

  /** The machine record together with the two process-wide levels it writes
   *  and the presence of the /etc/nologin marker. */
  datatype Machine = Machine(
    state: State,
    newlevel: int,
    reload: bool,
    inTeardown: bool,
    runlevel: int,
    prevlevel: int,
    nologin: bool)

  /** The name of a state, as used in debug output.  Every state has a name
   *  of its own, so the "unknown" fallback is never produced. */
  function Status(s: State): (r: string)
    ensures r != "unknown"
  {
    match s
    case Bootstrap => "bootstrap"
    case Running => "running"
    case RunlevelChange => "runlevel/change"
    case RunlevelWait => "runlevel/wait"
    case ReloadChange => "reload/change"
    case ReloadWait => "reload/wait"
  }

  /** A run level proper: 0 (halt) to 9. */
  predicate IsLevel(n: int) { 0 <= n <= 9 }

  predicate IsWait(s: State) { s == RunlevelWait || s == ReloadWait }

  /** Levels in which logins are disabled: halt, single-user and reboot. */
  predicate NologinLevel(n: int) { n == 1 || n == 0 || n == 6 }

  /** The teardown flag is raised exactly in the two Wait states. */
  predicate TeardownMatches(m: Machine) { m.inTeardown <==> IsWait(m.state) }

  /** The login marker agrees with the run level, except while a level
   *  change is under way. */
  predicate MarkerSettled(m: Machine)
  {
    (m.nologin <==> NologinLevel(m.runlevel)) || m.state == RunlevelChange || m.state == RunlevelWait
  }

  /** Requests not yet consumed: a level request counts while newlevel holds
   *  a level or while it is being applied; a reload request while the flag
   *  is set. */
  function Pending(m: Machine): nat
  {
    (if IsLevel(m.newlevel) || m.state == RunlevelChange then 1 else 0) + (if m.reload then 1 else 0)
  }

  /** The rank of a state in the termination measure. */
  function Rank(s: State): nat
  {
    match s
    case RunlevelChange => 0
    case Running => 1
    case RunlevelWait => 2
    case ReloadWait => 2
    case Bootstrap => 2
    case ReloadChange => 3
  }

  /** n is strictly below m in the lexicographic order on (Pending, Rank). */
  predicate Progress(m: Machine, n: Machine)
  {
    Pending(n) < Pending(m) || (Pending(n) == Pending(m) && Rank(n.state) < Rank(m.state))
  }

  /** The outcome of one arm of the switch: the new machine and what it logged. */
  datatype Fired = Fired(next: Machine, effects: seq<Effect>)

  /** One pass through the switch of the step function.  stopDone is the
   *  answer of the service layer to "is stopping done?"; only the two Wait
   *  arms consult it. */
  function Arm(m: Machine, stopDone: bool): (r: Fired)
    ensures r.next.state == m.state ==> (m.state == Running || IsWait(m.state)) && r.effects == []
  {
    match m.state
    case Bootstrap =>
      Fired(m.(state := Running), [ServiceStepAll(RunTaskService)])
    case Running =>
      if IsLevel(m.newlevel) then
        if m.runlevel == m.newlevel then Fired(m.(newlevel := -1), [])
        else Fired(m.(state := RunlevelChange), [])
      else if m.reload then Fired(m.(reload := false, state := ReloadChange), [])
      else Fired(m, [])
    case RunlevelChange =>
      Fired(m.(prevlevel := m.runlevel, runlevel := m.newlevel, newlevel := -1,
               inTeardown := true, state := RunlevelWait),
            [RunlevelSet(m.runlevel, m.newlevel), ConfReloadDynamic, Teardown(true), ServiceStepAll(AnyType)])
    case RunlevelWait =>
      if !stopDone then Fired(m, [])
      else
        var marker := if NologinLevel(m.runlevel) then TouchNologin else EraseNologin;
        var last :=
          if m.runlevel == 0 then [DoShutdown(ShutOff)]
          else if m.runlevel == 6 then [DoShutdown(ShutReboot)]
          else if m.prevlevel > 0 then [TtyRunlevel(m.runlevel)]
          else [];
        Fired(m.(inTeardown := false, nologin := NologinLevel(m.runlevel), state := Running),
              [RunHooks(HookRunlevelChange), Teardown(false), ServiceStepAll(AnyType), SvcCleanDynamic, marker] + last)
    case ReloadChange =>
      Fired(m.(inTeardown := true, state := ReloadWait),
            [ConfReloadDynamic, Teardown(true), CondReload, ServiceStepAll(ServiceInetd)])
    case ReloadWait =>
      if !stopDone then Fired(m, [])
      else
        Fired(m.(inTeardown := false, state := Running),
              [Teardown(false), SvcCleanDynamic, ServiceStepAll(ServiceInetd), RunHooks(HookSvcReconf),
               ServiceStepAll(ServiceInetd)])
  }

  /** Every arm either leaves the state alone, and then it was Running or a
   *  Wait state and nothing is logged, or makes progress in the termination
   *  measure.  Arms keep the teardown flag matched to the Wait states and the
   *  login marker settled, and an arm that stays in Running leaves no valid
   *  level request behind. */
  lemma ArmFacts(m: Machine, stopDone: bool)
    ensures var r := Arm(m, stopDone);
      && (r.next.state == m.state || Progress(m, r.next))
      && (r.next.state == m.state ==> (m.state == Running || IsWait(m.state)) && r.effects == [])
      && (r.next.state == Running && m.state == Running ==> !IsLevel(r.next.newlevel))
      && (TeardownMatches(m) ==> TeardownMatches(r.next))
      && (MarkerSettled(m) ==> MarkerSettled(r.next))
  {
  }

  /** The outcome of a whole call of the step function. */
  datatype Run = Run(final: Machine, effects: seq<Effect>)

  /** The drain loop: apply arms until one leaves the state unchanged.
   *  stopDone(i) answers the i-th stop query made during the call; k is the
   *  index of the next query. */
  function Drain(m: Machine, stopDone: nat -> bool, k: nat): (r: Run)
    ensures r.final.state == Running || IsWait(r.final.state)
    decreases Pending(m), Rank(m.state)
  {
    var f := Arm(m, IsWait(m.state) && stopDone(k));
    var k' := if IsWait(m.state) then k + 1 else k;
    if f.next.state == m.state then Run(f.next, f.effects)
    else
      ArmFacts(m, IsWait(m.state) && stopDone(k));
      var rest := Drain(f.next, stopDone, k');
      Run(rest.final, f.effects + rest.effects)
  }

  /** One pass of the drain loop that changes the state: the call logs what
   *  the arm logs and continues from the arm's result. */
  lemma Unfold(m: Machine, stopDone: nat -> bool, k: nat)
    requires Arm(m, IsWait(m.state) && stopDone(k)).next.state != m.state
    ensures var f := Arm(m, IsWait(m.state) && stopDone(k));
      var rest := Drain(f.next, stopDone, if IsWait(m.state) then k + 1 else k);
      Drain(m, stopDone, k) == Run(rest.final, f.effects + rest.effects)
  {
  }

  /** A pass that leaves the state alone ends the call with the arm's result. */
  lemma Settle(m: Machine, stopDone: nat -> bool, k: nat)
    requires Arm(m, IsWait(m.state) && stopDone(k)).next.state == m.state
    ensures var f := Arm(m, IsWait(m.state) && stopDone(k));
      Drain(m, stopDone, k) == Run(f.next, f.effects)
  {
  }

  /** The loop invariant of the step method survives one pass that changes
   *  the state. */
  lemma Advance(m: Machine, stopDone: nat -> bool, k: nat, log: seq<Effect>, start: seq<Effect>, goal: Run)
    requires Arm(m, IsWait(m.state) && stopDone(k)).next.state != m.state
    requires Drain(m, stopDone, k).final == goal.final
    requires log + Drain(m, stopDone, k).effects == start + goal.effects
    ensures var f := Arm(m, IsWait(m.state) && stopDone(k));
      var rest := Drain(f.next, stopDone, if IsWait(m.state) then k + 1 else k);
      && rest.final == goal.final
      && (log + f.effects) + rest.effects == start + goal.effects
  {
    var f := Arm(m, IsWait(m.state) && stopDone(k));
    var rest := Drain(f.next, stopDone, if IsWait(m.state) then k + 1 else k);
    Unfold(m, stopDone, k);
    assert (log + f.effects) + rest.effects == log + (f.effects + rest.effects);
  }

  /** The step function returns only in Running or a Wait state, never with a
   *  valid level request pending in Running, and keeps the teardown flag
   *  matched to the Wait states and the login marker settled. */
  lemma {:induction false} DrainFacts(m: Machine, stopDone: nat -> bool, k: nat)
    ensures var r := Drain(m, stopDone, k);
      && (r.final.state == Running || IsWait(r.final.state))
      && (r.final.state == Running ==> !IsLevel(r.final.newlevel))
      && (TeardownMatches(m) ==> TeardownMatches(r.final))
      && (MarkerSettled(m) ==> MarkerSettled(r.final))
    decreases Pending(m), Rank(m.state)
  {
    var f := Arm(m, IsWait(m.state) && stopDone(k));
    ArmFacts(m, IsWait(m.state) && stopDone(k));
    if f.next.state != m.state {
      DrainFacts(f.next, stopDone, if IsWait(m.state) then k + 1 else k);
    }
  }

  /** The state machine object: the four members of the record, the two
   *  process-wide levels it writes, the login marker and the effect log. */
  class StateMachine {
    var state: State
    var newlevel: int
    var reload: bool
    var inTeardown: bool
    var runlevel: int
    var prevlevel: int
    ghost var nologin: bool
    ghost var log: seq<Effect>

    /** The object's value. */
    ghost function Snapshot(): Machine
      reads this
    {
      Machine(state, newlevel, reload, inTeardown, runlevel, prevlevel, nologin)
    }

    /** Between calls the machine is never in a Change state, and the
     *  teardown flag is raised exactly in the Wait states. */
    ghost predicate Valid()
      reads this
    {
      (state == Bootstrap || state == Running || IsWait(state)) && TeardownMatches(Snapshot())
    }

    /** Allocation followed by initialisation.  The initial levels and the
     *  initial presence of the login marker are set elsewhere and are given. */
    constructor (level: int, previous: int, ghost markerPresent: bool)
      ensures Valid()
      ensures state == Bootstrap && newlevel == -1 && !reload && !inTeardown
      ensures runlevel == level && prevlevel == previous
      ensures nologin == markerPresent && log == []
    {
      runlevel, prevlevel := level, previous;
      nologin, log := markerPresent, [];
      new;
      Init();
    }

    /** Reset the record: Bootstrap, no pending level, no pending reload, no
     *  teardown.  The levels, the marker and the log are not touched. */
    method Init()
      modifies this`state, this`newlevel, this`reload, this`inTeardown
      ensures Valid()
      ensures state == Bootstrap && newlevel == -1 && !reload && !inTeardown
    {
      state := Bootstrap;
      newlevel := -1;
      reload := false;
      inTeardown := false;
    }

    /** Record a run-level request; the value is not validated, and a later
     *  request overwrites an earlier one. */
    method SetRunlevel(level: int)
      requires Valid()
      modifies this`newlevel
      ensures Valid()
      ensures newlevel == level
    {
      newlevel := level;
    }

    /** Record a reload request.  The flag is a boolean, so repeating the
     *  request leaves the object as it is. */
    method SetReload()
      requires Valid()
      modifies this`reload
      ensures Valid()
      ensures reload
    {
      reload := true;
    }

    /** Whether services are being torn down: true exactly in the Wait states. */
    function IsInTeardown(): (r: bool)
      reads this
      requires Valid()
      ensures r <==> state == RunlevelWait || state == ReloadWait
    {
      inTeardown
    }

    /** The step function: fire arms until the state stops changing.
     *  stopDone(i) is the answer of the service layer to the i-th stop query. */
    method Step(stopDone: nat -> bool)
      requires Valid()
      modifies this
      ensures Valid()
      ensures Snapshot() == Drain(old(Snapshot()), stopDone, 0).final
      ensures log == old(log) + Drain(old(Snapshot()), stopDone, 0).effects
    {
      ghost var goal := Drain(Snapshot(), stopDone, 0);
      DrainFacts(Snapshot(), stopDone, 0);
      var k: nat := 0;
      var more := true;
      while more
        invariant more ==> Drain(Snapshot(), stopDone, k).final == goal.final
        invariant more ==> log + Drain(Snapshot(), stopDone, k).effects == old(log) + goal.effects
        invariant !more ==> Snapshot() == goal.final && log == old(log) + goal.effects
        decreases if more then 1 else 0, Pending(Snapshot()), Rank(state)
      {
        ghost var m, log0 := Snapshot(), log;
        ghost var done := IsWait(m.state) && stopDone(k);
        var before := state;
        ArmFacts(m, done);
        if Arm(m, done).next.state != m.state {
          Advance(m, stopDone, k, log0, old(log), goal);
        } else {
          Settle(m, stopDone, k);
        }
        k := Fire(stopDone, k);
        more := state != before;
      }
    }

    /** One pass through the switch; returns the index of the next stop query. */
    method Fire(stopDone: nat -> bool, k: nat) returns (k': nat)
      modifies this
      ensures Snapshot() == Arm(old(Snapshot()), IsWait(old(state)) && stopDone(k)).next
      ensures log == old(log) + Arm(old(Snapshot()), IsWait(old(state)) && stopDone(k)).effects
      ensures k' == if IsWait(old(state)) then k + 1 else k
    {
      k' := k;
      match state {
        case Bootstrap =>
          log := log + [ServiceStepAll(RunTaskService)];
          state := Running;
        case Running =>
          if 0 <= newlevel <= 9 {
            if runlevel == newlevel {
              newlevel := -1;
            } else {
              state := RunlevelChange;
            }
          } else if reload {
            reload := false;
            state := ReloadChange;
          }
        case RunlevelChange =>
          ChangeRunlevel();
        case RunlevelWait =>
          var done := stopDone(k);
          k' := k + 1;
          if done {
            FinishRunlevel();
          }
        case ReloadChange =>
          log := log + [ConfReloadDynamic];
          inTeardown := true;
          log := log + [Teardown(true), CondReload, ServiceStepAll(ServiceInetd)];
          state := ReloadWait;
        case ReloadWait =>
          var done := stopDone(k);
          k' := k + 1;
          if done {
            inTeardown := false;
            log := log + [Teardown(false), SvcCleanDynamic, ServiceStepAll(ServiceInetd),
                          RunHooks(HookSvcReconf), ServiceStepAll(ServiceInetd)];
            state := Running;
          }
      }
    }

    /** The RunlevelChange arm. */
    method ChangeRunlevel()
      requires state == RunlevelChange
      modifies this
      ensures Snapshot() == Arm(old(Snapshot()), false).next
      ensures log == old(log) + Arm(old(Snapshot()), false).effects
    {
      prevlevel := runlevel;
      runlevel := newlevel;
      newlevel := -1;
      log := log + [RunlevelSet(prevlevel, runlevel), ConfReloadDynamic];
      inTeardown := true;
      log := log + [Teardown(true), ServiceStepAll(AnyType)];
      state := RunlevelWait;
    }

    /** The RunlevelWait arm once stopping is done. */
    method FinishRunlevel()
      requires state == RunlevelWait
      modifies this
      ensures Snapshot() == Arm(old(Snapshot()), true).next
      ensures log == old(log) + Arm(old(Snapshot()), true).effects
    {
      log := log + [RunHooks(HookRunlevelChange)];
      inTeardown := false;
      log := log + [Teardown(false), ServiceStepAll(AnyType), SvcCleanDynamic];
      if runlevel == 1 || runlevel == 0 || runlevel == 6 {
        nologin := true;
        log := log + [TouchNologin];
      } else {
        nologin := false;
        log := log + [EraseNologin];
      }
      if runlevel == 0 {
        log := log + [DoShutdown(ShutOff)];
      } else if runlevel == 6 {
        log := log + [DoShutdown(ShutReboot)];
      } else if prevlevel > 0 {
        log := log + [TtyRunlevel(runlevel)];
      }
      state := Running;
    }
  }
}
