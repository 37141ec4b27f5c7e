# Finit run-level state machine in Dafny

This project models the run-level state machine of the Finit init daemon
(`sm.c`). The machine takes the system from bootstrap to a running set of
services. It handles operator requests to change the run level and to reload
the configuration, and it drives power-off and reboot. It has six states:
Bootstrap, Running, RunlevelChange, RunlevelWait, ReloadChange and ReloadWait.
Its record holds `state`, `newlevel`, `reload` and `in_teardown`. It also
writes two process-wide levels, `runlevel` and `prevlevel`.

Files:

- `sm.dfy` (module `Sm`) holds the data model and the object.
  - `Machine` is the record plus the two levels and the presence of the
    `/etc/nologin` marker.
  - `Effect` is one entry of the effect log. It is a collaborator call, or a
    write of the teardown flag or of the marker.
  - `Arm` is one pass through the `switch` of `sm_step`. `Drain` is the whole
    `goto restart` loop, as functions on values.
  - `StateMachine` is the object that `sm_init`, `sm_set_runlevel`,
    `sm_set_reload`, `sm_is_in_teardown` and `sm_step` work on. Its fields are
    updated in place. `Step` runs a `while` loop and is proved to compute
    exactly what `Drain` computes: the new object state and the entries it
    appends to the log.
- `sm_properties.dfy` (module `SmProperties`) holds lemmas about whole calls of
  the step function. They cover absorption of requests, the level update,
  the reload cycle, the marker, shutdown and TTY calls, and the order of
  calls.
- `sm_scenarios.dfy` (module `SmScenarios`) holds three client methods. They
  drive a `StateMachine` through first boot and a change to level 2, a
  power-off from level 3, and a double reload request. They use only the
  contracts.

Modelling decisions:

- Collaborators are not modelled. Each call is an `Effect` appended to the
  ghost field `log`. This covers `service_step_all` with its type mask,
  `runlevel_set`, `conf_reload_dynamic`, `cond_reload`, `plugin_run_hooks`,
  `svc_clean_dynamic`, `touch`/`erase` of the marker, `do_shutdown` and
  `tty_runlevel`. Writes of `in_teardown` are logged as `Teardown(on)`, so
  order properties can say when collaborators see the flag raised.
- `service_stop_is_done()` is an oracle parameter `stopDone: nat -> bool`.
  The i-th stop query made during one call of `Step` receives `stopDone(i)`.
  Only the two Wait arms make a query.
- The marker is the ghost field `nologin`. The initial levels and the initial
  presence of the marker are set outside `sm.c`, so they are constructor
  parameters.
- `reload` and `in_teardown` are C ints. The code only ever writes 0 or 1 to
  them, so they are booleans here. `newlevel` is an unbounded int. It is only
  stored and compared, so no wrap-around matters.
- The drain loop terminates under the lexicographic measure (pending
  requests, rank of the state). A level request counts as pending while
  `newlevel` holds a level in 0..9 or while the state is RunlevelChange. A
  reload request counts while its flag is set.

Three behaviours of `sm_step` a reader may not expect:

- The teardown flag is raised inside the RunlevelChange and ReloadChange arms
  (sm.c:134, sm.c:188) and cleared inside the two Wait arms (sm.c:151,
  sm.c:201). Between arms, and so between calls, the flag is true exactly in
  the two Wait states, and the Change states are never seen between calls.
  Inside an arm, collaborators see the flag as the `Teardown(on)` log entries
  record it. For example, the stop pass of sm.c:135 runs with the flag raised
  while the state is still RunlevelChange. The start pass, the purge and the
  shutdown or TTY calls of sm.c:152-176 run with the flag cleared while the
  state is still RunlevelWait.
- A stored `newlevel` outside 0..9 is not cleared (sm.c:107). It stays stored
  and is ignored.
- A request for the current level is absorbed (sm.c:108-110). The call then
  returns at once, even if a reload is pending, because the state did not
  change (sm.c:218-220). The reload waits for the next call.

## Model

| member | source | states |
|---|---|---|
| `Sm.StateMachine.constructor` | sm.c:40-46 | A new machine is in Bootstrap with `newlevel = -1`, no reload pending, teardown flag clear, the given levels and marker, and an empty log; the object invariant holds |
| `Sm.StateMachine.Init` | sm.c:40-46 | Resets the record to Bootstrap, `newlevel = -1`, `reload = 0`, `in_teardown = 0`; the levels and the marker are left alone (frame) and the invariant holds |
| `Sm.StateMachine.SetRunlevel` | sm.c:74-77 | Stores any int as the requested level without validation; only `newlevel` may change, so a later request overwrites an earlier one |
| `Sm.StateMachine.SetReload` | sm.c:79-82 | Sets the reload flag and nothing else, so a second request leaves the object unchanged |
| `Sm.StateMachine.IsInTeardown` | sm.c:84-87 | Under the object invariant, the accessor returns true exactly when the state is RunlevelWait or ReloadWait |
| `Sm.StateMachine.Step` | sm.c:89-221 | The loop ends, and the new object state and the appended log entries are exactly those of `Drain` from the old state; the object invariant (never parked in a Change state, teardown flag matches the Wait states) is preserved |
| `Sm.StateMachine.Fire` | sm.c:98-216 | One pass through the switch changes the object and appends to the log exactly as `Arm` does, and consumes one stop query exactly in the Wait states |
| `Sm.StateMachine.ChangeRunlevel` | sm.c:122-138 | The RunlevelChange arm, in place, equals `Arm` on that state |
| `Sm.StateMachine.FinishRunlevel` | sm.c:146-179 | The RunlevelWait arm after stopping is done, in place, equals `Arm` on that state |
| `Sm.Status` | sm.c:48-72 | Names each of the six states; the `"unknown"` fallback is never produced |
| `Sm.Arm` | sm.c:98-216 | One pass through the switch: the new machine and the collaborator calls and flag and marker writes, in order, for each arm. An arm that leaves the state unchanged was in Running or a Wait state and logs nothing |
| `Sm.Drain` | sm.c:93-220 | The whole `goto restart` loop: arms are applied while the state changes, their logs are concatenated, and the i-th stop query gets answer `stopDone(i)`. The call ends only in Running, RunlevelWait or ReloadWait |
| `Sm.ArmFacts` | sm.c:98-216 | An arm that keeps the state was in Running or a Wait state and logs nothing, so Bootstrap and both Change states always move on; any other arm makes progress in (pending requests, state rank); arms keep the teardown flag matched to the Wait states and the marker settled |
| `Sm.DrainFacts` | sm.c:93-220 | A call returns only in Running, RunlevelWait or ReloadWait, never with a valid level request pending in Running; it keeps the teardown flag matched to the Wait states and the marker settled |
| `SmProperties.StatusDistinct` | sm.c:48-72 | The six status strings are pairwise distinct |
| `SmProperties.BootstrapMovesOn` | sm.c:99-103 | From Bootstrap the call logs the first-boot pass over run, task and service types and carries on in Running |
| `SmProperties.WaitNotDone` | sm.c:140-144 | A Wait state whose stop query answers "not done" returns at once, changing and logging nothing |
| `SmProperties.StableRunning` | sm.c:105-120 | In Running with no valid level request and no reload, the call changes and logs nothing, so calling it again is still a no-op |
| `SmProperties.AbsorbCurrentLevel` | sm.c:107-110 | A request in 0..9 equal to the current level is cleared; the state, levels, marker and pending reload are unchanged and nothing is logged |
| `SmProperties.ReloadStarts` | sm.c:116-193 | A reload in Running with no valid level request clears the flag, then logs configuration reload, teardown raised, conditions in flux and the service/inetd stop pass, in that order, and goes on to ReloadWait |
| `SmProperties.ReloadFinishes` | sm.c:195-215 | ReloadWait, once stopping is done, logs teardown cleared, stale-service purge, a service/inetd pass, the reconfiguration hooks and a second service/inetd pass, in that order, then Running |
| `SmProperties.ReloadCycle` | sm.c:181-215 | A reload with stopping done gives exactly one nine-entry reload cycle in order. The flag is cleared, an out-of-range `newlevel` is kept, the levels and marker are unchanged, and the machine ends in Running with the flag down |
| `SmProperties.ReloadCycleWaits` | sm.c:181-199 | The same request with stopping not done parks in ReloadWait with the teardown flag raised, having logged only the first four entries |
| `SmProperties.QuietStep` | sm.c:105-120 | In Running with no valid level request, the call leaves the levels, `newlevel` and the marker unchanged and clears any reload. It logs no shutdown, no TTY respawn and no level notification, and ends in Running or, after a reload, ReloadWait |
| `SmProperties.RunlevelWaitCompletes` | sm.c:146-161 | Completing RunlevelWait runs the hooks before the teardown flag is cleared, then starts services and purges stale ones. The marker is then present exactly for levels 0, 1 and 6, and the machine is back in Running with the levels unchanged |
| `SmProperties.RunlevelWaitShutdown` | sm.c:163-178 | Completing RunlevelWait logs one power-off at level 0 and one reboot at level 6, with no TTY respawn in either case. Any other level logs a TTY respawn for that level exactly when the previous level is above 0, and no level notification is logged |
| `SmProperties.LevelChangeCompletes` | sm.c:140-179 | A whole call from RunlevelWait with stopping done and no newer request pending keeps the shutdown, TTY and marker guarantees over everything it logs, with the levels unchanged |
| `SmProperties.WaitDoesNotRenotify` | sm.c:140-179 | A call from RunlevelWait with no newer request pending logs no level notification |
| `SmProperties.LevelChangeStarts` | sm.c:107-137 | A request for a different level leads to RunlevelChange. The previous level becomes the current one, the current level becomes the requested one and the request is cleared. The call logs `runlevel_set`, configuration reload, teardown raised and the stop pass over all types, in that order |
| `SmProperties.LevelChangeAccepted` | sm.c:122-137 | After an accepted change the levels are updated once, to previous = old current and current = requested, in 0..9, with the request cleared, whatever the stop queries answer. The call's log starts with the four RunlevelChange entries |
| `SmProperties.LevelNotifiedOnce` | sm.c:123-128 | An accepted change logs `runlevel_set(old, new)` exactly once per call and no other level notification |
| `SmProperties.LevelChangeWaits` | sm.c:122-144 | With stopping not done, an accepted change parks in RunlevelWait. The levels are already updated and the teardown flag is raised, and only the four RunlevelChange entries are logged |

## Left out

- Collaborator bodies are not modelled. This covers `service_step_all`,
  `service_stop_is_done`, `svc_clean_dynamic`, `conf_reload_dynamic`,
  `cond_reload`, `plugin_run_hooks`, `tty_runlevel`, `runlevel_set` and
  `do_shutdown`. They are foreign code, so they appear only as log entries or
  as oracle answers. Hooks are assumed not to re-enter `sm_set_runlevel` or
  `sm_set_reload` during a step.
- The filesystem effect of `touch`/`erase` on `/etc/nologin` is I/O. It is the
  ghost boolean `nologin`.
- `do_shutdown` does not return in the real system. The code sets the state to
  Running after it, so the model treats it as a call that returns.
- `_d` debug output, including the only use of `sm_status`, is output only.
  `Status` models the mapping itself.
- The `default: "unknown"` branch of `sm_status` cannot be reached. The state
  type has exactly six values.
- The global `sm` instance (sm.c:38) is not modelled. Nor is re-entry from
  signal handlers or from the service-monitor callback. The model is one
  object driven by one caller, and concurrency is outside it.
- Where the initial `runlevel`, `prevlevel` and marker come from is not part of
  `sm.c`. They are constructor parameters.
- LevelChangeCompletes: it assumes no newer level request was stored while
  the machine waited. If one was, the same call runs a second level cycle,
  and its shutdown or TTY entries are counted for that later level.
  LevelChangeAccepted and LevelNotifiedOnce cover any request made from
  Running.
