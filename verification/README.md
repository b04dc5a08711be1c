# The circleguard run queue, in Dafny

circleguard's GUI (`circleguard/gui.py`) lets the user queue "runs": a map
check, a screen of a user's top plays, a folder of local replays, or a
verification of two users. Pressing "Run" records the run, gives it the next
id and a row in the queue tab, and puts it on a FIFO. One helper thread drains
that FIFO, executing one run at a time. The executor announces loading, sizes
the progress bar, loads every replay, compares, and pushes every comparison
onto a result queue. Before each load and each push it looks at the run's
cancellation latch. At the end it announces "Idle" and "Finished", including
after an exception. A timer hands the result queue to `print_results`, which
alerts on cheats and prints results below the display threshold.

This project models that skeleton as pure functions over event traces and
proves what the code promises about them.

| file | module | what it holds |
|---|---|---|
| `runs.dfy` | `Optional`, `Runs` | run kinds, runs, replays, comparisons, the event alphabet, the status strings |
| `trace.dfy` | `Trace` | views of a trace: statuses, labels, loads, pushes, progress signals, starts |
| `registry.dfy` | `Registry` | submission, the run list, the latches, the FIFO, the queue-tab rows |
| `executor.dfy` | `Executor` | `run_circleguard` as a loop-by-loop trace function, and its closed form |
| `facts.dfy` | `RunFacts` | what one run's trace contains, per outcome |
| `supervisor.dfy` | `Supervisor` | the sequential drain and "Run" followed by the queue check |
| `dispatch.dfy` | `Dispatch` | `print_results` |
| `progress.dfy` | `ProgressBar` | `reset_progressbar`, `increment_progressbar` and what a run leaves on the bar |

The executor takes its outside world as inputs:

- the engine's checks: one check, or a list of lists of checks for a screen run. Each check holds its replays and its comparisons.
- `cancelAt`: the first cancellation checkpoint at which the latch is seen set. Checkpoint `k < n` precedes the `k`-th load; checkpoint `n + j` precedes the push of the `j`-th comparison.
- `fail`: where an exception is raised, if anywhere.

`Executor.RunCircleguard` follows the source loop by loop. `Executor.Schedule`
and `Executor.HappyPath` form an independent reference: the uninterrupted
trace, cut at the earliest abort and followed by the cancellation block or the
closing block. `Executor.RunMatchesSchedule` proves that the two agree for
every input. The per-outcome facts in `RunFacts` are derived from that closed
form.

Some behaviour of the code is easy to miss, and the model keeps it:

- A run whose latch was set while it waited in the queue is not skipped. It is
  dequeued, announces "Loading Replays", sizes the bar, and stops at its first
  checkpoint (`RunFacts.CanceledWhileQueued`, `Supervisor.LatchedRunStillStarts`).
  With nothing to load and nothing to compare it even finishes
  (`RunFacts.EmptyRunIgnoresCancel`).
- After a cancellation the activity label stays on "Canceled". It does not go
  back to "Idle", and the run's row is never marked "Finished".
- The code has no rate-limit wait or backoff.
- A run that raises is marked "Finished" and the label goes to "Idle", but the
  bar is not emptied. It keeps the progress the run had reached
  (`ProgressBar.RaisedBar`).

## Model

| member | source | states |
|---|---|---|
| Registry.TabName | circleguard/gui.py:272-277 | a tab index names a register entry exactly when it is within the register; a non-negative index `i` names the `i`-th entry, and a negative index counts from the end as Python list indexing does |
| Registry.TabNameWraps | circleguard/gui.py:326-327 | a negative tab index reaches the same tab as its non-negative counterpart |
| Registry.TabNameBuildsRun | circleguard/gui.py:366-374 | every register entry builds a run |
| Registry.SubmitKind | circleguard/gui.py:366-374 | the run's kind is the one of the tab it was submitted from, in both directions |
| Registry.Submit | circleguard/gui.py:325-380 | an accepted press gives the run the current counter as id, appends it to the run list, gives it an empty queue-tab row, queues it last, and advances the counter; a press outside the register changes nothing |
| Registry.SubmitValid | circleguard/gui.py:376-380 | a submission keeps ids equal to run-list and row positions and the queue equal to the newest runs; the new run sits at its id in the list and last in the queue |
| Registry.SubmitAllGrows | circleguard/gui.py:376-380 | across any sequence of presses the counter never decreases, earlier runs stay as they were and no latch changes |
| Registry.SubmitAllIds | circleguard/gui.py:325-380 | from the initial state there are as many runs as accepted presses, and the run with id i is the one the i-th accepted press built from its tab's kind and fields |
| Registry.SubmitAllRuns | circleguard/gui.py:325-380 | submitting presses one after the other keeps the earlier runs and appends, in press order, the run of each accepted press, numbered on from the run list's length |
| Registry.Cancel | circleguard/gui.py:216-217 | cancelling sets exactly the named run's latch and touches nothing else; an id naming no run changes nothing |
| Registry.CancelValid | circleguard/gui.py:216-217 | cancelling keeps the registry consistent, the named run is latched exactly when it exists, and no other latch changes |
| Registry.CancelIdempotent | circleguard/gui.py:216-217 | cancelling twice is cancelling once, from the main window and from the queue tab |
| Registry.CancelCommutes | circleguard/gui.py:216-217 | the latches set do not depend on the order of cancellations |
| Registry.LatchesOnlyGrow | circleguard/gui.py:216-217 | no operation clears a latch: submitting and cancelling only add latches, and showing statuses keeps them |
| Registry.UpdateStatus | circleguard/gui.py:798-799 | showing a status changes the status of that run's row only |
| Registry.QueueCancel | circleguard/gui.py:801-803 | the queue tab's cancel button sets the same latch as a direct cancellation and marks that run's row only |
| Registry.ApplyStatusesOneRun | circleguard/gui.py:213-214 | a run's status updates leave its row showing the last of them, and every other row as it was |
| Registry.ApplyStatusesValid | circleguard/gui.py:213-214 | showing statuses keeps the registry consistent |
| Executor.CheckList | circleguard/gui.py:425-444 | a run has checks to process exactly when the engine's answer has the shape its kind iterates over; a screen run's checks are its nested lists flattened in order |
| Executor.RunCircleguard | circleguard/gui.py:417-502 | every run opens with the loading label and status and ends with the cancellation block or the closing block |
| Executor.RunMatchesSchedule | circleguard/gui.py:417-502 | the loop-by-loop trace equals the uninterrupted trace cut at the earliest abort, followed by the cancellation block or the closing block, and the outcome is the schedule's |
| Executor.LoadPhaseClosed | circleguard/gui.py:449-468 | the loading loop stops at the first checkpoint that sees the latch or the first load that raises, whichever comes first, having loaded exactly the replays before it |
| Executor.ComparePhaseClosed | circleguard/gui.py:476-491 | the comparing loop stops at the first fetch that raises or the first checkpoint that sees the latch, having pushed exactly the comparisons before it |
| RunFacts.NumToLoadCounts | circleguard/gui.py:437-446 | the bar's size, a nested sum for a screen run, is the number of replays the loading loops visit |
| RunFacts.CompletedRun | circleguard/gui.py:417-502 | a completed run shows the statuses loading, comparing, finished in that order, with labels loading, comparing, idle; it loads every replay and pushes every comparison in order; its progress signals are the reset to the replay count, one step per replay, the reset to 0, then the reset to -1 |
| RunFacts.CanceledRun | circleguard/gui.py:449-491 | a run whose latch is seen at a checkpoint ends with the "Canceled" label and the reset to -1; it has loaded and pushed exactly what precedes that checkpoint, and shows neither "Finished" nor "Idle" |
| RunFacts.RaisedRun | circleguard/gui.py:497-502 | a run that raises still ends with status "Finished" and label "Idle"; it loads and pushes a prefix of the engine's replays and comparisons, and its bar is never emptied |
| RunFacts.OutcomeByInputs | circleguard/gui.py:417-502 | a run completes exactly when its checks have the right shape and neither a reached checkpoint sees the latch nor a reached point raises; it is cancelled exactly when a checkpoint sees the latch before anything raises |
| RunFacts.EmptyRunIgnoresCancel | circleguard/gui.py:449-491 | a run with nothing to load and nothing to compare passes no checkpoint and completes even when cancelled |
| RunFacts.CanceledWhileQueued | circleguard/gui.py:418-456 | a run whose latch is already set is still started: it announces loading, sizes the bar and stops at its first checkpoint |
| RunFacts.RunStaysInLane | circleguard/gui.py:417-502 | whatever happens, a run starts once, every status it shows names itself, and it loads and pushes prefixes of the engine's sequences |
| Supervisor.CheckQueue | circleguard/gui.py:392-413 | when a drain is running the check does nothing; otherwise it executes the queued runs one after another in FIFO order, starts each of them, empties the queue and clears the busy flag |
| Supervisor.DrainStarts | circleguard/gui.py:395-401 | every queued run is started in queue order, whether the runs before it completed, were cancelled or raised |
| Supervisor.DrainSingleFlight | circleguard/gui.py:395-401 | runs never interleave: the run ids of the status updates never go back, and none precedes the head of the queue |
| Supervisor.DrainPushes | circleguard/gui.py:476-491 | when every run completes, the result queue receives every comparison of every run, run after run in queue order |
| Supervisor.LatchedRunStillStarts | circleguard/gui.py:395-401 | a run latched while queued is dequeued and started, and is then cancelled at its first checkpoint |
| Supervisor.RunLastStatus | circleguard/gui.py:501-502 | a run's last status is "Finished" exactly when it was not cancelled; a cancelled run's last status is loading or comparing |
| Supervisor.RowsAfterDrain | circleguard/gui.py:798-799 | after a drain, each drained run's row shows "Finished" exactly when the run was not cancelled |
| Supervisor.RowsUntouched | circleguard/gui.py:798-799 | a drain changes only the rows of the runs it drains |
| Supervisor.DrainRegistry | circleguard/gui.py:392-404 | draining a registry empties its queue and keeps its run list, latches and counter |
| Supervisor.DrainRegistryRows | circleguard/gui.py:392-404 | draining a consistent registry keeps it consistent, and each drained run's row ends on "Finished" exactly when the run was not cancelled |
| Supervisor.AddRun | circleguard/gui.py:325-383 | pressing "Run" submits and then checks the queue; when no drain is running, the new run is started last, after every run queued before it; a press outside the register raises before anything happens |
| Dispatch.DrainResults | circleguard/gui.py:504-529 | results are handled in queue order; when no template raises, the queue ends empty with the effects of every result; otherwise the effects are those of the results before the first one that raises, that result is lost, and the results behind it stay queued |
| Dispatch.FirstRaise | circleguard/gui.py:509-525 | the first queued result that is shown and whose template raises: none before it raises, and it does unless it is the queue's end |
| Dispatch.RaiseLosesOne | circleguard/gui.py:504-529 | a tick that raises followed by one that does not handles every result except the lost one, in queue order, and writes exactly the lines of the queue without it |
| Dispatch.ClassifyExclusive | circleguard/gui.py:509-527 | each result is alerted exactly when flagged, only printed exactly when unflagged and below the display threshold, and dropped otherwise; a flagged result is handled the same way whatever the threshold |
| Dispatch.ForwardedAreCheats | circleguard/gui.py:509-519 | exactly the flagged results reach the results tab, in queue order |
| Dispatch.OneBeepPerCheat | circleguard/gui.py:509-519 | the window beeps once per flagged result |
| Dispatch.WrittenAreShown | circleguard/gui.py:509-527 | exactly the flagged results and those below the display threshold get a terminal line, in queue order |
| Dispatch.ShownMonotone | circleguard/gui.py:521 | raising the display threshold never hides a result that was shown |
| ProgressBar.Reset | circleguard/gui.py:179-185 | the bar shows no progress exactly when reset with -1 |
| ProgressBar.IncrementsAdd | circleguard/gui.py:176-177 | k increments of one add k to the value and keep the range |
| ProgressBar.LoadingBar | circleguard/gui.py:176-185 | after the reset to n and k of n loads the bar shows k of n, and it is full exactly when every replay is loaded |
| ProgressBar.CompletedBar | circleguard/gui.py:445-492 | a completed run leaves the bar empty, after it was full when loading ended |
| ProgressBar.CanceledBar | circleguard/gui.py:453-490 | a cancelled run leaves the bar empty |
| ProgressBar.RaisedBar | circleguard/gui.py:497-502 | a run that raises leaves the bar as it found it when it sent no progress signal, and otherwise showing progress within its range |
| ProgressBar.NeverClamped | circleguard/gui.py:176-185 | every signal of every run keeps a bar that is empty or in range in that state, so the widget's clamping is never needed |

## Left out

- Threads and timers. The helper thread, `thread.join`, the non-atomic `helper_thread_running` check at lines 409-413 and the 250 ms timer at lines 139-150 are not modelled. A drain is the concatenation of its runs' traces. The busy flag is a parameter of `Supervisor.CheckQueue`.
- Qt. The widgets, tabs, layouts and the results-tab widgets are not modelled. Signals are delivered in order and at once. The progress bar's own clamping in `setValue`, `setRange` and `reset` is replaced by `ProgressBar.NeverClamped`, which shows the runs never need it.
- The engine. `Circleguard`, `set_options`, the `create_*_check` calls, `loader.new_session`, `load` and `run` are inputs: the checks, their replays and comparisons, and a failure point.
- Settings and messages. `get_setting`, the message templates, timestamps and the terminal lines written at lines 448, 473 and 495 are not modelled. An exception raised while formatting the closing message at line 495 leaves the same trace as a completed run, so it is not a separate failure point.
- `RunWidget` is not part of this model. A queue-tab row is its last status and whether its cancel button was pressed.
- `int()` parsing of the text fields is not modelled. `Registry.Form` holds already-parsed values, and an empty field is `None`.
- The timer tick after a raising `print_results` is not modelled: `run_timer` (lines 144-150) then skips `check_circleguard_queue` for that tick, and the exception goes to the logging hook of lines 36-49. `Dispatch.DrainResults` only reports that it raised.
- The results tab's `add_comparison_result`, the visualizer and the debug window are not modelled. Forwarding a result is the `Forward` effect.
- `circleguard/wizard.py` has no logic to model.
- ProgressBar.RaisedBar: states that the bar keeps showing progress within its range, not the exact value it stops at; the exact prefix of progress signals is in `RunFacts.RaisedRun`.
