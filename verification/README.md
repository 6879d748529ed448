# Zagens: verified models of the stateful cores

Zagens is a desktop agent: a Tauri shell that proxies event streams and terminals, an engine that keeps the
conversation inside a model's context window, and the configuration around both. This project models the parts of it
that hold state across calls or read back what they wrote, and proves what whole runs of them keep.

| file | part of the system | source |
|---|---|---|
| `SseCancel.dfy` | cancel flags of the event-stream proxy: the registry as an object, then every interleaving of its users | `crates/desktop/src/runtime_proxy.rs` |
| `Terminal.dfy` | the terminal manager's session map, and every interleaving of spawns, kills, exits and waiter threads | `crates/desktop/src/terminal.rs` |
| `Capacity.dfy`, `Coherence.dfy`, `GuardrailRun.dfy` | the capacity guardrail controller, the coherence ladder, and runs of both under the engine that drives them | `crates/core/src/capacity.rs`, `crates/core/src/coherence.rs`, `crates/runtime-server/src/core/engine/capacity_flow/` |
| `StepSegmentation.dfy` | cutting a turn's event stream into steps | `scripts/kernel_v2_corpus_report.py` |
| `ContextPartition.dfy`, `EmergencyTrim.dfy` | message tiers, picking the next message to drop, and the engine's budget trim | `crates/core/src/context_partition.rs`, `crates/runtime-server/src/core/engine/context_trim.rs` |
| `WorkingSet.dfy`, `Sorting.dfy` | the bounded, scored cache of paths and its orders | `crates/core/src/working_set.rs` |
| `ModelRegistry.dfy` | the alias index and name resolution | `crates/agent/src/lib.rs` |
| `HookSettings.dfy` | hook settings between the panel and the stored configuration | `crates/desktop/src/commands.rs` |
| `DeepLink.dfy` | `zagens://open` links | `crates/config/src/deep_link.rs` |
| `HttpHeaders.dfy` | header lists `name=value,name=value` | `crates/config/src/lib.rs` |
| `ContextHint.dfy` | the `NNNk` window hint in a model id | `crates/core/src/chat.rs` |
| `Text.dfy` | trimming, splitting and joining, shared by the parsers | |

Code that changes state is a class or a method with loops, proved against a specification function; the theorems are
about those functions. Concurrent parts are state machines whose steps are the source's critical sections and atomic
accesses, and a theorem about them ranges over every finite run.

## Where the code does not do what it says

* **A late disarm steals.** `disarm_sse_cancel` removes whatever its key maps to (runtime_proxy.rs:53-57). A consumer
  that was superseded by a re-arm and leaves afterwards removes its successor's entry. `ReachableRunIff` gives the exact
  condition under which the registry still finds every streaming consumer; `StolenConsumerIsUncancellable` says that a
  robbed consumer can never be cancelled again; `IdentityCheckKeepsReachable` says that comparing the flag before
  removing it would be enough. A consumer whose chunk could not be emitted returns without disarming at all
  (runtime_proxy.rs:276-285); its stale entry is part of the model and harms nothing that is promised here.
* **A cancel during the request is lost.** A consumer arms its flag only when the HTTP response is there
  (runtime_proxy.rs:244-265), so the in-flight stream that a cancel promises to stop (runtime_proxy.rs:38-39) does not
  include one whose request is still under way: `CancelDuringRequestIsLost`.
* **The partition-aware trim is never partition-aware.** The comment of `trim_messages_partition_aware`
  (context_trim.rs:36-37) promises that hot, pinned and external-reference messages survive. The drain that precedes the
  partition-aware loop already fits the budget or leaves the four messages the loop would refuse to touch, so the
  function is a front drain: `TrimIsFrontDrain`. `RefsSurviveIff` says exactly when external references survive it, and
  `PartitionTrimKeepsRefs` what the loop would have kept.
* **Killing a terminal waits for it.** A session's waiter keeps the child's lock for as long as it sits in `wait`
  (terminal.rs:294-300), and `kill_terminal` takes that lock while it holds the manager's (terminal.rs:382-393).
  `KillReachesRunningIff` gives the exact condition, on the state before the call: a kill of a live terminal strikes its
  child if and only if the waiter has not taken the child's lock yet. Otherwise the session is gone, and by
  `KillOfWaitedChildSticks` the manager stays locked, with nothing killed, until the child exits on its own.
* **A tool phase can be negative.** The script's last close of a batch does not ask whether its tools are done
  (kernel_v2_corpus_report.py:145-146). A stray finish followed by a start that never finishes gives a tool phase that
  ends before it starts; `PhasesOrderedIff` is the exact condition and `StrayFinishRunsBackwards`
  an input.

## What the engine's discipline is for

The controller's promises about whole runs lean on how the engine calls it. Two lemmas show what the calls are for; their
inputs are call sequences of the controller, not runs of the engine.

* **Marking every replan.** Both exits of `apply_verify_and_replan` mark the replan as applied (interventions.rs:481-486,
  555-559), which is the hypothesis of `ResetsAreSpaced`. `ResetsSpacedIff` is the exact condition for the controller
  alone: resets are spaced if and only if no replan retries within the cooldown of a reset that was never marked.
  `UnmarkedReplanResetsTwice` is a sequence that does. In the repository a replan is selected without being marked only
  under anchor-only replay, which skips the handoff and reports success (compaction_ops.rs:318-331).
* **Never restarting an unobserved turn.** `turn_counter` only grows (message_handlers.rs:41), which is what `Disciplined`
  says of a run. `RestartReopensTurnIff` is the exact condition for the controller alone, and
  `UnobservedRestartReopensTurn` shows two interventions in one turn.

## Model

| member | source | states |
|---|---|---|
| SseRegistry.SseCancelFlags.Arm | crates/desktop/src/runtime_proxy.rs:43-51 | arming maps the key to a new clear flag and sets the flag it replaces; no other flag changes |
| SseRegistry.SseCancelFlags.Disarm | crates/desktop/src/runtime_proxy.rs:53-57 | removes whatever the key maps to and touches no flag |
| SseRegistry.SseCancelFlags.CancelAllForWindow | crates/desktop/src/runtime_proxy.rs:80-89 | sets exactly the flags the window's entries point at |
| SseRegistry.SseCancelFlags.CancelSse | crates/desktop/src/runtime_proxy.rs:60-78 | a missing or blank thread id cancels the window, any other its own bucket |
| SseProtocol.FlagOnlyThroughEntry | crates/desktop/src/runtime_proxy.rs:43-89 | flags never clear, and a flag whose owner's key no longer maps to it never changes nor is ever found again |
| SseProtocol.ReachableStepIff | crates/desktop/src/runtime_proxy.rs:53-57 | a step keeps every streaming, uncancelled consumer in the registry under its own key if and only if it is no disarm that removes such a consumer's entry for another |
| SseProtocol.ReachableRunIff | crates/desktop/src/runtime_proxy.rs:43-57 | the same over whole runs: the promise holds throughout exactly when no disarm of the run steals |
| SseProtocol.IdentityCheckKeepsReachable | crates/desktop/src/runtime_proxy.rs:53-57 | were a disarm to remove only its own flag, the promise would hold in every run |
| SseProtocol.OneConsumerPerKey | crates/desktop/src/runtime_proxy.rs:33-39 | under the promise two streaming, uncancelled consumers of one bucket are the same consumer |
| SseProtocol.CancelReaches | crates/desktop/src/runtime_proxy.rs:60-89 | under the promise a cancel request sets the flag of every live consumer it names: the bucket's, or the whole window's |
| SseProtocol.LostFlagIsFrozen | crates/desktop/src/runtime_proxy.rs:43-89 | a flag the registry has lost keeps its value in every continuation |
| SseProtocol.StolenConsumerIsUncancellable | crates/desktop/src/runtime_proxy.rs:53-57 | after a steal the robbed consumer stays uncancelled in every continuation, whatever is armed, cancelled or disarmed |
| SseProtocol.CancelledConsumerStops | crates/desktop/src/runtime_proxy.rs:265-314 | in every continuation a cancelled consumer emits at most the chunk it was awaiting and never `events-done` |
| SseProtocol.DoneMeansNeverCancelled | crates/desktop/src/runtime_proxy.rs:303-314 | whoever passes the last check was never cancelled and never will be, although check and emission are separate steps |
| SseProtocol.DoneIffNeverCancelled | crates/desktop/src/runtime_proxy.rs:265-315 | in every run, a call that is over, and not by an error, emitted `events-done` if and only if its flag was never set |
| SseProtocol.UncancelledStreamCompletes | crates/desktop/src/runtime_proxy.rs:267-315 | from the loop head with a clear flag there is a run that passes on every chunk of a stream of any length and ends with `events-done` |
| SseProtocol.ChunksAreDelivered | crates/desktop/src/runtime_proxy.rs:267-286 | each round of the loop passes on exactly one chunk and changes nothing else |
| SseProtocol.LoopTurn | crates/desktop/src/runtime_proxy.rs:268-273 | at the loop head a set flag leaves the loop and a clear one receives |
| SseProtocol.CheckDecides | crates/desktop/src/runtime_proxy.rs:303-315 | at the last check a set flag returns silently and a clear one goes on to `events-done`, or to an error if that cannot be emitted |
| SseProtocol.UncancelledFinishes | crates/desktop/src/runtime_proxy.rs:303-315 | whoever leaves the loop with a clear flag has the run disarm, check, emit and return |
| SseProtocol.ErrorsEndTheCall | crates/desktop/src/runtime_proxy.rs:276-299 | a stream error disarms and returns without `events-done`; a chunk that cannot be emitted returns with the registry untouched |
| SseProtocol.BucketsAreIsolated | crates/desktop/src/runtime_proxy.rs:33-39 | arming, cancelling or disarming one bucket changes neither flag nor entry of a consumer of another |
| SseProtocol.LateDisarmStealsEntry | crates/desktop/src/runtime_proxy.rs:53-57 | a run of the code with two streaming, uncancelled consumers of one bucket, one of them out of every cancel's reach |
| SseProtocol.CancelDuringRequestIsLost | crates/desktop/src/runtime_proxy.rs:244-265 | a cancel of any kind that lands before the response has no effect on the stream that then starts |
| SseProtocol.RequestsWait | crates/desktop/src/runtime_proxy.rs:244-265 | a request arms once, when it is answered, and a failed one arms nothing |
| TerminalSessions.TerminalManager.SpawnTerminal | crates/desktop/src/terminal.rs:246-264 | succeeds exactly below both caps with a launched shell, adds exactly the new session, keeps both caps; the global cap is reported first |
| TerminalSessions.TerminalManager.KillTerminal | crates/desktop/src/terminal.rs:383-393 | removes exactly the session, and its child is the one killed; an unknown id changes nothing |
| TerminalSessions.TerminalManager.KillAllForWindow | crates/desktop/src/terminal.rs:43-60 | whatever the iteration order, removes exactly the window's sessions and kills exactly their children |
| TerminalProtocol.SoundStep | crates/desktop/src/terminal.rs:246-393 | every critical section keeps the caps, a live waiter for each session, and an owner for each running child but those of spawns that failed after their shell had started |
| TerminalProtocol.SpawnCommand | crates/desktop/src/terminal.rs:246-328 | past the caps, waiter start and insert follow and leave exactly the session that `SpawnTerminal` adds |
| TerminalProtocol.KillCommand | crates/desktop/src/terminal.rs:382-393 | without a waiter in the way the four steps of a kill leave exactly the sessions that `KillTerminal` leaves, with the one child struck |
| TerminalProtocol.CommandRunsThrough | crates/desktop/src/terminal.rs:43-60 | a kill or close that meets no locked child has a run through its whole list: all its sessions go and exactly their children are struck |
| TerminalProtocol.ExitRemovesSession | crates/desktop/src/terminal.rs:295-316 | a child that exits by itself is reaped and its session removed |
| TerminalProtocol.SpawnAdmittedIff | crates/desktop/src/terminal.rs:246-264 | a spawn is let in exactly under a fresh id, below 16 sessions in all and 4 of its window, while nobody holds the manager |
| TerminalProtocol.FailedSpawnLeavesShell | crates/desktop/src/terminal.rs:276-283 | a spawn that fails after its shell started lets go of the manager, leaves no session, and leaves the shell running unwaited |
| TerminalProtocol.SessionsStayBounded | crates/desktop/src/terminal.rs:13-14 | in every run at most 16 sessions, at most 4 for a window, and no session whose waiter has finished |
| TerminalProtocol.UnlockedSpawnLeaksSession | crates/desktop/src/terminal.rs:291-325 | without the manager's lock across waiter start and insert, a run ends with a session whose waiter has finished |
| TerminalProtocol.LeakedSessionStays | crates/desktop/src/terminal.rs:310-325 | such a session takes up its place in every continuation in which no command kills it by id or closes its window |
| TerminalProtocol.CloseRemovesExactlyItsWindow | crates/desktop/src/terminal.rs:43-60 | when a window's close releases the lock, exactly that window's sessions are gone, whatever was interleaved |
| TerminalProtocol.StrikeReachesRunningIff | crates/desktop/src/terminal.rs:294-300 | a kill that has come to a running child's lock goes through if and only if the waiter has not taken that lock; otherwise it is stuck |
| TerminalProtocol.KillReachesRunningIff | crates/desktop/src/terminal.rs:382-393 | the same before the call: killing a live terminal removes its session, and strikes its child if and only if the waiter is still starting |
| TerminalProtocol.KillOfWaitedChildSticks | crates/desktop/src/terminal.rs:382-393 | killing a live terminal whose waiter sits in `wait` removes the session, then holds the manager with nothing killed in every continuation in which the child does not exit |
| TerminalProtocol.KillWaitsForExit | crates/desktop/src/terminal.rs:294-300 | a stuck kill keeps the manager locked, every other session untouched and nothing killed until the child exits on its own |
| TerminalProtocol.StuckKillGoesOn | crates/desktop/src/terminal.rs:294-300 | it is a wait and no deadlock: once the child exits, the waiter lets go of its lock, the kill goes through and the command goes on |
| Capacity.PushWindow | crates/core/src/capacity.rs:468-473 | the window becomes the last `maxLen` values of window and value together |
| Capacity.WindowsAreHistoryTails | crates/core/src/capacity.rs:356-384 | after any observations each of the three windows is exactly the tail of its whole history |
| Capacity.ProfileLaws | crates/core/src/capacity.rs:475-515 | the least slack is a true minimum, at most the final one, which is the last value; the violation ratio lies in [0, 1], positive exactly when the least slack is not, one exactly when all are; the drop is nonnegative and positive exactly when the last slack fell, and then by how much |
| Capacity.VarianceLaws | crates/core/src/capacity.rs:493-506 | the variance is nonnegative and zero exactly when all values are equal |
| Capacity.VolatilityLaws | crates/core/src/capacity.rs:486-506 | the volatility is the root of a nonnegative number, is nonnegative, and is zero exactly when the slack moves in equal steps |
| Capacity.VarianceOfTwo | crates/core/src/capacity.rs:496-504 | the variance of two values is the square of half their difference |
| Capacity.VarianceOfRepeats | crates/core/src/capacity.rs:496-504 | seeing everything twice leaves the variance alone |
| Capacity.SnapshotLaws | crates/core/src/capacity.rs:356-416 | the snapshot's slack is prior minus load and the window's last value; it is severe exactly when some slack of the window is at most the threshold or the violation ratio reaches its own |
| Capacity.BandLaws | crates/core/src/capacity.rs:394-400 | an observation's band is low exactly up to the lower threshold, high exactly above the upper one, medium exactly between |
| Capacity.BandIsMonotone | crates/core/src/capacity.rs:394-400 | of two observations the one with the larger probability never has the milder band |
| Capacity.WorseProfileRisksMore | crates/core/src/capacity.rs:387-393 | for a nondecreasing sigmoid, less slack, more violations, more volatility or a deeper drop never lower the probability |
| Capacity.ProfileExchanges | crates/core/src/capacity.rs:387-392 | how the five parts of a profile weigh against each other |
| Capacity.ProfileScale | crates/core/src/capacity.rs:387-392 | the scale of the score and its value with no slack and no violation |
| Capacity.MoreLoadLessSlack | crates/core/src/capacity.rs:361-372 | for a nondecreasing logarithm, more actions, tool calls, references or context never raise the slack |
| Capacity.LoadCosts | crates/core/src/capacity.rs:361-372 | what each kind of load costs by itself; context counts between nothing and twice the window |
| Capacity.DecideIff | crates/core/src/capacity.rs:211-316 | a decision intervenes exactly when the policy proposes to, the warm-up is over and the action's gate is open; it is blocked exactly when only the gate is shut |
| Capacity.CheckpointFollowsRisk | crates/core/src/capacity.rs:205-316 | from observation to decision: nothing at or below the lower threshold or before the warm-up; otherwise, unless a gate blocks, exactly the refresh, replay or replan that probability and severity ask for |
| Capacity.DecisionReasons | crates/core/src/capacity.rs:216-315 | the reason given names the condition that decided |
| Capacity.ReplaysAreLimited | crates/core/src/capacity.rs:275-294 | a failed replay is not decided again in its turn, and none is decided once the budget is used up |
| Capacity.ReplayBudgetIsUsable | crates/core/src/capacity.rs:336-339 | each replay uses up exactly one of the budget, and another may follow while some is left |
| Capacity.NewTurnLiftsMarks | crates/core/src/capacity.rs:318-328 | starting an unobserved turn lifts what was held against replays and interventions in it, and no cooldown |
| Capacity.RestartKeepsGateIff | crates/core/src/capacity.rs:318-328 | starting a turn again keeps its one-intervention gate shut exactly when that turn was the last observed |
| Capacity.CapacityController.Observe | crates/core/src/capacity.rs:356-416 | pushes all three windows, then profiles the slack that includes the new value; does nothing when disabled |
| Capacity.CapacityController.MarkTurnStart | crates/core/src/capacity.rs:318-328 | clears the three per-turn marks unless the turn is the last observed one |
| Capacity.CapacityController.MarkInterventionApplied | crates/core/src/capacity.rs:330-345 | marks the turn, and the cooldown or counter of the action alone |
| Capacity.CapacityController.MarkReplayFailed | crates/core/src/capacity.rs:347-349 | disables replay for the turn and changes nothing else |
| Coherence.SignalTarget | crates/core/src/coherence.rs:76-104 | a signal either leaves the ladder where it is, when it says nothing, or moves it to a state independent of where it was |
| Coherence.FoldIsLastWord | crates/core/src/coherence.rs:76-104 | after any log the ladder shows the target of the last signal that said something, or the start state |
| Coherence.LadderShowsIff | crates/core/src/coherence.rs:76-104 | state by state, which last signal the ladder shows: `Healthy` exactly after a completed compaction or an unblocked decision to do nothing at low risk, and so for the other four; the start state when nothing was said |
| GuardrailRun.CooldownsAlwaysHold | crates/core/src/capacity.rs:261-307 | in every run, turns in any order, any two refreshes in a row are more than the refresh cooldown apart, any two replans more than the replan cooldown, none before the warm-up |
| GuardrailRun.RefreshesAreRationed | crates/core/src/capacity.rs:232-273 | `R` refreshes by turn `T` need `(R-1)*(cooldown+1) + warm-up <= T` |
| GuardrailRun.DisciplinedRefreshesAreRationed | crates/runtime-server/src/core/engine/message_handlers.rs:41-44 | under the engine's turn counter, whose first turn is 1, the warm-up of that bound is at least 1 |
| GuardrailRun.RationIsAttained | crates/core/src/capacity.rs:232-273 | the bound is exact: for any `R` observations that each read as a medium risk on the window they make, some run that counts its turns one by one lands a refresh on each, the last one right on the bound |
| GuardrailRun.AtMostOneLandingPerTurn | crates/core/src/capacity.rs:249-259 | under the engine's turn counter at most one intervention of any kind lands per turn |
| GuardrailRun.RestartReopensTurnIff | crates/core/src/capacity.rs:318-328 | after an intervention in a turn, restarting that turn lets a replan land in it too, its own cooldown permitting, if and only if the turn has not been observed |
| GuardrailRun.UnobservedRestartReopensTurn | crates/core/src/capacity.rs:318-328 | why the discipline is needed: a call sequence with two interventions in one turn |
| GuardrailRun.OpenGateLands | crates/runtime-server/src/core/engine/capacity_flow/checkpoints.rs:17-52 | an effective checkpoint with an open gate lands exactly what the policy proposes |
| GuardrailRun.BlockedCheckpointKeepsLadder | crates/runtime-server/src/core/engine/capacity_flow/events.rs:156-169 | a checkpoint blocked by its gate leaves the ladder and the record of landings as they were |
| GuardrailRun.CheckpointShows | crates/runtime-server/src/core/engine/capacity_flow/events.rs:114-214 | what a checkpoint shows: the state of the action it selects, healthy or crowded by its band when it selects none, and nothing new when a gate blocked it or there was no snapshot |
| GuardrailRun.CompactionShows | crates/runtime-server/src/core/engine/capacity_flow/events.rs:60-112 | a compaction shows refreshing while it runs, healthy when done, crowded when failed |
| GuardrailRun.FailedReplayIsNotRetried | crates/runtime-server/src/core/engine/capacity_flow/interventions.rs:366-396 | after a failed replay no checkpoint of that turn lands another |
| GuardrailRun.LadderStep | crates/runtime-server/src/core/engine/capacity_flow/events.rs:156-214 | after a checkpoint that selects a replan the ladder shows `ResettingPlan` and the reset is recorded; no other event takes it there |
| GuardrailRun.SpacedStepIff | crates/core/src/capacity.rs:295-307 | a step keeps the resets spaced if and only if it is no replan selected within the cooldown of a reset that was never marked |
| GuardrailRun.ResetsSpacedIff | crates/core/src/capacity.rs:295-307 | over whole runs, however the marks are called: resets are more than the replan cooldown apart if and only if no replan retries early |
| GuardrailRun.LadderEntriesAreSpaced | crates/core/src/coherence.rs:76-104 | when none does, the ladder turns to `ResettingPlan` only at checkpoints that select a replan, and any two such turns are more than the replan cooldown apart |
| GuardrailRun.ResetsAreSpaced | crates/runtime-server/src/core/engine/capacity_flow/interventions.rs:450-560 | when selected replans are marked, as the handler sees to, no replan retries early: the resets are exactly the landed replans, more than the cooldown apart |
| GuardrailRun.UnmarkedReplanResetsTwice | crates/runtime-server/src/core/engine/compaction_ops.rs:318-331 | why the mark is needed: a replan selected but not marked starts no cooldown, and the next one resets the plan again in the same turn |
| StepSegmentation.MsBetween | scripts/kernel_v2_corpus_report.py:76-77 | rounding is to the nearest tenth of a millisecond and keeps a nonnegative span nonnegative |
| StepSegmentation.StepExtractor.CloseStep | scripts/kernel_v2_corpus_report.py:102-118 | appends the batch as a step and opens the next one at its end, or does nothing without a complete batch |
| StepSegmentation.StepExtractor.Consume | scripts/kernel_v2_corpus_report.py:121-148 | one pass of the loop over the record, closing a batch at most once |
| StepSegmentation.ExtractSteps | scripts/kernel_v2_corpus_report.py:90-161 | the steps are those of the scan, and the duration is the turn's own when it has both ends and a step |
| StepSegmentation.StepsTileTurn | scripts/kernel_v2_corpus_report.py:90-161 | the steps of any whole turn with nondecreasing timestamps tile it: each starts where the last ended, from `turn.started` to `turn.completed` |
| StepSegmentation.TileAt | scripts/kernel_v2_corpus_report.py:102-118 | tiling step by step: numbered from one, end to end, each reporting the rounded phases of its own span |
| StepSegmentation.ReportedTimeIsConserved | scripts/kernel_v2_corpus_report.py:76-118 | exact totals sum to the turn's duration, reported ones are off by at most 0.05 ms a step, and each step's phases differ from its total by at most 0.1 ms |
| StepSegmentation.ScanKeepsTools | scripts/kernel_v2_corpus_report.py:120-148 | at every point of an open turn, the closed steps and the open batch list exactly the tools started so far, in order |
| StepSegmentation.ScanBatch | scripts/kernel_v2_corpus_report.py:120-143 | the batch variables read off the records: since the last model item that closed a batch, did a tool start, did one finish, and which are open |
| StepSegmentation.ToolsAreConservedIff | scripts/kernel_v2_corpus_report.py:90-161 | the steps list exactly the started tools, in order, if and only if after the last closing model item some tool finished or none started |
| StepSegmentation.ModelItemIff | scripts/kernel_v2_corpus_report.py:80-87 | a model item is exactly an item that starts without a tool and whose kind has `message` or `thinking` at some place |
| StepSegmentation.ClosesStepIff | scripts/kernel_v2_corpus_report.py:138-141 | a record closes a step if and only if it is a model item that comes when a tool of the step has started, one has finished and none is open; any other leaves the closed steps alone |
| StepSegmentation.StepsPartAtModelItems | scripts/kernel_v2_corpus_report.py:102-161 | in the report of a turn the tools that started before a model item that comes when no tool is open are exactly those of the steps closed by then |
| StepSegmentation.KindsOfModelItems | scripts/kernel_v2_corpus_report.py:86-87 | `agent_message` and `thinking` items are model items |
| StepSegmentation.AgentMessagePartsTools | scripts/kernel_v2_corpus_report.py:138-141 | an input: two tools parted by an agent message are reported in two steps |
| StepSegmentation.OpenIff | scripts/kernel_v2_corpus_report.py:128-137 | a tool is open exactly when it started and no completed, failed or interrupted item of its id came since |
| StepSegmentation.StartedAppend | scripts/kernel_v2_corpus_report.py:132 | a started tool is reported by its name, `unknown` when that is missing or empty |
| StepSegmentation.ScanTimes | scripts/kernel_v2_corpus_report.py:128-137 | the batch's start and end read off the records: the first tool start and the last tool finish since the last closing model item |
| StepSegmentation.PhasesOrderedIff | scripts/kernel_v2_corpus_report.py:90-161 | no phase of a turn runs backwards if and only if it is not the case that after the last closing model item tools finished and started and every finish came before every start |
| StepSegmentation.StrayFinishRunsBackwards | scripts/kernel_v2_corpus_report.py:134-137 | an input that has it: a tool of an earlier turn is interrupted, then a tool starts and never finishes |
| StepSegmentation.FinishedToolsAreReported | scripts/kernel_v2_corpus_report.py:102-156 | when every started tool has finished before the turn, whatever stray finishes and reused ids there are, all started tools are reported in order and no phase is negative |
| ContextPartition.ClassifySessionMessages | crates/core/src/context_partition.rs:77-113 | each message's tier, and the index list of each |
| ContextPartition.IndicesListTier | crates/core/src/context_partition.rs:104-109 | each list holds all places of its tier, nothing else, in increasing order |
| ContextPartition.TierIff | crates/core/src/context_partition.rs:92-103 | each tier from place, pins and text: a marker anywhere wins, then the last `keepRecent`, then the pins, and the rest is cold |
| ContextPartition.VisibleTextLaws | crates/core/src/context_partition.rs:59-70 | a message's text is that of its text and tool-result blocks, in order |
| ContextPartition.NextTrimIsOldestCold | crates/core/src/context_partition.rs:117-144 | the index picked is the oldest cold-summary message, never recent nor holding a reference, and there is none exactly when no message is cold |
| ContextPartition.TiersAfterRemoval | crates/core/src/context_partition.rs:77-113 | removing a cold message and shifting the pins leaves every other message's tier as it was |
| ContextPartition.RoundsRemoveOldestCold | crates/core/src/context_partition.rs:77-144 | any number of rounds removes exactly that many of the oldest cold messages |
| ContextPartition.TrimKeepsExactlyProtected | crates/core/src/context_partition.rs:117-144 | exactly as many rounds as there were cold messages leave exactly the protected ones, in order; the last `keepRecent` are never touched |
| ContextPartition.ProtectedSurvivesRounds | crates/core/src/context_partition.rs:115-144 | a recent, pinned or referring message is still there, in its place among the others, after any number of rounds |
| EmergencyTrim.CountOldestMessagesToDrain | crates/core/src/engine/context.rs:411-429 | the least drain that fits the budget, or all but the messages that must stay |
| EmergencyTrim.TrimMessagesPartitionAware | crates/runtime-server/src/core/engine/context_trim.rs:38-76 | drain, partition-aware loop, drain; returns how many messages went |
| EmergencyTrim.PartitionTrimKeepsRefs | crates/runtime-server/src/core/engine/context_trim.rs:57-66 | however pins change between rounds, the loop alone keeps every external reference and the recent tail |
| EmergencyTrim.LoopRound | crates/runtime-server/src/core/engine/context_trim.rs:57-66 | a round of the loop drops the oldest message that is not among the last four, not pinned and without a reference, and the loop ends when there is none |
| EmergencyTrim.TrimIsFrontDrain | crates/runtime-server/src/core/engine/context_trim.rs:48-66 | the whole trim equals its first drain: the loop never removes anything |
| EmergencyTrim.RefsSurviveIff | crates/runtime-server/src/core/engine/context_trim.rs:36-76 | all external references survive exactly when the budget was met or none stands in the drained prefix |
| EmergencyTrim.DrainDropsRefTheLoopWouldKeep | crates/runtime-server/src/core/engine/context_trim.rs:48-55 | for every estimator and pinning: over budget with more than four messages, a reference in front is lost, where the loop alone would have kept them all |
| EmergencyTrim.SurvivesIff | crates/runtime-server/src/core/engine/context_trim.rs:38-76 | a message survives the whole trim exactly when its index is not below the drain; the last four always do |
| EmergencyTrim.ProtectedSurviveIff | crates/runtime-server/src/core/engine/context_trim.rs:36-37 | hot, pinned and external-reference messages all survive if and only if the drain meets none of them |
| WorkingSets.RecordingIsCoherent | crates/core/src/working_set.rs:466-507 | recording any candidates keeps keys equal to paths, touches positive and turns in the past |
| WorkingSets.RecordingCounts | crates/core/src/working_set.rs:466-507 | a path's touches grow by one for each mention, up to the counter's end; a mentioned path is of this turn and source, existence and kind are only added, and an unmentioned path stays |
| WorkingSets.LaterScoresHigher | crates/core/src/working_set.rs:552-563 | of equally touched entries the later touched never scores lower, and scores higher exactly when their ages are in different brackets |
| WorkingSets.ScoreScale | crates/core/src/working_set.rs:552-563 | a touch is worth four; recency is worth six exactly in the current turn, four exactly in the next, nothing exactly past ten |
| WorkingSets.EvictionSparesRecent | crates/core/src/working_set.rs:509-527 | of equally touched paths no evicted one was touched later than a survivor, unless their ages are in one bracket, and a path touched twice more than another never goes before it |
| WorkingSets.SameBracketMayEvictLater | crates/core/src/working_set.rs:509-527 | why the exception: ages three to five score alike, so the later touched of two may go |
| WorkingSets.EvictingHeadIsSound | crates/core/src/working_set.rs:509-527 | dropping the head of a ranking removes exactly the excess and no path that outscores a survivor, however hashing and ties fell |
| WorkingSets.RankingIsRanked | crates/core/src/working_set.rs:515-521 | sorting the scored paths of any iteration order gives a ranking of the entries |
| WorkingSets.WorkingSet.Prune | crates/core/src/working_set.rs:509-527 | evicts soundly in any hash iteration order: exactly the excess, nothing else changed, no evicted score above a survivor's |
| WorkingSets.WorkingSet.RecordPath | crates/core/src/working_set.rs:493-507 | a new path enters once; a known one is touched, with existence and kind only ever added |
| WorkingSets.WorkingSet.RecordCandidates | crates/core/src/working_set.rs:466-491 | records every usable candidate, then evicts soundly |
| WorkingSets.WorkingSet.ObserveUserMessage | crates/core/src/working_set.rs:340-344 | advances the turn by one, then records |
| WorkingSets.WorkingSet.ObserveToolCall | crates/core/src/working_set.rs:347-361 | records inputs with an eviction, then outputs, if any, with another |
| WorkingSets.WorkingSet.RebuildFromMessages | crates/core/src/working_set.rs:366-380 | the state is one that replaying the messages from an empty set leads to, whatever was there before |
| WorkingSets.RebuiltCountsTurns | crates/core/src/working_set.rs:366-380 | a rebuilt set's turn is the number of user messages, up to the counter's end |
| WorkingSets.PromptOrderIsCanonical | crates/core/src/working_set.rs:391-418 | the prompt's path list depends on the entries alone: no iteration order and no turn counter changes it |
| WorkingSets.PromptOrderSays | crates/core/src/working_set.rs:545-549 | the prompt's order has every entry once, the most touched first, equally touched ones by path |
| WorkingSets.ActivePathsSay | crates/core/src/working_set.rs:391-418 | the prompt lists the first of them with path and kind, as many as fit |
| WorkingSets.RecencyOrderIsCanonical | crates/core/src/working_set.rs:529-537 | the recency order depends on entries and turn alone |
| WorkingSets.RecencyOrderSays | crates/core/src/working_set.rs:529-537 | the recency order has every entry once, the highest score first, equal ones by path |
| WorkingSets.RecencyOrderDrifts | crates/core/src/working_set.rs:539-544 | the recency order does move as turns pass with nothing touched, where the prompt's does not |
| Sorting.SortedIsUnique | crates/core/src/working_set.rs:529-549 | two sorted arrangements of the same elements agree when the order never ties |
| Sorting.LexLeIff | crates/core/src/working_set.rs:547 | path order is by prefix or the first differing character |
| ModelRegistry.New | crates/agent/src/lib.rs:204-213 | the index knows a name exactly when a model answers to it, and then holds the first such model |
| ModelRegistry.ResolveAgreesWithScan | crates/agent/src/lib.rs:221-266 | a name resolves without fallback exactly when some model matches it or the hint is Ollama, which takes the trimmed name as it is; otherwise to the first match of the hinted provider, else the first match, with at most the id's letter case changed |
| ModelRegistry.ResolveIgnoresCaseAndPadding | crates/agent/src/lib.rs:296-315 | names that differ only in case or padding resolve alike, but for the casing of an id |
| ModelRegistry.RequestedCasingComesBack | crates/agent/src/lib.rs:309-315 | a request that differs from the model's id only in case comes back in its own casing, any other as the model |
| ModelRegistry.ResolutionChain | crates/agent/src/lib.rs:226-293 | the chain reported is the request, then each default fallen back on |
| ModelRegistry.FallbackIsFirstOfProvider | crates/agent/src/lib.rs:267-293 | a fallback is the hinted provider's first model, else the first model, else the built-in one |
| HookSettings.CodeRoundTrip | crates/desktop/src/commands.rs:2655-2659 | printing and parsing an exit code is the identity on every 32-bit integer |
| HookSettings.CodeReads | crates/desktop/src/commands.rs:2727-2733 | digits, bare or after a plus or minus sign, are read as their value if it fits 32 bits |
| HookSettings.OnlyCodesRead | crates/desktop/src/commands.rs:2727-2733 | nothing else is |
| HookSettings.ConditionSurvivesIff | crates/desktop/src/commands.rs:2628-2736 | a condition tree of any depth survives display and re-save if and only if the panel can write it |
| HookSettings.AcceptedIsStorable | crates/desktop/src/commands.rs:2673-2736 | whatever the panel's input is accepted as is such a tree |
| HookSettings.ConditionNames | crates/desktop/src/commands.rs:2628-2671 | how each condition is written to the panel |
| HookSettings.TopLevelConditions | crates/desktop/src/commands.rs:2738-2746 | at the top of an entry, and only there, no type means no condition |
| HookSettings.EventRoundTrip | crates/desktop/src/commands.rs:2548-2610 | every canonical event name reads back as its event and implies no filter, so aliases expand once |
| HookSettings.CanonicalNames | crates/desktop/src/commands.rs:2548-2563 | the name of each event |
| HookSettings.AliasesExpand | crates/desktop/src/commands.rs:2569-2610 | the event and the filter of each alias |
| HookSettings.EventReadIff | crates/desktop/src/commands.rs:2569-2610 | names are read without regard to case or padding, and only canonical names and aliases are read |
| HookSettings.MergeMeansBoth | crates/desktop/src/commands.rs:2613-2626 | the merged condition fires exactly when the implied and the given one both do |
| HookSettings.SaveHooksSettings | crates/desktop/src/commands.rs:2780-2840 | the stored table: blank commands dropped, the first bad entry refuses all, defaults not persisted, the audit path carried over |
| HookSettings.SavedEntrySays | crates/desktop/src/commands.rs:2785-2815 | what is stored of an entry, field by field; a blank command is dropped, whatever its event |
| HookSettings.SavedTableSays | crates/desktop/src/commands.rs:2818-2839 | what is stored of the table around the entries |
| HookSettings.ResaveIsIdentityIff | crates/desktop/src/commands.rs:2748-2840 | loading a stored table and saving it back unchanged leaves it as it was if and only if it is canonical |
| HookSettings.SaveLoadSave | crates/desktop/src/commands.rs:2748-2840 | whatever is saved is canonical: saving, loading and saving again stores the same table |
| HookSettings.StoredMeansFilterAndUser | crates/desktop/src/commands.rs:2565-2626 | the stored condition means the alias's filter AND the user's condition, under the alias's event, and stays so through further saves |
| DeepLink.EncodeQueryComponent | crates/config/src/deep_link.rs:201-213 | percent-encoding of every byte that section 2.3 of RFC 3986 does not call unreserved |
| DeepLink.SentAsIsIff | crates/config/src/deep_link.rs:201-213 | exactly the unreserved bytes are sent as they are, every other as an escape of three |
| DeepLink.PercentDecode | crates/config/src/deep_link.rs:181-199 | decodes each complete escape, a plus sign before one digit included, copies everything else, and turns the bytes into a well-formed string |
| DeepLink.EscapeCaseDoesNotMatter | crates/config/src/deep_link.rs:185-193 | escapes read alike in lower and upper case |
| DeepLink.PlusReadsLikeZero | crates/config/src/deep_link.rs:185-193 | a plus sign in the first place of an escape reads like a zero |
| DeepLink.BrokenEscapeStays | crates/config/src/deep_link.rs:185-196 | what is no escape stays as it is |
| DeepLink.LossyKeepsIff | crates/config/src/deep_link.rs:198 | the lossy conversion leaves bytes alone if and only if they are well-formed UTF-8 |
| DeepLink.LossyIsUtf8 | crates/config/src/deep_link.rs:198 | whatever the bytes, its result is well-formed |
| DeepLink.WellFormedIff | crates/config/src/deep_link.rs:198 | well-formed characters are exactly the UTF-8 encodings of Unicode scalar values |
| DeepLink.DecodeInvertsEncode | crates/config/src/deep_link.rs:181-213 | unescaping inverts encoding on every byte string |
| DeepLink.TextRoundTrip | crates/config/src/deep_link.rs:181-213 | decoding inverts encoding on every string |
| DeepLink.EncodedIsSafe | crates/config/src/deep_link.rs:201-213 | an encoded component holds unreserved characters and percent signs alone, so it never breaks a query |
| DeepLink.ParseQuery | crates/config/src/deep_link.rs:163-179 | the pairs in order, later ones winning, empty pairs and empty keys skipped, both sides decoded |
| DeepLink.BuildOpenUrl | crates/config/src/deep_link.rs:109-131 | the link of its workspace, and of prompt, task type and flag only when they are to be sent |
| DeepLink.BuiltParams | crates/config/src/deep_link.rs:109-179 | the query of a built link reads back as exactly the workspace, the non-blank prompt, the known task type and the set flag |
| DeepLink.BuiltLinkReadsBack | crates/config/src/deep_link.rs:54-131 | parsing a built link gives the validated workspace, the trimmed non-blank prompt, the known task type and the set flag, or the error of the workspace alone |
| DeepLink.ForeignSchemeIsRefused | crates/config/src/deep_link.rs:55-61 | a blank link, and one of another scheme, is refused as such and nothing else is |
| DeepLink.ForeignHostIsRefused | crates/config/src/deep_link.rs:62-73 | a link is to `open` exactly when what stands between the scheme and the next slash or question mark says so |
| DeepLink.TaskTypesRead | crates/config/src/deep_link.rs:81-104 | each task type, prompt and worktree flag as it is read; exactly an unknown task type refuses a link with a good workspace |
| DeepLink.WorkspaceIsRequired | crates/config/src/deep_link.rs:75-79 | no link opens without a workspace that is not blank, does not climb and passes the check |
| DeepLink.TrimBytesCuts | crates/config/src/deep_link.rs:55 | trimming cuts white-space characters off both ends and leaves none there |
| DeepLink.SpaceBytesIff | crates/config/src/deep_link.rs:55 | white space in bytes is white space in characters |
| HttpHeaders.ParseHttpHeaders | crates/config/src/lib.rs:2073-2094 | the first malformed piece fails the parse; blank pieces and blank values are skipped; later names win |
| HttpHeaders.AcceptedIff | crates/config/src/lib.rs:2073-2094 | a string is accepted if and only if each piece between commas is blank or has a name before its first `=`; one non-blank piece without `=` refuses them all |
| HttpHeaders.LastGivenWins | crates/config/src/lib.rs:2073-2094 | an accepted string says exactly the names it gives a value, each with the last value given |
| HttpHeaders.HeadersSurviveIff | crates/config/src/lib.rs:2073-2107 | a non-empty map survives serialization, in any listing order, if and only if names and values are trimmed, non-empty, free of commas, and names free of `=` |
| HttpHeaders.AcceptedHeadersRoundTrip | crates/config/src/lib.rs:2073-2107 | every accepted string has a normal form that parses to the same map, and only an empty map serializes to nothing |
| ContextHint.DeepseekContextWindowHint | crates/core/src/chat.rs:369-397 | 1000 times the leftmost free-standing digit run followed by `k` with value 8 to 1024; none exactly when there is no such run, overlong runs included |
| ContextHint.LeftmostHintIsUnique | crates/core/src/chat.rs:369-397 | at most one run is leftmost, so the window is determined |
| ContextHint.WrittenNumberIsHintIff | crates/core/src/chat.rs:383-392 | a number written in decimal as a word of its own before `k` is a hint exactly when it is from 8 to 1024 |
| Text.DigitsRoundTrip | crates/core/src/chat.rs:388 | reading digits inverts decimal printing |
| Text.ContainsIff | scripts/kernel_v2_corpus_report.py:87 | a text contains another exactly when that stands at some place of it |
| Text.TrimCuts | crates/config/src/lib.rs:2083-2084 | trimming takes white space off both ends and nothing else |
| ContextHint.HintIsMaximalRun | crates/core/src/chat.rs:373-387 | a hint that starts in a maximal digit run is that run |
| ContextHint.ContextWindowForModel | crates/core/src/chat.rs:352-367 | a hint decides the window exactly in an id that names DeepSeek; otherwise the family table does |

## Left out

- Capacity.CapacityController.Observe: floating-point rounding is not modelled; scores are reals.
- `exp`, `log2`, `sqrt` and the per-model priors with `normalize_model_prior_key` (capacity.rs:444-466, 517-526) are parameters of the controller.
- Overflow of `last + cooldown` in 64 bits (capacity.rs:266, 300): turns and cooldowns are unbounded naturals.
- Weak memory: a `Relaxed` load or store of a cancel flag is one step of an interleaving.
- HTTP, Tauri windows and events, PTYs, processes, the keyring, TOML and the file system. Stream chunks, child exits, launch results and path checks are inputs or steps of the models.
- Poisoned locks: no model has a panicking lock holder.
- TerminalSessions.TerminalManager.KillTerminal: the wait for the child's lock is not part of the method but of TerminalProtocol.
- TerminalSessions.TerminalManager.KillAllForWindow: neither are its waits for the children's locks.
- Fairness and timing: nothing is proved about a run making progress.
- `spawn_terminal` errors after the caps are one launch result in SpawnTerminal, and a step of its own in TerminalProtocol once the shell runs; UUIDs are taken to be fresh.
- DeepLink.BuiltLinkReadsBack: how a platform splits a path into components and what `user_scoped_workspace` accepts are any functions.
- `find_open_url_in_args` (deep_link.rs:134-147): the first argument that parses.
- Text normalization in the working set: path extraction, `normalize_candidate`, `relativize_candidate`, `summarize_repo_root`, completions. Candidates arrive relativized, or absent.
- `pinned_message_indices`, `plan_compaction` and the token estimator: the trim takes any pins in each round and any estimator.
- EmergencyTrim.TrimMessagesPartitionAware: the system prompt is a part of the estimator.
- The `touches` counter of the working set saturates at 32 bits as in the source; the turn counter saturates at 64.
- StepSegmentation.MsBetween: timestamps are whole microseconds and rounding is exact; Python rounds the binary float nearest to the quotient, which may fall on the other side of a tie.
- JSON decoding and every other report of the corpus script.
- `hooks_settings_from_config`: `PathBuf` display is the identity on the stored text.
- HttpHeaders.SerializeHttpHeaders: the ordered map's own order; the theorems hold for any order that lists every header.
- `resolve_model_caps`, output-token clamps, threshold percentages, preset overlays, error keywords, feature flags: one-branch members.
- ContextHint.ContextWindowForModel: Unicode lower-casing and the family table are parameters.
- The turn engine itself (`LiveTurnMachine`, `EffectInterpreter`): only its calls into the controller and the trim are modelled.
