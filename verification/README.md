# Verified models of the agent runtime and its provider protocols

This project models, in Dafny, the parts of the agent system whose correctness lies in
whole runs rather than in single branches, and proves what those parts are for.

**The workflow executor** drives a set-valued frontier through a possibly cyclic stage
graph. It admits a whole frontier against a shared budget ledger, runs its stages in
bounded concurrent waves against one snapshot, applies the outcomes in stage-id order,
seals a checkpoint and only then commits; it can be dropped at any await and resumed from
a checkpoint. Four views of it are tied together:

- `Serial` and `Runs` are the reference: stages one by one, frontiers one by one, resume
  chains. `Runs` is stated for any lawful step, so its theorems are about the loop and
  not about one driver.
- `Waves` and `Schedules` are a step machine with every interleaving of polls, driver
  charges, returns, failures and cancellation. `Refinement` proves that no schedule of a
  deterministic driver can be told from the serial one over a whole run (only which of
  several failing stages is reported is up to the schedule), and `Completion` that every
  schedule comes to that end unless it is cancelled.
- `Transitions`, `Frontiers` and `Turns` say what one turn of the loop does on its inputs
  alone: which outcomes are accepted and edges taken, what the next frontier is, what a
  failure leaves behind, and exactly when the turn commits.
- `Executor` is the loop itself, over the ledger object of `Budget` with its reservation
  table, proved against the reference. `Checkpoints` and `Directories` are the directory of
  sealed files.

**The provider protocols** are small state machines with many interleavings: the attempt
ledger and dispatch loop (`Attempts`), the pausable progress clock and its watcher
(`Progress`), the adaptive concurrency limiter with its register, check and sleep
protocol (`Limiter`), the sliding-window circuit breaker (`Breaker`), the fallback chain
(`Fallback`) and the mixture-of-agents route (`Moa`) over saturating usage (`Usages`).

**The parsers** are the balanced-JSON scanner against a printer for the whole grammar of
RFC 8259 (`Json`), the single-call text channel with the written forms of its calls
(`TextCalls`, `CallRoundTrips`, `XmlForms`), the percent coding of RFC 3986 (`Percent`,
`Utf8`) and repository references with their addresses (`RepoRef`, `RepoUrl`).

`Common`, `Text` and `Workflow` hold the shared sums, strings and graph rules. The whole
project is checked with `dafny verify dfyconfig.toml`.

## Findings

- The documented foreground reservation of the limiter does not survive adaptation.
  `Limiter.ReservationHonouredAlwaysIff` gives the settings under which it does, and
  `Limiter.UnsafeReservationBroken` a reachable state for every other one: the default
  configuration is among them.
- A valid repository whose owner is `huggingface.co` or `hf.co` cannot be printed and
  parsed back (`RepoRef.RoundTripIff`).
- `latest_checkpoint` depends on directory order exactly when two checkpoints share the
  highest sequence or files fail to load in different ways
  (`Directories.DirectoryOrderIff`). No chain of resumes from the newest checkpoint comes
  to that (`Checkpoints.DiskChainIsChain`), but resuming an older one does
  (`Directories.OldResumeCollides`).
- With `half_open_max_probes` equal to zero the breaker still grants one probe per
  episode, because a missing grant instant counts as timed out
  (`Breaker.ZeroProbesStillGrant`); the configured maximum is a true bound if and only if
  it is at least one (`Breaker.EpisodeBoundIff`).
- Releasing a reservation of another ledger whose id is in use is refused, but the entry
  under that id is already gone, so its amount stays reserved for ever
  (`Budget.BudgetLedger.Release`, `Budget.BudgetLedger.AnyCalls`). The executor never does
  this: it leaves nothing reserved at any exit.
- A backend whose breaker granted a probe and whose operation then has no send left is
  checked but never recorded (`Fallback.GrantRecordedIff`); with all slots taken, the
  backend is closed to checks until the probe timeout (`Fallback.UnrecordedProbeBlocks`).
- The winner of a fallback chain drops the `estimated` mark and the rate limits of earlier
  attempts if none of those used tokens (`Fallback.MarksKeptIff`,
  `Fallback.CompletionMarks`).

## Model

| member | source | states |
|---|---|---|
| `Runs.ResumeSimulatesContinuation` | crates/hi-agent-runtime/src/lib.rs:190-246 | Resuming from any checkpoint a run sealed, with a fresh ledger of the same limits and a caller that spent nothing beyond it, gives the same result, final state, final ledger and remaining checkpoints as the run that was never interrupted |
| `Runs.SealIsALoopHead` | crates/hi-agent-runtime/src/lib.rs:496-532 | Every sealed checkpoint is a loop head of its run, from which the run continued to the same end |
| `Runs.ResumeReachesSealedHead` | crates/hi-agent-runtime/src/lib.rs:231-245 | Resuming a sealed loop head in a fresh process is running on from that head |
| `Runs.SealedHeadIsRebuilt` | crates/hi-agent-runtime/src/lib.rs:195-245 | The checks pass, and state, ledger, frontier, sequence and transition count rebuilt from a checkpoint are exactly the loop head it sealed |
| `Runs.ExecuteThenResume` | crates/hi-agent-runtime/src/lib.rs:176-246 | The same simulation for a deterministic driver, started with `execute` from the entry stage |
| `Runs.ResumePassesChecksIffPositionKnown` | crates/hi-agent-runtime/src/lib.rs:195-230 | For a sealed head and its own caller, the checks of `resume` pass if and only if every stage of the position is in the graph |
| `Runs.ResumeAdmittedIff` | crates/hi-agent-runtime/src/lib.rs:190-246 | A resume begins, at the position, sequence and transition count of the checkpoint, if and only if the schema is supported, the checkpoint is coherent and of the caller's run and candidate, its position is not empty and known, nothing is in flight anywhere, and what checkpoint and caller consumed fits the limits; otherwise it is an error that changes nothing, and a foreign checkpoint is refused as foreign |
| `Runs.ResumeNeverForgets` | crates/hi-agent-runtime/src/lib.rs:231-245 | However a resumed run ends, the durable budget is not below the caller's and the ledger not below its own; once the resume is admitted the two are equal and not below the checkpoint's, and a refused resume leaves caller and ledger alone |
| `Runs.ExecuteNeverForgets` | crates/hi-agent-runtime/src/lib.rs:176-183 | However `execute` ends, the durable budget is not below what the caller brought nor the ledger below what it had |
| `Runs.SerialStepper` | crates/hi-agent-runtime/src/lib.rs:271-533 | Every turn of the loop with a deterministic driver, from a good head, either ends settled or re-establishes the loop invariant with strictly more transitions and the next sequence number, and never forgets consumption |
| `Runs.RunEndsSettled` | crates/hi-agent-runtime/src/lib.rs:271-534 | Every end of a run has nothing reserved, the caller's budget equal to the ledger's, consumption not below that at its head, and success only with a passing valid last report |
| `Runs.RunSealsAscend` | crates/hi-agent-runtime/src/lib.rs:496-532 | The checkpoints of a run carry strictly increasing sequences above the one it started from, each within the transition limit |
| `Runs.ExecuteSealsAscend` | crates/hi-agent-runtime/src/lib.rs:176-183 | The same from the entry of the workflow, where sequences start above zero |
| `Runs.ResumeSealsAscend` | crates/hi-agent-runtime/src/lib.rs:241-245 | A resume seals only above its checkpoint's sequence |
| `Runs.ChainAscends` | crates/hi-agent-runtime/src/lib.rs:185-246 | Along any chain of resumes, each from the newest checkpoint with any caller and ledger, sequences strictly increase and the attempts never exceed `maximum_transitions` |
| `Schedules.ChargedExactlyOnce` | crates/hi-agent-runtime/src/lib.rs:376-391 | At every moment of every interleaving, consumed model calls, tool calls and repair iterations grew by exactly the model stages started, the tool stages started and the budget-remaining edges taken |
| `Schedules.AdmittedWholeOrNotAtAll` | crates/hi-agent-runtime/src/lib.rs:335-353 | A frontier starts if and only if there is room for a call of each of its model stages and of each of its tool stages at once; otherwise no stage of it starts and nothing is held or charged |
| `Schedules.EveryExitIsSettled` | crates/hi-agent-runtime/src/lib.rs:129-163 | Every exit (result, error, cancellation between any two polls) leaves nothing reserved, the caller's budget equal to the ledger's, and the caller's state as last committed but for the budget and the displayed frontier |
| `Schedules.CommittedHistory` | crates/hi-agent-runtime/src/lib.rs:409-426 | The committed state is the initial one extended by exactly the committed attempts: reports, patches and failures grow as prefixes, every report comes from a trusted gate of the graph with the run's identity, every gate attempt adds one, the plan is never dropped and its revision rises, patches imply a plan, and success needs a passing valid last report |
| `Schedules.TransitionsBounded` | crates/hi-agent-runtime/src/lib.rs:262-271 | In every interleaving the transition count equals the sum of the attempts, equals the initial sum plus the committed attempts, and stays within the limit; the committed frontier is never empty |
| `Schedules.SpendIsNeverForgotten` | crates/hi-agent-runtime/src/lib.rs:142-163 | In every interleaving the ledger, and at every exit the caller's budget, shows at least what was consumed before the run, in every kind |
| `Completion.NextAction` | crates/hi-agent-runtime/src/lib.rs:358-407 | With a driver that answers, a run that is not over always has an action its driver takes other than cancellation: charge what is owed, fail because that does not fit, return or fail as replied, or the executor's own next step |
| `Completion.ActionNearer` | crates/hi-agent-runtime/src/lib.rs:271-533 | Every such action strictly lowers the transitions left, the phase, or the polls, charges and answers left in it |
| `Completion.NoEndlessSchedule` | crates/hi-agent-runtime/src/lib.rs:271-533 | There is no infinite schedule, on any graph and at any wave width |
| `Completion.MaximalScheduleIsComplete` | crates/hi-agent-runtime/src/lib.rs:254-534 | Every schedule that only a cancellation could continue has ended, and ended as the serial run does |
| `Completion.CanBeCompleted` | crates/hi-agent-runtime/src/lib.rs:254-534 | Every schedule under way can be completed to the end of the serial run without cancellation |
| `Completion.ResumedScheduleCompletes` | crates/hi-agent-runtime/src/lib.rs:190-253 | Every maximal schedule of a resumed run that is not cancelled ends as the rest of the uninterrupted run does |
| `Schedules.StepKeepsInv` | crates/hi-agent-runtime/src/lib.rs:271-533 | Each action of the machine (start, poll, charge, return, fail, next wave, join, apply, decide, seal, cancel) keeps the invariant |
| `Waves.ReleaseWaitingSettles` | crates/hi-agent-runtime/src/lib.rs:129-135 | Dropping the futures that were never polled releases exactly what is still reserved |
| `Waves.PollAccounts` | crates/hi-agent-runtime/src/lib.rs:380-388 | The first poll of a stage turns its reservation into consumption of its own kind, once |
| `Waves.ApplyOutcomeSpec` | crates/hi-agent-runtime/src/lib.rs:537-601 | An applied outcome adds exactly its own failures, patches and report, carries a report exactly for a trusted verification gate of this run, and replaces the plan only by a higher revision |
| `Waves.LaunchedInv` | crates/hi-agent-runtime/src/lib.rs:254-271 | The invariant holds when a run is launched |
| `Refinement.EveryScheduleIsSerial` | crates/hi-agent-runtime/src/lib.rs:248-534 | For a deterministic driver, any wave width and any order of polls, charges and returns over a whole run: an ended schedule has the result, state, ledger and checkpoints of the serial run, or a stage failed in both after the same checkpoints; a schedule cancelled or under way has sealed a prefix of them |
| `Refinement.SchedulesAgree` | crates/hi-agent-runtime/src/lib.rs:248-253 | If no stage of the serial run fails, every ended schedule equals it in result, state, ledger and checkpoints |
| `Refinement.ResumedScheduleIsTheRest` | crates/hi-agent-runtime/src/lib.rs:190-253 | Every ended schedule, at any width, of a run resumed from any checkpoint of a serial run has the result, state, ledger and checkpoints of the rest of the uninterrupted run, or a stage failed where one fails in that rest |
| `Refinement.FailureIsSerial` | crates/hi-agent-runtime/src/lib.rs:376-404 | A stage that fails in some schedule, by its reply or because a charge does not fit, makes the serial executor fail on that frontier too |
| `Refinement.ChargesFit` | crates/hi-agent-runtime/src/lib.rs:376-391 | If the stages succeed one by one, no schedule ever refuses a charge |
| `Refinement.ResumedSpendIsNeverForgotten` | crates/hi-agent-runtime/src/lib.rs:231-245 | At every exit of every schedule of a resumed run, cancellation included, the durable budget is below neither the checkpoint's, nor the caller's, nor the ledger's |
| `Refinement.WavesMatchSerial` | crates/hi-agent-runtime/src/lib.rs:358-407 | When all futures of a frontier have returned, in whatever order, the serial executor ends its stages with the same outcome list and the same ledger |
| `Refinement.SerialSucceeds` | crates/hi-agent-runtime/src/lib.rs:376-391 | If what all stages need together fits the limits, the serial order never runs short |
| `Refinement.FinishIgnoresBudget` | crates/hi-agent-runtime/src/lib.rs:414-495 | What a frontier commits or fails with does not depend on the budget snapshot in the caller's state |
| `Turns.TurnCommitsIff` | crates/hi-agent-runtime/src/lib.rs:271-533 | A turn of the loop commits if and only if all its stages are known and none is terminal, the transitions and every iteration limit allow one more attempt each, there is room for all its model and tool calls, every stage answers and everything charged fits the limits, every outcome is admissible, every stage has edges it may take, the sequence does not overflow, and the driver seals the checkpoint if one is due |
| `Turns.TurnCommits` | crates/hi-agent-runtime/src/lib.rs:409-533 | What a committed turn leads to, on its inputs: the next frontier is every stage that a taken edge of some stage of the frontier leads to, the state is the old one with the outcomes added in stage-id order and one more attempt per stage, one repair iteration is charged per budget-remaining edge taken, and a checkpoint of exactly that, with all patches of the frontier, is sealed if and only if some stage asks for one |
| `Turns.DecidedIff` | crates/hi-agent-runtime/src/lib.rs:272-306 | A frontier is scheduled if and only if all its stages are known and none is terminal, and ends the run with a given result if and only if the reason for it holds: the first unknown stage, a failure stage before any unknown one, only success stages with or without a passing last report, or a success stage beside pending ones |
| `Turns.AdmittedIff` | crates/hi-agent-runtime/src/lib.rs:312-334 | Attempts of distinct stages are admitted if and only if all their transitions fit the limit of the graph and each stage is within its iteration limit |
| `Turns.AttemptsMade` | crates/hi-agent-runtime/src/lib.rs:312-334 | Admission makes one more attempt of each stage of the frontier and of no other |
| `Turns.StagesReturnIff` | crates/hi-agent-runtime/src/lib.rs:358-407 | The stages of a frontier all return if and only if all answer and their admissions and charges together fit the limits |
| `Turns.StagesStopAt` | crates/hi-agent-runtime/src/lib.rs:380-404 | Otherwise there is a first stage that answers with an error or charges too much, and what stays charged is all of the stages before it, its own admission, and its charges if they fit |
| `Frontiers.TurnApplies` | crates/hi-agent-runtime/src/lib.rs:414-495 | The outcomes of a frontier are applied if and only if each is admissible and each stage may go on; next frontier, checkpoint, patches, state and ledger are then determined by the edges taken and the outcomes |
| `Frontiers.RefusedKeepsRepairs` | crates/hi-agent-runtime/src/lib.rs:414-487 | A refused outcome is the first that does not fit, and exactly the repair edges taken before it stay charged |
| `Transitions.SelectedIsTaken` | crates/hi-agent-runtime/src/lib.rs:433-464 | The edges selected are all open ones of a fan-out and otherwise the earliest open one of least priority, an edge being open under its own condition |
| `Transitions.SelectedIff` | crates/hi-agent-runtime/src/lib.rs:445-464 | A stage may go on if and only if an edge is open and, for a fan-out, no open edge is budget-remaining and the open ones are within the parallelism ceiling |
| `Transitions.AcceptedIff` | crates/hi-agent-runtime/src/lib.rs:537-601 | An outcome is accepted if and only if no infrastructure failure counts against the candidate, a plan replaces another one only under a higher revision with a non-blank reason, patches have a plan, and a report comes exactly from a verification gate, which is trusted, the report being genuine and of this run |
| `Transitions.StageApplied` | crates/hi-agent-runtime/src/lib.rs:417-494 | What one applied stage adds to frontier, checkpoint demand, patches, state and ledger |
| `Serial.ReserveAllSpec` | crates/hi-agent-runtime/src/lib.rs:335-352 | Whole-frontier admission succeeds if and only if every kind has room for all its calls at once; it then holds them all and spends nothing |
| `Serial.ReleaseAllSettles` | crates/hi-agent-runtime/src/lib.rs:129-135 | Releasing the guards of a frontier returns the ledger to nothing reserved |
| `Serial.CommitOneSpec` | crates/hi-agent-runtime/src/lib.rs:120-126 | Starting a stage moves one unit of its kind from reserved to consumed and keeps the other stages' holds |
| `Serial.RunStagesSpec` | crates/hi-agent-runtime/src/lib.rs:358-407 | Running the stages of a frontier ends settled and within the limits; on success the outcomes are the driver's, one per stage in order, and each kind of consumption grew by exactly the admissions and driver charges of the stages |
| `Serial.BeginSpec` | crates/hi-agent-runtime/src/lib.rs:308-353 | A frontier that starts covers exactly its stages in stage-id order, one transition each |
| `Serial.ApplyAllKeeps` | crates/hi-agent-runtime/src/lib.rs:414-495 | Applying the outcomes keeps the ledger sound and settled and the run's identity and attempts, and selects a non-empty next frontier inside a closed graph; which frontier it is says `Frontiers.TurnApplies` |
| `Serial.FinishKeeps` | crates/hi-agent-runtime/src/lib.rs:496-532 | A committed frontier seals exactly the state it commits, with the next sequence |
| `Serial.FrontierStepOk` | crates/hi-agent-runtime/src/lib.rs:271-533 | The turn of the loop with a deterministic driver obeys the step contract |
| `Workflow.FailureAlwaysWins` | crates/hi-agent-runtime/src/lib.rs:274-306 | On a known frontier the run fails before any sibling starts if and only if some stage of it is a terminal failure, whatever else is on it |
| `Workflow.ClassifyScheduled` | crates/hi-agent-runtime/src/lib.rs:272-306 | A frontier that is scheduled holds only known stages and no terminal failure, and without a terminal success it runs as a whole |
| `Workflow.AdmitAttemptsCounts` | crates/hi-agent-runtime/src/lib.rs:312-334 | Admission counts one transition and one attempt per stage and keeps the sum of the attempts equal to the transition count |
| `Workflow.RepairChargeNeverRefused` | crates/hi-agent-runtime/src/lib.rs:427-477 | The repair charge after an eligible-edge check is at most one and never refused |
| `Workflow.Preferred` | crates/hi-agent-runtime/src/lib.rs:443-464 | The selected edge has the least priority and is the first of those |
| `Budget.AdmissionKeepsSound` | crates/hi-rsi-runtime/src/budget.rs:70-88 | Reserving or consuming an amount succeeds if and only if consumed plus reserved stays within the limit |
| `Budget.HoldThenSettle` | crates/hi-rsi-runtime/src/budget.rs:90-109 | Reserve then release changes nothing; reserve then commit spends exactly what was used and stays within the limits |
| `Budget.MergeFloorIsMonotoneAndIdempotent` | crates/hi-rsi-runtime/src/budget.rs:127-154 | Merging a floor never lowers consumption, covers the floor, stays within the limits and changes nothing a second time |
| `Budget.FloorRefusedIff` | crates/hi-rsi-runtime/src/budget.rs:127-154 | A settled ledger refuses a floor if and only if the floor has something reserved or the merged consumption would not fit |
| `Budget.BudgetLedger.Take` | crates/hi-rsi-runtime/src/budget.rs:156-163 | Removes the entry under the id whether or not it is the requested reservation, and says which |
| `Budget.BudgetLedger.Reserve` | crates/hi-rsi-runtime/src/budget.rs:70-88 | The reservation table and the totals agree after every call; success if and only if there is room |
| `Budget.BudgetLedger.Commit` | crates/hi-rsi-runtime/src/budget.rs:90-104 | Succeeds if and only if exactly this reservation is held and the amount used fits it; otherwise nothing changes |
| `Budget.BudgetLedger.Release` | crates/hi-rsi-runtime/src/budget.rs:106-109 | Succeeds if and only if exactly this reservation is held; a reservation of another ledger whose id is in use here leaks the amount held under that id, and nothing else ever leaks |
| `Budget.BudgetLedger.AnyCalls` | crates/hi-rsi-runtime/src/budget.rs:106-163 | Whatever is called afterwards, in whatever order, leaked amounts stay reserved and keep their room, and while there are any no consumption floor is accepted |
| `Budget.BudgetLedger.Consume` | crates/hi-rsi-runtime/src/budget.rs:111-114 | Consumes all or nothing |
| `Budget.BudgetLedger.MergeConsumptionFloor` | crates/hi-rsi-runtime/src/budget.rs:127-154 | Merges all kinds or none |
| `Executor.WorkflowExecutor.Loop` | crates/hi-agent-runtime/src/lib.rs:271-534 | The loop over frontiers computes the reference run from its head, seals included, and terminates on every graph; its end without a terminal stage is unreachable |
| `Executor.WorkflowExecutor.Execute` | crates/hi-agent-runtime/src/lib.rs:176-183 | `execute` computes the reference execution |
| `Executor.WorkflowExecutor.Resume` | crates/hi-agent-runtime/src/lib.rs:190-246 | `resume` computes the reference resume, all refusals included |
| `Executor.WorkflowExecutor.Run` | crates/hi-agent-runtime/src/lib.rs:254-271 | The checks on the rebuilt transition count, then the loop |
| `Executor.WorkflowExecutor.Turn` | crates/hi-agent-runtime/src/lib.rs:272-533 | One turn over the ledger object is one step of the reference |
| `Executor.WorkflowExecutor.RunFrontier` | crates/hi-agent-runtime/src/lib.rs:335-407 | Admission, waves and application of one frontier give the reference turn, which `Turns.TurnCommits` and `Turns.TurnCommitsIff` describe on its inputs |
| `Executor.ReserveFrontier` | crates/hi-agent-runtime/src/lib.rs:73-104 | Reserves for the whole frontier, or leaves the ledger as it was and no stage started |
| `Executor.RunWaves` | crates/hi-agent-runtime/src/lib.rs:358-407 | Waves of any width give the outcomes and the ledger of the serial reference |
| `Executor.DropGuards` | crates/hi-agent-runtime/src/lib.rs:129-135 | Dropping the guards releases every reservation not yet committed |
| `Executor.SortFrontier` | crates/hi-agent-runtime/src/lib.rs:274-291 | The frontier is visited in ascending stage-id order |
| `Text.LessIff` | crates/hi-agent-runtime/src/lib.rs:274-291 | Stage-id order: one id comes before another if and only if they agree up to a place where the first one ends or has the smaller character |
| `Executor.SumAttempts` | crates/hi-agent-runtime/src/lib.rs:262-266 | The checked sum of the attempts, in any order |
| `Checkpoints.FilenameInjective` | crates/hi-agent-runtime/src/driver.rs:253-260 | Two file names are equal if and only if the sequences and the hash prefixes are |
| `Checkpoints.NumberWidth` | crates/hi-agent-runtime/src/driver.rs:253-260 | The sequence in a name is decimal with at least twelve digits, exactly twelve below 10^12 |
| `Checkpoints.TamperedIsRefused` | crates/hi-agent-runtime/src/driver.rs:262-284 | A file under the name of a checkpoint is loaded if and only if its content is coherent and has the same sequence and hash prefix |
| `Checkpoints.LatestCheckpoint` | crates/hi-agent-runtime/src/driver.rs:286-310 | The loop returns the newest of all loaded checkpoints, or the first load error |
| `Checkpoints.LatestIff` | crates/hi-agent-runtime/src/driver.rs:286-310 | A directory answers if and only if every JSON file of it loads; the answer is the first file of highest sequence, and none only if there is no JSON file |
| `Checkpoints.IsJsonIff` | crates/hi-agent-runtime/src/driver.rs:291-298 | The files looked at are those with a name before the extension `.json` |
| `Checkpoints.Newest` | crates/hi-agent-runtime/src/driver.rs:300-305 | A member with the highest sequence, if there is any |
| `Checkpoints.OrderIndependentIff` | crates/hi-agent-runtime/src/driver.rs:300-305 | The newest of loaded checkpoints is the same in every order if and only if the highest sequence belongs to one of them |
| `Directories.DirectoryOrderIff` | crates/hi-agent-runtime/src/driver.rs:286-310 | `latest_checkpoint` answers the same in every order of a directory if and only if everything loads and one checkpoint has the highest sequence, or all that fails to load fails alike |
| `Directories.OldResumeCollides` | crates/hi-agent-runtime/src/lib.rs:190-246 | Two processes write a directory whose answer depends on the order: one runs a workflow and seals twice, another resumes the first checkpoint and seals the second sequence again with other content |
| `Directories.RoundCommits` | crates/hi-agent-runtime/src/lib.rs:271-533 | The turn of that workflow, computed stage by stage: one more attempt, the reported failures, a seal and the next sequence |
| `Checkpoints.LatestIsLastSeal` | crates/hi-agent-runtime/src/driver.rs:300-305 | The newest of the seals of a resume chain, in any order, is the last one |
| `Checkpoints.LatestOfDirectory` | crates/hi-agent-runtime/src/driver.rs:262-310 | On a directory that stores exactly the seals of a resume chain under their names, in any order and among any files that are not JSON, the answer is the last seal |
| `Checkpoints.DiskChainIsChain` | crates/hi-agent-runtime/src/driver.rs:286-310 | Processes that each resume what they find on disk, whatever order directories are listed in, form the chain that resumes the newest seal, so sequences strictly increase and the transition limit holds |
| `Checkpoints.WrittenSealsAreStored` | crates/hi-agent-runtime/src/driver.rs:229-260 | Sealing every checkpoint under its own name stores exactly those checkpoints |
| `Checkpoints.OnlyTrustedGatesVerify` | crates/hi-agent-runtime/src/driver.rs:107-227 | Whatever models, tools and gates answer, a report is attached exactly at a trusted verification gate |
| `Checkpoints.DispatchAnswers` | crates/hi-agent-runtime/src/driver.rs:107-227 | When a stage of each kind answers and whether it passes; only a model brings a plan or patches, and only a failed tool brings evidence, one piece against the candidate |
| `Attempts.AlwaysWithinAllowance` | crates/hi-ai/src/request_execution.rs:75-202 | In every interleaving of sends, reservations, drops, fan-out plans and waits: attempts plus reserved stay within the limit, reserved is the sum of the live reservations, the limit never falls, spent waits stay within the maximum, and the per-payload counters sum to the attempts |
| `Attempts.StepKeepsInv` | crates/hi-ai/src/request_execution.rs:137-202 | Each successful call keeps that invariant and gives nothing back that was spent |
| `Attempts.SendsPossibleIff` | crates/hi-ai/src/request_execution.rs:75-83 | A row of sends is possible if and only if it fits what the policy allows: none for a policy of none, the maximum without a plan, and with a planned fan-out of n exactly n + max - 1 in 32 bits, less what is sent and reserved |
| `Attempts.AggregatorAlwaysHasASend` | crates/hi-ai/src/moa.rs:233-249 | On a fresh operation that allows a send, planning and reserving first leaves the aggregator a send whatever the reference calls do |
| `Attempts.DropMakesAvailable` | crates/hi-ai/src/request_execution.rs:460-468 | Dropping a reservation of at least one send makes a send available |
| `Attempts.ReservationStays` | crates/hi-ai/src/request_execution.rs:175-187 | A reservation nobody drops keeps what it was granted |
| `Attempts.RequestExecution.PlanFanout` | crates/hi-ai/src/request_execution.rs:137-155 | Succeeds if and only if the plan is non-empty and unchanged; the limit never falls |
| `Attempts.RequestExecution.Reserve` | crates/hi-ai/src/request_execution.rs:175-187 | Grants the minimum of the request and what is left |
| `Attempts.RequestExecution.DropReservation` | crates/hi-ai/src/request_execution.rs:460-468 | Gives back exactly the grant, which never underflows |
| `Attempts.RequestExecution.Backoff` | crates/hi-ai/src/request_execution.rs:190-203 | Charges the wait if and only if it fits |
| `Attempts.RequestExecution.DispatchOnce` | crates/hi-ai/src/request_execution.rs:289-449 | One pass exactly: refused if nothing is available; otherwise the send is charged to its payload, a wait is paid if and only if one is begun, the pass goes on if and only if the outcome is replayed and its wait fits, and each way of stopping gives its own answer |
| `Attempts.RequestExecution.DispatchControlled` | crates/hi-ai/src/request_execution.rs:257-451 | The loop terminates; the ledger is exactly the sends made, each on the payload whose turn it was, all but the last replayed and their waits paid; it sends nothing only if nothing was available, and otherwise stops exactly at a send that is not replayed, finds nothing available, cannot pay its wait or is cut, with the answer or error that belongs to it |
| `Attempts.EndedMeans` | crates/hi-ai/src/request_execution.rs:289-449 | All sends of a dispatch but the last were broken with a full wait or redirected within the origin, and its answer is the one that belongs to the last send, with the allowance used up or the wait not affordable where it says so |
| `Attempts.WaitTable` | crates/hi-ai/src/request_execution.rs:425-427 | The waits are one, two and then four seconds |
| `Attempts.PayloadIs` | crates/hi-ai/src/request_execution.rs:289-449 | Every send carries the payload of the latest redirect within the origin before it, or the first one |
| `Attempts.SentCounts` | crates/hi-ai/src/request_execution.rs:300-312 | The counter of each payload grew by exactly the sends of it |
| `Progress.TraceRefines` | crates/hi-ai/src/request_execution.rs:485-525 | On every event trace with a monotone clock the two timestamps represent a stopwatch of un-paused time since the last progress or new attempt |
| `Progress.ObserveRefines` | crates/hi-ai/src/request_execution.rs:486-525 | The same for one event |
| `Progress.EventMeans` | crates/hi-ai/src/request_execution.rs:485-525 | What each event does to the stopwatch at every later instant, and whether it wakes the watcher |
| `Progress.StallIsExpiry` | crates/hi-ai/src/request_execution.rs:539-562 | The stall check holds if and only if the stopwatch runs and has reached the timeout, and the armed deadline is the first such instant |
| `Progress.RequestProgress.ObserveEvent` | crates/hi-ai/src/request_execution.rs:486-525 | Follows the stopwatch, and leaves a wake-up whenever the deadline may have changed |
| `Progress.RequestProgress.Watch` | crates/hi-ai/src/request_execution.rs:527-566 | The watcher answers what the stopwatch alone would: the request's result, or a stall at the first poll without a wake-up after un-paused silence of the timeout (a wake-up only re-arms, and the request is polled again first); never with a zero or unrepresentable timeout |
| `Progress.JudgeIs` | crates/hi-ai/src/request_execution.rs:527-566 | That answer is the one of the first poll that brings a result, or that is quiet while the un-paused silence has reached the timeout |
| `Limiter.ReachableInv` | crates/hi-ai/src/concurrency.rs:69-206 | In every reachable state of every interleaving: the counters are the permits that are out, all limits hold, no wake-up is lost, and every raise was earned |
| `Limiter.CountsKept` | crates/hi-ai/src/concurrency.rs:69-84 | The counters stay exact, so the subtraction of a released permit never saturates |
| `Limiter.LimitsKept` | crates/hi-ai/src/concurrency.rs:142-203 | auxiliary <= in flight <= max, reserved + 1 <= limit <= max, auxiliary <= max - reserved, and without adaptation the limit is max |
| `Limiter.WakeupsKept` | crates/hi-ai/src/concurrency.rs:129-167 | A sleeping waiter that could be admitted and has no notification on its way always has somebody between a state change and its notification |
| `Limiter.HistoryKept` | crates/hi-ai/src/concurrency.rs:180-203 | Every call keeps the history exact: the limit is what the log makes of the cap, and a success raised it if and only if it follows three plain successes with no throttle, error or raise between, at least ten seconds after every throttle, with the limit below the cap |
| `Limiter.RaisedIff` | crates/hi-ai/src/concurrency.rs:180-203 | In every reachable state a recorded result raised the limit if and only if the raise was earned and the limit, computed from the log alone, was below the cap |
| `Limiter.StuckWaiterHasACause` | crates/hi-ai/src/concurrency.rs:129-167 | A waiter that cannot move is kept by a request that holds a permit or is about to notify; with nothing in flight and nothing pending nobody sleeps |
| `Limiter.ReservationHonouredAlwaysIff` | crates/hi-ai/src/concurrency.rs:22-28 | A foreground request is admitted whenever fewer than the reserved number of foreground requests are in flight, in every reachable state, if and only if adaptation is off, nothing is reserved, or only one slot is not reserved |
| `Limiter.UnsafeReservationBroken` | crates/hi-ai/src/concurrency.rs:180-189 | For every other configuration a reachable state that breaks the reservation: auxiliary slots full, then one throttled foreground request |
| `Limiter.ReservationHonouredIff` | crates/hi-ai/src/concurrency.rs:147-155 | With the limit and the auxiliary requests as they are, the reservation is kept if and only if the auxiliary requests fit beside it |
| `Limiter.Validate` | crates/hi-ai/src/concurrency.rs:41-52 | Accepts exactly the configurations with a positive cap above the reservation |
| `Limiter.LimitCell.TryAcquire` | crates/hi-ai/src/concurrency.rs:132-163 | One critical section of `acquire` |
| `Limiter.LimitCell.RecordResult` | crates/hi-ai/src/concurrency.rs:169-206 | The critical section of `record_result`, whose effect over every run `Limiter.RaisedIff` gives exactly |
| `Limiter.LimitCell.ReleasePermit` | crates/hi-ai/src/concurrency.rs:74-82 | The critical section of a permit's drop |
| `Breaker.RecordRefines` | crates/hi-ai/src/circuit_breaker.rs:240-305 | After every record the deque is the ordered sub-log of outcomes since the last half-open success within one window of now; a closed breaker opens if and only if that sub-log has enough samples and the number of failures among them meets the threshold; a half-open one closes empty on a success and opens on a failure, and an open one stays as it is |
| `Breaker.FailuresCount` | crates/hi-ai/src/circuit_breaker.rs:283-290 | The failures counted are the samples that are no successes |
| `Breaker.SuccessesKeepClosed` | crates/hi-ai/src/circuit_breaker.rs:275-300 | A closed breaker that saw no failure of late stays closed under every positive threshold |
| `Breaker.LiveIs` | crates/hi-ai/src/circuit_breaker.rs:240-256 | An outcome is in the window if and only if it is at most one window old and no half-open success came at or after it |
| `Breaker.InvAlways` | crates/hi-ai/src/circuit_breaker.rs:196-305 | On every trace of calls with a monotone clock: that window, an opening instant while open and none while closed, a grant instant while half-open, probes within the maximum |
| `Breaker.NoGrantDuringCoolDown` | crates/hi-ai/src/circuit_breaker.rs:202-222 | An open breaker grants nothing and stays as it is until its cool-down has passed, whatever outcomes arrive late |
| `Breaker.GrantedIff` | crates/hi-ai/src/circuit_breaker.rs:120-139 | In every reachable state a check is granted exactly from a known instant on, at most one cool-down or probe timeout away |
| `Breaker.EpisodeBound` | crates/hi-ai/src/circuit_breaker.rs:120-139 | A half-open episode of length D grants at most max(1, max_probes) + floor(D / probe_timeout) checks |
| `Breaker.EpisodeBoundIff` | crates/hi-ai/src/circuit_breaker.rs:120-139 | Every episode of every reachable breaker grants at most max_probes + floor(D / probe_timeout) checks if and only if max_probes is at least one |
| `Breaker.ZeroProbesStillGrant` | crates/hi-ai/src/circuit_breaker.rs:120-139 | With max_probes zero, a cooled-down open breaker still grants a check |
| `Breaker.NoGrantWhileProbing` | crates/hi-ai/src/circuit_breaker.rs:120-139 | While every slot is taken and no outcome comes back, nothing is granted before the latest grant has timed out |
| `Breaker.EvictIsRecent` | crates/hi-ai/src/circuit_breaker.rs:247-256 | In time order, dropping expired entries from the front keeps exactly the recent ones |
| `Breaker.CircuitBreaker.CheckRequest` | crates/hi-ai/src/circuit_breaker.rs:196-237 | Grants exactly from that instant on, and keeps the invariant |
| `Breaker.CircuitBreaker.RecordOutcome` | crates/hi-ai/src/circuit_breaker.rs:240-305 | The window is the live sub-log afterwards, and a closed breaker opens if and only if enough of it failed |
| `Usages.AddConserves` | crates/hi-ai/src/types.rs:731-750 | Folding one more call in, on either side, keeps every token field the saturating sum of all calls |
| `Usages.ZeroPrior` | crates/hi-ai/src/types.rs:724-729 | A zero total may be left out of the last call's usage |
| `Usages.ConservesInAnyOrder` | crates/hi-ai/src/types.rs:731-750 | The order of folding does not matter |
| `Fallback.FallbackProvider.Stream` | crates/hi-ai/src/fallback.rs:118-230 | Every non-empty chain answers inside the loop; every token field of the completion or error is the saturating sum over the backends actually called; the answer is that of the first backend that does not pass the request on, or of the last; each visited breaker is checked, each called backend recorded once, the rest untouched |
| `Fallback.VisitedIff` | crates/hi-ai/src/fallback.rs:125-224 | A backend is visited if and only if each one before it was refused by its breaker, or had a send and completed with neither content nor refusal, or had a send and failed eligibly |
| `Fallback.ServedBy` | crates/hi-ai/src/fallback.rs:118-230 | The answer on the links alone: the first backend that does not pass the request on, or the last, gives the completion, its error, or the refusal, and bills the backends whose breakers let the request through while a send was left |
| `Fallback.FallbackProvider.Build` | crates/hi-ai/src/fallback.rs:54-73 | A provider with closed breakers for every non-empty chain, and none for an empty one |
| `Fallback.FallbackProvider.TryBackend` | crates/hi-ai/src/fallback.rs:125-224 | One backend: skip, refusal, completion or error, its breaker, and the usage carried on; which of these it is says `Fallback.VisitedIff` |
| `Fallback.FoldedConserves` | crates/hi-ai/src/fallback.rs:154-178 | A winner that takes in earlier usage bills all of it |
| `Fallback.VisitAt` | crates/hi-ai/src/fallback.rs:125-224 | Each visit is what its breaker and link make of it, and the chain goes on after it unless it ends the chain or no backend is left |
| `Fallback.MarksKeptIff` | crates/hi-ai/src/fallback.rs:154-178 | In one fold the estimated mark is lost if and only if only a zero-token prior carried it, and the rate limits if and only if only a zero-token prior carried any |
| `Fallback.CompletionMarks` | crates/hi-ai/src/fallback.rs:154-178 | In terms of the visits: a completion is estimated if the winner was, or some earlier attempt was and some earlier attempt used tokens; its rate limits are the winner's, else the latest earlier ones provided some earlier attempt used tokens |
| `Fallback.GrantRecordedIff` | crates/hi-ai/src/fallback.rs:128-152 | A granted check is matched by a record of the same visit if and only if the operation still has a send; the record is a success unless the backend failed with an error that affects its health |
| `Fallback.UnrecordedProbeBlocks` | crates/hi-ai/src/fallback.rs:149-152 | A probe granted to an operation without a send leaves the breaker half-open from that instant; with all slots taken, checks without a record are refused until exactly the probe timeout after it |
| `Fallback.PastKeeps` | crates/hi-ai/src/fallback.rs:125-224 | Each visit keeps the breaker invariant of its backend, so every breaker theorem holds of a chain over any number of requests |
| `Moa.ReferenceIsBilled` | crates/hi-ai/src/moa.rs:477-499 | Both calls are billed in the aggregate, and in the shortcut for a reference that used nothing |
| `Moa.AddReferenceUsage` | crates/hi-ai/src/moa.rs:477-499 | Token fields add up; context size, cache convention and rate limits stay the aggregate's |
| `Moa.Stream` | crates/hi-ai/src/moa.rs:222-274 | Every answer after the plan bills both calls; the aggregator can send if there was room when the route was entered; the reservation is always returned |
| `Json.BalancedJsonObjectEnd` | crates/hi-ai/src/text_tool_fallback.rs:104-139 | Returns an end if and only if it closes the least balanced non-empty prefix, strings and escapes respected, and that prefix ends in a brace |
| `Json.PrintedObjectIsSpan` | crates/hi-ai/src/text_tool_fallback.rs:104-139 | Every object printed by the grammar of RFC 8259 sections 2 to 7, with any white space, is exactly the span found at its first brace, whatever surrounds it |
| `Json.ValueIsNeutral` | crates/hi-ai/src/text_tool_fallback.rs:112-137 | Scanning any printed value comes back to the level it started at and never drops below it |
| `Json.DepthCounts` | crates/hi-ai/src/text_tool_fallback.rs:112-137 | Outside strings the depth is the number of opening brackets less the closing ones, of either kind |
| `TextCalls.ParseAdmittedCalls` | crates/hi-ai/src/text_tool_fallback.rs:19-83 | The exact result: too long, no call, a call outside the request, more than one call, or one call with the prose around it |
| `TextCalls.AcceptedHasOneCall` | crates/hi-ai/src/text_tool_fallback.rs:29-83 | An accepted response holds exactly one call, of an admitted name; outside its span no call starts anywhere in the text; the prose on either side loses only white space at its end |
| `CallRoundTrips.CallsDecide` | crates/hi-ai/src/text_tool_fallback.rs:19-83 | The exact answer from where calls start: none, the first one outside the request, a second one behind it, or the one call with its prose |
| `CallRoundTrips.JsonCallIff` | crates/hi-ai/src/text_tool_fallback.rs:85-102 | A brace starts a call if and only if an object span begins there that decodes to a name and arguments within the size limits, the arguments being "{}" if absent, the string itself, or printed |
| `CallRoundTrips.ByteLenIs` | crates/hi-ai/src/text_tool_fallback.rs:19-28 | Sizes are those of the UTF-8 encoding |
| `XmlForms.XmlCallIff` | crates/hi-ai/src/text_tool_fallback.rs:141-211 | A text is read as a call if and only if the call is written there: opening tag, name, at least one argument, no key twice, nothing over its size limit, a closing tag or a place where the text stops, and ASCII blanks before the name, the elements and the closing tag and any white space around keys |
| `TextCalls.ParseJsonCall` | crates/hi-ai/src/text_tool_fallback.rs:85-102 | The call in the least balanced object, with its size limits |
| `TextCalls.ParseXmlCall` | crates/hi-ai/src/text_tool_fallback.rs:141-211 | The loop over the arguments computes the reference reading of the markup |
| `CallRoundTrips.JsonCallRoundTrip` | crates/hi-ai/src/text_tool_fallback.rs:19-102 | A printed object that decodes to an admitted call, in prose that starts no call, is accepted as that call with that prose |
| `CallRoundTrips.PrintedXmlIsACall` | crates/hi-ai/src/text_tool_fallback.rs:141-211 | A printed call with distinct trimmed keys is found where it stands, with its name and all its arguments in order, whatever blanks are written in it and with or without its closing tag |
| `CallRoundTrips.XmlCallRoundTrip` | crates/hi-ai/src/text_tool_fallback.rs:19-83 | The same for a whole response |
| `CallRoundTrips.TagIsFound` | crates/hi-ai/src/text_tool_fallback.rs:175-187 | The first closing tag found is the one printed: a tag cannot begin in the body and end in the tag |
| `Text.WhitespaceIs` | crates/hi-ai/src/text_tool_fallback.rs:156-165 | White space is the 25 characters of the Unicode property |
| `Percent.DecodeOfEncode` | crates/hi-ai/src/huggingface.rs:713-776 | Decoding undoes encoding for every byte string; the encoding is canonical and holds no slash |
| `Percent.EncodeOfDecode` | crates/hi-ai/src/huggingface.rs:713-776 | Encoding undoes decoding if and only if the text is canonical (RFC 3986 sections 2.1 and 2.3) |
| `Percent.PlainIff` | crates/hi-ai/src/huggingface.rs:715-718 | A byte stands for itself if and only if it is an ASCII letter, a digit, or one of "-", ".", "_", "~" |
| `Percent.HexIff` | crates/hi-ai/src/huggingface.rs:769-776 | Hexadecimal digits of either case stand for their place in the list of digits |
| `Percent.DecodeEscape` | crates/hi-ai/src/huggingface.rs:750-767 | A percent sign with two hexadecimal digits is the byte they spell |
| `Percent.DecodePlain` | crates/hi-ai/src/huggingface.rs:750-767 | Every other byte, malformed escapes included, stands for itself |
| `Percent.TextRoundTrip` | crates/hi-ai/src/huggingface.rs:713-767 | percent_decode(percent_encode(s)) is s for every string, the UTF-8 conversions included |
| `Percent.PercentEncode` | crates/hi-ai/src/huggingface.rs:713-723 | Computes the encoding of a string, which decodes to it |
| `Percent.EncodeBytes` | crates/hi-ai/src/huggingface.rs:713-723 | The loop over the bytes |
| `Percent.PercentDecode` | crates/hi-ai/src/huggingface.rs:750-767 | Computes the decoding of a string, read leniently as UTF-8 |
| `Percent.DecodeBytes` | crates/hi-ai/src/huggingface.rs:750-767 | The loop over the bytes |
| `Utf8.LossyOfEncoded` | crates/hi-ai/src/huggingface.rs:766-766 | The lenient UTF-8 reading loses nothing on the bytes of a string |
| `Utf8.DecodeScalarIs` | crates/hi-ai/src/huggingface.rs:766-766 | The lenient reading takes the character that the bytes begin with, and if there is none one replacement for the longest beginning of a character, or for one byte |
| `Percent.EncodePathCommutes` | crates/hi-ai/src/huggingface.rs:706-711 | Splitting an encoded path gives the encoded segments, and decoding those gives the path |
| `Percent.JoinOfSplit` | crates/hi-ai/src/huggingface.rs:706-711 | Splitting loses nothing and leaves no separator in a part |
| `RepoRef.RoundTripIff` | crates/hi-ai/src/huggingface.rs:26-84 | Parsing undoes printing if and only if the repository is valid, its owner is no host name, the revision is trimmed, non-empty and without a colon, and the filename is absent or trimmed and non-empty |
| `RepoRef.HostOwnerIsLost` | crates/hi-ai/src/huggingface.rs:35-37 | A valid repository whose owner is "hf.co" does not survive printing and parsing |
| `RepoRef.ShortIsClean` | crates/hi-ai/src/huggingface.rs:35-50 | What the short form accepts is valid, trimmed and free of the separators |
| `RepoRef.DefaultRevision` | crates/hi-ai/src/huggingface.rs:38-50 | A repository alone or with a file behind a colon means the revision "main" |
| `RepoRef.HostPrefixIgnored` | crates/hi-ai/src/huggingface.rs:35-37 | A host in front of a printed reference changes nothing |
| `RepoRef.ParsedIsValid` | crates/hi-ai/src/huggingface.rs:635-688 | Both forms accept only valid repository ids; the rest of the URL form is in `RepoUrl.UrlIff` |
| `RepoUrl.UrlRoundTrip` | crates/hi-ai/src/huggingface.rs:635-669 | For both schemes and both hosts, the address of a file, scheme, host, owner, name, "resolve", revision and path, is read back as exactly that repository, revision and file |
| `RepoUrl.UrlIff` | crates/hi-ai/src/huggingface.rs:635-669 | A URL is read as a file of a repository at a revision if and only if it is one of that file, slashes around its path apart, and it is refused if and only if it is the URL of no file |
| `RepoUrl.ValidRepoIff` | crates/hi-ai/src/huggingface.rs:671-690 | A repository id is valid if and only if it is two non-empty names of ASCII letters, digits, dashes, underscores and dots with one slash between them |
| `RepoUrl.ParseTrims` | crates/hi-ai/src/huggingface.rs:27-27 | White space around a reference never matters |

## Left out

- HTTP, server-sent events, headers, TLS, DNS and browser automation: a send is an outcome chosen by the environment.
- Hashes, attestations and JSON-schema validation are parameters; checkpoint names use a hash function of at least 16 digits, and coherence of a checkpoint is the identity comparison it performs.
- File permissions, atomic renames and unreadable or missing directories: a checkpoint directory is a sequence of names with contents.
- Lock poisoning and allocation failure.
- The 64-bit counter that names reservations is unbounded here.
- Map entries of value zero and absent entries are the same thing in a tally.
- A stage's `output` value, context manifests, memory entries, the checkpoint reason and the text of errors carry no decision and are not modelled.
- `WorkflowGraph::validate` is not modelled; where a theorem needs it, only the closure of edges over known stages is assumed, and `Runs.ResumePassesChecksIffPositionKnown` says what fails without it.
- Drivers charge neither model calls, tool calls nor repairs and the checkpoint call charges nothing, as the trait documents; a driver charge that does not fit ends the stage with an error.
- Executor.WorkflowExecutor.Loop: polls the stages of a wave in order; every other order, concurrent charges and cancellation are in the step machine of `Waves`, and the two are connected by `Refinement.EveryScheduleIsSerial`.
- Refinement.EveryScheduleIsSerial: leaves open which error a frontier with a failing stage ends with and what its siblings had charged, because that depends on the schedule; `Schedules.EveryExitIsSettled` and `Schedules.ChargedExactlyOnce` still hold there.
- Directories.OldResumeCollides: takes the two seals of one sequence as two files, which they are if their hash prefixes differ.
- Scheduler fairness and real time: clocks are integers, and the results are safety and exact instants rather than liveness.
- Breaker.RecordRefines: the error-rate threshold is an exact rational, so the rounding of a 64-bit float quotient is not modelled.
- Breaker and fallback events for observers, status messages and tracing.
- Error classification: whether an error affects health or is eligible for fallback is an input.
- Fallback.FallbackProvider.Stream: requests of one chain follow one another; the breaker theorems themselves cover any interleaving of checks and records.
- Breaker.EpisodeBoundIff: asks for a threshold of at most one, because a breaker that nothing can trip has no episodes.
- Limiter: metadata discovery is not limited by the source and is not modelled; runtime shutdown that kills a spawned release is excluded.
- Attempts.RequestExecution.DispatchControlled: request identifiers, idempotency headers and diagnostics are not modelled, only the payload identity that is counted.
- Progress.RequestProgress.Watch: one poll of the watched request is one instant; the overflow of the clock is a bound given to the constructor.
- Usage costs, prices and the deprecated occupancy helper would only add easy members.
- TextCalls.ParseAdmittedCalls: positions count scalar values instead of bytes, which cuts at the same places because every delimiter is ASCII; the JSON decoder and the printer of argument maps are parameters; the 32-bit depth of the scanner is unbounded here, and 8 MiB of text cannot overflow it.
- Provider capability intersection, model metadata, login, pairing, announcements and the command line.
