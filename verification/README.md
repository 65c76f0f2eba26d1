# Verification of the agent harness and the Marcus CLI loop

This project models the stateful cores of the repository and proves what they keep.
Two runtimes share one vocabulary (`Domain.dfy`).

**The durable runtime** executes a run on any number of workers over one database row.

- `RunRepository.dfy` is the run row with its version-fenced writes; `RunEngine.dfy` the
  engine's loop; `EngineStep.dfy` which calls of a step run and what the step ends in.
- `RunProtocol.dfy` makes every commit, every reading of a snapshot, every crash, re-delivery,
  heartbeat, cancellation, decision and reaping one event, so that a run of the protocol is any
  interleaving of them. `RunInvariants.dfy` proves its inductive invariant, and
  `RunTheorems.dfy`, `RunBudgets.dfy` and `RunTokens.dfy` what follows: fencing, the path of
  statuses, cancellation, replay without calling the LLM again, budgets, leases, and the fate
  of every usage record. The engine's loop is proved to be a run of this protocol.
- `ToolExecutor.dfy` is the write-ahead executor, both as the class that commits row by row and
  as the stage machine it refines; `ToolProtocol.dfy` interleaves any number of executions with
  crashes and decisions: at most one effect per key, and the approval gate.
- `DurableSystem.dfy` puts both over one database. Each of its runs is a run of both protocols,
  and every row, request and effect belongs to a call of a persisted step.
- `Context.dfy`, `Compaction.dfy` and `CompactionTheorems.dfy` render and fold the stored steps.
  `DurableContext.dfy` puts them over the run protocol: its runs are runs of both, so what the
  compaction theorems say of numbered calls holds of the steps that runs persist.
- `SkillRegistry.dfy` and `SkillTheorems.dfy` are the skill lifecycle with its immutability
  trigger, one session at a time; `SkillSessions.dfy` interleaves any number of sessions, each
  deciding on rows it read at any earlier time.
- `Providers.dfy` and `Gateway.dfy` are the request adapters, the retries and the memory of
  rejected reasoning options, one call at a time as the worker and the CLI make them;
  `GatewaySharing.dfy` lets calls of one client overlap.

**The CLI loop** works in one process on one session.

- `TokenUtils.dfy` groups and trims messages; `TrimTheorems.dfy` says what a trim drops and
  keeps; `History.dfy` adds steps, summaries and compaction.
- `Verification.dfy` relates the evidence fields to the log of what the session observed;
  `ResultCache.dfy` compares the cached loop with the plain one.
- `ToolCalls.dfy` says what a step's calls come to when the read-only ones run together, in any
  order of their lookups and ends.
- `MarcusLoop.dfy` is the session object and its turn, built from these, with the user's
  interrupts while the model answers and while tools run.
- `ProcessOutput.dfy` is the bounded output buffer of background processes.

A method is tied twice where that says more: to the function that specifies it, about which the
theorems are, and to what it leaves, field by field or message by message, in words of the inputs
(`ToolExecutor.Executed`, `RunEngine.StepEnds`, `MarcusLoop.Iterated`, `Context.ShowsStep`).

Statements about a state with `Inv(s)` hold of every reachable state, and along every run from it
(`RunInvariants.ReachableIsInv`, `DurableSystem.RunsKeepInv`). Clocks, LLM replies, handler
results, argument validation, JSON and text are parameters: nothing is assumed of them. The
limit of calls per step is positive, as the settings check it (harness/config.py:92-108).

## Where code and comments part

The model follows the code. Each of these has a lemma that names the input or the exact condition.

- The reaper's comment says that it clears stale leases. It does not: its loop closes the session
  without a commit (harness/workers/main.py:168-173), so the release is undone and only the
  message it publishes counts. A lease leaves its owner only by the owner's release or by an acquire that
  finds it expired (`RunBudgets.LeaseLeavesExactlyWhen`), which is how a dead worker's run goes
  on (`RunBudgets.StaleRunIsTakenOver`).
- Nor does a late heartbeat make it leave the run alone: renewal leaves the version alone, so it
  hands the run off exactly when the version it read is current
  (`RunBudgets.ReaperHandsOffExactlyOnVersion`, `RunBudgets.ReaperHandsOffALiveRun`); the worker
  that gets the message is turned away as long as the lease lives.
- Cancelling a running run is safe but can leave it running for ever without a lease
  (`RunTheorems.OrphansStayRunning`, `RunTheorems.CancellingOrphans`).
- Limits can be negative when a run is created; budgets hold always exactly when none is
  (`RunBudgets.BudgetsHoldExactlyWhenSane`).
- Cancelling a run can also lose tokens: the step's usage record is committed by the executor,
  and the end-of-step checkpoint that would count it is stale (`RunTokens.CancellingLosesTokens`);
  `tokens_used` falls short exactly by the records some worker gave up or still holds
  (`RunTokens.FallsShortExactlyWhenLost`).
- A crash between the two commits of a call that is not retry-safe cannot be replayed
  (`ToolExecutor.ReplayEquivalence` gives both directions).
- A failed check after a passed one clears the evidence but the revision stays verified
  (`Verification.FailedCheckDoesNotReopen`, `Verification.FailedCheckChangesNoAnswer`).
- Writing project memory does not empty the result cache, so a cached reading goes stale
  (`ResultCache.MemoryGoesStale`); the cache is right exactly when no such tool exists
  (`ResultCache.CacheRefinesExactlyWhenPreserved`).
- A summary sorts by its own creation time, which can be after steps it does not cover
  (`Context.SortIsStable`); requests and results stay paired all the same.
- Publishing and deprecating a skill decide on rows they read before and write only changed
  columns; every interleaving of sessions keeps the registry right exactly if each publication
  and each deprecation meets its condition (`SkillSessions.RunsAreOkExactlyWhenSafe`), and some
  do not (`SkillSessions.RaceIsReachable`).
- The prompt loop closes the processes after a turn typed at it, but not after a turn that a
  command starts (marcus_code/cli/commands.py:211); only the text interface closes them then too
  (marcus_code/cli/app.py:803-812). A process that such a turn leaves holds the next answer back
  (`Verification.ProcessesAreSinceReaping`).
- The check of the context window counts the retained history; the hints of the call go on top
  (marcus_code/runtime/agent.py:304, 331-366), so a request can exceed the window, by less than
  its hints (`MarcusLoop.MarcusLoop.RunTurn`).
- When calls of one client overlap, a provider's late acceptance overwrites another call's
  rejection, and retries keep sending what was rejected; the key stays quiet exactly if neither
  happens (`GatewaySharing.NeverAgainExactlyWhenNoLateCall`, `GatewaySharing.LateReplyReopens`).
- A user who interrupts running tools leaves a request without its results, and the prompt loop
  goes on with the session: the history is unpaired exactly then (`MarcusLoop.MarcusLoop.RunTurn`,
  `History.InterruptedStepIsPairedExactlyWhen`), and the bookkeeping knows nothing of what those
  tools did (`MarcusLoop.MarcusLoop.AppendStep`).

## Model

| member | source | states |
|---|---|---|
| ToolExecutor.ToolExecutor.Execute | harness/runtime/tool_executor.py:65-103 | a result is stored, truncated, and answered as a success; a raised error is stored by its message and answered with its own code or as a failed execution; invalid, unknown, denied and pending calls leave and answer what they must; and all of it is the stage machine run to its end |
| ToolExecutor.SecondExecutionAnswersTheFirst | harness/runtime/tool_executor.py:254-274 | a second execution answers the first one's result, or its error without the code, and runs nothing |
| ToolExecutor.ToolExecutor.CheckApproval | harness/runtime/tool_executor.py:139-209 | proceeds exactly when the request is approved, touching nothing; else opens, awaits or denies as the stages do |
| ToolExecutor.ToolExecutor.RecordUnknownTool | harness/runtime/tool_executor.py:211-252 | an unknown tool leaves one failed row per key and answers from it afterwards |
| ToolExecutor.ToolExecutor.ResolveExisting | harness/runtime/tool_executor.py:254-274 | a row that exists is answered or recovered by the tier stored in it |
| ToolExecutor.ToolExecutor.RecoverStarted | harness/runtime/tool_executor.py:276-305 | a started row is rerun if retry-safe, else marked unknown |
| ToolExecutor.ToolExecutor.InvokeAndFinalize | harness/runtime/tool_executor.py:307-336 | exactly one effect, with the row's own arguments, and the row finalized as the last two stages do |
| ToolExecutor.InvokeRuns | harness/runtime/tool_executor.py:307-336 | which is: succeeded with the truncated result, or failed with the message, the code and whether a retry is worth it |
| ToolExecutor.FinishedKeyIsInert | harness/runtime/tool_executor.py:254-274 | executing a succeeded, failed or unknown key again changes nothing and runs nothing |
| ToolExecutor.CleanIsIdempotent | harness/runtime/tool_executor.py:65-103 | a second execution of any call leaves the database as the first left it |
| ToolExecutor.CrashesLeave | harness/runtime/tool_executor.py:89-103 | the only databases any sequence of crashed attempts can leave |
| ToolExecutor.ReplayEquivalence | harness/runtime/tool_executor.py:254-336 | crash-then-replay equals the crash-free call, for every sequence of crashes, if and only if the call is retry-safe or no attempt died between its two commits |
| ToolProtocol.RunsKeepInv | harness/runtime/tool_executor.py:65-336 | the invariant of concurrent executions holds along every run |
| ToolProtocol.AtMostOnce | harness/db/models.py:214 | under every interleaving, crash and replay a handler whose stored tier is not retry-safe runs at most once per key |
| ToolProtocol.RerunsOnlyFromStarted | harness/runtime/tool_executor.py:276-285 | every invocation is by the execution that inserted the row, or by one that found it started under a retry-safe tier; none invokes twice |
| ToolProtocol.ApprovalGate | harness/runtime/tool_executor.py:82-85 | an approval-tier handler runs only after its own execution read the request of that key as approved |
| ToolProtocol.DenialNeverRuns | harness/runtime/tool_executor.py:180-209 | an execution that read a denial runs nothing, and if it ends unopposed the row is failed and the key never runs |
| ToolProtocol.BornFailedNeverRuns | harness/runtime/tool_executor.py:105-137 | no handler ever runs for a key whose row was inserted as failed |
| EngineStep.PlanToolCalls | harness/runtime/engine.py:416-450 | the planning loops compute the plan |
| EngineStep.PlanPartitions | harness/runtime/engine.py:416-450 | the plan partitions the calls in order, runs read-only calls up to the limit or exactly the first call, and skips no read-only call it had room for |
| EngineStep.PlanRunsExactly | harness/runtime/engine.py:416-450 | a call runs if and only if it is a first one that is not read-only, or read-only with fewer than the limit of read-only calls before it |
| EngineStep.ProcessToolCalls | harness/runtime/engine.py:477-518 | the loops over the selected calls come to the batch result |
| EngineStep.BatchControl | harness/runtime/engine.py:495-516 | a parked batch counts zero executed calls and waits for its first; a batch is ended exactly by a sequential first call, controls of read-only calls are dropped |
| EngineStep.BatchIsOfTheFirst | harness/runtime/engine.py:495-516 | a batch is exactly what its first call says if that runs alone, and otherwise goes on |
| RunRepository.RunRepository.UpdateVersioned | harness/runtime/repository.py:68-88 | writes exactly when the version read is current and the extra condition holds, and then bumps it |
| RunRepository.RunRepository.Checkpoint | harness/runtime/repository.py:90-105 | saves, or refuses a stale snapshot or a forbidden transition, leaving the row alone |
| RunRepository.RunRepository.TryAcquireLease | harness/runtime/repository.py:107-115 | claims exactly an unleased or expired row at the version read |
| RunRepository.RunRepository.RenewLeaseById | harness/runtime/repository.py:117-136 | moves only the expiry, and only for the owner |
| RunRepository.RunRepository.ReleaseLease | harness/runtime/repository.py:138-139 | clears the lease exactly when the version read is current |
| RunInvariants.InvIsPreserved | harness/runtime/engine.py:135-385 | every event of workers, routes, reapers, heartbeats and crashes keeps the invariant |
| RunInvariants.ReachableIsInv | harness/workers/main.py:79-137 | every reachable state of the run protocol satisfies the invariant |
| RunInvariants.LogIsMonotone | harness/runtime/state_machine.py:8-38 | along the committed versions counters never fall, cancellation freezes them, and terminal statuses stay |
| RunTheorems.OneWriterPerVersion | harness/runtime/repository.py:68-88 | in every run each version has exactly one successful writer |
| RunTheorems.OutdatedActorsNeverWrite | harness/runtime/repository.py:76-84 | an actor whose snapshot predates someone else's write never writes the row again until it reads |
| RunTheorems.StatusesFollowTheTable | harness/runtime/state_machine.py:8-38 | the committed statuses are a path in the table and terminal ones absorb |
| RunTheorems.TransitionsAreAlwaysAllowed | harness/runtime/state_machine.py:34-38 | no step, guard, route or reaper ever asks for a transition the table refuses |
| RunTheorems.WhereRunsComeFrom | harness/runtime/state_machine.py:8-38 | from which statuses each status can be committed |
| RunTheorems.RequestsAreTaken | harness/api/routes/runs.py:157-183 | which requests are taken up in which status, both ways |
| RunTheorems.RequestsDo | harness/api/routes/runs.py:166-197 | a request from a current reading cancels a waiting run, flags another, resumes a waiting one or times out one whose approval expired, and nothing else; from an outdated one it does nothing |
| RunTheorems.CancellationIsSafe | harness/api/routes/runs.py:174-198 | once a cancellation is committed no counter rises and the only terminal status is cancelled |
| RunTheorems.OrphansStayRunning | harness/runtime/reaper.py:29-35 | a running run without a lease stays running for ever unless a message is delivered |
| RunTheorems.CancellingOrphans | harness/api/routes/runs.py:192-195 | a reachable run in which cancelling leaves such an orphan |
| RunBudgets.StepsArePersistedInOrder | harness/db/models.py:200 | the persisted steps are 0 to current_step - 1 and possibly current_step; a parked run has its current step |
| RunBudgets.PersistedStepIsNeverRecalled | harness/runtime/engine.py:177-190 | a persisted step never changes and no worker ever starts an LLM call for it again |
| RunBudgets.BudgetsHoldExactlyWhenSane | harness/runtime/guardrails.py:31-53 | steps, tool calls and tokens stay within their limits along every run if and only if no limit is negative |
| RunBudgets.ToolCallsAreTheStepsBelow | harness/runtime/engine.py:232-258 | the tool-call counter of a live run is the sum over the steps below the current one |
| RunTokens.TokensAreAccounted | harness/runtime/engine.py:372-385 | tokens_used is the sum of the counted usage records, never above their total, and equal to it if and only if every record not counted has no tokens |
| RunTokens.LostExactlyWhenGivenUp | harness/runtime/engine.py:192-258 | a worker loses a record it holds if and only if it has a stale checkpoint, a late reply, a lost heartbeat, an exception, a failed call or a crash |
| RunTokens.LostOnceOrNever | harness/runtime/engine.py:360-385 | over any run a record is counted, or held by a worker, or was lost once, for good |
| RunTokens.FallsShortExactlyWhenLost | harness/runtime/engine.py:192-258 | tokens_used falls short of the total if and only if a record with tokens is held by a worker or was lost |
| RunTokens.CancellingLosesTokens | harness/api/routes/runs.py:192-195 | a reachable run without crashes and failed calls in which a cancellation makes a step's tokens uncounted for ever |
| RunTokens.RecordsAreCountedOnce | harness/runtime/engine.py:186-202 | a counted record stays counted with the same tokens, so no LLM call is counted twice |
| RunBudgets.OwnerChangesAreFenced | harness/runtime/repository.py:107-139 | every change of lease owner bumps the version and a renewal changes only the expiry |
| RunBudgets.LeaseLeavesExactlyWhen | harness/runtime/repository.py:107-139 | in every reachable state an event takes the lease from its owner if and only if the owner releases it from the current version, or another worker acquires it expired from the current version |
| RunBudgets.LostLeasesWereGivenBackOrExpired | harness/runtime/reaper.py:17-48 | along any run, whatever reapers, heartbeats and crashes do, an owner that lost its lease gave it back or let it expire |
| RunBudgets.UnexpiredLeaseIsKept | harness/workers/main.py:96-97 | along any run an unexpired lease stays its owner's until the owner releases it |
| RunBudgets.ReleaseIsTheOwners | harness/workers/main.py:131-137 | the final read-check-release never clears another owner's lease |
| RunBudgets.ReaperHandsOffExactlyOnVersion | harness/runtime/reaper.py:40-47 | after a late heartbeat the reaper still hands the run off if and only if the version it read is current; the row stays as it is, and the worker that gets the message is turned away until the renewed lease expires |
| RunBudgets.ReaperHandsOffALiveRun | harness/runtime/reaper.py:22-25 | a reachable run in which a reaper hands off a run whose lease is renewed and unexpired |
| RunBudgets.StaleRunIsTakenOver | harness/workers/main.py:168-173 | from any state with an expired lease, a reaper's hand-off, if undisturbed, ends with another worker owning the lease and the run loaded |
| RunEngine.RunEngine.RunUntilBlocked | harness/runtime/engine.py:135-154 | the loop ends, is a run of the protocol, and saves one row a step, each following from the one before by the persisted or replied step exactly; it asks the LLM once each for unpersisted steps within the limit |
| RunEngine.PathCountsUp | harness/runtime/engine.py:145-146 | the steps of such a run count up by one, and its limits and lease stay |
| RunEngine.CancelledExactlyWhenRequested | harness/runtime/guardrails.py:31-33 | a run left alone ends cancelled if and only if a cancellation was asked for, and then no step is taken |
| RunEngine.RunEngine.ExecuteStep | harness/runtime/engine.py:162-285 | one step is stopped as cancelled or timed out, fails with the LLM, or ends in the status and counters of its persisted or new step; a persisted step is replayed |
| RunEngine.RunEngine.CallLlm | harness/runtime/engine.py:287-385 | one LLM call with the tokens of compaction and reply, after the checkpoint that adopts a skill if one is chosen, or a failed run |
| RunEngine.RunEngine.ExecuteCalls | harness/runtime/engine.py:452-518 | a new step is persisted before its calls run, a replayed one is not touched, and only the version moves with each tool or skill unlocked |
| RunEngine.RunEngine.FinishStep | harness/runtime/engine.py:192-285 | timed out if and only if over a budget; else waiting for the user if and only if there is no call or its lone first call asks; else completed, failed, parked or running as that call says; with the counters of each case |
| RunEngine.SampleParks | harness/runtime/engine.py:237-253 | in a world with read-only tools a step parks exactly at a call that needs approval, without advancing |
| DurableSystem.SystemRunsRefineBoth | harness/runtime/engine.py:452-518 | every run of the whole system is a run of the run protocol and of the tool protocol |
| DurableSystem.EverythingBelongsToAPersistedStep | harness/runtime/tool_executor.py:100-101 | every tool row, request and effect belongs to a call of a persisted step, and a parked run has a request to decide |
| DurableSystem.ApprovedArgumentsAreRun | harness/runtime/tool_executor.py:77-103 | an approval-tier handler is given exactly the arguments that were approved: the normalized ones of its persisted call |
| DurableSystem.CancelledRunsStartNoStep | harness/runtime/guardrails.py:32-33 | no effect after a committed cancellation belongs to a step beyond the current one |
| TokenUtils.AtomicMessageGroups | marcus_code/runtime/token_utils.py:82-103 | the loops compute the tiling of the history into requests with the results behind them |
| TokenUtils.TrimMessagesToCount | marcus_code/runtime/token_utils.py:106-146 | the loop leaves the trim by count, for every limit |
| TokenUtils.TrimMessagesToBudget | marcus_code/runtime/token_utils.py:149-199 | the loop leaves the trim by estimated tokens, for every budget |
| TokenUtils.ScoresAreRanks | marcus_code/runtime/token_utils.py:54-79 | scores order messages by seven ranks and say nothing more; only a result that failed and verified comes before what the model said |
| TokenUtils.MaxScoreIsTheMost | marcus_code/runtime/token_utils.py:171-179 | a group counts as its most important message |
| TokenUtils.EstimateIsOfTheText | marcus_code/runtime/token_utils.py:17-51 | the estimate is two sevenths of code or a quarter of other text, and four tokens |
| TrimTheorems.DropsTheLeastPrefix | marcus_code/runtime/token_utils.py:171-199 | a trim drops the least prefix of the unprotected groups in (score, position) order whose removal fits, or all of them |
| TrimTheorems.TrimKeepsPairing | marcus_code/runtime/token_utils.py:82-103 | a trim never parts a tool request from its results |
| TrimTheorems.TrimIsSubsequence | marcus_code/runtime/token_utils.py:198-199 | a trim keeps the order of what it keeps |
| TrimTheorems.TrimKeepsProtected | marcus_code/runtime/token_utils.py:160-169 | every system message stays, in order, and so does the latest user message |
| TrimTheorems.TrimFitsOrOnlyProtected | marcus_code/runtime/token_utils.py:187-199 | the result fits or holds only protected messages, and trimming it again changes nothing |
| History.PlanToolCalls | marcus_code/runtime/agent.py:1014-1042 | the planning loop computes the plan |
| History.PlanIsAPartition | marcus_code/runtime/agent.py:1014-1042 | each call is run or rejected once, and what runs is read-only calls up to the limit or at most the first call |
| History.PlanPicksExactly | marcus_code/runtime/agent.py:1014-1042 | exactly which calls run and which are rejected, each in the order of the response |
| History.StepKeepsPairing | marcus_code/runtime/agent.py:552-620 | appending a request with its rejected and executed results keeps the history paired |
| History.InterruptedStepIsPairedExactlyWhen | marcus_code/cli/app.py:706-712 | a history left after some of a step's messages, and gone on with, is paired if and only if it had none of them or all |
| History.CondensedExactlyWhen | marcus_code/runtime/agent.py:828-843 | when turns are summarized, and that the summary stands for exactly what is between the prompt and the current turn |
| History.CondensedKeepsTheTurn | marcus_code/runtime/agent.py:828-843 | summarizing shortens the history and keeps the prompt and the whole current turn |
| History.CondensedKeepsPairing | marcus_code/runtime/agent.py:866-885 | summarizing keeps requests and results paired |
| History.TrimmedHistoryIsSound | marcus_code/runtime/agent.py:823-864 | after the three passes the history is paired, has the latest user message, and fits or is down to protected messages |
| History.TrimmedHistoryIsOfTheDue | marcus_code/runtime/agent.py:823-864 | apart from a due summary nothing is added, reordered or rewritten, no system message is lost, and the messages are within the cap or all protected |
| History.BudgetIsTheLesser | marcus_code/runtime/agent.py:854-857 | the budget is the lesser of the window and its threshold share |
| History.CompactHistory | marcus_code/runtime/agent.py:946-955 | the compaction loop ends and comes to at most one effective trim |
| History.CompactionIsSound | marcus_code/runtime/agent.py:923-961 | compaction keeps the pairing and the latest user message, and meets the target unless nothing more can go |
| History.CompactedHistoryIsOfTheDue | marcus_code/runtime/agent.py:923-955 | the same of compaction, which trims only more than four messages above the target |
| Verification.FieldsMatchTheLog | marcus_code/runtime/agent.py:580-605 | over any session, the closing of all processes between turns included, the evidence, the unverified revision, the revision and the processes are what the log says, both ways |
| Verification.FinalAnswers | marcus_code/runtime/agent.py:478-522 | an answer is final if and only if no process runs and the policy's condition on the log holds |
| Verification.EvidenceIsThisTurns | marcus_code/runtime/agent.py:284-288 | evidence that stands was found in the current turn |
| Verification.ProcessesAreSinceReaping | marcus_code/cli/app.py:679-682 | the processes that hold an answer back are those started since the manager was last closed and not stopped |
| Verification.FailedCheckDoesNotReopen | marcus_code/runtime/agent.py:603-605 | a session whose last check failed after a mutation and whose answer is still final |
| Verification.FailedCheckChangesNoAnswer | marcus_code/runtime/agent.py:497-504 | under after_mutation a failed check never changes the decision; under requested it always blocks |
| ResultCache.EntriesAreCurrent | marcus_code/runtime/agent.py:1103-1104 | every cached result was produced in this turn at the current revision, in every interleaving of calls that run together |
| ResultCache.KeptExactlyWhen | marcus_code/runtime/agent.py:1092-1105 | a result is kept if and only if its tool is read-only, idempotent and steady and it is no error, and then answers the next call |
| ResultCache.HitsAreFresh | marcus_code/runtime/agent.py:1094-1101 | if calls that do not empty the cache preserve cacheable results, a hit equals a fresh call in every session in which no lookup comes between a mutation and its recording |
| ResultCache.CacheRefinesExactlyWhenPreserved | marcus_code/runtime/agent.py:589-593 | the cached loop observes and does what the plain loop does, on every such session, if and only if that hypothesis holds |
| ResultCache.MemoryGoesStale | marcus_code/tools/extra.py:594-635 | the project memory tools break it: a session in which a cached reading is stale |
| MarcusLoop.MarcusLoop.RunTurn | marcus_code/runtime/agent.py:262-707 | one turn under any model, tools, guards and interrupts is exactly its iterations, each from where the last left off, in history, log and outcome; the retained history of every request fits the window and the whole exceeds it by less than its hints, requests are about this input and paired if the history was, the history is paired afterwards if and only if no tools were interrupted, the tool calls are one clean session of the cache, and an answer is final only when the log allows it |
| MarcusLoop.MarcusLoop.PromptTurn | marcus_code/cli/app.py:706-716 | however such a turn ends, no process is left on record |
| MarcusLoop.MarcusLoop.Iterate | marcus_code/runtime/agent.py:300-707 | one iteration: apart from the trims the history grows only by what the model said, by its calls' results and by a warning; how it ends, what it sent, repaired and logged, exactly |
| MarcusLoop.MarcusLoop.AppendStep | marcus_code/runtime/agent.py:552-619 | behind the history come the request, a denial for each rejected call and for each selected call the text of its own observation, the log gets each, and each call is told what the last call of its identifier observed or was refused for; interrupted, without results and without a trace in the log |
| ToolCalls.ReadsAreTold | marcus_code/runtime/agent.py:1089-1122 | calls that run together are told their own: the last of each identifier, as a cache step of its own, or the last complaint about one |
| MarcusLoop.MarcusLoop.TryFinish | marcus_code/runtime/agent.py:478-536 | a reply without calls is final if and only if the log allows it |
| MarcusLoop.MarcusLoop.TrimHistory | marcus_code/runtime/agent.py:823-864 | the history becomes the trimmed one, paired if it was |
| MarcusLoop.MarcusLoop.ExecuteSelectedCalls | marcus_code/runtime/agent.py:1060-1122 | the read-only calls are one interleaving of their lookups and ends, each refused or a step of its own, the others follow in order, and each call gets the result of the last call of its identifier |
| MarcusLoop.MarcusLoop.GatherReads | marcus_code/runtime/agent.py:1089-1116 | whatever the interleaving, every call that was not refused is exactly one step of the cache and observed what that step did |
| ToolCalls.LastOfIdWins | marcus_code/runtime/agent.py:1110-1122 | of calls with one identifier the last one's result stands |
| MarcusLoop.MarcusLoop.RecordObservations | marcus_code/runtime/agent.py:580-619 | each observation is logged and answered in order, and the cache is emptied once for each successful mutation |
| MarcusLoop.MarcusLoop.ClearHistory | marcus_code/runtime/agent.py:963-973 | only the first system message stays, paired whatever was there, and the evidence and the cache are gone |
| Context.LatestCoveredStepNo | harness/runtime/context.py:204-210 | the loop finds the highest covered step: no summary covers more, and one covers as much |
| Context.LlmCallStepToMessages | harness/runtime/context.py:174-201 | the request, and for each call in order a message with its identifier that shows its own record: the stored result, the stored error, an unknown failure, or that there is no record |
| Context.OtherRecordsDoNotShow | harness/runtime/context.py:188-199 | another key's record never changes a call's message |
| Context.RenderedIsPaired | harness/runtime/context.py:188-201 | each call has exactly one result, with or without its record |
| Context.BuildLlmMessages | harness/runtime/context.py:33-87 | the prompt first; every visible step stands there in a row with its own records, every summary with its text, and everything said; in the order of the sorted timeline |
| Context.SortIsStable | harness/runtime/context.py:72 | the timeline is a stable permutation by creation time, summaries included |
| Context.ContextIsPaired | harness/runtime/context.py:84-87 | whatever the timestamps, every request in the context is followed by exactly its results |
| Compaction.EstimateTokens | harness/runtime/compaction.py:27-37 | the loops count the characters, four to a token |
| Compaction.CharsConcat | harness/runtime/compaction.py:27-37 | the text of messages adds up |
| Compaction.MaybeCompact | harness/runtime/compaction.py:40-103 | it compacts if and only if more than ten steps are uncovered and their text reaches the threshold share of the limit; the summary takes the next number and covers all uncovered steps but ten, whose messages it is given |
| Compaction.DueStaysDue | harness/runtime/compaction.py:70-71 | more text, a lower limit or a lower threshold never make a due compaction undue |
| Compaction.AnotherStepStaysDue | harness/runtime/compaction.py:60-71 | nor does another step |
| Compaction.UncoveredHas | harness/runtime/compaction.py:56-61 | the uncovered steps are exactly the loaded LLM calls past the covered one |
| CompactionTheorems.PlanLeavesTen | harness/runtime/compaction.py:73-93 | a plan takes the next summary number, covers strictly more, and leaves exactly ten steps |
| CompactionTheorems.StaleInsert | harness/runtime/compaction.py:92-102 | a plan made from older steps goes in if and only if no summary was added since, and then keeps the numbering |
| CompactionTheorems.StepsArePartitioned | harness/runtime/context.py:41-53 | in every reachable state each step is rendered verbatim or is under exactly one summary, and the last ten are verbatim |
| CompactionTheorems.SecondCompactionDoesNothing | harness/runtime/compaction.py:60-61 | each compaction covers strictly more than all before it, and a second one right after does nothing |
| DurableContext.RunsRefineBoth | harness/runtime/compaction.py:92-103 | every run of workers and compactions over the stored steps is a run of the run protocol and a run of numbered calls and summaries |
| DurableContext.PersistedStepsAreShownOnce | harness/runtime/context.py:41-53 | in every reachable state each step a run persisted is sent to the LLM verbatim or is under exactly one summary, and the last ten verbatim |
| ProcessOutput.ManagedProcess.Capture | marcus_code/tools/base.py:509-524 | after every line the count is the buffered length, within the limit, and the buffers are those of the whole interleaving |
| ProcessOutput.EvictionDropsLeast | marcus_code/tools/base.py:519-524 | stderr loses a line only once stdout is empty, and nothing goes beyond the first fit |
| ProcessOutput.BuffersAreSuffixes | marcus_code/tools/base.py:515-524 | over any interleaving each buffer is a suffix of its stream, within the limit |
| ProcessOutput.StderrKeepsAllThatFits | marcus_code/tools/base.py:519-524 | the stderr buffer is the longest suffix of stderr that fits by itself, whatever stdout carried |
| ProcessOutput.ShortOutputIsKept | marcus_code/tools/base.py:515-519 | output that fits is never lost |
| ProcessOutput.Get | marcus_code/tools/base.py:554-568 | an identifier is found if and only if it is exact or the prefix of exactly one process |
| SkillRegistry.SkillRegistry.CreateRevision | harness/skills/registry.py:113-169 | when it rejects, exactly; else it appends a draft numbered one above all of its skill, found by a loop |
| SkillRegistry.SkillRegistry.ApproveRevision | harness/skills/registry.py:171-181 | a draft becomes approved, and nothing else changes |
| SkillRegistry.SkillRegistry.PublishRevision | harness/skills/registry.py:183-201 | if and only if the revision is approved or published and passed, it is published and its skill points at it; nothing else changes |
| SkillRegistry.SkillRegistry.RecordEvaluation | harness/skills/registry.py:203-218 | the revision gets this status and result, unless it is published and they differ |
| SkillRegistry.SkillRegistry.DeprecateSkill | harness/skills/registry.py:225-232 | the skill is deprecated and loses its active revision; nothing else changes |
| SkillTheorems.RunsKeepOk | harness/skills/registry.py:113-232 | one session at a time, a skill is published exactly when it has an active revision, which is its own, published and passed; versions are numbered without gaps |
| SkillTheorems.VersionsAreOneToN | harness/skills/registry.py:151-158 | the versions of a skill are 1 to n, each once, in order of creation |
| SkillTheorems.PublishedNeverChanges | harness/db/models.py:477-505 | no event, and no edit by anyone, ever changes a published revision |
| SkillTheorems.ChosenInstructionIsKept | harness/runtime/engine.py:301-312 | the revision a run picks is passed and keeps its instruction for ever |
| SkillTheorems.StaleApprovalsAreSafe | harness/skills/registry.py:171-181 | an approval decided on any older reading keeps the registry right |
| SkillTheorems.StaleEvaluationsAreSafe | harness/skills/registry.py:203-218 | an evaluation decided on any older reading keeps it right or is refused |
| SkillTheorems.StalePublishIsSafeExactlyWhen | harness/skills/registry.py:183-201 | a publication decided on an older reading keeps it right if and only if the revision is still passed and the skill not deprecated in between |
| SkillTheorems.StaleDeprecateIsSafeExactlyWhen | harness/skills/registry.py:225-232 | the exact condition for a deprecation decided on an older reading |
| SkillSessions.RunsAreOkExactlyWhenSafe | harness/skills/registry.py:183-232 | over every interleaving of sessions the registry is right at every moment if and only if each publication and each deprecation that went through met its condition |
| SkillSessions.PublishedNeverChanges | harness/db/models.py:477-505 | safe or not, no interleaving changes a revision once it is published |
| SkillSessions.VersionsAreKept | harness/skills/registry.py:144-158 | nor does any disturb the numbering of versions |
| SkillSessions.RaceIsReachable | harness/skills/registry.py:192-200 | from an empty registry, an interleaving that publishes a failed revision |
| Providers.ReasoningStaysInItsFields | harness/llm/providers.py:57-148 | reasoning changes only the fields it reports, none of them core, on all five providers |
| Providers.EffortIsSent | harness/llm/providers.py:57-111 | on OpenAI and Ollama exactly the level asked for is sent, or the least the model can do when switched off |
| Providers.OpenRouterIsSent | harness/llm/providers.py:75-90 | a budget comes before a level unless reasoning is switched off |
| Providers.NemotronIsSent | harness/llm/providers.py:121-149 | whether to think, with low effort, and the budget in the model's field for it |
| Providers.FallbackIs | harness/llm/providers.py:192-200 | the fallback is the request with the caller's other fields and the output limit under the provider's name |
| Providers.FallbackDiffersOnlyInReasoning | harness/llm/providers.py:181-208 | request and fallback agree outside the reported fields and keep the caller's core fields |
| Gateway.LLMGateway.PostWithRetry | harness/llm/gateway.py:325-380 | at most max_retries + 1 requests, all but the last answered by something worth a retry; the result is what the last answer says, complaints about tools before those about reasoning |
| Gateway.LLMGateway.Complete | harness/llm/gateway.py:107-159 | at most twice that many requests, and a rejected key never sends reasoning again |
| Gateway.LLMGateway.CompleteStream | harness/llm/gateway.py:197-223 | at most max_retries + 2 requests with at most one fallback, and the same discipline |
| GatewaySharing.MemoryMatchesTheAnswers | harness/llm/gateway.py:143-153 | under every overlap of calls a key is remembered as rejected if and only if the last answer that told was a rejection |
| GatewaySharing.NeverAgainExactlyWhenNoLateCall | harness/llm/gateway.py:312-317 | under every overlap a rejected key never sends reasoning again if and only if no overlapping call retries with it and none begins after a late acceptance |
| GatewaySharing.AloneNeverAgain | harness/llm/gateway.py:143-153 | so it is whenever no other call of the key has reasoning in the air when one is rejected |
| GatewaySharing.LateReplyReopens | harness/llm/gateway.py:151-153 | two overlapping calls after which a rejected key sends reasoning again, with no retry |

## Left out

- HTTP, SQL, RabbitMQ, Redis, SSE parsing, MCP transport and subprocess control: only their commits, crashes and failures appear, as events or answers.
- Tool handlers, JSON Schema validation, JSON text, truncation and summary texts: uninterpreted functions; error texts are told apart by what they say.
- Floating-point ratios: thresholds and token ratios are compared as rationals.
- ToolExecutor.ToolExecutor.CheckApproval: how the stored decision is turned into the text of a denial is not modelled, only that there is one.
- TokenUtils.TrimMessagesToBudget: what parsing a result as JSON says, and how calls are rendered, is not modelled; the scores and the estimate start from it.
- The repeat, no-progress and argument-repair guards of the engine and of the CLI loop: their verdicts are arbitrary (a control result, or the verdict of an iteration), so what they count is not modelled.
- Resuming a run by a decision: the decision and the run's checkpoint are two events, though the route commits them together; the model allows more interleavings than the code.
- A decision or an expiry may overwrite another, as the code lets it; the gate is stated about the decision an execution read.
- Executions of one step may run in any order and number, which covers the code's order of deferred, read-only and sequential calls.
- MarcusLoop.MarcusLoop.ExecuteSelectedCalls: a handler's reading and the storing of its result are one step; its retries, approval and mode checks are inside what running a call does.
- MarcusLoop.MarcusLoop.RunTurn: an interrupt or exception comes while the model answers or while tools run, where the code awaits; one that strikes between two statements is covered only by `History.InterruptedStepIsPairedExactlyWhen`. The streaming retry and the usage counters are not modelled.
- ResultCache.CacheRefinesExactlyWhenPreserved: supposes that tools marked read-only and cacheable do not change the world; without that the cached and the plain loop differ in effects even when every hit is fresh (`ResultCache.HitsAreFresh` needs no such hypothesis). Its sessions have no lookup between a mutation and its recording, which the loop keeps as long as no read-only tool is marked as mutating (`MarcusLoop.MarcusLoop.RunTurn`).
- Context.ContextIsPaired: supposes that stored conversation messages are not tool messages; the code only ever stores user and assistant ones.
- SkillRegistry.SkillRegistry.CreateRevision: manifests and schemas are not modelled, and `skill` names are identities.
- Gateway.LLMGateway.Complete: one call at a time, which is how the worker's consumer and the CLI use a client; in `GatewaySharing` calls overlap, but the number of retries and the tool capability are left out.
- RunBudgets.ReaperHandsOffExactlyOnVersion: a caller of the reaper that commits its release is not modelled, since there is none.
- The unlocking of a tool or skill is a committed version of its own (`UnlockTool`). In the code it becomes durable with the next commit of the engine's session, the end of the step, so a crash in between undoes it and nobody can write in between: the model has these runs on top of the code's, each of whose commits is an unlock directly followed by the end of its step.
- Providers.ReasoningStaysInItsFields: the name tests that recognise a model are given as facts about it.
- Skill search and relevance, cron, authentication, encryption, redaction, command policy, metrics, terminal and web interfaces: no state worth an invariant here.
