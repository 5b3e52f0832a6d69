# Verification of the pondas.ai backend

pondas.ai runs teams of AI agents that are wired into a graph. Users draw handoff and review edges
between agents, tasks run on agents, finished tasks hand their result on along the edges, every run
is paid for in credits, and what coding agents build is kept in versions. This project models the
parts of the backend whose correctness is hard to see from one function, and proves what they are
meant to guarantee.

`dafny verify dfyconfig.toml` checks everything.

## The parts

**Orchestration kernel.** `Schema` holds the tables, both as one value (`Db`) and as the session
(`Session`) whose rows the services change in place. `EdgeOps`, `TaskService`, `GraphEngine`,
`CreditService` and `WorkerCore` follow the source files of the same names: every operation is a
method on the session, proved against a function on `Db`. `Kernel` puts those functions into one
state machine with the broker's messages and the workers' runs. Its steps are the committed
transactions (dispatch, charge, record an outcome, propagate, reap, stop, continue, create,
webhooks, edits of edges and tiers) and the broker's events (deliver, duplicate, lose, give back
after a worker died, sweep). Steps interleave freely; a step that is not enabled changes nothing.
`KernelSafety` proves that every step keeps the invariants. `KernelTheorems`, `KernelChains`,
`KernelRefunds`, `KernelEntryRefunds`, `KernelOutcomes`, `KernelHistory`, `KernelRecovery` and
`KernelHandover` state what follows for every run. `Chains` is about the edge table alone: how long a chain of propagated tasks can get, and
exactly when there is a longest one. `KernelRuns` turns every chain of the edge table into a run of
the kernel, and `KernelTightness` builds the runs that meet the bounds, or go on without one.

**Version store.** `Versions` models collected outputs, canonical files, frozen manifests, restore,
push and backfill on the fields of a `Project`; `VersionTheorems` is about whole histories of them,
and `VersionContents` about the bytes that are served after them. `Utf8` has the encoder and,
written from the table of well-formed sequences, the decoder.

**Message logs.** `LlmStream` compares a streamed model response with the same response received
whole. `ChatHistory` assembles the first messages of a chat. `DevRunner` is the coding agent's loop
with its context compaction.

**Text.** `Strings` has the string operations of the host language that are needed, `TextKernels`
the masking of secrets, the edit tool and the budgeted context of a prompt.

## What turned out different from what one would expect

These are facts about the code, each with a run or an input that shows it and the exact condition
under which the code does what one would expect.

- The header of `task_service.py` (line 18) promises that a goal has fewer tasks than its budget;
  lines 139-145 close the gate above the budget only, and so does propagation. The model follows the
  code. For every budget there is a run that takes a goal to budget + 1 tasks with a single order
  (`GoalOvershootsByOne`); propagation does no worse (`PropagationStaysInBudget`), and at most
  `budget` of the tasks ever run (`GoalBudgetBoundsWork`). A propagation leaves the goal within its
  budget if and only if it was below it (`SpawnWithinBudgetIff`), and the coded gate differs from the
  documented one exactly at a count equal to the budget (`GateAgreesIff`).
- A handoff one way and a review loop back are accepted, and then one order leads to more than n
  tasks for every n (`MixedCycleIsAccepted`, `MixedCycleRunsOn`). `LinesEndExactlyWhen` gives the
  exact test on the edge table.
- A task that is reaped between dispatch and charge is refunded for nothing (`RefundWithoutCharge`,
  and after an earlier attempt that was charged, `TotalsHideUnpaidRefund`).
  `RefundsArePaidExactlyWhen` says which runs are free of this.
- A coding task commits `done` before it propagates. If the worker dies in between, the chain is lost
  for good, because a redelivered message is skipped (`LosingTheWorkerOrphans`,
  `LostPropagationStaysLost`). That is the only way to lose one (`HandedOverExactlyWhen`), and text
  tasks cannot (`TextTasksAreHandedOver`).
- After a revision round the original brief no longer travels with approved work: the next agent is
  told to revise (`BriefSurvivesOnlyFirstRound`; `BriefIsLost` has a run for every brief).
- A redelivered Stripe credit leaves the ledger alone if and only if its amount is positive and it
  has a reference (`RedeliveryIdempotentIff`).
- An invoice delivered again after the subscription ended revives the plan without crediting anything
  (`LateInvoiceRevivesThePlan`). `RedeliveryKeepsTermsIff` says when a redelivery leaves plan,
  monthly credits and customer number alone.
- A file whose name says text but whose data is not UTF-8 is stored with the undecodable parts
  replaced, so it never comes back as it was (`GarbledFileExists`); every other file does
  (`FileComesBackIff`).
- A restore fails once any output of the version was deleted (`RestoreSucceedsIff`,
  `RestoreFailsAfterDeletion`), and a snapshot fails when a task has two outputs of one new path
  (`Versions.SnapshotVersion`, `SnapshotFailsOnRepeatedPath`).
- A backfill can put an older file over a newer one (`BackfillCanGoBack`); `BackfillShowsHeadIff` says
  exactly when it ends with the newest version.
- `edit_file` promises that the snippet stands exactly once, but counts without overlaps
  (`ExactlyOnceHoldsWhen`), and in a file that is not UTF-8 it also replaces what cannot be decoded
  (`EditKeepsOtherBytesIff`).
- `redact` passes over secrets of fewer than four characters, and the mask can put together again a
  secret that begins or ends with a mask character or has the whole mask in it
  (`MaskCharactersCanLeak`); all other secrets are gone from every text (`GoneExactlyWhen`).

## Model

| member | source | states |
|---|---|---|
| EdgeOps.CreatesHandoffCycle | backend/app/edge_ops.py:25-44 | The walk always ends, and reports a cycle exactly when a path of handoffs within the project leads from the target back to the source, given one outgoing edge per agent. |
| EdgeOps.ValidateAndBuildEdge | backend/app/edge_ops.py:47-104 | Refuses with the first rule broken, in the order of the checks, and otherwise appends exactly the requested row; a refusal changes nothing. |
| EdgeOps.AddHandoffAcyclicIff | backend/app/edge_ops.py:25-44 | A new handoff keeps the handoff graph acyclic if and only if its target does not already lead to its source. |
| EdgeOps.RefusedExactlyWhenInvalid | backend/app/edge_ops.py:47-104 | A request of a known agent is accepted if and only if the table with the new row has one outgoing edge per agent, no handoff cycle and well-formed rows: the validator is neither too strict nor too lax. |
| EdgeOps.EveryHistoryValid | backend/app/edge_ops.py:47-104 | After any history of agents added, edges created or deleted and agents deleted with their edges, there is one outgoing edge per agent and no handoff cycle. |
| TaskService.Transition | backend/app/services/task_service.py:61-80 | Writes status and columns if the transition table allows it, otherwise refuses and changes nothing. |
| TaskService.Blockers | backend/app/services/task_service.py:86-147 | The list holds exactly the closed gates; it is empty if and only if all five are open. |
| TaskService.BlockersInOrder | backend/app/services/task_service.py:107-147 | Each closed gate is named once, in checking order. |
| TaskService.DispatchBlockers | backend/app/services/task_service.py:86-147 | Collects the closed gates in checking order, and leaves the tables alone. |
| TaskService.TryDispatch | backend/app/services/task_service.py:150-171 | Starts the task exactly when it is queued and no gate is closed; otherwise nothing changes. |
| TaskService.Stop | backend/app/services/task_service.py:177-199 | A finished task is left as it is; any other becomes failed and stopped, also from the waiting statuses that have no legal transition to failed. |
| TaskService.RequestContinue | backend/app/services/task_service.py:202-226 | Only a waiting task goes back to queued, with one more attempt, the text appended and the question cleared; otherwise it is refused. |
| TaskService.CreateTask | backend/app/services/task_service.py:232-272 | Adds one queued row with the engine of its agent and changes no other row. |
| TaskService.TerminalIsFinal | backend/app/services/task_service.py:40-50 | A status is terminal exactly when no transition leaves it, and then neither transition, dispatch, stop nor continue changes the row. |
| TaskService.DispatchKeepsCaps | backend/app/services/task_service.py:111-127 | Dispatching through the gates keeps one working task per agent and the concurrency cap per user. |
| TaskService.DispatchableExactlyWhen | backend/app/services/task_service.py:86-171 | While the day's cost is below its cap, a queued task may start if and only if its project runs, its goal has at most budget tasks, and both caps still hold with it working; at the cost cap nothing may start. |
| GraphEngine.Outgoing | backend/app/services/graph_engine.py:39-40 | Finds an edge that leaves the agent, and none exactly when there is none. |
| GraphEngine.Spawn | backend/app/services/graph_engine.py:52-86 | Creates one child row below the parent, unless this parent already fired this edge or the agent is gone; then nothing changes. |
| GraphEngine.OnReviewerDone | backend/app/services/graph_engine.py:96-141 | Approval hands the reviewed work on along a handoff, a refusal with rounds left sends it back to the producer, a refusal in the last round only reports. |
| GraphEngine.Propagate | backend/app/services/graph_engine.py:144-213 | Suppression, budget, review, override and edge, in that order; at most one child or one notice, and nothing else changes. |
| GraphEngine.PropagationRespectsBudget | backend/app/services/graph_engine.py:169-175 | A propagation either adds no task to the goal or leaves it with at most budget + 1 tasks. |
| GraphEngine.SpawnWithinBudgetIff | backend/app/services/graph_engine.py:169-175 | A propagation that creates a task of a goal adds exactly one, only at a count up to the budget, and leaves the goal within its budget if and only if it was below the budget before. |
| GraphEngine.GateAgreesIff | backend/app/services/graph_engine.py:169-175 | Propagation behind the documented gate (fewer tasks than the budget) does the same as the code unless an active task's goal has exactly as many tasks as its budget. |
| GraphEngine.ApprovalIsAWord | backend/app/services/graph_engine.py:36 | A result approves if and only if APPROVED is one of its words, the longest runs of word characters. |
| Chains.PropagationFollowsEdges | backend/app/services/graph_engine.py:144-213 | A propagated task has the agent and the loop state that the edge table, the parent and the verdict determine. |
| Chains.PropagationExactly | backend/app/services/graph_engine.py:96-213 | A childless task gets a child if and only if it is active, its goal within its budget and a known agent wanted next, overrides included; no edge fires twice for a task; and exactly the used-up budget or the loop refused in its last round is reported. |
| KernelRuns.SuccessorIsSpawned | backend/app/services/graph_engine.py:96-213 | The converse: unless the task was stopped, its project is paused, its goal over budget or a child is there already, the task the edge table and the verdict ask for is created, and nothing else changes. |
| KernelRuns.ChainIsRun | backend/app/services/worker_core.py:173-271 | Every chain the edge table allows below a waiting task is propagated, row by row, by a run of deliveries and worker steps, if the goal has room for it. |
| Chains.ChainBounded | backend/app/services/graph_engine.py:96-213 | When the walk from producer to producer ends, no chain is longer than one task per handoff and 2N-1 per review loop of N rounds on the way. |
| Chains.LongestChain | backend/app/services/graph_engine.py:96-213 | The edge table allows a chain of exactly that length (KernelRuns makes it a run). |
| Chains.LongWalkNeverEnds | backend/app/edge_ops.py:39-40 | A producer walk with more steps than there are edges never ends. |
| Chains.ChainsEndExactlyWhen | backend/app/services/graph_engine.py:96-213 | For any well-kept edge table, the chains it allows from fresh work of an agent have a bound if and only if its producer walk ends within as many steps as there are edges. |
| Chains.AcyclicGraphExactLength | backend/app/services/graph_engine.py:96-213 | Without a cycle of edges of any kind, the longest chain the edge table allows has exactly the length computed from the edges. |
| Chains.MixedCycleIsAccepted | backend/app/edge_ops.py:39-40 | The validator accepts a handoff one way together with a review loop back. |
| Chains.MixedCycleIsEndless | backend/app/services/graph_engine.py:113-123 | On that pair the edge table allows chains of every length. |
| CreditService.Post | backend/app/services/credit_service.py:77-122 | One posting: skipped as a duplicate, refused by its guard, refused by the unique reference, or one ledger line with the new cached balance. |
| CreditService.GrantSignup | backend/app/services/credit_service.py:125-131 | Grants once; a second grant changes nothing. |
| CreditService.ChargeTask | backend/app/services/credit_service.py:134-144 | Charges the price of the tier, guarded by the balance while the spending cap is on. |
| CreditService.RefundTask | backend/app/services/credit_service.py:147-155 | Pays credits back to an existing account and never creates one. |
| CreditService.ApplySubscriptionRefill | backend/app/services/credit_service.py:163-174 | Sets the plan and credits the allowance once per reference. |
| CreditService.HandleEvent | backend/app/services/stripe_service.py:105-149 | Each event type has its one effect on accounts and ledger; an event that fails commits nothing. |
| CreditService.BooksAlwaysSound | backend/app/services/credit_service.py:77-174 | After any operations every balance is the sum of the deltas of its user, every line carries the prefix sum, there is at most one signup grant per user and one credit per reference. |
| CreditService.NeverInDebtUnderCap | backend/app/services/credit_service.py:134-144 | No account whose cap is on is ever below zero, while amounts paid in are not negative. |
| CreditService.ChargeExactly | backend/app/services/credit_service.py:77-155 | A charge is refused if and only if it would take a capped account below zero; otherwise it takes its price once, from that account only. |
| CreditService.SignupExactly | backend/app/services/credit_service.py:123-131 | The first grant credits the account once, every later one nothing. |
| CreditService.WelcomeCreditsPayFor | backend/app/services/credit_service.py:26-30 | A new account pays for fifty light, sixteen medium or one strong run from its welcome credits, and for no more. |
| CreditService.RedeliveryIdempotentIff | backend/app/services/credit_service.py:95-96 | A second delivery of an event that credits leaves the ledger as it was if and only if the amount is positive and the event has a reference. |
| CreditService.StripeCreditsExact | backend/app/services/stripe_service.py:105-149 | However credit events are duplicated, reordered and mixed with charges and refunds, a user has been credited the sum over the distinct references delivered. |
| CreditService.OrderAndCopiesDoNotMatter | backend/app/services/credit_service.py:63-74 | Two histories that delivered the same references credit the same total. |
| CreditService.TermsFollowTheLastEvent | backend/app/services/stripe_service.py:105-149 | After any history an account has the plan, the monthly credits and the customer number of the last events to name them, in the order delivered. |
| CreditService.RedeliveryKeepsTermsIff | backend/app/services/credit_service.py:171-174 | An event delivered later leaves those alone if and only if it raises or they already are what it says. |
| CreditService.LateInvoiceRevivesThePlan | backend/app/services/credit_service.py:171-174 | An invoice delivered again after the subscription ended brings back the plan, and no credits. |
| WorkerCore.MeterTask | backend/app/services/worker_core.py:215-226 | Charges after dispatch; out of credits blocks the task, and if it is no longer working the transaction is undone. |
| WorkerCore.RecordOutcome | backend/app/services/worker_core.py:243-269 | A system failure refunds and fails, a quality failure only fails, a question waits for input, a result is done; an illegal transition undoes everything including the refund. |
| WorkerCore.ProcessTask | backend/app/services/worker_core.py:173-271 | The whole pipeline of one delivery: status guard, gates, charge, outcome, propagation. |
| WorkerCore.ReapedRows | backend/app/services/worker_core.py:396-422 | The reaper fails exactly the working rows it was given and no other. |
| WorkerCore.ReapStaleTasks | backend/app/services/worker_core.py:396-422 | Fails and refunds each stale row once, and leaves all other rows alone. |
| KernelSafety.StepKeepsInv | backend/app/services/worker_core.py:173-451 | Every step of the kernel, broker events included, keeps the conjunction of all invariants. |
| KernelSafety.ReachableInv | backend/app/services/worker_core.py:173-451 | So every state of every run has them. |
| KernelTheorems.WorkerSafety | backend/app/services/worker_core.py:196-226 | In every run: past dispatch a task is held by one run at most, charges ≤ entries into working ≤ attempt + 1, and at most one refund, only of a failed task. |
| KernelTheorems.EntriesCountEntering | backend/app/services/worker_core.py:203-206 | The entry counters used above count exactly the changes of a status to working. |
| KernelTheorems.FinishedRowsAreFinal | backend/app/services/task_service.py:40-50 | A row that is done or failed is never written again, so the result of a done task is final. |
| KernelTheorems.CapsHold | backend/app/services/task_service.py:111-127 | At most one working task per agent and the concurrency cap per user across projects, in every run. |
| KernelTheorems.PausedProjectRests | backend/app/services/graph_engine.py:165-167 | In every step of a run, nothing starts working in a paused project and nothing is handed on in it; only tasks ordered from outside are added. |
| KernelTheorems.GoalBudgetBoundsWork | backend/app/services/task_service.py:139-145 | At most as many tasks of a goal as its budget ever enter working, whatever created them. |
| KernelTheorems.PropagationStaysInBudget | backend/app/services/graph_engine.py:169-175 | Without tasks created for the goal from outside, whatever the edges, the goal does not outgrow budget + 1 tasks. |
| KernelTheorems.RunsOnceWithoutContinue | backend/app/services/worker_core.py:196-206 | Without continues every task enters working at most once, so all tasks of a goal together enter working at most as often as the goal's budget. |
| KernelTheorems.LedgerExplainsBalances | backend/app/services/credit_service.py:77-174 | In every run of the kernel the ledger explains all balances, and no capped account is in debt. |
| KernelChains.ApprovedWorkIsDelivered | backend/app/services/graph_engine.py:109-122 | In every run a task has one child at most, only once it is done, and what an approval hands down is what the reviewer was given: the result of the finished task under review. |
| KernelChains.RefusedWorkComesBackWithFeedback | backend/app/services/graph_engine.py:124-135 | In every run, what a refusal sends back has the finished work under review in it and, behind it, the reviewer's words, both whole. |
| KernelChains.RevisionsReturnToTheirProducer | backend/app/services/graph_engine.py:124-135 | With stable edges a revision goes to the agent whose work was refused. |
| KernelChains.ReviewRounds | backend/app/services/graph_engine.py:125-213 | With stable edges a round is the number of reviews of that loop since the last plain task, reviews run 1..N and revisions 1..N-1 on the right agents, and a refusal in round N has no child. |
| KernelChains.BriefSurvivesOnlyFirstRound | backend/app/services/graph_engine.py:117-135 | The task below an approval carries the original brief if and only if it was approved in the first round (or the brief was the request to revise itself). |
| KernelChains.DescendantsBounded | backend/app/services/graph_engine.py:96-213 | All tasks ever propagated below a fresh task, in any run with stable edges, are at most the exact chain length of its agent, plus one for an override. |
| KernelTightness.LongestLineIsReached | backend/app/services/graph_engine.py:96-213 | In some run the descendants of fresh work number exactly the longest chain of its agent, which DescendantsBounded shows to be the most. |
| KernelTightness.LinesEndExactlyWhen | backend/app/services/graph_engine.py:165-175 | With stable edges, the descendants of fresh work of an agent are bounded in number over all runs if and only if the producer walk ends within as many steps as there are edges. |
| KernelTightness.AcyclicLinesExact | backend/app/services/graph_engine.py:96-213 | With no cycle of edges of any kind, the advertised number of descendants is reached by a run and exceeded by none. |
| KernelTightness.MixedCycleRunsOn | backend/app/services/graph_engine.py:113-123 | From the empty state, over the two accepted edges, one order leads to more than n descendants of one task, for every n. |
| KernelTightness.GoalOvershootsByOne | backend/app/services/task_service.py:139-145 | For every budget a run with one order of the goal ends with exactly budget + 1 tasks of it, so the documented limit fails and PropagationStaysInBudget is exact. |
| KernelTightness.BriefIsLost | backend/app/services/graph_engine.py:117-135 | For every brief but the request to revise itself there is a run in which work is approved in round two and the next agent is not told the brief. |
| KernelRefunds.RefundsAreCoveredExactlyWhen | backend/app/services/worker_core.py:203-226 | In total per task, refunds never outnumber charges at any point of a run if and only if the reaper never meets a working task with an account that was never charged. |
| KernelEntryRefunds.RefundsArePaidExactlyWhen | backend/app/services/worker_core.py:203-226 | Every refund gives back a charge made since the task entered working last, if and only if the reaper never meets a working task with an account and no charge since that entry. |
| KernelEntryRefunds.ExecutingIsPaid | backend/app/services/worker_core.py:207-219 | While billing is on, no engine runs on a task that was not charged since it entered working last. |
| KernelEntryRefunds.LostEntryIsRefunded | backend/app/services/worker_core.py:410-418 | In any run, a worker lost between dispatch and charge of a task of a known account leads to an unpaid refund, whatever was charged before. |
| KernelEntryRefunds.TotalsHideUnpaidRefund | backend/app/services/worker_core.py:410-418 | A run in which refunds never outnumber charges in total, although a refund was for an attempt that was never charged. |
| KernelOutcomes.RefundsAreExactlyOwed | backend/app/services/worker_core.py:246-252 | In every run a task has as many refund lines as it was owed refunds: one for each system failure recorded while it worked and each reaping at work, with an account, and none for any other outcome. |
| KernelOutcomes.OnlyOurFailuresAreFree | backend/app/services/worker_core.py:211-252 | An undisturbed charged run takes the price of the tier from the task's user alone, unless it ends in a system failure; then every balance is where it was before the charge. |
| KernelHistory.RowsTellTheirStory | backend/app/services/worker_core.py:243-271 | In every run a task's continuations are the user's answers in order, one per further attempt, its result is the last output, its open question the last one unanswered, and its status is explained by the last outcome, a stop or the reaper. |
| KernelHistory.TasksComeFromOrders | backend/app/services/task_service.py:232-272 | In every run each order becomes one task with what was ordered, and every other task has the user, the project and the goal of the one it was propagated from. |
| KernelHistory.TasksFitTheirAgents | backend/app/services/task_service.py:251-272 | In every run a task runs on the engine of its agent, and an ordered one in its agent's project. |
| KernelHistory.StatusChangesAreLegal | backend/app/services/task_service.py:40-80 | In every run a step changes a status as the transition table allows, except that a stop fails a waiting task. |
| KernelRefunds.ReapedBeforeCharge | backend/app/services/worker_core.py:410-418 | Any task of a known account that loses its worker right after dispatch is paid back what was not charged. |
| KernelRefunds.RefundWithoutCharge | backend/app/services/worker_core.py:203-219 | Such a run exists from the empty state. |
| KernelRefunds.TaskCostsItsUnrefundedCharges | backend/app/services/credit_service.py:134-155 | While no tier is edited, the ledger lines of a task add up to the price of its tier for every charge not refunded. |
| KernelRecovery.LostMessageIsRecovered | backend/app/services/worker_core.py:428-451 | A queued task whose messages were lost starts after a sweep if and only if the gates are open; otherwise the state is as before. |
| KernelRecovery.DuplicateIsHarmless | backend/app/services/worker_core.py:196-200 | A message for a task that is not queued changes nothing but the queue. |
| KernelRecovery.LostPropagationStaysLost | backend/app/services/worker_core.py:380-392 | A done task whose propagating run is gone has no child in any continuation. |
| KernelRecovery.LosingTheWorkerOrphans | backend/app/services/worker_core.py:380-387 | Losing the worker between done and propagation of any coding task leads there. |
| KernelHandover.HandedOverExactlyWhen | backend/app/services/worker_core.py:380-392 | In every run, each done task was propagated or a run still holds it for that, if and only if no worker was lost and none raised between done and propagation. |
| KernelHandover.TextTasksAreHandedOver | backend/app/services/worker_core.py:228-271 | Text tasks finish and propagate in one transaction, so every done one was propagated, whatever workers are lost. |
| KernelRecovery.UndisturbedRunIsThePipeline | backend/app/services/worker_core.py:173-271 | Run without interference, the separate transactions add up to the pipeline of one delivery. |
| Versions.CollectOutputs | backend/app/services/verification.py:96-112 | Adds one output row per file found: as text, undecodable parts replaced, if its name says so or it can be decoded under a name that says nothing, otherwise as bytes. |
| Versions.SnapshotVersion | backend/app/services/versioning.py:31-81 | Overrides the current files with the rows of the task and freezes them under the next number; fails, changing nothing, exactly when a path that is new occurs twice. |
| Versions.RestoreVersion | backend/app/services/github_service.py:353-382 | Replaces the files by the manifest and cuts a new version; an unknown version or a deleted output undoes it as a whole. |
| Versions.LatestVersionFiles | backend/app/services/deploy_service.py:157-171 | The bytes of the outputs that still exist, for the version with the highest number. |
| Versions.CurrentFiles | backend/app/services/preview.py:58-73 | One row of bytes per current file. |
| Versions.PushVersionSync | backend/app/services/github_service.py:276-309 | Pushes a version once, lays its surviving files over the repository, and skips it when none survives. |
| Versions.Backfill | backend/app/services/github_service.py:312-324 | Pushes the unpushed versions in order and counts them. |
| Utf8.DecodingInvertsEncoding | backend/app/services/filestore.py:57-62 | Strict decoding is the exact inverse of encoding: each text has one encoding and nothing else decodes. |
| Utf8.MendingIsHarmlessIff | backend/app/services/verification.py:102 | Decoding with replacement and encoding again gives the bytes back if and only if they could be decoded. |
| Utf8.MendingKeepsWhatDecodes | backend/app/services/verification.py:102 | Only undecodable parts are replaced: encoded texts before and behind them come out as they are. |
| VersionContents.FileComesBackIff | backend/app/services/filestore.py:57-62 | A stored file is read as it was found if and only if its data can be decoded or its name does not say text. |
| VersionContents.GarbledFileExists | backend/app/services/verification.py:45-55 | A file exists that never comes back. |
| VersionContents.ExtensionIsBehindTheLastDot | backend/app/services/verification.py:46-47 | The extension is what stands behind the last dot, with it and in lower case; without a dot there is none. |
| VersionContents.OutputsThatSurvive | backend/app/services/verification.py:96-112 | After any history exactly those outputs exist whose file was found and whose task was not deleted since. |
| VersionContents.StoreServesWhatWasFound | backend/app/services/deploy_service.py:157-171 | Replay with contents: after any history the current files and every version are what the history says, what is read at a path is byte for byte the file found there by the collection behind the entry, and what is in the repository was found at its path. |
| VersionContents.SnapshotServesItsFiles | backend/app/services/versioning.py:43-71 | The snapshot of a task with distinct paths serves all its files with their contents. |
| VersionTheorems.DeployServesWhatPreviewShows | backend/app/services/deploy_service.py:157-171 | After any history, deletions included, the current files are the latest manifest restricted to existing outputs, and both reads serve the same bytes under the same paths. |
| VersionTheorems.ManifestsAreFrozen | backend/app/services/versioning.py:54-71 | No later step changes the number or the manifest of a version. |
| VersionTheorems.VersionsReplayTheHistory | backend/app/services/versioning.py:43-81 | Every stored version is what a replay of the history of writes, restores and losses gives, and versions are numbered 1..n. |
| VersionTheorems.VersionsNameTheirTask | backend/app/services/versioning.py:66-69 | After any history a version names the task it was cut for, a restored one that of its model, unless the task was deleted. |
| VersionTheorems.SnapshotIgnoresRowOrder | backend/app/services/versioning.py:43-52 | With distinct paths the order of the rows does not matter, and every row of the task is in the new version. |
| VersionTheorems.LastRowOfAPathCounts | backend/app/services/versioning.py:43-52 | Where several rows of a task have one path, the last one listed counts. |
| VersionTheorems.SnapshotFailsOnRepeatedPath | backend/app/services/versioning.py:43-52 | After collecting two outputs of one new path, the snapshot of the task fails and changes nothing. |
| VersionTheorems.RestoreSucceedsIff | backend/app/services/github_service.py:353-382 | A restore succeeds if and only if the version exists and all its outputs do; otherwise nothing changes. |
| VersionTheorems.RestoreFailsAfterDeletion | backend/app/services/github_service.py:353-382 | After a history of collect, snapshot and deletion of the task's outputs, restoring the version fails and changes nothing. |
| VersionTheorems.RestoreIsUndone | backend/app/services/github_service.py:366-381 | Restoring version k and then the former head ends with the files one had; the second restore works if and only if the former head has lost no output. |
| VersionTheorems.BackfillIsIdempotent | backend/app/services/github_service.py:312-324 | A second backfill pushes nothing; a version stays unpushed exactly when no file of it is left. |
| VersionTheorems.BackfillShowsHeadIff | backend/app/services/github_service.py:312-324 | A backfill ends with the newest version shown if and only if, for each surviving file of it, the last unpushed version with that path has the same bytes, or there is none and the repository has them already. |
| VersionTheorems.BackfillShowsPendingHead | backend/app/services/github_service.py:276-324 | So it does whenever the newest version was itself unpushed, and no path is ever lost. |
| VersionTheorems.BackfillCanGoBack | backend/app/services/github_service.py:312-324 | A store reached from the empty one (the first version failed to push, the second did not) shows the newest version until a backfill puts the older file on top. |
| LlmStream.ParseToolCalls | backend/app/services/orchestrator.py:580-600 | Keeps the readable calls of a truncated response, fails if there is none, and fails on any unreadable call otherwise. |
| LlmStream.ParsingLosesNothing | backend/app/services/orchestrator.py:580-600 | Fewer calls than received come only from a truncated response, and no calls only from none. |
| LlmStream.OnlyTheCutCallIsDropped | backend/app/services/orchestrator.py:580-600 | Cut off in the last call, exactly the calls before it remain, or a failure if there are none. |
| LlmStream.NoArgumentsIsTheEmptyObject | backend/app/services/orchestrator.py:586-590 | Missing arguments read as the empty object, and every call kept has its own id, name and arguments. |
| LlmStream.Complete | backend/app/services/orchestrator.py:655-673 | The response received whole: calls if there are any, otherwise the text. |
| LlmStream.ResponsesKeepTextOrCalls | backend/app/services/orchestrator.py:655-673 | A response yields its calls alone if it has any, its whole text if it has none, its token counts always, and fails exactly when no call survives truncation or any is unreadable without it. |
| LlmStream.CollectStream | backend/app/services/orchestrator.py:683-727 | The response put together from chunks: fragments gathered by index, parsed once at the end. |
| LlmStream.StreamEqualsWhole | backend/app/services/orchestrator.py:655-727 | If the chunks spell the response index by index, the stream gives the same result, failures and token counts included. |
| LlmStream.AnyCuttingIsCollected | backend/app/services/orchestrator.py:683-727 | After any number of cuts, splitting chunks (text, fragments, finish reason and usage each on either side), splitting arguments anywhere and interleaving calls, the collected response is the one received whole. |
| ChatHistory.InOrderIsOrdered | backend/app/services/orchestrator.py:359-369 | The rows sent are the rows read, by rising time, with the row of the user first at equal times. |
| ChatHistory.InOrderIsStable | backend/app/services/orchestrator.py:359-369 | Rows of one time keep their order among the user's and among the others. |
| ChatHistory.MergeConsecutive | backend/app/services/orchestrator.py:389-401 | The merged list alternates roles. |
| ChatHistory.MergingKeepsEveryText | backend/app/services/orchestrator.py:389-401 | Each merged message joins the texts of one maximal run of a role, and the runs in order are the original list. |
| ChatHistory.MergingIsIdempotent | backend/app/services/orchestrator.py:389-401 | Merging twice is merging once; a list is unchanged if and only if it alternates already. |
| ChatHistory.LoadHistory | backend/app/services/orchestrator.py:349-386 | The stored rows as alternating messages, and nothing for a limit of zero or less. |
| ChatHistory.FirstMessages | backend/app/services/orchestrator.py:476-493 | Drops leading assistant messages and merges at the boundary to the new message. |
| ChatHistory.ConversationIsWellFormed | backend/app/services/orchestrator.py:478-493 | Whatever is stored, the messages alternate, begin and end with the user, and end with the new message. |
| ChatHistory.SentIsOneMerge | backend/app/services/orchestrator.py:478-493 | The two merges and the dropping amount to one merge of the rows from the first user row on with the new message. |
| ChatHistory.EveryRowIsHeard | backend/app/services/orchestrator.py:371-386 | From the first row on that is not the orchestrator's, what users and events said stands whole in a message of the user, and the orchestrator's marker in one of the assistant. |
| DevRunner.CompactMessages | backend/app/services/dev_runner.py:263-312 | Replaces the middle by one summary, or changes nothing when there is too little to cut, the summary is blank or the call fails. |
| DevRunner.CompactionIsSafe | backend/app/services/dev_runner.py:263-312 | When it acts, the first two messages and everything from the last message on that is no tool result and has eight behind or at it stay word for word, one user message that ends with the summary stands between, at least three messages go, and no call is parted from its results. |
| DevRunner.CompactableWhen | backend/app/services/dev_runner.py:271-278 | It acts on lists of more than fourteen messages with at least four before that tail. |
| DevRunner.RunDevTask | backend/app/services/dev_runner.py:315-456 | For every client the run ends after at most 500 model turns and 2000 calls, every list sent is well formed and starts with the task, each way of ending has its one cause (a call without a result when a tool raised), and the tokens reported are the sums over all answers received, blank summaries excepted. |
| DevRunner.Turn | backend/app/services/dev_runner.py:370-446 | One step of the loop: compaction if due, stop, clock, client with retries, tools; it keeps the list well formed, ends the run only for the cause it names, and keeps the token counts exact. |
| DevRunner.RunTools | backend/app/services/dev_runner.py:419-446 | One assistant message followed by exactly the results of its calls, in order. |
| TextKernels.Redact | backend/app/services/deploy_service.py:64-69 | No secret of four characters or more is left in the text, unless it ends or begins with a mask character or contains the mask. |
| TextKernels.SecretsAreGone | backend/app/services/deploy_service.py:64-69 | The same for any number, order and overlap of secrets: a later replacement never brings an earlier secret back. |
| TextKernels.RedactLeavesTheRest | backend/app/services/deploy_service.py:64-69 | A text in which no secret of four characters or more stands is left as it is. |
| TextKernels.GoneExactlyWhen | backend/app/services/deploy_service.py:64-69 | A secret is gone from every text if and only if it has four characters or more, neither begins nor ends with a mask character, and does not contain the mask. |
| TextKernels.MaskCharactersCanLeak | backend/app/services/deploy_service.py:66-68 | A secret that ends with a mask character can be put together again by the mask; one with a single mask character inside cannot. |
| TextKernels.ReplacementCutsAndGlues | backend/app/services/dev_runner.py:237-239 | Replacing everywhere cuts the text at the counted occurrences and glues the pieces with the new text. |
| TextKernels.Sandbox.EditFile | backend/app/services/dev_runner.py:220-239 | Edits one file or reports why not; an error changes nothing. |
| TextKernels.ExactlyOnceHoldsWhen | backend/app/services/dev_runner.py:65-66 | The promise that the snippet stands exactly once holds for every file if and only if the snippet has no border, that is, cannot overlap itself. |
| TextKernels.EditChangesOnePlace | backend/app/services/dev_runner.py:230-239 | A single edit replaces the leftmost occurrence and nothing else. |
| TextKernels.EditKeepsOtherBytesIff | backend/app/services/dev_runner.py:220-239 | A single edit writes the bytes before the snippet, of the new text and behind it; all bytes outside the snippet are as they were if and only if the file could be decoded. |
| TextKernels.EditAllReplacesEveryPlace | backend/app/services/dev_runner.py:230-239 | An edit of all places cuts the file at every counted occurrence, joins the pieces with the new text and reports their number; it fails exactly when there is nothing to replace. |
| TextKernels.EditErrorsTellWhy | backend/app/services/dev_runner.py:226-236 | Each refusal is given exactly when its reason holds, with the number of places. |
| TextKernels.ContextBlock | backend/app/services/prompt.py:31-52 | The chunks put together are exactly the first 4·budget characters of all stripped texts, oldest first; none is empty, each but the last is a whole text, and each stands in the block under the name of its own file. |
| Strings.StrippedIsTheMiddle | backend/app/services/prompt.py:43 | Stripping takes all space from both ends and nothing else. |

## Left out

- Real I/O (Postgres, Redis, Celery, E2B, Vercel, GitHub, Stripe, Slack, web push) appears as nondeterministic steps or inputs only.
- The object-relational session: a row read earlier may be stale during a long text call; every step here reads the current rows.
- `try_dispatch` is one atomic step, although the code locks only the row of the task itself; the caps are proved under that atomicity.
- The daily cost is a sum of floats, so whether it has reached its cap is an input of a dispatch.
- Agent memory, usage events and all notifications except the two of propagation; a failing memory append would roll back the open transaction.
- The word APPROVED is matched between ASCII word boundaries; other letters next to it count as boundaries here.
- An override route without a target agent, which stops propagation in the code.
- Deleting agents, teams and accounts in the kernel; `EdgeOps` and `Versions` have their deletions.
- The sweep's limit of 200 tasks and its three minutes of patience; a sweep may name any tasks, and only queued ones are enqueued.
- The single-commit ending of coding tasks that produced no file is the two-commit ending without an interruption.
- Events whose amount is not a number, and users or accounts named by anything but a number.
- LlmStream.Complete: reading arguments as JSON is an arbitrary partial function, and a missing call id counts as an empty one.
- The tool loop of the chat after its first call, and the wording of markers, labels and prompts.
- `_clip`, the step labels and plan clean-up of the coding loop, which would only add easy members; tool results are arbitrary texts.
- Totals of cached tokens and money figures of the coding loop; prompt and answer tokens are counted.
- Which sandbox entries a collection passes over (unsafe, hidden, ignored or old ones); a collection is the list of the files that remain. Extensions are put in lower case by ASCII rules, and a text column takes every character here.
- Version labels, the timing of pushes and the checks for a linked repository; pushes are modelled for a linked one.
- The frontend, the routers, migrations, seed scripts and the preview's lifecycle.
