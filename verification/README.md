# locus-pi runtime models

Dafny models of the stateful core of locus-pi, and proofs of what that core promises. The
source is TypeScript; each module below models one file, or one part of a file.

| modules | source | what is modelled |
|---|---|---|
| ExecutionBudget, ExecutionScheduler | execution-budget.ts, execution-scheduler.ts | the launch ledger and the FIFO permit queue, as classes that update their fields and as values the theorems speak about |
| ExecutionState, ExecutionStructure, ExecutionAdmission, ExecutionSafety, ExecutionRuns, ExecutionTheorems, ExecutionProgress, ExecutionOutcomes | execution-state.ts | the structured-concurrency protocol as a transition system over a growing tree of invocations and scopes |
| LiveRows, LiveRowForest, LiveRowOrder, LiveRowSiblings, LiveRowWalk | agent-live-panel.ts | tree order of live agent rows: small headings dropped, children re-parented, preorder, members by rank |
| FleetProjection, FleetTotals, FleetCompaction, FleetIdempotence, FleetReading | fleet-menu.ts, agent-live-panel.ts | the focused projection: fold anchors, total headings, order, partition by run |
| AgentLiveStore | agent-live-store.ts | execution handles, registrations and re-entrant listeners |
| AgentLiveTranscript | agent-live-transcript.ts | a bounded log with an index |
| PetnameRegistry | agent-names.ts | unique names with adoption |
| EditorSlot, EditorSlotOutcomes | operator-interaction.ts | one editor slot that newer requests take over |
| ConfigLock | model-settings.ts | concurrent read-modify-write under a lock file |
| SessionLog | session-core.ts | an append-only log and its replay |
| RenderScheduler | render-scheduler.ts | leading and trailing renders |
| ImportSearch | check-extension-layers.ts | the shortest chain to a host-bound builtin |
| Semver, Doubles, Numerals, TextOrder, Sizes | check-pull-request-policy.ts | version order over doubles |

## How the execution runtime is modelled

A state holds the ledger, the permit queue, every scope and every invocation ever created.
A step is what the source does between two awaits, or one call on the root; the callbacks
are unconstrained actors that may create, run, delegate, return or throw whenever the
source lets them, awaited or not, through any handle they kept. Firing a signal fires every
signal derived from it in the same step. Theorems quantify over every run from an initial
state. `Live` means queued, running or waiting for its delegation; `Below` is the tree
order; `Sealed` means joined by `withChildren` or by `close`; `Disciplined` steps add no
work, throw nothing and abort nothing.

## Where the code and its description part

- `withChildren` does not always settle with the first failure of its scope. If its launch
  is aborted before the callback has its permit back, the launch's reason replaces it, or,
  if the callback returned while its re-entry was queued, the reason of that return.
  `DelegationSettlesAsDecided` is the exact condition, read at the deciding step;
  `CancellationHidesFailure` and `ReturnHidesFailure` are runs in which a failure is lost.
- Folding workflow anchors climbs one hop only. `SpliceIsExact` gives the exact condition
  under which a row keeps its nearest kept ancestor, `CutOffHappens` a row that does not.
- A comment in operator-interaction.ts says that a newer interaction taking the slot ends
  callback ownership. It does so for the holder it replaces, not for a request that had
  released the slot by disposing itself and has reported. The microtask that gives silent
  disposals up finds that report, and a second one still reaches the host:
  `LateReportReachesHost` is such a run and `ReportReachesHost` the exact condition.
- `createSession` and `appendEntry` store first and log afterwards. An untyped caller whose
  `projectRoot` is not a string (`RefusedCreationIsLost`), metadata that is no record, or a
  write that fails (`FailedWriteIsMissed`) leaves in memory what replay does not give back.
  So does a well-typed custom entry whose `data` is `undefined`: JSON drops the key, and the
  line is no entry any more (`UndefinedDataIsLost`). `HistoryReplays` gives the exact
  condition on the operations since the last reload, whatever JSON does to values.
- The version pattern accepts numeric identifiers with leading zeroes, which section 9 of
  Semantic Versioning 2.0.0 forbids. With them "equal" is not transitive
  (`PaddedNumbersBreakTheOrder`). Numbers are compared as doubles: beyond 2^53 - 1 different
  versions merge (`LargeNumbersMerge`), a larger core can even lose
  (`LargeCoreTurnsTheOrder`), and the answer can be NaN (`HugeMajorIsNaN`). `EqualExactly`
  says when two versions compare equal or to NaN, on all inputs.

## Model

| member | source | states |
|---|---|---|
| ExecutionTheorems.SettledLaunchIsQuiet | extensions/_shared/runtime/execution-state.ts:112-190 | structured join of a launch: once `run` has settled, no descendant is queued, running or waiting, now or in any later state, and none is ever started, whatever scopes or unstarted invocations were kept |
| ExecutionTheorems.JoinedScopeIsQuiet | extensions/_shared/runtime/execution-state.ts:191-236 | structured join of a scope: the same below a scope that `withChildren` has drained, and below the root once `close` has joined it |
| ExecutionTheorems.FailedScopeStartsNothing | extensions/_shared/runtime/execution-state.ts:65-69 | failure containment: once a nested scope has recorded a failure, no callback anywhere below it starts in any continuation of the run, also when the failing launch frees its permit |
| ExecutionTheorems.StoppedScopeWaitsForNothing | extensions/_shared/runtime/execution-state.ts:179-183 | stopping a scope empties the permit queue of everything below it, launches and re-entries alike |
| ExecutionTheorems.DescendantFailureIsFatal | extensions/_shared/runtime/execution-state.ts:172-190 | if any launched job at any depth below a settled launch failed, that launch was rejected, whoever awaited or caught what |
| ExecutionTheorems.RejectedDelegationIsFatal | extensions/_shared/runtime/execution-state.ts:160-178 | a rejected `withChildren` makes its launch fail even if the callback swallows the rejection |
| ExecutionTheorems.PermitsConserved | extensions/_shared/runtime/execution-state.ts:120-190 | `inUse` and `active` are exactly the granted and the activated permits, within the cap; nobody waits beside a free permit; a running callback holds one activated permit, aborted or not, unless it is delegating, or its re-entry was refused because its launch had been aborted, and then its delegation fails or has failed |
| ExecutionTheorems.PermitHeldUntilYielded | extensions/_shared/runtime/execution-state.ts:37-40 | cancellation never frees a running slot early: over any run, whatever is aborted, fails or is done by others, a running callback keeps its activated permit until it delegates, returns or throws itself |
| ExecutionTheorems.ResumeRestoresPermit | extensions/_shared/runtime/execution-state.ts:144-152 | an answered re-entry gives a running callback an activated permit if and only if its launch has not been aborted, and otherwise none |
| ExecutionTheorems.PermitHasOneHolder | extensions/_shared/runtime/execution-state.ts:120-190 | every permit in use belongs to exactly one launch, and that launch is live |
| ExecutionTheorems.CloseReturnsEveryPermit | extensions/_shared/runtime/execution-state.ts:232-236 | after `close` has joined the root no permit is in use or active and no launch is live |
| ExecutionTheorems.ChargedOncePerStart | extensions/_shared/runtime/execution-state.ts:85-131 | the fresh count is the number of callbacks ever started; each invocation starts at most once and a replayed one never; the ledger stays within its cap |
| ExecutionTheorems.ParentsComeFirst | extensions/_shared/runtime/execution-state.ts:84-87 | sequence numbers count the invocations, and a parent's number is smaller than its child's |
| ExecutionTheorems.StepKeepsSound | extensions/_shared/runtime/execution-state.ts:43-238 | every step of the root keeps the invariant behind the theorems above |
| ExecutionProgress.NoDeadlock | extensions/_shared/runtime/execution-state.ts:135-170 | for any concurrency of at least one and any nesting, while a job is unfinished some step is enabled in which nobody adds work, throws, cancels or closes |
| ExecutionProgress.RunLengthIsBounded | extensions/_shared/runtime/execution-state.ts:112-221 | a run takes at most 57 steps per invocation created, 8 per delegation and 1 per other call on the root |
| ExecutionProgress.DisciplinedRunsEnd | extensions/_shared/runtime/execution-state.ts:112-221 | however it is scheduled, a run that adds no work ends within the work there is |
| ExecutionProgress.AllWorkCompletes | extensions/_shared/runtime/execution-state.ts:112-221 | from every reachable state all jobs can be finished by callers that wait for their own children only |
| ExecutionProgress.DrainReportsFirstFailure | extensions/_shared/runtime/execution-state.ts:204-220 | a drained scope reports the first failure it recorded, and success only if every job launched in it succeeded and nothing stopped it |
| ExecutionProgress.ReenterResult | extensions/_shared/runtime/execution-state.ts:141-146 | when its scope has drained, a running callback whose launch is not aborted waits with the drained result; otherwise the delegation settles at once, a running one with the abort's reason and a finished one with the drained result |
| ExecutionProgress.ResumeResult | extensions/_shared/runtime/execution-state.ts:145-158 | an answered re-entry keeps the drained result if and only if the launch has not been aborted; otherwise it fails with the reason its ticket was rejected with, or the launch's |
| ExecutionProgress.DelegationSettlesAsDecided | extensions/_shared/runtime/execution-state.ts:141-170 | over any run from the drain of a scope to the settling of `withChildren`, the result is exactly the verdict of one step, the request for re-entry or its answer, on the drained result and on whether the launch is aborted at that step |
| ExecutionProgress.CancellationHidesFailure | extensions/_shared/runtime/execution-state.ts:204-220 | a reachable state whose scope has failed with one error, and a run from it in which `withChildren` rejects with the reason of a later cancellation |
| ExecutionProgress.ReturnHidesFailure | extensions/_shared/runtime/execution-state.ts:152-158 | a reachable state whose drained failure is queued for re-entry, and a run from it in which the delegation rejects because its callback has already returned |
| ExecutionOutcomes.RunOutcome | extensions/_shared/runtime/execution-state.ts:112-120 | a first `run` asks for one permit under its scope's signal exactly when the scope is live and open and the deadline has not passed; otherwise the job fails at once with that reason and no permit is asked for |
| ExecutionOutcomes.StartOutcome | extensions/_shared/runtime/execution-state.ts:127-131 | a launch whose permit request is answered starts its callback, with one charge and an activated permit, if and only if the permit was granted, the scope is live, the deadline has not passed and the budget can pay; otherwise it starts nothing, charges nothing, gives a granted permit back and fails with the first of these reasons |
| ExecutionOutcomes.LateNeverStarts | extensions/_shared/runtime/execution-state.ts:118-131 | over any run: after the deadline no callback that has not run yet starts |
| ExecutionOutcomes.LateChargesNothing | extensions/_shared/runtime/execution-state.ts:118-131 | over any run: after the deadline nothing is charged |
| ExecutionOutcomes.ThrowOutcome | extensions/_shared/runtime/execution-state.ts:179-189 | a throwing callback ends its launch with its error, after its delegation if one is open; the scope records the error unless it has one; exactly what is below the launch is stopped, and for the first failure of a nested scope everything under the scope |
| ExecutionOutcomes.ReturnOutcome | extensions/_shared/runtime/execution-state.ts:172-178 | a returning callback ends its launch, with the delegation failure it swallowed if there is one, or waits for an open delegation, whose queued re-entry is refused |
| ExecutionOutcomes.SettleOutcome | extensions/_shared/runtime/execution-state.ts:161-178 | a settling delegation is remembered if it is the first rejection; it ends the launch of a callback that has returned or thrown, and a running one goes on |
| ExecutionOutcomes.ObserveOutcome | extensions/_shared/runtime/execution-state.ts:99-107 | a settled job leaves the jobs of its scope, and its failure, if the scope's first, is recorded there and stops what is under a nested scope |
| ExecutionOutcomes.DelegateOutcome | extensions/_shared/runtime/execution-state.ts:135-141 | `withChildren` gives the permit back and opens one new scope that the launch owns |
| ExecutionOutcomes.WorkOutcome | extensions/_shared/runtime/execution-state.ts:205-216 | when the child callback ends, its scope closes and joins exactly its unobserved jobs; a throw is its failure unless it has one, and stops what is under it |
| ExecutionOutcomes.CreateOutcome | extensions/_shared/runtime/execution-state.ts:78-111 | a new invocation is unused, of its scope and kind and with its reservation; nothing else changes but the sequence number and, for a replayed one, its reservation |
| ExecutionOutcomes.CloseOutcome | extensions/_shared/runtime/execution-state.ts:232-236 | `close` stops every signal that has not fired with its reason, and joins exactly the unobserved jobs of the root |
| ExecutionOutcomes.StoppedLaunchOpensNothing | extensions/_shared/runtime/execution-state.ts:135-141 | over any run: a launch that has been stopped opens no scope any more |
| ExecutionOutcomes.ShutScopeGetsNothing | extensions/_shared/runtime/execution-state.ts:70-83 | over any run: a scope that has closed or been stopped gets no further invocation |
| ExecutionOutcomes.LiveLaunchMayDelegate | extensions/_shared/runtime/execution-state.ts:135-141 | a running callback whose launch is live can delegate whenever it is not delegating: it has its permit |
| ExecutionScheduler.HistoryKeepsSchedulerValid | extensions/_shared/runtime/execution-scheduler.ts:11-69 | counters are exact, the queue is in ticket order and holds exactly the waiting tickets, no aborted waiter stays, and a permit is free only when nobody waits, after every history |
| ExecutionScheduler.NobodyOvertakes | extensions/_shared/runtime/execution-scheduler.ts:21-23 | grants follow the order of requests: no ticket still waits when a younger one has been granted |
| ExecutionScheduler.AbortKeeps | extensions/_shared/runtime/execution-scheduler.ts:55-63 | cancellation removes exactly the waiters of fired signals, keeps the others in order and moves no counter |
| ExecutionScheduler.AbortRejectsOnly | extensions/_shared/runtime/execution-scheduler.ts:55-63 | a waiting ticket is rejected, with its own signal's reason, exactly when that signal has fired |
| ExecutionScheduler.AcquireSays | extensions/_shared/runtime/execution-scheduler.ts:24-68 | a request is granted at once exactly when a permit is free and its signal has not fired, refused exactly when it has, and otherwise the last in the queue |
| ExecutionScheduler.PeakIsMostActive | extensions/_shared/runtime/execution-scheduler.ts:39-45 | the peak is the largest number of activated permits that were held at once in the history |
| ExecutionScheduler.PermitScheduler.AbortSignals | extensions/_shared/runtime/execution-scheduler.ts:55-63 | abort listeners that each remove their waiter and dispatch in between have the effect of one cancellation |
| ExecutionScheduler.PermitScheduler.DispatchWaiters | extensions/_shared/runtime/execution-scheduler.ts:21-23 | the dispatch loop admits from the head while a permit is free |
| ExecutionScheduler.PermitScheduler.AcquirePermit | extensions/_shared/runtime/execution-scheduler.ts:24-68 | an aborted signal is refused; otherwise the request joins the queue's end and the queue is dispatched |
| ExecutionScheduler.PermitScheduler.ActivatePermit | extensions/_shared/runtime/execution-scheduler.ts:39-45 | activation counts once, is refused after release and records the peak |
| ExecutionScheduler.PermitScheduler.ReleasePermit | extensions/_shared/runtime/execution-scheduler.ts:46-52 | a release counts once and hands the permit on |
| ExecutionBudget.HistoryKeepsLedgerValid | extensions/_shared/runtime/execution-budget.ts:24-84 | `reserved` is the sum over active reservations and charged plus reserved stays within the cap, after every history |
| ExecutionBudget.CappedStaysSafe | extensions/_shared/runtime/execution-budget.ts:23-41 | under a cap no number of the ledger leaves the safe integers, whatever the history |
| ExecutionBudget.UncappedIgnoresReserved | extensions/_shared/runtime/execution-budget.ts:33-87 | without a cap no operation, accepted or refused, tells one value of `reserved` from another |
| ExecutionBudget.ReservationFundsItsCharges | extensions/_shared/runtime/execution-budget.ts:37-42 | until released, a reservation's spends are all accepted if and only if there are no more than it holds, whatever others do |
| ExecutionBudget.AcceptedExactly | extensions/_shared/runtime/execution-budget.ts:44-87 | each call is accepted exactly when the cap and the reservation it names allow it, and refused with the first reason against it |
| ExecutionBudget.AccountsAfter | extensions/_shared/runtime/execution-budget.ts:44-87 | what each accepted call does to the counts, to its reservation and to the reserved number, and that it touches nothing else |
| ExecutionBudget.HistoryCounts | extensions/_shared/runtime/execution-budget.ts:69-87 | over any history the counts are the numbers of accepted calls of their kind |
| ExecutionBudget.RefusalSays | extensions/_shared/runtime/execution-budget.ts:44-87 | a refused call changes nothing |
| ExecutionBudget.BudgetLedger.ReserveAgents | extensions/_shared/runtime/execution-budget.ts:44-61 | refuses counts that are not positive safe integers or exceed what is left, changing nothing; otherwise a new active reservation |
| ExecutionBudget.BudgetLedger.ReleaseReservation | extensions/_shared/runtime/execution-budget.ts:62-68 | gives the rest of an active reservation back, once; a foreign one is refused |
| ExecutionBudget.BudgetLedger.AllocateSequence | extensions/_shared/runtime/execution-budget.ts:69-75 | the next sequence number; a replayed invocation consumes its reservation, and a refusal allocates nothing |
| ExecutionBudget.BudgetLedger.ChargeLaunch | extensions/_shared/runtime/execution-budget.ts:76-82 | one more charge, from the reservation or from the unreserved rest of the cap; a refusal changes nothing |
| ExecutionBudget.BudgetLedger.AssertDeadline | extensions/_shared/runtime/execution-budget.ts:85-90 | fails exactly when more than `runtimeMs` has passed since the start |
| ExecutionBudget.CreateExecutionBudget | extensions/_shared/runtime/execution-budget.ts:15-25 | a ledger is made exactly when each axis is absent or a positive safe integer |
| FleetIdempotence.ProjectionIsIdempotent | extensions/_shared/agent-runtime/fleet-menu.ts:359-369 | the focused projection, applied to its own result, gives the same rows with the same contents in the same order, for distinct ids and acyclic parents |
| FleetIdempotence.ProjectionLosesNothing | extensions/_shared/agent-runtime/fleet-menu.ts:365-369 | the projection hides only collapsed anchors and small group headings and repeats nothing |
| FleetIdempotence.PartitionSettles | extensions/_shared/agent-runtime/fleet-menu.ts:436-442 | partitioned rows are in tree order, and partitioning them again changes nothing |
| FleetIdempotence.CollapsesNothing | extensions/_shared/agent-runtime/agent-live-panel.ts:324-351 | after one projection no collapsible anchor has a row below it, nested anchors included |
| FleetIdempotence.TotalsNothing | extensions/_shared/agent-runtime/agent-live-panel.ts:590-632 | after one projection every heading already carries its totals |
| FleetIdempotence.HeadingTotals | extensions/_shared/agent-runtime/agent-live-panel.ts:634-670 | a heading's tokens are summed over exactly the agents below it, each once, and its members are exactly the agents below it with no agent below them |
| FleetIdempotence.HeadingSays | extensions/_shared/agent-runtime/agent-live-panel.ts:590-632 | a heading shows that sum if any agent has tokens, and counts done and failed members unless it states counts itself or has no members |
| FleetIdempotence.NewestFromIs | extensions/_shared/agent-runtime/fleet-menu.ts:444-452 | the newest run is the greatest run id in string order |
| FleetReading.ProjectionReads | extensions/_shared/agent-runtime/fleet-menu.ts:434-450 | of two roots, or of two children of one plain row, the one listed first is of the newest run or of none if either is; among equals the tree order decides |
| FleetReading.ShownExactly | extensions/_shared/agent-runtime/fleet-menu.ts:359-369 | the projection shows exactly the rows that are no collapsed anchor and no small heading |
| FleetReading.ShownSays | extensions/_shared/agent-runtime/fleet-menu.ts:359-369 | a shown row is the row it was but for its parent and, on a heading, the totals; its parent changes only if that was hidden |
| FleetReading.HeadingShowsTotals | extensions/_shared/agent-runtime/agent-live-panel.ts:590-632 | a heading of the projection shows the token sum of the agents listed below it, each counted once, wherever one of them has tokens |
| FleetReading.HeadingShowsCounts | extensions/_shared/agent-runtime/agent-live-panel.ts:590-632 | a heading shows how many of its leaf agents are done and how many have failed, unless it states counts itself or has no members; its tokens are its own exactly if no agent below has any |
| FleetTotals.FoldIgnoresOrder | extensions/_shared/agent-runtime/agent-live-panel.ts:646-670 | token sums do not depend on row order or on headings in between |
| FleetTotals.FoldIsSum | extensions/_shared/agent-runtime/agent-live-panel.ts:646-670 | input and output tokens are summed each on its own, and absent exactly if no row has any |
| FleetCompaction.SpliceIsExact | extensions/_shared/agent-runtime/agent-live-panel.ts:343-350 | a kept row hangs from its nearest kept ancestor if and only if it is not below two collapsed anchors in a row with a kept ancestor beyond them |
| FleetCompaction.CollapsedHasKeptRow | extensions/_shared/agent-runtime/agent-live-panel.ts:318-341 | below every collapsed anchor some row is kept, so no agent vanishes |
| FleetCompaction.CutOffHappens | extensions/_shared/agent-runtime/agent-live-panel.ts:343-350 | concrete rows for which the one-hop splice loses an ancestor |
| LiveRowOrder.OrderLosesNothing | extensions/_shared/agent-runtime/agent-live-panel.ts:160-191 | the tree order lists every row except group headings below two agents, each exactly once, for any parents, dangling and cyclic ones included |
| LiveRowOrder.OrderIsPreorder | extensions/_shared/agent-runtime/agent-live-panel.ts:178-190 | with acyclic parents the two walks with a seen set list the preorder of the kept rows |
| LiveRowOrder.ParentIsListedFirst | extensions/_shared/agent-runtime/agent-live-panel.ts:178-190 | a listed parent precedes its children |
| LiveRowOrder.SubtreeIsContiguous | extensions/_shared/agent-runtime/agent-live-panel.ts:178-190 | a row's subtree is the unbroken run of rows that starts with it |
| LiveRowOrder.OrderKeepsSiblings | extensions/_shared/agent-runtime/agent-live-panel.ts:173-176 | roots and children of plain rows keep input order, children of a heading are in rank order |
| LiveRowSiblings.SiblingsAreOrdered | extensions/_shared/agent-runtime/agent-live-panel.ts:235-283 | of two siblings, the one listed first came first in the input; only under a heading working rows precede failed ones, those queued ones, and those the done and cancelled, and the input order decides between rows of one class |
| LiveRowSiblings.ListsAllButSmallHeadings | extensions/_shared/agent-runtime/agent-live-panel.ts:160-192 | the tree order lists every row but the headings of less than two agents, with nothing changed but the parent of a row whose parent was such a heading |
| LiveRowOrder.HangsFromNearestSurvivor | extensions/_shared/agent-runtime/agent-live-panel.ts:293-316 | a row whose heading was dropped hangs from its nearest surviving ancestor |
| LiveRowOrder.HangsIfOneSurvives | extensions/_shared/agent-runtime/agent-live-panel.ts:293-316 | a row has a parent among the rows that stay if and only if one of its ancestors survived |
| LiveRowOrder.DropKeepsAncestors | extensions/_shared/agent-runtime/agent-live-panel.ts:293-316 | between rows that stay, ancestry is what it was |
| LiveRows.OrderMembersIsStableSort | extensions/_shared/agent-runtime/agent-live-panel.ts:275-283 | group members are sorted by rank and keep their order within a rank |
| LiveRows.StableSortIsUnique | extensions/_shared/agent-runtime/agent-live-panel.ts:275-283 | that determines the order, whatever sorting algorithm is used |
| LiveRowWalk.OrderAgentLiveRows | extensions/_shared/agent-runtime/agent-live-panel.ts:160-191 | the loops over parent maps, ordered list and seen set compute the tree order |
| LiveRowWalk.TreeWalk.AppendTree | extensions/_shared/agent-runtime/agent-live-panel.ts:178-183 | one recursive append: the row unless seen, then its children |
| LiveRowWalk.DropSubThresholdGroupRows | extensions/_shared/agent-runtime/agent-live-panel.ts:293-316 | headings below two agents are dropped and their children re-parented by the climbing loop |
| LiveRowWalk.WithWorkflowGroupTotals | extensions/_shared/agent-runtime/agent-live-panel.ts:590-609 | the loop over rows computes the heading totals |
| LiveRowWalk.SumDescendantTokens | extensions/_shared/agent-runtime/agent-live-panel.ts:646-670 | the recursive loop with a seen set computes the token sum |
| LiveRowWalk.GroupMemberRows | extensions/_shared/agent-runtime/agent-live-panel.ts:634-644 | the recursive loop with a seen set computes the members |
| LiveRowWalk.NewestWorkflowRunId | extensions/_shared/agent-runtime/fleet-menu.ts:444-452 | the scan computes the newest run id |
| AgentLiveStore.ExecEvolves | extensions/_shared/agent-runtime/agent-live-store.ts:155-519 | every operation, with whatever its listeners call inside it at any depth, keeps rows and current handles in step, keeps each registration with its row's current handle, and revives no handle or registration |
| AgentLiveStore.SupersededForever | extensions/_shared/agent-runtime/agent-live-store.ts:278-326 | an operation through a superseded or removed handle changes nothing, after any further operations |
| AgentLiveStore.BeginSupersedes | extensions/_shared/agent-runtime/agent-live-store.ts:455-465 | beginning a row makes its new handle the only current one and drops the old execution's registrations |
| AgentLiveStore.ParentNeverChanges | extensions/_shared/agent-runtime/agent-live-store.ts:404-408 | over any operations, with whatever their listeners do, a row that has a parent keeps it until the row is dropped or a patch names another parent: no begin moves it, whatever parent it names |
| AgentLiveStore.OthersLeaveRowAlone | extensions/_shared/agent-runtime/agent-live-store.ts:155-519 | a row, its handle, its registrations and its transcript change only through an operation that names the row or goes through its current handle; everything else, listeners at any depth included, leaves them as they are |
| AgentLiveStore.ReplacementIsNotClobbered | extensions/_shared/agent-runtime/agent-live-store.ts:278-303 | if a listener replaces the row between the two writes of `patchExecutionWithoutReadback`, the second write does not happen |
| AgentLiveStore.CleanupIsIdentitySafe | extensions/_shared/agent-runtime/agent-live-store.ts:200-227 | a cleanup of an older cancel or input registration, run at any later time, changes nothing |
| AgentLiveStore.SupersededCancelIsHarmless | extensions/_shared/agent-runtime/agent-live-store.ts:341-348 | cancelling through an authority that is no longer registered changes nothing, after any further operations |
| AgentLiveStore.PatchIsWritten | extensions/_shared/agent-runtime/agent-live-store.ts:494-513 | after a patch by id, by current handle or by event, whose listeners stay away from the row, each field is the patch's where it gives one and otherwise what it was, and handle and registrations stay |
| AgentLiveStore.PatchOfNothing | extensions/_shared/agent-runtime/agent-live-store.ts:278-326 | a patch of an unknown row, or through a handle that is not its row's current one, changes nothing and tells nobody |
| AgentLiveStore.ReadbackIsCleared | extensions/_shared/agent-runtime/agent-live-store.ts:278-303 | a terminal patch without readback also clears the thinking label, and the model label if the model is what lacks proof |
| AgentLiveStore.BeginIsWritten | extensions/_shared/agent-runtime/agent-live-store.ts:368-465 | what a begin leaves: a new row is queued with the call's fields; a fresh execution queues an old row again and prefers the call's labels, another begin keeps its status and its own labels; a parent once set stays |
| AgentLiveStore.DroppedIsGone | extensions/_shared/agent-runtime/agent-live-store.ts:167-181 | a removed or reset row is gone with its handle, registrations and transcript |
| AgentLiveStore.RemoveOfNothing | extensions/_shared/agent-runtime/agent-live-store.ts:167-181 | removing rows that are not there changes nothing and tells nobody |
| AgentLiveStore.RegistrationIsWritten | extensions/_shared/agent-runtime/agent-live-store.ts:200-227 | a registration belongs to the row's current handle under a fresh token and replaces the one before |
| AgentLiveStore.CleanupIsWritten | extensions/_shared/agent-runtime/agent-live-store.ts:200-227 | a cleanup takes down the registration it belongs to while it is still there |
| AgentLiveStore.CancelReaches | extensions/_shared/agent-runtime/agent-live-store.ts:341-348 | cancelling calls back exactly when the authority still holds a registration |
| AgentLiveStore.AgentLiveStore.Run | extensions/_shared/agent-runtime/agent-live-store.ts:155-519 | the store updated in place, listeners running inside the call, follows the value model |
| AgentLiveStore.AgentLiveStore.PatchAndClear | extensions/_shared/agent-runtime/agent-live-store.ts:278-303 | two writes with an announcement between them and a second ownership check |
| AgentLiveStore.AgentLiveStore.RemoveRows | extensions/_shared/agent-runtime/agent-live-store.ts:167-181 | removal deletes everything the rows owned and announces only if something was removed |
| AgentLiveTranscript.HistoryIsCoherent | extensions/_shared/agent-runtime/agent-live-transcript.ts:91-150 | after any history block ids are distinct, omitted plus kept is what was appended since the last replace, and what is kept fits all three bounds or is empty |
| AgentLiveTranscript.KeepsLongestSuffix | extensions/_shared/agent-runtime/agent-live-transcript.ts:269-285 | trimming keeps the longest suffix that meets all three bounds |
| AgentLiveTranscript.EventKeeps | extensions/_shared/agent-runtime/agent-live-transcript.ts:91-108 | every event keeps the transcript coherent |
| AgentLiveTranscript.EndSettlesTheCall | extensions/_shared/agent-runtime/agent-live-transcript.ts:215-229 | the end of a call leaves its one block started, complete and final with the latest result, and touches no other call |
| AgentLiveTranscript.CallKeepsProgress | extensions/_shared/agent-runtime/agent-live-transcript.ts:161-178 | a message that repeats a call refreshes its arguments and keeps its progress and result |
| AgentLiveTranscript.StartSays | extensions/_shared/agent-runtime/agent-live-transcript.ts:180-196 | a started call has the event's name and arguments, or those it had, and keeps result and progress; its one block is written in place or at the end |
| AgentLiveTranscript.UpdateSays | extensions/_shared/agent-runtime/agent-live-transcript.ts:198-213 | an update replaces arguments and result where it has them, and the call is running again |
| AgentLiveTranscript.EndSays | extensions/_shared/agent-runtime/agent-live-transcript.ts:215-229 | an ended call is started, complete and final, with the event's result or its last one |
| AgentLiveTranscript.ResultSays | extensions/_shared/agent-runtime/agent-live-transcript.ts:231-251 | a result message makes its call final, known or not |
| AgentLiveTranscript.MessageSays | extensions/_shared/agent-runtime/agent-live-transcript.ts:133-150 | a message continues the assistant block being streamed or takes the next number, and stays the streamed one unless it is complete |
| AgentLiveTranscript.CallsSay | extensions/_shared/agent-runtime/agent-live-transcript.ts:146-178 | each call of a message is written with what was known of it, after the calls before it |
| AgentLiveTranscript.OthersWriteNothing | extensions/_shared/agent-runtime/agent-live-transcript.ts:91-108 | events and messages without a call id, from others or of no known kind write nothing |
| AgentLiveTranscript.ReplacementSays | extensions/_shared/agent-runtime/agent-live-transcript.ts:110-120 | the messages at the end of the agent replace everything, each as a complete one, in turn |
| AgentLiveTranscript.EventTrims | extensions/_shared/agent-runtime/agent-live-transcript.ts:269-285 | after an event the newest blocks stay, as many as fit all three bounds; what goes is counted and nothing else is touched |
| AgentLiveTranscript.IndexFinds | extensions/_shared/agent-runtime/agent-live-transcript.ts:253-257 | lookup through the index is lookup of the one block of that call |
| AgentLiveTranscript.SetKeepsIndex | extensions/_shared/agent-runtime/agent-live-transcript.ts:259-267 | storing by index is storing by id, and the index keeps mapping each call to exactly the position of its block |
| AgentLiveTranscript.AgentLiveTranscript.Ingest | extensions/_shared/agent-runtime/agent-live-transcript.ts:91-108 | ingest in place, with the index, follows the index-free model and keeps the index exact |
| AgentLiveTranscript.AgentLiveTranscript.Trim | extensions/_shared/agent-runtime/agent-live-transcript.ts:269-285 | shifting until the rest fits, counting what went, and reindexing |
| AgentLiveTranscript.AgentLiveTranscript.ReplaceMessages | extensions/_shared/agent-runtime/agent-live-transcript.ts:110-120 | replacing starts over and appends the messages as complete |
| PetnameRegistry.RunIsValid | extensions/_shared/agent-runtime/agent-names.ts:295-346 | after every history the two maps are inverses and no name has an empty holder set |
| PetnameRegistry.SharedOnlyByAdoption | extensions/_shared/agent-runtime/agent-names.ts:313-324 | two ids share a name only where one of them adopted it and has held it since |
| PetnameRegistry.HeldUntilReleased | extensions/_shared/agent-runtime/agent-names.ts:295-346 | over any history, from the moment an id holds a name until it is released or all are, the id keeps that name and the name stays taken |
| PetnameRegistry.AssignSays | extensions/_shared/agent-runtime/agent-names.ts:299-311 | an id keeps its name; a new one gets the base name if nobody shows it, and else the base with the least number from 2 on that gives a name nobody shows |
| PetnameRegistry.AdoptSays | extensions/_shared/agent-runtime/agent-names.ts:313-324 | an id keeps its name; a new one takes the adopted one, shared or not; everybody else shows what it showed |
| PetnameRegistry.ReleaseSays | extensions/_shared/agent-runtime/agent-names.ts:326-334 | the id is forgotten, and its name is free exactly if nobody else shows it |
| PetnameRegistry.SearchIsBounded | extensions/_shared/agent-runtime/agent-names.ts:299-311 | the suffix search finds a free name within one try more than there are names held |
| PetnameRegistry.CandidatesDiffer | extensions/_shared/agent-runtime/agent-names.ts:304-307 | the tried names are pairwise different |
| PetnameRegistry.PetnameRegistry.Assign | extensions/_shared/agent-runtime/agent-names.ts:299-311 | an id keeps its name; a new one gets the first candidate nobody holds |
| PetnameRegistry.PetnameRegistry.ReleaseName | extensions/_shared/agent-runtime/agent-names.ts:326-334 | releases one holder, frees the name with the last one, and says whether the id held a name |
| EditorSlot.HolderIsNewest | extensions/_shared/operator/operator-interaction.ts:90-173 | `pending` counts the unreleased requests; the registered holder is the one unreleased request with a component, and none mounted later |
| EditorSlot.ReleasedOnce | extensions/_shared/operator/operator-interaction.ts:99-116 | each request releases exactly once, and a settled one has released |
| EditorSlot.ReplacedNeverSpeaks | extensions/_shared/operator/operator-interaction.ts:155-173 | a request replaced by a newer mount never reaches the host's `done` again |
| EditorSlot.ReportReachesHost | extensions/_shared/operator/operator-interaction.ts:317-357 | over any run, a report reaches the host exactly when no earlier mount or failed factory took the slot from its request and no earlier microtask found its component disposed without a report; while another holds the slot, only requests that had released it themselves can; and past a holder that entered after a disposal, only one that had reported before |
| EditorSlot.LateReportReachesHost | extensions/_shared/operator/operator-interaction.ts:103-106 | a concrete run, microtasks in order, in which a request disposes its component, reports, and after a newer request has mounted reports again and reaches the host |
| EditorSlot.AloneNeverWaits | extensions/_shared/operator/operator-interaction.ts:139-143 | a request that enters an empty queue finds the slot free |
| EditorSlotOutcomes.EnterSays | extensions/_shared/operator/operator-interaction.ts:85-131 | a new request waits at the end of the queue, and may overtake exactly if somebody had not released when it entered |
| EditorSlotOutcomes.AdmitSays | extensions/_shared/operator/operator-interaction.ts:144-152 | an admitted request calls the host, or settles and releases without touching the holder |
| EditorSlotOutcomes.MountSays | extensions/_shared/operator/operator-interaction.ts:155-173 | a mounted component has the slot and its voice; the holder before has released and lost its voice, and no other request is touched |
| EditorSlotOutcomes.FactoryFailsSays | extensions/_shared/operator/operator-interaction.ts:327-336 | a failing factory takes nothing from the holder until its request learns of it |
| EditorSlotOutcomes.LearnFailureSays | extensions/_shared/operator/operator-interaction.ts:189-200 | a request whose factory failed settles, and the holder is retired with no successor |
| EditorSlotOutcomes.ReportSays | extensions/_shared/operator/operator-interaction.ts:317-326 | a report of an owner reaches the host once more; that of anybody else disposes its component |
| EditorSlotOutcomes.DisposeSays | extensions/_shared/operator/operator-interaction.ts:337-357 | a disposal releases the slot, once, keeps the voice and queues its microtask |
| EditorSlotOutcomes.AbandonSays | extensions/_shared/operator/operator-interaction.ts:337-357 | the microtask takes the voice exactly of a request that has reported nothing |
| EditorSlotOutcomes.SettleSays | extensions/_shared/operator/operator-interaction.ts:198-200 | a settled request has released the slot and nobody else is touched |
| EditorSlotOutcomes.NobodyIsStuck | extensions/_shared/operator/operator-interaction.ts:139-143 | in every reachable state with an unsettled request, a microtask is due or a request no later than it can be admitted, mount, learn of its failure, report for the first time or settle |
| EditorSlotOutcomes.WaitsForItsTurn | extensions/_shared/operator/operator-interaction.ts:139-143 | a request overtakes an unreleased one only if it is ready to mount and entered contended |
| EditorSlotOutcomes.WhatMayHappen | extensions/_shared/operator/operator-interaction.ts:144-200 | what may happen to a request in hand, stage by stage; a disposed one with nothing due and no report has lost its voice |
| EditorSlot.InteractionQueue.FactoryFulfilled | extensions/_shared/operator/operator-interaction.ts:155-173 | a component in hand takes the slot and retires the incumbent |
| EditorSlot.InteractionQueue.ReleaseSlot | extensions/_shared/operator/operator-interaction.ts:100-116 | releasing counts once and empties the slot if the request holds it |
| EditorSlot.InteractionQueue.FencedDone | extensions/_shared/operator/operator-interaction.ts:317-326 | a fenced report is passed on by the owner and disposes anybody else's component |
| ConfigLock.OneInside | extensions/_shared/model/model-settings.ts:498-548 | at most one call is between creating the lock and letting it go |
| ConfigLock.NoLostUpdates | extensions/_shared/model/model-settings.ts:413-431 | at every moment the file is the initial one with the completed changes applied once each in lock order; successful calls are among them and failed ones are not |
| ConfigLock.LastChangeWins | extensions/_shared/model/model-settings.ts:418-426 | role by role the stored value is the one of the last change of that role, other roles and keys keep theirs |
| ConfigLock.ReadersSeeWholeConfigs | extensions/_shared/model/model-settings.ts:481-491 | the file changes only by whole renames, each storing one change on top of what was stored |
| ConfigLock.AbandonedLockFailsClosed | extensions/_shared/model/model-settings.ts:528-548 | a lock left by a dead call or a failed removal lets no later change through |
| ConfigLock.FileSays | extensions/_shared/model/model-settings.ts:413-431 | over any run: a malformed file stays malformed, no change is ever stored and no call succeeds; otherwise each role has the value of its last stored change, or the one it had, the first change going onto an empty config if there was none |
| ConfigLock.LoneCallStores | extensions/_shared/model/model-settings.ts:413-431 | a call that nobody disturbs stores exactly its change on a readable config and succeeds with the lock gone; on a malformed one it fails, the file as it was and the lock gone |
| ConfigLock.OtherEnds | extensions/_shared/model/model-settings.ts:498-548 | what giving up, a lock that cannot be stamped, a failed operation, a failed removal and a death leave |
| ConfigLock.EveryStageMoves | extensions/_shared/model/model-settings.ts:498-548 | over any run no call is stuck between its steps, and each of its file operations may fail |
| ConfigLock.StepKeepsInv | extensions/_shared/model/model-settings.ts:413-548 | every step of every call keeps the invariant |
| SessionLog.HistoryReplays | extensions/_shared/runtime/session-core.ts:297-334 | over any history, with failing writes, untyped input and arbitrary effects of JSON on values, the file gives sessions and entries of the store only, in strictly increasing sequence and changed at most in what JSON makes of payloads and metadata; it gives everything back, with the counter, if and only if every operation since the last reload logged what it stored in a form that JSON gives back |
| SessionLog.AppendSays | extensions/_shared/runtime/session-core.ts:223-238 | an accepted append adds one entry with everything its caller gave, its session and the next number, and its line as JSON gives it back if the write succeeds; an unknown session or an unacceptable payload changes nothing |
| SessionLog.CreateSays | extensions/_shared/runtime/session-core.ts:179-204 | a creation stores the session and a first entry that repeats its fields, and then logs both; an id in use changes nothing, and a refused entry or failed write leaves what came before it |
| SessionLog.ChildSays | extensions/_shared/runtime/session-core.ts:206-217 | a child has its parent for parent, and exactly if its creation succeeds the parent session gets one entry that names it |
| SessionLog.SessionsSay | extensions/_shared/runtime/session-core.ts:309-329 | loading gives exactly the sessions some line holds, each as its last such line tells it |
| SessionLog.DiagnosticsSay | extensions/_shared/runtime/session-core.ts:309-329 | loading reports exactly the unreadable lines, by number and in order, and loads the entries of all others in order |
| SessionLog.NoiseIsHarmless | extensions/_shared/runtime/session-core.ts:309-329 | a malformed, unsupported or blank line anywhere changes the diagnostics only |
| SessionLog.RefusedCreationIsLost | extensions/_shared/runtime/session-core.ts:179-204 | a creation whose `projectRoot` is not a string leaves the session in memory with nothing in the file |
| SessionLog.FailedWriteIsMissed | extensions/_shared/runtime/session-core.ts:303-307 | after any clean history, an entry whose write fails is in memory, and a reload gives back exactly the sessions, entries and counter before it |
| SessionLog.UndefinedDataIsLost | extensions/_shared/runtime/session-core.ts:355-358 | after any clean history, a custom entry whose `data` is `undefined` is accepted and written, and a reload gives back exactly the sessions, entries and counter before it |
| SessionLog.UndefinedDataHistory | extensions/_shared/runtime/session-core.ts:355-358 | a concrete history, whatever the rules: two entries in memory, one in the file |
| SessionLog.JsonlSessionStore.constructor | extensions/_shared/runtime/session-core.ts:291-329 | replays the file line by line |
| SessionLog.JsonlSessionStore.AppendEntry | extensions/_shared/runtime/session-core.ts:223-238 | refuses unknown sessions and unacceptable payloads, changing nothing; otherwise appends to memory and then, as JSON gives it back, to the file, and throws if that write fails |
| SessionLog.JsonlSessionStore.Create | extensions/_shared/runtime/session-core.ts:179-204 | stores the session, logs its first entry, then logs the session; a refused entry or a failed write leaves what was stored before it |
| SessionLog.JsonlSessionStore.CreateChildSession | extensions/_shared/runtime/session-core.ts:206-217 | creates the child and links it in the parent |
| RenderScheduler.RendersAreSpaced | extensions/_shared/host/render-scheduler.ts:71-115 | over any timely history renders that nobody flushed are at least the interval apart, and an armed timer is due exactly when the window closes |
| RenderScheduler.RequestIsServed | extensions/_shared/host/render-scheduler.ts:71-110 | a request that is not cancelled has been rendered within the interval plus the timer's lateness, or its timer is still armed for the interval's end |
| RenderScheduler.RequestIsRendered | extensions/_shared/host/render-scheduler.ts:71-110 | once something happens later than that, the request has been followed by a render within the interval plus the timer's lateness |
| RenderScheduler.RequestSays | extensions/_shared/host/render-scheduler.ts:71-84 | over any timely history: a request renders at once if no timer is armed and the window is over; the first in a window arms the timer for its end, and later ones change nothing |
| RenderScheduler.NoIntervalNoWait | extensions/_shared/host/render-scheduler.ts:71-75 | without an interval every request renders at once, whatever the clock says |
| RenderScheduler.FlushSays | extensions/_shared/host/render-scheduler.ts:90-93 | a flush renders at once, window or not, and leaves no timer |
| RenderScheduler.CancelSays | extensions/_shared/host/render-scheduler.ts:95-98 | after a cancellation nothing renders until somebody requests or flushes |
| RenderScheduler.FireSays | extensions/_shared/host/render-scheduler.ts:100-110 | the armed timer renders once and is gone |
| RenderScheduler.RenderScheduler.RequestRender | extensions/_shared/host/render-scheduler.ts:71-84 | renders on a leading edge, folds into an armed timer, or arms one |
| RenderScheduler.RenderScheduler.FlushRender | extensions/_shared/host/render-scheduler.ts:90-93 | disarms and renders now |
| RenderScheduler.RenderScheduler.TimerFired | extensions/_shared/host/render-scheduler.ts:100-110 | the trailing render |
| ImportSearch.FindHostBoundImport | scripts/check-extension-layers.ts:903-930 | finds a shortest chain of value imports from the entry to a forbidden builtin, and none exactly when there is none, on cyclic graphs too |
| ImportSearch.PathFromEntry | scripts/check-extension-layers.ts:932-942 | the chain of parents is a path of value imports as long as the file's distance |
| ImportSearch.ReadFile | scripts/check-extension-layers.ts:913-928 | reading one file queues its unvisited targets one step further, or stops at its first forbidden import |
| ImportSearch.NoShorterChain | scripts/check-extension-layers.ts:903-930 | no chain is shorter than one through the file being read |
| ImportSearch.ChainSays | scripts/check-extension-layers.ts:903-930 | a chain follows value imports of relative specifiers that resolve, and ends with a value import of one of the six builtins; type-only and bare imports lead nowhere |
| Semver.ComparesByPrecedence | scripts/check-pull-request-policy.ts:15-38 | wherever the numbers at the first difference are different doubles, or two spellings of one finite number, and no core number before it is infinite, the comparison is never NaN, antisymmetric, and lower exactly as section 11 of Semantic Versioning 2.0.0 says |
| Semver.SafeIsTold | scripts/check-pull-request-policy.ts:15-38 | that covers every pair of versions whose numbers are safe integers |
| Doubles.NearestIsNearest | scripts/check-pull-request-policy.ts:15-38 | numerals become the nearest double, and of two equally near ones the even one |
| Doubles.InfinityBegins | scripts/check-pull-request-policy.ts:15-38 | they become infinity exactly from half a unit below 2^1024 on |
| Numerals.ValueIsPositional | scripts/check-pull-request-policy.ts:15-38 | every digit of a numeral counts with the power of ten of its place |
| Numerals.DecimalIsShortest | extensions/_shared/agent-runtime/agent-names.ts:304-307 | a number in a name is written without leading zeroes |
| Semver.EqualExactly | scripts/check-pull-request-policy.ts:15-38 | on all versions the answer turns with its arguments; it is 0 exactly when the cores are pairwise the same double and the pre-releases are equal or first differ in numbers that are the same double; it is NaN exactly when infinity is subtracted from infinity |
| Semver.WellFormedEqual | scripts/check-pull-request-policy.ts:27-36 | with section 9's ban on leading zeroes and safe integers only equal versions compare equal |
| Semver.WellFormedTotalOrder | scripts/check-pull-request-policy.ts:15-38 | with that ban and safe integers the comparison is a total order |
| Semver.PaddedNumbersBreakTheOrder | scripts/check-pull-request-policy.ts:32-34 | three versions of safe integers the pattern accepts for which "equal" is not transitive |
| Semver.LargeNumbersMerge | scripts/check-pull-request-policy.ts:32-34 | 1.0.0-9007199254740992 is lower than 1.0.0-9007199254740993 and compares equal to it |
| Semver.LargeCoreTurnsTheOrder | scripts/check-pull-request-policy.ts:18-21 | 9007199254740992.1.0 is lower than 9007199254740993.0.0 and compares higher |
| Semver.HugeMajorIsNaN | scripts/check-pull-request-policy.ts:18-21 | a version whose major number is at least 2^1024 compares to itself as NaN |
| Semver.LowerTransitive | scripts/check-pull-request-policy.ts:15-38 | precedence is transitive on all versions |
| Semver.CompareSemver | scripts/check-pull-request-policy.ts:15-38 | the two loops with early returns compute the comparison, in doubles |

## Left out

- execution-state.ts as closures over promises: the protocol is a transition system on values; the interleavings of its steps are all there, update in place is not.
- Values returned by callbacks, and errors beyond their identity and origin.
- Abort listeners that callers add: they act as later steps, not in the middle of an abort.
- ExecutionTheorems.SettledLaunchIsQuiet: code of a callback before its first await is taken as later steps, which allows more interleavings than the source.
- ExecutionProgress.NoDeadlock: callbacks that block on something other than their own `withChildren` are outside the claim, as is a callback that never returns.
- Calls the source refuses change nothing and are not steps. The deadline is a free choice at each check of the transition system; its exact boundary is in `AssertDeadline`.
- ExecutionTheorems.FailedScopeStartsNothing: nested scopes only; the root has no stop controller in the source either.
- FleetIdempotence.ProjectionIsIdempotent: for distinct ids and acyclic parents; row lists with repeated ids or parent cycles are covered by `OrderLosesNothing` only where it says so.
- Tree geometry, widths, themes, key handling, the selection state of the fleet menu and the window of rows it shows.
- The unfocused selection of fleet rows, and the row limits of the passive panel.
- AgentLiveStore.ExecEvolves: display names, agent names, event decoding and which queued row a claim picks are not part of the store model; a row's other fields are one opaque value.
- The prompt seam's asynchronous send, and `available` callbacks.
- AgentLiveTranscript.HistoryIsCoherent: redaction and clipping of texts are not modelled; the byte and node counts are arbitrary functions of the block list.
- PetnameRegistry.PetnameRegistry.Assign: the dictionary name that an id hashes to is a parameter.
- EditorSlot.LateReportReachesHost: microtasks are ordered only between a disposal and the admission of requests that enter after it; other continuations may come in any order, which allows more runs than the source.
- EditorSlot.HolderIsNewest: one queue of one session, each factory run once and finished before the host settles the call; deleting an empty queue and making a new one is continuing with it.
- ConfigLock.NoLostUpdates: an operator who removes the lock file by hand is not a step; the temporary file is private to its call and is not part of the state. The lock protocol is modelled on values, step by step.
- SessionLog.HistoryReplays: one process at a time writes the file, and a single write is whole or leaves nothing. Of the JSON round trip it is assumed that strings and counters come back as they are and that a record stays a record; what becomes of all other values is an arbitrary function. Ids and times have their declared types.
- ExecutionBudget.HistoryKeepsLedgerValid: numbers are exact. Under a cap the host's are too (`CappedStaysSafe`); without one `reserved` may exceed 2^53 and round, which no operation shows (`UncappedIgnoresReserved`), and counters that take 2^53 calls to overflow are not modelled.
- RenderScheduler.RequestIsServed: how late a timer may fire is a parameter; the real clock and timers are events with times.
- ImportSearch.FindHostBoundImport: reading, parsing and resolving files are given as edges and a resolution function.
- Semver.ComparesByPrecedence: parsing the version text is not modelled. Numerals round correctly to the nearest double; a runtime that approximates digits after the twentieth, as ECMAScript allows, is not modelled.
- SDK sessions, child processes, git and file access, error journals, `extensions/workflows`, command parsers, manifest checks and generators.
