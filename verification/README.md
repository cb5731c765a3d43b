# FilmOS back end: scheduling, production board and agent runs

A Dafny model of the parts of the FilmOS back end that have algorithms or state machines, with proofs about all
inputs, all runs and all interleavings.

- **Planning.** Orders are grouped by production signature; for each group an anchored greedy packs a batch per machine
  and the machine with the least changeover key takes it (`Packer`, `BatchSelection`, `MachineStates`, `Planner`,
  `BuildTasks`). `PlannerProperties` and `PlanTheorems` prove what every plan guarantees, in particular that the
  separate validator (`ProductionRules`) accepts every task; `Changeovers` what the choice of a machine prefers.
- **The production board.** Orders, tasks and machine queues under one lock (`Tables`, `Queues`, `Board`; the mutable form
  is the class in `BoardClass`). `BoardFrames` and `BoardSafety` prove that each operation keeps the board's invariant,
  `BoardQueues` what each does to the queues and what undoes it, `BoardAcceptance` exactly when each is accepted,
  `BoardRuns` what holds over every run, `BoardStamps` that a row's time stamp tells whether it has changed.
- **Plans.** Fingerprints, drafting, editing and applying (`ScheduleInputs`, `SchedulePlans`, `PlanApplication`,
  `PlanDrafts`), a session's drafts over their whole life (`PlanLifecycle`), the drafts of other sessions on the same board
  (`PlanRivals`), exactly when a plan is stale, accepted and applied (`PlanAcceptance`, `PlanCommands`), and the mutable
  form (`PlanningDesk`).
- **Agent runs.** A lease-based job queue with a clock, a watchdog, fenced effects, an event log, idempotent commands, an
  automatic reading queue and the commands on schedule drafts, for both kinds of session (`AgentRecords`, `AgentSteps`,
  `AgentCommands`; the mutable form is the class in `AgentStore`, whose `Perform` is one step of a run).
  `AgentInvariant`, `AgentSafety` and `AgentCommandSafety` prove the invariant step by step, `AgentRuns` and
  `AgentEvolution` carry it and the permitted changes over runs, and `AgentTheorems`, `AgentGrants`, `AgentLeases`,
  `AgentChains`, `AgentItems` and `EventReader` state the results. `AgentDesk`, `AgentOutcomes` and `AgentRequests` say in
  terms of the rows when each operation is accepted and what it leaves.
- **Measurements.** Canonical decimal-and-unit strings (`Decimals`, `Specifications`); `Spellings` and
  `SpecificationForms` say digit by digit and label by label what they are.

Each locked transaction is one atomic step; clocks, generated identifiers and lease tokens are parameters of the step, the
identifiers being new. Code that changes rows in place is written as methods of classes or loops, each ensuring that the
new state is the one a specification function names; the lemmas are about those functions. Widths and weights are exact
reals and instants are integers.

One finding differs from what the source says of itself:

- The comment at `backend/app/services/scheduling/planner.py:173-174` says that trying every anchor keeps a feasible
  combination from being lost. The code does lose some: with widths 100, 400 and 550 on a machine for 900 to 1000, the
  pair 400 + 550 is never found (`Packer.FeasiblePairLost`). It loses none exactly on machines whose least width is at
  most half the greatest, or whose range is empty (`Packer.CompleteExactlyWhen`); on any machine it loses none among
  orders no wider than the slack between the two limits (`Packer.CompleteWithinSlack`).

One hypothesis is made about code outside the model. The bound on automatically queued readings (`AgentChains`) assumes
`AgentChains.Honest`: an executor reports success for a workbench run only once its item has been read, as the graph at
`backend/app/agent/specialized/order_graph.py:104-133` does. `AgentChains.ChainedTwiceExactlyWhen` shows when it is needed:
success reported for a screenshot that is still the first unread one, and in no other case, queues that screenshot twice.

## Model

| member | source | states |
|---|---|---|
| Packer.PackMaximal | backend/app/services/scheduling/planner.py:178-190 | a pack holds its anchor, fits under the greatest width, and every order left out would overflow it |
| Packer.BestExists | backend/app/services/scheduling/planner.py:191-200 | whenever some anchor gives a feasible pack, one of them is no worse than any other |
| Packer.BestUnique | backend/app/services/scheduling/planner.py:191-200 | greatest width first, then least index tuple, singles out one pack, whichever anchor attains it |
| Packer.BestIsWidest | backend/app/services/scheduling/planner.py:191-200 | the returned batch is at least as wide as the feasible pack of any anchor, and where it is only as wide its index tuple is that pack's or comes before it |
| Packer.PackGreedy | backend/app/services/scheduling/planner.py:178-190 | an anchor's pack, stated without the scan: orders are taken from the widest down, each exactly when it still fits |
| Packer.PackedIsPackable | backend/app/services/scheduling/planner.py:191-201 | a returned batch is a non-empty subset with total width in the machine's range |
| Packer.CompleteWithinSlack | backend/app/services/scheduling/planner.py:165-201 | when every order that fits is no wider than the slack between the limits, a batch is found exactly when some non-empty subset fits the range |
| Packer.CompleteExactlyWhen | backend/app/services/scheduling/planner.py:165-201 | no list of widths is ever failed on a machine if and only if its range is empty or its least width is at most half its greatest |
| Packer.FeasiblePairLost | backend/app/services/scheduling/planner.py:173-201 | widths 100, 400, 550 on a machine for 900 to 1000: a feasible subset exists and no anchor finds one |
| BatchSelection.AnchoredPack | backend/app/services/scheduling/planner.py:182-190 | the loop over the scan order computes the anchor's pack, and its running total is the pack's width |
| BatchSelection.InOrder | backend/app/services/scheduling/planner.py:192-194 | the batch is listed in the order of the remaining orders, with its index tuple |
| BatchSelection.SelectBatch | backend/app/services/scheduling/planner.py:165-201 | the loop over anchors returns the specified best batch, and its width |
| Planner.SelectFacts | backend/app/services/scheduling/planner.py:165-201 | a selected batch comes from the remaining orders with a positive width in range; it is empty exactly when no anchor is feasible |
| Planner.SelectIsWidest | backend/app/services/scheduling/planner.py:165-201 | no feasible anchor's pack of a machine's remaining orders is wider than the selected batch, and none as wide has an earlier index tuple |
| MachineStates.LastTask | backend/app/services/scheduling/planner.py:109-119 | no unfinished task comes after the one the signature is taken from |
| MachineStates.KeyLessTotal | backend/app/services/scheduling/planner.py:32-56 | two changeover keys of different machines are always ordered one way and not the other |
| MachineStates.KeyLessTransitive | backend/app/services/scheduling/planner.py:32-56 | comparing changeover keys is transitive |
| MachineStates.LeastKey | backend/app/services/scheduling/planner.py:264 | among keys of distinct machines exactly the returned one is below all others |
| Planner.Chosen | backend/app/services/scheduling/planner.py:231-264 | the machine given the batch has a strictly smaller key than every other candidate |
| Changeovers.ChosenKeepsMost | backend/app/services/scheduling/planner.py:32-56 | against every other candidate the chosen machine is preferred property by property: keeping material, category, thickness, pattern and width, in this order, then the smaller unused share in millionths, the smaller load, name and id |
| Changeovers.FirstTaskKeepsMost | backend/app/services/scheduling/planner.py:231-283 | the first task of a group is its whole batch on that machine |
| Changeovers.PlanRecalls | backend/app/services/scheduling/planner.py:284-291 | after planning a machine's last signature is that of the last task it got, or its initial one |
| Changeovers.NearestMillionth | backend/app/services/scheduling/planner.py:52 | the unused share is the nearest millionth, the even one of two equally near |
| Changeovers.WeightIgnoresUnit | backend/app/services/scheduling/planner.py:87-94 | one weight in tonnes, kilograms or grams weighs the same; nothing else weighs anything |
| Changeovers.CountedExactlyWhen | backend/app/services/scheduling/planner.py:97-106 | tasks are counted in place of weights exactly when an order to plan or one of an unfinished task is not sold by weight |
| Changeovers.TogetherExactlyWhen | backend/app/services/scheduling/planner.py:222-225 | two orders are planned together exactly when nothing in their signatures differs and nothing is missing there |
| BuildTasks.FindCandidate | backend/app/services/scheduling/planner.py:231-264 | the loop over machine states finds the chosen machine and its batch, or that none can serve |
| BuildTasks.PlanStep | backend/app/services/scheduling/planner.py:230-293 | one round of a group: the remaining orders strictly shrink and the outcome of the group is this task followed by the outcome of the rest |
| BuildTasks.PlanOneGroup | backend/app/services/scheduling/planner.py:228-293 | the while loop of a group yields its specified tasks, leftovers and machine states |
| BuildTasks.GroupOrders | backend/app/services/scheduling/planner.py:222-225 | keys in order of first occurrence, each with exactly its orders in order |
| BuildTasks.Build | backend/app/services/scheduling/planner.py:204-295 | the whole planner returns the specified tasks and every leftover order with its reason |
| BuildTasks.MachineState.Take | backend/app/services/scheduling/planner.py:284-291 | a machine's state moves by exactly the task it received |
| PlanTheorems.PlanConserves | backend/app/services/scheduling/planner.py:204-295 | every order is planned exactly once or left over exactly once, as multisets |
| PlanTheorems.PlanRefinesRules | backend/app/services/scheduling/planner.py:222-283 | the validator accepts every planned task on its machine with the very width the planner states |
| PlanTheorems.PlanBooksBalance | backend/app/services/scheduling/planner.py:284-291 | each machine's final task count and load are the initial ones plus those of its tasks |
| PlanTheorems.PlanExhausts | backend/app/services/scheduling/planner.py:253-262 | when planning stops no machine can take any batch of the leftover orders of a group |
| PlanTheorems.NothingSchedulableDropped | backend/app/services/scheduling/planner.py:231-262 | a leftover order is wider than the greatest or narrower than the least width of every machine that supports it |
| PlanTheorems.ReasonsAreTrue | backend/app/services/scheduling/planner.py:147-162 | the reason "above every maximum" is given exactly when it holds, and each other reason only when it is the case |
| PlanAcceptance.NoMachineExactlyWhen | backend/app/services/scheduling/planner.py:147-158 | the reasons that no machine makes the category, or none of those the pattern, are given exactly when that is so |
| PlanAcceptance.StartsFromLast | backend/app/services/scheduling/planner.py:109-144 | a machine starts planning from the signature of the first order of the task that ends its queue on the board |
| PlanTheorems.SecondPassFindsNothing | backend/app/services/scheduling/planner.py:204-295 | planning the leftover orders again on the same machines plans nothing |
| PlanTheorems.MachineOrderIrrelevant | backend/app/services/scheduling/planner.py:228-293 | permuting the machine list changes neither tasks nor leftovers nor reasons |
| ProductionRules.AcceptedExactlyWhen | backend/app/services/production_rules.py:106-165 | the ordered checks accept exactly the batches in which every pair of orders agrees, with the sum of widths in range |
| ProductionRules.AllowedExactlyWhen | backend/app/services/production_rules.py:37-165 | the rules accept exactly the orders a machine may combine, stated on the orders themselves, at the sum of their widths in millimetres |
| ProductionRules.ComplaintsAreTrue | backend/app/services/production_rules.py:106-165 | each complaint names a rule that the batch breaks |
| ProductionRules.VerdictIgnoresOrder | backend/app/services/production_rules.py:92-165 | permuting the orders of a batch changes neither the verdict, nor the width, nor which complaint is raised |
| ProductionRules.ProfileOf | backend/app/services/production_rules.py:80-89 | a width is recognised exactly when the text's number is positive, and is then positive |
| ProductionRules.WidthIgnoresUnit | backend/app/services/production_rules.py:80-89 | a width in centimetres equals ten times that number in millimetres |
| ProductionRules.ThicknessMergesByValue | backend/app/services/production_rules.py:63-70 | two understood thickness texts normalise alike exactly when they state the same value |
| Spellings.ThicknessOfWritten | backend/app/services/production_rules.py:63-70 | what a batch compares of a thickness: its digits without needless zeros, in μm, whatever blanks surround it |
| Spellings.TenMicronsMerge | backend/app/services/production_rules.py:60-103 | orders alike but for w 丝 and w0 μm are one product, for every w |
| Tables.VerdictOfListing | backend/app/services/production_rules.py:106-165 | every listing of a set of orders gets the verdict of the set |
| Tables.VerdictFromContents | backend/app/services/production_rules.py:106-165 | the verdict does not depend on status, links or timestamps of the orders |
| Queues.Queue | backend/app/services/production_service.py:95-111 | lists exactly the unfinished tasks of a machine, by position and then id |
| Queues.OneOrder | backend/app/services/production_service.py:95-111 | a queue in that order is the only one |
| Queues.NextPositionIsTight | backend/app/services/production_service.py:140-148 | the new position is one past the greatest existing one, or 1 |
| Queues.QueueAfterRenumber | backend/app/services/production_service.py:114-117 | numbering a listing of a machine's unfinished tasks makes it the queue, at 1 to n |
| BoardClass.ProductionBoard.CreateTask | backend/app/services/production_service.py:125-160 | the new rows are the specified ones or the specified error is raised with nothing changed; a sound board stays sound |
| BoardClass.ProductionBoard.UpdateTask | backend/app/services/production_service.py:163-228 | likewise for status changes, with expectations, transitions and the busy machine |
| BoardClass.ProductionBoard.DeleteTask | backend/app/services/production_service.py:231-248 | likewise, and the queue it leaves stands at 1 to n |
| BoardClass.ProductionBoard.MoveOrder | backend/app/services/production_service.py:251-333 | likewise for all four kinds of move |
| BoardClass.ProductionBoard.MoveTask | backend/app/services/production_service.py:336-369 | likewise within a machine and across machines |
| BoardClass.ProductionBoard.ReorderTasks | backend/app/services/production_service.py:372-389 | likewise, and the given list is the new queue at 1 to n |
| BoardClass.ProductionBoard.AssignPositions | backend/app/services/production_service.py:116-117 | the numbering loop yields the specified positions |
| BoardClass.ProductionBoard.Link | backend/app/services/production_service.py:153-155 | the loop over orders links exactly those orders |
| BoardClass.ProductionBoard.CreateOrder | backend/app/services/order_service.py:80-124 | a new pending order; a sound board stays sound |
| BoardClass.ProductionBoard.UpdateOrder | backend/app/services/order_service.py:127-164 | linked orders are refused; a sound board stays sound |
| BoardClass.ProductionBoard.DeleteOrder | backend/app/services/order_service.py:167-175 | linked orders are refused; a sound board stays sound |
| BoardAcceptance.UpdateAcceptedExactlyWhen | backend/app/services/production_service.py:163-216 | a status change is accepted exactly with met expectations, for the unchanged status, waiting to producing, producing to done or waiting, and done to producing, where the changes into producing need an accepted batch and a free machine |
| BoardAcceptance.OutdatedExactlyWhen | backend/app/services/production_service.py:181-189 | a request is refused as outdated exactly when a status, time stamp or set of orders it names is not the task's own |
| BoardAcceptance.StartThenFinish | backend/app/services/production_service.py:191-223 | a waiting task on a free machine can be started, then finished; its orders are done and it is off the queue |
| BoardAcceptance.WithdrawUndoesStart | backend/app/services/production_service.py:191-223 | withdrawing a started task is accepted and restores the board but for its time stamp |
| BoardAcceptance.RestoreUndoesFinish | backend/app/services/production_service.py:191-223 | restoring a finished task is accepted and restores its status and its orders, at the end of the queue |
| BoardAcceptance.CreateAcceptedExactlyWhen | backend/app/services/production_service.py:125-139 | a task is made exactly of distinct pending orders that the rules accept on the machine |
| BoardAcceptance.DeleteAcceptedExactlyWhen | backend/app/services/production_service.py:231-247 | a task is deleted exactly while it waits; its orders are pending again, stamped |
| BoardAcceptance.MoveTaskAcceptedExactlyWhen | backend/app/services/production_service.py:336-352 | a task moves exactly while it waits, to a machine whose rules accept its orders |
| BoardAcceptance.MoveOrderAcceptedExactlyWhen | backend/app/services/production_service.py:251-305 | an order moves exactly when it names one place at most and may leave and arrive, what stays behind being accepted still |
| BoardAcceptance.MovedOrderIsThere | backend/app/services/production_service.py:306-332 | after a move the order is in the task named, in a new waiting task of the machine named, or pending |
| BoardAcceptance.EditAcceptedExactlyWhen | backend/app/services/order_service.py:127-164 | an order changes exactly while it is in no task, and then has the content it was given |
| BoardAcceptance.DeleteUndoesCreateOrder | backend/app/services/order_service.py:80-175 | deleting the order just created is accepted and restores the board |
| BoardSafety.CreateTaskKeepsInv | backend/app/services/production_service.py:125-160 | the board's invariant survives an accepted creation |
| BoardSafety.UpdateTaskKeepsInv | backend/app/services/production_service.py:163-228 | the board's invariant survives an accepted status change |
| BoardSafety.DeleteTaskKeepsInv | backend/app/services/production_service.py:231-248 | the board's invariant survives a deletion, and the queue stands at 1 to n |
| BoardSafety.MoveOrderKeepsInv | backend/app/services/production_service.py:251-333 | the board's invariant survives every accepted move of an order |
| BoardSafety.MoveTaskKeepsInv | backend/app/services/production_service.py:336-369 | the board's invariant survives every accepted move of a task |
| BoardSafety.ReorderTasksKeepsInv | backend/app/services/production_service.py:372-389 | the board's invariant survives an accepted reordering |
| BoardSafety.CreateOrderKeepsInv | backend/app/services/order_service.py:80-124 | the board's invariant survives a new order |
| BoardSafety.UpdateOrderKeepsInv | backend/app/services/order_service.py:127-164 | the board's invariant survives an accepted change of an order |
| BoardSafety.DeleteOrderKeepsInv | backend/app/services/order_service.py:167-175 | the board's invariant survives an accepted deletion of an order |
| BoardQueues.CreateTaskAppends | backend/app/services/production_service.py:140-150 | a new task ends its machine's queue and no other queue changes |
| BoardQueues.DeleteTaskRemoves | backend/app/services/production_service.py:241-247 | the task leaves its queue, the rest keep their order at 1 to n, no other queue changes |
| BoardQueues.UpdateTaskQueues | backend/app/services/production_service.py:206-223 | finishing removes from the queue, restoring appends, other changes leave every queue alone |
| BoardQueues.MoveOrderQueues | backend/app/services/production_service.py:306-332 | a new task is appended, an emptied one removed, and each renumbered queue stands at 1 to n |
| BoardQueues.MoveTaskRelocates | backend/app/services/production_service.py:353-368 | the task is removed and inserted at the clamped index, both queues stand at 1 to n, no other queue changes |
| BoardQueues.MoveTaskKeepsOthersInOrder | backend/app/services/production_service.py:353-368 | all other tasks keep their relative order on every machine |
| BoardQueues.ReorderTasksSets | backend/app/services/production_service.py:380-388 | the accepted list becomes the queue at 1 to n, no other queue changes |
| BoardQueues.ReorderAcceptedExactlyWhen | backend/app/services/production_service.py:378-385 | a list is accepted exactly when it is a permutation of the queue |
| BoardQueues.DeleteUndoesCreate | backend/app/services/production_service.py:125-160 | deleting the task just created is accepted and restores orders, tasks and queues |
| BoardQueues.MoveOutUndoesMoveIn | backend/app/services/production_service.py:251-333 | moving a pending order into a task and out again is accepted and restores the board |
| BoardRuns.StepKeepsInv | backend/app/services/production_service.py:125-389 | every operation, plan application included, keeps the invariant |
| BoardRuns.EveryStateSafe | backend/app/services/production_service.py:125-389 | in every state of every run: pending iff without task, linked orders follow their task, every task non-empty and accepted, one producing task a machine, queue positions positive and strictly ascending |
| BoardRuns.TasksLeaveOrdersAlone | backend/app/services/production_service.py:125-389 | task operations and plans change only status, link and stamp of orders |
| BoardStamps.ChangesAreStamped | backend/app/models/production.py:30-32 | every row of an order or task that an operation makes or changes carries the operation's time, every other row is as it was |
| BoardStamps.StampTellsTask | backend/app/services/production_service.py:184-185 | in any run a task with a stamp seen before is the task seen before, unless an operation since had that very time |
| BoardStamps.StampTellsOrder | backend/app/services/scheduling/service.py:276-278 | likewise an order, which is what a plan's snapshot relies on |
| ScheduleInputs.LoadedOrders | backend/app/services/scheduling/inputs.py:23-32 | exactly the pending orders are loaded, each once |
| ScheduleInputs.LoadedMachines | backend/app/services/scheduling/inputs.py:35-50 | exactly the active machines are loaded, each once |
| PlanAcceptance.OrdersAreLoaded | backend/app/services/scheduling/inputs.py:23-32 | the planner gets exactly the pending orders, the oldest first |
| PlanAcceptance.PrintsAgreeExactlyWhen | backend/app/services/scheduling/inputs.py:64-87 | two machine fingerprints agree exactly when activity, widths, categories, patterns and the unfinished tasks do, with their positions, states, stamps and orders |
| PlanApplication.ApplyKeepsInv | backend/app/services/scheduling/service.py:190-326 | applying any stored plan at all, stale or tampered with, keeps a sound board sound |
| PlanApplication.EntryIsPlaced | backend/app/services/scheduling/service.py:302-316 | each entry has become a waiting task of its machine holding exactly its orders |
| PlanApplication.ApplyExtendsQueues | backend/app/services/scheduling/service.py:295-316 | every queue grows by its tasks of the plan, in plan order, behind what was there |
| PlanApplication.ApplyTakesOrders | backend/app/services/scheduling/service.py:314-316 | exactly the plan's orders leave the pending ones |
| PlanApplication.PlaceAllFrame | backend/app/services/scheduling/service.py:302-316 | existing tasks and all other orders are untouched |
| PlanApplication.OrderTakenOnce | backend/app/services/scheduling/service.py:288-293 | once a plan has taken an order, any plan naming that order is refused |
| PlanDrafts.LookupsHit | backend/app/services/scheduling/service.py:88-126 | for a draft that is not stale every input order is among the loaded pending orders |
| PlanDrafts.EditKeepsCoherent | backend/app/services/scheduling/service.py:91-127 | after an accepted edit, on whatever board, tasks and unassigned orders still partition the input orders |
| PlanDrafts.EditKeepsCurrent | backend/app/services/scheduling/service.py:77-132 | on an unchanged board an edited draft is still current and every task of it accepted |
| PlanDrafts.AcceptedMachineHasWidth | backend/app/services/scheduling/service.py:116 | the width utilisation divides by a positive number |
| PlanDrafts.CreateIsCurrent | backend/app/services/scheduling/service.py:135-169 | a created plan is not stale, partitions its inputs, and each task is accepted at its stated width |
| PlanDrafts.CurrentApplies | backend/app/services/scheduling/service.py:206-293 | a current draft with a task passes every check of application |
| PlanDrafts.GenerateEditApply | backend/app/services/scheduling/service.py:135-326 | create, edit any number of times, apply: application is accepted, the board stays sound, every entry is placed, and of the inputs exactly the unassigned ones are still pending |
| PlanDrafts.AppliedSeesSnapshot | backend/app/services/scheduling/service.py:209-279 | a plan is applied only if contents, stamps, pending set, active machines and queues are those it was made from |
| PlanAcceptance.CurrentExactlyWhen | backend/app/services/scheduling/service.py:66-74 | a draft is current exactly while the board is as its snapshot has it, row by row, and loads are compared by the same measure |
| PlanAcceptance.RedrawnExactlyWhen | backend/app/services/scheduling/service.py:77-132 | a current draft is redrawn exactly when each task drawn is of pending orders of the plan, in no task drawn before, that its active machine may combine; the rest is left, in order |
| PlanAcceptance.AppliesExactlyWhen | backend/app/services/scheduling/service.py:190-293 | a stored plan applies exactly as a draft with tasks, on the board as its snapshot has it, when each task can still be made and no order is in two |
| PlanningDesk.Desk.DraftPlan | backend/app/services/scheduling/service.py:135-169 | drafting with the planner's loops gives the specified plan, which is current |
| PlanningDesk.Desk.CheckEdits | backend/app/services/scheduling/service.py:89-121 | the loop over edited tasks accepts or refuses as specified, first complaint first |
| PlanningDesk.Desk.UpdateDraft | backend/app/services/scheduling/service.py:77-132 | the stored draft becomes the specified one or nothing changes; the partition is kept |
| PlanningDesk.Desk.CheckEntries | backend/app/services/scheduling/service.py:281-287 | the validation loop finds the first complaint or lists all named orders |
| PlanningDesk.Desk.Place | backend/app/services/scheduling/service.py:295-316 | handing out precomputed, incremented positions gives each task one more than the greatest position of its machine |
| PlanningDesk.Desk.ApplyPlan | backend/app/services/scheduling/service.py:190-326 | board and plan become the specified ones or nothing changes; a sound board stays sound |
| PlanningDesk.Desk.GeneratePlan | backend/app/services/agent_schedule_service.py:71-108 | the workspace becomes the specified one, or the error and nothing changed |
| PlanningDesk.Desk.PatchPlan | backend/app/services/agent_schedule_service.py:111-147 | likewise for edits against a revision |
| PlanningDesk.Desk.ApplyCommand | backend/app/services/agent_schedule_service.py:150-215 | likewise for application, with an applied plan answered and left alone |
| PlanningDesk.Desk.ClosePlan | backend/app/services/agent_schedule_service.py:216-222 | likewise for closing |
| PlanLifecycle.CommandKeepsInv | backend/app/services/agent_schedule_service.py:71-276 | the active plan is the only draft, the application log lists each applied plan once, plans partition their inputs, the board is sound |
| PlanLifecycle.SettledForever | backend/app/services/agent_schedule_service.py:66-69 | a plan that is no longer a draft never changes again |
| PlanLifecycle.AppliedOnce | backend/app/services/agent_schedule_service.py:159-188 | no plan reaches the board twice in any run |
| PlanLifecycle.ApplyingAgainChangesNothing | backend/app/services/agent_schedule_service.py:159-170 | an application sent again, whatever happened in between, is answered and changes nothing |
| PlanLifecycle.OnlyApplyingMovesTheBoard | backend/app/services/agent_schedule_service.py:150-276 | of the plan commands only one that turns the active draft into an applied plan touches the board |
| PlanRivals.TakenDraftIsLost | backend/app/services/scheduling/service.py:206-279 | once another session's plan has taken one of a draft's input orders, at a time after the stamp the draft recorded for it, the draft is never applied nor edited again, even if the order comes back |
| PlanLifecycle.GeneratedDraftApplies | backend/app/services/agent_schedule_service.py:71-188 | without interference a generated draft with a task applies at its first revision |
| PlanCommands.GenerateExactlyWhen | backend/app/services/agent_schedule_service.py:71-108 | a draft is generated exactly from pending orders, where there is none or at the agreed revision of the active one |
| PlanCommands.PatchExactlyWhen | backend/app/services/agent_schedule_service.py:111-147 | an edit is accepted exactly for a current draft at the revision seen, with drawings that fit |
| PlanCommands.ApplyExactlyWhen | backend/app/services/agent_schedule_service.py:150-188 | an application is accepted exactly for an applied plan, to no effect, or for the active draft at the revision seen that the board takes |
| PlanCommands.CloseExactlyWhen | backend/app/services/agent_schedule_service.py:216-222 | a draft is closed exactly when it is the active one, at the revision seen, with confirmation |
| AgentStore.Store.Claim | backend/app/agent/worker.py:97-139 | the session becomes the specified one; a returned context carries the new token of a running run |
| AgentStore.Store.Heartbeat | backend/app/agent/worker.py:142-147 | the lease is extended as specified or the lease is lost and nothing changes |
| AgentStore.Store.FailLocked | backend/app/agent/worker.py:174-200 | the run fails, its calls are abandoned, the audit row is written, the next screenshot is queued, in that order of events |
| AgentStore.Store.AbandonCalls | backend/app/agent/worker.py:180-192 | the loop abandons exactly the started calls, one event each |
| AgentStore.Store.Finalize | backend/app/agent/worker.py:209-248 | answer, ending, audit, continuation and events as specified, or nothing |
| AgentStore.Store.Publish | backend/app/agent/worker.py:251-263 | a delta is logged only under a valid lease |
| AgentStore.Store.Expire | backend/app/agent/worker.py:266-311 | the overdue run fails with the code its state calls for, others are left alone |
| AgentStore.Store.ContinueRecognition | backend/app/services/order_intake_workflow.py:42-112 | the item is marked, then the next screenshot queued or the review advanced, as specified |
| AgentStore.Store.AdvanceReview | backend/app/services/order_intake_workflow.py:13-39 | the current item is kept, or freed and the first ready draft selected |
| AgentStore.Store.StartTool | backend/app/services/agent_tool_service.py:33-64 | a receipt is issued, answered or refused as specified |
| AgentStore.Store.FinishTool | backend/app/services/agent_tool_service.py:65-90 | effect and receipt change together or not at all |
| AgentStore.Store.FailTool | backend/app/services/agent_tool_service.py:91-112 | the receipt fails under a valid lease only |
| AgentStore.Store.SaveScreenshot | backend/app/services/order_recognition_service.py:75-149 | the item and its siblings are saved together or nothing is |
| AgentStore.Store.AddSiblings | backend/app/services/order_recognition_service.py:100-143 | the loop adds one recognised item for each further order |
| AgentStore.Store.PatchDraft | backend/app/services/order_intake_item_service.py:50-105 | a draft is changed only at its revision and while it may be changed |
| AgentStore.Store.NoteUnreadable | backend/app/agent/specialized/order_capabilities.py:308-324 | a reading failure is noted under a valid lease only |
| AgentStore.Store.AcceptMessage | backend/app/services/agent_session_service.py:154-332 | message, bound screenshots, items, activation and run as specified; a known message gets its stored answer and changes nothing |
| AgentStore.Store.BindShots | backend/app/services/agent_session_service.py:275-288 | the loop binds each screenshot and queues one item for it |
| AgentStore.Store.Retry | backend/app/services/agent_session_service.py:335-426 | only the latest failed run is retried, with its item and flags |
| AgentStore.Store.SetStatus | backend/app/services/agent_session_service.py:429-522 | archiving, restoring and deleting as specified |
| AgentStore.Store.DeleteSession | backend/app/services/agent_session_service.py:446-490 | the open run is cancelled, its calls abandoned, its event and audit row written |
| AgentStore.Store.OnItem | backend/app/services/order_intake_item_service.py:108-299 | the work-item commands as specified, refused in the order of the checks |
| AgentStore.Store.TakeNext | backend/app/services/order_intake_item_service.py:302-374 | the first pending item becomes current if it is the expected one |
| AgentStore.Store.SetArchived | backend/app/services/order_screenshot_service.py:177-271 | archiving and restoring a screenshot, putting the current item aside when its screenshot goes |
| AgentStore.Store.RemoveShot | backend/app/services/order_screenshot_service.py:274-344 | an archived screenshot is removed with its items and every reference to them |
| AgentStore.Store.Generate | backend/app/services/agent_schedule_service.py:71-108 | a run makes at most one draft, in place of the active one only as it was asked to, and the state becomes the specified one |
| AgentStore.Store.OnPlan | backend/app/services/agent_schedule_service.py:150-248 | applying, closing and replacing a draft in an idle session, as specified, refused in the order of the checks |
| AgentStore.Store.PatchPlan | backend/app/services/agent_schedule_service.py:111-147 | a draft is edited only at its revision in an idle session |
| AgentStore.Store.CheckMessage | backend/app/services/agent_session_service.py:197-243 | the checks of a new message find the first that fails, in their order |
| AgentStore.Store.PatchByUser | backend/app/services/order_intake_item_service.py:22-105 | a user's edit of a draft, which an open run does not prevent |
| AgentStore.Store.Upload | backend/app/services/agent_attachment_service.py:69-106 | a screenshot is staged in an idle order session only |
| AgentStore.Store.Perform | backend/app/agent/worker.py:58-311 | any operation at its time is one step of a run, a refused one moves only the clock, and a sound session stays sound |
| AgentStore.Store.Command | backend/app/services/agent_session_service.py:66-80 | a known key is answered as before or refused, a new command is handled and its answer stored |
| AgentSteps.EffectKeepsReceipts | backend/app/services/agent_tool_service.py:67-70 | a tool's effect leaves runs, receipts and session status alone |
| AgentSafety.FailLockedKeepsInv | backend/app/agent/worker.py:174-200 | ending a run and queueing its successor in one step keeps the session's invariant |
| AgentSafety.ClaimKeepsInv | backend/app/agent/worker.py:97-139 | claiming keeps the session's invariant |
| AgentSafety.FinalizeKeepsInv | backend/app/agent/worker.py:209-248 | answering keeps the session's invariant |
| AgentSafety.ExpireKeepsInv | backend/app/agent/worker.py:266-311 | the watchdog keeps the session's invariant |
| AgentSafety.FinishToolKeepsInv | backend/app/services/agent_tool_service.py:65-90 | a tool's success keeps the session's invariant |
| AgentCommandSafety.AcceptMessageKeepsInv | backend/app/services/agent_session_service.py:154-332 | accepting a message keeps the session's invariant |
| AgentCommandSafety.OnPlanKeepsInv | backend/app/services/agent_schedule_service.py:150-248 | applying, closing and replacing a draft keeps the session's invariant |
| AgentCommandSafety.CommandKeepsInv | backend/app/services/agent_session_service.py:66-80 | every command keeps the session's invariant |
| AgentRuns.RunKeepsInv | backend/app/agent/worker.py:58-311 | the invariant holds in every state of every interleaving |
| AgentEvolution.StepEvolves | backend/app/agent/worker.py:58-311 | in one operation runs only move forward, a lease is extended only while valid, the log only grows, answers are remembered, and the current item stays while a run is open |
| AgentTheorems.LossIsFinal | backend/app/agent/worker.py:58-94 | a context once refused is refused in every later state and at every later time |
| AgentTheorems.NothingAfterLoss | backend/app/agent/worker.py:142-263 | from the first refusal on no step under that context changes anything but the clock |
| AgentTheorems.LeaseWithinDeadline | backend/app/agent/worker.py:124-147 | a running run's lease never ends after its deadline |
| AgentLeases.HeldExactlyWhile | backend/app/agent/worker.py:58-147 | in any run of operations a context granted at t0 and last renewed at h is accepted, while its run still runs, exactly before h + 30 seconds and before t0 plus the session's run timeout |
| AgentLeases.HeldRunGoesOn | backend/app/agent/worker.py:58-311 | nothing but its own worker or the deletion of the session ends a run whose context is accepted |
| AgentOutcomes.HoldsExactlyWhen | backend/app/agent/worker.py:58-94 | on a sound session a context is accepted exactly for the running run with its token and item until the lease ends; the other checks follow |
| AgentOutcomes.ClaimBecomes | backend/app/agent/worker.py:97-139 | a waiting run is started with a lease of 30 seconds and the session's timeout as deadline, or has waited too long and fails as such |
| AgentOutcomes.FailureBecomes | backend/app/agent/worker.py:150-200 | a failed run keeps its code, loses its lease, abandons its started calls, and its failure and the new revision are the last events |
| AgentOutcomes.ExpireAcceptedExactlyWhen | backend/app/agent/worker.py:266-299 | the watchdog acts exactly on a running run past its lease or deadline, or one queued for 120 seconds |
| AgentOutcomes.ExpireBecomes | backend/app/agent/worker.py:300-309 | it fails it as waited too long, timed out or lost, as its state calls for |
| AgentOutcomes.NewCallAcceptedExactlyWhen | backend/app/services/agent_tool_service.py:33-64 | a new call under a valid lease is accepted exactly while fewer than 8 receipts exist |
| AgentOutcomes.KnownCallAnsweredExactlyWhen | backend/app/services/agent_tool_service.py:33-64 | a call made again is answered exactly when it is the same call and has succeeded |
| AgentOutcomes.FinishedBecomes | backend/app/services/agent_tool_service.py:65-90 | a call in flight succeeds exactly when its effect does; effect, receipt and event come together |
| AgentOutcomes.SavedBecomes | backend/app/services/order_recognition_service.py:75-149 | a read screenshot has its first order read and one item behind it for each further order, numbered from 2; nothing else is touched |
| AgentOutcomes.NextIsQueued | backend/app/services/order_intake_workflow.py:42-110 | after a workbench run the first unread screenshot is queued, an unread item of a failed run being marked first |
| AgentOutcomes.GenerateBecomes | backend/app/services/agent_schedule_service.py:71-108 | a run drafts at most once, and over an active draft only as it was asked to, at the revision it was asked at |
| AgentTheorems.RunsAreBooked | backend/app/models/agent.py:134-172 | in every state at most one run is open, the table's check constraints hold, and each ended run has exactly one terminal event and one audit row |
| AgentTheorems.EndedForever | backend/app/agent/worker.py:174-248 | an ended run keeps status, outcome, error, end time and receipts |
| AgentTheorems.LogOnlyGrows | backend/app/services/agent_event_service.py:47-65 | events are only appended; at most an event's item reference is cleared later |
| AgentTheorems.LogIsNumbered | backend/app/services/agent_event_service.py:47-65 | in every state events are numbered 1 to last_event_seq in order and each message knows its own event's number |
| AgentTheorems.ReaderFollowsRun | backend/app/routers/agent_v2.py:256-276 | a reader polling at any moments of any run receives each event after its cursor once, in order, as it stands in the log |
| AgentTheorems.ReplayAnswers | backend/app/services/agent_session_service.py:66-80 | a command sent again at any later time gets its stored answer and changes nothing |
| AgentTheorems.OtherRequestRefused | backend/app/services/agent_session_service.py:76-77 | in every state after a command was accepted its key is refused for any other request |
| AgentTheorems.MessageReplayAnswers | backend/app/services/agent_session_service.py:171-196 | a message sent again at any later time to a live session gets the answer it got, naming the same run, and changes nothing |
| AgentTheorems.OtherMessageRefused | backend/app/services/agent_session_service.py:178-180 | in every live state after a message was accepted its key is refused for any other message |
| AgentTheorems.PlansAreBooked | backend/app/services/agent_schedule_service.py:150-224 | in every state the active plan is the one draft, and a plan has one audit row of its application if it was applied, else none |
| AgentTheorems.EffectsAtMostOnce | backend/app/services/agent_tool_service.py:35-90 | each work item makes at most one order, each call of a run takes effect at most once, and calls are counted by their receipts, at most 8 |
| AgentTheorems.CurrentItemIsTheActiveOne | backend/app/services/order_intake_item_service.py:126-220 | the current item is exactly the one active item and its screenshot is not archived |
| AgentItems.ItemsOnlyMoveOn | backend/app/services/order_intake_item_service.py:50-374 | between any two states of a run an item stays where it was read, an ended one stays ended with its order or none, any other change raises the revision, and no item comes back |
| AgentItems.RevisionTellsChange | backend/app/services/order_intake_item_service.py:45-105 | two sightings of an item at one revision show the same item, but for an order deleted since |
| AgentItems.ClosedTakesNoCommand | backend/app/services/order_intake_item_service.py:140-142 | in every state after an item was closed every command on it is refused |
| AgentItems.CreatedIsOnlyAnswered | backend/app/services/order_intake_item_service.py:116-138 | in every state after an item became an order, confirming it again is answered with that order without effect, and nothing else is accepted |
| AgentDesk.ItemCommandAcceptedExactlyWhen | backend/app/services/order_intake_item_service.py:108-214 | each command on an item is accepted exactly at the item's revision, in a live idle order session, in the states that it is for |
| AgentDesk.DeferredCanBeSelected | backend/app/services/order_intake_item_service.py:159-214 | an item put off can be selected again, and is then the current one |
| AgentDesk.NextAcceptedExactlyWhen | backend/app/services/order_intake_item_service.py:302-330 | the next item is taken exactly when the desk is empty and it is the first pending one by position and index |
| AgentDesk.ReviewTakes | backend/app/services/order_intake_workflow.py:13-39 | from nothing, or from an item that could not be read, reviewing goes to the first ready draft, and the unreadable item goes back |
| AgentRequests.MessageAcceptedExactlyWhen | backend/app/services/agent_session_service.py:197-243 | a new message is accepted exactly by a live idle session at the revision seen, when its screenshots, target and selection fit |
| AgentRequests.MessageTakesUp | backend/app/services/agent_session_service.py:266-307 | its screenshots are bound and queued behind everything else, and with nothing on the desk the first pending item is taken up |
| AgentRequests.RetryAcceptedExactlyWhen | backend/app/services/agent_session_service.py:335-394 | a run is retried exactly when it failed, is the last one queued, and its item and draft are still the current ones |
| AgentRequests.DeletedRunning | backend/app/services/agent_session_service.py:446-490 | deleting a session cancels its open run, abandons its started calls and tells both |
| AgentRequests.ArchivedShots | backend/app/services/order_screenshot_service.py:177-271 | restoring one screenshot of an archived session reopens it with that one alone; archiving touches no other |
| AgentRequests.RemovedReferences | backend/app/services/order_screenshot_service.py:274-344 | a removed screenshot leaves no reference in runs or events, and runs on it are marked |
| AgentRequests.PlanCommandAcceptedExactlyWhen | backend/app/services/agent_schedule_service.py:150-222 | a draft is applied, closed or replaced exactly as an idle scheduling session's draft at the revision seen; an applied one may be applied again |
| AgentGrants.ClaimGrantsLease | backend/app/agent/worker.py:97-139 | claiming in time yields a context that is accepted until its lease runs out |
| AgentGrants.HeartbeatRenews | backend/app/agent/worker.py:142-147 | after a heartbeat the context is accepted exactly until the sooner of 30 seconds and the deadline |
| AgentGrants.RunKeepsDesk | backend/app/agent/worker.py:86-92 | in every state an open run outside the workbench works on the current item |
| AgentChains.RunKeepsChains | backend/app/services/order_intake_workflow.py:42-112 | no screenshot is queued automatically twice and no run is followed twice; a chained run that ended has left its item read or marked unreadable |
| AgentChains.ChainsAreBounded | backend/app/services/order_intake_workflow.py:67-110 | n screenshots cause at most n automatically queued runs |
| AgentChains.RequeuedExactlyWhen | backend/app/services/order_intake_workflow.py:42-110 | success of a workbench run queues its own screenshot again exactly when that is still the first unread one |
| AgentChains.ChainedTwiceExactlyWhen | backend/app/services/order_intake_workflow.py:42-110 | an automatically queued screenshot is queued a second time exactly when success is reported while it is the first unread one |
| AgentChains.ChainIsNew | backend/app/services/order_intake_workflow.py:68-81 | a screenshot picked for automatic reading has never been picked before |
| EventReader.PageIsNext | backend/app/services/agent_query_service.py:27-41 | a page is exactly the next events of the log, as many as fit, and the cursor its last number |
| EventReader.NothingMissedOrRepeated | backend/app/services/agent_query_service.py:27-41 | any page sizes over any growing log deliver every number after the cursor once and in order |
| EventReader.ReaderCatchesUp | backend/app/routers/agent_v2.py:259-272 | on a log that stands still enough pages reach its end |
| Specifications.CanonicalRoundTrip | backend/app/services/order_specification.py:10-38 | reading a canonical string gives back the measured value in the target unit |
| Specifications.CanonicalDecidesValue | backend/app/services/order_specification.py:10-38 | two inputs have equal canonical strings exactly when they denote equal values |
| Spellings.CanonicalOfWritten | backend/app/services/order_specification.py:10-33 | a measure in any spelling becomes its digits without needless zeros, the point one to the right for cm, 丝 and c, with mm or μm |
| Spellings.AcceptedIsWritten | backend/app/services/order_specification.py:17-27 | exactly the texts of digits, perhaps a fraction, blanks and a listed unit in any case, with a digit other than zero, are accepted |
| Spellings.TenMicronsAreOne | backend/app/services/order_specification.py:13-33 | w 丝, w c and w0 um are written like w0 μm, and w cm like w0 mm, for every digit string w |
| Specifications.StandardisedIsStable | backend/app/services/order_specification.py:10-38 | standardising a standardised specification changes nothing |
| SpecificationForms.CheckedExactlyWhen | backend/app/services/order_specification.py:13-27 | a form is refused exactly when a dimension is missing, given under two labels, or no measure |
| SpecificationForms.FormOutcome | backend/app/services/order_specification.py:28-35 | an accepted form has each dimension once, under its own label and canonical, and everything else as it was |
| SpecificationForms.FormNote | backend/app/services/order_specification.py:34-37 | the note is the earlier one followed by each text that was rewritten under its name |
| Specifications.ValidateSpecification | backend/app/services/order_specification.py:10-38 | the loop over labels with its pops and notes gives the specified form or error |
| Decimals.TrimDecidesValue | backend/app/services/order_specification.py:10-38 | two decimals are equal in value exactly when they trim to the same digits and places |
| Decimals.ShortenSpellsTrim | backend/app/services/order_specification.py:10-38 | cutting trailing zeros off a plain spelling spells the trimmed decimal |

## Left out

- PlannerProperties, BoardFrames and the other helper lemmas have no row: they only carry the proofs of the rows above.
- The lemmas of AgentDesk, AgentOutcomes and AgentRequests without a row state what one operation leaves, as those with a row do for the others.
- Specifications.ValidateSpecification: models ASCII digits, lower-casing of ASCII and of the Greek mu, and all of Python's blanks; full-width digits, other `casefold`, Decimal's 28-digit context and the range of floats are not modelled.
- ProductionRules.ProfileOf: takes the first number of the width text and whether it ends in cm as given; the regular expression that finds them is not modelled.
- Rounded utilisation, display texts, order numbers, machine names in entries and formula snapshots: projections that nothing else reads.
- Floating point: sums and products of widths and weights are exact, so that their order does not matter.
- Hashes (`stable_hash`, `canonical_hash`, request and argument digests): replaced by the payload they are taken of, that is, taken as injective; the content payload is what the rules and the planner read of an order.
- Collation of machine names in the database: names compare by code point; the planner's result does not depend on the order of machines, as proved.
- Listing order of a task's orders: taken by id; the validator's verdict does not depend on it, as proved, and the planner reads only the first order's signature from it.
- ORM mechanics, locks and rollback: a transaction is one step that takes effect or leaves everything as it was; a row touched only when a field changes.
- `board` rows for customers, products, formulas, categories and machines: master data, fixed during a run.
- BoardClass.ProductionBoard.UpdateOrder: the checks of formula, specification and unit are folded into the new content it is given.
- AgentStore.Store.OnPlan: what a draft contains and whether the board takes it are decided in `PlanLifecycle` and `SchedulePlans`; in the session the draft is its status, its revision and whether it has tasks, and the board's verdict is a parameter.
- PlanningDesk.Desk.GeneratePlan: the answer for a run that has already generated its draft is given by `AgentStore.Store.Generate`.
- PlanningDesk.Desk.PatchPlan: the idle check of the session is made by `AgentStore.Store.PatchPlan`.
- PlanningDesk.Desk.ApplyCommand: the idle check and the replay of a key are made by `AgentStore.Store.OnPlan` and `AgentStore.Store.Command`.
- PlanningDesk.Desk.ClosePlan: the idle check and the replay of a key are made by `AgentStore.Store.OnPlan` and `AgentStore.Store.Command`.
- BoardClass.ProductionBoard.CreateOrder: the checks of quantity, unit, specification, formula, customer and product are folded into the content it is given.
- AgentStore.Store.AcceptMessage: the list of items in an answer is not part of it; the source reads it anew from the table.
- AgentStore.Store.Command: keys of session creation are not modelled; a session starts in the state that creating it leaves.
- AgentStore.Store.PatchDraft: the new text of the draft, its issues and their provenance are not modelled, only its revision.
- AgentStore.Store.OnItem: the presentation of the message that a confirmation writes is not modelled.
- Model calls, prompts, admission, vision parsing and graph wiring: an executor is any sequence of steps under its context.
- The text of drafts, issues and provenance: a draft is its revision; whether it may be confirmed is a parameter of the confirmation.
- AgentStore.Store.Expire: stands for one session of the sweep; selecting sessions and skipping locked ones across a hundred of them is not modelled.
- AgentStore.Store.Claim: the choice among several sessions with queued runs is not modelled; each session evolves on its own.
- Garbage collection of files, file storage, authentication, routers, schemas, migrations, deployment and the whole front end.
