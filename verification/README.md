# A model of the dispatch control plane, with proofs

The repository places agent work: it plans which job runs on which model pool and host,
drives long runs as a series of scheduler segments, keeps a queue of jobs with fallback
attempts going across crashes, and records checkpoints.  These files model that behaviour
in Dafny and prove what it guarantees, for all inputs, all runs and all crashes.

Where the source works on state, the model does too: the memoised search, the supervisor,
the queue controller, the checkpoint directory and the directory walk are classes with
methods and loops.  Each method is proved against a pure function of its arguments and
the old state, and the guarantees are lemmas about those functions.

| files | what they model |
|---|---|
| `PlannerModel`, `PlannerOptimality`, `PlannerOrder` | the joint assignment search: optimality, feasibility, what order has to do with it, the memo table |
| `QuotaReserve`, `PlannerCandidates`, `PlannerPlan` | budgets and reserves, the candidate table, and a whole planning round around the search |
| `Paths`, `Order` | POSIX paths, clashing write scopes, string order |
| `ModelApproval`, `ModelPolicy`, `PolicyRound` | choosing an exact model in a pool, pinning jobs to a named policy, and a round under a policy end to end |
| `SegmentHistory`, `SupervisorSpec`, `SupervisorSafety`, `SupervisorPace`, `DurableController` | the write-ahead protocol of the segment supervisor: what histories promise, its steps, its runs, their pace, and the class |
| `DurableRunLoop` | the loop that drives a supervisor |
| `ContinuityGate`, `ContinuityController`, `ContinuityEndless` | the completion gate, the walk through attempts, the queue, its run loop, and which queues it may never finish |
| `CheckpointNames`, `CheckpointReceipt` | file names, receipts, and the hash chain in a directory |
| `StorageWalk` | the bounded directory walk |
| `HumanAnnotations` | canonical annotations, building and verifying |

Disk files are maps that survive a crash; replacing a file is one step.  Schedulers,
processes, validators and file systems answer anything: each answer is read from a
function of the step, so a theorem holds for every sequence of answers, including an
exception or a crash before or after the effect took place.  Digests, time stamps and
JSON texts are uninterpreted; injectivity is asked for where it is needed.  Scores and
percentages are real numbers, times are whole units.

## Where the code does something else than it says

Each of these is proved, with the exact condition where there is one.

- `scopes_conflict` (scripts/dynamic_dispatch_planner.py:387-392) compares texts: "."
  contains every relative scope but clashes with none, and a bare root clashes with every
  absolute scope, also one under the other kind of root.
- The search visits jobs in the order of the horizon.  It is best among plans in any order
  exactly if no job that may use the reserve stands before one that may not; priority 4
  grants the reserve and ranks first, so such jobs usually do stand first
  (scripts/dynamic_dispatch_planner.py:1334-1341, 1658-1669).
- A pool with a reported balance is sure to keep its reserve exactly if that is zero once its
  fraction is dropped, or no job of the horizon may use it
  (scripts/dynamic_dispatch_planner.py:1658-1661).
- An opencode model whose name is white space counts as demanded but not as approved
  (scripts/dynamic_dispatch_planner.py:1092-1093, 1181-1193).
- Without a run root no intent is stored, and a submit that raised is issued again
  (scripts/durable_controller.py:276-280).
- Rollovers keep their distance only if segments start no earlier than the last rollover.
  The store returns an existing row with its old start (scripts/sqlite_store.py:3459-3469),
  and the supervisor takes it over.  A tick may also be given a time ahead of the clock, by
  which it rolls over, while the successor starts at the clock
  (scripts/durable_controller.py:744, 416-442): two such ticks roll over at once.
- No segment should be opened within the guard of the planned end
  (scripts/durable_controller.py:708-711).  The check goes by the time of the tick, and
  reconciling, flushing and closing come before the opening; with a planned end there is
  always a run that opens one late.
- `write_checkpoint` is documented to be idempotent (scripts/checkpoint_receipt.py:277-279).
  A replay with its sequence is refused; one without is appended again or, if it names
  another predecessor, refused.
- An artifact path of "." is accepted once; the receipt does not validate and blocks its
  directory (scripts/checkpoint_receipt.py:114-119).  A chain begun below 10^20 stops there.
- A resource stop is documented never to rotate to another local model
  (scripts/continuity_controller.py:269-274); it goes to the next attempt, whichever it is.
- A job without attempts is marked failed in memory only, so the run loop picks it up for
  ever (scripts/continuity_controller.py:1277-1279, 1530).  A queue may keep the loop going
  for ever exactly if it holds such a job whose dependencies are, all the way down, completed
  or waiting.
- With artifacts on an SSH host the inventory does not know, the return code alone
  completes a job (scripts/continuity_controller.py:1389-1390, 1421-1425).
- A directory that cannot be listed does not make a storage scan incomplete
  (scripts/local_storage_pressure.py:48-51).
- The stated source of an annotator is written as "human" but not compared when an
  annotation is verified (scripts/benchmark_holdout.py:643, 685-702).

## Model

| member | source | states |
|---|---|---|
| `PlannerOptimality.SolveIsOptimal` | scripts/dynamic_dispatch_planner.py:1614-1693 | The search returns a plan that is feasible, earns exactly the score returned with it, and is not beaten by any feasible plan listed in job order. |
| `PlannerOptimality.BestSound` | scripts/dynamic_dispatch_planner.py:1629-1688 | Every result of the recursion, from any job and any capacities, can be carried out step by step and earns exactly its score. |
| `PlannerOptimality.BestDominates` | scripts/dynamic_dispatch_planner.py:1627-1688 | No plan that can be carried out step by step in job order earns more than the recursion returns. |
| `PlannerFeasibility.AdmitsMeansFeasible` | scripts/dynamic_dispatch_planner.py:1634-1682 | A plan admitted step by step is feasible in closed form: lanes, pool slots, host slots, CPU, RAM, disk and GPU sums, budgets, one choice per job, no two clashing jobs. |
| `PlannerFeasibility.ResourcesStep` | scripts/dynamic_dispatch_planner.py:1636-1677 | Being admitted for one choice and within the remaining capacities for the rest equals being within the original capacities with the choice added; the agent host is charged a second slot exactly if it differs. |
| `PlannerFeasibility.BudgetsStep` | scripts/dynamic_dispatch_planner.py:1658-1669 | The same equivalence for the clamped budgets, with the reserve override. |
| `PlannerFeasibility.ConflictsStep` | scripts/dynamic_dispatch_planner.py:1634-1635 | Checking each job only against those chosen before it rules out every clashing pair. |
| `PlannerOrder.AnyOrderIsFeasible` | scripts/dynamic_dispatch_planner.py:1634-1682 | A feasible plan whose totals fit the budgets of the pools with ordinary jobs stays feasible in every order of its choices, can be carried out in that order, and earns the same. |
| `PlannerOrder.OrderFreeMeaning` | scripts/dynamic_dispatch_planner.py:1658-1669 | Exactly when the order of a plan does not matter: all orders of a feasible plan are feasible if and only if each pool that serves a job without reserve access has the budget for all that is placed on it. |
| `PlannerOrder.ReorderedFeasible` | scripts/dynamic_dispatch_planner.py:1634-1682 | Apart from budgets, reordering a feasible plan changes neither its feasibility nor its score. |
| `PlannerOrder.SolveIsOptimalInAnyOrder` | scripts/dynamic_dispatch_planner.py:1614-1693 | If no job with access to the reserve stands before one without, no feasible plan in any order beats the search. |
| `PlannerOrder.AlwaysBestMeaning` | scripts/dynamic_dispatch_planner.py:1614-1693 | Exactly when the search is best among plans in any order, for all candidates and capacities: no job of the horizon with access to the reserve stands before one without. |
| `PlannerOrder.SearchIsBeaten` | scripts/dynamic_dispatch_planner.py:1334-1341 | Otherwise it is beaten: for any such two jobs there are candidates with which it earns at most 1 while taking the later job first is feasible and earns 2. Priority 4 grants the reserve and ranks first. |
| `PlannerOrder.SortingKeepsBudgets` | scripts/dynamic_dispatch_planner.py:1658-1669 | With the reserve last, putting a feasible plan in the order of the horizon keeps it within its budgets. |
| `PlannerOrder.BudgetsAreTotals` | scripts/dynamic_dispatch_planner.py:1658-1669 | Without such jobs, the step-by-step budget test says exactly that each pool's total stays within its budget. |
| `PlannerModel.Charge` | scripts/dynamic_dispatch_planner.py:1662-1677 | Taking a choice keeps all capacity tuples in shape and no budget below zero. |
| `PlannerModel.CostUnits` | scripts/dynamic_dispatch_planner.py:1530 | A cost in units is at least one and never understates the percentage. |
| `PlannerSearch.Solver.Solve` | scripts/dynamic_dispatch_planner.py:1614-1688 | The search with a memo table keyed on all ten arguments returns what the plain recursion returns, in any order of calls. |
| `PlannerSearch.Solver.ScanChoices` | scripts/dynamic_dispatch_planner.py:1641-1688 | The double loop over pools and hosts computes the recursion's best choice, keeping earlier choices on ties. |
| `QuotaReserve.ReservePercent` | scripts/dynamic_dispatch_planner.py:257-268 | A reserve outside 0 to 100 is refused; any other loses only its fraction. |
| `QuotaReserve.GatherPools` | scripts/dynamic_dispatch_planner.py:1345-1413 | Exactly the pools with a profile, a parseable reserve and an acceptable balance take part, in order, each with its clamped budget and slots. |
| `QuotaReserve.BudgetAfter` | scripts/dynamic_dispatch_planner.py:1669 | After any choices the running clamped budget of a pool is the larger of zero and the budget minus the sum of units charged. |
| `QuotaReserve.UnitsCoverPercent` | scripts/dynamic_dispatch_planner.py:1530 | The units charged to a pool cover the percentage its jobs are estimated to use. |
| `QuotaReserve.ProjectedIsClamped` | scripts/dynamic_dispatch_planner.py:1709-1710 | The running projection of a balance ends at the larger of zero and the balance minus the sum of estimates. |
| `QuotaReserve.ReserveHolds` | scripts/dynamic_dispatch_planner.py:1400-1404 | Right after a job without access to the reserve is placed, the projection is exact and at or above the reserve, whatever drew on the pool before. |
| `QuotaReserve.PoolEndsAboveReserve` | scripts/dynamic_dispatch_planner.py:1709-1710 | A pool with a known balance and only such jobs ends at or above its integer reserve; an untouched pool keeps its balance. |
| `QuotaReserve.KeepsReserveMeaning` | scripts/dynamic_dispatch_planner.py:1658-1669 | Exactly when a pool with a reported balance is sure to keep its reserve, whatever the candidates, hosts, other pools and lanes: the reserve is zero once its fraction is dropped, or no job of the horizon may use it. |
| `QuotaReserve.ReserveJobsGoBelow` | scripts/dynamic_dispatch_planner.py:1658-1661 | Otherwise it is not: for every pool with a reserve and every job of any horizon with access to it there are candidates with which the search places the job and takes the pool below. |
| `QuotaReserve.Project` | scripts/dynamic_dispatch_planner.py:1696-1710 | The projection pass leaves each pool at its running clamped balance and records it per assignment; unknown balances stay unknown. |
| `PlannerPlan.Readiness` | scripts/dynamic_dispatch_planner.py:1321-1332 | One pass splits the pending jobs into those that wait, with their missing dependencies, and those that are ready. |
| `PlannerPlan.MissingMeaning` | scripts/dynamic_dispatch_planner.py:1327 | The missing list holds exactly the dependencies that are not completed. |
| `PlannerPlan.ReadyMeaning` | scripts/dynamic_dispatch_planner.py:1321-1332 | A job is ready exactly if it has an id, is neither completed nor active, and lacks no dependency. |
| `PlannerPlan.WaitingMeaning` | scripts/dynamic_dispatch_planner.py:1328-1329 | A waiting report exists exactly for each pending job that lacks a dependency. |
| `PlannerPlan.Rank` | scripts/dynamic_dispatch_planner.py:1334-1341 | The ready jobs, the same ones, sorted by priority, time, difficulty and id, ties kept in input order. |
| `PlannerPlan.PrefixHeads` | scripts/dynamic_dispatch_planner.py:1334-1342 | Cutting the ranked ready jobs at the horizon leaves out a ready job only if the horizon is full of jobs that rank before it. |
| `PlannerPlan.Conflicts` | scripts/dynamic_dispatch_planner.py:1445-1449 | The mask of each job holds exactly the other jobs whose scopes clash with its own. |
| `PlannerPlan.FeasibleKeepsScopesApart` | scripts/dynamic_dispatch_planner.py:1634-1635 | In a feasible plan no two assigned jobs have clashing write scopes. |
| `PlannerPlan.DeferUnselected` | scripts/dynamic_dispatch_planner.py:1784-1802 | Exactly the reasons of the considered jobs that were not selected are reported: every missing approval, or else the one reason that applies. |
| `PlannerPlan.ReasonMeaning` | scripts/dynamic_dispatch_planner.py:1791-1797 | What the reason means: the job has a row and others scored more, some pool made an offer but no host fits, or no pool made one. |
| `PlannerPlan.ApprovalsAskedFor` | scripts/dynamic_dispatch_planner.py:1494-1518 | Exactly which approvals a round asks for: of each considered job that was not placed, for each opencode pool with a free slot that it may use and neither demands nor approves a model for. |
| `PlannerPlan.RoundUsesExactModels` | scripts/dynamic_dispatch_planner.py:1494-1496 | Every assignment of a round names an offered model, on a pool the job may use, and on an opencode pool one that the job itself names exactly if it does not demand a blank name. |
| `PlannerPlan.Pose` | scripts/dynamic_dispatch_planner.py:1345-1612 | The problem the search gets: estimates, participating pools, conflicts, capacities, and a table that is exactly that of the candidate rules. |
| `PlannerPlan.Search` | scripts/dynamic_dispatch_planner.py:1690-1693 | On a posed problem the memoised search returns an optimal outcome whose write scopes are apart. |
| `PlannerCandidates.AskPool` | scripts/dynamic_dispatch_planner.py:1489-1571 | One pool for one job, check by check: nothing, a missing approval, or an offer with the exact model. |
| `PlannerCandidates.AddRows` | scripts/dynamic_dispatch_planner.py:1572-1612 | The loop over hosts adds exactly the rows of the hosts that fit. |
| `PlannerCandidates.AddJob` | scripts/dynamic_dispatch_planner.py:1474-1612 | The loop over pools adds exactly the rows of one job, lists the pools that lack its approval, and notes whether any made an offer. |
| `PlannerCandidates.BuildTable` | scripts/dynamic_dispatch_planner.py:1471-1612 | The three nested loops build exactly the table of the candidate rules, with the missing approvals and the jobs that got an offer. |
| `PlannerCandidates.RowIsPicked` | scripts/dynamic_dispatch_planner.py:1494-1496 | Every row names the model that selection chose for its job and pool, on a pool the job may use, with the agent host of the pool. |
| `PlannerPlan.Plan` | scripts/dynamic_dispatch_planner.py:1302-1804 | A whole round: the best-ranked ready jobs up to the horizon, the table built with exact models, choices optimal for the problem posed, scopes apart, projections as computed, exactly the deferrals with their reasons, and every pending job in exactly one of assignments and deferred. |
| `PlannerPlan.DeferAll` | scripts/dynamic_dispatch_planner.py:1785-1804 | The deferrals as they are put together: exactly the waiting jobs, the reasons of the considered jobs not placed, and the ready jobs beyond the horizon, so that no pending job is lost. |
| `PlannerPlan.RoundCovers` | scripts/dynamic_dispatch_planner.py:1694-1804 | Waiting, unselected, outside the horizon and assigned cover all pending jobs, overlap nowhere, and hold nothing else. |
| `PlannerPlan.RoundKeepsReserve` | scripts/dynamic_dispatch_planner.py:1694-1710 | The published projections of a round respect every pool's reserve as long as no job placed on it may use the reserve. |
| `WriteScopes.ConflictMeaning` | scripts/dynamic_dispatch_planner.py:387-392 | Exactly when two scopes clash: one lies at or below the other, except that "." clashes with no named scope, and that bare roots clash with every absolute scope; and clashing is symmetric. |
| `WriteScopes.DotScopeEscapes` | scripts/dynamic_dispatch_planner.py:387-392 | The scope "." contains every relative scope and clashes with none of them. |
| `ModelApproval.SelectPoolModel` | scripts/dynamic_dispatch_planner.py:1076-1293 | The choice as it runs, skipping repeated pairs of model and variant, picks what the rule picks. |
| `ModelApproval.ChosenIsOffered` | scripts/dynamic_dispatch_planner.py:1147-1179 | A chosen model is not rejected, is in the catalogue or opted into unless both are empty, and its variant is neither rejected nor, for opencode, unavailable. |
| `ModelApproval.OpencodeIsApproved` | scripts/dynamic_dispatch_planner.py:1181-1199 | An opencode choice is a model the job names for the pool exactly if the job does not demand a blank name. |
| `ModelApproval.BlankDemandPasses` | scripts/dynamic_dispatch_planner.py:1181-1193 | A blank name in model_by_pool is chosen although the job approves nothing, if the catalogue is empty. |
| `ModelApproval.RefusalMeaning` | scripts/dynamic_dispatch_planner.py:1225-1287 | An opencode refusal means that every approved model failed, as listed if listed and with the pool's variant otherwise. |
| `ModelApproval.FirstEligible` | scripts/dynamic_dispatch_planner.py:1269-1287 | The first eligible candidate is taken; a refusal means that there is none. |
| `ModelApproval.ApprovedAmong` | scripts/dynamic_dispatch_planner.py:1243-1267 | The candidates of an opencode pool are approved models only, and no approved model is missing. |
| `ModelPolicy.ApplyModelPolicy` | scripts/dispatch_workflow.py:111-242 | Pinning as it runs: all jobs pinned, or every conflict of every job reported and nothing pinned. |
| `ModelPolicy.FaultsMeaning` | scripts/dispatch_workflow.py:177-222 | A job has no conflict exactly if its pools, overrides, variants and model lists all agree with the policy. |
| `ModelPolicy.AppliedMeaning` | scripts/dispatch_workflow.py:126-242 | A policy that pins is applied exactly if every job is free of conflicts, and then gives the pinned jobs. |
| `ModelPolicy.NamedPoliciesPin` | scripts/dispatch_workflow.py:47-108 | Each named policy has routes, one for each pool, with models that are not blank. |
| `ModelPolicy.PinnedChoice` | scripts/dynamic_dispatch_planner.py:1181-1193 | For a pinned job the planner can only choose the policy's model and variant for the pool. |
| `ModelPolicy.PermittedMeaning` | scripts/dispatch_workflow.py:593-606 | An assignment passes the later check exactly if its job is unknown, or the pool is one of the job's and the model the policy's. |
| `ModelPolicy.NothingToEnforce` | scripts/dispatch_workflow.py:593-606 | The two gates agree: assignments that model selection makes for pinned jobs are never violations. |
| `PolicyRound.RoundIsPicked` | scripts/dynamic_dispatch_planner.py:1494-1496 | Every choice of a round is the one that model selection makes for its job and pool, on a pool the job may use. |
| `PolicyRound.AssignmentIsPlanned` | scripts/dynamic_dispatch_planner.py:1700-1724 | Every assignment of a planning round for a job with a list of pools is one that model selection makes on a pool of that list. |
| `PolicyRound.RoundNeedsNoEnforcement` | scripts/dispatch_workflow.py:784-839 | Under a named policy a planning round has nothing to enforce, whatever the pools, hosts, quotas and catalogues are. |
| `PolicyRound.RoundFollowsPolicy` | scripts/dispatch_workflow.py:784-839 | Under a named policy every kept assignment of a round has the policy's pool and model. |
| `PolicyRound.ListAssignments` | scripts/dynamic_dispatch_planner.py:1700-1724 | The loop lists one assignment for each choice, with the model of its row. |
| `PolicyRound.BuildReport` | scripts/dispatch_workflow.py:771-840 | End to end: a conflict stops before planning; tasks that need a pilot run are held back; otherwise the round is a whole round on the released tasks with pinned requests, or nothing is planned if the planner raises; the kept assignments follow the policy, and with distinct job ids all of them are kept and nothing is paused. |
| `PolicyRound.HoldPilots` | scripts/dispatch_workflow.py:641-677 | The loop releases exactly the tasks that need no pilot run, in order, and holds the others: each task once. |
| `PolicyRound.PinThenHold` | scripts/dispatch_workflow.py:783-791 | Pinning all jobs and then holding some back gives the planner what pinning the released ones would. |
| `PolicyRound.ReportFollowsPolicy` | scripts/dispatch_workflow.py:784-839 | Under a named policy, whatever is held back and whether or not the planner comes through, what a report keeps follows the policy, and with distinct job ids nothing is taken away. |
| `ModelPolicy.SurvivorsFollowThePolicy` | scripts/dispatch_workflow.py:583-629 | Whatever the plan, a surviving assignment of a known job is one of the policy's pairs of pool and model. |
| `ModelPolicy.EnforceModelPolicy` | scripts/dispatch_workflow.py:583-629 | The loop keeps the permitted assignments, reports the others with what was allowed, and pauses exactly if there are others. |
| `ModelPolicy.EnforcementIsAPartition` | scripts/dispatch_workflow.py:596-629 | Kept and violating assignments together are the planner's assignments, each once. |
| `ModelPolicy.PinAgain` | scripts/dispatch_workflow.py:177-236 | Pinning a pinned job finds no conflict and changes nothing. |
| `SupervisorSafety.SubmitsAtMostOnce` | scripts/durable_controller.py:541-610 | With a run root, over any run of commands, faults, crashes and restarts, the scheduler is asked at most once per segment, each time right after an intent was stored. |
| `SupervisorSafety.SubmittedIntentHasReceipt` | scripts/durable_controller.py:406-414 | At every point of every run, an intent on disk marked submitted has its receipt on disk. |
| `SupervisorPace.RolloversKeepTheirDistance` | scripts/durable_controller.py:699-762 | Over any run in which segments start fresh, k rollovers of a process after the first take at least k times the segment less the guard, and the last is clear of the planned end. |
| `SupervisorPace.RunsStartFresh` | scripts/durable_controller.py:416-442 | Segments start fresh in every run whose clock does not go back, whose ticks do not run ahead of it, and whose run controller backdates none. |
| `SupervisorPace.TicksAheadBreakPace` | scripts/durable_controller.py:736-746 | Without a bound on the times that ticks are given the distance is never sure: for all settings there is a run with a steady clock and nothing backdated whose second rollover goes by an earlier time than its first. |
| `SupervisorPace.AheadRun` | scripts/durable_controller.py:736-755 | That run, from empty files: a process resumes a segment and is ticked twice with times ahead of the clock. |
| `SupervisorPace.TickRollsOver` | scripts/durable_controller.py:736-772 | What a tick leaves behind that finds the segment due, away from the planned end, if all calls are answered: the successor starts at the clock, not at the time of the tick. |
| `SegmentHistory.DistanceMeaning` | scripts/durable_controller.py:744-762 | Exactly which start of a successor keeps the next rollover at its distance whenever it comes: one no earlier than the last rollover, unless the planned end leaves no next one. |
| `SupervisorSafety.SubmitsOnceMeaning` | scripts/durable_controller.py:276-280 | Exactly when no run, with any faults, crashes and restarts, submits a segment twice: there is a run root, or no way to submit. |
| `SupervisorSafety.TwiceIsARun` | scripts/durable_controller.py:589-600 | Without a run root, from empty files: a boot and two submissions with a client that raises call the scheduler twice for one segment. |
| `SupervisorSafety.RunKeeps` | scripts/durable_controller.py:161-790 | Every point of every run satisfies the invariant: lawful history, files and memory that match it. |
| `SupervisorSafety.SubmitActiveKeeps` | scripts/durable_controller.py:546-610 | What each result of a submission means: which files were written in which order and whether the scheduler was called. |
| `SupervisorSafety.SubmitKeeps` | scripts/durable_controller.py:541-546 | Submitting opens a segment only if none is active and never changes the active one. |
| `SupervisorSafety.ReconcileThroughKeeps` | scripts/durable_controller.py:612-632 | Reconciling only records: it never submits, loses no receipt, and changes only receipts that were open, to terminal ones. |
| `SupervisorSafety.SubmitFreshKeeps` | scripts/durable_controller.py:576-610 | A fresh submission writes its intent, calls, and then writes the receipt or the note of a lost answer, as far as its result says. |
| `SupervisorSafety.RecoverKeeps` | scripts/durable_controller.py:558-574 | An open intent is settled by asking, or left alone; the scheduler is not asked to submit. |
| `SupervisorSafety.PersistKeeps` | scripts/durable_controller.py:406-414 | A receipt is on disk before its intent is marked submitted. |
| `SupervisorSafety.CheckpointAndRollKeeps` | scripts/durable_controller.py:699-734 | A rollover flushes, closes and only then opens; a blocked checkpoint leaves the segment active and the history as it was. |
| `SupervisorSafety.TickActiveKeeps` | scripts/durable_controller.py:744-772 | By the time it is given or else by the clock, a tick continues exactly if the deadline is more than the guard away, and a reported rollover is in the history as due, flushed, closed, rolling, opened. |
| `SupervisorSafety.StopKeeps` | scripts/durable_controller.py:781-790 | Stopping flushes and closes the active segment or is blocked with everything as it was. |
| `SupervisorSafety.BootKeeps` | scripts/durable_controller.py:282-399 | A restart that reads the files back keeps the invariant, whatever identity it has and whichever segment it resumes. |
| `SegmentHistory.AtMostOnce` | scripts/durable_controller.py:576-593 | In a lawful history no two scheduler calls are for the same segment. |
| `SegmentHistory.SubmitIsAnnounced` | scripts/durable_controller.py:576-593 | Every scheduler call directly follows the storing of its intent. |
| `SegmentHistory.ReceiptEndsSubmission` | scripts/durable_controller.py:547-556 | Once a receipt is stored its segment is never submitted again. |
| `SegmentHistory.HandOff` | scripts/durable_controller.py:699-734 | Between the openings of a segment and a successor lies the flush and then the closing of the first. |
| `SegmentHistory.RolloverGap` | scripts/durable_controller.py:744-762 | If segments start fresh, two rollovers of one process are at least a segment less the guard apart. |
| `SegmentHistory.RolloverRate` | scripts/durable_controller.py:744-762 | The same summed over any number of rollovers. |
| `SegmentHistory.RolloverIsClear` | scripts/durable_controller.py:716-724 | A rollover goes by the time of its tick, and that is more than the guard away from the planned end. |
| `SegmentHistory.OpeningIsClear` | scripts/durable_controller.py:716-724 | Exactly when the successor also opens clear of the planned end: reconciling, flushing and closing took less time than the tick saw left before the guard. |
| `SupervisorPace.OpensClearMeaning` | scripts/durable_controller.py:706-724 | Exactly for which settings every rollover of every run opens clear of the planned end: those without one. |
| `DurableController.Supervisor.SubmitSegment` | scripts/durable_controller.py:541-610 | Submitting, as a method on the fields and files, does what the step function says. |
| `DurableController.Supervisor.SubmitCurrent` | scripts/durable_controller.py:541-587 | Memory, receipt file, open intent, dry run and fresh submission are tried in that order. |
| `DurableController.Supervisor.SubmitNew` | scripts/durable_controller.py:576-610 | A fresh submission as it runs. |
| `DurableController.Supervisor.RecoverIntent` | scripts/durable_controller.py:558-574 | Recovery of an open intent as it runs. |
| `DurableController.Supervisor.PersistReceipt` | scripts/durable_controller.py:406-414 | Memory first, then the receipt file, then the intent file. |
| `DurableController.Supervisor.OpenSegment` | scripts/durable_controller.py:416-442 | A segment is opened with the next free sequence, at the scheduler's start time if it gives one. |
| `DurableController.Supervisor.ReconcileAll` | scripts/durable_controller.py:612-632 | The loop over the known submissions in order of sequence. |
| `DurableController.Supervisor.Flush` | scripts/durable_controller.py:634-679 | Checkpointing the active segment; anything but a clean answer blocks. |
| `DurableController.Supervisor.FinishSegment` | scripts/durable_controller.py:681-697 | Finishing the active segment. |
| `DurableController.Supervisor.Roll` | scripts/durable_controller.py:699-734 | Flush, close, planned end, open, submit. |
| `DurableController.Supervisor.Monitor` | scripts/durable_controller.py:736-772 | A tick as it runs, by the time it is given or else by the clock. |
| `DurableController.Supervisor.Begin` | scripts/durable_controller.py:774-779 | Starting as it runs. |
| `DurableController.Supervisor.Halt` | scripts/durable_controller.py:781-790 | Stopping as it runs. |
| `DurableController.Supervisor.Restart` | scripts/durable_controller.py:172-225 | A new process with the files it finds: it starts exactly if the records agree, never with a record of another run or with a foreign digest of its own type, and with nothing on disk always otherwise. |
| `DurableController.Supervisor.Drive` | scripts/durable_controller.py:161-790 | Any commands in any order, across crashes and restarts: with a run root, or no way to submit, the history holds no two scheduler calls for one segment. |
| `DurableController.Supervisor.Obey` | scripts/durable_controller.py:161-790 | One command on the object keeps the invariant and does what the step function of that command says. |
| `SupervisorSpec.RecoverableMeansOurs` | scripts/durable_controller.py:342-365 | A process can start only if no record names another run or is of the own type with another digest, and with nothing on disk that is enough. |
| `DurableController.LoadReceipts` | scripts/durable_controller.py:282-396 | The loop over what is remembered and what is on disk succeeds exactly if no record is foreign and no two records of a segment differ in a lasting field, and merges them, the disk winning. |
| `DurableRunLoop.RunLoop` | scripts/durable_run_loop.py:256-314 | The loop ends at the first turn that gives a reason and reports on exactly that turn. |
| `DurableRunLoop.LoopBound` | scripts/durable_run_loop.py:256-306 | With M ticks and E errors allowed, no run sleeps more than M times E times. |
| `DurableRunLoop.LoopBoundIsTight` | scripts/durable_run_loop.py:256-306 | A supervisor that fails just often enough makes it sleep M times E times. |
| `DurableRunLoop.BudgetSpent` | scripts/durable_run_loop.py:256-306 | Each sleep uses up part of the budget of ticks with errors between them. |
| `DurableRunLoop.OkMeansFinished` | scripts/durable_run_loop.py:308-323 | Success is reported exactly for a finished supervisor whose last tick was logged and whose stop did not raise. |
| `ContinuityGate.GateMeaning` | scripts/continuity_controller.py:1354-1437 | With artifacts observed, a job completes exactly after a clean run with the validator agreeing where there is one or one is required, and artifacts that exist, are non-empty, hashed and changed, or accepted as existing with a passing validator. |
| `ContinuityGate.GateWithoutFacts` | scripts/continuity_controller.py:1389-1392 | Without observed artifacts the return code decides; this is so exactly if none are expected or the SSH host is unknown. |
| `ContinuityGate.WalkMeaning` | scripts/continuity_controller.py:1286-1464 | The walk stops at the first attempt that completes or may not be followed; all before it failed with a class that allows going on. |
| `ContinuityGate.ResourceRuleMeaning` | scripts/continuity_controller.py:268-281 | A resource stop leads only to an SSH attempt exactly if it is the last attempt, the next one is an SSH one, or its fallbacks do not name resource and no SSH attempt is left. |
| `ContinuityGate.ResourceRotatesLocally` | scripts/continuity_controller.py:268-281 | A local attempt before another local one and an SSH one rotates to the local one. |
| `ContinuityState.AnyInterleavingIsSafe` | scripts/continuity_controller.py:1273-1648 | Over any interleaving of enqueueing, runs, crashes and resumes no attempt list is begun twice, ids stay distinct and the completed jobs are closed under dependencies. |
| `ContinuityState.AnyInterleavingProgresses` | scripts/continuity_controller.py:1273-1648 | Between any two points nothing returns to the queue, nothing completed is lost and no job disappears. |
| `ContinuityState.RunJobKeeps` | scripts/continuity_controller.py:1273-1464 | Running a job touches no other, begins it once, and settles it as its walk decides, or leaves it running if the process died. |
| `ContinuityState.EnqueueKeeps` | scripts/continuity_controller.py:1499-1511 | Enqueueing keeps the invariant and everything already there. |
| `ContinuityState.ResumeKeeps` | scripts/continuity_controller.py:1623-1648 | Resuming keeps the invariant and returns nothing to the queue. |
| `ContinuityState.QuiescentMeansStuck` | scripts/continuity_controller.py:1530-1547 | With acyclic dependencies on enqueued jobs, when nothing is runnable every waiting job reaches one that is neither waiting nor completed. |
| `ContinuityState.StarvationChain` | scripts/continuity_controller.py:1530-1547 | Without acyclicity it reaches such a job or heads dependency chains of waiting jobs of every length. |
| `ContinuityState.CyclesStarve` | scripts/continuity_controller.py:1532-1539 | Two jobs that wait for each other starve with nothing stuck. |
| `ContinuityState.MissingJobsStarve` | scripts/continuity_controller.py:1532-1539 | A job that waits for one never enqueued starves with nothing stuck. |
| `ContinuityController.Controller.EnqueueJob` | scripts/continuity_controller.py:1492-1514 | Enqueueing as it runs; a repeated or empty id is refused. |
| `ContinuityController.Controller.RunOne` | scripts/continuity_controller.py:1273-1464 | The loop over the attempts does what the specification says, also when the process dies at any save. |
| `ContinuityController.Controller.ResumeAll` | scripts/continuity_controller.py:1617-1648 | The loop over the jobs marks exactly the uncompleted ones with all artifacts for review. |
| `ContinuityController.Controller.RunLoop` | scripts/continuity_controller.py:1523-1569 | At most one call per waiting job if all have attempts; watched that long it is still busy exactly if it spins on a job without attempts; and if every run it makes succeeds, a queue of waiting and completed jobs with acyclic, enqueued dependencies ends completed. |
| `ContinuityController.RoundKeeps` | scripts/continuity_controller.py:1528-1556 | One round keeps the file sound, changes nothing if it spins, and otherwise settles one waiting job if the process outlives it. |
| `ContinuityController.Controller.Turn` | scripts/continuity_controller.py:1528-1569 | One turn of the loop: reload, run the first runnable job, and the end it brings, if it does. |
| `ContinuityController.Controller.RunRounds` | scripts/continuity_controller.py:1528-1569 | The loop leaves the file that its rounds lead to, and ends as they say. |
| `ContinuityController.LoopMeaning` | scripts/continuity_controller.py:1528-1569 | What each way to end means for the number of calls, for spinning, and for success. |
| `ContinuityEndless.MayNeverEndMeaning` | scripts/continuity_controller.py:1277-1279 | Exactly which queues the loop may never finish: those with a waiting job without attempts all of whose dependencies, all the way down, are completed or waiting. |
| `ContinuityEndless.HopefulQueueMeaning` | scripts/continuity_controller.py:1528-1569 | In a queue of waiting and completed jobs with acyclic dependencies on enqueued jobs, that is any waiting job without attempts. |
| `ContinuityEndless.EndlessNeedsReach` | scripts/continuity_controller.py:1277-1279 | Whatever the processes and validators answer, a loop that never ends has come to a job without attempts that was in reach from the start. |
| `ContinuityEndless.AllInReach` | scripts/continuity_controller.py:1528-1569 | Whatever is runnable or newly completed after any number of rounds was in reach at the start, that many steps down. |
| `ContinuityEndless.SmoothNeverStops` | scripts/continuity_controller.py:1528-1569 | If every process exits cleanly and every validator agrees, the loop cannot come to rest before a job without attempts that is in reach. |
| `ContinuityController.RoundsSettleJobs` | scripts/continuity_controller.py:1528-1556 | Until it spins, each round that the process outlives settles one waiting job. |
| `ContinuityController.SuccessCompletesAll` | scripts/continuity_controller.py:1528-1569 | If every run the loop makes succeeds, nothing is left to run only when everything is completed, given acyclic dependencies on enqueued jobs. |
| `CheckpointReceipt.RelativePathIdempotent` | scripts/checkpoint_receipt.py:113-119 | A normalised path is its own normal form exactly if it has a component; otherwise it is refused. |
| `CheckpointReceipt.ManifestNormalises` | scripts/checkpoint_receipt.py:122-147 | A normalised manifest normalises to itself exactly if every path has a component. |
| `CheckpointReceipt.RoundTrip` | scripts/checkpoint_receipt.py:306-343 | A receipt built from a payload validates exactly if every artifact path has a component. |
| `CheckpointReceipt.TamperingIsNoticed` | scripts/checkpoint_receipt.py:341-343 | With an injective digest a receipt changed anywhere but in its digest no longer validates. |
| `CheckpointReceipt.LatestIsNewest` | scripts/checkpoint_receipt.py:227-239 | Below 10^20 the last name of the listing is the largest sequence. |
| `CheckpointReceipt.FirstWrite` | scripts/checkpoint_receipt.py:173-194 | The first receipt may have any positive sequence and has no predecessor. |
| `CheckpointReceipt.WriteExtendsChain` | scripts/checkpoint_receipt.py:274-303 | A write adds exactly the next receipt, linked to the newest one; the branch for an existing equal receipt is never taken. |
| `CheckpointReceipt.WriteKeepsChain` | scripts/checkpoint_receipt.py:274-303 | Every successful write below 10^20 keeps the directory empty or one chain. |
| `CheckpointReceipt.WritesFormChain` | scripts/checkpoint_receipt.py:274-303 | After any sequence of writes the directory is empty or one contiguous chain of valid receipts, each linked to the one before. |
| `CheckpointReceipt.HeadFixesChain` | scripts/checkpoint_receipt.py:186-194 | With an injective digest the newest digest determines all receipts back to the first. |
| `CheckpointReceipt.NamelessArtifactBlocks` | scripts/checkpoint_receipt.py:116-119 | On an empty directory or on a chain, an artifact path without a component is accepted once and then blocks the directory. |
| `CheckpointReceipt.LimitStopsChain` | scripts/checkpoint_receipt.py:228-231 | A chain begun below 10^20 that reaches it never grows again. |
| `CheckpointReceipt.ExplicitReplayIsRefused` | scripts/checkpoint_receipt.py:277-279 | A payload with a sequence already written is refused. |
| `CheckpointReceipt.ImplicitReplayAppends` | scripts/checkpoint_receipt.py:277-279 | An accepted payload without a sequence, sent again, is appended again exactly if it names no predecessor or the newest receipt, and is refused otherwise. |
| `CheckpointNames.FileNameOrder` | scripts/checkpoint_receipt.py:293 | Below 10^20 file names sort like their sequences. |
| `CheckpointNames.OrderBreaksAtLimit` | scripts/checkpoint_receipt.py:293 | The name for 10^20 sorts before the name for 10^20 - 1. |
| `CheckpointDirectory.ArtifactManifest` | scripts/checkpoint_receipt.py:122-147 | The loop over the artifacts normalises all or stops at the first bad one. |
| `CheckpointDirectory.AttemptDirectory.LastListed` | scripts/checkpoint_receipt.py:227-239 | The last name of the sorted listing. |
| `CheckpointDirectory.AttemptDirectory.WriteCheckpoint` | scripts/checkpoint_receipt.py:274-303 | The write as it runs, including the refusals, which change nothing. |
| `StorageWalkSpec.ScanIsBounded` | scripts/local_storage_pressure.py:36-98 | At most the allowed entries are visited, bytes never exceed the true total, and the list is the first ten of all counted files in full order. |
| `StorageWalkSpec.CountedFilesAreThere` | scripts/local_storage_pressure.py:45-80 | No file is counted twice or invented, and a complete scan has the ten largest of all files it can meet. |
| `StorageWalkSpec.CompleteScanIsExact` | scripts/local_storage_pressure.py:87-91 | A scan reported complete has the true total exactly if nothing lies in directories or entries that cannot be read. |
| `StorageWalkSpec.UnreadableDirectoriesGoUnnoticed` | scripts/local_storage_pressure.py:48-51 | An unreadable directory with a file in it is reported as a complete scan of zero bytes. |
| `StorageWalkSpec.TakeInsert` | scripts/local_storage_pressure.py:78-80 | Cutting the list to ten after every file loses nothing against sorting once at the end. |
| `StorageWalk.Walker.Visit` | scripts/local_storage_pressure.py:45-80 | The recursive visit with its counters does what the specification says. |
| `StorageWalk.Walker.Keep` | scripts/local_storage_pressure.py:78-80 | Adding a file to the sorted list and cutting it to ten. |
| `HumanAnnotations.ValidateEntries` | scripts/benchmark_holdout.py:536-588 | The pass over the entries returns the canonical list or the first flaw. |
| `HumanAnnotations.CoverageCheckNeverFires` | scripts/benchmark_holdout.py:586-587 | The final coverage check cannot fail; a list is accepted exactly if it has as many entries as ids, distinct, each fitting the packet. |
| `HumanAnnotations.CanonicalMeaning` | scripts/benchmark_holdout.py:536-588 | The accepted list is the given entries in packet order and nothing else. |
| `HumanAnnotations.OrderDoesNotMatter` | scripts/benchmark_holdout.py:588 | A permutation of accepted entries is accepted with the same result. |
| `HumanAnnotations.BuildVerifies` | scripts/benchmark_holdout.py:591-653 | Every annotation that can be built verifies. |
| `HumanAnnotations.BuildIgnoresOrder` | scripts/benchmark_holdout.py:591-653 | A permutation of the entries builds the same annotation. |
| `HumanAnnotations.VerifyMeaning` | scripts/benchmark_holdout.py:685-741 | An annotation verifies exactly if its labels build it, but for the stated source of the annotator, and its digest matches. |
| `HumanAnnotations.SourceIsNotChecked` | scripts/benchmark_holdout.py:685-702 | With any other stated source and a fresh digest it verifies too. |

## Left out

- Scoring weights, role preferences, host fit, quota cost and resource estimates, and which host runs a pool's agent: they are given as functions and values, and the candidate table is built from them.
- Parsing of pool, host and job records, and Python's conversions of values of unexpected types; a name is text where a name is expected.
- Rounding of binary floating point: scores, costs and balances are exact reals.
- The role label a chosen model carries, which only appears in reports.
- ModelPolicy.NothingToEnforce: asks for distinct job ids, because the later check looks jobs up by id and finds the last one.
- ModelApproval.OpencodeIsApproved: white space is ASCII white space, where the source also strips other Unicode spaces.
- The reserve bound for pools whose balance is not reported: they are run on a pilot budget and never projected.
- SupervisorPace.RolloversKeepTheirDistance: covers the rollovers of one process, because a restart may resume a segment with an earlier start, and asks that segments start fresh, because a run controller may report any start and a tick may be given any time.
- SupervisorPace.TicksAheadBreakPace: asks that the guard is no longer than a segment, which the supervisor checks when it is made.
- A time given to a tick that does not parse, which raises before anything is noted.
- ModelPolicy.ApplyModelPolicy: reports the conflicts of a job as a set, because the order of its overrides is not modelled.
- The supervisor's settings are the same in every process of a run; only its identity and the segment it resumes may change.
- Two supervisors on one run root at the same time, and files that are unreadable or put there by others.
- Progress of submissions whose answer was lost: reconciling walks the receipts, so an intent without one waits until its segment is submitted again.
- A supervisor whose start raises, which ends the run loop before its first turn.
- Heartbeat threads, signals, log files and event reports of the supervisor and of the run loop; a tick that cannot be logged is one of the answers, a limit record that cannot be is not.
- Idle polling rounds of the queue controller: the lease is held, so they change nothing.
- Launching processes, SSH, publishing and validators of an attempt: their results are given per attempt.
- Timestamps, JSON text and SHA-256; fsync and temporary files of an atomic write.
- HumanAnnotations.VerifyMeaning: an annotation has exactly the required fields and the verdict on the blind packet is given; Python's equality of 1, 1.0 and True is not modelled.
- A storage root that is missing or not a directory, and a root that cannot be listed.
- The estimates behind the pilot gate: which tasks need a pilot run first is given.
- The holdout manifest and the blind packet, the SQLite store, the PBS bridge, the probes, the monitors and the report formats: field checks, plain folds or I/O.
