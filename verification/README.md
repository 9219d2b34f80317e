# StackMigrate: a verified model of the migration run

StackMigrate migrates a code base by running a graph of nodes over one shared state: it extracts
semantic units from source files, plans one task per target file, generates code for the ready tasks in
parallel waves, tests the result in a sandbox, blames and retries tasks when the tests fail, and after
a human approves publishes a pull request. This project models that run as one state machine and proves
what its docstrings claim about whole runs. Everything outside (extractor, code generator, test runner
and what it leaves on disk, error analyzer, approving human, publisher, clock) answers through an
unconstrained oracle: every theorem quantifies over all answers.

## Files

- `ordered_dict.dfy`, `text.dfy`, `paths.dfy`: insertion-ordered dictionaries, slugs, path algebra.
- `planning.dfy`, `synthesis.dfy`, `front_end.dfy`: units, ids, references, the task plan.
- `budget.dfy`, `scheduling.dfy`, `error_analysis.dfy`, `diffs.dfy`, `workspace.dfy`: the parts of a run,
  as functions with their properties and as the imperative code proved against them.
- `machine.dfy`: the graph. `Step` is one node with its outgoing edge; a wave is a set of branches that
  complete in any order, one completion a step. `Exec` runs a list of answers.
- `shape.dfy`, `termination.dfy`, `attempts.dfy`, `dependencies.dfy`, `publication.dfy`, `rounds.dfy`,
  `books.dfy`, `charges.dfy`, `waves.dfy`, `retries.dfy`: invariants and theorems over every run.
- `progress.dfy`: runs that can end well do, and there are such runs.
- `confluence.dfy`, `run_confluence.dfy`: the order of branch completions does not matter.
- `decisions.dfy`: concurrent approve and reject requests around a paused run.
- `graph_run.dfy`: the run as a mutable object whose node methods update its fields, its budget object
  and its workspace; each method is proved to be the machine's step. Aggregation, gate, publisher and
  abort read like the machine's cases there; branch, sandbox, analysis and the loops do not.
- `small_plans.dfy`, `witnesses.dfy`: runs from the start in which the program does what its comments
  exclude.

Money and time are real numbers. Costs are not negative, the default call reserve is positive, the
clock does not run backwards, and a run starts with no tasks, results, draft or approval. One run takes
its answers in order; the two clock readings of the router are separate answers.

## Where the code and its documentation disagree

The model follows the code.

- An unsafe path is announced as a hard stop (`app/graph/nodes/sandbox_test.py:43-45`), but the router
  looks only at the stored suite result, so analysis follows and may send the task back to the editors.
  `Retries.RefusalRetriedExactly` says exactly when it can, from what is known at the visit, and
  `Witnesses.RefusalIsRetried` is a run in which it does. Nothing unsafe is ever tested or shipped
  afterwards (`Publication.PoisonedRunsNeverShip`).
- The worst overshoot is documented as one call (`app/graph/state/budget.py:70-72`). A wave whose calls
  cost at most some amount is sure to stay within one such call exactly when all of its calls but one fit
  in what remains (`Budgeting.OneCallOvershoot`); a wave sized by a guessed reserve need not
  (`Witnesses.OvershootCanExceedOneCall`). The bound that always holds is `Books.CostCeiling`.
- The cap on LLM calls is not used to size waves. A wave is sure to keep it exactly when it is no larger
  than the number of calls left (`Waves.CallCapExactly`); `Books.CallCeiling` bounds the excess by one task
  less than the plan has, and the run of `Witnesses.CallCapReached` has that excess.
- A run can end while its phase says EDITING: exactly when its last step is an empty dispatch, or an
  analysis whose answer asks for a retry the code grants (`Retries.EditingAtEnd`); such an answer can come
  at a visit exactly when `Retries.EditingEndExactly` says;
  `Witnesses.EndsWhileEditing` and `Witnesses.DispatchCanBeEmpty` are such runs.
- A comprehension without units sets FAILED, but every such run then ends, three steps later, as
  NEEDS_HUMAN (`Rounds.NoUnitsNeedHuman`).
- A name shared by several units is announced as an ambiguity
  (`app/graph/nodes/comprehension.py:157-158`) but resolves to the first without a record, and a unit that
  is the first with the name it references itself is recorded as not found.
  `Comprehending.RecordedExactly` says exactly what is recorded; `Comprehending.SharedNameIsNotRecorded` and
  `Comprehending.SelfNameIsRecorded` are inputs.
- The single-wave note of `app/graph/routing.py:5-18` is stale: the same router re-enters after every wave.

## Model

| member | source | states |
|---|---|---|
| Publication.TestedEqualsShipped | app/graph/nodes/sandbox_test.py:31-67 | In every run that calls the publisher, the files it is given are the effective files of the last runner call, that call passed, every path is publishable and inside the workspace, and when the runner started the workspace held each of them with its content and no other file any attempt ever wrote, whatever earlier runs of the suite left there. |
| Publication.PublishedOnceAndApproved | app/graph/routing.py:109-122 | In every run at most one call of the publisher and one decision, and no call without a repository; that call ends the run, follows a passed suite, and with a repository and `requireApproval` the one decision is an object whose "approved" is exactly true. A run without either is never at the gate and nobody decides. |
| Publication.ShippedFilesMayShip | app/vcs/paths.py:21-35 | No run ever hands the publisher a file that may not ship: each is relative, inside the workspace under its own segments, of allowed characters, outside .git and .github in any case, and none of the protected files. |
| Publication.DefencesNeverFire | app/graph/nodes/aggregate.py:80-87 | In every reachable state: no sandbox visit starts with a stored pass, aggregation has files, the gate and the publisher have a draft, the publisher has the approval it needs; so the defensive branches are unreachable. |
| Publication.PoisonedRunsNeverShip | app/graph/nodes/sandbox_test.py:39-49 | Once any attempt has emitted a path the guard refuses, whatever happens next the runner is never called again, the run never gets past the sandbox and the publisher is never called. |
| Termination.RunsAreShort | app/graph/build.py:112-155 | Every legal run, for every outside, has at most 9 + 64 steps a task; the bound uses only the per-task retry cap. |
| Termination.StepBurnsFuel | app/graph/nodes/editor.py:59-90 | After planning every step lowers a measure built from each task's remaining attempts. |
| GraphRun.AlwaysAnswerable | app/graph/build.py:112-155 | No state but the end is stuck. |
| GraphRun.Run.Invoke | app/worker/tasks.py:74-88 | Driving the mutable run with any answering outside always stops, paused at the gate or ended, in the state the machine gives for the answers used. |
| GraphRun.Run.Advance | app/graph/build.py:99-155 | One node of the mutable run with its outgoing edge is one step of the machine. |
| GraphRun.Run.EditorBranch | app/graph/nodes/editor.py:51-90 | Taking the branch out of the wave, its three outcomes written out, and the merging by the reducers together are the machine's branch step. |
| GraphRun.Run.SandboxNode | app/graph/nodes/sandbox_test.py:27-68 | Deleting, writing and running in place is the machine's sandbox step. |
| GraphRun.Run.AnalysisNode | app/graph/nodes/error_analysis.py:96-183 | The analysis update merged into the run is the machine's analysis step, the budget charged in place. |
| GraphRun.Run.Decide | app/api/app.py:196-207 | For a run that exists, under the lock: 409 and no effect unless the run is paused at the gate; otherwise 200, the decision recorded, the run ended, and the publisher called with the effective files exactly when the request approved. |
| Attempts.AttemptLedger | app/graph/nodes/editor.py:66-90 | In every reachable state the status and retry count of each task fix how many generator calls were made for it (PENDING none, RETRYING as many as its retries, SUCCEEDED one more), never more than its cap plus one, and none for anything that is not a task. |
| Attempts.NobodyGivesUpEarly | app/graph/nodes/editor.py:70-73 | Before the first analysis a task needs a human only after exactly its cap plus one attempts, all failed. |
| Attempts.SucceededHasCode | app/graph/nodes/error_analysis.py:106-109 | In every run a SUCCEEDED task has a stored result and the latest is what the generator answered last, so the filter of analysis never drops one. |
| Dependencies.DependenciesFirst | app/graph/routing.py:39-55 | In every run, whenever a branch of any wave generates code, all its dependencies have SUCCEEDED at that moment and their latest code is stored. |
| Dependencies.WaitingIsBlocked | app/graph/build.py:124-131 | When a run is at the sandbox or analysis, each task still waiting has a dependency path through waiting tasks to one that is NEEDS_HUMAN or SKIPPED, or to a cycle. |
| Scheduling.IdleMeansBlocked | app/graph/routing.py:39-63 | On an acyclic plan with nothing ready every waiting task has a path to a NEEDS_HUMAN or SKIPPED task. |
| Scheduling.IdleMeansStuck | app/graph/routing.py:39-63 | The same on any plan, the path ending at such a task or closing a cycle. |
| Scheduling.ReadyHas | app/graph/routing.py:48-55 | The scheduler finds exactly the waiting tasks whose dependencies have all SUCCEEDED. |
| Scheduling.ReadyInOrder | app/graph/routing.py:48-55 | It keeps them in list order. |
| Scheduling.GetReadyTasks | app/graph/routing.py:39-55 | The loop over the status dictionary computes the ready tasks. |
| Scheduling.RouteExact | app/graph/routing.py:58-87 | The wave is the affordable prefix of the ready tasks; it is empty exactly when the wall clock passes its limit between the router's two readings. |
| Scheduling.MergeInPlace | app/graph/state/graph_state.py:40-50 | Merging updates of known tasks keeps ids and order, and each task becomes the last update naming it. |
| Scheduling.MergeTaskLists | app/graph/state/graph_state.py:40-50 | The two dictionary loops compute the merge. |
| RunConfluence.OrderDoesNotMatter | app/graph/state/graph_state.py:40-50 | Whoever writes what, reordering the completions inside any number of waves of any run is again a run and ends with the same tasks, budget, calls, phase, node, workspace, decisions and latest results, and the same paths drafted, tested (at the same locations) and given to the publisher; when different tasks write different files the contents are the same too. |
| RunConfluence.Diamond | app/graph/nodes/editor.py:66-90 | Two completions of one wave commute up to the order of the appended lists, for any writers. |
| RunConfluence.SimilarStep | app/graph/build.py:99-155 | States equal up to list order, and up to contents two tasks both write, step alike on every answer; with separate writers the contents stay equal too. |
| Confluence.EffectiveByTask | app/graph/diffs.py:27-46 | With separate writers a file is effective exactly when it is the last one for its path in the latest result of a SUCCEEDED task. |
| Confluence.EffectivePathsSame | app/graph/diffs.py:40-52 | The effective paths and the stale paths do not depend on the order of the results. |
| Confluence.EffectiveSame | app/graph/diffs.py:40-46 | With separate writers neither do the effective contents. |
| Confluence.PreparePlaces | app/sandbox/workspace.py:41-84 | Whatever the order of the results, preparing is refused alike with the same workspace left, and otherwise fills the same locations and spares the same files. |
| Confluence.PrepareSame | app/sandbox/workspace.py:41-84 | With separate writers it leaves the same workspace, even where one task writes one location twice. |
| Charges.SpentIsCharged | app/graph/nodes/budget_reconcile.py:18-26 | In every run, outside a wave, the spend and the call count are the sum and the number of the calls charged in the answers: extraction passes, branches that returned code, analyses that had something to blame; skipped ones charge nothing. |
| Books.FoldedExactlyOnce | app/graph/nodes/budget_reconcile.py:18-26 | In every run, outside a wave, every recorded delta is consumed, the spend is the comprehension cost plus every delta and every analysis cost, and the call count is the number of those entries. |
| Waves.CallCapExactly | app/graph/routing.py:70-74 | At a wave just dispatched in any run, the cap on calls is kept however the branches come out if and only if the wave is no larger than the number of calls left. |
| Books.CallCeiling | app/graph/routing.py:70-74 | Recorded calls never exceed the cap by more than the number of tasks less one. |
| Waves.ObservationBeatsGuess | app/graph/state/budget.py:60-78 | In every run, whenever several branches are in flight, each at the cost of any call folded or charged to analysis so far they are within the money left; as long as no such call cost anything, each at the default cost. |
| Books.CostCeiling | app/graph/state/budget.py:66-78 | When every call costs between low (which may be zero) and high and the default reserve is at least low, the recorded spend outside a wave exceeds the ceiling by at most one call or tasks * (high - low) plus the slack. |
| Books.ExhaustionIsFinal | app/graph/routing.py:70-73 | Once the budget is exhausted outside a wave, no model is ever called again: no generator, extractor or analyzer, not even by a call that would fail. |
| Budgeting.AffordableIsLargest | app/graph/state/budget.py:66-78 | The wave size is the largest number of calls up to the wanted one whose reserves fit in what remains plus the slack, or one; zero exactly when nothing is wanted or the budget is exhausted. |
| Budgeting.WaveInMoney | app/graph/state/budget.py:66-78 | Once a call has been observed, a wave of several calls is the largest, up to the number wanted, whose calls at the largest observed cost are within the money left plus a billionth of a dollar; before that, at the default cost. |
| Budgeting.OneCallOvershoot | app/graph/state/budget.py:66-78 | A wave is sure to end at most one call over the ceiling, whatever its calls record up to a bound, if and only if all but one call at that bound fit in what remains. |
| Budgeting.WaveOvershoot | app/graph/state/budget.py:66-78 | Whatever the calls of a wave record, each up to a bound, the spend afterwards is over the ceiling by at most one call or the part of its calls beyond their reserves plus the slack. |
| Budgeting.WaveWithinReserve | app/graph/state/budget.py:66-78 | When its calls cost no more than the reserve, the recorded spend after a wave is over by at most one call or the slack. |
| Budgeting.RecordAllPermuted | app/graph/nodes/budget_reconcile.py:23-24 | The books do not depend on the order in which branches reported. |
| Budgeting.RecordAllTotals | app/graph/state/budget.py:60-64 | Recording a list adds its sum and its length, and the largest call cost is the old one or one of the list, at least each of them. |
| Budgeting.Budget.RecordCall | app/graph/state/budget.py:60-64 | The in-place update of the three counters, everything else unchanged. |
| Budgeting.BudgetReconcile | app/graph/nodes/budget_reconcile.py:18-26 | The loop records each delta after the consume index once and moves the index to the end. |
| Rounds.RoundCap | app/graph/nodes/error_analysis.py:102-104 | The runner is called at most as often as configured in any run: five times when nothing or zero is configured, and once at least. |
| Rounds.CapEndsRun | app/graph/nodes/error_analysis.py:102-156 | An analysis at or past the configured round always ends the run: demoting SUCCEEDED tasks can make nothing ready. |
| Rounds.RunsEnd | app/graph/build.py:133-155 | Every finished run ended in one of four ways, with what the phase then means: after a pass (DONE published or a dry run, REJECTED not approved, FAILED publisher called and failed, or unpublishable), aborted with no waiting task, an empty dispatch, or nothing ready after analysis. |
| Retries.EditingAtEnd | app/graph/nodes/error_analysis.py:158-159 | A run ends while its phase says EDITING if and only if its last step is an empty dispatch after planning or reconciliation, or an analysis whose answer asks for some retry the code grants: of a SUCCEEDED task with code, below its cap, round cap not hit, budget not exhausted. |
| Retries.EditingEndExactly | app/graph/nodes/error_analysis.py:102-159 | In every run some answer of the analyzer ends the run at this visit while its phase says EDITING if and only if a suite result is stored, the round cap is not hit, the budget is not exhausted, and some SUCCEEDED task with code is below its cap. |
| Retries.AskedInVain | app/graph/build.py:143-145 | When an analysis ends the run with tasks sentenced to RETRYING, each of them has a dependency that is not SUCCEEDED after the merge. |
| Retries.RetryExactly | app/graph/build.py:140-145 | In every run some answers make an analysis send work back to the editors if and only if a suite result is stored, the round cap is not hit, money, calls and time are left for it, and some SUCCEEDED task below its cap has all dependencies SUCCEEDED. |
| Rounds.NoUnitsNeedHuman | app/graph/nodes/comprehension.py:229 | A comprehension that is not skipped and finds no units sets FAILED; every run then ends three steps later as NEEDS_HUMAN, runner and publisher never called. |
| Rounds.SpentAtStart | app/graph/routing.py:104-106 | A run whose money, calls or time are used up before it starts is over after two steps, ABORTED_BUDGET, no model, runner or publisher ever called. |
| Rounds.BlockedIsFinal | app/graph/routing.py:39-47 | NEEDS_HUMAN and SKIPPED never change again. |
| Retries.RefusalRetriedExactly | app/graph/nodes/sandbox_test.py:42-49 | In every run a refused sandbox visit can be followed by a dispatch to the editors if and only if, at the visit, a suite result of an earlier visit is stored, the round cap is not hit, money, calls and time are left, and some SUCCEEDED task below its cap has all dependencies SUCCEEDED. |
| Rounds.RefusalIsAnalysed | app/graph/nodes/sandbox_test.py:42-49 | A refused workspace goes to analysis, which overwrites the FAILED phase, calls the analyzer exactly when an earlier suite result is stored and the budget is not exhausted, and charges the call exactly when it is answered. |
| ErrorAnalysing.AnalysisExact | app/graph/nodes/error_analysis.py:106-156 | The merged updates give every task its sentence: only SUCCEEDED tasks with code are touched, all escalated without budget or answer, otherwise the last analysis naming the task decides; duplicate and invented ids included. |
| ErrorAnalysing.AnalysisEffect | app/graph/nodes/error_analysis.py:106-156 | A task is left alone, sent to a human, or, below both caps, retried with its count raised by one. |
| ErrorAnalysing.SuspectsOnly | app/graph/nodes/error_analysis.py:106-109 | Analysis changes only SUCCEEDED tasks some stored result is for, and none without a suite result. |
| ErrorAnalysing.CollectVerdicts | app/graph/nodes/error_analysis.py:142-156 | The loop over the analyses computes the list of verdicts. |
| ErrorAnalysing.ErrorAnalysisNode | app/graph/nodes/error_analysis.py:96-183 | The node's update and its direct charge to the budget object, in all its exits. |
| Diffs.EffectiveResultsExact | app/graph/diffs.py:27-37 | A result is effective exactly when it is the latest of its task and the task has SUCCEEDED. |
| Diffs.EffectiveDiffsExact | app/graph/diffs.py:40-46 | Effective paths are distinct; a path is effective exactly when an effective result emits it, and each file comes from one. |
| Diffs.ComputeEffectiveDiffs | app/graph/diffs.py:40-46 | The dictionary loops compute the effective files. |
| Diffs.LatestResultsByTask | app/graph/diffs.py:27-31 | So does the loop for the latest results. |
| Workspaces.PreparedMirrors | app/graph/nodes/sandbox_test.py:39-41 | After preparing, the workspace mirrors the effective files among all ever written exactly when those naming one location agree on its content. |
| Workspaces.PrepareSparesTheRest | app/sandbox/workspace.py:41-84 | Preparing, refused or not, leaves every location no attempt ever wrote as it was. |
| Workspaces.PoisonRefuses | app/graph/diffs.py:49-52 | One refused path ever emitted refuses every later preparation, since it is effective or stale. |
| Workspaces.Workspace.RemovePaths | app/sandbox/workspace.py:41-54 | Refused exactly when some path is unsafe, and then nothing changes; otherwise exactly those files are gone and the ones that existed are reported. |
| Workspaces.Workspace.ApplyDiffs | app/sandbox/workspace.py:57-84 | Refused exactly when some path is unsafe, and then nothing changes; otherwise all files are written in order. |
| Paths.GuardsAgree | app/sandbox/workspace.py:25-38 | For any absolute root string but the top, the string prefix test of the guard accepts the same paths and names the same places as containment of segments. |
| Paths.GuardAtTop | app/sandbox/workspace.py:25-38 | With the top as root it accepts exactly the relative paths that lead back to the top. |
| Paths.GuardExactly | app/sandbox/workspace.py:25-38 | Read from its end, a path is some steps up and then plain segments; the guard accepts exactly the relative paths whose segments walk back into what the steps left of the root, and this is where they lead. |
| Paths.StepUpRefused | app/sandbox/workspace.py:25-38 | "../" followed by plain segments is refused unless the first of them is the last segment of the root (or the root is the top). |
| Paths.BackAndForth | app/sandbox/workspace.py:29-38 | Going into a directory and back by "..", anywhere in a path, changes neither whether it is accepted nor where it leads. |
| Paths.PublishableResolves | app/vcs/paths.py:21-35 | A publishable path resolves to the root followed by exactly its own segments. |
| Paths.PublishableInjective | app/vcs/paths.py:21-35 | Two publishable paths never name one location. |
| Paths.PublishableExactly | app/vcs/paths.py:21-35 | A path is publishable if and only if it is not empty, relative, without backslash and of allowed characters (a newline at the very end passes), has no empty, "." or ".." segment, none that is .git or .github in any case, and its last is neither .gitmodules nor .gitattributes in any case. |
| Paths.ReasonIsTrue | app/vcs/paths.py:21-35 | The reason given for a refused path is true of it. |
| Decisions.PublicationIsSafe | app/api/app.py:186-207 | For any number of requests and any interleaving with the worker: at most one call of the publisher, at most one request resumes the run and only it is answered 200, and with a repository and `requireApproval` the publisher is called only if that request approved. |
| Decisions.DecidedByTheHolder | app/api/app.py:186-201 | A run behind the gate has exactly one decision: the answer and feedback of the request that resumed it. |
| Decisions.AnsweredMeansSettled | app/api/app.py:203-207 | When a request has been answered 200 the run is over, and the publisher was called if and only if that request approved. |
| Decisions.FirstHolderDecides | app/api/app.py:191-201 | A lock holder resumes the run exactly when it finds it paused, and is then the first to do so; otherwise it gets 404 or 409. |
| Decisions.FirstDecisionStands | app/api/app.py:191-201 | Once some request has resumed the run no other ever does, and every other request still open can only be answered 409. |
| Decisions.InterleavingsAreRuns | app/api/app.py:186-207 | What worker and requests do to the run in any interleaving is a legal run, so every theorem about runs holds for it. |
| FrontEnd.PlanFromSources | app/graph/nodes/synthesis.py:36-73 | For any files and extractor answers: unit ids are unique, dependencies name other units, and the plan is fresh, closed and the quotient of the units by target path. |
| FrontEnd.PlanIsKept | app/graph/state/graph_state.py:40-50 | In every run the task list stays the plan: no task is lost, duplicated or merged with another, only statuses and retry counts change. |
| FrontEnd.FourAttemptsAtMost | app/graph/state/tasks.py:39 | In every run no id is generated more than four times, a planned task being retried three times at most. |
| Synthesising.PlanIsQuotient | app/graph/nodes/synthesis.py:41-71 | For any injective adapter: paths are distinct, a task holds exactly the units of its path, and one task depends on another exactly when they differ and a unit of the first depends on a unit of the second. |
| Synthesising.PlanIsFresh | app/graph/nodes/synthesis.py:52-71 | Unique task ids, nothing started, dependencies only on other planned tasks. |
| Synthesising.RunSynthesis | app/graph/nodes/synthesis.py:36-73 | The grouping and planning loops compute the plan. |
| FastApiLayout.TaskIdInjective | app/adapters/fastapi_target/synthesis_adapter.py:72-94 | Two adapter paths with one task id are the same path, so merging by id never collapses two tasks. |
| FastApiLayout.RouterOfController | app/adapters/fastapi_target/synthesis_adapter.py:83-93 | All endpoints of a controller share one router file, named by the slug of its source file without directory, extension and "Controller", or "router". |
| FastApiLayout.FileOfUnit | app/adapters/fastapi_target/synthesis_adapter.py:21-29 | Every other unit goes to the file of its own slug in the directory of its kind. |
| FastApiLayout.KindsApart | app/adapters/fastapi_target/synthesis_adapter.py:72-76 | Units of different kinds never share a file. |
| FastApiLayout.TaskIdSpelled | app/graph/nodes/synthesis.py:49 | A task id is "task::" and the words of its path with underscores between them. |
| Comprehending.UnitsAreExtracted | app/graph/nodes/comprehension.py:130-154 | One unit for every unit found in the files that were paid for, in order, with its file, kind and payload, and their cost. |
| Comprehending.ReadsUntilSpent | app/graph/nodes/comprehension.py:130-136 | The files read are the shortest prefix that uses up the money, or all. |
| Comprehending.CollectOvershoot | app/graph/nodes/comprehension.py:130-148 | Extraction overshoots what remains by less than one call. |
| Comprehending.UnitsWellFormed | app/graph/nodes/comprehension.py:152-188 | Unit ids are unique and every dependency names another produced unit. |
| Comprehending.NoReferenceLost | app/graph/nodes/comprehension.py:166-176 | Every non-empty name a unit references is a dependency on another unit of that name or a recorded ambiguity. |
| Comprehending.ReferencesAccounted | app/graph/nodes/comprehension.py:166-176 | Both lists contain exactly those, and nothing else. |
| Comprehending.DependenciesExactly | app/graph/nodes/comprehension.py:74-98 | For any files and extractor answers: a unit depends on another exactly when a field of its payload (called services, request or response model, dependencies, target model, relationship tokens) names it and it is the first unit so called, up to case. |
| Comprehending.AmbiguitiesExactly | app/graph/nodes/comprehension.py:166-176 | A name is recorded for a unit exactly when a field of its payload names it, it is not empty, and no unit is called so or the unit itself is the first that is. |
| Comprehending.AmbiguitiesOfUnits | app/graph/nodes/comprehension.py:166-176 | Nothing is recorded for anything but a produced unit. |
| Comprehending.RecordedExactly | app/graph/nodes/comprehension.py:157-176 | A reference is recorded as not found exactly when it is not empty and no unit has the name, or the referencing unit is the first that has it. |
| Comprehending.SharedNameIsNotRecorded | app/graph/nodes/comprehension.py:157-163 | An input in which two units share a referenced name and nothing is recorded. |
| Comprehending.SelfNameIsRecorded | app/graph/nodes/comprehension.py:169-176 | An input in which a unit that names itself is recorded as naming something not found. |
| Comprehending.AssignId | app/graph/nodes/comprehension.py:63-71 | Ends for every finite set of used ids with a fresh id: the base when free, else the base with the least free suffix from 2. |
| Comprehending.BaseInjective | app/graph/nodes/comprehension.py:63-64 | Base ids are equal exactly when kind and slug are. |
| Comprehending.BaseSpelled | app/graph/nodes/comprehension.py:63-64 | A base id is the kind, two colons and the one-pass slug. |
| Comprehending.RunComprehension | app/graph/nodes/comprehension.py:101-197 | The passes over files, names and units compute the comprehension result. |
| Text.SlugNormalForm | app/core/text.py:8-12 | A slug is lower-case alphanumeric groups joined by single underscores, and keeps exactly the letters and digits of the name in order. |
| Text.SlugExactly | app/core/text.py:8-12 | The three rewritings are one pass: the letters and digits in lower case, with one underscore before each that does not come first and is a capital or has something else before it. |
| Text.LowerExactly | app/core/text.py:8-12 | Lower-casing gives a string without capitals exactly when the two are equal but for capitals, 32 places apart. |
| Text.SlugIdempotent | app/core/text.py:8-12 | Taking the slug twice changes nothing. |
| Progress.GoodRunsSucceed | app/graph/build.py:112-155 | With an acyclic plan that is not empty, a call for the extraction and each task, money for all of it but the last call, and an outside that always succeeds, in time while a task waits, every run that is over ended DONE with every task SUCCEEDED and one publication (none without a repository). |
| Progress.GoodRunsExist | app/graph/build.py:112-155 | And for every such configuration and set of source files there is such a run. |
| Witnesses.SomeRunPublishes | app/graph/nodes/pr_publish.py:40-66 | A configuration and a run from the start that publishes. |
| Witnesses.RefusalIsRetried | app/graph/nodes/sandbox_test.py:42-49 | A run from the start whose second sandbox visit is refused and which is back at the editors two answers later. |
| Witnesses.OvershootCanExceedOneCall | app/graph/state/budget.py:70-72 | A run from the start whose only wave, sized by the guessed reserve, is folded with a spend over the ceiling by more than any of its calls. |
| Witnesses.CallCapReached | app/graph/routing.py:70-74 | A run from the start whose recorded calls are the cap plus the number of tasks less one, above the cap. |
| Witnesses.DispatchCanBeEmpty | app/graph/routing.py:70-74 | A run from the start that ends right after planning, EDITING, because time ran out between the two readings. |
| Witnesses.EndsWhileEditing | app/graph/nodes/error_analysis.py:158-159 | A run from the start that ends, EDITING, after an analysis that escalates a task and retries its dependent. |

## Left out

- LangGraph itself: every branch of a wave finishes, updates are merged one completion at a time, and the joining node runs once; its recursion limit and the replay of an interrupted node are not modelled, and the worker's interrupt at the gate changes nothing even when a request has already resumed the run.
- LLM clients, prompts, token prices, extraction adapters and Spring file discovery: calls are answers with a cost, or failures.
- The Docker runner, output parsing, cloning and scaffolding: the runner is a verdict and an arbitrary workspace afterwards.
- GitHub, Celery, Postgres, checkpoint serialisation, HTTP, authentication, logging: no property of the run depends on them.
- GraphRun.Run.Decide: does not model the 404 answer, because the object it belongs to is a run that exists; `Decisions.FirstHolderDecides` has it.
- The lock table of several runs or several API processes: one run with its one in-process lock.
- Symbolic links, directories, a file where a directory is needed, a path that resolves to the root itself, relative roots, and OS errors: the workspace is a flat map from lexically normalised locations to contents.
- Floating-point rounding: real numbers, with the 1e-9 slack as written.
- Unicode: lower-casing and slugs treat ASCII letters only, and the word characters of the publishable check are a parameter.
- Capitalised-token search in relationship texts: a data model carries the tokens found.
- Sorted lists of dependencies and stale paths: sets, since no node depends on their order.
- Pull request texts, log entries (among them which ceiling exhausted the budget), instructions and review feedback other than in the resume value.
- State read back as plain dictionaries, and the unused error analyses field.
- Approval status strings: a boolean, absent before a decision.
