# AnthillPro migrator core, modelled in Dafny

This project models the core of the AnthillPro migration library. It covers three pieces:

- **JobLayout** (`job_layout.dfy`) turns a workflow's levelled job graph into two outputs. One is the flat list of jobs that the migration executes, depth by depth. The other is a list of "parallel groups", each a fixed-width array of stacks, filled by `ParallelGroup.push` and its "most empty stack" scan. For jobs spanning one row that scan deals the jobs of a group round-robin over its stacks, so a depth wider than the group wraps back to stack 0 (`PushAllDeals`, `LaterDepthContinuesRoundRobin`).
- **Migration** (`migration.dfy`) is the engine:
  - the status constants and the `setWorkflowId`, `setError` and `close` transitions;
  - the progress percentage;
  - `run()`: its READY guard, the traversal over workflow, jobs and steps, the swallowing of `SkipException` at step and job level, the job counter, and the catch chain that turns any exception into the recorded `MigrateException` (`errors.dfy`).
- **DefaultLoader** (`default_loader.dfy`) covers three methods:
  - `loadWorkflowClass` and `loadJobClass`, which both return null;
  - `loadStepClass`, which checks the legacy package prefix, rewrites the name with Java's replace-every-occurrence `String.replace`, appends `Migrate`, and loads the class.

`run()` is a pure function from an engine state and a *script* to the new state plus a *trace*. The script says what each collaborator does:
- whether the workflow lookup finds the workflow, finds nothing, or throws;
- what each hook load and each `preRun`, `postRun` or step `run` call does.

The trace lists the calls made, in order. This lets the model state which hooks are called, in what order, and which exception ends the run.

Where the code and its documentation disagree, the model follows the code:
- `getProgress` is documented as returning 1 to 100. It returns 0 before any job is counted (`ProgressStartsAtZero`).
- Every job is not necessarily placed in a parallel group:
  - a graph whose first depth is empty opens a group of width 0, and pushes into it are dropped (`DropInWidthZeroGroup`);
  - the execution order (`getAllJobs`) still lists every job.

## Model

Source paths are under `src/main/java/net/epicforce/migrate/ahp/`, written out in full below.

| member | source | states |
|---|---|---|
| JobLayout.NewGroup | src/main/java/net/epicforce/migrate/ahp/context/JobLayout.java:180-187 | a new group has exactly the requested width and every stack is empty |
| JobLayout.Entry | src/main/java/net/epicforce/migrate/ahp/context/JobLayout.java:209-214 | a push appends the job followed by height-1 null padding slots, at least one slot in all |
| JobLayout.Target | src/main/java/net/epicforce/migrate/ahp/context/JobLayout.java:202-206 | the scan from the right stops at the largest index that is 0 or whose left neighbour is strictly longer; no index to its right qualifies |
| JobLayout.Push | src/main/java/net/epicforce/migrate/ahp/context/JobLayout.java:196-219 | width is kept; a width-0 group is unchanged; the chosen stack keeps its old contents, gains the job then only padding, and every other stack is untouched |
| JobLayout.PushPicksLeftmostShortest | src/main/java/net/epicforce/migrate/ahp/context/JobLayout.java:189-219 | with non-increasing stack lengths push picks a shortest stack, the leftmost one, so the "most empty stack" promise holds |
| JobLayout.PushKeepsBalance | src/main/java/net/epicforce/migrate/ahp/context/JobLayout.java:196-219 | pushing a one-row job keeps stack lengths non-increasing from left to right |
| JobLayout.PushAllAddsJobs | src/main/java/net/epicforce/migrate/ahp/context/JobLayout.java:121-131 | pushing a depth's vertices into a group of positive width adds exactly their jobs to the group's contents, as a multiset |
| JobLayout.FreshGroupFillsLeftToRight | src/main/java/net/epicforce/migrate/ahp/context/JobLayout.java:180-219 | up to n one-row jobs pushed into a fresh width-n group land one per stack, the j-th job on stack j |
| JobLayout.SingleStackAppends | src/main/java/net/epicforce/migrate/ahp/context/JobLayout.java:202-217 | in a width-1 group every push lands on stack 0, so one-row jobs are stacked there in order |
| JobLayout.Build | src/main/java/net/epicforce/migrate/ahp/context/JobLayout.java:69-79 | a null definition yields no groups and no jobs |
| JobLayout.OpeningsCharacterized | src/main/java/net/epicforce/migrate/ahp/context/JobLayout.java:100-108 | a depth opens a group exactly when it is the first depth or its first vertex is joining; the openings are increasing and start at the first depth |
| JobLayout.GroupsFollowOpenings | src/main/java/net/epicforce/migrate/ahp/context/JobLayout.java:100-136 | there is one group per opening depth, no groups exactly when the graph has no depths, and each group's width is the vertex count of the depth that opened it |
| JobLayout.AllJobsInDepthOrder | src/main/java/net/epicforce/migrate/ahp/context/JobLayout.java:91-131 | getAllJobs is every vertex's job, depth after depth and in vertex order within a depth; its length is the vertex count, and a job is listed iff some vertex carries it |
| JobLayout.GroupsHoldEveryJob | src/main/java/net/epicforce/migrate/ahp/context/JobLayout.java:91-136 | when the first depth is not empty, the groups' non-padding slots hold exactly the listed jobs (the same multiset), so their number is the vertex count |
| JobLayout.DropInWidthZeroGroup | src/main/java/net/epicforce/migrate/ahp/context/JobLayout.java:101-131 | an empty first depth opens a width-0 group; a later job is listed for execution but lands in no stack |
| JobLayout.PushAllKeepsStacks | src/main/java/net/epicforce/migrate/ahp/context/JobLayout.java:121-131 | pushing a depth only appends: every stack still starts with everything it held |
| JobLayout.PushAllDeals | src/main/java/net/epicforce/migrate/ahp/context/JobLayout.java:196-219 | from stacks that are level except that the first m are one longer, pushing one-row jobs deals them round-robin from stack m, wrapping from the last stack to stack 0, and leaves the stacks in that shape with the next stack due |
| JobLayout.LaterDepthContinuesRoundRobin | src/main/java/net/epicforce/migrate/ahp/context/JobLayout.java:91-136 | two depths of one-row jobs, the second not joining, give one group as wide as the first depth that holds the jobs of both depths dealt round-robin from stack 0, so extra jobs of a wider second depth wrap around; the job list is the first depth's jobs, then the second's |
| JobLayout.OverflowWrapsAround | src/main/java/net/epicforce/migrate/ahp/context/JobLayout.java:196-219 | the depths [a, b] then [c, d, e] give the stacks [a, c, e] and [b, d] |
| JobLayout.TwoDepthScan | src/main/java/net/epicforce/migrate/ahp/context/JobLayout.java:91-136 | a second depth that does not join is pushed into the group the first depth opened, and that group is the only one |
| JobLayout.JoiningDepthOpensOwnGroup | src/main/java/net/epicforce/migrate/ahp/context/JobLayout.java:100-131 | a later depth whose first vertex joins leaves the earlier groups as they were and adds one group of its own width holding exactly its pushes |
| JobLayout.PlainDepthJoinsLastGroup | src/main/java/net/epicforce/migrate/ahp/context/JobLayout.java:100-131 | a later depth whose first vertex does not join adds no group: the earlier groups are unchanged and the open one receives exactly its pushes |
| JobLayout.ScanJobs | src/main/java/net/epicforce/migrate/ahp/context/JobLayout.java:91-132 | the depth loop lists every depth's jobs, depth after depth, each in vertex order |
| JobLayout.VisitKeepsGroupsMatch | src/main/java/net/epicforce/migrate/ahp/context/JobLayout.java:100-131 | one iteration of the depth loop closes the open group and opens one as wide as the depth exactly at a first or joining depth, and otherwise keeps pushing into the open group |
| JobLayout.ScanGroups | src/main/java/net/epicforce/migrate/ahp/context/JobLayout.java:91-132 | after the depth loop a group is open iff some depth was visited, and the groups are one per opening depth, each as wide as that depth |
| JobLayout.VisitKeepsContentsMatch | src/main/java/net/epicforce/migrate/ahp/context/JobLayout.java:100-131 | one iteration of the depth loop adds exactly its depth's jobs both to the job list and to the groups' stacks |
| JobLayout.ScanContents | src/main/java/net/epicforce/migrate/ahp/context/JobLayout.java:91-132 | with a non-empty first depth, every group has positive width and the groups hold the same multiset of jobs as the list built so far |
| JobLayout.SingleDepthLayout | src/main/java/net/epicforce/migrate/ahp/context/JobLayout.java:69-139 | one depth of one-row jobs gives one group with a stack per job and the jobs in order |
| JobLayout.ScanFrom | src/main/java/net/epicforce/migrate/ahp/context/JobLayout.java:202-206 | the backward scan returns an index at or left of its start that satisfies the stop condition, with none satisfying it between |
| JobLayout.ScanStopsAtStep | src/main/java/net/epicforce/migrate/ahp/context/JobLayout.java:202-206 | with non-increasing lengths every stack between the chosen one and the scan start has the same length |
| DefaultLoader.LoadWorkflowClass | src/main/java/net/epicforce/migrate/ahp/loader/DefaultLoader.java:28-32 | the default loader supplies no workflow hook |
| DefaultLoader.LoadJobClass | src/main/java/net/epicforce/migrate/ahp/loader/DefaultLoader.java:34-38 | the default loader supplies no job hook |
| DefaultLoader.StepClassName | src/main/java/net/epicforce/migrate/ahp/loader/DefaultLoader.java:43-60 | it fails exactly for names outside the legacy package, with that exact UnsupportedClassException text; otherwise the name begins with the default migrator package and ends in "Migrate" |
| DefaultLoader.StepClassNameSinglePrefix | src/main/java/net/epicforce/migrate/ahp/loader/DefaultLoader.java:56-59 | when the legacy package occurs only at the start, the class name is the default package, then the rest of the step name, then "Migrate" |
| DefaultLoader.ReplaceAllWithoutTarget | src/main/java/net/epicforce/migrate/ahp/loader/DefaultLoader.java:56-59 | replace leaves a string without any occurrence of the target unchanged |
| DefaultLoader.ReplaceAll | src/main/java/net/epicforce/migrate/ahp/loader/DefaultLoader.java:56-59 | the result is as long as the input when target and replacement are equally long, never shorter when the replacement is longer, and never longer when it is shorter |
| DefaultLoader.ReplaceAllFirstOccurrence | src/main/java/net/epicforce/migrate/ahp/loader/DefaultLoader.java:56-59 | the first occurrence of the target, wherever it is, is replaced, the text before it is kept, and the scan resumes right after it, so later occurrences are replaced in turn |
| DefaultLoader.StepClassNameSecondOccurrence | src/main/java/net/epicforce/migrate/ahp/loader/DefaultLoader.java:43-60 | a step name holding the legacy package a second time has both occurrences rewritten to the default package before "Migrate" is appended |
| DefaultLoader.ReplaceAllOnlyAtStart | src/main/java/net/epicforce/migrate/ahp/loader/DefaultLoader.java:56-59 | with a single leading occurrence the result is the replacement followed by the rest of the string |
| DefaultLoader.ReplaceAllKeepsLeadingReplacement | src/main/java/net/epicforce/migrate/ahp/loader/DefaultLoader.java:56-59 | a string starting with the target yields a result starting with the replacement, whatever later occurrences exist |
| DefaultLoader.LoadClass | src/main/java/net/epicforce/migrate/ahp/loader/AbstractLoader.java:89-102 | loading succeeds iff the class exists and yields that class; otherwise an UnsupportedClassException "Unsupported class: " + name |
| DefaultLoader.LoadStepClass | src/main/java/net/epicforce/migrate/ahp/loader/DefaultLoader.java:43-61 | a foreign name fails before any lookup; success iff the name is in the legacy package and the rewritten class exists, yielding that class; every failure is an UnsupportedClassException |
| Errors.Wrap | src/main/java/net/epicforce/migrate/ahp/exception/MigrateException.java:17-20 | the two-argument constructor's message is the given text, ": ", and the cause's message ("null" when it has none) |
| Errors.Classify | src/main/java/net/epicforce/migrate/ahp/Migration.java:654-681 | run()'s catch chain: a MigrateException, skip included, is kept; an authorization failure and only it (besides a ConnectException) becomes a ConnectException; persistence and step-config failures get the persistence text; anything else gets the "General error"/"General Error" text; the authorization and persistence/step-config messages are exactly the prefix, ": " and the cause's message ("null" when it has none), so the recorded text carries a doubled ": " |
| MigrationEngine.StatusOf | src/main/java/net/epicforce/migrate/ahp/Migration.java:114-119 | the status codes 0,1,2,3,4,-1 are distinct and each decodes back to its status |
| MigrationEngine.SetWorkflowId | src/main/java/net/epicforce/migrate/ahp/Migration.java:193-200 | the id is always stored; only a non-null id given while NEED_SETUP makes the engine READY; nothing else changes |
| MigrationEngine.SetWorkflowIdsStatus | src/main/java/net/epicforce/migrate/ahp/Migration.java:193-200 | after any series of calls the engine is READY iff it was, or it needed setup and some call gave a non-null id; the last id wins |
| MigrationEngine.SetError | src/main/java/net/epicforce/migrate/ahp/Migration.java:182-186 | the error is recorded and the status is ERROR; nothing else changes |
| MigrationEngine.Close | src/main/java/net/epicforce/migrate/ahp/Migration.java:357-371 | the status becomes CLOSED; no other engine field changes |
| MigrationEngine.RoundPercent | src/main/java/net/epicforce/migrate/ahp/Migration.java:233-235 | the rounded percentage is the integer nearest to 100·done/total, halves rounding up |
| MigrationEngine.Progress | src/main/java/net/epicforce/migrate/ahp/Migration.java:223-243 | 100 iff terminal; otherwise 0..99: 0 with no job total, 99 exactly when at least 98.5% of the jobs are counted (the rounded value is 99 or more), else the rounded percentage |
| MigrationEngine.ProgressStartsAtZero | src/main/java/net/epicforce/migrate/ahp/Migration.java:217-243 | before any job is counted a live engine reports 0, below the documented range of 1 to 100 |
| MigrationEngine.ProgressMonotone | src/main/java/net/epicforce/migrate/ahp/Migration.java:223-243 | counting more jobs never lowers the progress |
| MigrationEngine.RunSteps | src/main/java/net/epicforce/migrate/ahp/Migration.java:612-631 | the step loop completes iff every step's class loads and its run returns or skips; then it loads and runs each step in order; otherwise it leaves with the first failing step's exception, having made the passing steps' calls, then that step's class load, then its run only if the load succeeded, and nothing after |
| MigrationEngine.JobBody | src/main/java/net/epicforce/migrate/ahp/Migration.java:605-637 | a job hook whose preRun throws ends the body with that exception and only preRun called; otherwise the first step that fails ends it with its exception, the calls being preRun (if there is a hook) and the step loop's calls up to that step, with no postRun; when every step passes, the hook's postRun is the last call and its exception, if any, ends the body; with no hook only the steps are called; every call belongs to job j |
| MigrationEngine.RunJob | src/main/java/net/epicforce/migrate/ahp/Migration.java:600-641 | each turn first loads the job hook, and a failed load escapes; past the load, an exception from the job's preRun, a failing step or postRun escapes the turn unless it is a SkipException, which finishes the turn normally; a turn whose preRun, steps and postRun all return finishes normally; past the load its calls are exactly the job body's calls (preRun, the step loop's calls, postRun) |
| MigrationEngine.JobLoop | src/main/java/net/epicforce/migrate/ahp/Migration.java:594-644 | the job loop counts the turns that finish, completes iff all do, and otherwise ends with the exception of the first turn that throws; its calls are the finished turns' calls in turn order, then the throwing turn's, and no later turn's |
| MigrationEngine.RunJobs | src/main/java/net/epicforce/migrate/ahp/Migration.java:590-644 | over the jobs in getAllJobs order: the count is the number of leading jobs that finish, all of them iff the loop completes; otherwise the next job's exception ends it; the calls are job 0's, job 1's, … up to the counted jobs, then those of the job that threw, if any |
| MigrationEngine.Traverse | src/main/java/net/epicforce/migrate/ahp/Migration.java:545-650 | the try block completes iff the session opens, the workflow is found, its hook loads, the hook's preRun and postRun return and every job finishes; a failed bind calls nothing more; each other exit carries the exception of the first collaborator that threw, or the missing-workflow error; a failed or empty lookup leaves the state as it was and calls only the lookup; a failed workflow class load or workflow preRun sets only the name, and the calls stop there; the job total is set only once the workflow preRun has returned, and the calls are then the lookup, the load, preRun, the job loop's calls and postRun only after a finished loop; only the name and the counters change |
| MigrationEngine.Run | src/main/java/net/epicforce/migrate/ahp/Migration.java:511-695 | not READY: ERROR with the "not in a ready state" or "already in use" text and no call made; from READY: SUCCESS iff the workflow is found, its hook (if any) runs preRun and postRun normally and every job finishes, ERROR otherwise; bind is the first call and unbind the last; a failed bind leaves only those two, and otherwise the workflow lookup follows bind; on SUCCESS the error is untouched, the job total is set, the counter advances by it and the workflow postRun is the last call before unbind; the id never changes; from READY the workflow name afterwards is the found workflow's name, on every outcome, and is untouched when the workflow was not found |
| MigrationEngine.RunCallsOnFailedLookup | src/main/java/net/epicforce/migrate/ahp/Migration.java:545-561 | a lookup that throws or finds no workflow leaves the calls bind, lookup, unbind |
| MigrationEngine.RunCallsOnFailedWorkflowLoad | src/main/java/net/epicforce/migrate/ahp/Migration.java:563-584 | a throwing loadWorkflowClass leaves the calls bind, lookup, load, unbind |
| MigrationEngine.RunCallsOnFailedWorkflowPreRun | src/main/java/net/epicforce/migrate/ahp/Migration.java:583-588 | a throwing workflow preRun leaves the calls bind, lookup, load, preRun, unbind: no job is loaded and postRun is not called |
| MigrationEngine.RunCallsThroughJobLoop | src/main/java/net/epicforce/migrate/ahp/Migration.java:583-650 | once the workflow preRun has returned, the calls are bind, lookup, load, preRun, the job loop's calls, postRun only if the loop finished, then unbind |
| MigrationEngine.EarlyErrorKeepsCounters | src/main/java/net/epicforce/migrate/ahp/Migration.java:545-590 | an ERROR raised before the job loop leaves the job total and the job counter unchanged; the workflow name changes only if the workflow was found |
| MigrationEngine.JobLoopStopsAtThrowingJob | src/main/java/net/epicforce/migrate/ahp/Migration.java:595-644 | every call of the job loop belongs to a counted job or to the job that threw: no later job is touched |
| MigrationEngine.RunReportsFirstException | src/main/java/net/epicforce/migrate/ahp/Migration.java:545-681 | from READY the recorded error is the classified exception of the first collaborator that threw: bind or the unit of work, the lookup, the workflow class load, the workflow preRun, the first job that throws, or the workflow postRun; a workflow that does not exist records "Workflow ID <id> does not exist!" |
| MigrationEngine.IdToString | src/main/java/net/epicforce/migrate/ahp/Migration.java:558-560 | a null id prints as "null"; otherwise as decimal digits denoting its magnitude, after a minus sign when it is negative, with no leading zero (0 prints as "0") |
| MigrationEngine.NatToDecimal | src/main/java/net/epicforce/migrate/ahp/Migration.java:558-560 | a non-negative number prints as at least one decimal digit, with no leading zero, denoting exactly that number |
| MigrationEngine.TerminalIsFinal | src/main/java/net/epicforce/migrate/ahp/Migration.java:511-533 | once SUCCESS, ERROR or CLOSED, setWorkflowId does not revive the engine, run() records "already in use" and calls nothing, and progress reads 100 |
| MigrationEngine.RunWithoutSetup | src/main/java/net/epicforce/migrate/ahp/Migration.java:513-521 | a fresh engine without a workflow id fails run() with the "not in a ready state" text and calls nothing |
| MigrationEngine.SkippedStepIsSwallowed | src/main/java/net/epicforce/migrate/ahp/Migration.java:625-630 | a SkipException from a step's run behaves exactly like a normal return: same calls, same outcome |
| MigrationEngine.SkippedJobPreRun | src/main/java/net/epicforce/migrate/ahp/Migration.java:605-641 | a SkipException from a job's preRun abandons its steps and postRun, yet the turn finishes normally |
| MigrationEngine.SkippedJobPostRun | src/main/java/net/epicforce/migrate/ahp/Migration.java:633-641 | a SkipException from a job's postRun after all steps pass is swallowed, and postRun is the turn's last call |
| MigrationEngine.FailingStepAbortsJob | src/main/java/net/epicforce/migrate/ahp/Migration.java:622-641 | the first step that fails to load, or throws something other than a skip, ends its job's turn with that exception |
| MigrationEngine.AbortedRunCountsFinishedJobs | src/main/java/net/epicforce/migrate/ahp/Migration.java:594-667 | when a job throws, the run ends in ERROR with that exception classified, and the counter advanced by exactly the jobs before it, all of which finished |
| MigrationEngine.WorkflowPreRunSkipIsError | src/main/java/net/epicforce/migrate/ahp/Migration.java:583-667 | a SkipException from the workflow's preRun is not swallowed: ERROR, before the job total is set or any job runs |
| MigrationEngine.WorkflowPostRunSkipIsError | src/main/java/net/epicforce/migrate/ahp/Migration.java:646-667 | a SkipException from the workflow's postRun ends the run in ERROR even though every job was counted |
| MigrationEngine.DefaultResolve | src/main/java/net/epicforce/migrate/ahp/Migration.java:622-624 | a step class resolves under the default loader iff its loadStepClass succeeds; otherwise it throws that UnsupportedClassException |
| MigrationEngine.DefaultJobsInOrder | src/main/java/net/epicforce/migrate/ahp/Migration.java:595-603 | every job the loop visits is a job of the graph, so each is presented by the default loader |
| MigrationEngine.UnhookedTraverse | src/main/java/net/epicforce/migrate/ahp/Migration.java:553-650 | with no workflow hook the run restores the workflow and, if found, loads the absent hook and then runs the jobs, calling nothing else |
| MigrationEngine.DefaultLoaderCallsNoHooks | src/main/java/net/epicforce/migrate/ahp/Migration.java:583-650 | with the default loader no workflow or job preRun/postRun is ever called |
| MigrationEngine.ForeignStepFailsJob | src/main/java/net/epicforce/migrate/ahp/loader/DefaultLoader.java:47-52 | under the default loader a job with a step outside the legacy package throws out of its turn |
| MigrationEngine.DefaultLoaderRejectsForeignStep | src/main/java/net/epicforce/migrate/ahp/loader/DefaultLoader.java:43-52 | a workflow with any step outside the legacy package never reaches SUCCESS under the default loader |

## Left out

- The constructors (Migration.java:263-339) are left out because they open the network connection to the server and set keystore system properties. The model starts from a constructed engine (`Initial`).
- `fetchWorkflowsForProjectName` (Migration.java:404-487) is outside the modelled core.
- Several session calls are not modelled:
  - `bind`, `unbind` and the unit of work of `run()` are reduced to `Bind`/`Unbind` trace events;
  - `close()`'s unbind and disconnect swallow every exception and touch no modelled field, so they are dropped: `Close` only changes the status;
  - a failure of `bind` or of opening the unit of work is the scripted `SessionFails` outcome, after which only `unbind` is called; a failure of the workflow lookup itself is `RestoreFails`;
  - an exception from `unbind` or `uow.close()` inside the `finally` block is not modelled.
- The context setters (`setWorkflow`, `setClient`, `setLayout`, `setCurrentJob`, `setCurrentStep`) only feed hooks. The hooks are scripted, so the context is not modelled.
- A null context or null loader (a NullPointerException caught as a general error) is not modelled: the engine is assumed configured.
- `java.lang.Error` thrown by a hook escapes `run()` in Java. Only `Exception`s are modelled.
- Logging and threading are left out.
- `decrypt` (the password helper) is not part of this model.
- MigrationEngine.RoundPercent: `Math.round` on a `double` quotient is modelled as exact half-up rounding, so floating-point rounding error is ignored.
- MigrationEngine.Run: `numSteps` and `migratedStepCount` are Java `int`s. They are modelled as unbounded naturals, so overflow past 2^31-1 jobs is not modelled.
- DefaultLoader.LoadClass: reflection (`Class.forName(...).newInstance()`) is replaced by a registry of known classes. The cause's message is taken to be the class name, as for `ClassNotFoundException`. Failures of constructors or access checks are not distinguished.
- DefaultLoader.ReplaceAll requires a non-empty target. The only target used is the non-empty legacy package, so Java's empty-target behaviour is not modelled.
- A step's `resolve` and `run` outcomes and each hook's outcomes are script data. What a real step or hook does is outside this model.
