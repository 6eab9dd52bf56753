# Nops: a model of its deployment protocol, and proofs about it

Nops deploys the Nomad jobs of git repositories. A detection loop compares git with the
live jobs and creates, supersedes and completes deployments in a SQLite store; an apply
loop drives each one from `detected` through its pre-hooks, the register in Nomad, the wait
for health and its post-hooks. People approve, reject, retry, pause and deploy now, others
edit and scale the live jobs, and a crash may fall between any two writes.

The project models that protocol as one transition system and proves its promises over all
runs: what was detected is what is registered, nothing runs before its approval, a hook is
dispatched at most once and in order, no deployment loop, no outside edit overwritten. The
engine's own code is then written as methods on objects that are updated in place, and each
is proved to end where steps of that system end. Beside it are the algorithms of the
access control, the lists, the sync windows, the login limit, the diffs, the tokens and the
printed commands.

| file | what it holds |
|---|---|
| `Options.dfy` | the optional value |
| `Nomad.dfy`, `Lawful.dfy` | jobs, the scaling counts copied from the live job; what is assumed of a plan, and a plan that meets it |
| `Store.dfy` | the rows, each store call as a function on them, and the audit log as the state |
| `Database.dfy` | the store as an object, its transactions in place |
| `ApplyTimeout.dfy` | the event the apply timeout counts from |
| `Decisions.dfy`, `Promises.dfy` | what blocks, holds, retries and reruns; what Retry and Deploy now offer |
| `Machine.dfy`, `Base.dfy` | the two loops, the people and the cluster as steps; what every run keeps |
| `Engine.dfy`, `RegisterSteps.dfy` | `reconcileJob` and `stepRegister` in place, Nomad's failures included, tied to the steps; exactly how a register step ends |
| `Hooks.dfy`, `HookRuns.dfy` | the hook runner and `stepHook` in place, and exactly how each run and each phase ends; at most once and in order, over all runs |
| `Births.dfy`, `Phases.dfy`, `Completion.dfy` | what a deployment is born with; that what a job declares to run before and after is run, over all runs |
| `AppliedDiff.dfy`, `RegisterOnce.dfy`, `Approval.dfy`, `Lineage.dfy`, `Lifts.dfy`, `Records.dfy` | theorems over all runs |
| `People.dfy` | what a person's step, a crash and the start of a step do, exactly |
| `Holds.dfy`, `Settles.dfy` | what a cycle read of all that a deployment is made of, and what it does with the one that waits, over all runs |
| `Ledger.dfy`, `NoLoop.dfy` | the events and races of a job over a run, and the bound on its deployments |
| `Beats.dfy`, `Consecutive.dfy` | the steps of a run as one job sees them; what comes between two of its deployments, and exactly when one is created that no event calls for |
| `Races.dfy` | three runs, one for each race |
| `Health.dfy`, `HealthSteps.dfy` | the verdicts of allocations and canaries; `stepHealth` in place, tied to the steps, and exactly how a step of it ends |
| `HookRev.dfy` | the hooks frozen with a deployment and their combined hash |
| `Acl.dfy`, `AclScope.dfy`, `ScopeSql.dfy` | the three forms of an ACL decision |
| `Pages.dfy`, `CursorText.dfy` | keyset pages over a list that changes |
| `SyncWindow.dfy`, `LoginLimit.dfy`, `Diff.dfy`, `DiffSummary.dfy`, `Tokens.dfy`, `NextPage.dfy` | the smaller algorithms |

## How the protocol is modelled

A store call is one step and a Nomad call is one step, so `Job` and `Plan` are separate
steps and others come between them. A step that is not enabled leaves the system as it is. A crash empties every local of
the process: the detection cycle, the copies the apply loop listed, the steps in flight. The
apply loop works on copies of rows it may have listed long before. An `Edit` puts any job in
place, a `Scale` moves only the counts of groups with a scaling block, and every change of a
job is at a higher index. What is assumed of Nomad's plan is the predicate `Nomad.Lawful`,
and `Lawful.PlainIsLawful` shows that a plan can meet it.

Most proofs over whole runs hide every definition (`hide *`), in their contracts too, and take
what they need of one from a named lemma (`...Is`): the solver then meets only the few facts a
step uses.

## What was found

- The no-loop promise, that a job in git gets a new deployment only for an event from outside, does not hold as it is stated. It fails by three races and no other way. A live job that changes between a cycle's read of it and its plan shows that cycle a diff of its own: scales alone, one in each cycle, deploy one spec twice (`Races.ScalesAloneDeployTwice`). The apply loop lists before it marks a deployment in flight, so a copy of one that has ended may still register, and the next cycle replaces the deployment that waits (`Races.StaleCopyDeploysAgain`, with a run of it from nothing in `Races.StaleCopyRun`). A create may be from a plan that was overtaken: since the cycle planned the job, it was registered (`Beats.RegistersAt`), or a deployment of it ended otherwise than by the cycle, completed, failed, timed out or rejected by a person (`Beats.EndsAt`). So a cycle that planned a job just before the register, and looks at the store just after that deployment completed, deploys the spec again with nothing happening outside at all (`Races.OvertakenCycleDeploysAgain`). In every run, between the cycles of two consecutive deployments of a job there is an event that the first did not see and the second did, or one of these three (`Consecutive.ConsecutiveCreates`); and what that event changes, git, a pause, the window, the live job or a retry, the second read after it and is made of (`Holds.SecondAnswers`). At the create itself the condition is exact: `Consecutive.UncalledCreateIff` without an event of git, a pause, a window or a retry, and `Consecutive.UntouchedCreateIff` without a race too.
- A retry with nothing to register records no diff, so a mere scale supersedes it while it waits (`Promises.SurvivesAScale`, an if-and-only-if), and Deploy now is not offered for it (`Promises.DeployNowableExactly`).
- `MoveAppliedIndex` accepts a move to zero, the index `SetApplied` refuses (`Lineage.LosesAppliedIndex`, `Lineage.MoveToZeroIsAllowed`); the engine never asks for one, because the index it follows is of a live job it read (`Lineage.EngineNeverZeroes`).
- The text `freezeHooks` hashes reads the same for two lists of hooks when an ID holds a newline (`HookRev.NewlineInAnIdCollides`). The combined hash still tells any two jobs apart, because the target's own spec declares the IDs (`HookRev.HashPinsWhatRuns`).
- Substituting the live counts twice is the same as once only when every count taken the first time is taken again (`Nomad.SubstituteComposes`, an if-and-only-if).
- `NextClose` says nothing of a window that does close, when more than 10000 windows run into each other before; its comment has it that only a window that never closes gets no answer (`SyncWindow.ClosesWithoutAnAnswer`; `SyncWindow.NextClose` has exactly when).
- Dropping the empty edits leaves a summary as it was only when no object dropped holds a field to count and no settled part had a place (`DiffSummary.DropKeepsTheSummaryIff`): a change below an object marked `None` below an empty edit goes with the edit (`DiffSummary.HiddenChangeIsLost`).
- The query of a revocation is not in its transaction. It logs as many tokens as it deletes exactly when every token found is still there when the transaction starts (`Tokens.LogsWhatGoes`); two revocations whose queries both come first do so together exactly when no token is of both (`Tokens.RacingRevocations`). Deleting the expired tokens first spares what was created only through one of them (`Tokens.PurgedFirst`).
- Two texts may name one cursor: a stamp is read as an instant, whatever zone it is written in, and only one of them is the text the list gives (`CursorText.TwoTextsOneCursor`).
- The command of the next page drops every set flag that is not one of the list, such as `-addr`, and turns `-warnings=false` into `-warnings` (`NextPage.SameFlagsIff`).

## Model

| member | source | states |
|---|---|---|
| `AppliedDiff.RegistersTheDetectedDiff` | internal/engine/apply.go:328-433 | in every run, whenever Nomad accepts a register for a deployment, the job registered is its spec with the live counts, the plan against the live job it replaces shows drift, and that plan is the diff recorded at detection; so nothing is registered for one that recorded none |
| `AppliedDiff.EveryCasIndexPins` | internal/engine/detect.go:698-709 | every cas index a deployment ever held, moves included, names a live job against which its spec plans to what was recorded, diff or none, for as long as the live job is at it |
| `AppliedDiff.SameDiffSameSpec` | internal/engine/detect.go:689-691 | a diff equal to the recorded one was planned with counts that make the same job: what allows the index to follow a scale though read and plan are two calls |
| `RegisterOnce.RegistersTwiceOnlyAfterAnEdit` | internal/engine/apply.go:352-433 | between two accepted registers of one deployment somebody edited its live job: no crash, retried step, stale copy or scale causes a second |
| `RegisterOnce.TornPlan` | internal/engine/apply.go:401-418 | a plan torn between two live jobs that both are as the spec wants, if it shows a diff at all, edits a count the spec leaves to the autoscaler, which no recorded diff does |
| `Births.PolicyIsGits` | internal/engine/detect.go:603-626 | in every run, the policy stored with a deployment is auto if and only if the job its spec hash covers has policy auto, and that job has a policy; it has a plan if and only if it has a diff, and lacks one only as a retry |
| `Births.BornAsItsPolicy` | internal/engine/detect.go:612-638 | in every run, a deployment is created waiting for approval if and only if its job is under approval, and detected if and only if it is auto, unless a hook its hash covers is missing or invalid, which is when it is created failed |
| `ApprovalSafety.StartedByOneApproval` | internal/engine/apply.go:830-869 | a deployment whose spec hash covers a job that is not auto, if it ever ran a hook phase or applied, has exactly one starting event, logged by a person approving it with its own spec hash |
| `ApprovalSafety.NothingBeforeApproval` | internal/engine/apply.go:155-198 | no register and no hook dispatch of such a deployment comes before that approval, in any run |
| `ApprovalSafety.StartsOnce` | internal/store/store.go:62-86 | a log of legal moves starts a deployment at most once |
| `People.DecisionsWrite` | internal/engine/apply.go:830-957 | an approval of a deployment that waits for one, at its own spec hash, moves it on in the name of the person, to pre_hook if and only if it declares pre-hooks and has something to register; a rejection ends it; anything else writes nothing |
| `People.RequestsWrite` | internal/engine/retry.go:52-94 | a retry marks a failed or rejected deployment not marked yet, a promotion is asked for while it applies, each in the name of the person; anything else writes nothing |
| `People.StartsOneStep` | internal/engine/apply.go:58-97 | a step starts from a copy that was listed, for a deployment with none in flight |
| `HookRuns.DispatchedOnce` | internal/hooks/runner.go:201-251 | over all runs, crashes and resumes, no two dispatches are of one deployment, phase and position |
| `HookRuns.DispatchesInOrder` | internal/engine/apply.go:233-270 | at a dispatch the run is saved as running and was never sent, and every hook before it in the phase has succeeded |
| `HookRuns.FinishedRunStays` | internal/store/store.go:1204-1226 | a terminal hook run never changes again, in any run |
| `HookRuns.PhaseEndsWithSuccess` | internal/engine/apply.go:272-278 | an event that leaves pre_hook for applying or post_hook for completed is one at which every frozen hook of the phase had succeeded, and there was one |
| `HookRuns.AppliesWhatItDeclares` | internal/engine/detect.go:612-626 | a deployment that is not failed froze exactly the hooks its spec declares, in order, with the specs its hash covers |
| `Phases.AppliesAfterItsPreHooks` | internal/engine/apply.go:155-163 | in every run, a deployment with something to register that was ever applying has run every pre-hook its job declares with success; only such a one that declares some is ever in pre_hook, and only one that declares post-hooks in post_hook |
| `Phases.RegistersAfterItsPreHooks` | internal/engine/apply.go:328-433 | in every run, whenever Nomad accepts a register for a deployment, every pre-hook its job declares has run for it and succeeded |
| `Completion.CompletesAfterItsPostHooks` | internal/engine/apply.go:521-525 | in every run, a completed deployment with a recorded applied index whose job declares post-hooks has run every one of them with success, and completed from post_hook |
| `HookRuns.FrozenAreDeclared` | internal/engine/hookrev.go:43-87 | without a missing or invalid hook, the frozen hooks of a phase are the declared ones at their declared positions |
| `Consecutive.ConsecutiveCreates` | internal/engine/detect.go:511-638 | in every run, between the cycles that create two consecutive deployments of a job there is an event that calls for the second, read by its cycle and not by the first, or one of three races |
| `Consecutive.EventsAreOutside` | internal/engine/detect.go:63-130 | such an event is a step from outside or a person's, never one of Nops |
| `Consecutive.UncalledCreateIff` | internal/engine/detect.go:577-638 | with no event of git, a pause, the window or a retry since the last create, a cycle creates if and only if its plan shows a diff, nothing holds the job, the latest deployment it read does not stand in the way as failed, and none is active, unless the new one is born failed |
| `Consecutive.UntouchedCreateIff` | internal/engine/detect.go:577-638 | with no race either, if and only if the plan shows a diff, nothing holds the job, the latest deployment it read had not failed and none is active now; and then the plan was overtaken |
| `NoLoop.DeploymentsArePaidFor` | internal/engine/detect.go:511-638 | in every run a job has at most one deployment, plus one for each event from outside, one for each register of a stale copy, and two for each torn plan or overtaken create |
| `Races.ScalesAloneDeployTwice` | internal/engine/detect.go:401-438 | for any lawful plan, a run of Nops' own steps, two scales of the job and nothing else makes two deployments of its spec |
| `Races.StaleCopyDeploysAgain` | internal/engine/apply.go:58-76 | a run that goes on with no step from outside or of a person makes two deployments of one spec, around the register of a copy listed before its deployment failed |
| `Races.StaleCopyRun` | internal/engine/apply.go:58-76 | there is a lawful plan and such a run from an empty store |
| `Races.OvertakenCycleDeploysAgain` | internal/engine/detect.go:511-638 | a run with no outside event and no person in which a job gets two deployments of one spec |
| `Lawful.PlainIsLawful` | internal/engine/detect.go:854-870 | what is assumed of plans is met by a plan that shows the groups it adds and the counts it edits |
| `Lineage.RetriesThePrevious` | internal/engine/detect.go:599-626 | a retry is of the deployment of its job just before it, which ended failed or rejected with the same spec hash and was marked retried; it follows the policy, and is a rerun exactly without a diff, then only of one that had registered |
| `Lineage.RetriedByOne` | internal/engine/retry.go:52-94 | no two deployments retry the same one |
| `Lineage.MarkedOnce` | internal/store/store.go:910-950 | a deployment is marked retried by at most one step of a run |
| `Lineage.RegistersNothingInSync` | internal/engine/apply.go:383-390 | while the live job equals its spec nothing is registered for a deployment, a rerun included |
| `Lineage.TerminalNeverLeft` | internal/store/store.go:79-86 | whatever calls the store takes, a deployment that ended stays in its state |
| `Lineage.LosesAppliedIndex` | internal/store/store.go:627-661 | a store call takes a recorded applied index back to zero if and only if it is a move of it to zero |
| `Lineage.MoveToZeroIsAllowed` | internal/store/store.go:627-661 | such a move goes through for any deployment with a recorded index |
| `Lineage.EngineNeverZeroes` | internal/engine/apply.go:601-651 | no step of any run makes that call: the index moved to is the one of the live job read, which the cluster gave |
| `Lineage.AppliedIndexNeverLost` | internal/engine/apply.go:737-748 | in every run, a recorded applied index never goes back to zero |
| `Records.RowsAreRecorded` | internal/store/store.go:488-540 | in every run, a row says why it failed if and only if it failed, has a version if and only if it has an applied index, has one or waits for a promotion only from applying on, was promoted only after a wait, and is marked retried only if it failed or was rejected |
| `Lifts.LiftsAreConserved` | internal/engine/detect.go:386-389 | the lifted deployments of a job and its waiting request are never more than the Deploy now requests made for it |
| `Lifts.LiftedAsAsked` | internal/store/windowlift.go:24-40 | a lifted deployment answers a Deploy now request a person made for that job and exactly that spec hash |
| `Lifts.CreatedByTheRequest` | internal/store/store.go:447-456 | the cycle that creates it read that request and no pause, a request is waiting, and the create that writes takes it away with it |
| `Lifts.RequestWaitsExactly` | internal/engine/detect.go:449-469 | a Deploy now request waits from the step that makes it until another of the job takes its place, a deployment it lifts is created, or a cycle that read it is done with the job or sweeps it as gone; it is as it was asked all the while |
| `Holds.MadeOfWhatItRead` | internal/engine/detect.go:63-130 | in every run, a deployment has the spec hash of the git, the diff of the plan against the live job, the hold and the retry its cycle read, each at a step of that cycle from which on it knew |
| `Holds.AnswersTheEvent` | internal/engine/detect.go:511-638 | whatever an event changes that calls for a deployment and that the creating cycle had not read yet, it read after the event, and the deployment is made of what it read |
| `Holds.SecondAnswers` | internal/engine/detect.go:511-638 | in every run, the second of two consecutive deployments of a job so answers an event between their cycles that the first did not see, or there is a race |
| `Holds.CreatesOnlyUnheld` | internal/engine/detect.go:85-118 | in every run, the cycle that creates a deployment found at steps of its own that neither the job nor all jobs were paused and, for a job that is auto with a sync window, that the window was not closed or a person had lifted it |
| `Holds.StartsOnlyUnheld` | internal/engine/apply.go:163-199 | in every run, a detected deployment starts only after a step, since it was created, at which neither its job nor all jobs were paused and, if its spec is auto with a sync window, the window was not closed or lifted for it |
| `Holds.StartsExactly` | internal/engine/apply.go:163-199 | the step of a detected auto deployment starts it if and only if nothing is paused for it and its window, if it has one, is not closed or lifted for it |
| `Holds.FollowsAFailure` | internal/engine/detect.go:663-684 | in every run, what is created after a deployment of the same spec that had failed or was rejected before the cycle started is its retry, or is for another diff at another index, and the other never registered |
| `Holds.SweepsExactlyTheAbsent` | internal/engine/detect.go:137-142 | in every run, a cycle that sweeps read git with every file parsed and is done with the jobs it declares, and supersedes of the deployments it listed exactly the waiting ones of other jobs |
| `Settles.LooksExactly` | internal/engine/detect.go:514-527 | in every run, a cycle reviews the deployment of its job that waits, leaves the job while one is past waiting, and looks for a new one exactly when none is active and git has a policy for the job |
| `Settles.SettlesExactly` | internal/engine/detect.go:528-565 | in every run, by the git, the pauses, the window and the plan its cycle read at steps of its own, the deployment that waits is superseded if and only if git has another spec or no policy, the live index is another, or it was not started and is held; completed if and only if nothing is left to register; else kept; and a new one is looked for exactly when it was not kept |
| `Settles.LeftUnderApproval` | internal/engine/detect.go:640-650 | one left detected under approval goes to a person, or is failed exactly when a hook it declares is missing or invalid, and the job is left for this cycle |
| `Store.EventLogIsState` | internal/store/store.go:385-540 | after any calls each deployment's events are a chain of legal moves and self-loops that folds to its state, and a job has at most one active deployment |
| `Store.ExecKeepsSound` | internal/store/store.go:488-661 | every store call keeps both |
| `Store.EntersOnce` | internal/store/store.go:62-86 | such a chain enters each state at most once |
| `Store.ExecGrows` | internal/store/store.go:385-661 | what a row keeps through any call: its identity, its marks, a state that only moves up, nothing once it ended |
| `Store.LogsEachWrite` | internal/store/store.go:488-1060 | every move, mark and request written to a deployment adds exactly one event to the log, from the state the row was in to the one it is in now, in its actor's name; the record of a register, a hook run and a window request add none |
| `Store.AllowedFrom` | internal/store/store.go:62-86 | the legal moves told by where they lead, each strictly up |
| `ApplyTimeout.NoCallExtendsTheTimeout` | internal/store/store.go:668-680 | once a deployment entered applying, no later call moves the event its timeout counts from |
| `ApplyTimeout.SinceIsFixed` | internal/engine/apply.go:466-476 | nor does any continuation of the log |
| `ApplyTimeout.SinceWhenApplying` | internal/engine/apply.go:483-500 | a deployment that is applying has that event |
| `Database.Rows.CreateDeployment` | internal/store/store.go:385-473 | the rows, events and lifts after it, or the refusal: a bad birth state, or the job's lock |
| `Database.Rows.Transition` | internal/store/store.go:488-540 | the move and its event together, or which of three refusals and nothing written |
| `Database.Rows.SetApplied` | internal/store/store.go:549-570 | the index and version recorded while applying, or the refusal |
| `Database.Rows.MoveCASIndex` | internal/store/store.go:579-618 | the index moved from the one expected, not registered yet, with its event, or the refusal |
| `Database.Rows.MoveAppliedIndex` | internal/store/store.go:627-661 | the same of the applied index |
| `Database.Rows.MarkRetried` | internal/store/store.go:910-950 | the first mark only, with its event, and which refusal otherwise |
| `Database.Rows.MarkAwaitingPromotion` | internal/store/store.go:958-1016 | written the first time only, while applying, and whether it was |
| `Database.Rows.MarkPromoted` | internal/store/store.go:967-1016 | written once, and only after a wait, and whether it was |
| `Database.Rows.MarkPromotionRequested` | internal/store/store.go:1024-1060 | an event by the person, while applying |
| `Database.Rows.AppliedSince` | internal/store/store.go:668-680 | the last event that entered applying from another state |
| `Database.Rows.EnsureHookRun` | internal/store/store.go:1107-1129 | the run recorded earlier, or a new one not sent, and which |
| `Database.Rows.UpdateHookRun` | internal/store/store.go:1204-1226 | the state set, the child kept unless given |
| `Database.Rows.ActiveDeployment` | internal/store/store.go:763-774 | the active deployment of a job, none if none is |
| `Database.Rows.LatestDeployment` | internal/store/store.go:780-791 | the last one created for it |
| `Database.Rows.RequestWindowLift` | internal/store/windowlift.go:24-40 | one request for a job, a new one in place of the one waiting |
| `Database.Rows.DropWindowLift` | internal/store/windowlift.go:70-80 | the request gone, and whether there was one |
| `Engine.ReconcileDeployment` | internal/engine/detect.go:511-638 | from any state of the system, the code writes the store the five steps of the cycle in a row write, and leaves everything else |
| `Engine.FollowScale` | internal/engine/detect.go:528-532 | the cas index follows a scale as the step does; a conflict keeps the copy |
| `Engine.SettleWaiting` | internal/engine/detect.go:533-565 | superseded, completed, moved on, failed or kept, as the step decides |
| `Engine.CreateFor` | internal/engine/detect.go:573-638 | blocked, held or created, as the two steps decide |
| `Engine.ReconcileJob` | internal/engine/detect.go:368-456 | read, plan, reconcile and drop the request: the eight steps of a job; when Nomad fails the read or the plan, the job is passed by with nothing written |
| `Engine.StepRegister` | internal/engine/apply.go:328-433 | whatever calls Nomad fails to answer, the register's answer lost included, with an edit before the register or none: it leaves the store and the cluster `RegisterStepEnd` gives, and they are those of steps of that worker; timed out only past the apply timeout, given up only before it or at the last read |
| `RegisterSteps.RegisterEndsAs` | internal/engine/apply.go:328-433 | a step registers, completes, records an index, follows one, fails or is left to another, each if and only if the live job read, its plan, the recorded diff, the timeout and Nomad's answers say so |
| `RegisterSteps.RegistersInCalm` | internal/engine/apply.go:316-327 | in every run, with nothing between its calls a step at the cas index registers what was detected and records it, or records the live job of a retry with nothing to register; at another index it registers nothing: it records a job that is as the spec wants, follows one that shows the diff detected, and fails at any other; so it never completes a deployment |
| `Engine.OneOutcome` | internal/engine/apply.go:328-433 | when Nomad answers and nobody edits the job, the store and the cluster it leaves are settled by the machine: no other choice of steps leads elsewhere |
| `Engine.RegisterRetry` | internal/engine/apply.go:466-476 | after an error, failed past the apply timeout and left as it is before it |
| `Engine.RegisterPlanned` | internal/engine/apply.go:364-381 | the register through, a conflict checked again or failed, or no answer: what each leaves, in the worker's steps |
| `Engine.Server.RegisterCAS` | internal/engine/apply.go:364-381 | goes through if and only if the live index is the one given, and then puts the job at a new one |
| `Engine.GoesOnWithTheRun` | internal/engine/apply.go:99-111 | started from any run, the code's outcome is that of a longer run, so what holds of every run holds of it |
| `Promises.RetryableExactly` | internal/engine/retry.go:26-36 | for any deployment of any store, Retry is offered if and only if the store takes its mark, git has a policy for the job, and the next unheld cycle then creates the deployment that retries it |
| `Promises.BlockedUntilRetried` | internal/engine/detect.go:663-684 | until retried, a failed or rejected deployment of the spec in git blocks if and only if there is no drift, it had registered, or the index or the diff is its own |
| `Promises.HeldExactly` | internal/engine/hold.go:99-142 | a job is held as paused if and only if it or all jobs are paused, and by its window if and only if it is not, git has it auto with a sync window that is closed, and no request waits for the spec git has; a request that does lifts it, and is whose lift it is |
| `Promises.DeployNowableExactly` | internal/engine/deploynow.go:22-27 | Deploy now is offered if and only if the window is all that holds a new deployment back, but for a rerun: the job is auto with a sync window, closed, and nothing is paused |
| `Promises.SurvivesAScale` | internal/engine/detect.go:528-565 | a waiting deployment survives a scale if and only if it recorded a diff |
| `Hooks.Evaluate` | internal/hooks/outcome.go:37-67 | failed, stopped and succeeded, each if and only if the allocations say so, in any order |
| `Hooks.Decides` | internal/hooks/runner.go:323-342 | a poll succeeds exactly on success, times out only past the deadline, and waits exactly while running before it |
| `Hooks.Await` | internal/hooks/runner.go:287-348 | the outcome of the first poll that decides; the child is stopped exactly for a time-out, which is no outcome while Nomad does not take the stop |
| `Hooks.Dispatch` | internal/hooks/runner.go:201-251 | saved as running before it is sent; sent once, or not at all when late, unfit or unread; where it leads and what is stored of the run |
| `Hooks.RecoverChild` | internal/hooks/runner.go:269-284 | resumes the child found, fails without one, or is left when Nomad does not search; nothing is sent |
| `Hooks.PolledAt` | internal/hooks/runner.go:287-348 | where the polls lead: to what the first that decides says, and to a later step when none does or Nomad does not take the stop of a time-out |
| `Hooks.AwaitOutcome` | internal/hooks/runner.go:287-348 | it goes where the polls lead, and that outcome is what is stored of the run; no other row or run is written |
| `Hooks.RunEndsAs` | internal/hooks/runner.go:132-172 | a run succeeds, times out, fails or is left, each if and only if what is stored, the clock and Nomad say so; what is stored is the outcome, and a run that may have been sent is never unsent again |
| `Hooks.RunHook` | internal/hooks/runner.go:132-172 | the run ends so and is stored so, nothing else is written, and it is sent if and only if it never was, is not late and Nomad finds it fit; all of it in steps of the worker |
| `Hooks.PhaseEndsAt` | internal/engine/apply.go:236-270 | a phase is through if and only if every hook of it succeeds; else it stops at the first that ends otherwise or cannot be registered in time, or is left there |
| `Hooks.PhaseStores` | internal/engine/apply.go:236-270 | what is stored of each hook the phase came to is what its run came to |
| `Hooks.PhaseKeeps` | internal/engine/apply.go:236-270 | no other run is written |
| `Hooks.StepHook` | internal/engine/apply.go:214-278 | whatever Nomad answers, the phase ends so, its runs are stored so, and the deployment is moved as its end asks, in steps of the worker |
| `Hooks.StepMoves` | internal/engine/apply.go:214-278 | the row goes on to applying or completed if and only if there are hooks and all succeed, to failed if and only if there are none or the first not to succeed ended otherwise, and stays if and only if that one is left for later; no other row changes |
| `Health.AllocsHealth` | internal/engine/apply.go:656-707 | healthy if and only if there are allocations of the version or after and each is running, complete or replaced; failed if and only if one is down for good |
| `Health.CanaryHealth` | internal/engine/apply.go:756-785 | promoted, or waiting for a person, each if and only if the manual groups say so |
| `HealthSteps.StepHealth` | internal/engine/apply.go:483-528 | whatever Nomad answers, it leaves the store `HealthEnds` gives, and that is what steps of the worker leave |
| `HealthSteps.HealthEndsAs` | internal/engine/apply.go:600-735 | a step goes on to post_hook or completed, fails, follows a scale, or records a wait or a promotion, each if and only if its bound, Nomad's deployment of the register, the live job, the plan of the spec with its counts, the allocations and the row say so |
| `HookRev.FreezeHooks` | internal/engine/hookrev.go:43-87 | the frozen hooks, the combined hash and the first problem, which there is exactly when a declared hook is missing or invalid |
| `HookRev.ProblemNamesTheFirst` | internal/engine/hookrev.go:43-87 | the problem names the first hook declared that is missing or invalid, pre before post, and says which of the two it is; none without one |
| `HookRev.HashPinsWhatRuns` | internal/engine/hookrev.go:43-87 | without a collision, two jobs have one hash if and only if they have the same target and each hook they declare is absent for both, or the same file for both |
| `HookRev.LinesUnique` | internal/engine/hookrev.go:66-83 | IDs without newlines: the text hashed is that of one list of hooks |
| `HookRev.MarksUnique` | internal/engine/hookrev.go:66-83 | any IDs, declared alike: the text tells every spec and mark apart |
| `HookRev.NewlineInAnIdCollides` | internal/engine/hookrev.go:66-83 | with newlines the text alone does not |
| `Nomad.SubstituteScalingCounts` | internal/engine/detect.go:878-912 | the loops copy exactly the live counts of the groups with a scaling block |
| `Nomad.SubstituteComposes` | internal/engine/apply.go:343-349 | substituting again in a substituted spec is the same as once if and only if every count taken is taken again |
| `Nomad.SubstituteIdempotent` | internal/engine/detect.go:878-912 | from the same live job it always is |
| `Acl.Allow` | internal/acl/acl.go:190-218 | allowed exactly when a most specific matching rule grants and none of them denies |
| `Acl.ExactNameWins` | internal/acl/acl.go:238-244 | a rule that names the namespace beats every glob that matches it |
| `Acl.OrderDoesNotMatter` | internal/acl/acl.go:190-218 | the decision is the same for any order of policies and of rules in them |
| `Acl.GlobAgreesWithoutSlash` | internal/store/list.go:160-183 | GLOB and path.Match agree on a name for every label if and only if the name has no slash |
| `AclScope.ScopeOf` | internal/acl/acl.go:265-302 | one level for each specificity, highest first, each holding exactly its patterns, denials and grants, sorted once each |
| `AclScope.ScopeMatchesAllow` | internal/acl/acl.go:307-323 | the levels match a name if and only if Allow allows it |
| `ScopeSql.ScopeSQL` | internal/store/list.go:160-183 | the text and the arguments the closures write |
| `ScopeSql.ReadsCondition` | internal/store/list.go:160-183 | the text parses whole, taking each argument once and in order, empty lists taking none |
| `ScopeSql.ConditionIsAllow` | internal/store/list.go:160-183 | evaluated over its arguments it is Match, and Match is Allow |
| `Pages.PageKeys` | internal/web/list.go:276-304 | the indexes and cursors of the page a cursor names |
| `Pages.ListDeployments` | internal/store/list.go:59-92 | the rows of the query up to the limit, in list order, and whether more follow |
| `Pages.PageDeployments` | internal/web/list.go:239-273 | the same page as in memory, from the store's query |
| `Pages.ReverseInPlace` | internal/store/list.go:86-90 | the page reversed in place |
| `Pages.WalkIsComplete` | internal/web/list.go:276-304 | following Older over a list that changes between requests returns no row twice, and every row that stayed exactly once |
| `Pages.FixedWalk` | internal/web/list.go:276-304 | over a fixed list the pages put together are the list, and the walk ends after the pages its size needs |
| `Pages.NewerIsThePrevious` | internal/web/list.go:276-304 | Newer from a page of that walk is the page before it, cursors and all |
| `CursorText.ReadsWhen` | internal/web/list.go:189-227 | a text reads as a cursor of a list if and only if it is spelled as one of that list with a stamp that parses to the cursor's instant |
| `CursorText.RoundTrip` | internal/web/list.go:189-227 | the text a list gives for a cursor reads as that cursor, and the other list refuses it |
| `CursorText.TwoTextsOneCursor` | internal/web/list.go:189-227 | any stamp that parses to the instant reads as the same cursor, and is the list's own text if and only if it is written as the list writes it |
| `SyncWindow.OpenMeans` | internal/meta/meta.go:256-259 | open if and only if a match is less than the duration ago |
| `SyncWindow.NextOpenIsLeast` | internal/meta/meta.go:264 | for a closed instant, the least later one that is open |
| `SyncWindow.NextClose` | internal/meta/meta.go:274-288 | the least instant that is not open with everything up to it open, and none exactly for a closed instant or after the limit of windows |
| `SyncWindow.ClosesWithoutAnAnswer` | internal/meta/meta.go:270-288 | windows of one instant after one another close after the last, and get no answer when there are as many as NextClose looks at |
| `LoginLimit.LocksOncePerWindow` | internal/web/login_limit.go:89-106 | two reports of a lock for a username have the end of the first window, or a clear, between them |
| `LoginLimit.FailureLimit.Fail` | internal/web/login_limit.go:89-106 | counts as the plain history does, and reports the lock at exactly the limit |
| `LoginLimit.FailureLimit.Locked` | internal/web/login_limit.go:72-85 | answers as counting the failures of the history would |
| `LoginLimit.FailureLimit.Expire` | internal/web/login_limit.go:56-64 | drops exactly the ended entries from map and queue, which stay one and sorted |
| `LoginLimit.FailureLimit.Clear` | internal/web/login_limit.go:109-118 | the entry gone, the history told |
| `Diff.DropEmptyEdits` | internal/nomadx/diff.go:89-144 | the loops make the normalized diff |
| `Diff.KeepChangedObjects` | internal/nomadx/diff.go:121-137 | the objects kept, at any depth, and whether one is a change |
| `Diff.DropFixesTheTidy` | internal/nomadx/diff.go:84-116 | a diff is left as it is if and only if every edit in it holds a changed field or part |
| `Diff.DropIsTidy` | internal/nomadx/diff.go:84-116 | in the result every part marked Edited does |
| `Diff.DropIdempotent` | internal/nomadx/diff.go:89-116 | normalizing again changes nothing |
| `Diff.KeptIff` | internal/nomadx/diff.go:121-137 | an edit is kept if and only if some way down it through edits ends in a changed field or an added or deleted part |
| `Diff.DriftIff` | internal/nomadx/diff.go:89-116 | the diff is drift after it if and only if some part shows a change |
| `DiffSummary.Summarize` | internal/nomadx/diff.go:157-184 | the counts by kind and the places, in order |
| `DiffSummary.Summary.Count` | internal/nomadx/diff.go:188-212 | adds the fields of a level and below it by kind, and returns how many |
| `DiffSummary.DropKeepsTheSummaryIff` | internal/nomadx/diff.go:84-116 | normalizing leaves the summary if and only if no object dropped holds a counted field and no part settled had a place |
| `DiffSummary.DropKeepsTheSummary` | internal/nomadx/diff.go:84-116 | so it does for a diff whose None objects hide no change |
| `DiffSummary.HiddenChangeIsLost` | internal/nomadx/diff.go:121-137 | and not of every diff |
| `Tokens.Close` | internal/store/acl.go:448-467 | the search ends on any graph of creators with exactly the tokens a chain from a seed reaches |
| `Tokens.LeastClosed` | internal/store/acl.go:448-467 | that is the least set with the seeds, closed under created by |
| `Tokens.TokenTable.RevokeACLTokens` | internal/store/acl.go:480-507 | the rows left, a line of the log for each token taken in order, and their accessors; nothing when refused |
| `Tokens.RevokesExactly` | internal/store/acl.go:480-507 | a token stays if and only if it is not selected or has expired |
| `Tokens.RepeatRevokesNothing` | internal/store/acl.go:480-507 | repeating it at any later time, nothing created since, takes nothing |
| `Tokens.PurgedFirst` | internal/store/acl.go:512-544 | after the expired tokens are deleted it takes exactly what a chain of unexpired ones reaches |
| `Tokens.PurgeThenRevoke` | internal/store/acl.go:512-544 | the same of the two transactions in place, one after the other |
| `Tokens.LogsWhatGoes` | internal/store/acl.go:480-507 | a transaction logs as many tokens as it deletes if and only if every token its query found is in the table when it starts |
| `Tokens.RevokesAndLogs` | internal/store/acl.go:480-507 | so one alone does |
| `Tokens.RacingRevocations` | internal/store/acl.go:480-507 | two whose queries come before either transaction do so together if and only if no token is of both |
| `Tokens.IsValid` | internal/store/acl.go:437-445 | exactly one of the three fields is set |
| `NextPage.QuoteRoundTrip` | internal/cli/list.go:88-95 | the shell reads a quoted string as one word, the string itself, if and only if it has no NUL |
| `NextPage.Next` | internal/cli/list.go:73-85 | the shell splits the printed command into exactly its words, if and only if none has a NUL |
| `NextPage.ArgsSetTheFlags` | internal/cli/list.go:73-85 | those words set the flags of the list again, with the new token |
| `NextPage.SameFlagsIff` | internal/cli/list.go:73-85 | they set exactly the flags that were set if and only if each is one of the list and -warnings is true |

## Left out

- Errors of the store that are not refusals: in the machine a step may simply not come, a cycle may skip a job or stop, and a worker may be dropped. What comes between the calls of a method of `Engine.dfy`, `HealthSteps.dfy` or `Hooks.dfy`, but for the edit before a register, is told by the runs of the machine.
- Approve's refusals for a paused, unobserved or unreadable job, and the guards of Retry and Deploy now: the machine lets a person press them at any time, which only adds runs.
- The verdict of `stepHealth` in the machine: any verdict at any time, which only adds runs. What decides one is in `HealthSteps.dfy`.
- The in-flight mark of `applyCycle`: at most one worker for a deployment, started from any copy ever listed since the last crash.
- Registering hook revisions in Nomad, removing old ones and the run of a child job: in the machine a dispatch is only recorded as sent, and any outcome may follow; in `Hooks.dfy` Nomad takes a revision or does not.
- Purging a job and registering it again: a job's index only goes up. A register is accepted exactly at the live index.
- Timestamps, logs, notifications, observations, dashboards: nothing here decides on them. Rows are in the order they were created.
- Deployments of an older Nops, without a diff hash, an applied version or frozen hooks; a commit whose outcome is unknown.
- `nextVersion`, the job source and the evaluation IDs: they do not reach a decision of the protocol.
- Namespaces Nops does not manage: a job of one is never in the git of the model.
- The hashes of specs and diffs in the machine are the values hashed; `HookRev.dfy` states what of SHA-256 is used. Usernames of the login limit are taken as they are, not as their hash.
- The SQL engine: a CASE of GLOBs is parsed and evaluated as SQLite does, and the recursive query of a revocation takes one row of its queue at a time. The statements of the other tables are their effect on rows.
- Parsing policies and their namespace blocks, and the capabilities no namespace narrows (`Global`): an ACL is its lists of rules.
- Labels and names are text with `*` as the only special character.
- The keys of a page are integers, standing for any strict total order of the rows at hand; base64 is taken as it is, and of stamps only that what is formatted parses back.
- The diff tree is edited as a value, and lists of nil pointers are lists with gaps; the summary is an object.
- The cron library: only that `Next` is the least match after an instant.
- HTTP handlers, OIDC, password hashing, the CLI other than the command of the next page, configuration, git and HCL parsing.
- DeploymentsArePaidFor: a bound on the number of deployments; what comes between any two is `Consecutive.ConsecutiveCreates`. A scale of groups the target does not scale counts as an event, because the code takes it for an edit.
- StepRegister: the edit, when there is one, comes between the plan and the register; one between other calls is told by the runs of the machine.
- DropKeepsTheSummary: asks that objects marked None hide no change, as Nomad's diffs do; the exact condition is in `DropKeepsTheSummaryIff`.
