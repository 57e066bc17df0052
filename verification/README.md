# Burrito: verified model

Burrito runs Terraform from Kubernetes. A *layer* is one Terraform directory. The layer controller decides when the
layer needs a plan or an apply and creates a *run* for it; the run controller takes a lease, creates runner pods for the
run and retries them with backoff; the runner in the pod plans or applies, stores the plan in the *datastore* and
publishes what it did as annotations on the layer. The repository controller watches branches, stores git bundles and
annotates layers with new commits; sync windows hold runs back; an API takes manual requests.

No single function keeps the promises people rely on: one Terraform process per layer, each plan applied once, no live run
deleted, retries that end, a sync that settles. They hold because the bookkeeping of several components agrees. This
project models that bookkeeping and proves the promises for every input, every reachable state or every run of the system,
with the exact condition where a promise holds only under one. Nothing was executed; everything is checked by Dafny 4.11.

    dafny verify dfyconfig.toml

## Structure

| file | what it holds |
|---|---|
| `Resources.dfy` | layers, runs, pods, annotations, settings |
| `RunController.dfy`, `LayerController.dfy` | the two controllers' conditions, decisions and one reconciliation, as functions |
| `Protocol.dfy` | one layer as a transition system: both controllers, runner, pods, API, commits, clock |
| `Invariant.dfy` | the bookkeeping invariant, kept by every step |
| `Exclusion.dfy`, `History.dfy`, `Artifacts.dfy`, `Losses.dfy`, `Retries.dfy`, `Outcomes.dfy`, `Requests.dfy`, `PullRequests.dfy`, `Convergence.dfy`, `Exhaustion.dfy`, `Provenance.dfy`, `Overtaken.dfy`, `Continuations.dfy` | the promises about one layer, and the executions that show where they end |
| `Lock.dfy`, `Cluster.dfy`, `Sharing.dfy` | many layers: leases, the limit on runner pods, and what the two exclude |
| `AnnotationMap.dfy`, `Controllers.dfy`, `LayerObjects.dfy`, `LeaseObjects.dfy` | annotations as text, and the controllers, runner and API as methods with loops over the fields of a layer and over the leases, each proved to take a step of the protocol or of the cluster |
| `SyncWindows.dfy` | sync windows |
| `RepositorySync.dfy`, `RepositoryController.dfy` | the repository controller: as functions with their properties, and as methods |
| `Text.dfy`, `Encryption.dfy`, `Datastore.dfy`, `Storage.dfy`, `Logs.dfy`, `Migration.dfy` | keys, AES-CBC with padding, the map-backed backend, plans and logs, the bulk encryption |

## Hypotheses

- A reconciliation is atomic and its status write succeeds; the source logs a failed write and goes on. Other calls to the
  API server, the datastore and the git provider may fail at every point where the source handles a failure: their outcomes
  are parameters of the steps.
- All conditions of one reconciliation see the same pod phase, and phase Unknown means that the pod is gone.
- Only the layer controller creates and deletes runs, and the API server does not generate a name twice. Pods may fail or
  be removed at any time.
- The last run can be read whenever it exists. The source takes one that cannot be read for running and waits
  (`internal/controllers/terraformlayer/conditions.go:46-50`).
- The specifications of layer, repository and controller do not change during an execution. Times are integers, and
  writing and reading a date loses nothing.
- Terraform, git, cron parsing, `filepath.Match`, SHA-256, FNV and AES are parameters. Of AES the proofs use only that the
  two directions map blocks to blocks and undo each other. The cron library is not part of this model either: of a cron
  expression that a window has, `Next` is taken to give the least fire time strictly after its argument unless there is none
  within five years; of "@every" and a delay, its argument plus the delay, cut to the second.

## What the model shows about the code

- Exclusion per layer does not come from the lease. It holds for any outcome of any lock, exactly when the history policy
  keeps at least one run (`ExclusionIffHistoryKept`): with a policy of zero the slice in `updateLatestRuns` panics after the
  run was created and before it is recorded, and a second live run follows.
- Two layers never both have an active pod exactly when both are limited to one pod; whether they share a lease makes no
  difference (`ApartIff`), although `docs/operator-manual/architecture.md:40` and `:100` say that leases are there for it.
  A run that is refused the lease is recorded as Initial all the same; it then retries without looking at the lease, or,
  when it may not retry, fails and deletes the lease that the other run holds. So a pull request's layer, which always
  shares the lease of the layer it was made from, can plan beside that layer's apply (`PullRequestApartIff`). The model
  follows the code.
- An apply made automatically is repeated when its pod fails or is removed after Terraform has applied and before the run
  controller has seen it succeed: by a retry, or, when no retry is left and the result was not published (a failed patch of
  the annotations is enough), by another run. `LossIsRepeated` shows that from every such loss, `AppliedOnce` that without
  one no artifact is applied automatically twice.
- An automatic apply is made for a commit that its artifact was not planned at after exactly three kinds of steps: a plan
  that is published later than a commit which became relevant meanwhile, and for that counts as up to date; a commit that
  takes the branch back to the planned one, or becomes relevant only later; and giving up the plan of the relevant commit
  (or coming back to a commit whose plan was given up) while an older plan is not applied. Without one every automatic apply
  is of the commit its artifact was planned at (`AutoAppliesArePlanned`); each one can lead to one that is not
  (`PartingIsApplied`).
- A layer at rest settles exactly when its plan is of the relevant commit or a plan is still to come, as long as no run is
  given up (`ConvergesIff`). No run is given up while none loses a pod and retries are allowed. With a retry limit of zero or
  less a new run that is refused the lease, or finds no room for its pod, fails, and the layer settles only when it has no
  run to make (`KeptConvergesIff`).
- A layer that gave up is shown as needing manual intervention (`internal/controllers/terraformlayer/states.go:60-62`), but
  stays as it is only when nothing else is left to try (`StaysGivenUpIff`). Giving up a plan lets an older plan be applied,
  and giving up that apply lets the plan be made again: a layer whose runs all fail makes plan and apply runs in turns
  without end (`Alternates`).
- Logs are stored by the reconciliation that finds a pod finished, in order up to the first refusal; a run that is over is
  not reconciled, so logs that the last reconciliation could not store are never stored (`LogsAfterRun`, `LogsEndWithRun`).
- Sync requests are told apart by branch name with slashes written as two dashes: "a/b" and "a--b" share one
  (`RequestsShared`).
- A sync window whose schedule is "@every" and a delay does not open and close: it is always open when it is longer than the
  delay, and never when it is a second shorter (`EveryIsAlwaysOrNever`).
- A manual sync request is taken off the layer before its window, commit and run are looked at, although the comment in
  `internal/controllers/terraformlayer/states.go:42` says that it is removed only when it is acted on: `SyncLostIff` says
  exactly when one is lost, and `ApplyLostIff` the same of an apply request.
- The comparison with the misspelt state "Suceeded" in `internal/controllers/terraformrun/conditions.go:97` never holds and
  decides nothing: a run in a final state is not reconciled.
- A manual apply on a layer that was never planned panics (`internal/controllers/terraformlayer/run.go:32-34`) when no
  window holds it back, the relevant commit is known and no sync is requested as well; an automatic one never does
  (`ApplyPanicsIff`).
- `encryptSingleFile` builds a new error where the caller compares with `ErrFileAlreadyEncrypted`, so a second pass reports
  an error for every file (`SecondPassWritesNothing`).
- Unpadding does not bound the padding by the block size, so decryption opens more than encryption makes
  (`OpenedIsSealedIff`).
- A repository whose sync request cannot be read, or lies in the future, is not settled by a clean pass
  (`OnePassConvergesIff`).

## Model

| member | source | states |
|---|---|---|
| Invariant.NextInv | internal/controllers/terraformrun/controller.go:78-150 | every step of a layer's life (either controller, a pod that starts, fails at any time, ends or vanishes, runner, API, commit, clock), whatever fails, keeps the joint bookkeeping: only the last run is live, an active pod is the one its run waits for and carries its attempt number, what a runner holds is what is stored, annotations name stored plans |
| Invariant.PathInv | internal/controllers/terraformlayer/controller.go:74-144 | so the invariant holds all along any path that starts with it |
| Invariant.StatusCases | internal/controllers/terraformrun/controller.go:120-137 | a reconciliation either keeps the run's pod, number and attempts or adds exactly one attempt under the next number, whose pod becomes the runner pod |
| Invariant.ActiveMeansRunning | internal/controllers/terraformrun/conditions.go:110-131 | a run with an active pod is found Running whatever the limits and the clock, so it is never given a second pod |
| Invariant.IdleMeansDone | internal/controllers/terraformlayer/conditions.go:23-63 | when the layer controller sees nothing running, every run of the layer is final and no pod is active |
| Exclusion.ExclusionHolds | internal/controllers/terraformlayer/conditions.go:23-63 | in every reachable state, for any lock outcomes, at most one runner pod of a layer is active, every run but the last is final, and an active pod belongs to a run in Initial, Retrying or Running |
| Exclusion.ExclusionIffHistoryKept | internal/controllers/terraformlayer/controller.go:188-205 | that holds in all reachable states exactly when the history policy keeps at least one run |
| Exclusion.KeepNothingBreaksExclusion | internal/controllers/terraformlayer/controller.go:125-132 | a concrete execution with two active pods for every policy that keeps nothing |
| Exclusion.CleanupSparesLiveRuns | internal/controllers/terraformlayer/controller.go:146-177 | no reconciliation deletes a run in progress, nor the run it records as the last one |
| Exclusion.AtMostKeepRuns | internal/controllers/terraformlayer/controller.go:138-177 | after a completed reconciliation whose deletions succeed at most keep runs remain |
| Exclusion.EvictionIsOldestIff | internal/controllers/terraformlayer/controller.go:188-205 | a full history loses its oldest entry exactly when some entry is dated before the clock or the first one is oldest anyway |
| Exclusion.EvictionIsOldest | internal/controllers/terraformlayer/controller.go:188-205 | in reachable states, always |
| History.LatestRunsAreKept | internal/controllers/terraformlayer/controller.go:125-132 | in every reachable state the history is the sequence of the latest runs made, as many as the policy keeps or all of them, in order; the last run is the latest one, and all of them exist |
| History.ExactlyLatestRemain | internal/controllers/terraformlayer/controller.go:146-177 | after a completed reconciliation whose deletions succeed the runs there are are exactly those |
| History.HistoryUpdated | internal/controllers/terraformlayer/controller.go:188-205 | while there is room no entry leaves a history; when it is full exactly one does, and the new entry comes last |
| Artifacts.RunnerUsesItsOwnKey | internal/runner/actions.go:125-129 | a runner stores its plan under the attempt its pod was made for, where nothing was stored before |
| Artifacts.PlanStoreIsWriteOnceAlong | internal/runner/actions.go:119-129 | along any path no stored plan is overwritten or removed: no two attempts write to one key |
| Artifacts.AnnotationsNameStoredPlans | internal/runner/actions.go:25-59 | in every reachable state the plan annotations name a stored plan and carry its digest, every apply run's artifact is stored, and while a succeeded apply run is the last run the applied digest equals the planned one |
| Artifacts.ApplyPanicsIff | internal/controllers/terraformlayer/run.go:29-35 | the panic on a missing plan-run annotation comes exactly when nothing runs, an apply but no sync is requested, the layer was never planned, no window holds the apply back and the relevant commit is known |
| Artifacts.AppliedOnce | internal/controllers/terraformlayer/conditions.go:193-250 | over any execution in which no pod of a live automatic apply run fails or vanishes after Terraform has applied, with a retry left or its result unpublished, Terraform applies no artifact automatically twice |
| Losses.LossIsRepeated | internal/runner/actions.go:40-56 | every execution that reaches such a loss goes on, with the loss, to one in which Terraform applies an artifact automatically twice: by a retry, or by another run after a plan of a new commit came to nothing |
| Retries.EveryMoveDescends | internal/controllers/terraformrun/states.go:41-72 | every change of a run's state, retry count, pod or pod phase lowers a measure, and no step of any kind raises it |
| Retries.RunsEnd | internal/controllers/terraformrun/states.go:41-207 | for any retry limit M a run changes at most 12 (max(M, 0) + 1) + 2 times, whatever the pods, locks, limits and clock do |
| Retries.AttemptsAreNumbered | internal/controllers/terraformrun/controller.go:122-137 | in every reachable state attempts carry consecutive numbers from 0 or 1 up to the retry count, the runner pod is the last one's, and there are at most max(M, 0) + 1 |
| Logs.LogKeysAreApart | internal/controllers/terraformrun/controller.go:187-191 | at any two times of an execution two attempts of a layer's runs store their logs under one key exactly when they are the same attempt of the same run |
| Logs.LogsAfterRun | internal/controllers/terraformrun/controller.go:120-146 | after a reconciliation of a run an attempt is marked exactly when it was before, or its pod has succeeded or failed, its logs can be read and no attempt up to it was refused |
| Logs.LogsEndWithRun | internal/controllers/terraformrun/controller.go:92-95 | no step marks, or changes in any other way, a run that is over |
| Retries.RetryWaits | internal/controllers/terraformrun/conditions.go:133-165 | a retry replaces a pod in phase Failed, and only once the attempt's start plus its backoff has passed |
| Retries.RetriesWait | internal/controllers/terraformrun/states.go:142-175 | over any execution in which no live run's pod is removed from outside, every attempt starts no earlier than the run's creation plus the backoffs of all earlier attempts |
| Outcomes.GivesUpIff | internal/controllers/terraformrun/states.go:49-71 | a run is given up exactly when it has begun, its pod neither succeeded nor is at work, and the limit is reached, in or out of its grace period |
| Outcomes.StatesMean | internal/controllers/terraformrun/states.go:41-72 | the other states, each by an equivalence on status, pod phase, limit and clock that does not depend on the order of the switch |
| Outcomes.FinalStatesMean | internal/controllers/terraformrun/states.go:177-207 | in every reachable state a failed run has used up its retries, and a succeeded plan run has its plan stored under its last attempt |
| Requests.MarksTaken | internal/controllers/terraformlayer/states.go:36-53 | at most one request is taken off by a reconciliation, sync before apply, and only when no lease and no live run stands in the way |
| Requests.SyncShown | internal/server/api/sync.go:25-28 | a completed reconciliation shows whether a sync request was there when it began, and further sync requests are refused exactly while it does |
| Requests.RunShown | internal/controllers/terraformlayer/states.go:79-139 | the layer is shown as needing what it was given a run for, asked for or not, and as idle while a run is in progress |
| Requests.SyncServedIff | internal/controllers/terraformlayer/states.go:40-102 | a sync request gets a plan run of the relevant commit exactly when the window is open, the commit known and the run can be created, and never an apply |
| Requests.ApplyServedIff | internal/controllers/terraformlayer/states.go:47-139 | an apply request gets an apply run of the planned artifact exactly when besides there is a plan, automatic or not and up to date or not |
| Requests.SyncLostIff | internal/controllers/terraformlayer/states.go:40-46 | exactly when a sync request is removed without a run coming of it |
| Requests.ApplyLostIff | internal/controllers/terraformlayer/states.go:47-53 | exactly when an apply request is removed without a run coming of it, the panic included; never while a sync is requested too |
| Requests.PlansAgainIff | internal/controllers/terraformlayer/conditions.go:65-191 | on a planned layer that nothing hinders and nobody asks, the reconciliation makes a plan run exactly from the drift detection period after the last plan on, or when neither commit of its branch is the planned one and the plan is not younger than the branch's last commit; while the plan is of the relevant commit, drift alone decides |
| PullRequests.GenerateTempLayers | internal/controllers/terraformpullrequest/layer.go:69-109 | one temporary layer per layer, in order |
| PullRequests.TempLayerPlansItsCommit | internal/controllers/terraformpullrequest/layer.go:72-103 | a temporary layer is the same directory of the same repository on the pull request's branch, and its first run is a plan of the pull request's commit |
| PullRequests.TempLayersAreNeverApplied | internal/controllers/terraformpullrequest/layer.go:96-103 | in every execution a pull request's layer has only plan runs and nothing is applied from it, whatever the repository's strategy and history policy and whatever the API is asked |
| Convergence.DecisionFollowsAgenda | internal/controllers/terraformlayer/states.go:23-139 | on a calm layer the decision is the next run of what is to come, exactly when nothing runs and that run is allowed |
| Convergence.LayerStepCalm | internal/controllers/terraformlayer/controller.go:115-132 | a reconciliation of a calm layer makes exactly that run and shortens what is to come by one, or makes none and changes nothing of it |
| Convergence.LayerConverges | internal/controllers/terraformlayer/states.go:23-67 | from a layer whose last run succeeded or is absent and whose plan is of the relevant commit or still to come, whatever the retry limit, the runs made are a prefix of at most a plan then its apply, and none follows until a request, a relevant commit, a return to the planned commit, a run that is given up or drift detection |
| Convergence.ConvergesIff | internal/controllers/terraformlayer/conditions.go:126-192 | from such a layer all these paths keep to what is to come exactly when the plan is of the relevant commit or a plan is still to come |
| Convergence.Diverges | internal/controllers/terraformlayer/conditions.go:181-191 | otherwise an irrelevant commit and one reconciliation make a plan that was not to come |
| Convergence.ReturnUnsettles | internal/controllers/terraformlayer/conditions.go:154-159 | a branch that returns to the planned commit while another is relevant takes a plan off what is to come, and the plan follows the commits no more |
| Exhaustion.ServedIsSteady | internal/controllers/terraformrun/states.go:41-72 | no run is given up as long as no run in progress loses its pod and, where the retry limit is below one, new runs get their pods at once |
| Exhaustion.KeptConvergesIff | internal/controllers/terraformrun/states.go:49-71 | where no run in progress loses its pod, a layer at rest keeps to what is to come on all paths exactly when its plan follows the commits and the retry limit is at least one or it has no run to make |
| Exhaustion.GivingUpUnsettles | internal/controllers/terraformrun/states.go:76-84 | wherever the layer can make a run, a path on which that run is given up leaves the same run to come again; with a limit below one it needs no lost pod |
| Exhaustion.Alternates | internal/controllers/terraformlayer/states.go:54-62 | for every n, a layer with a stale and unapplied plan has a path without a request or commit that makes n runs, plan and apply in turns, each given up |
| Exhaustion.BehindIsReachable | internal/controllers/terraformlayer/conditions.go:272-320 | such a layer is reachable from a new one |
| Exhaustion.StaysGivenUpIff | internal/controllers/terraformlayer/states.go:54-62 | a layer that gave up makes no run, without a request or relevant commit, exactly when after a plan there is no apply it may make, or after an apply its plan is fresh and of the relevant commit |
| Exhaustion.ShownGivenUpIff | internal/controllers/terraformlayer/states.go:60-62 | a layer that gave up is shown as having reached its limit exactly when after a plan nothing is to be applied, or after an apply nothing is to be planned |
| Provenance.AppliesPlannedCommitIff | internal/controllers/terraformlayer/run.go:29-62 | at any point of an execution the commit an apply run is made for is the revision of the plan run its artifact is from, one revision for each artifact, exactly when the planned commit annotated is the relevant one |
| Provenance.PartsIff | internal/controllers/terraformlayer/conditions.go:126-192 | a step takes a layer that is safe from applying another commit's plan out of safety exactly when it is one of the kinds listed, each given by what is known before it |
| Provenance.AutoAppliesArePlanned | internal/controllers/terraformlayer/states.go:54-58 | over any execution without such a step every automatic apply run is for the commit its artifact was planned at |
| Provenance.PartingIsApplied | internal/controllers/terraformlayer/states.go:54-58 | every execution that reaches such a step goes on, without another one, to an automatic apply run for a commit that its artifact was not planned at |
| Overtaken.FollowingApplies | internal/controllers/terraformlayer/states.go:54-58 | on a layer whose plan follows the commits and that nobody asks, an apply run is for the commit its artifact was planned at |
| Overtaken.PlanOvertaken | internal/runner/actions.go:33-37 | wherever a plan is about to be published, requests pending or not, a relevant commit can come first and the layer come to rest with the other commit's plan, not to be planned again |
| Overtaken.UnplannedCommitIsApplied | internal/controllers/terraformlayer/conditions.go:181-191 | an execution from a new layer to an automatic apply run for a commit that its artifact was not planned at |
| Cluster.PodLimitHolds | internal/controllers/terraformrun/states.go:214-250 | however the reconciliations of all layers interleave, if every repository's effective limit is in 1..K the cluster never has more than K active runner pods |
| Cluster.CountedLimit | internal/controllers/terraformrun/states.go:228-247 | counting the active entries of a list of all runner pods decides whether the limit is reached |
| Resources.SettingsPrecedence | internal/controllers/terraformrun/conditions.go:44-63 | the layer's retry limit, history policy and automatic apply go before the repository's, those before the defaults, and the repository's pod limit before the controller's; what goes after does not matter |
| Cluster.LeaseFollowsRun | internal/controllers/terraformrun/states.go:76-207 | a lease name that one layer has to itself is leased exactly while the layer's last run has begun and is not final |
| Cluster.NewRunFindsLeaseFree | internal/controllers/terraformrun/states.go:79-84 | so a new run is never refused it |
| Sharing.ApartIff | internal/controllers/terraformrun/states.go:79-111 | two layers, sharing a lease or not, never both have an active pod in any reachable state exactly when the limit of both is one |
| Sharing.LockExcludesIff | internal/lock/lock.go:24-52 | among the layers of a lease at most one pod is active in every reachable state exactly when one layer has it to itself or every layer that shares it is limited to one pod |
| Sharing.PullRequestApartIff | internal/controllers/terraformpullrequest/layer.go:72-100 | a pull request's layer shares the lease of the layer it was made from, whatever the hash, and the two are kept apart in all reachable states exactly when their repository's limit is one |
| Lock.SharedKeyIff | internal/lock/lock.go:24-53 | layers share a lease exactly when they share a namespace and the hash of repository, its namespace and path, joined |
| Lock.SharedLeaseIff | internal/lock/lock.go:18-26 | layers of one repository whose joined texts do not collide share a lease exactly when they share a namespace and a path |
| Lock.RepositoriesCanShare | internal/lock/lock.go:24-26 | for any hash repositories whose name and namespace join to the same text share leases |
| LeaseObjects.ReconcileRun | internal/controllers/terraformrun/states.go:76-207 | with the leases and the list of pods at hand a reconciliation of a run is the event of the cluster that these determine: the lease is taken exactly by a run without status when it is free and the call succeeds, and there is room exactly when the count says so; a new run that gets both has its pod, and a run whose pod succeeded is over and has no lease left |
| LeaseObjects.ReconcileLayer | internal/controllers/terraformlayer/controller.go:86-95 | so is a reconciliation of a layer, which does nothing exactly while the lease is there and else deletes what the listing and the refusals allow |
| RunController.UploadMarksIff | internal/controllers/terraformrun/controller.go:152-195 | an attempt is marked after the pass exactly when it was before, or its pod has succeeded or failed, its logs are readable and no attempt up to it was refused by the datastore |
| Controllers.UploadLogs | internal/controllers/terraformrun/controller.go:152-195 | the loop that marks in place and stops at the first refusal marks exactly these |
| Controllers.IsMaxConcurrentRunnerPodsReached | internal/controllers/terraformrun/states.go:214-250 | reached exactly when a positive limit is met by the number of active pods in the list; an error only when the list is needed and cannot be had |
| Controllers.FindOldest | internal/controllers/terraformlayer/controller.go:189-199 | the loop finds the first entry of minimal date before now, or index 0 |
| Controllers.UpdateLatestRuns | internal/controllers/terraformlayer/controller.go:188-205 | the history after a run: appended to while it is short, else the found entry shifted out in the same array |
| Controllers.RunsToDelete | internal/controllers/terraformlayer/controller.go:156-165 | lists each run that is not in the history once |
| LayerObjects.Layer.HandleRun | internal/controllers/terraformrun/states.go:76-207 | each state's handler makes at most one pod and returns what the protocol says |
| LayerObjects.Layer.ReconcileRun | internal/controllers/terraformrun/controller.go:78-150 | the layer afterwards is the protocol's run step of the layer before |
| LayerObjects.Layer.GetState | internal/controllers/terraformlayer/states.go:23-67 | the decided state, with only the answered request removed from the annotations |
| LayerObjects.Layer.HandleLayer | internal/controllers/terraformlayer/states.go:79-139 | the run to make, none, or the panic, as the protocol decides before the request was removed |
| LayerObjects.Layer.DeleteAll | internal/controllers/terraformlayer/run.go:90-97 | deletes a prefix of the list, up to the first refusal: no refused run goes, and all go when none is refused |
| LayerObjects.Layer.CleanupRuns | internal/controllers/terraformlayer/controller.go:146-177 | deletes runs outside the history and no others: none when they cannot be listed, all when none is refused |
| LayerObjects.Layer.ReconcileLayer | internal/controllers/terraformlayer/controller.go:74-144 | the layer afterwards is the protocol's layer step of the layer before, cleanup going as far as listing and refusals allow |
| LayerObjects.Layer.ExecPlan | internal/runner/actions.go:78-132 | stores the plan under run and retry count and returns the digest of exactly these bytes |
| LayerObjects.Layer.ExecApply | internal/runner/actions.go:136-171 | applies the artifact named in the run and returns its digest; fails when it is not stored |
| LayerObjects.Layer.ExecAction | internal/runner/actions.go:25-59 | succeeds exactly when the execution and the patch do and, for an apply, its artifact is stored; then the layer carries date, run and attempt, digest and commit of this plan, or date, digest and commit of this apply, and nothing else of it changes; it takes the protocol's store-or-apply step and then its publish step |
| LayerObjects.Layer.SyncLayer | internal/server/api/sync.go:15-38 | the protocol's sync request, accepted exactly when none is annotated or shown as pending |
| LayerObjects.Layer.ApplyLayer | internal/server/api/sync.go:40-63 | the protocol's apply request, refused exactly on layers managed by a pull request |
| AnnotationMap.Add | internal/annotations/annotations.go:39-52 | sets exactly the given annotations, in whatever order the map is gone through |
| AnnotationMap.ParseFormatted | internal/runner/actions.go:35-35 | run and attempt written as one annotation are read back as they were |
| AnnotationMap.PlanReported | internal/runner/actions.go:34-37 | the texts a runner sets read as date, coordinates, digest and commit of its plan, and nothing else changes |
| AnnotationMap.CommitMarked | internal/controllers/terraformrepository/states.go:184-205 | the texts set for a new revision are the protocol's commit step |
| SyncWindows.IsSyncBlocked | internal/utils/syncwindow/syncwindow.go:34-85 | the loop with its early exit gives a verdict that does not depend on the order of the windows, with its reason |
| SyncWindows.VerdictByOccurrence | internal/utils/syncwindow/syncwindow.go:13-18 | blocked exactly inside an occurrence of an applicable deny window, or when an allow window applies and none has an occurrence that now lies in; of the library only what it makes of these windows' schedules is used |
| SyncWindows.OneStartIsEnoughIff | internal/utils/syncwindow/syncwindow.go:87-106 | testing only the first start after now - duration decides whether now lies in an occurrence, unless the cron search gives up on one |
| SyncWindows.OneStartIsEnough | internal/utils/syncwindow/syncwindow.go:104-105 | for a window no longer than the search horizon it always does |
| SyncWindows.EveryIsAlwaysOrNever | internal/utils/syncwindow/syncwindow.go:100-105 | a window scheduled by a delay is active at all times when it is longer than the delay, at none when it is a second shorter, and in between by the fraction of a second |
| SyncWindows.EveryIsNoCron | internal/utils/syncwindow/syncwindow.go:88-105 | no fire times make a cron expression of a delay of more than a second |
| SyncWindows.IsLayerInSyncWindow | internal/utils/syncwindow/syncwindow.go:108-122 | some pattern is "*" or matches; malformed patterns are skipped |
| Encryption.Pad | internal/utils/encryption/encryption.go:103-110 | the padded buffer: the data and then n bytes of value n up to the next block |
| Encryption.Unpad | internal/utils/encryption/encryption.go:113-131 | the data without its padding, or the error the padding deserves |
| Encryption.UnpadPad | internal/utils/encryption/encryption.go:103-131 | unpadding undoes padding for all data |
| Encryption.DecryptedEncrypted | internal/utils/encryption/encryption.go:47-52 | cipher block chaining is undone by its inverse, for every block cipher and vector |
| Encryption.Encrypt | internal/utils/encryption/encryption.go:32-60 | the buffers hold the vector followed by the chained blocks of the padded plaintext |
| Encryption.Decrypt | internal/utils/encryption/encryption.go:64-100 | the plaintext, or the error for short, ragged or badly padded data; empty data opens as empty |
| Encryption.OpenedSealed | internal/utils/encryption/encryption.go:32-100 | decryption undoes encryption for every plaintext and vector |
| Encryption.SealedBlocks | internal/utils/encryption/encryption.go:41-59 | the sealed bytes are the vector and then, block by block, the cipher of each padded plaintext block mixed with the ciphertext block before it |
| Encryption.OpensIff | internal/utils/encryption/encryption.go:64-131 | data opens exactly when it is empty, or whole blocks, more than one, whose decryption ends with as many bytes of one value as that value says |
| Encryption.OpenedIsSealedIff | internal/utils/encryption/encryption.go:113-131 | data that decryption opens is data that encryption makes exactly when the padding removed is at most a block |
| Datastore.ReadBack | internal/datastore/storage/encryption.go:38-58 | what is written through the manager reads back, with encryption on or off |
| Datastore.PlainReadsBackIff | internal/datastore/storage/encryption.go:46-58 | plaintext from before encryption reads back as it is exactly when it does not open or is empty |
| Datastore.Mock.List | internal/datastore/storage/mock/mock.go:68-96 | each entry one level below the prefix once, or none when no key lies there |
| Datastore.Mock.ListRecursive | internal/datastore/storage/mock/mock.go:99-120 | each key below the prefix once |
| Datastore.SortFunc | internal/datastore/storage/common.go:193-198 | a permutation in place, ascending when no comparison overflows |
| Storage.KeysAreInjective | internal/datastore/storage/common.go:31-55 | two writes share a map key exactly when they are for the same object: plans of one attempt by their form, where any unknown format is the JSON form, with slashes allowed in branch names |
| Storage.FormsReadBack | internal/runner/actions.go:94-127 | after the four forms of a plan are put at one attempt, each reads back as it was put, whatever was written before |
| Storage.ReadsLastWrite | internal/datastore/storage/common.go:132-139 | after any sequence of writes an object reads as its last write |
| Storage.AttemptsAreWritten | internal/datastore/storage/common.go:179-191 | after any sequence of writes the attempts listed for a run are those written for exactly that run, prefixes or not |
| Storage.LatestPlanIsLastWritten | internal/datastore/storage/common.go:141-177 | after a plan is written at an attempt no other write of its run exceeds, the latest plan is that plan |
| Storage.Storage.GetAttempts | internal/datastore/storage/common.go:179-201 | each attempt of the run once, in numerical order |
| Storage.Storage.GetLatestAttempt | internal/datastore/storage/common.go:167-177 | the numerically greatest attempt, or "-1" with an error exactly when there is none |
| Storage.Storage.GetLatestPlan | internal/datastore/storage/common.go:141-151 | the plan at that attempt |
| Storage.Storage.PutPlan | internal/datastore/storage/common.go:153-166 | writes one key and leaves all others |
| Migration.API.EncryptSingleFile | internal/datastore/api/encrypt.go:134-178 | encrypts a file exactly when an encryptor is there, the file does not open and random bytes are to be had; otherwise changes nothing and says why |
| Migration.API.EncryptAllFiles | internal/datastore/api/encrypt.go:93-132 | all files under the prefix are gone through once; the count is that of the files encrypted, and the errors are those of the others |
| Migration.MigrationKeepsMeaning | internal/datastore/api/encrypt.go:93-178 | every key reads the same before and after a pass, even plaintext that opens by chance; no other object changes |
| Migration.TargetsAreLayers | internal/datastore/api/encrypt.go:97-112 | a pass goes through every stored plan and all logs, and through no bundle |
| Migration.MigratedFilesOpen | internal/datastore/api/encrypt.go:156-176 | after a pass every file opens |
| Migration.SecondPassWritesNothing | internal/datastore/api/encrypt.go:156-162 | a second pass writes and encrypts nothing, and reports an error for every file |
| RepositorySync.OnePassConvergesIff | internal/controllers/terraformrepository/states.go:48-152 | after one reconciliation in which nothing fails the repository counts as synced exactly when every request can be read and is not later than now, or than a sync that still stands |
| RepositorySync.PassLeaves | internal/controllers/terraformrepository/states.go:75-145 | whatever fails, a pass leaves every branch skipped or as its own sync leaves it, and every layer that could be annotated carrying the revision its branch was synced to, judged by what was there before the pass; no branch's sync depends on another's |
| RepositorySync.CleanPass | internal/controllers/terraformrepository/states.go:75-145 | a clean pass leaves every branch skipped or synced to the provider's latest revision, with its bundle stored, and every layer of a synced branch annotated with that revision |
| RepositorySync.ReconciledLayer | internal/controllers/terraformrepository/states.go:181-215 | after a reconciliation a layer carries the very revision its branch's new state shows, as branch commit, and as relevant commit when it had none or is affected; or it is left alone because the branch was skipped, not synced, or the patch failed |
| RepositorySync.ReconciledTracks | internal/controllers/terraformrepository/states.go:60-75 | after it there is a branch state for exactly the branches that layers follow |
| RepositorySync.RequestIsHeard | internal/controllers/terraformrepository/conditions.go:35-47 | a request later than the last sync of its branch keeps the repository from counting as synced and the branch from being skipped |
| RepositorySync.RequestsApart | internal/annotations/annotations.go:37-39 | branches without dashes in their names have requests of their own |
| RepositorySync.RequestsShared | internal/annotations/annotations.go:37-39 | others may share one |
| RepositorySync.SyncedIff | internal/controllers/terraformrepository/conditions.go:51-182 | synced exactly when the layers can be listed and each is annotated and follows a branch that was synced successfully, recently, after the last request, with its bundle stored |
| RepositorySync.ReconciledConsistent | internal/controllers/terraformrepository/states.go:96-179 | whatever fails, names stay free of duplicates, date and status are set together, and a success has its bundle stored |
| RepositorySync.ReconciledBundles | internal/controllers/terraformrepository/states.go:106-143 | no layer is annotated with a commit whose bundle is not stored |
| RepositorySync.MergeNames | internal/controllers/terraformrepository/conditions.go:16-33 | after a merge there is a state for exactly the branches found |
| RepositorySync.MergedFrom | internal/controllers/terraformrepository/conditions.go:16-33 | a merged state is the stored one, or a new one only for a branch that had none |
| RepositorySync.UpdatedAt | internal/controllers/terraformrepository/states.go:169-179 | with unique names exactly the named branch's state is replaced |
| RepositoryController.MergeBranchesWithBranchState | internal/controllers/terraformrepository/conditions.go:16-33 | the two loops compute the merge |
| RepositoryController.UpdateBranchState | internal/controllers/terraformrepository/states.go:169-179 | the first state of that name is written in place |
| RepositoryController.GetBranchState | api/v1alpha1/terraformrepository_types.go:81-88 | the first state of that name, or none exactly when there is none |
| RepositoryController.IsThereANewLayer | internal/controllers/terraformrepository/polling.go:47-54 | some layer has no branch commit |
| RepositoryController.Reconciler.IsSyncNowRequested | internal/controllers/terraformrepository/conditions.go:35-47 | a readable request later than the last sync, or an error for an unreadable one |
| RepositoryController.Reconciler.LastSyncTooOld | internal/controllers/terraformrepository/conditions.go:51-131 | the search with its early exits decides whether some tracked branch is out of date |
| RepositoryController.Reconciler.LastSyncFailed | internal/controllers/terraformrepository/conditions.go:135-182 | a failed state before the first one that was never synced |
| RepositoryController.Reconciler.AnnotateLayers | internal/controllers/terraformrepository/states.go:181-215 | every layer of the branch takes the protocol's commit step, and no other layer changes |
| RepositoryController.Reconciler.Handle | internal/controllers/terraformrepository/states.go:48-152 | the pass over the branches in place, bundles and annotations included |
| RepositoryController.Reconciler.Reconcile | internal/controllers/terraformrepository/controller.go:74-107 | decision and pass together |

## Left out

- LayerConverges: a branch that returns to the planned commit while another commit is relevant ends it;
  `ReturnUnsettles` says why. What holds when a run is given up is in `KeptConvergesIff` and `GivingUpUnsettles`.
- PartingIsApplied: that a step can lead to a wrong apply means that the system can go on so, not that it must.
- ExclusionHolds: for a history policy of at least one run; `ExclusionIffHistoryKept` says that it fails otherwise, and the
  same hypothesis is made wherever the invariant is used.
- AppliedOnce: counts automatic applies only; a manual request may apply a plan again. That a loss is repeated means that
  the system can go on so, not that it must: a closed window or a new plan may come first.
- LeaseFollowsRun: for a lease that one layer has to itself, with lease requests that reach the API server.
- GetAttempts: the library's sort is an insertion sort here; what is stated of it does not depend on the algorithm.
- ParseFormatted: for run names without a slash, as the API server admits them. A plan-run annotation that no runner wrote
  and whose attempt is no number is read as missing.
- SharedLeaseIff: for two texts that do not collide under the 32-bit hash; a collision makes more layers share a lease.
- LogKeysAreApart: for names without a slash, as the API server admits them.
- ExecAction: the clock stands still within one call; in the protocol other steps may come between its two.
- Handle: the answers of the git provider and the datastore do not change within one pass.
- The JSON, pretty and short forms of a plan, the layer's last result, the option to apply without the artifact, and
  everything Terraform does.
- Requeue delays, events, log lines and condition messages.
- `LayerFilesHaveChanged` and the choice of layers a pull request affects: whether a commit is relevant is a parameter.
- Backoff values: the grace period is a function of the retry count, since the cast of an exponential to 32 bits limits it.
- Webhooks, git and API providers, the HTTP layer, sessions, the user interface, and the S3, GCS and Azure backends.
- Changes of specifications, labels or history policy during an execution, and deletion of a layer.
