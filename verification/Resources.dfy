/** The API objects the controllers and the runner share, reduced to the fields they read or write. */
module Resources {

  type RunName = string
  type PodName = string
  type Bytes = seq<bv8>

  datatype Option<+T> = None | Some(value: T)

  /** A date string as its readers see it: missing, not in UnixDate format, or a time in seconds. */
  datatype Stamp = Absent | Garbled | At(time: int)

  datatype Action = PlanAction | ApplyAction

  /** One attempt of one run: the coordinates under which an artifact is stored. */
  datatype Coord = Coord(run: RunName, attempt: nat)

  // ---- specifications and settings ----

  datatype LayerSpec = LayerSpec(
    autoApply: Option<bool>,
    maxRetries: Option<int>,
    keepLastRuns: Option<int>,
    managedBy: string)            // label burrito/managed-by, "" when missing

  datatype RepoSpec = RepoSpec(
    autoApply: Option<bool>,
    maxRetries: Option<int>,
    keepLastRuns: Option<int>,
    maxConcurrentRunnerPods: int)

  datatype Settings = Settings(
    maxRetries: int,
    maxConcurrentRunnerPods: int,
    driftDetection: int,
    backoff: nat -> int,          // grace period after a failed attempt, by retry count
    digest: Bytes -> string)      // base64 of SHA-256

  datatype Context = Context(layer: LayerSpec, repo: RepoSpec, settings: Settings)

  function Choose<T>(repo: Option<T>, layer: Option<T>, default: T): T {
    if layer.Some? then layer.value else if repo.Some? then repo.value else default
  }

  /** A layer's own setting goes before its repository's, and that before the default; where a setting does not count,
      it may be anything. */
  lemma SettingsPrecedence(ctx: Context, repo: RepoSpec, settings: Settings, n: int, on: bool)
    ensures var other := Context(ctx.layer, repo, settings);
            && (ctx.layer.maxRetries == Some(n) ==> MaxRetries(other) == n)
            && (ctx.layer.keepLastRuns == Some(n) ==> KeepLastRuns(other) == n)
            && (ctx.layer.autoApply == Some(on) ==> AutoApplyEnabled(other) == on)
    ensures var other := ctx.(settings := settings);
            && (ctx.layer.maxRetries.None? && ctx.repo.maxRetries == Some(n) ==> MaxRetries(other) == n)
            && (ctx.layer.keepLastRuns.None? && ctx.repo.keepLastRuns == Some(n) ==> KeepLastRuns(other) == n)
            && (ctx.layer.autoApply.None? && ctx.repo.autoApply == Some(on) ==> AutoApplyEnabled(other) == on)
            && (ctx.repo.maxConcurrentRunnerPods > 0 ==> Limit(other) == ctx.repo.maxConcurrentRunnerPods)
    ensures var defaults := Context(LayerSpec(None, None, None, ""), RepoSpec(None, None, None, 0), settings);
            && MaxRetries(defaults) == settings.maxRetries && Limit(defaults) == settings.maxConcurrentRunnerPods
            && KeepLastRuns(defaults) == 5 && !AutoApplyEnabled(defaults)
  {
  }

  function AutoApplyEnabled(ctx: Context): bool {
    Choose(ctx.repo.autoApply, ctx.layer.autoApply, false)
  }

  function MaxRetries(ctx: Context): int {
    Choose(ctx.repo.maxRetries, ctx.layer.maxRetries, ctx.settings.maxRetries)
  }

  function KeepLastRuns(ctx: Context): int {
    Choose(ctx.repo.keepLastRuns, ctx.layer.keepLastRuns, 5)
  }

  /** The limit that applies to a repository: its own when positive, else the controller's. */
  function Limit(ctx: Context): int {
    if ctx.repo.maxConcurrentRunnerPods > 0 then ctx.repo.maxConcurrentRunnerPods
    else ctx.settings.maxConcurrentRunnerPods
  }

  // ---- pods ----

  /** PodUnknown is what getPodPhase answers for a pod that is gone. */
  datatype PodPhase = PodPending | PodRunning | PodSucceeded | PodFailed | PodUnknown

  /** How far the runner process inside a pod has come. */
  datatype Progress = Started | Stored(plan: Bytes) | Applied(artifact: Bytes) | Published

  datatype Pod = Pod(run: RunName, attempt: nat, phase: PodPhase, progress: Progress)

  predicate Active(pod: Pod) {
    pod.phase == PodPending || pod.phase == PodRunning
  }

  // ---- runs ----

  datatype RunState = NoStatus | Initial | Running | FailureGracePeriod | Retrying | Succeeded | Failed

  predicate Terminal(state: RunState) {
    state == Succeeded || state == Failed
  }

  datatype Attempt = Attempt(podName: PodName, number: nat, logsUploaded: bool)

  datatype RunStatus = RunStatus(
    state: RunState,
    retries: nat,
    lastRun: Stamp,
    runnerPod: Option<PodName>,
    attempts: seq<Attempt>)

  /** The field auto records whether the layer controller made the run without a manual request;
      no controller reads it. */
  datatype Run = Run(
    action: Action,
    revision: string,
    artifact: Option<Coord>,
    created: int,
    auto: bool,
    status: RunStatus)

  const NEW_STATUS := RunStatus(NoStatus, 0, Absent, None, [])

  // ---- layers ----

  datatype Annotations = Annotations(
    planDate: Stamp,
    planRun: Option<Coord>,
    planSum: Option<string>,
    planCommit: Option<string>,
    applyDate: Stamp,
    applySum: Option<string>,
    applyCommit: Option<string>,
    branchCommit: Option<string>,
    branchDate: Stamp,
    relevantCommit: Option<string>,
    relevantDate: Stamp,
    syncNow: bool,
    applyNow: bool)

  datatype LayerState = Unreconciled | Idle | PlanNeeded | ApplyNeeded(isManual: bool) | MaxRetriesReached

  datatype LayerRun = LayerRun(name: RunName, date: int, action: Action)

  datatype LayerStatus = LayerStatus(
    state: LayerState,
    syncScheduled: bool,          // condition IsSyncScheduled of the last reconciliation
    lastRun: Option<LayerRun>,
    latestRuns: seq<LayerRun>)

  /** Everything filed under one layer, with the clock. The two name sets hold every name the API
      server has generated so far: generated names do not repeat. The field applied lists the
      artifacts that terraform has applied for unasked runs, for the statements only. */
  datatype World = World(
    ann: Annotations,
    status: LayerStatus,
    runs: map<RunName, Run>,
    runNames: set<RunName>,
    pods: map<PodName, Pod>,
    podNames: set<PodName>,
    plans: map<Coord, Bytes>,     // the "bin" objects of the datastore
    applied: seq<Coord>,
    now: int)
}
