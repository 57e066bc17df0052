/** The TerraformLayer controller: its conditions, its choice of action, its run history and cleanup. */
module LayerController {
  import opened Resources

  /** What the API server and the sync windows answer during one reconciliation. */
  datatype LayerChoice = LayerChoice(
    locked: bool,                 // a lease with the layer's lock name exists
    unmarked: bool,               // the request annotation could be removed
    planBlocked: bool,
    applyBlocked: bool,
    created: bool,                // the run could be created
    run: RunName,                 // its generated name
    undeleted: set<RunName>)      // runs that cleanup tried and failed to delete

  // ---- conditions ----

  predicate IsRunning(w: World) {
    && w.status.lastRun.Some?
    && w.status.lastRun.value.name in w.runs
    && !Terminal(w.runs[w.status.lastRun.value.name].status.state)
  }

  predicate IsLastPlanTooOld(ctx: Context, w: World) {
    match w.ann.planDate
    case Absent => true
    case Garbled => false
    case At(t) => t + ctx.settings.driftDetection <= w.now
  }

  predicate HasLastPlanFailed(w: World) {
    w.ann.planSum.None? || w.ann.planSum.value == ""
  }

  predicate IsLastRelevantCommitPlanned(w: World) {
    var a := w.ann;
    if a.planCommit.None? || a.branchCommit.None? || a.relevantCommit.None? then true
    else if a.planCommit == a.branchCommit || a.planCommit == a.relevantCommit then true
    else if a.branchDate.Absent? then false
    else if !a.planDate.At? || !a.branchDate.At? then true
    else a.planDate.time > a.branchDate.time
  }

  predicate IsApplyUpToDate(w: World) {
    var a := w.ann;
    if HasLastPlanFailed(w) then true
    else if a.applySum.None? then false
    else if a.applySum.value == "" then
      if !a.applyDate.At? || !a.planDate.At? then true else a.planDate.time <= a.applyDate.time
    else a.applySum == a.planSum
  }

  /** Whether the last run gave up at its retry limit on the current revision, and what it did. */
  predicate HasLastRunReachedRetryLimit(ctx: Context, w: World, action: Action) {
    && w.status.lastRun.Some?
    && w.status.lastRun.value.name in w.runs
    && var run := w.runs[w.status.lastRun.value.name];
    && run.status.state == Failed
    && run.status.retries >= MaxRetries(ctx)
    && (w.ann.relevantCommit.None? || w.ann.relevantCommit.value == "" || run.revision == w.ann.relevantCommit.value)
    && run.action == action
  }

  // ---- decision ----

  predicate PlanIsStale(ctx: Context, w: World) {
    IsLastPlanTooOld(ctx, w) || !IsLastRelevantCommitPlanned(w)
  }

  function GetState(ctx: Context, w: World): LayerState {
    var planExhausted := HasLastRunReachedRetryLimit(ctx, w, PlanAction);
    var applyExhausted := HasLastRunReachedRetryLimit(ctx, w, ApplyAction);
    if IsRunning(w) then Idle
    else if w.ann.syncNow then PlanNeeded
    else if w.ann.applyNow then ApplyNeeded(true)
    else if PlanIsStale(ctx, w) && !planExhausted then PlanNeeded
    else if !IsApplyUpToDate(w) && !HasLastPlanFailed(w) && !applyExhausted then ApplyNeeded(false)
    else if planExhausted || applyExhausted then MaxRetriesReached
    else Idle
  }

  /** The annotations once the request that is acted on has been removed. */
  function Unmark(w: World, ch: LayerChoice): Annotations {
    if IsRunning(w) || !ch.unmarked then w.ann
    else if w.ann.syncNow then w.ann.(syncNow := false)
    else w.ann.(applyNow := false)
  }

  /** NoArtifact: an apply run needs the plan-run annotation, and reading it when it is missing panics. */
  datatype Decision = NoRun | NoArtifact | Create(run: Run)

  function Decide(ctx: Context, w: World, state: LayerState, ch: LayerChoice): Decision {
    match state
    case PlanNeeded =>
      if ch.planBlocked || w.ann.relevantCommit.None? || !ch.created then NoRun
      else Create(Run(PlanAction, w.ann.relevantCommit.value, None, w.now, !w.ann.syncNow, NEW_STATUS))
    case ApplyNeeded(manual) =>
      if !manual && !AutoApplyEnabled(ctx) then NoRun
      else if ch.applyBlocked || w.ann.relevantCommit.None? then NoRun
      else if w.ann.planRun.None? then NoArtifact
      else if !ch.created then NoRun
      else Create(Run(ApplyAction, w.ann.relevantCommit.value, w.ann.planRun, w.now, !manual, NEW_STATUS))
    case _ => NoRun
  }

  // ---- run history ----

  /** Index and date of the oldest of the first n entries, starting from (0, now): the search of updateLatestRuns. */
  function Oldest(runs: seq<LayerRun>, n: nat, now: int): (r: (nat, int))
    requires n <= |runs|
    ensures n > 0 ==> r.0 < n
    ensures r.1 <= now
    ensures forall j :: 0 <= j < n ==> r.1 <= runs[j].date
    ensures r.1 < now ==> r.0 < n && runs[r.0].date == r.1 && forall j :: 0 <= j < r.0 ==> runs[j].date > r.1
    ensures r.1 == now ==> r.0 == 0
  {
    if n == 0 then (0, now)
    else
      var best := Oldest(runs, n - 1, now);
      if runs[n - 1].date < best.1 then (n - 1, runs[n - 1].date) else best
  }

  function Drop(runs: seq<LayerRun>, i: nat): seq<LayerRun>
    requires i < |runs|
  {
    runs[..i] + runs[i + 1..]
  }

  /** The history slice cannot be cut when it is empty and the policy keeps nothing. */
  predicate HistoryPanics(runs: seq<LayerRun>, keep: int) {
    |runs| >= keep && |runs| == 0
  }

  function UpdateLatestRuns(runs: seq<LayerRun>, entry: LayerRun, keep: int, now: int): seq<LayerRun>
    requires !HistoryPanics(runs, keep)
  {
    if |runs| < keep then runs + [entry]
    else Drop(runs, Oldest(runs, |runs|, now).0) + [entry]
  }

  function Names(runs: seq<LayerRun>): set<RunName> {
    set r | r in runs :: r.name
  }

  /** The runs cleanup asks the API server to delete. */
  function ToDelete(runs: map<RunName, Run>, latestRuns: seq<LayerRun>, keep: int): set<RunName> {
    if |runs| < keep then {} else runs.Keys - Names(latestRuns)
  }

  function Cleanup(w: World, keep: int, undeleted: set<RunName>): World {
    w.(runs := w.runs - (ToDelete(w.runs, w.status.latestRuns, keep) - undeleted))
  }

  // ---- one reconciliation ----

  function WithRun(w: World, name: RunName, run: Run): World {
    w.(runs := w.runs[name := run], runNames := w.runNames + {name})
  }

  /** The layer as its status is written when no run was made. */
  function Shown(w: World, state: LayerState, ch: LayerChoice): World {
    w.(ann := Unmark(w, ch), status := w.status.(state := state, syncScheduled := w.ann.syncNow))
  }

  /** The layer as its status is written when a run was made. */
  function Recorded(w: World, state: LayerState, ch: LayerChoice, run: Run, keep: int): World
    requires !HistoryPanics(w.status.latestRuns, keep)
  {
    var entry := LayerRun(ch.run, run.created, run.action);
    var latest := UpdateLatestRuns(w.status.latestRuns, entry, keep, w.now);
    WithRun(w, ch.run, run).(
      ann := Unmark(w, ch), status := LayerStatus(state, w.ann.syncNow, Some(entry), latest))
  }

  function ReconcileLayer(ctx: Context, w: World, ch: LayerChoice): World {
    if ch.locked then w
    else
      var state := GetState(ctx, w);
      var keep := KeepLastRuns(ctx);
      match Decide(ctx, w, state, ch)
      case NoArtifact => w.(ann := Unmark(w, ch))
      case NoRun => Cleanup(Shown(w, state, ch), keep, ch.undeleted)
      case Create(run) =>
        if HistoryPanics(w.status.latestRuns, keep) then WithRun(w, ch.run, run).(ann := Unmark(w, ch))
        else Cleanup(Recorded(w, state, ch, run, keep), keep, ch.undeleted)
  }
}
