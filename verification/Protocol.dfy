/** One layer's life as a transition system: both controllers, the runner, the pods, the API and the clock. */
module Protocol {
  import opened Resources
  import RC = RunController
  import LC = LayerController

  datatype Step =
    | LayerStep(layer: LC.LayerChoice)
    | RunStep(run: RunName, choice: RC.RunChoice)
    | StartPod(pod: PodName)
    | FailPod(pod: PodName)
    | ExitPod(pod: PodName)
    | VanishPod(pod: PodName)
    | StorePlan(pod: PodName, plan: Bytes)
    | ApplyPlan(pod: PodName)
    | Publish(pod: PodName)
    | RequestSync
    | RequestApply
    | SeeCommit(revision: string, relevant: bool)
    | Tick(seconds: nat)

  // ---- pods ----

  predicate PodIn(w: World, pod: PodName, phase: PodPhase) {
    pod in w.pods && w.pods[pod].phase == phase
  }

  function SetPhase(w: World, pod: PodName, phase: PodPhase): World
    requires pod in w.pods
  {
    w.(pods := w.pods[pod := w.pods[pod].(phase := phase)])
  }

  function SetProgress(w: World, pod: PodName, progress: Progress): World
    requires pod in w.pods
  {
    w.(pods := w.pods[pod := w.pods[pod].(progress := progress)])
  }

  // ---- runner ----

  /** A runner works only while its pod runs, and only for a run it could read. */
  predicate Works(w: World, pod: PodName) {
    PodIn(w, pod, PodRunning) && w.pods[pod].run in w.runs
  }

  /** The coordinates the runner reads from its run. */
  function CoordOf(w: World, pod: PodName): Coord
    requires pod in w.pods && w.pods[pod].run in w.runs
  {
    Coord(w.pods[pod].run, w.runs[w.pods[pod].run].status.retries)
  }

  function RunOf(w: World, pod: PodName): Run
    requires pod in w.pods && w.pods[pod].run in w.runs
  {
    w.runs[w.pods[pod].run]
  }

  function PublishResult(ctx: Context, w: World, pod: PodName): World
    requires pod in w.pods && w.pods[pod].run in w.runs
  {
    var run := RunOf(w, pod);
    match w.pods[pod].progress
    case Stored(plan) =>
      SetProgress(w, pod, Published).(ann := w.ann.(
        planDate := At(w.now), planRun := Some(CoordOf(w, pod)),
        planSum := Some(ctx.settings.digest(plan)), planCommit := Some(run.revision)))
    case Applied(artifact) =>
      SetProgress(w, pod, Published).(ann := w.ann.(
        applyDate := At(w.now), applySum := Some(ctx.settings.digest(artifact)), applyCommit := Some(run.revision)))
    case _ => w
  }

  // ---- commits ----

  /** What the repository controller writes on one layer after a sync of its branch. */
  function Annotated(ann: Annotations, now: int, revision: string, relevant: bool): Annotations {
    var a :=
      if ann.branchCommit != Some(revision) then ann.(branchCommit := Some(revision), branchDate := At(now))
      else ann;
    if ann.relevantCommit.None? || relevant then a.(relevantCommit := Some(revision), relevantDate := At(now))
    else a
  }

  // ---- steps ----

  /** The API server never generates a name twice. */
  predicate Fresh(w: World, step: Step) {
    match step
    case LayerStep(ch) => ch.run !in w.runNames
    case RunStep(_, ch) => ch.pod !in w.podNames
    case _ => true
  }

  /** A pod starts, ends or is removed. It may fail at any time, even after its runner has published; it ends well only
      then. */
  function PodLife(w: World, step: Step): World {
    match step
    case StartPod(p) => if PodIn(w, p, PodPending) then SetPhase(w, p, PodRunning) else w
    case FailPod(p) => if p in w.pods && Active(w.pods[p]) then SetPhase(w, p, PodFailed) else w
    case ExitPod(p) =>
      if PodIn(w, p, PodRunning) && w.pods[p].progress == Published then SetPhase(w, p, PodSucceeded) else w
    case VanishPod(p) => w.(pods := w.pods - {p})
    case _ => w
  }

  /** Terraform has applied the artifact; it counts as applied from here on, whatever becomes of the report. */
  function ApplyArtifact(w: World, pod: PodName): World
    requires pod in w.pods && w.pods[pod].run in w.runs
    requires RunOf(w, pod).artifact.Some? && RunOf(w, pod).artifact.value in w.plans
  {
    var c := RunOf(w, pod).artifact.value;
    SetProgress(w, pod, Applied(w.plans[c])).(
      applied := if RunOf(w, pod).auto then w.applied + [c] else w.applied)
  }

  /** The runner stores a plan, or reads the artifact of its run and applies it, and then publishes on the layer. */
  function RunnerDoes(ctx: Context, w: World, step: Step): World {
    match step
    case StorePlan(p, plan) =>
      if Works(w, p) && RunOf(w, p).action == PlanAction && w.pods[p].progress == Started then
        SetProgress(w, p, Stored(plan)).(plans := w.plans[CoordOf(w, p) := plan])
      else w
    case ApplyPlan(p) =>
      if Works(w, p) && RunOf(w, p).action == ApplyAction && w.pods[p].progress == Started
         && RunOf(w, p).artifact.Some? && RunOf(w, p).artifact.value in w.plans
      then ApplyArtifact(w, p)
      else w
    case Publish(p) => if Works(w, p) then PublishResult(ctx, w, p) else w
    case _ => w
  }

  /** The API's two requests, a synced commit, the clock. */
  function Outside(ctx: Context, w: World, step: Step): World {
    match step
    case RequestSync =>
      if w.ann.syncNow || w.status.syncScheduled then w else w.(ann := w.ann.(syncNow := true))
    case RequestApply => if ctx.layer.managedBy != "" then w else w.(ann := w.ann.(applyNow := true))
    case SeeCommit(rev, relevant) => w.(ann := Annotated(w.ann, w.now, rev, relevant))
    case Tick(s) => w.(now := w.now + s)
    case _ => w
  }

  predicate IsPodStep(step: Step) {
    step.StartPod? || step.FailPod? || step.ExitPod? || step.VanishPod?
  }

  predicate IsRunnerStep(step: Step) {
    step.StorePlan? || step.ApplyPlan? || step.Publish?
  }

  function Apply(ctx: Context, w: World, step: Step): World {
    if step.LayerStep? then LC.ReconcileLayer(ctx, w, step.layer)
    else if step.RunStep? then RC.ReconcileRun(ctx, w, step.run, step.choice)
    else if IsPodStep(step) then PodLife(w, step)
    else if IsRunnerStep(step) then RunnerDoes(ctx, w, step)
    else Outside(ctx, w, step)
  }

  predicate Next(ctx: Context, w: World, step: Step, w': World) {
    Fresh(w, step) && w' == Apply(ctx, w, step)
  }

  /** A layer as it is created: nothing has run for it yet. */
  predicate Init(w: World) {
    && w.status == LayerStatus(Unreconciled, false, None, [])
    && w.runs == map[] && w.runNames == {} && w.pods == map[] && w.podNames == {}
    && w.plans == map[] && w.applied == []
    && w.ann.planRun.None? && w.ann.planSum.None? && w.ann.planDate.Absent? && w.ann.planCommit.None?
  }

  /** ws[i] becomes ws[i + 1] by steps[i]. */
  predicate NextAt(ctx: Context, ws: seq<World>, steps: seq<Step>, i: nat) {
    i < |steps| && i + 1 < |ws| && Next(ctx, ws[i], steps[i], ws[i + 1])
  }

  /** A path of the system. */
  predicate Path(ctx: Context, ws: seq<World>, steps: seq<Step>) {
    |ws| == |steps| + 1 && forall i :: 0 <= i < |steps| ==> NextAt(ctx, ws, steps, i)
  }

  predicate Execution(ctx: Context, ws: seq<World>, steps: seq<Step>) {
    Path(ctx, ws, steps) && Init(ws[0])
  }

  // ---- going on ----

  const NOTHING := Annotations(Absent, None, None, None, Absent, None, None, None, Absent, None, Absent, false, false)
  const NEW_LAYER := World(NOTHING, LayerStatus(Unreconciled, false, None, []), map[], {}, map[], {}, map[], [], 0)

  /** A reconciliation of the layer in which nothing fails, with its windows open or closed. */
  function Offer(open: bool, run: RunName): LC.LayerChoice {
    LC.LayerChoice(false, true, !open, !open, true, run, {})
  }

  /** A reconciliation of a run in which nothing fails but, perhaps, the lease. */
  function Serve(locked: bool, pod: PodName): RC.RunChoice {
    RC.RunChoice(true, locked, true, true, pod, map[])
  }

  lemma PathAppend(ctx: Context, ws: seq<World>, steps: seq<Step>, step: Step)
    requires Path(ctx, ws, steps) && Fresh(ws[|steps|], step)
    ensures Path(ctx, ws + [Apply(ctx, ws[|steps|], step)], steps + [step])
  {
    var ws', steps' := ws + [Apply(ctx, ws[|steps|], step)], steps + [step];
    forall i | 0 <= i < |steps'| ensures NextAt(ctx, ws', steps', i) {
      if i < |steps| {
        assert NextAt(ctx, ws, steps, i);
      }
    }
  }

  /** A path goes on with any step. */
  lemma PathExtend(ctx: Context, ws: seq<World>, steps: seq<Step>, step: Step)
    returns (ws': seq<World>, steps': seq<Step>)
    requires Path(ctx, ws, steps) && Fresh(ws[|steps|], step)
    ensures Path(ctx, ws', steps') && ws'[|steps'|] == Apply(ctx, ws[|steps|], step)
    ensures ws <= ws' && steps' == steps + [step] && ws'[|steps|] == ws[|steps|] && ws'[0] == ws[0]
  {
    PathAppend(ctx, ws, steps, step);
    ws', steps' := ws + [Apply(ctx, ws[|steps|], step)], steps + [step];
  }

  /** There is always a name that was not generated yet. */
  lemma FreshName(names: set<string>) returns (name: string)
    ensures name !in names
  {
    var n := LongerThan(names);
    name := seq(n, i => 'x');
  }

  lemma {:induction false} LongerThan(names: set<string>) returns (n: nat)
    ensures forall s :: s in names ==> |s| < n
  {
    n := 0;
    if names != {} {
      var s :| s in names;
      n := LongerThan(names - {s});
      n := if |s| < n then n else |s| + 1;
    }
  }
}
