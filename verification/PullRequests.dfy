/** Temporary layers of pull requests, and why nothing is ever applied from them. */
module PullRequests {
  import opened Resources
  import RC = RunController
  import LC = LayerController
  import opened Protocol
  import opened Invariant
  import opened Requests
  import opened Lock

  /** A layer as the pull request controller reads or makes it. */
  datatype LayerObject = LayerObject(
    namePrefix: string,
    place: Place,
    branch: string,
    spec: LayerSpec,
    branchCommit: Option<string>,
    relevantCommit: Option<string>)

  datatype PullRequest = PullRequest(name: string, id: string, branch: string, branchCommit: string)

  /** The temporary copy of one layer: never applied automatically, and labelled with its pull request. */
  function TempLayer(pr: PullRequest, layer: LayerObject): LayerObject {
    LayerObject(
      layer.namePrefix + "-pr-" + pr.id + "-", layer.place, pr.branch,
      LayerSpec(Some(false), None, layer.spec.keepLastRuns, pr.name),
      Some(pr.branchCommit), Some(pr.branchCommit))
  }

  method GenerateTempLayers(pr: PullRequest, layers: seq<LayerObject>) returns (list: seq<LayerObject>)
    ensures |list| == |layers|
    ensures forall i :: 0 <= i < |layers| ==> list[i] == TempLayer(pr, layers[i])
  {
    list := [];
    for i := 0 to |layers|
      invariant |list| == i
      invariant forall j :: 0 <= j < i ==> list[j] == TempLayer(pr, layers[j])
    {
      list := list + [TempLayer(pr, layers[i])];
    }
  }

  /** Nothing on the layer asks for an apply, and nothing was ever applied. */
  ghost predicate PlansOnly(w: World) {
    && !w.ann.applyNow
    && w.applied == []
    && (forall r :: r in w.runs ==> w.runs[r].action == PlanAction)
    && (forall p :: p in w.pods ==> !w.pods[p].progress.Applied?)
  }

  /** A layer that neither applies by itself nor takes requests decides on plans only. */
  lemma PlansOnlyDecision(ctx: Context, w: World, ch: LC.LayerChoice)
    requires ctx.layer.autoApply == Some(false) && !w.ann.applyNow
    ensures var decision := LC.Decide(ctx, w, LC.GetState(ctx, w), ch);
            !decision.NoArtifact? && (decision.Create? ==> decision.run.action == PlanAction)
  {
  }

  lemma PlansOnlyLayerStep(ctx: Context, w: World, ch: LC.LayerChoice)
    requires ctx.layer.autoApply == Some(false) && PlansOnly(w)
    ensures PlansOnly(LC.ReconcileLayer(ctx, w, ch))
  {
    PlansOnlyDecision(ctx, w, ch);
    var state, keep := LC.GetState(ctx, w), KeepLastRuns(ctx);
    if !ch.locked {
      match LC.Decide(ctx, w, state, ch) {
        case NoRun => PlansOnlyCleanup(LC.Shown(w, state, ch), keep, ch.undeleted);
        case Create(run) =>
          if !LC.HistoryPanics(w.status.latestRuns, keep) {
            PlansOnlyCleanup(LC.Recorded(w, state, ch, run, keep), keep, ch.undeleted);
          }
      }
    }
  }

  lemma PlansOnlyCleanup(w: World, keep: int, undeleted: set<RunName>)
    requires PlansOnly(w)
    ensures PlansOnly(LC.Cleanup(w, keep, undeleted))
  {
  }

  lemma PlansOnlyRunStep(ctx: Context, w: World, r: RunName, ch: RC.RunChoice)
    requires PlansOnly(w)
    ensures PlansOnly(RC.ReconcileRun(ctx, w, r, ch))
  {
  }

  lemma PlansOnlyRunnerStep(ctx: Context, w: World, step: Step)
    requires PlansOnly(w) && IsRunnerStep(step)
    ensures PlansOnly(RunnerDoes(ctx, w, step))
  {
  }

  lemma PlansOnlyNext(ctx: Context, w: World, step: Step)
    requires ctx.layer.autoApply == Some(false) && ctx.layer.managedBy != "" && PlansOnly(w)
    ensures PlansOnly(Apply(ctx, w, step))
  {
    if step.LayerStep? {
      PlansOnlyLayerStep(ctx, w, step.layer);
    } else if step.RunStep? {
      PlansOnlyRunStep(ctx, w, step.run, step.choice);
    } else if IsRunnerStep(step) {
      PlansOnlyRunnerStep(ctx, w, step);
    }
  }

  /** The layer as the API server has it once it is created. */
  predicate IsCreated(w: World, layer: LayerObject) {
    && Init(w) && w.ann.branchCommit == layer.branchCommit && w.ann.relevantCommit == layer.relevantCommit
    && !w.ann.syncNow && !w.ann.applyNow
  }

  /** What a pull request's layer is for: it is the same directory of the same repository as the layer it was made from,
      on the pull request's branch and with its history policy, and the first run it gets is a plan of the pull
      request's commit. */
  lemma TempLayerPlansItsCommit(
    ctx: Context, pr: PullRequest, base: LayerObject, w: World, ch: LC.LayerChoice)
    requires IsCreated(w, TempLayer(pr, base)) && KeepLastRuns(ctx) >= 1 && !ch.locked && !ch.planBlocked && ch.created
    ensures var temp := TempLayer(pr, base);
            && temp.place == base.place && temp.branch == pr.branch && temp.spec.keepLastRuns == base.spec.keepLastRuns
            && temp.spec.autoApply == Some(false) && temp.spec.managedBy == pr.name
    ensures var w' := LC.ReconcileLayer(ctx, w, ch);
            && w'.runs.Keys == {ch.run} && w'.runs[ch.run].action == PlanAction
            && w'.runs[ch.run].revision == pr.branchCommit
  {
    assert LC.GetState(ctx, w) == PlanNeeded;
    InitInv(ctx, w);
    RunMade(ctx, w, ch);
    LayerStepEffect(ctx, w, ch);
  }

  /** No apply run is ever made for a layer of a pull request, whatever the repository's remediation strategy and
      history policy say and whatever the API is asked. */
  lemma {:induction false} TempLayersAreNeverApplied(
    ctx: Context, pr: PullRequest, base: LayerObject, ws: seq<World>, steps: seq<Step>, i: nat)
    requires ctx.layer == TempLayer(pr, base).spec && pr.name != ""
    requires Execution(ctx, ws, steps) && !ws[0].ann.applyNow && i <= |steps|
    ensures PlansOnly(ws[i])
  {
    if i > 0 {
      TempLayersAreNeverApplied(ctx, pr, base, ws, steps, i - 1);
      assert NextAt(ctx, ws, steps, i - 1);
      PlansOnlyNext(ctx, ws[i - 1], steps[i - 1]);
    }
  }
}
