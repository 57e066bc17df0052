/** From a plan to its apply: stored artifacts are never overwritten, the annotations name them, an apply
    reports the plan it was made from, and no artifact is applied automatically twice. */
module Artifacts {
  import opened Resources
  import RC = RunController
  import LC = LayerController
  import opened Protocol
  import opened Invariant

  /** Every object of the datastore stays as it was first written. */
  ghost predicate Grows(plans: map<Coord, Bytes>, plans': map<Coord, Bytes>) {
    forall c :: c in plans ==> c in plans' && plans'[c] == plans[c]
  }

  /** A runner stores its plan under its own attempt, where nothing was before. */
  lemma RunnerUsesItsOwnKey(ctx: Context, w: World, p: PodName, plan: Bytes)
    requires Inv(ctx, w) && RunnerDoes(ctx, w, StorePlan(p, plan)) != w
    ensures p in w.pods && var c := Coord(w.pods[p].run, w.pods[p].attempt);
            c !in w.plans && RunnerDoes(ctx, w, StorePlan(p, plan)).plans == w.plans[c := plan]
  {
  }

  lemma OthersStoreNothing(ctx: Context, w: World, step: Step)
    requires !step.StorePlan? && (step.LayerStep? ==> step.layer.run !in w.runs)
    ensures Apply(ctx, w, step).plans == w.plans
  {
    if step.LayerStep? {
      LayerStepEffect(ctx, w, step.layer);
    }
  }

  /** No two attempts ever write to the same key. */
  lemma PlanStoreIsWriteOnce(ctx: Context, w: World, step: Step)
    requires Inv(ctx, w) && Fresh(w, step)
    ensures Grows(w.plans, Apply(ctx, w, step).plans)
  {
    assert forall r :: r in w.runs ==> RunOk(w, r);
    if !step.StorePlan? {
      OthersStoreNothing(ctx, w, step);
    } else if RunnerDoes(ctx, w, step) != w {
      RunnerUsesItsOwnKey(ctx, w, step.pod, step.plan);
    }
  }

  lemma {:induction false} PlanStoreIsWriteOnceAlong(ctx: Context, ws: seq<World>, steps: seq<Step>, i: nat, j: nat)
    requires Path(ctx, ws, steps) && KeepLastRuns(ctx) >= 1 && Inv(ctx, ws[0]) && i <= j <= |steps|
    ensures Grows(ws[i].plans, ws[j].plans)
  {
    if i < j {
      PlanStoreIsWriteOnceAlong(ctx, ws, steps, i, j - 1);
      PathInv(ctx, ws, steps, j - 1);
      assert NextAt(ctx, ws, steps, j - 1);
      PlanStoreIsWriteOnce(ctx, ws[j - 1], steps[j - 1]);
    }
  }

  /** In every reachable state the plan annotations name a stored artifact and carry its digest; a succeeded apply
      run, while it is the last run, has left the applied digest equal to the planned one; and the artifact an
      apply run is to read is the one the annotations named when it was made, and is there. */
  lemma AnnotationsNameStoredPlans(ctx: Context, ws: seq<World>, steps: seq<Step>, i: nat, r: RunName)
    requires Execution(ctx, ws, steps) && KeepLastRuns(ctx) >= 1 && i <= |steps|
    ensures var w := ws[i];
            && (w.ann.planRun.Some? ==>
                  w.ann.planRun.value in w.plans
                  && w.ann.planSum == Some(ctx.settings.digest(w.plans[w.ann.planRun.value])))
            && (w.ann.planRun.None? <==> w.ann.planSum.None?)
            && (r in w.runs && w.runs[r].action == ApplyAction ==>
                  w.runs[r].artifact.Some? && w.runs[r].artifact.value in w.plans)
            && (r in w.runs && IsLast(w, r) && w.runs[r].action == ApplyAction ==>
                  && w.ann.planRun == w.runs[r].artifact
                  && (w.runs[r].status.state == Succeeded ==> w.ann.applySum == w.ann.planSum))
  {
    InitInv(ctx, ws[0]);
    PathInv(ctx, ws, steps, i);
    if r in ws[i].runs {
      assert RunOk(ws[i], r);
    }
  }

  /** The panic on a missing plan-run annotation comes exactly with a manual request, on a layer that was never
      planned, that no window holds back and whose relevant commit is known: an automatic apply always finds its
      plan. */
  lemma ApplyPanicsIff(ctx: Context, w: World, ch: LC.LayerChoice)
    requires Inv(ctx, w)
    ensures LC.Decide(ctx, w, LC.GetState(ctx, w), ch).NoArtifact? <==>
              && !LC.IsRunning(w) && w.ann.applyNow && !w.ann.syncNow
              && w.ann.planRun.None? && !ch.applyBlocked && w.ann.relevantCommit.Some?
  {
  }

  // ---- applied once ----

  /** Terraform has applied the run's artifact in this pod. */
  predicate HasApplied(progress: Progress) {
    progress.Applied? || progress == Published
  }

  /** The pod of an unasked apply run in progress, and terraform has applied in it. */
  predicate AppliedIn(w: World, p: PodName) {
    && p in w.pods && w.pods[p].run in w.runs && HasApplied(w.pods[p].progress)
    && var run := w.runs[w.pods[p].run];
    && run.action == ApplyAction && run.auto && !Terminal(run.status.state) && run.status.runnerPod == Some(p)
  }

  /** The pod of an unasked apply run fails or vanishes after terraform has applied and before its run is over, with a
      retry left or before it has published: the layer will not learn that the artifact is applied. */
  predicate LosesApply(ctx: Context, w: World, step: Step) {
    && (step.FailPod? || step.VanishPod?)
    && AppliedIn(w, step.pod)
    && (if step.FailPod? then Active(w.pods[step.pod]) else w.pods[step.pod].phase != PodFailed)
    && (w.pods[step.pod].progress.Applied? || w.runs[w.pods[step.pod].run].status.retries < MaxRetries(ctx))
  }

  ghost predicate NoDuplicates(s: seq<Coord>) {
    forall i, j :: 0 <= i < j < |s| ==> s[i] != s[j]
  }

  /** A pod that is still to publish a plan. */
  predicate Planner(w: World, p: PodName) {
    p in w.pods && Active(w.pods[p]) && w.pods[p].progress != Published
    && w.pods[p].run in w.runs && RunOf(w, p).action == PlanAction
  }

  /** An unasked apply run in progress whose artifact is applied. */
  predicate Repeats(w: World, r: RunName) {
    && r in w.runs && w.runs[r].action == ApplyAction && w.runs[r].auto && !Terminal(w.runs[r].status.state)
    && w.runs[r].artifact.Some? && w.runs[r].artifact.value in w.applied
  }

  /** Such a run applies no more: it is not retried, and its pod, if at work, has applied. */
  ghost predicate Spent(ctx: Context, w: World, r: RunName)
    requires r in w.runs
  {
    var st := w.runs[r].status;
    && st.runnerPod.Some?
    && var p := st.runnerPod.value;
    && (st.retries < MaxRetries(ctx) ==> p in w.pods && w.pods[p].phase != PodFailed)
    && (p in w.pods && Active(w.pods[p]) ==> HasApplied(w.pods[p].progress))
  }

  /** The run in progress has applied the artifact that the annotations name, and is about to report it. */
  ghost predicate Pending(w: World, c: Coord) {
    exists p :: Reports(w, p) && w.runs[w.pods[p].run].artifact == Some(c)
  }

  ghost predicate Once(ctx: Context, w: World) {
    && NoDuplicates(w.applied)
    && (forall c :: c in w.applied ==> c in w.plans)
    && (w.ann.planRun.Some? && w.ann.planRun.value in w.applied ==>
          w.ann.applySum == w.ann.planSum || Pending(w, w.ann.planRun.value))
    && (forall p :: Planner(w, p) ==> CoordOf(w, p) !in w.applied)
    && (forall r :: Repeats(w, r) ==> Spent(ctx, w, r))
  }

  /** What a step that applies nothing has to show. */
  lemma OnceFrame(ctx: Context, w: World, w': World)
    requires Once(ctx, w)
    requires w'.applied == w.applied && w.plans.Keys <= w'.plans.Keys
    requires w'.ann.planRun == w.ann.planRun && w'.ann.applySum == w.ann.applySum && w'.ann.planSum == w.ann.planSum
    requires forall c :: Pending(w, c) ==> Pending(w', c)
    requires forall p :: Planner(w', p) ==>
               (Planner(w, p) && CoordOf(w', p) == CoordOf(w, p)) || CoordOf(w', p) !in w.plans
    requires forall r :: Repeats(w', r) ==> Repeats(w, r) && (Spent(ctx, w, r) ==> Spent(ctx, w', r))
    ensures Once(ctx, w')
  {
  }

  /** The pod is about to report that terraform has applied. */
  predicate Reports(w: World, p: PodName) {
    AppliedIn(w, p) && Active(w.pods[p]) && w.pods[p].progress.Applied?
  }

  /** What keeps such a pod pending. */
  lemma PendingFrame(w: World, w': World)
    requires forall p :: Reports(w, p) ==>
               && p in w'.pods && w'.pods[p].run == w.pods[p].run && Active(w'.pods[p])
               && w'.pods[p].progress == w.pods[p].progress
               && w.pods[p].run in w'.runs && w'.runs[w.pods[p].run] == w.runs[w.pods[p].run]
    ensures forall c :: Pending(w, c) ==> Pending(w', c)
  {
    forall c | Pending(w, c) ensures Pending(w', c) {
      var p :| Reports(w, p) && w.runs[w.pods[p].run].artifact == Some(c);
      assert Reports(w', p);
    }
  }

  lemma KnownRuns(w: World)
    requires RunsOk(w)
    ensures w.runs.Keys <= w.runNames
  {
  }

  // -- the layer controller

  lemma OnceLayerStep(ctx: Context, w: World, ch: LC.LayerChoice)
    requires Inv(ctx, w) && KeepLastRuns(ctx) >= 1 && Once(ctx, w) && ch.run !in w.runNames
    ensures Once(ctx, LC.ReconcileLayer(ctx, w, ch))
  {
    var w' := LC.ReconcileLayer(ctx, w, ch);
    KnownRuns(w);
    LayerStepEffect(ctx, w, ch);
    forall r | r in w.runs && !Terminal(w.runs[r].status.state) ensures r in w'.runs {
      LiveRunStays(ctx, w, ch, r);
    }
    OnceLayerEffect(ctx, w, w', ch);
  }

  lemma LiveRunStays(ctx: Context, w: World, ch: LC.LayerChoice, r: RunName)
    requires Inv(ctx, w) && r in w.runs && !Terminal(w.runs[r].status.state)
    ensures r in LC.ReconcileLayer(ctx, w, ch).runs
  {
    assert RunOk(w, r);
    assert LC.IsRunning(w);
    assert w.status.lastRun.value in w.status.latestRuns;
  }

  lemma OnceLayerEffect(ctx: Context, w: World, w': World, ch: LC.LayerChoice)
    requires RunsOk(w) && PodsOk(w) && Once(ctx, w) && ch.run !in w.runNames && w.runs.Keys <= w.runNames
    requires LayerEffect(ctx, w, w', ch)
    requires forall r :: r in w.runs && !Terminal(w.runs[r].status.state) ==> r in w'.runs
    ensures Once(ctx, w')
  {
    forall p | Planner(w', p) ensures Planner(w, p) && CoordOf(w', p) == CoordOf(w, p) {
      assert PodOk(w, p);
    }
    PendingFrame(w, w');
    forall r | Repeats(w', r) ensures Repeats(w, r) && (Spent(ctx, w, r) ==> Spent(ctx, w', r)) {
      if r !in w.runs {
        NewApplyIsNew(ctx, w, w', ch, r);
      }
    }
    OnceFrame(ctx, w, w');
  }

  /** A run is not made for an artifact that is applied. */
  lemma NewApplyIsNew(ctx: Context, w: World, w': World, ch: LC.LayerChoice, r: RunName)
    requires RunsOk(w) && Once(ctx, w) && LayerEffect(ctx, w, w', ch) && r in w'.runs && r !in w.runs
    ensures !Repeats(w', r)
  {
  }

  // -- the run controller

  lemma RunStepPlanners(ctx: Context, w: World, w': World, r: RunName, ch: RC.RunChoice, p: PodName)
    requires RunsOk(w) && PodsOk(w) && PlansOk(w) && Reconciles(w, r, ch) && ch.pod !in w.podNames
    requires RunEffect(ctx, w, w', r, ch) && Planner(w', p)
    ensures (Planner(w, p) && CoordOf(w', p) == CoordOf(w, p)) || CoordOf(w', p) !in w.plans
  {
    assert RunOk(w, r);
    if p in w.pods {
      assert PodOk(w, p);
      if w.pods[p].run == r {
        ActiveMeansRunning(ctx, w, p);
      }
    }
  }

  lemma RunStepPending(ctx: Context, w: World, w': World, r: RunName, ch: RC.RunChoice, c: Coord)
    requires PodsOk(w) && Reconciles(w, r, ch) && ch.pod !in w.podNames && RunEffect(ctx, w, w', r, ch)
    requires Pending(w, c)
    ensures Pending(w', c)
  {
    var p :| Reports(w, p) && w.runs[w.pods[p].run].artifact == Some(c);
    assert PodOk(w, p);
    ActiveMeansRunning(ctx, w, p);
    assert Reports(w', p);
  }

  /** A run that has applied is not retried. */
  lemma SpentIsNotRetried(ctx: Context, w: World, r: RunName, ch: RC.RunChoice)
    requires RunsOk(w) && PodsOk(w) && Reconciles(w, r, ch) && Spent(ctx, w, r)
    ensures !MakesPod(Decided(ctx, w, r), ch)
  {
    assert RunOk(w, r);
    var p := w.runs[r].status.runnerPod.value;
    if p in w.pods {
      assert PodOk(w, p) && w.pods[p].run == r;
      if Active(w.pods[p]) {
        ActiveMeansRunning(ctx, w, p);
      }
    }
  }

  lemma RunStepSpent(ctx: Context, w: World, w': World, r: RunName, ch: RC.RunChoice, q: RunName)
    requires RunsOk(w) && PodsOk(w) && Reconciles(w, r, ch) && ch.pod !in w.podNames && RunEffect(ctx, w, w', r, ch)
    requires q in w.runs && Spent(ctx, w, q)
    ensures q in w'.runs && Spent(ctx, w', q)
  {
    assert w.runs[q].status.runnerPod.value in w.podNames;
    if q == r {
      SpentIsNotRetried(ctx, w, r, ch);
    }
  }

  lemma OnceRunStep(ctx: Context, w: World, r: RunName, ch: RC.RunChoice)
    requires Inv(ctx, w) && Once(ctx, w) && ch.pod !in w.podNames
    ensures Once(ctx, RC.ReconcileRun(ctx, w, r, ch))
  {
    if Reconciles(w, r, ch) {
      RunStepCases(ctx, w, r, ch);
      OnceRunEffect(ctx, w, RC.ReconcileRun(ctx, w, r, ch), r, ch);
    }
  }

  lemma OnceRunEffect(ctx: Context, w: World, w': World, r: RunName, ch: RC.RunChoice)
    requires RunsOk(w) && PodsOk(w) && PlansOk(w) && Once(ctx, w) && ch.pod !in w.podNames
    requires Reconciles(w, r, ch) && RunEffect(ctx, w, w', r, ch)
    ensures Once(ctx, w')
  {
    forall p | Planner(w', p)
      ensures (Planner(w, p) && CoordOf(w', p) == CoordOf(w, p)) || CoordOf(w', p) !in w.plans
    {
      RunStepPlanners(ctx, w, w', r, ch, p);
    }
    forall c | Pending(w, c) ensures Pending(w', c) {
      RunStepPending(ctx, w, w', r, ch, c);
    }
    forall q | Repeats(w', q) ensures Repeats(w, q) && (Spent(ctx, w, q) ==> Spent(ctx, w', q)) {
      if Spent(ctx, w, q) {
        RunStepSpent(ctx, w, w', r, ch, q);
      }
    }
    OnceFrame(ctx, w, w');
  }

  // -- pods

  /** A pod that fails or vanishes without losing an apply. */
  lemma OncePodStep(ctx: Context, w: World, step: Step, w': World)
    requires PodsOk(w) && Once(ctx, w) && IsPodStep(step) && !LosesApply(ctx, w, step)
    requires PodMoves(w, w', step.pod) && (Gone(w, w', step.pod) ==> step.VanishPod?)
    requires step.pod in w'.pods && w'.pods[step.pod].phase == PodFailed && w.pods[step.pod].phase != PodFailed ==>
               step.FailPod?
    ensures Once(ctx, w')
  {
    var p := step.pod;
    PendingFrame(w, w');
    forall r | Repeats(w', r) ensures Repeats(w, r) && (Spent(ctx, w, r) ==> Spent(ctx, w', r)) {
      if Spent(ctx, w, r) {
        var q := w.runs[r].status.runnerPod.value;
        if q == p && q in w.pods {
          assert w.pods[q].run == r && PodOk(w, q);
        }
      }
    }
    OnceFrame(ctx, w, w');
  }

  // -- the runner

  lemma OnceStorePlan(ctx: Context, w: World, p: PodName, plan: Bytes)
    requires Inv(ctx, w) && Once(ctx, w) && Works(w, p) && RunOf(w, p).action == PlanAction
    requires w.pods[p].progress == Started
    ensures Once(ctx, RunnerDoes(ctx, w, StorePlan(p, plan)))
  {
    var w' := RunnerDoes(ctx, w, StorePlan(p, plan));
    assert w'.pods == w.pods[p := w.pods[p].(progress := Stored(plan))] && w'.runs == w.runs;
    PendingFrame(w, w');
    OnceFrame(ctx, w, w');
  }

  lemma OnceApplyPlan(ctx: Context, w: World, p: PodName)
    requires Inv(ctx, w) && Once(ctx, w) && Works(w, p) && RunOf(w, p).action == ApplyAction
    requires w.pods[p].progress == Started && RunOf(w, p).artifact.Some? && RunOf(w, p).artifact.value in w.plans
    ensures Once(ctx, ApplyArtifact(w, p))
  {
    var r, w' := w.pods[p].run, ApplyArtifact(w, p);
    WorkerFacts(ctx, w, p);
    assert !Repeats(w, r);
    forall q | Repeats(w', q) ensures Spent(ctx, w', q) {
      assert RunOk(w, q);
    }
    assert Reports(w', p) || !w.runs[r].auto;
  }

  /** The pod that publishes belongs to the one run in progress. */
  lemma OncePublish(ctx: Context, w: World, p: PodName)
    requires Inv(ctx, w) && Once(ctx, w) && Works(w, p) && (w.pods[p].progress.Stored? || w.pods[p].progress.Applied?)
    ensures Once(ctx, PublishResult(ctx, w, p))
  {
    var w' := PublishResult(ctx, w, p);
    WorkerFacts(ctx, w, p);
    forall q | Repeats(w', q) ensures Spent(ctx, w', q) {
      assert RunOk(w, q);
    }
  }

  lemma OnceRunnerStep(ctx: Context, w: World, step: Step)
    requires Inv(ctx, w) && Once(ctx, w) && IsRunnerStep(step)
    ensures Once(ctx, RunnerDoes(ctx, w, step))
  {
    var w' := RunnerDoes(ctx, w, step);
    if w' != w {
      match step {
        case StorePlan(p, plan) => OnceStorePlan(ctx, w, p, plan);
        case ApplyPlan(p) => OnceApplyPlan(ctx, w, p);
        case Publish(p) => OncePublish(ctx, w, p);
      }
    }
  }

  lemma OnceOutside(ctx: Context, w: World, step: Step)
    requires Once(ctx, w)
    ensures Once(ctx, Outside(ctx, w, step))
  {
    var w' := Outside(ctx, w, step);
    PendingFrame(w, w');
    OnceFrame(ctx, w, w');
  }

  // -- every step

  lemma OnceNext(ctx: Context, w: World, step: Step)
    requires Inv(ctx, w) && KeepLastRuns(ctx) >= 1 && Once(ctx, w) && Fresh(w, step) && !LosesApply(ctx, w, step)
    ensures Once(ctx, Apply(ctx, w, step))
  {
    if step.LayerStep? {
      OnceLayerStep(ctx, w, step.layer);
    } else if step.RunStep? {
      OnceRunStep(ctx, w, step.run, step.choice);
    } else if IsPodStep(step) {
      PodStepEffect(w, step);
      OncePodStep(ctx, w, step, PodLife(w, step));
    } else if IsRunnerStep(step) {
      OnceRunnerStep(ctx, w, step);
    } else {
      OnceOutside(ctx, w, step);
    }
  }

  /** No artifact is applied automatically twice, over any execution in which no apply is lost. */
  lemma {:induction false} AppliedOnce(ctx: Context, ws: seq<World>, steps: seq<Step>, i: nat)
    requires Execution(ctx, ws, steps) && KeepLastRuns(ctx) >= 1 && i <= |steps|
    requires forall k :: 0 <= k < i ==> !LosesApply(ctx, ws[k], steps[k])
    ensures Once(ctx, ws[i]) && NoDuplicates(ws[i].applied)
  {
    InitInv(ctx, ws[0]);
    if i > 0 {
      AppliedOnce(ctx, ws, steps, i - 1);
      PathInv(ctx, ws, steps, i - 1);
      assert NextAt(ctx, ws, steps, i - 1);
      OnceNext(ctx, ws[i - 1], steps[i - 1]);
    }
  }
}
