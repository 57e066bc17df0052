/** A plan that is overtaken by a relevant commit: what is applied for the commit is the plan of another. */
module Overtaken {
  import opened Resources
  import RC = RunController
  import LC = LayerController
  import opened Protocol
  import opened Invariant
  import opened Continuations
  import opened Convergence
  import opened Provenance

  /** Where the plan follows the commits, an unasked apply is of the commit its artifact was planned at. */
  lemma FollowingApplies(
    ctx: Context, ws: seq<World>, steps: seq<Step>, i: nat, ch: LC.LayerChoice, base: set<RunName>)
    requires Execution(ctx, ws, steps) && KeepLastRuns(ctx) >= 1 && i <= |steps| && CalmInv(ctx, ws[i], base)
    requires LC.Decide(ctx, ws[i], LC.GetState(ctx, ws[i]), ch).Create?
    requires LC.Decide(ctx, ws[i], LC.GetState(ctx, ws[i]), ch).run.action == ApplyAction
    ensures var run := LC.Decide(ctx, ws[i], LC.GetState(ctx, ws[i]), ch).run;
            run.artifact.Some? && PlannedAt(ws, i, run.artifact.value, run.revision)
  {
    NothingExhausted(ctx, ws[i], base);
    AppliesPlannedCommitIff(ctx, ws, steps, i, ch);
  }

  // ---- a plan under way ----

  /** A plan run whose pod has stored its plan and is about to publish it. */
  ghost predicate UnderWay(w: World, x: PodName) {
    Reporting(w, x) && RunOf(w, x).action == PlanAction
  }

  /** A relevant commit comes, and time passes. */
  lemma CommitComes(ctx: Context, ws: seq<World>, steps: seq<Step>, x: PodName)
    returns (ws': seq<World>, steps': seq<Step>, b: string)
    requires Execution(ctx, ws, steps) && UnderWay(ws[|steps|], x)
    ensures Execution(ctx, ws', steps') && ws <= ws' && steps <= steps'
    ensures var w, w' := ws[|steps|], ws'[|steps'|];
            && UnderWay(w', x) && w'.runs == w.runs && w'.pods == w.pods && w'.ann.applySum == w.ann.applySum
            && b != RunOf(w, x).revision && w'.ann.relevantCommit == Some(b)
            && w'.ann.branchDate.At? && w'.ann.branchDate.time < w'.now
  {
    var w := ws[|steps|];
    b := FreshName({RunOf(w, x).revision} + (if w.ann.branchCommit.Some? then {w.ann.branchCommit.value} else {}));
    ws', steps' := PathExtend(ctx, ws, steps, SeeCommit(b, true));
    ws', steps' := PathExtend(ctx, ws', steps', Tick(1));
  }

  /** The runner publishes and its pod ends well. */
  lemma PlanPublished(ctx: Context, w: World, x: PodName)
    requires Inv(ctx, w) && UnderWay(w, x) && ctx.settings.driftDetection > 0
    requires w.ann.relevantCommit.Some? && w.ann.branchDate.At? && w.ann.branchDate.time < w.now
    requires w.ann.relevantCommit != Some(RunOf(w, x).revision)
    ensures var w1 := RunnerDoes(ctx, w, Publish(x));
            var w2 := PodLife(w1, ExitPod(x));
            && w2.ann.planCommit == Some(RunOf(w, x).revision) && w2.ann.planRun.Some?
            && w2.ann.relevantCommit == w.ann.relevantCommit && w2.ann.applySum == w.ann.applySum
            && w2.ann.planSum == Some(ctx.settings.digest(w.pods[x].progress.plan))
            && !LC.PlanIsStale(ctx, w2)
            && x in w2.pods && w2.pods[x].phase == PodSucceeded && w2.pods[x].run == w.pods[x].run
            && w2.runs == w.runs && w2.status == w.status
  {
    WorkerFacts(ctx, w, x);
  }

  /** The run controller sees it. */
  lemma PlanSeen(ctx: Context, w: World, x: PodName, z: PodName)
    requires Inv(ctx, w) && x in w.pods && w.pods[x].phase == PodSucceeded
    requires w.pods[x].run in w.runs && w.runs[w.pods[x].run].status.runnerPod == Some(x)
    requires !Terminal(w.runs[w.pods[x].run].status.state) && w.runs[w.pods[x].run].status.state != NoStatus
    ensures var w' := RC.ReconcileRun(ctx, w, w.pods[x].run, Serve(false, z));
            && w'.ann == w.ann && w'.now == w.now && w'.status == w.status
            && HasLast(w') && w'.runs[LastRun(w')].status.state == Succeeded
  {
    var r := w.pods[x].run;
    assert RunOk(w, r);
    assert Decided(ctx, w, r) == Succeeded;
    RunStepCases(ctx, w, r, Serve(false, z));
  }

  lemma PublishAndExit(ctx: Context, ws: seq<World>, steps: seq<Step>, x: PodName)
    returns (ws': seq<World>, steps': seq<Step>)
    requires Execution(ctx, ws, steps) && KeepLastRuns(ctx) >= 1 && ctx.settings.driftDetection > 0
    requires UnderWay(ws[|steps|], x)
    requires var w := ws[|steps|];
             && w.ann.relevantCommit.Some? && w.ann.branchDate.At? && w.ann.branchDate.time < w.now
             && w.ann.relevantCommit != Some(RunOf(w, x).revision)
    ensures Execution(ctx, ws', steps') && ws <= ws' && steps <= steps'
    ensures var w, w' := ws[|steps|], ws'[|steps'|];
            && Overtook(ctx, w', RunOf(w, x).revision, w.pods[x].progress.plan)
            && w'.ann.applySum == w.ann.applySum
            && x in w'.pods && w'.pods[x].phase == PodSucceeded && w'.pods[x].run in w'.runs
            && w'.runs[w'.pods[x].run].status.runnerPod == Some(x)
            && !Terminal(w'.runs[w'.pods[x].run].status.state) && w'.runs[w'.pods[x].run].status.state != NoStatus
  {
    ReachedInv(ctx, ws, steps);
    PlanPublished(ctx, ws[|steps|], x);
    WorkerFacts(ctx, ws[|steps|], x);
    ws', steps' := PathExtend(ctx, ws, steps, Publish(x));
    ws', steps' := PathExtend(ctx, ws', steps', ExitPod(x));
  }

  /** The plan of commit a is the current one while another commit is relevant. */
  ghost predicate Overtook(ctx: Context, w: World, a: string, plan: Bytes) {
    && w.ann.planCommit == Some(a) && w.ann.relevantCommit.Some? && w.ann.relevantCommit != Some(a)
    && w.ann.planRun.Some? && w.ann.planSum == Some(ctx.settings.digest(plan))
    && !LC.PlanIsStale(ctx, w)
  }

  /** The run is over, and the requests are taken off. */
  lemma PlanEnds(ctx: Context, ws: seq<World>, steps: seq<Step>, x: PodName)
    returns (ws': seq<World>, steps': seq<Step>)
    requires Execution(ctx, ws, steps) && KeepLastRuns(ctx) >= 1
    requires var w := ws[|steps|];
             && x in w.pods && w.pods[x].phase == PodSucceeded && w.pods[x].run in w.runs
             && w.runs[w.pods[x].run].status.runnerPod == Some(x)
             && !Terminal(w.runs[w.pods[x].run].status.state) && w.runs[w.pods[x].run].status.state != NoStatus
    ensures Execution(ctx, ws', steps') && ws <= ws' && steps <= steps'
    ensures var w, w' := ws[|steps|], ws'[|steps'|];
            && w'.ann == w.ann.(syncNow := false, applyNow := false) && w'.now == w.now && AtRest(w') && HasLast(w')
  {
    var w := ws[|steps|];
    InitInv(ctx, ws[0]);
    ReachedInv(ctx, ws, steps);
    var z := FreshName(w.podNames);
    PlanSeen(ctx, w, x, z);
    ws', steps' := PathExtend(ctx, ws, steps, RunStep(w.pods[x].run, Serve(false, z)));
    var w1 := ws'[|steps'|];
    ws', steps' := ClearRequests(ctx, ws', steps');
    assert IsLast(w1, LastRun(w1));
  }

  /** Wherever a relevant commit comes while a plan is under way, the layer can come to rest with the plan of one commit
      while another is relevant, and is not to be planned again. */
  lemma PlanOvertaken(ctx: Context, ws: seq<World>, steps: seq<Step>, x: PodName)
    returns (ws': seq<World>, steps': seq<Step>)
    requires Execution(ctx, ws, steps) && KeepLastRuns(ctx) >= 1 && ctx.settings.driftDetection > 0
    requires UnderWay(ws[|steps|], x)
    ensures Execution(ctx, ws', steps') && ws <= ws' && steps <= steps'
    ensures var w, w' := ws[|steps|], ws'[|steps'|];
            && Overtook(ctx, w', RunOf(w, x).revision, w.pods[x].progress.plan)
            && AtRest(w') && HasLast(w') && !PlanFollows(ctx, w') && w'.ann.applySum == w.ann.applySum
  {
    var b;
    ws', steps', b := CommitComes(ctx, ws, steps, x);
    ws', steps' := PublishAndExit(ctx, ws', steps', x);
    ws', steps' := PlanEnds(ctx, ws', steps', x);
  }

  // ---- such a layer is reachable ----

  lemma FirstPlanOffered(ctx: Context, w: World, p: RunName)
    requires Inv(ctx, w) && KeepLastRuns(ctx) >= 1 && p !in w.runNames && w.status.lastRun.None?
    requires w.ann.planDate.Absent? && !w.ann.syncNow && !w.ann.applyNow && w.ann.relevantCommit.Some?
    ensures var w' := LC.ReconcileLayer(ctx, w, Offer(true, p));
            && w'.ann == w.ann && p in w'.runs
            && w'.runs[p].action == PlanAction && w'.runs[p].status == NEW_STATUS
  {
    assert LC.GetState(ctx, w) == PlanNeeded;
    OfferTaken(ctx, w, p, Run(PlanAction, w.ann.relevantCommit.value, None, w.now, true, NEW_STATUS));
  }

  lemma FirstPodMade(ctx: Context, w: World, p: RunName, x: PodName)
    requires Inv(ctx, w) && p in w.runs && w.runs[p].action == PlanAction && w.runs[p].status == NEW_STATUS
    requires x !in w.podNames
    ensures var w' := RC.ReconcileRun(ctx, w, p, Serve(true, x));
            && w'.ann == w.ann && p in w'.runs && w'.runs[p].action == PlanAction
            && x in w'.pods && w'.pods[x].run == p && w'.pods[x].phase == PodPending && w'.pods[x].progress == Started
  {
    assert RunOk(w, p);
    RunStepCases(ctx, w, p, Serve(true, x));
  }

  lemma FirstPlanMade(ctx: Context) returns (ws: seq<World>, steps: seq<Step>, p: RunName)
    requires KeepLastRuns(ctx) >= 1
    ensures Execution(ctx, ws, steps)
    ensures var w := ws[|steps|];
            && p in w.runs && w.runs[p].action == PlanAction && w.runs[p].status == NEW_STATUS
            && !w.ann.syncNow && !w.ann.applyNow && w.ann.applySum.None?
  {
    ws, steps := PathExtend(ctx, [NEW_LAYER], [], SeeCommit("a", true));
    ReachedInv(ctx, ws, steps);
    p := FreshName(ws[|steps|].runNames);
    FirstPlanOffered(ctx, ws[|steps|], p);
    ws, steps := PathExtend(ctx, ws, steps, LayerStep(Offer(true, p)));
  }

  /** A new pod of a plan run stores its plan. */
  lemma PlanStored(ctx: Context, ws: seq<World>, steps: seq<Step>, x: PodName, plan: Bytes)
    returns (ws': seq<World>, steps': seq<Step>)
    requires Execution(ctx, ws, steps)
    requires var w := ws[|steps|];
             && x in w.pods && w.pods[x].run in w.runs && RunOf(w, x).action == PlanAction
             && w.pods[x].phase == PodPending && w.pods[x].progress == Started
    ensures Execution(ctx, ws', steps') && UnderWay(ws'[|steps'|], x)
    ensures ws'[|steps'|].pods[x].progress == Stored(plan) && ws'[|steps'|].ann == ws[|steps|].ann
  {
    ws', steps' := PathExtend(ctx, ws, steps, StartPod(x));
    ws', steps' := PathExtend(ctx, ws', steps', StorePlan(x, plan));
  }

  lemma PlanUnderWay(ctx: Context, plan: Bytes) returns (ws: seq<World>, steps: seq<Step>, x: PodName)
    requires KeepLastRuns(ctx) >= 1
    ensures Execution(ctx, ws, steps) && UnderWay(ws[|steps|], x)
    ensures ws[|steps|].pods[x].progress == Stored(plan) && ws[|steps|].ann.applySum.None?
  {
    var p;
    ws, steps, p := FirstPlanMade(ctx);
    ReachedInv(ctx, ws, steps);
    x := FreshName(ws[|steps|].podNames);
    FirstPodMade(ctx, ws[|steps|], p, x);
    ws, steps := PathExtend(ctx, ws, steps, RunStep(p, Serve(true, x)));
    ws, steps := PlanStored(ctx, ws, steps, x, plan);
  }

  /** A layer at rest whose plan does not follow the commits is reachable. */
  lemma OvertakenIsReachable(ctx: Context, plan: Bytes) returns (ws: seq<World>, steps: seq<Step>, a: string)
    requires KeepLastRuns(ctx) >= 1 && ctx.settings.driftDetection > 0
    ensures Execution(ctx, ws, steps) && AtRest(ws[|steps|]) && !PlanFollows(ctx, ws[|steps|])
    ensures Overtook(ctx, ws[|steps|], a, plan) && HasLast(ws[|steps|]) && ws[|steps|].ann.applySum.None?
  {
    var x;
    ws, steps, x := PlanUnderWay(ctx, plan);
    a := RunOf(ws[|steps|], x).revision;
    ws, steps := PlanOvertaken(ctx, ws, steps, x);
  }

  /** From there an unasked apply run is made for a commit that its artifact was not planned at. */
  lemma UnplannedCommitIsApplied(ctx: Context, plan: Bytes) returns (ws: seq<World>, steps: seq<Step>, r: RunName)
    requires KeepLastRuns(ctx) >= 1 && ctx.settings.driftDetection > 0 && AutoApplyEnabled(ctx)
    requires ctx.settings.digest(plan) != ""
    ensures Execution(ctx, ws, steps) && AppliedForOther(ws, |steps|, r)
  {
    var a;
    ws, steps, a := OvertakenIsReachable(ctx, plan);
    ws, steps, r := UnsafeIsApplied(ctx, ws, steps);
  }
}
