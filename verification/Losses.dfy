/** An apply that is lost is repeated: from every state in which the pod of an unasked apply run is about to be lost,
    the system can go on to apply the same artifact again. */
module Losses {
  import opened Resources
  import RC = RunController
  import LC = LayerController
  import opened Protocol
  import opened Invariant
  import opened Artifacts
  import opened Continuations

  // ---- what is owed to the layer while an unasked apply runs ----

  predicate LiveAuto(w: World, r: RunName) {
    r in w.runs && w.runs[r].action == ApplyAction && w.runs[r].auto && !Terminal(w.runs[r].status.state)
  }

  /** What terraform has applied in a pod is counted. */
  ghost predicate Counted(w: World, p: PodName)
    requires p in w.pods
  {
    HasApplied(w.pods[p].progress) && w.pods[p].run in w.runs
    && RunOf(w, p).action == ApplyAction && RunOf(w, p).auto && RunOf(w, p).artifact.Some? ==>
      RunOf(w, p).artifact.value in w.applied
  }

  predicate Unreported(w: World, r: RunName)
    requires r in w.runs
  {
    var pod := w.runs[r].status.runnerPod;
    pod.Some? && pod.value in w.pods && w.pods[pod.value].progress.Applied?
  }

  /** The layer waits for the apply, unless an attempt of the same run has reported it already. */
  ghost predicate Waits(w: World, r: RunName)
    requires r in w.runs
  {
    && !LC.HasLastPlanFailed(w)
    && (LC.IsApplyUpToDate(w) && w.runs[r].artifact.Some? ==>
          w.runs[r].artifact.value in w.applied && (Unreported(w, r) ==> !NoDuplicates(w.applied)))
  }

  ghost predicate Owed(ctx: Context, w: World) {
    && (forall p :: p in w.pods ==> Counted(w, p))
    && (forall r :: r in w.runs && w.runs[r].action == ApplyAction && w.runs[r].auto ==> AutoApplyEnabled(ctx))
    && (forall r :: LiveAuto(w, r) ==> Waits(w, r))
  }

  /** What a step that leaves annotations and applies alone has to show. */
  lemma OwedFrame(ctx: Context, w: World, w': World)
    requires Owed(ctx, w) && w'.applied == w.applied
    requires w'.ann.planSum == w.ann.planSum && w'.ann.applySum == w.ann.applySum
    requires w'.ann.planDate == w.ann.planDate && w'.ann.applyDate == w.ann.applyDate
    requires forall p :: p in w'.pods && HasApplied(w'.pods[p].progress) ==>
               p in w.pods && w'.pods[p].run == w.pods[p].run && w'.pods[p].progress == w.pods[p].progress
    requires forall r :: r in w'.runs && r in w.runs ==>
               && w'.runs[r].action == w.runs[r].action && w'.runs[r].auto == w.runs[r].auto
               && w'.runs[r].artifact == w.runs[r].artifact
    requires forall p :: p in w'.pods && HasApplied(w'.pods[p].progress) && w'.pods[p].run in w'.runs ==>
               w'.pods[p].run in w.runs
    requires forall r :: LiveAuto(w', r) && r in w.runs ==>
               LiveAuto(w, r) && (Unreported(w', r) ==> Unreported(w, r))
    requires forall r :: r in w'.runs && r !in w.runs && w'.runs[r].action == ApplyAction && w'.runs[r].auto ==>
               AutoApplyEnabled(ctx) && !LC.HasLastPlanFailed(w) && !LC.IsApplyUpToDate(w)
    ensures Owed(ctx, w')
  {
    forall p | p in w'.pods ensures Counted(w', p) {
      assert p in w.pods ==> Counted(w, p);
    }
    forall r | LiveAuto(w', r) ensures Waits(w', r) {
      assert r in w.runs ==> Waits(w, r);
    }
  }

  lemma OwedLayerStep(ctx: Context, w: World, ch: LC.LayerChoice)
    requires RunsOk(w) && PodsOk(w) && Owed(ctx, w) && ch.run !in w.runNames
    ensures Owed(ctx, LC.ReconcileLayer(ctx, w, ch))
  {
    var w' := LC.ReconcileLayer(ctx, w, ch);
    KnownRuns(w);
    LayerStepEffect(ctx, w, ch);
    forall p | p in w.pods ensures w.pods[p].run != ch.run {
      assert PodOk(w, p);
    }
    OwedLayerEffect(ctx, w, w', ch);
  }

  lemma OwedLayerEffect(ctx: Context, w: World, w': World, ch: LC.LayerChoice)
    requires Owed(ctx, w) && LayerEffect(ctx, w, w', ch) && forall p :: p in w.pods ==> w.pods[p].run != ch.run
    ensures Owed(ctx, w')
  {
    OwedFrame(ctx, w, w');
  }

  lemma OwedRunStep(ctx: Context, w: World, w': World, r: RunName, ch: RC.RunChoice)
    requires PodsOk(w) && Owed(ctx, w) && Reconciles(w, r, ch) && ch.pod !in w.podNames && RunEffect(ctx, w, w', r, ch)
    ensures Owed(ctx, w')
  {
    forall q | LiveAuto(w', q) ensures LiveAuto(w, q) && (Unreported(w', q) ==> Unreported(w, q)) {
      assert w.runs[q].status.runnerPod.Some? ==> w.runs[q].status.runnerPod.value in w.podNames;
    }
    OwedFrame(ctx, w, w');
  }

  lemma OwedStorePlan(ctx: Context, w: World, p: PodName, plan: Bytes)
    requires Owed(ctx, w)
    ensures Owed(ctx, RunnerDoes(ctx, w, StorePlan(p, plan)))
  {
    OwedFrame(ctx, w, RunnerDoes(ctx, w, StorePlan(p, plan)));
  }

  lemma OwedApplyPlan(ctx: Context, w: World, p: PodName)
    requires RunsOk(w) && PodsOk(w) && Owed(ctx, w) && Works(w, p) && RunOf(w, p).action == ApplyAction
    requires w.pods[p].progress == Started && RunOf(w, p).artifact.Some? && RunOf(w, p).artifact.value in w.plans
    ensures Owed(ctx, ApplyArtifact(w, p))
  {
    var w' := ApplyArtifact(w, p);
    forall q | q in w'.pods ensures Counted(w', q) {
      assert Counted(w, q);
      if q == p && RunOf(w, p).auto {
        assert w'.applied[|w.applied|] == RunOf(w, p).artifact.value;
      }
    }
    forall r | LiveAuto(w', r) ensures Waits(w', r) {
      assert Waits(w, r) && RunOk(w, r) && PodOk(w, p) && RunOk(w, w.pods[p].run);
      AppendKeeps(w.applied, w'.applied);
    }
  }

  lemma AppendKeeps(s: seq<Coord>, t: seq<Coord>)
    requires s <= t
    ensures forall c :: c in s ==> c in t
    ensures !NoDuplicates(s) ==> !NoDuplicates(t)
    ensures |t| == |s| + 1 && t[|s|] in s ==> !NoDuplicates(t)
  {
    if |t| == |s| + 1 && t[|s|] in s {
      var i :| 0 <= i < |s| && s[i] == t[|s|];
      assert t[i] == t[|s|];
    }
    if !NoDuplicates(s) {
      var i, j :| 0 <= i < j < |s| && s[i] == s[j];
      assert t[i] == t[j];
    }
    forall c | c in s ensures c in t {
      var i :| 0 <= i < |s| && s[i] == c;
      assert t[i] == c;
    }
  }

  lemma OwedPublish(ctx: Context, w: World, p: PodName)
    requires Inv(ctx, w) && Owed(ctx, w) && Works(w, p) && (w.pods[p].progress.Stored? || w.pods[p].progress.Applied?)
    ensures Owed(ctx, PublishResult(ctx, w, p))
  {
    var w' := PublishResult(ctx, w, p);
    WorkerFacts(ctx, w, p);
    assert Counted(w, p);
    forall q | q in w'.pods ensures Counted(w', q) {
      assert Counted(w, q);
    }
    forall r | LiveAuto(w', r) ensures Waits(w', r) {
      assert Waits(w, r) && RunOk(w, r);
    }
  }

  lemma OwedRunnerStep(ctx: Context, w: World, step: Step)
    requires Inv(ctx, w) && Owed(ctx, w) && IsRunnerStep(step)
    ensures Owed(ctx, RunnerDoes(ctx, w, step))
  {
    if RunnerDoes(ctx, w, step) != w {
      match step {
        case StorePlan(p, plan) => OwedStorePlan(ctx, w, p, plan);
        case ApplyPlan(p) => OwedApplyPlan(ctx, w, p);
        case Publish(p) => OwedPublish(ctx, w, p);
      }
    }
  }

  lemma OwedPodStep(ctx: Context, w: World, w': World, p: PodName)
    requires Owed(ctx, w) && PodMoves(w, w', p)
    ensures Owed(ctx, w')
  {
    OwedFrame(ctx, w, w');
  }

  lemma OwedOutside(ctx: Context, w: World, step: Step)
    requires Owed(ctx, w)
    ensures Owed(ctx, Outside(ctx, w, step))
  {
    OwedFrame(ctx, w, Outside(ctx, w, step));
  }

  lemma OwedNext(ctx: Context, w: World, step: Step)
    requires Inv(ctx, w) && Owed(ctx, w) && Fresh(w, step)
    ensures Owed(ctx, Apply(ctx, w, step))
  {
    if step.LayerStep? {
      OwedLayerStep(ctx, w, step.layer);
    } else if step.RunStep? {
      if Reconciles(w, step.run, step.choice) {
        RunStepCases(ctx, w, step.run, step.choice);
        OwedRunStep(ctx, w, Apply(ctx, w, step), step.run, step.choice);
      }
    } else if IsPodStep(step) {
      PodStepEffect(w, step);
      OwedPodStep(ctx, w, PodLife(w, step), step.pod);
    } else if IsRunnerStep(step) {
      OwedRunnerStep(ctx, w, step);
    } else {
      OwedOutside(ctx, w, step);
    }
  }

  lemma OwedStart(ctx: Context, w: World)
    requires Init(w)
    ensures Owed(ctx, w)
  {
  }

  lemma OwedStepAt(ctx: Context, ws: seq<World>, steps: seq<Step>, i: nat)
    requires Execution(ctx, ws, steps) && KeepLastRuns(ctx) >= 1 && i < |steps| && Owed(ctx, ws[i])
    ensures Owed(ctx, ws[i + 1])
  {
    InitInv(ctx, ws[0]);
    PathInv(ctx, ws, steps, i);
    assert NextAt(ctx, ws, steps, i);
    OwedNext(ctx, ws[i], steps[i]);
  }

  lemma {:induction false} OwedAlong(ctx: Context, ws: seq<World>, steps: seq<Step>, i: nat)
    requires Execution(ctx, ws, steps) && KeepLastRuns(ctx) >= 1 && i <= |steps|
    ensures Owed(ctx, ws[i])
  {
    if i == 0 {
      OwedStart(ctx, ws[0]);
    } else {
      OwedAlong(ctx, ws, steps, i - 1);
      OwedStepAt(ctx, ws, steps, i - 1);
    }
  }

  // ---- the pod is lost ----

  /** What the loss leaves: the run in progress without a pod at work. */
  ghost predicate Bereft(w: World, r: RunName) {
    && LiveAuto(w, r) && w.runs[r].status.runnerPod.Some?
    && var pod := w.runs[r].status.runnerPod;
    && (RC.PhaseOf(w.pods, pod) == PodFailed || RC.PhaseOf(w.pods, pod) == PodUnknown)
  }

  lemma LossBereaves(ctx: Context, w: World, step: Step)
    requires Inv(ctx, w) && LosesApply(ctx, w, step) && Owed(ctx, w)
    ensures var r, w' := w.pods[step.pod].run, PodLife(w, step);
            && Bereft(w', r) && w'.runs == w.runs && w'.ann == w.ann && w'.applied == w.applied
            && w.runs[r].artifact.Some? && w.runs[r].artifact.value in w.applied
            && (w.runs[r].status.retries >= MaxRetries(ctx) && NoDuplicates(w.applied) ==>
                  !LC.IsApplyUpToDate(w') && !LC.HasLastPlanFailed(w'))
  {
    var p := step.pod;
    assert RunOk(w, w.pods[p].run) && PodOk(w, p) && Counted(w, p) && Waits(w, w.pods[p].run);
  }

  /** A new pod of an unasked apply run applies the artifact. */
  lemma AppliesAgain(ctx: Context, ws: seq<World>, steps: seq<Step>, r: RunName, z: PodName)
    returns (ws': seq<World>, steps': seq<Step>)
    requires Execution(ctx, ws, steps)
    requires var w := ws[|steps|];
             && LiveAuto(w, r) && w.runs[r].artifact.Some? && w.runs[r].artifact.value in w.plans
             && z in w.pods && w.pods[z].run == r && w.pods[z].phase == PodPending && w.pods[z].progress == Started
    ensures Execution(ctx, ws', steps') && ws <= ws' && steps <= steps'
    ensures ws'[|steps'|].applied == ws[|steps|].applied + [ws[|steps|].runs[r].artifact.value]
  {
    var w := ws[|steps|];
    ws', steps' := PathExtend(ctx, ws, steps, StartPod(z));
    assert Works(ws'[|steps'|], z);
    ws', steps' := PathExtend(ctx, ws', steps', ApplyPlan(z));
  }

  /** The grace period of the run's last attempt, if it was one, is over. */
  predicate GraceOver(ctx: Context, w: World, r: RunName)
    requires r in w.runs
  {
    var st := w.runs[r].status;
    st.lastRun.At? && w.now >= st.lastRun.time + ctx.settings.backoff(st.retries)
  }

  /** Then a retry that is left gives the run a new pod. */
  lemma RetryServed(ctx: Context, w: World, r: RunName, z: PodName)
    requires Inv(ctx, w) && Bereft(w, r) && GraceOver(ctx, w, r) && z !in w.podNames
    requires w.runs[r].status.retries < MaxRetries(ctx)
    ensures var w' := RC.ReconcileRun(ctx, w, r, Serve(false, z));
            && LiveAuto(w', r) && w'.runs[r].artifact == w.runs[r].artifact
            && w'.plans == w.plans && w'.applied == w.applied
            && z in w'.pods && w'.pods[z].run == r && w'.pods[z].phase == PodPending && w'.pods[z].progress == Started
    ensures w.runs[r].artifact.Some? && w.runs[r].artifact.value in w.plans
  {
    assert RunOk(w, r);
    assert Decided(ctx, w, r) == Retrying;
    RunStepCases(ctx, w, r, Serve(false, z));
  }

  lemma WaitOut(ctx: Context, ws: seq<World>, steps: seq<Step>, r: RunName)
    returns (ws': seq<World>, steps': seq<Step>)
    requires Execution(ctx, ws, steps) && KeepLastRuns(ctx) >= 1 && Bereft(ws[|steps|], r)
    ensures Execution(ctx, ws', steps') && ws <= ws' && steps <= steps'
    ensures var w, w' := ws[|steps|], ws'[|steps'|]; w' == w.(now := w'.now) && GraceOver(ctx, w', r)
  {
    var w := ws[|steps|];
    ReachedInv(ctx, ws, steps);
    assert RunOk(w, r);
    var st := w.runs[r].status;
    var end := st.lastRun.time + ctx.settings.backoff(st.retries);
    ws', steps' := PathExtend(ctx, ws, steps, Tick(if end > w.now then end - w.now else 0));
  }

  /** With a retry left the run applies again once its grace period is over. */
  lemma RetryRepeats(ctx: Context, ws: seq<World>, steps: seq<Step>, r: RunName)
    returns (ws': seq<World>, steps': seq<Step>)
    requires Execution(ctx, ws, steps) && KeepLastRuns(ctx) >= 1
    requires Bereft(ws[|steps|], r) && ws[|steps|].runs[r].status.retries < MaxRetries(ctx)
    ensures Execution(ctx, ws', steps') && ws <= ws' && steps <= steps'
    ensures ws[|steps|].runs[r].artifact.Some?
    ensures ws'[|steps'|].applied == ws[|steps|].applied + [ws[|steps|].runs[r].artifact.value]
  {
    ws', steps' := WaitOut(ctx, ws, steps, r);
    var w := ws'[|steps'|];
    ReachedInv(ctx, ws', steps');
    var z := FreshName(w.podNames);
    RetryServed(ctx, w, r, z);
    ws', steps' := PathExtend(ctx, ws', steps', RunStep(r, Serve(false, z)));
    ws', steps' := AppliesAgain(ctx, ws', steps', r, z);
  }

  // ---- without a retry left ----

  /** The annotations name an artifact that is applied, and the layer does not know that it is. */
  ghost predicate Unpaid(w: World, c: Coord) {
    w.ann.planRun == Some(c) && c in w.applied && !LC.IsApplyUpToDate(w) && !LC.HasLastPlanFailed(w)
  }

  /** What of the annotations is unpaid stays so while they keep their plan and apply entries. */
  lemma UnpaidStays(w: World, w': World, c: Coord)
    requires Unpaid(w, c) && w'.applied == w.applied
    requires w'.ann.planRun == w.ann.planRun && w'.ann.planSum == w.ann.planSum && w'.ann.planDate == w.ann.planDate
    requires w'.ann.applySum == w.ann.applySum && w'.ann.applyDate == w.ann.applyDate
    ensures Unpaid(w', c)
  {
  }

  /** The run is given up at once, in or out of its grace period. */
  lemma GivesUp(ctx: Context, w: World, r: RunName, z: PodName)
    requires Inv(ctx, w) && Bereft(w, r) && w.runs[r].status.retries >= MaxRetries(ctx)
    ensures var w' := RC.ReconcileRun(ctx, w, r, Serve(false, z));
            w'.ann == w.ann && w'.applied == w.applied && !LC.IsRunning(w') && w'.status == w.status
    ensures IsLast(w, r)
  {
    assert RunOk(w, r);
    assert Decided(ctx, w, r) == Failed;
    RunStepCases(ctx, w, r, Serve(false, z));
  }

  /** A new relevant commit asks for a plan. */
  lemma NewCommit(ctx: Context, w: World) returns (b: string)
    requires PlanLinkOk(ctx, w) && w.ann.planRun.Some?
    ensures var w' := Outside(ctx, w, SeeCommit(b, true));
            && w' == w.(ann := w'.ann) && LC.PlanIsStale(ctx, w') && w'.ann.relevantCommit == Some(b)
            && w'.ann.syncNow == w.ann.syncNow && w'.ann.applyNow == w.ann.applyNow
    ensures forall c :: Unpaid(w, c) ==> Unpaid(Outside(ctx, w, SeeCommit(b, true)), c)
    ensures b != "" && forall r :: r in w.runs ==> w.runs[r].revision != b
  {
    b := FreshName(
      {"", w.ann.planCommit.value} + (if w.ann.branchCommit.Some? then {w.ann.branchCommit.value} else {})
      + (set r | r in w.runs :: w.runs[r].revision));
  }

  // ---- the loss is repeated ----

  /** A plan run of a new commit is made and given up; the layer then applies what it had applied. */
  lemma PlanFailsThenApplies(ctx: Context, ws: seq<World>, steps: seq<Step>, c: Coord)
    returns (ws': seq<World>, steps': seq<Step>)
    requires Execution(ctx, ws, steps) && KeepLastRuns(ctx) >= 1 && AutoApplyEnabled(ctx)
    requires var w := ws[|steps|]; Unpaid(w, c) && !LC.IsRunning(w) && !w.ann.syncNow && !w.ann.applyNow
    ensures Execution(ctx, ws', steps') && ws <= ws' && steps <= steps'
    ensures ws'[|steps'|].applied == ws[|steps|].applied + [c]
  {
    var q;
    ws', steps', q := PlanMade(ctx, ws, steps, c);
    var w := ws'[|steps'|];
    ws', steps' := ComesToNothing(ctx, ws', steps', q);
    UnpaidStays(w, ws'[|steps'|], c);
    assert LC.HasLastRunReachedRetryLimit(ctx, ws'[|steps'|], PlanAction);
    ws', steps' := ApplyMade(ctx, ws', steps', c);
  }

  lemma PlanMade(ctx: Context, ws: seq<World>, steps: seq<Step>, c: Coord)
    returns (ws': seq<World>, steps': seq<Step>, q: RunName)
    requires Execution(ctx, ws, steps) && KeepLastRuns(ctx) >= 1
    requires var w := ws[|steps|]; Unpaid(w, c) && !LC.IsRunning(w) && !w.ann.syncNow && !w.ann.applyNow
    ensures Execution(ctx, ws', steps') && ws <= ws' && steps <= steps' && Inv(ctx, ws'[0])
    ensures var w' := ws'[|steps'|];
            && w'.applied == ws[|steps|].applied && Unpaid(w', c) && !w'.ann.syncNow && !w'.ann.applyNow
            && Podless(w', q) && IsLast(w', q) && w'.runs[q].action == PlanAction
            && Some(w'.runs[q].revision) == w'.ann.relevantCommit
  {
    InitInv(ctx, ws[0]);
    ReachedInv(ctx, ws, steps);
    var b := NewCommit(ctx, ws[|steps|]);
    ws', steps' := PathExtend(ctx, ws, steps, SeeCommit(b, true));
    var w := ws'[|steps'|];
    assert LC.GetState(ctx, w) == PlanNeeded;
    ws', steps', q := PlanIsMade(ctx, ws', steps');
    UnpaidStays(w, ws'[|steps'|], c);
  }

  lemma ApplyMade(ctx: Context, ws: seq<World>, steps: seq<Step>, c: Coord)
    returns (ws': seq<World>, steps': seq<Step>)
    requires Execution(ctx, ws, steps) && KeepLastRuns(ctx) >= 1 && AutoApplyEnabled(ctx)
    requires var w := ws[|steps|];
             && LC.HasLastRunReachedRetryLimit(ctx, w, PlanAction) && Unpaid(w, c)
             && !w.ann.syncNow && !w.ann.applyNow && w.ann.relevantCommit.Some?
    ensures Execution(ctx, ws', steps') && ws <= ws' && steps <= steps'
    ensures ws'[|steps'|].applied == ws[|steps|].applied + [c]
  {
    InitInv(ctx, ws[0]);
    assert LC.GetState(ctx, ws[|steps|]) == ApplyNeeded(false);
    var r;
    ws', steps', r := ApplyIsMade(ctx, ws, steps);
    ReachedInv(ctx, ws', steps');
    var z := FreshName(ws'[|steps'|].podNames);
    ApplyServed(ctx, ws'[|steps'|], r, z);
    ws', steps' := PathExtend(ctx, ws', steps', RunStep(r, Serve(true, z)));
    ws', steps' := AppliesAgain(ctx, ws', steps', r, z);
  }

  /** A new run that gets the lease gets its pod at once. */
  lemma ApplyServed(ctx: Context, w: World, r: RunName, z: PodName)
    requires Inv(ctx, w) && LiveAuto(w, r) && w.runs[r].status == NEW_STATUS && z !in w.podNames
    ensures var w' := RC.ReconcileRun(ctx, w, r, Serve(true, z));
            && LiveAuto(w', r) && w'.runs[r].artifact == w.runs[r].artifact
            && w'.plans == w.plans && w'.applied == w.applied
            && z in w'.pods && w'.pods[z].run == r && w'.pods[z].phase == PodPending && w'.pods[z].progress == Started
    ensures w.runs[r].artifact.Some? && w.runs[r].artifact.value in w.plans
  {
    assert RunOk(w, r);
    assert Decided(ctx, w, r) == Initial;
    RunStepCases(ctx, w, r, Serve(true, z));
  }

  lemma LoseApply(ctx: Context, ws: seq<World>, steps: seq<Step>, step: Step)
    returns (ws': seq<World>, steps': seq<Step>, r: RunName, c: Coord)
    requires Execution(ctx, ws, steps) && KeepLastRuns(ctx) >= 1 && LosesApply(ctx, ws[|steps|], step)
    ensures Execution(ctx, ws', steps') && ws <= ws' && steps' == steps + [step]
    ensures var w := ws'[|steps'|];
            && Bereft(w, r) && w.runs[r].artifact == Some(c) && c in w.applied
            && (w.runs[r].status.retries >= MaxRetries(ctx) && NoDuplicates(w.applied) ==>
                  !LC.IsApplyUpToDate(w) && !LC.HasLastPlanFailed(w))
  {
    var w := ws[|steps|];
    ReachedInv(ctx, ws, steps);
    OwedAlong(ctx, ws, steps, |steps|);
    LossBereaves(ctx, w, step);
    r := w.pods[step.pod].run;
    c := w.runs[r].artifact.value;
    ws', steps' := PathExtend(ctx, ws, steps, step);
  }

  /** Wherever an apply is lost the system can go on to apply the same artifact again. */
  lemma LossIsRepeated(ctx: Context, ws: seq<World>, steps: seq<Step>, step: Step)
    returns (ws': seq<World>, steps': seq<Step>)
    requires Execution(ctx, ws, steps) && KeepLastRuns(ctx) >= 1 && LosesApply(ctx, ws[|steps|], step)
    ensures Execution(ctx, ws', steps') && ws <= ws' && steps + [step] <= steps'
    ensures !NoDuplicates(ws'[|steps'|].applied)
  {
    var r, c;
    ws', steps', r, c := LoseApply(ctx, ws, steps, step);
    var w := ws'[|steps'|];
    if w.runs[r].status.retries < MaxRetries(ctx) {
      ws', steps' := RetryRepeats(ctx, ws', steps', r);
      AppendKeeps(w.applied, ws'[|steps'|].applied);
    } else if NoDuplicates(w.applied) {
      ws', steps' := ExhaustedRepeats(ctx, ws', steps', r, c);
      AppendKeeps(w.applied, ws'[|steps'|].applied);
    }
  }

  lemma BereftIsLast(ctx: Context, w: World, r: RunName)
    requires Inv(ctx, w) && Owed(ctx, w) && Bereft(w, r)
    ensures w.ann.planRun == w.runs[r].artifact && AutoApplyEnabled(ctx)
  {
    assert RunOk(w, r);
  }

  /** The run is given up, and what it has applied is unpaid. */
  lemma GivesUpUnpaid(ctx: Context, ws: seq<World>, steps: seq<Step>, r: RunName, c: Coord)
    returns (ws': seq<World>, steps': seq<Step>)
    requires Execution(ctx, ws, steps) && KeepLastRuns(ctx) >= 1
    requires var w := ws[|steps|];
             && Bereft(w, r) && w.runs[r].status.retries >= MaxRetries(ctx) && w.runs[r].artifact == Some(c)
             && c in w.applied && !LC.IsApplyUpToDate(w) && !LC.HasLastPlanFailed(w)
    ensures Execution(ctx, ws', steps') && ws <= ws' && steps <= steps' && AutoApplyEnabled(ctx)
    ensures var w' := ws'[|steps'|]; w'.applied == ws[|steps|].applied && Unpaid(w', c) && !LC.IsRunning(w')
  {
    var w := ws[|steps|];
    ReachedInv(ctx, ws, steps);
    OwedAlong(ctx, ws, steps, |steps|);
    BereftIsLast(ctx, w, r);
    var z := FreshName(w.podNames);
    GivesUp(ctx, w, r, z);
    ws', steps' := PathExtend(ctx, ws, steps, RunStep(r, Serve(false, z)));
  }

  lemma ExhaustedRepeats(ctx: Context, ws: seq<World>, steps: seq<Step>, r: RunName, c: Coord)
    returns (ws': seq<World>, steps': seq<Step>)
    requires Execution(ctx, ws, steps) && KeepLastRuns(ctx) >= 1
    requires var w := ws[|steps|];
             && Bereft(w, r) && w.runs[r].status.retries >= MaxRetries(ctx) && w.runs[r].artifact == Some(c)
             && c in w.applied && !LC.IsApplyUpToDate(w) && !LC.HasLastPlanFailed(w)
    ensures Execution(ctx, ws', steps') && ws <= ws' && steps <= steps'
    ensures ws'[|steps'|].applied == ws[|steps|].applied + [c]
  {
    InitInv(ctx, ws[0]);
    ws', steps' := GivesUpUnpaid(ctx, ws, steps, r, c);
    var w := ws'[|steps'|];
    ws', steps' := ClearRequests(ctx, ws', steps');
    UnpaidStays(w, ws'[|steps'|], c);
    ws', steps' := PlanFailsThenApplies(ctx, ws', steps', c);
  }
}
