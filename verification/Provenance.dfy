/** Which commit an artifact was planned at, which steps part it from the commit it would be applied for, and that every
    such step can lead to an automatic apply for the wrong commit. */
module Provenance {
  import opened Resources
  import RC = RunController
  import LC = LayerController
  import opened Protocol
  import opened Invariant
  import opened Continuations

  // ---- the commit an artifact was planned at ----

  predicate IsPlanRun(w: World, r: RunName, revision: string) {
    r in w.runs && w.runs[r].action == PlanAction && w.runs[r].revision == revision
  }

  /** The artifact is that of a plan run of the revision: one that is there now or was there before. */
  ghost predicate PlannedAt(ws: seq<World>, i: nat, c: Coord, revision: string)
    requires i < |ws|
  {
    exists j :: 0 <= j <= i && IsPlanRun(ws[j], c.run, revision)
  }

  lemma PlannedAtGrows(ws: seq<World>, ws': seq<World>, i: nat, j: nat, c: Coord, revision: string)
    requires i < |ws| && ws <= ws' && i <= j < |ws'| && PlannedAt(ws, i, c, revision)
    ensures PlannedAt(ws', j, c, revision)
  {
    var k :| 0 <= k <= i && IsPlanRun(ws[k], c.run, revision);
    assert IsPlanRun(ws'[k], c.run, revision);
  }

  /** A run name stands for one run only. */
  ghost predicate Same(w: World, w': World, r: RunName)
    requires r in w.runs
  {
    r in w'.runNames && (r in w'.runs ==> w'.runs[r] == w.runs[r].(status := w'.runs[r].status))
  }

  lemma SameNext(ctx: Context, w: World, step: Step, w': World, r: RunName, w0: World)
    requires RunsOk(w) && Next(ctx, w, step, w') && r in w0.runs && Same(w0, w, r)
    ensures Same(w0, w', r)
  {
    NextEffect(ctx, w, step);
  }

  lemma {:induction false} SameAlong(ctx: Context, ws: seq<World>, steps: seq<Step>, j: nat, k: nat, r: RunName)
    requires Execution(ctx, ws, steps) && KeepLastRuns(ctx) >= 1 && j <= k <= |steps| && r in ws[j].runs
    ensures Same(ws[j], ws[k], r)
  {
    InitInv(ctx, ws[0]);
    if j == k {
      PathInv(ctx, ws, steps, j);
      assert RunOk(ws[j], r);
    } else {
      var i := k - 1;
      SameAlong(ctx, ws, steps, j, i, r);
      PathInv(ctx, ws, steps, i);
      assert NextAt(ctx, ws, steps, i);
      SameNext(ctx, ws[i], steps[i], ws[k], r, ws[j]);
    }
  }

  /** An artifact was planned at one revision. */
  lemma PlannedAtOne(ctx: Context, ws: seq<World>, steps: seq<Step>, i: nat, c: Coord, a: string, b: string)
    requires Execution(ctx, ws, steps) && KeepLastRuns(ctx) >= 1 && i <= |steps|
    requires PlannedAt(ws, i, c, a) && PlannedAt(ws, i, c, b)
    ensures a == b
  {
    var j :| 0 <= j <= i && IsPlanRun(ws[j], c.run, a);
    var k :| 0 <= k <= i && IsPlanRun(ws[k], c.run, b);
    SameAlong(ctx, ws, steps, if j <= k then j else k, if j <= k then k else j, c.run);
  }

  /** The annotations tell the truth: the artifact they name was planned at the commit they name. */
  ghost predicate Linked(ws: seq<World>, i: nat)
    requires i < |ws|
  {
    var ann := ws[i].ann;
    ann.planRun.Some? ==> ann.planCommit.Some? && PlannedAt(ws, i, ann.planRun.value, ann.planCommit.value)
  }

  /** The runner reports a plan. */
  predicate Reporting(w: World, p: PodName) {
    Works(w, p) && w.pods[p].progress.Stored?
  }

  lemma PlanAnnotations(ctx: Context, w: World, step: Step, w': World)
    requires Inv(ctx, w) && Next(ctx, w, step, w')
    ensures if step.Publish? && Reporting(w, step.pod) then
              && w'.ann.planRun == Some(CoordOf(w, step.pod)) && w'.ann.planCommit == Some(RunOf(w, step.pod).revision)
              && IsPlanRun(w, w.pods[step.pod].run, RunOf(w, step.pod).revision)
            else w'.ann.planRun == w.ann.planRun && w'.ann.planCommit == w.ann.planCommit
  {
    if step.Publish? {
      if Reporting(w, step.pod) {
        assert PodOk(w, step.pod);
      }
    } else if !IsRunnerStep(step) {
      NextEffect(ctx, w, step);
    }
  }

  lemma LinkedStep(ctx: Context, ws: seq<World>, steps: seq<Step>, i: nat)
    requires Execution(ctx, ws, steps) && KeepLastRuns(ctx) >= 1 && i < |steps| && Linked(ws, i)
    ensures Linked(ws, i + 1)
  {
    InitInv(ctx, ws[0]);
    PathInv(ctx, ws, steps, i);
    assert NextAt(ctx, ws, steps, i);
    PlanAnnotations(ctx, ws[i], steps[i], ws[i + 1]);
    var ann := ws[i].ann;
    if ann.planRun.Some? {
      PlannedAtGrows(ws, ws, i, i + 1, ann.planRun.value, ann.planCommit.value);
    }
  }

  lemma {:induction false} LinkedAlong(ctx: Context, ws: seq<World>, steps: seq<Step>, i: nat)
    requires Execution(ctx, ws, steps) && KeepLastRuns(ctx) >= 1 && i <= |steps|
    ensures Linked(ws, i)
  {
    if i > 0 {
      LinkedAlong(ctx, ws, steps, i - 1);
      LinkedStep(ctx, ws, steps, i - 1);
    }
  }

  /** An apply run, asked for or not, is made for the commit that its artifact was planned at exactly when the planned
      commit is the relevant one. */
  lemma AppliesPlannedCommitIff(ctx: Context, ws: seq<World>, steps: seq<Step>, i: nat, ch: LC.LayerChoice)
    requires Execution(ctx, ws, steps) && KeepLastRuns(ctx) >= 1 && i <= |steps|
    requires LC.Decide(ctx, ws[i], LC.GetState(ctx, ws[i]), ch).Create?
    requires LC.Decide(ctx, ws[i], LC.GetState(ctx, ws[i]), ch).run.action == ApplyAction
    ensures var run := LC.Decide(ctx, ws[i], LC.GetState(ctx, ws[i]), ch).run;
            && run.artifact.Some?
            && (PlannedAt(ws, i, run.artifact.value, run.revision) <==>
                 ws[i].ann.planCommit == ws[i].ann.relevantCommit)
  {
    var run := LC.Decide(ctx, ws[i], LC.GetState(ctx, ws[i]), ch).run;
    LinkedAlong(ctx, ws, steps, i);
    if PlannedAt(ws, i, run.artifact.value, run.revision) {
      PlannedAtOne(ctx, ws, steps, i, run.artifact.value, run.revision, ws[i].ann.planCommit.value);
    }
  }

  // ---- the steps that part the two commits ----

  /** The layer will not apply a plan of another commit by itself: it may not or need not apply, the plan is of the
      relevant commit, or a new plan comes first. */
  predicate Safe(ctx: Context, w: World) {
    || !AutoApplyEnabled(ctx) || w.ann.planRun.None? || w.ann.relevantCommit.None?
    || w.ann.planCommit == w.ann.relevantCommit
    || LC.IsApplyUpToDate(w)
    || (LC.PlanIsStale(ctx, w) && !LC.HasLastRunReachedRetryLimit(ctx, w, PlanAction))
  }

  /** A plan that is reported after a commit came that is relevant now, and that counts as planned for being younger. */
  predicate Overtakes(ctx: Context, w: World, p: PodName) {
    && Reporting(w, p) && ctx.settings.driftDetection > 0
    && var a, revision, sum := w.ann, RunOf(w, p).revision, ctx.settings.digest(w.pods[p].progress.plan);
    && a.relevantCommit.Some? && a.relevantCommit != Some(revision)
    && (a.branchCommit.None? || a.branchCommit == Some(revision) || a.branchDate.Garbled?
        || (a.branchDate.At? && a.branchDate.time < w.now))
    && sum != "" && a.applySum != Some(sum)
    && (a.applySum == Some("") ==> a.applyDate.At? && a.applyDate.time < w.now)
  }

  /** The last run gave up planning the revision. */
  predicate GaveUpPlanning(ctx: Context, w: World, revision: string) {
    && w.status.lastRun.Some? && w.status.lastRun.value.name in w.runs
    && var run := w.runs[w.status.lastRun.value.name];
    && run.action == PlanAction && run.status.state == Failed && run.status.retries >= MaxRetries(ctx)
    && (revision == "" || run.revision == revision)
  }

  /** A commit after which another one is relevant than the planned one, and no plan is due: the branch is back at the
      planned commit, or was at the commit already when the plan was made, or planning the relevant commit was given
      up. */
  predicate Diverts(ctx: Context, w: World, revision: string, relevant: bool) {
    var a := w.ann;
    var target := if relevant || a.relevantCommit.None? then revision else a.relevantCommit.value;
    && a.planRun.Some? && !LC.IsApplyUpToDate(w) && a.planCommit != Some(target)
    && (GaveUpPlanning(ctx, w, target)
        || (!LC.IsLastPlanTooOld(ctx, w)
            && (a.planCommit == Some(revision)
                || (a.branchCommit == Some(revision)
                    && (a.branchDate.Garbled?
                        || (a.branchDate.At? && a.planDate.At? && a.branchDate.time < a.planDate.time))))))
  }

  /** A plan of the relevant commit is given up while an older plan is not applied. */
  ghost predicate Abandons(ctx: Context, w: World, r: RunName, ch: RC.RunChoice) {
    && Reconciles(w, r, ch) && w.runs[r].action == PlanAction && Decided(ctx, w, r) == Failed
    && w.ann.relevantCommit.Some? && w.ann.relevantCommit.value in {"", w.runs[r].revision}
    && w.ann.planRun.Some? && w.ann.planCommit != w.ann.relevantCommit && !LC.IsApplyUpToDate(w)
  }

  ghost predicate Parts(ctx: Context, w: World, step: Step) {
    && AutoApplyEnabled(ctx) && Safe(ctx, w)
    && match step
       case Publish(p) => Overtakes(ctx, w, p)
       case SeeCommit(revision, relevant) => Diverts(ctx, w, revision, relevant)
       case RunStep(r, ch) => Abandons(ctx, w, r, ch)
       case _ => false
  }

  /** A reported plan is the last run's, which is not over. */
  lemma ReportedPlanParts(ctx: Context, w: World, p: PodName)
    requires Safe(ctx, w) && Reporting(w, p) && !LC.HasLastRunReachedRetryLimit(ctx, w, PlanAction)
    ensures !Safe(ctx, PublishResult(ctx, w, p)) <==> AutoApplyEnabled(ctx) && Overtakes(ctx, w, p)
  {
    assert !LC.HasLastRunReachedRetryLimit(ctx, PublishResult(ctx, w, p), PlanAction);
  }

  /** A reported apply leaves nothing to apply. */
  lemma ReportedApplyParts(ctx: Context, w: World, p: PodName)
    requires Inv(ctx, w) && Works(w, p) && w.pods[p].progress.Applied?
    ensures LC.IsApplyUpToDate(PublishResult(ctx, w, p))
  {
    WorkerFacts(ctx, w, p);
  }

  lemma PublishParts(ctx: Context, w: World, p: PodName)
    requires Inv(ctx, w) && Safe(ctx, w)
    ensures !Safe(ctx, RunnerDoes(ctx, w, Publish(p))) <==> AutoApplyEnabled(ctx) && Overtakes(ctx, w, p)
  {
    if Reporting(w, p) {
      WorkerFacts(ctx, w, p);
      ReportedPlanParts(ctx, w, p);
    } else if Works(w, p) && w.pods[p].progress.Applied? {
      ReportedApplyParts(ctx, w, p);
    }
  }

  lemma SeeCommitParts(ctx: Context, w: World, revision: string, relevant: bool)
    requires PlanLinkOk(ctx, w) && Safe(ctx, w)
    ensures !Safe(ctx, w.(ann := Annotated(w.ann, w.now, revision, relevant))) <==>
            AutoApplyEnabled(ctx) && Diverts(ctx, w, revision, relevant)
  {
  }

  lemma RunStepParts(ctx: Context, w: World, w': World, r: RunName, ch: RC.RunChoice)
    requires RunsOk(w) && Safe(ctx, w) && Reconciles(w, r, ch) && RunEffect(ctx, w, w', r, ch)
    ensures !Safe(ctx, w') <==> AutoApplyEnabled(ctx) && Abandons(ctx, w, r, ch)
  {
    assert RunOk(w, r);
  }

  lemma DeletesSafe(ctx: Context, w: World, w': World)
    requires OnlyDeletes(w, w') && Safe(ctx, w)
    ensures Safe(ctx, w')
  {
  }

  lemma ShownSafe(ctx: Context, w: World, w': World)
    requires Safe(ctx, w) && w'.runs == w.runs && w'.status.lastRun == w.status.lastRun && w'.now >= w.now
    requires w'.ann == w.ann.(syncNow := w'.ann.syncNow, applyNow := w'.ann.applyNow)
    ensures Safe(ctx, w')
  {
  }

  /** A new run has given up nothing. */
  lemma RecordedSafe(ctx: Context, w: World, w': World, q: RunName)
    requires Safe(ctx, w) && w'.now == w.now && q in w'.runs && IsLast(w', q) && w'.runs[q].status == NEW_STATUS
    requires w'.ann == w.ann.(syncNow := w'.ann.syncNow, applyNow := w'.ann.applyNow)
    ensures Safe(ctx, w')
  {
  }

  lemma LayerStepParts(ctx: Context, w: World, ch: LC.LayerChoice)
    requires Inv(ctx, w) && KeepLastRuns(ctx) >= 1 && Safe(ctx, w) && ch.run !in w.runNames
    ensures Safe(ctx, LC.ReconcileLayer(ctx, w, ch))
  {
    var state, keep := LC.GetState(ctx, w), KeepLastRuns(ctx);
    if !ch.locked {
      match LC.Decide(ctx, w, state, ch) {
        case NoArtifact => ShownSafe(ctx, w, w.(ann := LC.Unmark(w, ch)));
        case NoRun =>
          var w1 := LC.Shown(w, state, ch);
          ShownSafe(ctx, w, w1);
          CleanupDeletes(ctx, w1, ch.undeleted);
          DeletesSafe(ctx, w1, LC.Cleanup(w1, keep, ch.undeleted));
        case Create(run) =>
          var w1 := LC.Recorded(w, state, ch, run, keep);
          RecordedSafe(ctx, w, w1, ch.run);
          CreateHistory(ctx, w, state, ch, run);
          CleanupDeletes(ctx, w1, ch.undeleted);
          DeletesSafe(ctx, w1, LC.Cleanup(w1, keep, ch.undeleted));
      }
    }
  }

  /** The steps after which a safe layer is not safe any more are exactly these. */
  lemma PartsIff(ctx: Context, w: World, step: Step, w': World)
    requires Inv(ctx, w) && KeepLastRuns(ctx) >= 1 && Safe(ctx, w) && Next(ctx, w, step, w')
    ensures !Safe(ctx, w') <==> Parts(ctx, w, step)
  {
    NextEffect(ctx, w, step);
    if step.LayerStep? {
      LayerStepParts(ctx, w, step.layer);
    } else if step.RunStep? {
      if Reconciles(w, step.run, step.choice) {
        RunStepParts(ctx, w, w', step.run, step.choice);
      }
    } else if step.Publish? {
      PublishParts(ctx, w, step.pod);
    } else if step.SeeCommit? {
      SeeCommitParts(ctx, w, step.revision, step.relevant);
    } else {
      ShownSafe(ctx, w, w');
    }
  }

  // ---- without such a step ----

  /** Every automatic apply run is for the commit its artifact was planned at. */
  ghost predicate AllPlanned(ws: seq<World>, i: nat)
    requires i < |ws|
  {
    forall r :: r in ws[i].runs && ws[i].runs[r].action == ApplyAction && ws[i].runs[r].auto ==>
      ws[i].runs[r].artifact.Some? && PlannedAt(ws, i, ws[i].runs[r].artifact.value, ws[i].runs[r].revision)
  }

  /** What a safe layer decides on by itself. */
  lemma SafeDecision(ctx: Context, w: World, ch: LC.LayerChoice)
    requires Safe(ctx, w) && LC.Decide(ctx, w, LC.GetState(ctx, w), ch).Create?
    ensures var run := LC.Decide(ctx, w, LC.GetState(ctx, w), ch).run;
            run.action == ApplyAction && run.auto ==>
              w.ann.planCommit == w.ann.relevantCommit && w.ann.relevantCommit == Some(run.revision)
              && run.artifact == w.ann.planRun && run.artifact.Some?
  {
  }

  /** An automatic apply run after a step was there before, or was decided on. */
  lemma NewApplies(ctx: Context, w: World, step: Step, w': World, r: RunName)
    requires RunsOk(w) && Next(ctx, w, step, w')
    requires r in w'.runs && w'.runs[r].action == ApplyAction && w'.runs[r].auto
    ensures if r in w.runs then w'.runs[r] == w.runs[r].(status := w'.runs[r].status)
            else step.LayerStep? && LC.Decide(ctx, w, LC.GetState(ctx, w), step.layer) == LC.Create(w'.runs[r])
  {
    NextEffect(ctx, w, step);
  }

  lemma AllPlannedStep(ctx: Context, ws: seq<World>, steps: seq<Step>, i: nat)
    requires Execution(ctx, ws, steps) && KeepLastRuns(ctx) >= 1 && i < |steps|
    requires Safe(ctx, ws[i]) && AllPlanned(ws, i)
    ensures AllPlanned(ws, i + 1)
  {
    ReachedAt(ctx, ws, steps, i);
    LinkedAlong(ctx, ws, steps, i);
    var w, w' := ws[i], ws[i + 1];
    forall r | r in w'.runs && w'.runs[r].action == ApplyAction && w'.runs[r].auto
      ensures w'.runs[r].artifact.Some? && PlannedAt(ws, i + 1, w'.runs[r].artifact.value, w'.runs[r].revision)
    {
      NewApplies(ctx, w, steps[i], w', r);
      if r !in w.runs {
        SafeDecision(ctx, w, steps[i].layer);
      }
      PlannedAtGrows(ws, ws, i, i + 1, w'.runs[r].artifact.value, w'.runs[r].revision);
    }
  }

  lemma ReachedAt(ctx: Context, ws: seq<World>, steps: seq<Step>, i: nat)
    requires Execution(ctx, ws, steps) && KeepLastRuns(ctx) >= 1 && i < |steps|
    ensures Inv(ctx, ws[i]) && Next(ctx, ws[i], steps[i], ws[i + 1])
  {
    InitInv(ctx, ws[0]);
    PathInv(ctx, ws, steps, i);
    assert NextAt(ctx, ws, steps, i);
  }

  /** Over any execution without a step that parts the two commits, every automatic apply run is for the commit that its
      artifact was planned at. */
  lemma {:induction false} AutoAppliesArePlanned(ctx: Context, ws: seq<World>, steps: seq<Step>, i: nat)
    requires Execution(ctx, ws, steps) && KeepLastRuns(ctx) >= 1 && i <= |steps|
    requires forall k :: 0 <= k < i ==> !Parts(ctx, ws[k], steps[k])
    ensures Safe(ctx, ws[i]) && AllPlanned(ws, i)
  {
    if i > 0 {
      var j := i - 1;
      AutoAppliesArePlanned(ctx, ws, steps, j);
      AllPlannedStep(ctx, ws, steps, j);
      ReachedAt(ctx, ws, steps, j);
      PartsIff(ctx, ws[j], steps[j], ws[i]);
    }
  }

  // ---- after such a step ----

  /** From world m on, up to world n, the layer is not safe: no step there is one that parts the two commits. */
  ghost predicate Unsafe(ctx: Context, ws: seq<World>, m: nat, n: nat) {
    n <= |ws| && forall k :: m <= k < n ==> !Safe(ctx, ws[k])
  }

  /** A plan of another commit counts as up to date and is not applied. */
  predicate Exposed(ctx: Context, w: World) {
    !Safe(ctx, w) && !LC.PlanIsStale(ctx, w)
  }

  lemma ExposedStays(ctx: Context, w: World, w': World)
    requires Exposed(ctx, w) && w'.now == w.now
    requires w'.ann == w.ann.(syncNow := w'.ann.syncNow, applyNow := w'.ann.applyNow)
    ensures Exposed(ctx, w')
  {
  }

  lemma {:induction false} ExposedRuns(ctx: Context, ws: seq<World>, steps: seq<Step>, m: nat, n: nat)
    requires |ws| == |steps| + 1 && m <= n <= |steps| && OnlyRuns(ctx, ws, steps, m) && Exposed(ctx, ws[m])
    ensures Exposed(ctx, ws[n]) && Unsafe(ctx, ws, m, n + 1)
  {
    if m < n {
      ExposedRuns(ctx, ws, steps, m, n - 1);
      assert RunsAt(ctx, ws, steps, n - 1);
      ExposedStays(ctx, ws[n - 1], ws[n]);
    }
  }

  lemma ExposedNothing(ctx: Context, ws: seq<World>, steps: seq<Step>, q: RunName, m: nat)
    returns (ws': seq<World>, steps': seq<Step>)
    requires Path(ctx, ws, steps) && Inv(ctx, ws[0]) && KeepLastRuns(ctx) >= 1 && m <= |steps|
    requires Exposed(ctx, ws[|steps|]) && Unsafe(ctx, ws, m, |ws|) && Podless(ws[|steps|], q)
    ensures Path(ctx, ws', steps') && ws <= ws' && steps <= steps' && Unsafe(ctx, ws', m, |ws'|)
    ensures Exposed(ctx, ws'[|steps'|])
    ensures OnlyRun(ws[|steps|], ws'[|steps'|], q) && GivenUp(ctx, ws'[|steps'|], q)
  {
    ws', steps' := ComesToNothing(ctx, ws, steps, q);
    ExposedRuns(ctx, ws', steps', |steps|, |steps'|);
  }

  /** A run in progress loses its pod, if it has one, and comes to nothing. */
  lemma StopsRunning(ctx: Context, ws: seq<World>, steps: seq<Step>, m: nat)
    returns (ws': seq<World>, steps': seq<Step>)
    requires Path(ctx, ws, steps) && Inv(ctx, ws[0]) && KeepLastRuns(ctx) >= 1 && m <= |steps|
    requires Unsafe(ctx, ws, m, |ws|)
    ensures Path(ctx, ws', steps') && ws <= ws' && steps <= steps' && Unsafe(ctx, ws', m, |ws'|)
    ensures !LC.IsRunning(ws'[|steps'|])
  {
    ws', steps' := ws, steps;
    var w := ws[|steps|];
    if LC.IsRunning(w) {
      var r := w.status.lastRun.value.name;
      var pod := w.runs[r].status.runnerPod;
      if pod.Some? {
        ws', steps' := PathExtend(ctx, ws, steps, VanishPod(pod.value));
        ExposedStays(ctx, w, ws'[|steps'|]);
      }
      ws', steps' := ExposedNothing(ctx, ws', steps', r, m);
    }
  }

  lemma TidiedSafe(ctx: Context, w: World, w': World)
    requires OnlyTidied(w, w')
    ensures Safe(ctx, w') <==> Safe(ctx, w)
  {
  }

  /** The requests are taken off. */
  lemma Quietens(ctx: Context, ws: seq<World>, steps: seq<Step>, m: nat) returns (ws': seq<World>, steps': seq<Step>)
    requires Path(ctx, ws, steps) && Inv(ctx, ws[0]) && KeepLastRuns(ctx) >= 1 && m <= |steps|
    requires Unsafe(ctx, ws, m, |ws|) && !LC.IsRunning(ws[|steps|])
    ensures Path(ctx, ws', steps') && ws <= ws' && steps <= steps' && Unsafe(ctx, ws', m, |ws'|)
    ensures Quiet(ws'[|steps'|])
  {
    ws', steps' := ClearRequests(ctx, ws, steps);
    TidiedSafe(ctx, ws[|steps|], ws'[|steps| + 1]);
    TidiedSafe(ctx, ws[|steps|], ws'[|steps'|]);
  }

  predicate Quiet(w: World) {
    !w.ann.syncNow && !w.ann.applyNow && !w.status.syncScheduled && !LC.IsRunning(w)
  }

  /** A requested plan is made and comes to nothing. */
  lemma RequestedPlanFails(ctx: Context, ws: seq<World>, steps: seq<Step>, m: nat)
    returns (ws': seq<World>, steps': seq<Step>, q: RunName)
    requires Path(ctx, ws, steps) && Inv(ctx, ws[0]) && KeepLastRuns(ctx) >= 1 && m <= |steps|
    requires Unsafe(ctx, ws, m, |ws|) && Exposed(ctx, ws[|steps|])
    requires var w := ws[|steps|]; w.ann.syncNow && !w.ann.applyNow && !LC.IsRunning(w)
    ensures Path(ctx, ws', steps') && ws <= ws' && steps <= steps' && Unsafe(ctx, ws', m, |ws'|)
    ensures var w' := ws'[|steps'|];
            && !w'.ann.syncNow && !w'.ann.applyNow
            && IsLast(w', q) && GivenUp(ctx, w', q) && w'.runs[q].action == PlanAction
  {
    ws', steps', q := PlanIsMade(ctx, ws, steps);
    ExposedStays(ctx, ws[|steps|], ws'[|steps'|]);
    ws', steps' := ExposedNothing(ctx, ws', steps', q, m);
  }

  /** An apply that was given up makes way for the next when a requested plan comes to nothing. */
  lemma LiftsLimit(ctx: Context, ws: seq<World>, steps: seq<Step>, m: nat) returns (ws': seq<World>, steps': seq<Step>)
    requires Path(ctx, ws, steps) && Inv(ctx, ws[0]) && KeepLastRuns(ctx) >= 1 && m <= |steps|
    requires Unsafe(ctx, ws, m, |ws|) && Quiet(ws[|steps|])
    ensures Path(ctx, ws', steps') && ws <= ws' && steps <= steps' && Unsafe(ctx, ws', m, |ws'|)
    ensures var w' := ws'[|steps'|];
            && !LC.IsRunning(w') && !w'.ann.syncNow && !w'.ann.applyNow
            && !LC.HasLastRunReachedRetryLimit(ctx, w', ApplyAction)
  {
    ws', steps' := ws, steps;
    var w := ws[|steps|];
    if LC.HasLastRunReachedRetryLimit(ctx, w, ApplyAction) {
      ws', steps' := PathExtend(ctx, ws, steps, RequestSync);
      ExposedStays(ctx, w, ws'[|steps'|]);
      var q;
      ws', steps', q := RequestedPlanFails(ctx, ws', steps', m);
    }
  }

  /** Then the layer applies the plan of the other commit. */
  lemma AppliesOther(ctx: Context, ws: seq<World>, steps: seq<Step>)
    returns (ws': seq<World>, steps': seq<Step>, r: RunName)
    requires Execution(ctx, ws, steps) && KeepLastRuns(ctx) >= 1 && !Safe(ctx, ws[|steps|])
    requires var w := ws[|steps|];
             && !LC.IsRunning(w) && !w.ann.syncNow && !w.ann.applyNow
             && !LC.HasLastRunReachedRetryLimit(ctx, w, ApplyAction)
    ensures Execution(ctx, ws', steps') && ws <= ws' && steps <= steps' && |steps'| == |steps| + 1
    ensures AppliedForOther(ws', |steps'|, r)
  {
    InitInv(ctx, ws[0]);
    assert LC.GetState(ctx, ws[|steps|]) == ApplyNeeded(false);
    ws', steps', r := ApplyIsMade(ctx, ws, steps);
    LinkedAlong(ctx, ws', steps', |steps'|);
    var w' := ws'[|steps'|];
    if PlannedAt(ws', |steps'|, w'.runs[r].artifact.value, w'.runs[r].revision) {
      PlannedAtOne(ctx, ws', steps', |steps'|, w'.runs[r].artifact.value, w'.runs[r].revision, w'.ann.planCommit.value);
    }
  }

  /** An automatic apply run for a commit that its artifact was not planned at. */
  ghost predicate AppliedForOther(ws: seq<World>, i: nat, r: RunName)
    requires i < |ws|
  {
    && r in ws[i].runs && ws[i].runs[r].action == ApplyAction && ws[i].runs[r].auto
    && ws[i].runs[r].artifact.Some? && !PlannedAt(ws, i, ws[i].runs[r].artifact.value, ws[i].runs[r].revision)
  }

  lemma UnsafeIsApplied(ctx: Context, ws: seq<World>, steps: seq<Step>)
    returns (ws': seq<World>, steps': seq<Step>, r: RunName)
    requires Execution(ctx, ws, steps) && KeepLastRuns(ctx) >= 1 && !Safe(ctx, ws[|steps|])
    ensures Execution(ctx, ws', steps') && ws <= ws' && steps <= steps' && Unsafe(ctx, ws', |steps|, |steps'|)
    ensures AppliedForOther(ws', |steps'|, r)
  {
    InitInv(ctx, ws[0]);
    ws', steps' := StopsRunning(ctx, ws, steps, |steps|);
    ws', steps' := Quietens(ctx, ws', steps', |steps|);
    ws', steps' := LiftsLimit(ctx, ws', steps', |steps|);
    ws', steps', r := AppliesOther(ctx, ws', steps');
  }

  /** Every step that parts the two commits can lead, without another such step, to an automatic apply run for a commit
      that its artifact was not planned at. */
  lemma PartingIsApplied(ctx: Context, ws: seq<World>, steps: seq<Step>, step: Step)
    returns (ws': seq<World>, steps': seq<Step>, r: RunName)
    requires Execution(ctx, ws, steps) && KeepLastRuns(ctx) >= 1
    requires Fresh(ws[|steps|], step) && Parts(ctx, ws[|steps|], step)
    ensures Execution(ctx, ws', steps') && ws <= ws' && steps + [step] <= steps'
    ensures forall k :: |steps| < k < |steps'| ==> !Parts(ctx, ws'[k], steps'[k])
    ensures AppliedForOther(ws', |steps'|, r)
  {
    ReachedInv(ctx, ws, steps);
    PartsIff(ctx, ws[|steps|], step, Apply(ctx, ws[|steps|], step));
    ws', steps' := PathExtend(ctx, ws, steps, step);
    ws', steps', r := UnsafeIsApplied(ctx, ws', steps');
  }
}
