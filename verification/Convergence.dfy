/** Left alone, a layer is planned once, applied once, and then rests. */
module Convergence {
  import opened Resources
  import RC = RunController
  import LC = LayerController
  import opened Protocol
  import opened Invariant

  /** A commit that is not relevant for the layer, and that does not take the branch back to the planned commit while
      another one is relevant and nothing runs. */
  predicate Passes(w: World, revision: string, relevant: bool) {
    && !relevant && w.ann.relevantCommit.Some?
    && (w.ann.planCommit == Some(revision) ==> w.ann.planCommit == w.ann.relevantCommit || LC.IsRunning(w))
  }

  /** The runner reports a plan. */
  predicate ReportsPlan(w: World, step: Step) {
    step.Publish? && Works(w, step.pod) && w.pods[step.pod].progress.Stored?
  }

  /** No request, no relevant commit, and no plan that grows too old or is too old as soon as it is reported. */
  ghost predicate Calm(ctx: Context, w: World, step: Step, w': World) {
    && !step.RequestSync? && !step.RequestApply?
    && (step.SeeCommit? ==> Passes(w, step.revision, step.relevant))
    && (LC.IsLastPlanTooOld(ctx, w') ==> LC.IsLastPlanTooOld(ctx, w) && !ReportsPlan(w, step))
  }

  /** No run is given up. */
  ghost predicate Steady(w: World, w': World) {
    forall r :: r in w.runs && r in w'.runs && w'.runs[r].status.state == Failed ==> w.runs[r].status.state == Failed
  }

  function LastRun(w: World): RunName
    requires w.status.lastRun.Some?
  {
    w.status.lastRun.value.name
  }

  predicate HasLast(w: World) {
    w.status.lastRun.Some? && LastRun(w) in w.runs
  }

  /** A run that was made since base: it is not given up, its revision is the relevant one, and what it has published
      holds. */
  ghost predicate Well(ctx: Context, w: World, r: RunName)
    requires r in w.runs
  {
    var run := w.runs[r];
    && run.status.state != Failed
    && w.ann.relevantCommit == Some(run.revision)
    && (run.action == ApplyAction ==> !LC.PlanIsStale(ctx, w))
    && (run.action == PlanAction && (run.status.state == Succeeded || HasPublished(w, r)) ==> !LC.PlanIsStale(ctx, w))
  }

  ghost predicate HasPublished(w: World, r: RunName) {
    exists p :: p in w.pods && w.pods[p].run == r && w.pods[p].progress == Published
  }

  /** The plan is of the relevant commit, or a plan is still to come. */
  ghost predicate PlanFollows(ctx: Context, w: World) {
    || w.ann.relevantCommit.None?
    || w.ann.planCommit == w.ann.relevantCommit
    || (if LC.IsRunning(w) then w.runs[LastRun(w)].action == PlanAction else LC.PlanIsStale(ctx, w))
  }

  /** Nothing is requested, the plan follows the commits, and the last run succeeded before base or is one of the new
      ones. */
  ghost predicate CalmInv(ctx: Context, w: World, base: set<RunName>) {
    && !w.ann.syncNow && !w.ann.applyNow && PlanFollows(ctx, w)
    && base <= w.runNames
    && (HasLast(w) ==>
          if LastRun(w) in base then w.runs[LastRun(w)].status.state == Succeeded
          else Well(ctx, w, LastRun(w)))
  }

  /** How many runs are still to be made: a plan and its apply, the apply, or none. */
  ghost function ToCome(ctx: Context, w: World): nat {
    if LC.IsRunning(w) then (if w.runs[LastRun(w)].action == PlanAction then 1 else 0)
    else if LC.PlanIsStale(ctx, w) then 2
    else if !LC.IsApplyUpToDate(w) then 1
    else 0
  }

  lemma NothingExhausted(ctx: Context, w: World, base: set<RunName>)
    requires CalmInv(ctx, w, base)
    ensures forall a :: !LC.HasLastRunReachedRetryLimit(ctx, w, a)
  {
  }

  /** A finished apply run leaves nothing to apply. */
  lemma AppliedIsUpToDate(ctx: Context, w: World)
    requires Inv(ctx, w) && HasLast(w)
    requires w.runs[LastRun(w)].action == ApplyAction && w.runs[LastRun(w)].status.state == Succeeded
    ensures LC.IsApplyUpToDate(w)
  {
  }

  // ---- the layer step ----

  /** A run can be made now: its window is open, its revision known, and an unasked apply is allowed. */
  predicate Granted(ctx: Context, w: World, ch: LC.LayerChoice, action: Action) {
    && !ch.locked && ch.created && w.ann.relevantCommit.Some?
    && if action == PlanAction then !ch.planBlocked else AutoApplyEnabled(ctx) && !ch.applyBlocked
  }

  /** The next run that is to come: a plan before its apply. */
  function NextAction(toCome: nat): Action {
    if toCome == 2 then PlanAction else ApplyAction
  }

  /** What the controller decides depends on what is to come, and on nothing else that has happened. */
  lemma DecisionFollowsAgenda(ctx: Context, w: World, ch: LC.LayerChoice, base: set<RunName>)
    requires Inv(ctx, w) && CalmInv(ctx, w, base) && !ch.locked
    ensures var n := ToCome(ctx, w);
            var decision := LC.Decide(ctx, w, LC.GetState(ctx, w), ch);
            && !decision.NoArtifact?
            && (decision.Create? <==> !LC.IsRunning(w) && n > 0 && Granted(ctx, w, ch, NextAction(n)))
            && (decision.Create? ==>
                  && decision.run.action == NextAction(n) && decision.run.status == NEW_STATUS
                  && decision.run.created == w.now && w.ann.relevantCommit == Some(decision.run.revision)
                  && (decision.run.action == ApplyAction ==>
                        decision.run.artifact.Some? && decision.run.artifact == w.ann.planRun
                        && !LC.PlanIsStale(ctx, w)))
  {
    NothingExhausted(ctx, w, base);
  }

  /** One reconciliation of the layer makes the next run of the agenda exactly when it may, and nothing else. */
  lemma LayerStepCalm(ctx: Context, w: World, ch: LC.LayerChoice, base: set<RunName>)
    requires Inv(ctx, w) && CalmInv(ctx, w, base) && KeepLastRuns(ctx) >= 1 && ch.run !in w.runNames
    ensures var w', n := LC.ReconcileLayer(ctx, w, ch), ToCome(ctx, w);
            && CalmInv(ctx, w', base)
            && if !LC.IsRunning(w) && n > 0 && Granted(ctx, w, ch, NextAction(n)) then
                 && ch.run in w'.runs && w'.runs[ch.run].action == NextAction(n)
                 && w'.runNames == w.runNames + {ch.run}
                 && ToCome(ctx, w') == n - 1
               else
                 ToCome(ctx, w') == n && w'.runNames == w.runNames
  {
    if !ch.locked {
      var decision := LC.Decide(ctx, w, LC.GetState(ctx, w), ch);
      DecisionFollowsAgenda(ctx, w, ch, base);
      if decision.Create? {
        CreateStepCalm(ctx, w, ch, base, decision.run);
      } else {
        IdleStepCalm(ctx, w, ch, base);
      }
    }
  }

  lemma CreateStepCalm(ctx: Context, w: World, ch: LC.LayerChoice, base: set<RunName>, run: Run)
    requires Inv(ctx, w) && CalmInv(ctx, w, base) && KeepLastRuns(ctx) >= 1 && ch.run !in w.runNames && !ch.locked
    requires LC.Decide(ctx, w, LC.GetState(ctx, w), ch) == LC.Create(run)
    ensures var w' := LC.ReconcileLayer(ctx, w, ch);
            && CalmInv(ctx, w', base)
            && ch.run in w'.runs && w'.runs[ch.run].action == run.action
            && w'.runNames == w.runNames + {ch.run}
            && ToCome(ctx, w') == (if run.action == PlanAction then 1 else 0)
  {
    var state := LC.GetState(ctx, w);
    DecisionFollowsAgenda(ctx, w, ch, base);
    CreateCalm(ctx, w, state, ch, run, base);
    CleanupCalm(ctx, LC.Recorded(w, state, ch, run, KeepLastRuns(ctx)), base, ch.undeleted);
  }

  lemma IdleStepCalm(ctx: Context, w: World, ch: LC.LayerChoice, base: set<RunName>)
    requires Inv(ctx, w) && CalmInv(ctx, w, base) && !ch.locked
    requires LC.Decide(ctx, w, LC.GetState(ctx, w), ch) == LC.NoRun
    ensures var w' := LC.ReconcileLayer(ctx, w, ch);
            CalmInv(ctx, w', base) && ToCome(ctx, w') == ToCome(ctx, w) && w'.runNames == w.runNames
  {
    var w1 := LC.Shown(w, LC.GetState(ctx, w), ch);
    SameBooksInv(ctx, w, w1);
    SameCalm(ctx, w, w1, base);
    CleanupCalm(ctx, w1, base, ch.undeleted);
  }

  /** The displayed state plays no part. */
  lemma SameCalm(ctx: Context, w: World, w': World, base: set<RunName>)
    requires CalmInv(ctx, w, base)
    requires w'.runs == w.runs && w'.runNames == w.runNames && w'.pods == w.pods && w'.now == w.now
    requires w'.ann == w.ann && w'.status.lastRun == w.status.lastRun
    ensures CalmInv(ctx, w', base) && ToCome(ctx, w') == ToCome(ctx, w)
  {
  }

  lemma CreateCalm(ctx: Context, w: World, state: LayerState, ch: LC.LayerChoice, run: Run, base: set<RunName>)
    requires Inv(ctx, w) && CalmInv(ctx, w, base) && KeepLastRuns(ctx) >= 1 && ch.run !in w.runNames
    requires !LC.IsRunning(w) && run.status == NEW_STATUS && run.created == w.now
    requires w.ann.relevantCommit == Some(run.revision)
    requires run.action == ApplyAction ==>
               run.artifact.Some? && run.artifact == w.ann.planRun && !LC.PlanIsStale(ctx, w)
    ensures var w' := LC.Recorded(w, state, ch, run, KeepLastRuns(ctx));
            && Inv(ctx, w') && CalmInv(ctx, w', base)
            && HasLast(w') && LastRun(w') == ch.run && w'.runs[ch.run] == run
            && w'.runNames == w.runNames + {ch.run}
            && ToCome(ctx, w') == (if run.action == PlanAction then 1 else 0)
  {
    CreateInv(ctx, w, state, ch, run);
    NewRunCalm(ctx, w, LC.Recorded(w, state, ch, run, KeepLastRuns(ctx)), ch.run, base);
  }

  lemma DeletesCalm(ctx: Context, w: World, w': World, base: set<RunName>)
    requires CalmInv(ctx, w, base) && OnlyDeletes(w, w')
    ensures CalmInv(ctx, w', base) && ToCome(ctx, w') == ToCome(ctx, w) && w'.runNames == w.runNames
    ensures HasLast(w) ==> HasLast(w') && LastRun(w') == LastRun(w) && w'.runs[LastRun(w)] == w.runs[LastRun(w)]
  {
  }

  lemma CleanupCalm(ctx: Context, w: World, base: set<RunName>, undeleted: set<RunName>)
    requires Inv(ctx, w) && CalmInv(ctx, w, base)
    ensures var w' := LC.Cleanup(w, KeepLastRuns(ctx), undeleted);
            && CalmInv(ctx, w', base) && ToCome(ctx, w') == ToCome(ctx, w) && w'.runNames == w.runNames
            && (HasLast(w) ==> HasLast(w') && LastRun(w') == LastRun(w) && w'.runs[LastRun(w)] == w.runs[LastRun(w)])
  {
    CleanupDeletes(ctx, w, undeleted);
    DeletesCalm(ctx, w, LC.Cleanup(w, KeepLastRuns(ctx), undeleted), base);
  }

  lemma NewRunCalm(ctx: Context, w: World, w': World, r: RunName, base: set<RunName>)
    requires PodsOk(w) && CalmInv(ctx, w, base) && r !in w.runNames
    requires w'.pods == w.pods && w'.now == w.now
    requires r in w'.runs && IsLast(w', r) && w'.runs[r].status == NEW_STATUS && w'.ann == w.ann
    requires w.ann.relevantCommit == Some(w'.runs[r].revision) && w'.runNames == w.runNames + {r}
    requires !LC.IsRunning(w) && (w'.runs[r].action == ApplyAction ==> !LC.PlanIsStale(ctx, w))
    ensures CalmInv(ctx, w', base)
  {
  }

  // ---- the other steps ----

  /** A reconciliation of a run that is not given up: what it has published when it succeeds settles the agenda. */
  lemma RunStepCalm(ctx: Context, w: World, w': World, r: RunName, ch: RC.RunChoice, base: set<RunName>)
    requires Inv(ctx, w) && Inv(ctx, w') && CalmInv(ctx, w, base) && ch.pod !in w.podNames
    requires Reconciles(w, r, ch) && RunEffect(ctx, w, w', r, ch) && Steady(w, w')
    ensures CalmInv(ctx, w', base) && (ToCome(ctx, w') == ToCome(ctx, w) || ToCome(ctx, w') == 0)
  {
    assert RunOk(w, r);
    assert IsLast(w, r) && r !in base;
    RunStepWell(ctx, w, w', r, ch);
    if Terminal(w'.runs[r].status.state) {
      SuccessCalm(ctx, w', r);
    }
  }

  /** A run that has succeeded leaves the plan of the relevant commit, or nothing to apply. */
  lemma SuccessCalm(ctx: Context, w: World, r: RunName)
    requires Inv(ctx, w) && r in w.runs && IsLast(w, r) && Well(ctx, w, r) && Terminal(w.runs[r].status.state)
    ensures !LC.IsRunning(w) && !LC.PlanIsStale(ctx, w)
    ensures if w.runs[r].action == PlanAction then w.ann.planCommit == w.ann.relevantCommit else LC.IsApplyUpToDate(w)
  {
    if w.runs[r].action == ApplyAction {
      AppliedIsUpToDate(ctx, w);
    }
  }

  lemma RunStepWell(ctx: Context, w: World, w': World, r: RunName, ch: RC.RunChoice)
    requires RunsOk(w) && PodsOk(w) && r in w.runs && Well(ctx, w, r) && ch.pod !in w.podNames
    requires Reconciles(w, r, ch) && RunEffect(ctx, w, w', r, ch) && Steady(w, w')
    ensures Well(ctx, w', r)
  {
  }

  /** Pods that start, end or go, and runners that have not published: nothing that the agenda depends on changes. */
  lemma QuietPodsCalm(ctx: Context, w: World, w': World, base: set<RunName>)
    requires CalmInv(ctx, w, base)
    requires w'.runs == w.runs && w'.runNames == w.runNames && w'.ann == w.ann
    requires w'.status == w.status && w'.now == w.now
    requires w'.pods.Keys <= w.pods.Keys
    requires forall p :: p in w'.pods ==> w'.pods[p].run == w.pods[p].run
    requires forall p :: p in w'.pods && w'.pods[p].progress == Published ==> w.pods[p].progress == Published
    ensures CalmInv(ctx, w', base) && ToCome(ctx, w') == ToCome(ctx, w)
  {
  }

  lemma PodStepCalm(ctx: Context, w: World, step: Step, base: set<RunName>)
    requires CalmInv(ctx, w, base) && IsPodStep(step)
    ensures CalmInv(ctx, PodLife(w, step), base) && ToCome(ctx, PodLife(w, step)) == ToCome(ctx, w)
  {
    PodStepEffect(w, step);
    QuietPodsCalm(ctx, w, PodLife(w, step), base);
  }

  /** A published plan is fresh, and is the plan of the relevant commit. */
  lemma PublishCalm(ctx: Context, w: World, p: PodName, base: set<RunName>)
    requires Inv(ctx, w) && CalmInv(ctx, w, base)
    requires Works(w, p) && (w.pods[p].progress.Stored? || w.pods[p].progress.Applied?)
    requires w.pods[p].progress.Stored? ==> !LC.IsLastPlanTooOld(ctx, PublishResult(ctx, w, p))
    ensures var w' := PublishResult(ctx, w, p);
            CalmInv(ctx, w', base) && ToCome(ctx, w') == ToCome(ctx, w)
  {
    var w' := PublishResult(ctx, w, p);
    WorkerFacts(ctx, w, p);
    assert LastRun(w) == w.pods[p].run && LC.IsRunning(w) && LC.IsRunning(w');
    if w.pods[p].progress.Stored? {
      assert !LC.PlanIsStale(ctx, w');
    }
  }

  lemma StorePlanCalm(ctx: Context, w: World, p: PodName, plan: Bytes, base: set<RunName>)
    requires CalmInv(ctx, w, base)
    ensures var w' := RunnerDoes(ctx, w, StorePlan(p, plan));
            CalmInv(ctx, w', base) && ToCome(ctx, w') == ToCome(ctx, w)
  {
    QuietPodsCalm(ctx, w, RunnerDoes(ctx, w, StorePlan(p, plan)), base);
  }

  lemma ApplyPlanCalm(ctx: Context, w: World, p: PodName, base: set<RunName>)
    requires CalmInv(ctx, w, base)
    ensures var w' := RunnerDoes(ctx, w, ApplyPlan(p));
            CalmInv(ctx, w', base) && ToCome(ctx, w') == ToCome(ctx, w)
  {
    QuietPodsCalm(ctx, w, RunnerDoes(ctx, w, ApplyPlan(p)), base);
  }

  lemma RunnerStepCalm(ctx: Context, w: World, step: Step, base: set<RunName>)
    requires Inv(ctx, w) && CalmInv(ctx, w, base) && IsRunnerStep(step)
    requires Calm(ctx, w, step, RunnerDoes(ctx, w, step))
    ensures CalmInv(ctx, RunnerDoes(ctx, w, step), base) && ToCome(ctx, RunnerDoes(ctx, w, step)) == ToCome(ctx, w)
  {
    match step {
      case StorePlan(p, plan) => StorePlanCalm(ctx, w, p, plan, base);
      case ApplyPlan(p) => ApplyPlanCalm(ctx, w, p, base);
      case Publish(p) =>
        if Works(w, p) && (w.pods[p].progress.Stored? || w.pods[p].progress.Applied?) {
          PublishCalm(ctx, w, p, base);
        }
    }
  }

  lemma TickCalm(ctx: Context, w: World, s: nat, base: set<RunName>)
    requires CalmInv(ctx, w, base) && Calm(ctx, w, Tick(s), w.(now := w.now + s))
    ensures CalmInv(ctx, w.(now := w.now + s), base) && ToCome(ctx, w.(now := w.now + s)) == ToCome(ctx, w)
  {
  }

  /** A commit that passes the layer by leaves a stale plan stale and a plan of the relevant commit fresh. */
  lemma PassingCommit(ctx: Context, w: World, rev: string)
    requires PlanLinkOk(ctx, w) && Passes(w, rev, false)
    ensures var w' := w.(ann := Annotated(w.ann, w.now, rev, false));
            && w'.ann.relevantCommit == w.ann.relevantCommit && w'.ann.planCommit == w.ann.planCommit
            && (w.ann.planCommit == w.ann.relevantCommit ==> (LC.PlanIsStale(ctx, w') <==> LC.PlanIsStale(ctx, w)))
            && (!LC.IsRunning(w) && LC.PlanIsStale(ctx, w) ==> LC.PlanIsStale(ctx, w'))
  {
  }

  lemma SeeCommitCalm(ctx: Context, w: World, rev: string, base: set<RunName>)
    requires Inv(ctx, w) && CalmInv(ctx, w, base) && Passes(w, rev, false)
    ensures var w' := w.(ann := Annotated(w.ann, w.now, rev, false));
            CalmInv(ctx, w', base) && ToCome(ctx, w') == ToCome(ctx, w)
  {
    PassingCommit(ctx, w, rev);
    if HasLast(w) && HasPublished(w, LastRun(w)) {
      assert Reported(w, LastRun(w));
    }
  }

  // ---- the whole path ----

  /** The action of the run that a step made, if any. */
  ghost function MadeBy(w: World, step: Step, w': World): seq<Action> {
    if step.LayerStep? && step.layer.run in w'.runs && w'.runNames != w.runNames then [w'.runs[step.layer.run].action]
    else []
  }

  ghost function MadeAt(ws: seq<World>, steps: seq<Step>, i: nat): seq<Action>
    requires |ws| == |steps| + 1 && i < |steps|
  {
    MadeBy(ws[i], steps[i], ws[i + 1])
  }

  /** The action of each run made along the way, in order. */
  ghost function Made(ws: seq<World>, steps: seq<Step>, n: nat): seq<Action>
    requires |ws| == |steps| + 1 && n <= |steps|
  {
    if n == 0 then [] else Made(ws, steps, n - 1) + MadeAt(ws, steps, n - 1)
  }

  function Agenda(toCome: nat): seq<Action> {
    if toCome == 0 then [] else if toCome == 1 then [ApplyAction] else [PlanAction, ApplyAction]
  }

  lemma OutsideCalm(ctx: Context, w: World, step: Step, base: set<RunName>)
    requires Inv(ctx, w) && CalmInv(ctx, w, base) && Calm(ctx, w, step, Outside(ctx, w, step))
    requires step.SeeCommit? || step.Tick?
    ensures var w' := Outside(ctx, w, step);
            CalmInv(ctx, w', base) && ToCome(ctx, w') == ToCome(ctx, w)
  {
    match step {
      case SeeCommit(rev, _) => SeeCommitCalm(ctx, w, rev, base);
      case Tick(s) => TickCalm(ctx, w, s, base);
    }
  }

  lemma CalmNext(ctx: Context, w: World, step: Step, w': World, base: set<RunName>)
    requires Inv(ctx, w) && CalmInv(ctx, w, base) && KeepLastRuns(ctx) >= 1 && Steady(w, w')
    requires Next(ctx, w, step, w') && Calm(ctx, w, step, w') && !step.LayerStep?
    ensures CalmInv(ctx, w', base) && (ToCome(ctx, w') == ToCome(ctx, w) || ToCome(ctx, w') == 0)
  {
    if step.RunStep? {
      if Reconciles(w, step.run, step.choice) {
        NextInv(ctx, w, step);
        RunStepCases(ctx, w, step.run, step.choice);
        RunStepCalm(ctx, w, w', step.run, step.choice, base);
      }
    } else if IsPodStep(step) {
      PodStepCalm(ctx, w, step, base);
    } else if IsRunnerStep(step) {
      RunnerStepCalm(ctx, w, step, base);
    } else {
      OutsideCalm(ctx, w, step, base);
    }
  }

  /** One step of a calm path makes the next run that is to come, or none. */
  lemma CalmStepAt(ctx: Context, ws: seq<World>, steps: seq<Step>, i: nat, base: set<RunName>)
    requires Path(ctx, ws, steps) && Inv(ctx, ws[0]) && KeepLastRuns(ctx) >= 1
    requires i < |steps| && Calm(ctx, ws[i], steps[i], ws[i + 1])
    requires Steady(ws[i], ws[i + 1]) && CalmInv(ctx, ws[i], base)
    ensures CalmInv(ctx, ws[i + 1], base)
    ensures var made, n, n' := MadeAt(ws, steps, i), ToCome(ctx, ws[i]), ToCome(ctx, ws[i + 1]);
            if made == [] then n' == n || n' == 0 else made == [NextAction(n)] && n > 0 && n' == n - 1
  {
    PathInv(ctx, ws, steps, i);
    assert NextAt(ctx, ws, steps, i);
    if steps[i].LayerStep? {
      LayerStepCalm(ctx, ws[i], steps[i].layer, base);
    } else {
      CalmNext(ctx, ws[i], steps[i], ws[i + 1], base);
    }
  }

  /** Nothing is requested, and the last run succeeded, if there is one. */
  predicate AtRest(w: World) {
    && !w.ann.syncNow && !w.ann.applyNow
    && (HasLast(w) ==> w.runs[LastRun(w)].status.state == Succeeded)
  }

  lemma CalmStart(ctx: Context, w: World)
    requires RunsOk(w) && AtRest(w) && PlanFollows(ctx, w)
    ensures CalmInv(ctx, w, w.runNames)
  {
    if HasLast(w) {
      assert RunOk(w, LastRun(w));
    }
  }

  /** What is made and what is still to come make up the agenda, or nothing more comes. */
  predicate OnAgenda(made: seq<Action>, toCome: nat, start: nat) {
    made <= Agenda(start) && (toCome == 0 || toCome == start - |made|)
  }

  lemma AgendaStep(made: seq<Action>, now: seq<Action>, n: nat, n': nat, start: nat)
    requires start <= 2 && OnAgenda(made, n, start)
    requires if now == [] then n' == n || n' == 0 else now == [NextAction(n)] && n > 0 && n' == n - 1
    ensures OnAgenda(made + now, n', start)
  {
    if now != [] {
      assert made + now == Agenda(start)[..|made| + 1];
    } else {
      assert made + now == made;
    }
  }

  /** Every step of the path is calm. */
  ghost predicate CalmPath(ctx: Context, ws: seq<World>, steps: seq<Step>) {
    Path(ctx, ws, steps) && forall i :: 0 <= i < |steps| ==> CalmAt(ctx, ws, steps, i)
  }

  ghost predicate CalmAt(ctx: Context, ws: seq<World>, steps: seq<Step>, i: nat) {
    i < |steps| && i + 1 < |ws| && Calm(ctx, ws[i], steps[i], ws[i + 1])
  }

  /** No step of the path gives up a run. */
  ghost predicate SteadyPath(ws: seq<World>) {
    forall i :: 0 <= i < |ws| - 1 ==> SteadyAt(ws, i)
  }

  ghost predicate SteadyAt(ws: seq<World>, i: nat) {
    i + 1 < |ws| && Steady(ws[i], ws[i + 1])
  }

  /** From a layer at rest whose plan follows the commits at most the runs of its agenda are made, each once and in
      order: a plan when the plan is stale, then the apply of what it found; and after that none. */
  lemma {:induction false} LayerConverges(ctx: Context, ws: seq<World>, steps: seq<Step>, n: nat)
    requires CalmPath(ctx, ws, steps) && SteadyPath(ws) && Inv(ctx, ws[0]) && KeepLastRuns(ctx) >= 1
    requires n <= |steps| && AtRest(ws[0]) && PlanFollows(ctx, ws[0])
    ensures CalmInv(ctx, ws[n], ws[0].runNames)
    ensures OnAgenda(Made(ws, steps, n), ToCome(ctx, ws[n]), ToCome(ctx, ws[0]))
  {
    if n == 0 {
      CalmStart(ctx, ws[0]);
    } else {
      LayerConverges(ctx, ws, steps, n - 1);
      assert CalmAt(ctx, ws, steps, n - 1) && SteadyAt(ws, n - 1);
      CalmStepAt(ctx, ws, steps, n - 1, ws[0].runNames);
      AgendaStep(Made(ws, steps, n - 1), MadeAt(ws, steps, n - 1),
                 ToCome(ctx, ws[n - 1]), ToCome(ctx, ws[n]), ToCome(ctx, ws[0]));
    }
  }

  // ---- calm paths that go on ----

  lemma {:induction false} MadePrefix(ws: seq<World>, steps: seq<Step>, ws': seq<World>, steps': seq<Step>, n: nat)
    requires |ws| == |steps| + 1 && |ws'| == |steps'| + 1 && ws <= ws' && steps <= steps' && n <= |steps|
    ensures Made(ws', steps', n) == Made(ws, steps, n)
  {
    if n > 0 {
      MadePrefix(ws, steps, ws', steps', n - 1);
    }
  }

  lemma CalmAppend(ctx: Context, ws: seq<World>, steps: seq<Step>, ws': seq<World>, steps': seq<Step>)
    requires CalmPath(ctx, ws, steps) && Path(ctx, ws', steps') && ws <= ws' && steps <= steps'
    requires |steps'| == |steps| + 1 && CalmAt(ctx, ws', steps', |steps|)
    ensures CalmPath(ctx, ws', steps')
  {
    forall i | 0 <= i < |steps'| ensures CalmAt(ctx, ws', steps', i) {
      if i < |steps| {
        assert CalmAt(ctx, ws, steps, i);
      }
    }
  }

  /** A calm path goes on with any calm step. */
  lemma CalmExtend(ctx: Context, ws: seq<World>, steps: seq<Step>, step: Step)
    returns (ws': seq<World>, steps': seq<Step>)
    requires CalmPath(ctx, ws, steps) && Fresh(ws[|steps|], step)
    requires Calm(ctx, ws[|steps|], step, Apply(ctx, ws[|steps|], step))
    ensures CalmPath(ctx, ws', steps') && ws'[|steps'|] == Apply(ctx, ws[|steps|], step)
    ensures ws <= ws' && steps' == steps + [step] && ws'[|steps|] == ws[|steps|] && ws'[0] == ws[0]
    ensures Made(ws', steps', |steps'|) ==
            Made(ws, steps, |steps|) + MadeBy(ws[|steps|], step, ws'[|steps'|])
  {
    ws', steps' := PathExtend(ctx, ws, steps, step);
    MadePrefix(ws, steps, ws', steps', |steps|);
    CalmAppend(ctx, ws, steps, ws', steps');
  }

  lemma SteadyExtend(ws: seq<World>, ws': seq<World>)
    requires SteadyPath(ws) && ws <= ws' && |ws'| == |ws| + 1 && |ws| > 0 && Steady(ws'[|ws| - 1], ws'[|ws|])
    ensures SteadyPath(ws')
  {
    forall i | 0 <= i < |ws'| - 1 ensures SteadyAt(ws', i) {
      if i < |ws| - 1 {
        assert SteadyAt(ws, i);
      }
    }
  }

  // ---- exactly when ----

  /** Where the plan does not follow, a commit that passes the layer by makes it stale. */
  lemma PassingCommitUnsettles(ctx: Context, w: World) returns (rev: string)
    requires Inv(ctx, w) && AtRest(w) && !PlanFollows(ctx, w)
    ensures Passes(w, rev, false)
    ensures var w' := w.(ann := Annotated(w.ann, w.now, rev, false));
            && ToCome(ctx, w) <= 1 && ToCome(ctx, w') == 2 && CalmInv(ctx, w', w.runNames)
            && w'.ann.relevantCommit.Some? && !LC.IsRunning(w')
            && Calm(ctx, w, SeeCommit(rev, false), w')
  {
    rev := FreshName({w.ann.planCommit.value} + (if w.ann.branchCommit.Some? then {w.ann.branchCommit.value} else {}));
    if HasLast(w) {
      assert RunOk(w, LastRun(w));
    }
  }

  /** A stale plan is made anew. */
  lemma StaleIsPlanned(ctx: Context, w: World, q: RunName, base: set<RunName>)
    requires Inv(ctx, w) && KeepLastRuns(ctx) >= 1 && CalmInv(ctx, w, base) && ToCome(ctx, w) == 2
    requires !LC.IsRunning(w) && w.ann.relevantCommit.Some? && q !in w.runNames
    ensures var w' := LC.ReconcileLayer(ctx, w, Offer(true, q));
            && MadeBy(w, LayerStep(Offer(true, q)), w') == [PlanAction] && ToCome(ctx, w') == 1
            && Steady(w, w') && Calm(ctx, w, LayerStep(Offer(true, q)), w')
  {
    LayerStepCalm(ctx, w, Offer(true, q), base);
    LayerStepEffect(ctx, w, Offer(true, q));
  }

  /** A plan is then made that was not on the agenda. */
  lemma Diverges(ctx: Context, w: World) returns (ws: seq<World>, steps: seq<Step>)
    requires Inv(ctx, w) && KeepLastRuns(ctx) >= 1 && AtRest(w) && !PlanFollows(ctx, w)
    ensures CalmPath(ctx, ws, steps) && SteadyPath(ws) && ws[0] == w
    ensures !OnAgenda(Made(ws, steps, |steps|), ToCome(ctx, ws[|steps|]), ToCome(ctx, w))
    ensures forall i :: 0 <= i < |steps| ==> steps[i].SeeCommit? || steps[i].LayerStep?
  {
    var rev := PassingCommitUnsettles(ctx, w);
    var w1 := Outside(ctx, w, SeeCommit(rev, false));
    var q := FreshName(w.runNames);
    OutsideStepInv(ctx, w, SeeCommit(rev, false));
    StaleIsPlanned(ctx, w1, q, w.runNames);
    ws, steps := CalmExtend(ctx, [w], [], SeeCommit(rev, false));
    SteadyExtend([w], ws);
    var ws1 := ws;
    ws, steps := CalmExtend(ctx, ws, steps, LayerStep(Offer(true, q)));
    SteadyExtend(ws1, ws);
  }

  /** Taking the branch back to the planned commit while another one is relevant has to be left out: it makes a plan
      that is to come unnecessary, and the plan follows no more. */
  lemma ReturnUnsettles(ctx: Context, w: World)
    requires Inv(ctx, w) && AtRest(w) && PlanFollows(ctx, w) && !LC.IsLastPlanTooOld(ctx, w)
    requires w.ann.planCommit.Some? && w.ann.relevantCommit.Some? && w.ann.planCommit != w.ann.relevantCommit
    ensures var w' := w.(ann := Annotated(w.ann, w.now, w.ann.planCommit.value, false));
            ToCome(ctx, w) == 2 && ToCome(ctx, w') <= 1 && AtRest(w') && !PlanFollows(ctx, w')
  {
  }

  /** A layer at rest keeps to its agenda along every calm path on which no run is given up exactly when its plan is of
      the relevant commit or a plan is still to come. */
  lemma ConvergesIff(ctx: Context, w: World)
    requires Inv(ctx, w) && KeepLastRuns(ctx) >= 1 && AtRest(w)
    ensures (forall ws, steps :: CalmPath(ctx, ws, steps) && SteadyPath(ws) && ws[0] == w ==>
               OnAgenda(Made(ws, steps, |steps|), ToCome(ctx, ws[|steps|]), ToCome(ctx, w)))
            <==> PlanFollows(ctx, w)
  {
    if PlanFollows(ctx, w) {
      forall ws, steps | CalmPath(ctx, ws, steps) && SteadyPath(ws) && ws[0] == w
        ensures OnAgenda(Made(ws, steps, |steps|), ToCome(ctx, ws[|steps|]), ToCome(ctx, w))
      {
        LayerConverges(ctx, ws, steps, |steps|);
      }
    } else {
      var ws, steps := Diverges(ctx, w);
    }
  }
}
