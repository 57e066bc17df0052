/** Runs that are given up: when none is, what becomes of a layer's agenda when one is, and when a layer that gave up
    stays as it is. */
module Exhaustion {
  import opened Resources
  import RC = RunController
  import LC = LayerController
  import opened Protocol
  import opened Invariant
  import opened Continuations
  import opened Convergence
  import opened Overtaken

  // ---- when no run is given up ----

  /** The step takes no pod from a run in progress. */
  predicate KeepsPods(w: World, step: Step) {
    step.FailPod? || step.VanishPod? ==>
      !(step.pod in w.pods && w.pods[step.pod].run in w.runs && !Terminal(w.runs[w.pods[step.pod].run].status.state))
  }

  /** A new run of a layer without retries gets its pod at once. */
  ghost predicate ServesNew(ctx: Context, w: World, step: Step) {
    step.RunStep? && MaxRetries(ctx) < 1 && Reconciles(w, step.run, step.choice)
    && w.runs[step.run].status.state == NoStatus ==>
      MakesPod(Initial, step.choice)
  }

  /** Every run in progress has its pod, or is still to get its first one. */
  ghost predicate PodsWell(ctx: Context, w: World) {
    forall r :: r in w.runs && !Terminal(w.runs[r].status.state) ==>
      var st := w.runs[r].status;
      if st.runnerPod.Some? then st.runnerPod.value in w.pods && w.pods[st.runnerPod.value].phase != PodFailed
      else MaxRetries(ctx) >= 1 || st.state == NoStatus
  }

  lemma WellRunStep(ctx: Context, w: World, w': World, r: RunName, ch: RC.RunChoice)
    requires RunsOk(w) && PodsOk(w) && PodsWell(ctx, w) && ServesNew(ctx, w, RunStep(r, ch))
    requires Reconciles(w, r, ch) && RunEffect(ctx, w, w', r, ch)
    ensures PodsWell(ctx, w') && Steady(w, w')
  {
    forall q | q in w.runs && !Terminal(w.runs[q].status.state) ensures q == r {
      assert RunOk(w, q) && RunOk(w, r);
    }
    assert Decided(ctx, w, r) != Failed && (Decided(ctx, w, r) == Initial <==> w.runs[r].status.state == NoStatus);
  }

  lemma WellLayerStep(ctx: Context, w: World, w': World, ch: LC.LayerChoice)
    requires PodsWell(ctx, w) && LayerEffect(ctx, w, w', ch)
    ensures PodsWell(ctx, w') && Steady(w, w')
  {
  }

  lemma WellPodStep(ctx: Context, w: World, step: Step)
    requires PodsOk(w) && PodsWell(ctx, w) && IsPodStep(step) && KeepsPods(w, step)
    ensures PodsWell(ctx, PodLife(w, step)) && Steady(w, PodLife(w, step))
  {
  }

  lemma WellNext(ctx: Context, w: World, step: Step, w': World)
    requires Inv(ctx, w) && PodsWell(ctx, w) && Next(ctx, w, step, w')
    requires KeepsPods(w, step) && ServesNew(ctx, w, step)
    ensures PodsWell(ctx, w') && Steady(w, w')
  {
    NextEffect(ctx, w, step);
    if step.LayerStep? {
      WellLayerStep(ctx, w, w', step.layer);
    } else if step.RunStep? {
      if Reconciles(w, step.run, step.choice) {
        WellRunStep(ctx, w, w', step.run, step.choice);
      }
    } else if IsPodStep(step) {
      WellPodStep(ctx, w, step);
    }
  }

  ghost predicate ServedAt(ctx: Context, ws: seq<World>, steps: seq<Step>, i: nat) {
    i < |steps| && i < |ws| && KeepsPods(ws[i], steps[i]) && ServesNew(ctx, ws[i], steps[i])
  }

  lemma ServedStepAt(ctx: Context, ws: seq<World>, steps: seq<Step>, i: nat)
    requires Path(ctx, ws, steps) && Inv(ctx, ws[0]) && KeepLastRuns(ctx) >= 1 && i < |steps|
    requires PodsWell(ctx, ws[i]) && ServedAt(ctx, ws, steps, i)
    ensures PodsWell(ctx, ws[i + 1]) && Steady(ws[i], ws[i + 1])
  {
    PathInv(ctx, ws, steps, i);
    assert NextAt(ctx, ws, steps, i);
    WellNext(ctx, ws[i], steps[i], ws[i + 1]);
  }

  /** While no run in progress loses a pod, and new runs without retries are served at once, no run is given up. */
  lemma {:induction false} ServedIsSteady(ctx: Context, ws: seq<World>, steps: seq<Step>, n: nat)
    requires Path(ctx, ws, steps) && Inv(ctx, ws[0]) && KeepLastRuns(ctx) >= 1 && PodsWell(ctx, ws[0]) && n <= |steps|
    requires forall i :: 0 <= i < n ==> ServedAt(ctx, ws, steps, i)
    ensures PodsWell(ctx, ws[n]) && SteadyPath(ws[..n + 1])
  {
    if n > 0 {
      var i := n - 1;
      ServedIsSteady(ctx, ws, steps, i);
      ServedStepAt(ctx, ws, steps, i);
      SteadyExtend(ws[..n], ws[..n + 1]);
    }
  }

  // ---- a run that is given up ----

  lemma {:induction false} MadeNothing(ctx: Context, ws: seq<World>, steps: seq<Step>, m: nat, n: nat)
    requires |ws| == |steps| + 1 && m <= n <= |steps| && OnlyRuns(ctx, ws, steps, m)
    ensures Made(ws, steps, n) == Made(ws, steps, m)
  {
    if m < n {
      MadeNothing(ctx, ws, steps, m, n - 1);
      assert RunsAt(ctx, ws, steps, n - 1);
    }
  }

  /** Runs that come to nothing leave a path calm. */
  lemma CalmRuns(ctx: Context, ws: seq<World>, steps: seq<Step>, ws': seq<World>, steps': seq<Step>)
    requires CalmPath(ctx, ws, steps) && Path(ctx, ws', steps') && ws <= ws' && steps <= steps'
    requires OnlyRuns(ctx, ws', steps', |steps|)
    ensures CalmPath(ctx, ws', steps') && Made(ws', steps', |steps'|) == Made(ws, steps, |steps|)
  {
    forall i | 0 <= i < |steps'| ensures CalmAt(ctx, ws', steps', i) {
      if i < |steps| {
        assert CalmAt(ctx, ws, steps, i);
      } else {
        assert RunsAt(ctx, ws', steps', i);
      }
    }
    MadeNothing(ctx, ws', steps', |steps|, |steps'|);
    MadePrefix(ws, steps, ws', steps', |steps|);
  }

  /** With no retries, nothing from step n on is the loss of a pod. */
  ghost predicate LosesNoPod(ctx: Context, steps: seq<Step>, n: nat) {
    MaxRetries(ctx) < 1 ==> forall k :: n <= k < |steps| ==> !steps[k].FailPod? && !steps[k].VanishPod?
  }

  /** A run the layer is about to make. */
  predicate Due(ctx: Context, w: World, action: Action) {
    && w.ann.relevantCommit.Some?
    && if action == PlanAction then LC.GetState(ctx, w) == PlanNeeded
       else LC.GetState(ctx, w) == ApplyNeeded(false) && AutoApplyEnabled(ctx)
  }

  /** The run that is due can be made and given up; for that the API server need only refuse a lease when there are no
      retries. */
  lemma DueFails(ctx: Context, ws: seq<World>, steps: seq<Step>, action: Action)
    returns (ws': seq<World>, steps': seq<Step>, q: RunName)
    requires CalmPath(ctx, ws, steps) && Inv(ctx, ws[0]) && KeepLastRuns(ctx) >= 1 && Due(ctx, ws[|steps|], action)
    requires !ws[|steps|].ann.syncNow && !ws[|steps|].ann.applyNow
    ensures CalmPath(ctx, ws', steps') && ws <= ws' && steps <= steps' && LosesNoPod(ctx, steps', |steps|)
    ensures Made(ws', steps', |steps'|) == Made(ws, steps, |steps|) + [action]
    ensures var w, w' := ws[|steps|], ws'[|steps'|];
            && w'.ann == w.ann && w'.now == w.now && IsLast(w', q) && GivenUp(ctx, w', q)
            && w'.runs[q].action == action && Some(w'.runs[q].revision) == w.ann.relevantCommit
  {
    ws', steps', q := DueIsMade(ctx, ws, steps, action);
    var ws1, steps1 := ws', steps';
    ws', steps' := ComesToNothing(ctx, ws1, steps1, q);
    CalmRuns(ctx, ws1, steps1, ws', steps');
    forall k | |steps| <= k < |steps'| && MaxRetries(ctx) < 1 ensures !steps'[k].FailPod? && !steps'[k].VanishPod? {
      if k > |steps| {
        assert RunsAt(ctx, ws', steps', k);
      } else {
        assert steps'[k] == steps1[k];
      }
    }
  }

  lemma DueIsMade(ctx: Context, ws: seq<World>, steps: seq<Step>, action: Action)
    returns (ws': seq<World>, steps': seq<Step>, q: RunName)
    requires CalmPath(ctx, ws, steps) && Inv(ctx, ws[0]) && KeepLastRuns(ctx) >= 1 && Due(ctx, ws[|steps|], action)
    requires !ws[|steps|].ann.syncNow && !ws[|steps|].ann.applyNow
    ensures CalmPath(ctx, ws', steps') && ws <= ws' && steps' == steps + [LayerStep(Offer(true, q))]
    ensures Made(ws', steps', |steps'|) == Made(ws, steps, |steps|) + [action]
    ensures var w, w' := ws[|steps|], ws'[|steps'|];
            && w'.ann == w.ann && w'.now == w.now && IsLast(w', q) && Podless(w', q)
            && w'.runs[q].action == action && Some(w'.runs[q].revision) == w.ann.relevantCommit
  {
    if action == PlanAction {
      ws', steps', q := PlanIsMade(ctx, ws, steps);
    } else {
      ws', steps', q := ApplyIsMade(ctx, ws, steps);
    }
    CalmMade(ctx, ws, steps, ws', steps', q);
  }

  lemma CalmMade(ctx: Context, ws: seq<World>, steps: seq<Step>, ws': seq<World>, steps': seq<Step>, q: RunName)
    requires CalmPath(ctx, ws, steps) && Path(ctx, ws', steps') && ws <= ws'
    requires steps' == steps + [LayerStep(Offer(true, q))]
    requires var w, w' := ws[|steps|], ws'[|steps'|]; q in w'.runs && IsMade(w, w', q, w'.runs[q])
    ensures CalmPath(ctx, ws', steps')
    ensures Made(ws', steps', |steps'|) == Made(ws, steps, |steps|) + [ws'[|steps'|].runs[q].action]
  {
    MadePrefix(ws, steps, ws', steps', |steps|);
    assert CalmAt(ctx, ws', steps', |steps|);
    CalmAppend(ctx, ws, steps, ws', steps');
  }

  // ---- plan and apply in turns ----

  function Other(action: Action): Action {
    if action == PlanAction then ApplyAction else PlanAction
  }

  function Alternating(first: Action, n: nat): seq<Action>
    decreases n
  {
    if n == 0 then [] else [first] + Alternating(Other(first), n - 1)
  }

  /** The plan is stale and not applied either; a plan is next, or an apply once the plan was given up. */
  predicate Behind(ctx: Context, w: World, next: Action) {
    && !LC.IsRunning(w) && !w.ann.syncNow && !w.ann.applyNow && w.ann.relevantCommit.Some?
    && LC.PlanIsStale(ctx, w) && !LC.IsApplyUpToDate(w)
    && (next == ApplyAction <==> LC.HasLastRunReachedRetryLimit(ctx, w, PlanAction))
  }

  lemma BehindFails(ctx: Context, ws: seq<World>, steps: seq<Step>, next: Action)
    returns (ws': seq<World>, steps': seq<Step>)
    requires CalmPath(ctx, ws, steps) && Inv(ctx, ws[0]) && KeepLastRuns(ctx) >= 1 && AutoApplyEnabled(ctx)
    requires Behind(ctx, ws[|steps|], next)
    ensures CalmPath(ctx, ws', steps') && ws <= ws' && steps <= steps' && LosesNoPod(ctx, steps', |steps|)
    ensures Made(ws', steps', |steps'|) == Made(ws, steps, |steps|) + [next]
    ensures Behind(ctx, ws'[|steps'|], Other(next))
  {
    var q;
    ws', steps', q := DueFails(ctx, ws, steps, next);
  }

  /** A layer that is behind and whose runs all fail is planned and applied in turns without end: giving up one action
      lifts the other's limit. */
  lemma {:induction false} Alternates(ctx: Context, ws: seq<World>, steps: seq<Step>, next: Action, n: nat)
    returns (ws': seq<World>, steps': seq<Step>)
    requires CalmPath(ctx, ws, steps) && Inv(ctx, ws[0]) && KeepLastRuns(ctx) >= 1 && AutoApplyEnabled(ctx)
    requires Behind(ctx, ws[|steps|], next)
    ensures CalmPath(ctx, ws', steps') && ws <= ws' && steps <= steps' && LosesNoPod(ctx, steps', |steps|)
    ensures Made(ws', steps', |steps'|) == Made(ws, steps, |steps|) + Alternating(next, n)
    decreases n
  {
    ws', steps' := ws, steps;
    if n > 0 {
      ws', steps' := BehindFails(ctx, ws, steps, next);
      var steps1 := steps';
      ws', steps' := Alternates(ctx, ws', steps', Other(next), n - 1);
      assert forall k :: |steps| <= k < |steps1| ==> steps'[k] == steps1[k];
    }
  }

  /** Such a layer is reachable: a commit has come and the plan before it was not applied. */
  lemma BehindIsReachable(ctx: Context, plan: Bytes) returns (ws: seq<World>, steps: seq<Step>)
    requires KeepLastRuns(ctx) >= 1 && ctx.settings.driftDetection > 0 && ctx.settings.digest(plan) != ""
    ensures Execution(ctx, ws, steps) && Behind(ctx, ws[|steps|], PlanAction)
  {
    var a;
    ws, steps, a := OvertakenIsReachable(ctx, plan);
    ReachedInv(ctx, ws, steps);
    var ann := ws[|steps|].ann;
    var b := FreshName({a} + (if ann.branchCommit.Some? then {ann.branchCommit.value} else {}));
    ws, steps := PathExtend(ctx, ws, steps, SeeCommit(b, true));
  }

  // ---- the agenda when runs may be given up ----

  /** The layer has a run to make that it may make. */
  ghost predicate CanMake(ctx: Context, w: World) {
    && !LC.IsRunning(w) && w.ann.relevantCommit.Some?
    && (ToCome(ctx, w) == 2 || (ToCome(ctx, w) == 1 && AutoApplyEnabled(ctx)))
  }

  /** Where the layer can make a run, its being given up leaves the same run to come once more. */
  lemma GivingUpUnsettles(ctx: Context, w: World) returns (ws: seq<World>, steps: seq<Step>)
    requires Inv(ctx, w) && KeepLastRuns(ctx) >= 1 && AtRest(w) && CanMake(ctx, w)
    ensures CalmPath(ctx, ws, steps) && ws[0] == w && LosesNoPod(ctx, steps, 0)
    ensures Made(ws, steps, |steps|) == [NextAction(ToCome(ctx, w))] && ToCome(ctx, ws[|steps|]) == ToCome(ctx, w)
    ensures !OnAgenda(Made(ws, steps, |steps|), ToCome(ctx, ws[|steps|]), ToCome(ctx, w))
  {
    var q;
    ws, steps, q := DueFails(ctx, [w], [], NextAction(ToCome(ctx, w)));
  }

  /** A layer that can make no run makes none. */
  lemma IdleStep(ctx: Context, w: World, step: Step, w': World, base: set<RunName>)
    requires Inv(ctx, w) && CalmInv(ctx, w, base) && KeepLastRuns(ctx) >= 1 && !LC.IsRunning(w) && !CanMake(ctx, w)
    requires Next(ctx, w, step, w') && Calm(ctx, w, step, w')
    ensures Steady(w, w') && CalmInv(ctx, w', base) && !LC.IsRunning(w') && !CanMake(ctx, w')
  {
    if step.LayerStep? {
      LayerStepCalm(ctx, w, step.layer, base);
      IdleLayerStep(ctx, w, step.layer);
    } else {
      if !step.SeeCommit? {
        IdleNext(ctx, w, step, w');
      }
      CalmNext(ctx, w, step, w', base);
    }
  }

  lemma IdleLayerStep(ctx: Context, w: World, ch: LC.LayerChoice)
    requires Inv(ctx, w) && KeepLastRuns(ctx) >= 1 && ch.run !in w.runNames
    requires LC.ReconcileLayer(ctx, w, ch).runNames == w.runNames && !LC.IsRunning(w)
    ensures !LC.IsRunning(LC.ReconcileLayer(ctx, w, ch))
    ensures LC.ReconcileLayer(ctx, w, ch).ann.relevantCommit == w.ann.relevantCommit
    ensures Steady(w, LC.ReconcileLayer(ctx, w, ch))
  {
    LayerStepEffect(ctx, w, ch);
  }

  lemma IdleStepAt(ctx: Context, ws: seq<World>, steps: seq<Step>, i: nat, base: set<RunName>)
    requires CalmPath(ctx, ws, steps) && Inv(ctx, ws[0]) && KeepLastRuns(ctx) >= 1 && i < |steps|
    requires CalmInv(ctx, ws[i], base) && !LC.IsRunning(ws[i]) && !CanMake(ctx, ws[i])
    ensures CalmInv(ctx, ws[i + 1], base) && !LC.IsRunning(ws[i + 1]) && !CanMake(ctx, ws[i + 1])
    ensures Steady(ws[i], ws[i + 1])
  {
    PathInv(ctx, ws, steps, i);
    assert NextAt(ctx, ws, steps, i) && CalmAt(ctx, ws, steps, i);
    IdleStep(ctx, ws[i], steps[i], ws[i + 1], base);
  }

  lemma {:induction false} IdleIsSteady(ctx: Context, ws: seq<World>, steps: seq<Step>, n: nat)
    requires CalmPath(ctx, ws, steps) && Inv(ctx, ws[0]) && KeepLastRuns(ctx) >= 1 && n <= |steps|
    requires AtRest(ws[0]) && PlanFollows(ctx, ws[0]) && !CanMake(ctx, ws[0])
    ensures CalmInv(ctx, ws[n], ws[0].runNames) && !LC.IsRunning(ws[n]) && !CanMake(ctx, ws[n])
    ensures SteadyPath(ws[..n + 1])
  {
    if n == 0 {
      CalmStart(ctx, ws[0]);
    } else {
      var i := n - 1;
      IdleIsSteady(ctx, ws, steps, i);
      IdleStepAt(ctx, ws, steps, i, ws[0].runNames);
      SteadyExtend(ws[..n], ws[..n + 1]);
    }
  }

  ghost predicate KeptAt(ws: seq<World>, steps: seq<Step>, i: nat) {
    i < |steps| && i < |ws| && KeepsPods(ws[i], steps[i])
  }

  /** No run in progress loses a pod. */
  ghost predicate KeptPath(ws: seq<World>, steps: seq<Step>) {
    forall i :: 0 <= i < |steps| ==> KeptAt(ws, steps, i)
  }

  /** While no run in progress loses a pod, a layer at rest keeps to its agenda along every calm path exactly when its
      plan follows the commits and a run may be retried, or there is none that it can make. */
  lemma KeptConvergesIff(ctx: Context, w: World)
    requires Inv(ctx, w) && KeepLastRuns(ctx) >= 1 && AtRest(w)
    ensures (forall ws, steps :: CalmPath(ctx, ws, steps) && KeptPath(ws, steps) && ws[0] == w ==>
               OnAgenda(Made(ws, steps, |steps|), ToCome(ctx, ws[|steps|]), ToCome(ctx, w)))
            <==> PlanFollows(ctx, w) && (MaxRetries(ctx) >= 1 || !CanMake(ctx, w))
  {
    if !PlanFollows(ctx, w) {
      var ws, steps := Diverges(ctx, w);
      assert forall i :: 0 <= i < |steps| ==> KeptAt(ws, steps, i);
    } else if MaxRetries(ctx) < 1 && CanMake(ctx, w) {
      var ws, steps := GivingUpUnsettles(ctx, w);
      assert forall i :: 0 <= i < |steps| ==> KeptAt(ws, steps, i);
    } else {
      forall ws, steps | CalmPath(ctx, ws, steps) && KeptPath(ws, steps) && ws[0] == w
        ensures OnAgenda(Made(ws, steps, |steps|), ToCome(ctx, ws[|steps|]), ToCome(ctx, w))
      {
        KeptConverges(ctx, ws, steps);
      }
    }
  }

  lemma KeptConverges(ctx: Context, ws: seq<World>, steps: seq<Step>)
    requires CalmPath(ctx, ws, steps) && KeptPath(ws, steps) && Inv(ctx, ws[0]) && KeepLastRuns(ctx) >= 1
    requires AtRest(ws[0]) && PlanFollows(ctx, ws[0]) && (MaxRetries(ctx) >= 1 || !CanMake(ctx, ws[0]))
    ensures OnAgenda(Made(ws, steps, |steps|), ToCome(ctx, ws[|steps|]), ToCome(ctx, ws[0]))
  {
    if MaxRetries(ctx) >= 1 {
      forall i | 0 <= i < |steps| ensures ServedAt(ctx, ws, steps, i) {
        assert KeptAt(ws, steps, i);
      }
      RestIsWell(ctx, ws[0]);
      ServedIsSteady(ctx, ws, steps, |steps|);
    } else {
      IdleIsSteady(ctx, ws, steps, |steps|);
    }
    assert ws[..|steps| + 1] == ws;
    LayerConverges(ctx, ws, steps, |steps|);
  }

  lemma RestIsWell(ctx: Context, w: World)
    requires Inv(ctx, w) && AtRest(w)
    ensures PodsWell(ctx, w)
  {
    IdleMeansDone(ctx, w);
  }

  // ---- a layer that gave up ----

  /** The last run failed at its limit on the relevant commit, and nobody asks for anything. */
  predicate GaveUp(ctx: Context, w: World, action: Action) {
    && !w.ann.syncNow && !w.ann.applyNow && w.ann.relevantCommit.Some?
    && w.status.lastRun.Some? && w.status.lastRun.value.name in w.runs
    && var run := w.runs[w.status.lastRun.value.name];
    && run.action == action && run.status.state == Failed && run.status.retries >= MaxRetries(ctx)
    && w.ann.relevantCommit.value in {"", run.revision}
  }

  /** Such a layer is shown as having reached its limit exactly when, after a plan, nothing is to be applied, or after
      an apply, nothing is to be planned. */
  lemma ShownGivenUpIff(ctx: Context, w: World, action: Action, ch: LC.LayerChoice)
    requires Inv(ctx, w) && KeepLastRuns(ctx) >= 1 && GaveUp(ctx, w, action) && !ch.locked
    ensures LC.ReconcileLayer(ctx, w, ch).status.state == MaxRetriesReached <==>
              if action == PlanAction then LC.IsApplyUpToDate(w) else !LC.PlanIsStale(ctx, w)
  {
  }

  /** No request and no relevant commit; and after an apply, no plan that grows too old. */
  predicate Undisturbed(ctx: Context, action: Action, w: World, step: Step, w': World) {
    && !step.RequestSync? && !step.RequestApply?
    && (step.SeeCommit? ==> !step.relevant)
    && (action == ApplyAction && LC.IsLastPlanTooOld(ctx, w') ==> LC.IsLastPlanTooOld(ctx, w))
  }

  ghost predicate UndisturbedAt(ctx: Context, action: Action, ws: seq<World>, steps: seq<Step>, i: nat) {
    i < |steps| && i + 1 < |ws| && Undisturbed(ctx, action, ws[i], steps[i], ws[i + 1])
  }

  ghost predicate UndisturbedPath(ctx: Context, action: Action, ws: seq<World>, steps: seq<Step>) {
    Path(ctx, ws, steps) && forall i :: 0 <= i < |steps| ==> UndisturbedAt(ctx, action, ws, steps, i)
  }

  /** What keeps the other action from being tried. */
  predicate NothingElse(ctx: Context, w: World, action: Action) {
    if action == PlanAction then LC.IsApplyUpToDate(w) || !AutoApplyEnabled(ctx)
    else !LC.PlanIsStale(ctx, w) && w.ann.planCommit == w.ann.relevantCommit
  }

  lemma GaveUpStep(ctx: Context, action: Action, w: World, step: Step, w': World)
    requires Inv(ctx, w) && KeepLastRuns(ctx) >= 1 && GaveUp(ctx, w, action) && NothingElse(ctx, w, action)
    requires Next(ctx, w, step, w') && Undisturbed(ctx, action, w, step, w')
    ensures GaveUp(ctx, w', action) && NothingElse(ctx, w', action) && MadeBy(w, step, w') == []
  {
    if step.LayerStep? {
      GaveUpLayerStep(ctx, action, w, step.layer);
    } else if !step.SeeCommit? {
      IdleNext(ctx, w, step, w');
    }
  }

  lemma GaveUpLayerStep(ctx: Context, action: Action, w: World, ch: LC.LayerChoice)
    requires HistoryOk(ctx, w) && GaveUp(ctx, w, action) && NothingElse(ctx, w, action)
    ensures var w' := LC.ReconcileLayer(ctx, w, ch);
            GaveUp(ctx, w', action) && NothingElse(ctx, w', action) && w'.runNames == w.runNames
  {
    if !ch.locked {
      assert LC.Decide(ctx, w, LC.GetState(ctx, w), ch) == LC.NoRun;
      CleanupDeletes(ctx, LC.Shown(w, LC.GetState(ctx, w), ch), ch.undeleted);
    }
  }

  lemma GaveUpStepAt(ctx: Context, action: Action, ws: seq<World>, steps: seq<Step>, i: nat)
    requires UndisturbedPath(ctx, action, ws, steps) && Inv(ctx, ws[0]) && KeepLastRuns(ctx) >= 1 && i < |steps|
    requires GaveUp(ctx, ws[i], action) && NothingElse(ctx, ws[i], action)
    ensures GaveUp(ctx, ws[i + 1], action) && NothingElse(ctx, ws[i + 1], action) && MadeAt(ws, steps, i) == []
  {
    PathInv(ctx, ws, steps, i);
    assert NextAt(ctx, ws, steps, i) && UndisturbedAt(ctx, action, ws, steps, i);
    GaveUpStep(ctx, action, ws[i], steps[i], ws[i + 1]);
  }

  lemma {:induction false} StaysGivenUp(ctx: Context, action: Action, ws: seq<World>, steps: seq<Step>, n: nat)
    requires UndisturbedPath(ctx, action, ws, steps) && Inv(ctx, ws[0]) && KeepLastRuns(ctx) >= 1 && n <= |steps|
    requires GaveUp(ctx, ws[0], action) && NothingElse(ctx, ws[0], action)
    ensures GaveUp(ctx, ws[n], action) && NothingElse(ctx, ws[n], action) && Made(ws, steps, n) == []
  {
    if n > 0 {
      var i := n - 1;
      StaysGivenUp(ctx, action, ws, steps, i);
      GaveUpStepAt(ctx, action, ws, steps, i);
    }
  }

  /** Otherwise the other action is tried, after an irrelevant commit at the latest. */
  lemma TriesAgain(ctx: Context, action: Action, w: World) returns (ws: seq<World>, steps: seq<Step>)
    requires Inv(ctx, w) && KeepLastRuns(ctx) >= 1 && GaveUp(ctx, w, action) && !NothingElse(ctx, w, action)
    ensures UndisturbedPath(ctx, action, ws, steps) && ws[0] == w && Made(ws, steps, |steps|) == [Other(action)]
  {
    ws, steps := [w], [];
    if action == ApplyAction && !LC.PlanIsStale(ctx, w) {
      var names := {w.ann.planCommit.value} + (if w.ann.branchCommit.Some? then {w.ann.branchCommit.value} else {});
      var rev := FreshName(names);
      ws, steps := PathExtend(ctx, ws, steps, SeeCommit(rev, false));
      assert UndisturbedAt(ctx, action, ws, steps, 0);
    }
    ws, steps := OtherIsTried(ctx, action, ws, steps);
  }

  lemma UndisturbedAppend(
    ctx: Context, action: Action, ws: seq<World>, steps: seq<Step>, ws': seq<World>, steps': seq<Step>)
    requires UndisturbedPath(ctx, action, ws, steps) && Path(ctx, ws', steps') && ws <= ws' && steps <= steps'
    requires |steps'| == |steps| + 1 && UndisturbedAt(ctx, action, ws', steps', |steps|)
    ensures UndisturbedPath(ctx, action, ws', steps')
  {
    forall i | 0 <= i < |steps'| ensures UndisturbedAt(ctx, action, ws', steps', i) {
      if i < |steps| {
        assert UndisturbedAt(ctx, action, ws, steps, i);
      }
    }
  }

  lemma OtherIsTried(ctx: Context, action: Action, ws: seq<World>, steps: seq<Step>)
    returns (ws': seq<World>, steps': seq<Step>)
    requires UndisturbedPath(ctx, action, ws, steps) && Inv(ctx, ws[0]) && KeepLastRuns(ctx) >= 1
    requires GaveUp(ctx, ws[|steps|], action) && Made(ws, steps, |steps|) == []
    requires var w := ws[|steps|];
             if action == PlanAction then !LC.IsApplyUpToDate(w) && AutoApplyEnabled(ctx) else LC.PlanIsStale(ctx, w)
    ensures UndisturbedPath(ctx, action, ws', steps') && ws'[0] == ws[0]
    ensures Made(ws', steps', |steps'|) == [Other(action)]
  {
    var q;
    if action == ApplyAction {
      ws', steps', q := PlanIsMade(ctx, ws, steps);
    } else {
      ws', steps', q := ApplyIsMade(ctx, ws, steps);
    }
    MadePrefix(ws, steps, ws', steps', |steps|);
    UndisturbedAppend(ctx, action, ws, steps, ws', steps');
  }

  /** A layer that gave up makes no run, until a request or a relevant commit, exactly when nothing else is left to try:
      after a plan, no apply that it may make; after an apply, a fresh plan of the relevant commit. */
  lemma StaysGivenUpIff(ctx: Context, action: Action, w: World)
    requires Inv(ctx, w) && KeepLastRuns(ctx) >= 1 && GaveUp(ctx, w, action)
    ensures (forall ws, steps :: UndisturbedPath(ctx, action, ws, steps) && ws[0] == w ==>
               Made(ws, steps, |steps|) == [])
            <==> NothingElse(ctx, w, action)
  {
    if NothingElse(ctx, w, action) {
      forall ws, steps | UndisturbedPath(ctx, action, ws, steps) && ws[0] == w ensures Made(ws, steps, |steps|) == [] {
        StaysGivenUp(ctx, action, ws, steps, |steps|);
      }
    } else {
      var ws, steps := TriesAgain(ctx, action, w);
    }
  }
}
