/** What the two final states of a run mean: a run fails only with its retries used up, and a plan run that succeeded
    has left its plan where it is looked for. */
module Outcomes {
  import opened Resources
  import RC = RunController
  import LC = LayerController
  import opened Protocol
  import opened Invariant

  /** A run is given up exactly when it has begun, its pod neither succeeded nor is at work, and the limit is reached;
      its grace period plays no part. */
  lemma GivesUpIff(ctx: Context, st: RunStatus, phase: PodPhase, now: int)
    ensures RC.GetState(ctx, st, phase, now) == Failed <==>
              && st.state != NoStatus && phase != PodSucceeded && !AtWork(st, phase)
              && st.retries >= MaxRetries(ctx)
  {
  }

  /** The run waits for a pod that is pending or running. */
  predicate AtWork(st: RunStatus, phase: PodPhase) {
    st.state in {Initial, Retrying, Running} && phase in {PodPending, PodRunning}
  }

  /** The other states, each by what it means: a begun run is over once its pod has succeeded, is left alone while its
      pod is at work, waits while its failed pod's backoff lasts, and is retried otherwise, while retries last. */
  lemma StatesMean(ctx: Context, st: RunStatus, phase: PodPhase, now: int)
    ensures var state := RC.GetState(ctx, st, phase, now);
            var failing := st.state != NoStatus && phase != PodSucceeded && !AtWork(st, phase);
            var waits :=
              phase == PodFailed && st.lastRun.At? && now < st.lastRun.time + ctx.settings.backoff(st.retries);
            && (state == Initial <==> st.state == NoStatus)
            && (state == Succeeded <==> st.state != NoStatus && phase == PodSucceeded)
            && (state == Running <==> st.state != NoStatus && AtWork(st, phase))
            && (state == FailureGracePeriod <==> failing && st.retries < MaxRetries(ctx) && waits)
            && (state == Retrying <==> failing && st.retries < MaxRetries(ctx) && !waits)
  {
  }

  /** The plan a plan run's pod has stored or published is in the datastore, under the pod's attempt. */
  ghost predicate PodStored(w: World, p: PodName)
    requires p in w.pods
  {
    var pod := w.pods[p];
    (pod.progress.Stored? || pod.progress == Published) && pod.run in w.runs && w.runs[pod.run].action == PlanAction ==>
      Coord(pod.run, pod.attempt) in w.plans
  }

  ghost predicate RunSettled(ctx: Context, w: World, r: RunName)
    requires r in w.runs
  {
    var run := w.runs[r];
    && (run.status.runnerPod.Some? && run.status.runnerPod.value in w.pods ==>
          w.pods[run.status.runnerPod.value].attempt == run.status.retries)
    && (run.status.state == Failed ==> run.status.retries >= MaxRetries(ctx))
    && (run.status.state == Succeeded && run.action == PlanAction ==> Coord(r, run.status.retries) in w.plans)
  }

  ghost predicate Settled(ctx: Context, w: World) {
    && (forall p :: p in w.pods ==> PodStored(w, p))
    && (forall r :: r in w.runs ==> RunSettled(ctx, w, r))
  }

  lemma SettledRun(ctx: Context, w: World, w': World, q: RunName, ch: RC.RunChoice, r: RunName)
    requires RunsOk(w) && PodsOk(w) && Settled(ctx, w) && ch.pod !in w.podNames && r in w.runs
    requires Reconciles(w, q, ch) && RunEffect(ctx, w, w', q, ch)
    ensures r in w'.runs && RunSettled(ctx, w', r)
  {
  }

  lemma SettledRunStep(ctx: Context, w: World, w': World, q: RunName, ch: RC.RunChoice)
    requires RunsOk(w) && PodsOk(w) && Settled(ctx, w) && ch.pod !in w.podNames
    requires Reconciles(w, q, ch) && RunEffect(ctx, w, w', q, ch)
    ensures Settled(ctx, w')
  {
    forall r | r in w'.runs ensures RunSettled(ctx, w', r) {
      SettledRun(ctx, w, w', q, ch, r);
    }
    forall p | p in w'.pods ensures PodStored(w', p) {
      assert p in w.pods ==> PodStored(w, p);
    }
  }

  lemma SettledLayerStep(ctx: Context, w: World, w': World, ch: LC.LayerChoice)
    requires PodsOk(w) && Settled(ctx, w) && ch.run !in w.runNames && LayerEffect(ctx, w, w', ch)
    ensures Settled(ctx, w')
  {
  }

  lemma SettledStorePlan(ctx: Context, w: World, p: PodName, plan: Bytes)
    requires Inv(ctx, w) && Settled(ctx, w) && Works(w, p)
    ensures Settled(ctx, RunnerDoes(ctx, w, StorePlan(p, plan)))
  {
  }

  lemma SettledApplyPlan(ctx: Context, w: World, p: PodName)
    requires Settled(ctx, w) && Works(w, p)
    ensures Settled(ctx, RunnerDoes(ctx, w, ApplyPlan(p)))
  {
  }

  lemma SettledPublish(ctx: Context, w: World, p: PodName)
    requires PodsOk(w) && Settled(ctx, w) && Works(w, p)
    ensures Settled(ctx, PublishResult(ctx, w, p))
  {
  }

  lemma SettledRunnerStep(ctx: Context, w: World, step: Step)
    requires Inv(ctx, w) && Settled(ctx, w) && IsRunnerStep(step)
    ensures Settled(ctx, RunnerDoes(ctx, w, step))
  {
    if Works(w, step.pod) {
      match step {
        case StorePlan(p, plan) => SettledStorePlan(ctx, w, p, plan);
        case ApplyPlan(p) => SettledApplyPlan(ctx, w, p);
        case Publish(p) => SettledPublish(ctx, w, p);
      }
    }
  }

  lemma SettledOutside(ctx: Context, w: World, step: Step)
    requires Settled(ctx, w)
    ensures Settled(ctx, Outside(ctx, w, step))
  {
  }

  lemma SettledPodStep(ctx: Context, w: World, step: Step)
    requires Settled(ctx, w) && IsPodStep(step)
    ensures Settled(ctx, PodLife(w, step))
  {
  }

  lemma SettledNext(ctx: Context, w: World, step: Step)
    requires Inv(ctx, w) && Settled(ctx, w) && Fresh(w, step)
    ensures Settled(ctx, Apply(ctx, w, step))
  {
    var w' := Apply(ctx, w, step);
    if step.LayerStep? {
      NextEffect(ctx, w, step);
      SettledLayerStep(ctx, w, w', step.layer);
    } else if step.RunStep? {
      if Reconciles(w, step.run, step.choice) {
        RunStepCases(ctx, w, step.run, step.choice);
        SettledRunStep(ctx, w, w', step.run, step.choice);
      }
    } else if IsPodStep(step) {
      SettledPodStep(ctx, w, step);
    } else if IsRunnerStep(step) {
      SettledRunnerStep(ctx, w, step);
    } else {
      SettledOutside(ctx, w, step);
    }
  }

  lemma {:induction false} SettledAlong(ctx: Context, ws: seq<World>, steps: seq<Step>, i: nat)
    requires Execution(ctx, ws, steps) && KeepLastRuns(ctx) >= 1 && i <= |steps|
    ensures Settled(ctx, ws[i])
  {
    if i > 0 {
      SettledAlong(ctx, ws, steps, i - 1);
      InitInv(ctx, ws[0]);
      PathInv(ctx, ws, steps, i - 1);
      assert NextAt(ctx, ws, steps, i - 1);
      SettledNext(ctx, ws[i - 1], steps[i - 1]);
    }
  }

  /** In every reachable state a failed run has used up its retries, and a plan run that succeeded has its plan stored
      under its last attempt. */
  lemma FinalStatesMean(ctx: Context, ws: seq<World>, steps: seq<Step>, i: nat, r: RunName)
    requires Execution(ctx, ws, steps) && KeepLastRuns(ctx) >= 1 && i <= |steps| && r in ws[i].runs
    ensures var run := ws[i].runs[r];
            && (run.status.state == Failed ==> run.status.retries >= MaxRetries(ctx))
            && (run.status.state == Succeeded && run.action == PlanAction ==>
                  Coord(r, run.status.retries) in ws[i].plans)
  {
    SettledAlong(ctx, ws, steps, i);
    assert RunSettled(ctx, ws[i], r);
  }
}
