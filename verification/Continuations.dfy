/** How a path can go on: a run that comes to nothing, requests that are taken off, the next run that is made. */
module Continuations {
  import opened Resources
  import RC = RunController
  import LC = LayerController
  import opened Protocol
  import opened Invariant

  lemma PathInvAtEnd(ctx: Context, ws: seq<World>, steps: seq<Step>)
    requires Path(ctx, ws, steps) && Inv(ctx, ws[0]) && KeepLastRuns(ctx) >= 1
    ensures Inv(ctx, ws[|steps|])
  {
    PathInv(ctx, ws, steps, |steps|);
  }

  // ---- a run that comes to nothing ----

  /** Only the run's status and pods move. */
  ghost predicate OnlyRun(w: World, w': World, q: RunName) {
    && w'.ann == w.ann && w'.status == w.status && w'.applied == w.applied && w'.plans == w.plans && w'.now == w.now
    && w'.runNames == w.runNames
    && q in w.runs && q in w'.runs && w'.runs == w.runs[q := w.runs[q].(status := w'.runs[q].status)]
  }

  /** The run is not over and has no pod. */
  predicate Podless(w: World, q: RunName) {
    && q in w.runs && !Terminal(w.runs[q].status.state)
    && RC.PhaseOf(w.pods, w.runs[q].status.runnerPod) == PodUnknown
  }

  /** How far a run without a pod is from giving up. */
  function ToGo(ctx: Context, st: RunStatus): nat {
    (if st.retries < MaxRetries(ctx) then MaxRetries(ctx) - st.retries else 0) + (if st.state == NoStatus then 2 else 1)
  }

  predicate GivenUp(ctx: Context, w: World, q: RunName) {
    q in w.runs && w.runs[q].status.state == Failed && w.runs[q].status.retries >= MaxRetries(ctx)
  }

  /** The world once the pod, if one was made, is removed. */
  function Removed(w: World, z: PodName): World {
    if z in w.pods then PodLife(w, VanishPod(z)) else w
  }

  /** Without the lease the run gets a pod by a retry, or a first status, or is given up. */
  lemma PodlessEffect(ctx: Context, w: World, w': World, q: RunName, z: PodName)
    requires Podless(w, q) && AttemptsOk(w.runs[q].status) && z !in w.podNames && z !in w.pods
    requires w.runs[q].status.state == NoStatus ==> w.runs[q].status.attempts == []
    requires RunEffect(ctx, w, w', q, Serve(false, z))
    ensures OnlyRun(w, Removed(w', z), q) && (z in w'.pods ==> MaxRetries(ctx) >= 1)
    ensures var w'' := Removed(w', z);
            if Terminal(w''.runs[q].status.state) then GivenUp(ctx, w'', q)
            else Podless(w'', q) && ToGo(ctx, w''.runs[q].status) < ToGo(ctx, w.runs[q].status)
  {
  }

  lemma PodlessStep(ctx: Context, w: World, q: RunName, z: PodName)
    requires Inv(ctx, w) && Podless(w, q) && z !in w.podNames
    ensures var w' := RC.ReconcileRun(ctx, w, q, Serve(false, z));
            var w'' := Removed(w', z);
            && OnlyRun(w, w'', q) && w'.ann == w.ann && w'.now == w.now && (z in w'.pods ==> MaxRetries(ctx) >= 1)
            && if Terminal(w''.runs[q].status.state) then GivenUp(ctx, w'', q)
               else Podless(w'', q) && ToGo(ctx, w''.runs[q].status) < ToGo(ctx, w.runs[q].status)
  {
    assert RunOk(w, q);
    forall p | p in w.pods ensures p in w.podNames {
      assert PodOk(w, p);
    }
    RunStepCases(ctx, w, q, Serve(false, z));
    PodlessEffect(ctx, w, RC.ReconcileRun(ctx, w, q, Serve(false, z)), q, z);
  }

  /** From step n on, runs are reconciled and pods removed, and nothing else happens; with no retries no pod is removed
      either. */
  ghost predicate OnlyRuns(ctx: Context, ws: seq<World>, steps: seq<Step>, n: nat) {
    forall k :: n <= k < |steps| ==> RunsAt(ctx, ws, steps, k)
  }

  ghost predicate RunsAt(ctx: Context, ws: seq<World>, steps: seq<Step>, k: nat) {
    && k < |steps| && k + 1 < |ws|
    && (steps[k].RunStep? || (steps[k].VanishPod? && MaxRetries(ctx) >= 1))
    && ws[k + 1].ann == ws[k].ann && ws[k + 1].now == ws[k].now
  }

  lemma RunsAppend(ctx: Context, ws: seq<World>, steps: seq<Step>, ws': seq<World>, steps': seq<Step>, n: nat)
    requires |ws| == |steps| + 1 && |ws'| == |steps'| + 1 && ws <= ws' && steps <= steps' && n <= |steps|
    requires OnlyRuns(ctx, ws, steps, n) && OnlyRuns(ctx, ws', steps', |steps|)
    ensures OnlyRuns(ctx, ws', steps', n)
  {
    forall k | n <= k < |steps'| ensures RunsAt(ctx, ws', steps', k) {
      if k < |steps| {
        assert RunsAt(ctx, ws, steps, k);
      }
    }
  }

  lemma PodlessNext(ctx: Context, ws: seq<World>, steps: seq<Step>, q: RunName) returns (z: PodName)
    requires Path(ctx, ws, steps) && Inv(ctx, ws[0]) && KeepLastRuns(ctx) >= 1 && Podless(ws[|steps|], q)
    ensures z !in ws[|steps|].podNames
    ensures var w := ws[|steps|];
            var w' := RC.ReconcileRun(ctx, w, q, Serve(false, z));
            var w'' := Removed(w', z);
            && OnlyRun(w, w'', q) && w'.ann == w.ann && w'.now == w.now && (z in w'.pods ==> MaxRetries(ctx) >= 1)
            && if Terminal(w''.runs[q].status.state) then GivenUp(ctx, w'', q)
               else Podless(w'', q) && ToGo(ctx, w''.runs[q].status) < ToGo(ctx, w.runs[q].status)
  {
    PathInvAtEnd(ctx, ws, steps);
    z := FreshName(ws[|steps|].podNames);
    PodlessStep(ctx, ws[|steps|], q, z);
  }

  /** The run is reconciled once, and the pod it gets is removed. */
  lemma PodlessOnce(ctx: Context, ws: seq<World>, steps: seq<Step>, q: RunName)
    returns (ws': seq<World>, steps': seq<Step>)
    requires Path(ctx, ws, steps) && Inv(ctx, ws[0]) && KeepLastRuns(ctx) >= 1 && Podless(ws[|steps|], q)
    ensures Path(ctx, ws', steps') && ws <= ws' && steps <= steps' && OnlyRuns(ctx, ws', steps', |steps|)
    ensures var w, w' := ws[|steps|], ws'[|steps'|];
            && OnlyRun(w, w', q)
            && if Terminal(w'.runs[q].status.state) then GivenUp(ctx, w', q)
               else Podless(w', q) && ToGo(ctx, w'.runs[q].status) < ToGo(ctx, w.runs[q].status)
  {
    var z := PodlessNext(ctx, ws, steps, q);
    ws', steps' := PathExtend(ctx, ws, steps, RunStep(q, Serve(false, z)));
    assert RunsAt(ctx, ws', steps', |steps|);
    if z in ws'[|steps'|].pods {
      ws', steps' := PodRemoved(ctx, ws', steps', z, |steps|);
    }
  }

  lemma PodRemoved(ctx: Context, ws: seq<World>, steps: seq<Step>, z: PodName, n: nat)
    returns (ws': seq<World>, steps': seq<Step>)
    requires Path(ctx, ws, steps) && n <= |steps| && OnlyRuns(ctx, ws, steps, n) && MaxRetries(ctx) >= 1
    ensures Path(ctx, ws', steps') && ws <= ws' && steps <= steps' && OnlyRuns(ctx, ws', steps', n)
    ensures ws'[|steps'|] == PodLife(ws[|steps|], VanishPod(z))
  {
    ws', steps' := PathExtend(ctx, ws, steps, VanishPod(z));
    assert RunsAt(ctx, ws', steps', |steps|);
    RunsAppend(ctx, ws, steps, ws', steps', n);
  }

  /** A run whose pods all come to nothing is given up. */
  lemma {:induction false} ComesToNothing(ctx: Context, ws: seq<World>, steps: seq<Step>, q: RunName)
    returns (ws': seq<World>, steps': seq<Step>)
    requires Path(ctx, ws, steps) && Inv(ctx, ws[0]) && KeepLastRuns(ctx) >= 1 && Podless(ws[|steps|], q)
    ensures Path(ctx, ws', steps') && ws <= ws' && steps <= steps' && OnlyRuns(ctx, ws', steps', |steps|)
    ensures OnlyRun(ws[|steps|], ws'[|steps'|], q) && GivenUp(ctx, ws'[|steps'|], q)
    decreases ToGo(ctx, ws[|steps|].runs[q].status)
  {
    ws', steps' := PodlessOnce(ctx, ws, steps, q);
    if !Terminal(ws'[|steps'|].runs[q].status.state) {
      var ws1, steps1 := ws', steps';
      ws', steps' := ComesToNothing(ctx, ws1, steps1, q);
      RunsAppend(ctx, ws1, steps1, ws', steps', |steps|);
    }
  }

  // ---- requests that are taken off ----

  /** Requests, the displayed state and old runs may go; all else stays. */
  ghost predicate OnlyTidied(w: World, w': World) {
    && w'.ann == w.ann.(syncNow := w'.ann.syncNow, applyNow := w'.ann.applyNow)
    && w'.runNames == w.runNames && w'.pods == w.pods && w'.podNames == w.podNames && w'.plans == w.plans
    && w'.applied == w.applied && w'.now == w.now
    && w'.status.lastRun == w.status.lastRun
    && w'.runs.Keys <= w.runs.Keys && (forall r :: r in w'.runs ==> w'.runs[r] == w.runs[r])
    && (forall r :: r in w.runs && IsLast(w, r) ==> r in w'.runs)
  }

  /** A closed window takes off one request and makes no run. */
  lemma ClosedOffer(ctx: Context, w: World, q: RunName)
    requires HistoryOk(ctx, w) && !LC.IsRunning(w)
    ensures var w' := LC.ReconcileLayer(ctx, w, Offer(false, q));
            && OnlyTidied(w, w') && w'.ann == LC.Unmark(w, Offer(false, q)) && !LC.IsRunning(w')
            && w'.status.syncScheduled == w.ann.syncNow
  {
    var state := LC.GetState(ctx, w);
    assert LC.Decide(ctx, w, state, Offer(false, q)) == LC.NoRun;
    var w1 := LC.Shown(w, state, Offer(false, q));
    CleanupDeletes(ctx, w1, {});
  }

  /** Both requests are gone after two of them. */
  lemma ClearRequests(ctx: Context, ws: seq<World>, steps: seq<Step>) returns (ws': seq<World>, steps': seq<Step>)
    requires Path(ctx, ws, steps) && Inv(ctx, ws[0]) && KeepLastRuns(ctx) >= 1 && !LC.IsRunning(ws[|steps|])
    ensures Path(ctx, ws', steps') && ws <= ws' && steps <= steps' && |steps'| == |steps| + 2
    ensures OnlyTidied(ws[|steps|], ws'[|steps| + 1]) && OnlyTidied(ws[|steps|], ws'[|steps'|])
    ensures forall k :: |steps| <= k < |steps'| ==> steps'[k].LayerStep?
    ensures var w' := ws'[|steps'|];
            !w'.ann.syncNow && !w'.ann.applyNow && !w'.status.syncScheduled && !LC.IsRunning(w')
  {
    PathInvAtEnd(ctx, ws, steps);
    var q := FreshName(ws[|steps|].runNames);
    ClosedOffer(ctx, ws[|steps|], q);
    ws', steps' := PathExtend(ctx, ws, steps, LayerStep(Offer(false, q)));
    PathInvAtEnd(ctx, ws', steps');
    ClosedOffer(ctx, ws'[|steps'|], q);
    ws', steps' := PathExtend(ctx, ws', steps', LayerStep(Offer(false, q)));
  }

  // ---- the next run that is made ----

  /** The run is made, and waits for its pod. */
  ghost predicate IsMade(w: World, w': World, q: RunName, run: Run) {
    && w'.ann == w.ann.(syncNow := w'.ann.syncNow, applyNow := w'.ann.applyNow)
    && w'.applied == w.applied && w'.plans == w.plans && w'.pods == w.pods && w'.podNames == w.podNames
    && w'.now == w.now && q !in w.runNames && w'.runNames == w.runNames + {q}
    && q in w'.runs && w'.runs[q] == run && run.status == NEW_STATUS && IsLast(w', q) && Podless(w', q)
  }

  lemma RunIsMade(ctx: Context, ws: seq<World>, steps: seq<Step>, run: Run)
    returns (ws': seq<World>, steps': seq<Step>, q: RunName)
    requires Path(ctx, ws, steps) && Inv(ctx, ws[0]) && KeepLastRuns(ctx) >= 1 && run.status == NEW_STATUS
    requires forall q :: LC.Decide(ctx, ws[|steps|], LC.GetState(ctx, ws[|steps|]), Offer(true, q)) == LC.Create(run)
    ensures Path(ctx, ws', steps') && ws <= ws' && steps' == steps + [LayerStep(Offer(true, q))]
    ensures IsMade(ws[|steps|], ws'[|steps'|], q, run)
    ensures ws'[|steps'|].ann == LC.Unmark(ws[|steps|], Offer(true, q))
  {
    PathInvAtEnd(ctx, ws, steps);
    q := FreshName(ws[|steps|].runNames);
    OfferTaken(ctx, ws[|steps|], q, run);
    ws', steps' := PathExtend(ctx, ws, steps, LayerStep(Offer(true, q)));
  }

  /** The plan run a layer that needs a plan gets. */
  function PlanRun(w: World): Run
    requires w.ann.relevantCommit.Some?
  {
    Run(PlanAction, w.ann.relevantCommit.value, None, w.now, !w.ann.syncNow, NEW_STATUS)
  }

  lemma PlanIsMade(ctx: Context, ws: seq<World>, steps: seq<Step>)
    returns (ws': seq<World>, steps': seq<Step>, q: RunName)
    requires Path(ctx, ws, steps) && Inv(ctx, ws[0]) && KeepLastRuns(ctx) >= 1
    requires LC.GetState(ctx, ws[|steps|]) == PlanNeeded && ws[|steps|].ann.relevantCommit.Some?
    ensures Path(ctx, ws', steps') && ws <= ws' && steps' == steps + [LayerStep(Offer(true, q))]
    ensures IsMade(ws[|steps|], ws'[|steps'|], q, PlanRun(ws[|steps|]))
    ensures ws'[|steps'|].ann == LC.Unmark(ws[|steps|], Offer(true, q))
  {
    ws', steps', q := RunIsMade(ctx, ws, steps, PlanRun(ws[|steps|]));
  }

  /** The apply run a layer gets that needs an apply and is not asked for one. */
  function ApplyRun(w: World): Run
    requires w.ann.relevantCommit.Some?
  {
    Run(ApplyAction, w.ann.relevantCommit.value, w.ann.planRun, w.now, true, NEW_STATUS)
  }

  lemma ApplyIsMade(ctx: Context, ws: seq<World>, steps: seq<Step>)
    returns (ws': seq<World>, steps': seq<Step>, q: RunName)
    requires Path(ctx, ws, steps) && Inv(ctx, ws[0]) && KeepLastRuns(ctx) >= 1 && AutoApplyEnabled(ctx)
    requires LC.GetState(ctx, ws[|steps|]) == ApplyNeeded(false) && ws[|steps|].ann.relevantCommit.Some?
    ensures Path(ctx, ws', steps') && ws <= ws' && steps' == steps + [LayerStep(Offer(true, q))]
    ensures IsMade(ws[|steps|], ws'[|steps'|], q, ApplyRun(ws[|steps|]))
    ensures ws'[|steps'|].ann == LC.Unmark(ws[|steps|], Offer(true, q))
  {
    PathInvAtEnd(ctx, ws, steps);
    ws', steps', q := RunIsMade(ctx, ws, steps, ApplyRun(ws[|steps|]));
  }
}
