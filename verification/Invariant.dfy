/** The bookkeeping invariant of one layer, and the proof that every step keeps it. */
module Invariant {
  import opened Resources
  import RC = RunController
  import LC = LayerController
  import opened Protocol

  // ---- attempts ----

  /** Attempts are numbered without gaps from 0 or 1 up to the retry count; the runner pod is the last one's. */
  ghost predicate AttemptsOk(st: RunStatus) {
    if st.attempts == [] then
      st.retries == 0 && st.runnerPod.None? && st.lastRun.Absent?
    else
      && st.attempts[0].number <= 1
      && (forall i :: 0 <= i < |st.attempts| ==> st.attempts[i].number == st.attempts[0].number + i)
      && st.attempts[|st.attempts| - 1].number == st.retries
      && st.runnerPod == Some(st.attempts[|st.attempts| - 1].podName)
      && st.lastRun.At?
  }

  /** The last run of the layer. */
  ghost predicate IsLast(w: World, r: RunName) {
    w.status.lastRun.Some? && w.status.lastRun.value.name == r
  }

  ghost predicate RunOk(w: World, r: RunName)
    requires r in w.runs
  {
    var run := w.runs[r];
    && r in w.runNames
    && AttemptsOk(run.status)
    && (run.status.state == NoStatus ==> run.status.attempts == [])
    && (!Terminal(run.status.state) ==> IsLast(w, r))
    && (run.action == ApplyAction ==> run.artifact.Some? && run.artifact.value in w.plans)
  }

  ghost predicate RunsOk(w: World) {
    forall r :: r in w.runs ==> RunOk(w, r)
  }

  // ---- pods ----

  /** The pod is the one its run is waiting for, and carries the run's current attempt number. */
  ghost predicate Drives(w: World, p: PodName)
    requires p in w.pods
  {
    var r := w.pods[p].run;
    && r in w.runs
    && var st := w.runs[r].status;
    && st.runnerPod == Some(p)
    && (st.state == Initial || st.state == Retrying || st.state == Running)
    && st.retries == w.pods[p].attempt
    && ProgressOk(w, p)
  }

  /** What the runner holds in hand is what the datastore has. */
  ghost predicate ProgressOk(w: World, p: PodName)
    requires p in w.pods && w.pods[p].run in w.runs
  {
    var c := CoordOf(w, p);
    match w.pods[p].progress
    case Started => c !in w.plans
    case Stored(plan) => RunOf(w, p).action == PlanAction && c in w.plans && w.plans[c] == plan
    case Applied(b) =>
      && RunOf(w, p).action == ApplyAction && RunOf(w, p).artifact.Some?
      && RunOf(w, p).artifact.value in w.plans && w.plans[RunOf(w, p).artifact.value] == b
    case Published => true
  }

  ghost predicate PodOk(w: World, p: PodName)
    requires p in w.pods
  {
    var pod := w.pods[p];
    && p in w.podNames
    && pod.run in w.runNames
    && pod.phase != PodUnknown
    && (Active(pod) ==> Drives(w, p))
    && (pod.phase == PodSucceeded ==> pod.progress == Published)
  }

  ghost predicate PodsOk(w: World) {
    && (forall p :: p in w.pods ==> PodOk(w, p))
    && (forall r :: r in w.runs && w.runs[r].status.runnerPod.Some? ==> w.runs[r].status.runnerPod.value in w.podNames)
    && (forall r, p :: r in w.runs && p in w.pods && w.runs[r].status.runnerPod == Some(p) ==> w.pods[p].run == r)
  }

  // ---- history ----

  ghost predicate Distinct(runs: seq<LayerRun>) {
    forall i, j :: 0 <= i < j < |runs| ==> runs[i].name != runs[j].name
  }

  ghost predicate HistoryOk(ctx: Context, w: World) {
    && Distinct(w.status.latestRuns)
    && |w.status.latestRuns| <= KeepLastRuns(ctx)
    && LC.Names(w.status.latestRuns) <= w.runNames
    && (forall e :: e in w.status.latestRuns ==> e.date <= w.now)
    && (w.status.lastRun.Some? ==>
          && w.status.lastRun.value in w.status.latestRuns
          && w.status.lastRun.value.name in w.runs
          && w.runs[w.status.lastRun.value.name].action == w.status.lastRun.value.action)
  }

  // ---- artifacts ----

  /** A stored artifact belongs to an attempt that was made. */
  ghost predicate PlansOk(w: World) {
    forall c :: c in w.plans ==>
      && c.run in w.runNames
      && (c.run in w.runs ==> w.runs[c.run].status.attempts != [] && c.attempt <= w.runs[c.run].status.retries)
  }

  /** The plan annotations name a stored artifact and carry its digest. */
  ghost predicate PlanLinkOk(ctx: Context, w: World) {
    match w.ann.planRun
    case None => w.ann.planSum.None? && w.ann.planDate.Absent? && w.ann.planCommit.None?
    case Some(c) =>
      && c in w.plans && w.ann.planSum == Some(ctx.settings.digest(w.plans[c]))
      && w.ann.planDate.At? && w.ann.planDate.time <= w.now && w.ann.planCommit.Some?
  }

  /** What a published run has left on the layer, for as long as it is the last run. */
  ghost predicate Reported(w: World, r: RunName)
    requires r in w.runs
  {
    match w.runs[r].action
    case PlanAction =>
      && w.ann.planRun.Some? && w.ann.planRun.value.run == r
      && w.ann.planCommit == Some(w.runs[r].revision)
      && w.ann.planDate.At? && w.ann.planDate.time >= w.runs[r].created
    case ApplyAction => w.ann.applySum == w.ann.planSum
  }

  ghost predicate LastRunLinkOk(w: World) {
    w.status.lastRun.Some? && w.status.lastRun.value.name in w.runs ==>
      var r := w.status.lastRun.value.name;
      && w.runs[r].created <= w.now
      && (w.runs[r].action == ApplyAction ==> w.ann.planRun == w.runs[r].artifact)
      && (w.runs[r].status.state == Succeeded ==> Reported(w, r))
      && (forall p :: p in w.pods && w.pods[p].run == r && w.pods[p].progress == Published ==> Reported(w, r))
  }

  ghost predicate Inv(ctx: Context, w: World) {
    RunsOk(w) && PodsOk(w) && HistoryOk(ctx, w) && PlansOk(w) && PlanLinkOk(ctx, w) && LastRunLinkOk(w)
  }

  // ---- consequences used by the steps ----

  /** The run controller finds a run with an active pod in state Running, whatever its limits and clock. */
  lemma ActiveMeansRunning(ctx: Context, w: World, p: PodName)
    requires PodsOk(w) && p in w.pods && Active(w.pods[p])
    ensures Drives(w, p)
    ensures var st := w.runs[w.pods[p].run].status;
            RC.GetState(ctx, st, RC.PhaseOf(w.pods, st.runnerPod), w.now) == Running
  {
  }

  // ---- the steps ----

  lemma InitInv(ctx: Context, w: World)
    requires Init(w) && KeepLastRuns(ctx) >= 1
    ensures Inv(ctx, w)
  {
  }

  // -- a reconciliation of run r

  /** The status before and after, the decided state and what the handler returned. */
  ghost function Decided(ctx: Context, w: World, r: RunName): RunState
    requires r in w.runs
  {
    var st := w.runs[r].status;
    RC.GetState(ctx, st, RC.PhaseOf(w.pods, st.runnerPod), w.now)
  }

  predicate Reconciles(w: World, r: RunName, ch: RC.RunChoice) {
    r in w.runs && !Terminal(w.runs[r].status.state) && ch.bundleOk
  }

  /** The attempts of two statuses differ at most in what has been uploaded. */
  ghost predicate SameAttempts(a: seq<Attempt>, b: seq<Attempt>) {
    |a| == |b| && forall i :: 0 <= i < |a| ==> a[i].podName == b[i].podName && a[i].number == b[i].number
  }

  /** The handler makes a pod: only in Initial with the lease, or in Retrying. */
  predicate MakesPod(state: RunState, ch: RC.RunChoice) {
    ch.room && ch.created && (state == Retrying || (state == Initial && ch.locked))
  }

  ghost predicate StatusKept(st: RunStatus, st': RunStatus) {
    && st'.retries == st.retries && st'.lastRun == st.lastRun && st'.runnerPod == st.runnerPod
    && SameAttempts(st'.attempts, st.attempts)
  }

  ghost predicate StatusAdvanced(st: RunStatus, st': RunStatus, pod: PodName, now: int) {
    && st'.retries == (if st'.state == Initial then 0 else st.retries + 1)
    && st'.lastRun == At(now) && st'.runnerPod == Some(pod)
    && SameAttempts(st'.attempts, st.attempts + [Attempt(pod, st'.retries, false)])
  }

  /** Either the run keeps its pod, or it gets one under the next attempt number. */
  lemma StatusCases(st: RunStatus, state: RunState, now: int, ch: RC.RunChoice, pods: map<PodName, Pod>)
    requires AttemptsOk(st) && (state == Initial ==> st.attempts == [])
    ensures var st' := RC.StatusAfter(st, state, RC.Handle(state, st, now, ch), pods, ch.logs);
            && st'.state == state
            && AttemptsOk(st')
            && if MakesPod(state, ch) then StatusAdvanced(st, st', ch.pod, now) else StatusKept(st, st')
  {
  }

  /** What a reconciliation of run r does to the layer. */
  ghost predicate RunEffect(ctx: Context, w: World, w': World, r: RunName, ch: RC.RunChoice)
    requires r in w.runs
  {
    && r in w'.runs
    && w'.runs == w.runs[r := w.runs[r].(status := w'.runs[r].status)]
    && w'.runNames == w.runNames && w'.ann == w.ann && w'.status == w.status
    && w'.plans == w.plans && w'.applied == w.applied && w'.now == w.now
    && var st, st', state := w.runs[r].status, w'.runs[r].status, Decided(ctx, w, r);
    && st'.state == state
    && AttemptsOk(st')
    && (state == Initial ==> st.state == NoStatus)
    && if MakesPod(state, ch) then
         && StatusAdvanced(st, st', ch.pod, w.now)
         && w'.pods == w.pods[ch.pod := Pod(r, st'.retries, PodPending, Started)]
         && w'.podNames == w.podNames + {ch.pod}
       else
         StatusKept(st, st') && w'.pods == w.pods && w'.podNames == w.podNames
  }

  lemma RunStepCases(ctx: Context, w: World, r: RunName, ch: RC.RunChoice)
    requires RunsOk(w) && Reconciles(w, r, ch)
    ensures RunEffect(ctx, w, RC.ReconcileRun(ctx, w, r, ch), r, ch)
  {
    assert RunOk(w, r);
    var st, state := w.runs[r].status, Decided(ctx, w, r);
    StatusCases(st, state, w.now, ch, RC.PodsAfter(w.pods, r, RC.Handle(state, st, w.now, ch)));
  }

  lemma RunEffectRuns(ctx: Context, w: World, w': World, r: RunName, ch: RC.RunChoice)
    requires RunsOk(w) && Reconciles(w, r, ch) && RunEffect(ctx, w, w', r, ch)
    ensures RunsOk(w')
  {
  }

  lemma RunEffectPods(ctx: Context, w: World, w': World, r: RunName, ch: RC.RunChoice)
    requires RunsOk(w) && PodsOk(w) && PlansOk(w) && Reconciles(w, r, ch) && ch.pod !in w.podNames
    requires RunEffect(ctx, w, w', r, ch)
    ensures PodsOk(w')
  {
    assert RunOk(w, r);
    forall p | p in w'.pods ensures PodOk(w', p) {
      if p in w.pods {
        assert PodOk(w, p);
        if Active(w.pods[p]) {
          ActiveMeansRunning(ctx, w, p);
        }
      }
    }
    forall q, p | q in w'.runs && p in w'.pods && w'.runs[q].status.runnerPod == Some(p)
      ensures w'.pods[p].run == q
    {
      assert q in w.runs;
    }
  }

  lemma RunEffectLinks(ctx: Context, w: World, w': World, r: RunName, ch: RC.RunChoice)
    requires Inv(ctx, w) && Reconciles(w, r, ch) && ch.pod !in w.podNames && RunEffect(ctx, w, w', r, ch)
    ensures HistoryOk(ctx, w') && PlansOk(w') && PlanLinkOk(ctx, w') && LastRunLinkOk(w')
  {
  }

  lemma RunStepInv(ctx: Context, w: World, r: RunName, ch: RC.RunChoice)
    requires Inv(ctx, w) && ch.pod !in w.podNames
    ensures Inv(ctx, RC.ReconcileRun(ctx, w, r, ch))
  {
    if Reconciles(w, r, ch) {
      var w' := RC.ReconcileRun(ctx, w, r, ch);
      RunStepCases(ctx, w, r, ch);
      RunEffectRuns(ctx, w, w', r, ch);
      RunEffectPods(ctx, w, w', r, ch);
      RunEffectLinks(ctx, w, w', r, ch);
    }
  }

  // -- a reconciliation of the layer

  /** Request flags, commit annotations and the displayed state carry no bookkeeping. */
  ghost predicate SameBooks(w: World, w': World) {
    && w'.runs == w.runs && w'.runNames == w.runNames && w'.pods == w.pods && w'.podNames == w.podNames
    && w'.plans == w.plans && w'.now >= w.now
    && w'.status.lastRun == w.status.lastRun && w'.status.latestRuns == w.status.latestRuns
    && w'.ann.planDate == w.ann.planDate && w'.ann.planRun == w.ann.planRun && w'.ann.planSum == w.ann.planSum
    && w'.ann.planCommit == w.ann.planCommit && w'.ann.applySum == w.ann.applySum
  }

  lemma SameBooksInv(ctx: Context, w: World, w': World)
    requires Inv(ctx, w) && SameBooks(w, w')
    ensures Inv(ctx, w')
  {
    forall r | r in w'.runs ensures RunOk(w', r) {
      assert RunOk(w, r);
    }
    forall p | p in w'.pods ensures PodOk(w', p) {
      assert PodOk(w, p);
    }
  }

  /** When the layer controller sees nothing running, every run of the layer is over and no pod is active. */
  lemma IdleMeansDone(ctx: Context, w: World)
    requires Inv(ctx, w) && !LC.IsRunning(w)
    ensures forall r :: r in w.runs ==> Terminal(w.runs[r].status.state)
    ensures forall p :: p in w.pods ==> !Active(w.pods[p])
  {
  }

  /** Everything but the runs and their names stays; the last run stays. */
  ghost predicate OnlyDeletes(w: World, w': World) {
    && w'.ann == w.ann && w'.status == w.status && w'.runNames == w.runNames && w'.pods == w.pods
    && w'.podNames == w.podNames && w'.plans == w.plans && w'.applied == w.applied && w'.now == w.now
    && w'.runs.Keys <= w.runs.Keys && (forall r :: r in w'.runs ==> w'.runs[r] == w.runs[r])
    && (forall r :: r in w.runs && IsLast(w, r) ==> r in w'.runs)
  }

  lemma DeletesRunsAndPods(w: World, w': World)
    requires RunsOk(w) && PodsOk(w) && OnlyDeletes(w, w')
    ensures RunsOk(w') && PodsOk(w')
  {
    forall r | r in w'.runs ensures RunOk(w', r) {
      assert RunOk(w, r);
    }
    forall p | p in w'.pods ensures PodOk(w', p) {
      assert PodOk(w, p);
      if Active(w.pods[p]) {
        assert RunOk(w, w.pods[p].run);
      }
    }
  }

  lemma DeletesInv(ctx: Context, w: World, w': World)
    requires Inv(ctx, w) && OnlyDeletes(w, w')
    ensures Inv(ctx, w')
  {
    DeletesRunsAndPods(w, w');
    assert HistoryOk(ctx, w') && PlansOk(w') && PlanLinkOk(ctx, w');
    assert LastRunLinkOk(w') by {
      if w'.status.lastRun.Some? && w'.status.lastRun.value.name in w'.runs {
        assert w.status.lastRun.value.name in w.runs;
      }
    }
  }

  lemma CleanupDeletes(ctx: Context, w: World, undeleted: set<RunName>)
    requires HistoryOk(ctx, w)
    ensures OnlyDeletes(w, LC.Cleanup(w, KeepLastRuns(ctx), undeleted))
  {
  }

  lemma CleanupInv(ctx: Context, w: World, undeleted: set<RunName>)
    requires Inv(ctx, w)
    ensures Inv(ctx, LC.Cleanup(w, KeepLastRuns(ctx), undeleted))
  {
    CleanupDeletes(ctx, w, undeleted);
    DeletesInv(ctx, w, LC.Cleanup(w, KeepLastRuns(ctx), undeleted));
  }

  lemma UpdatedHistory(runs: seq<LayerRun>, entry: LayerRun, keep: int, now: int)
    requires keep >= 1 && |runs| <= keep && Distinct(runs) && entry.name !in LC.Names(runs)
    ensures var latest := LC.UpdateLatestRuns(runs, entry, keep, now);
            && Distinct(latest) && |latest| <= keep
            && LC.Names(latest) <= LC.Names(runs) + {entry.name}
            && (forall e :: e in latest ==> e in runs || e == entry)
            && entry in latest
  {
  }

  lemma CreateRuns(ctx: Context, w: World, state: LayerState, ch: LC.LayerChoice, run: Run)
    requires Inv(ctx, w) && KeepLastRuns(ctx) >= 1 && !LC.IsRunning(w) && ch.run !in w.runNames
    requires run.status == NEW_STATUS
    requires run.action == ApplyAction ==> run.artifact.Some? && run.artifact == w.ann.planRun
    ensures RunsOk(LC.Recorded(w, state, ch, run, KeepLastRuns(ctx)))
  {
  }

  lemma CreatePods(ctx: Context, w: World, state: LayerState, ch: LC.LayerChoice, run: Run)
    requires PodsOk(w) && KeepLastRuns(ctx) >= 1 && ch.run !in w.runNames && w.runs.Keys <= w.runNames
    requires run.status == NEW_STATUS && forall p :: p in w.pods ==> !Active(w.pods[p])
    ensures PodsOk(LC.Recorded(w, state, ch, run, KeepLastRuns(ctx)))
  {
  }

  lemma CreateHistory(ctx: Context, w: World, state: LayerState, ch: LC.LayerChoice, run: Run)
    requires HistoryOk(ctx, w) && KeepLastRuns(ctx) >= 1 && ch.run !in w.runNames && run.created == w.now
    ensures HistoryOk(ctx, LC.Recorded(w, state, ch, run, KeepLastRuns(ctx)))
  {
    UpdatedHistory(w.status.latestRuns, LayerRun(ch.run, run.created, run.action), KeepLastRuns(ctx), w.now);
  }

  lemma CreateInv(ctx: Context, w: World, state: LayerState, ch: LC.LayerChoice, run: Run)
    requires Inv(ctx, w) && KeepLastRuns(ctx) >= 1 && !LC.IsRunning(w) && ch.run !in w.runNames
    requires run.status == NEW_STATUS && run.created == w.now
    requires run.action == ApplyAction ==> run.artifact.Some? && run.artifact == w.ann.planRun
    ensures Inv(ctx, LC.Recorded(w, state, ch, run, KeepLastRuns(ctx)))
  {
    var w' := LC.Recorded(w, state, ch, run, KeepLastRuns(ctx));
    IdleMeansDone(ctx, w);
    forall r | r in w.runs ensures r in w.runNames {
      assert RunOk(w, r);
    }
    forall p | p in w.pods ensures w.pods[p].run in w.runNames {
      assert PodOk(w, p);
    }
    CreateRuns(ctx, w, state, ch, run);
    CreatePods(ctx, w, state, ch, run);
    CreateHistory(ctx, w, state, ch, run);
    assert PlansOk(w');
    assert LastRunLinkOk(w');
  }

  lemma LayerStepInv(ctx: Context, w: World, ch: LC.LayerChoice)
    requires Inv(ctx, w) && KeepLastRuns(ctx) >= 1 && ch.run !in w.runNames
    ensures Inv(ctx, LC.ReconcileLayer(ctx, w, ch))
  {
    var state := LC.GetState(ctx, w);
    match LC.Decide(ctx, w, state, ch) {
      case NoArtifact => SameBooksInv(ctx, w, w.(ann := LC.Unmark(w, ch)));
      case NoRun =>
        SameBooksInv(ctx, w, LC.Shown(w, state, ch));
        CleanupInv(ctx, LC.Shown(w, state, ch), ch.undeleted);
      case Create(run) =>
        CreateInv(ctx, w, state, ch, run);
        CleanupInv(ctx, LC.Recorded(w, state, ch, run, KeepLastRuns(ctx)), ch.undeleted);
    }
  }

  // -- effects of a layer step, whatever its choices

  /** Pods, artifacts and plan annotations are left alone, request marks are at most removed, and at most one run
      appears, the one decided on, and only when nothing was running; the others stay as they are. */
  ghost predicate LayerEffect(ctx: Context, w: World, w': World, ch: LC.LayerChoice) {
    && w'.pods == w.pods && w'.podNames == w.podNames && w'.plans == w.plans && w'.applied == w.applied
    && w'.now == w.now
    && w'.ann == w.ann.(syncNow := w'.ann.syncNow, applyNow := w'.ann.applyNow)
    && (w'.ann.syncNow ==> w.ann.syncNow) && (w'.ann.applyNow ==> w.ann.applyNow)
    && w.runNames <= w'.runNames <= w.runNames + {ch.run}
    && (forall r :: r in w'.runs && r in w.runs ==> w'.runs[r] == w.runs[r])
    && (forall r :: r in w'.runs && r !in w.runs ==>
          && r == ch.run && !LC.IsRunning(w)
          && LC.Decide(ctx, w, LC.GetState(ctx, w), ch) == LC.Create(w'.runs[r]))
  }

  lemma CleanupEffect(ctx: Context, w: World, w': World, ch: LC.LayerChoice)
    requires LayerEffect(ctx, w, w', ch)
    ensures LayerEffect(ctx, w, LC.Cleanup(w', KeepLastRuns(ctx), ch.undeleted), ch)
  {
  }

  lemma CreateEffect(ctx: Context, w: World, ch: LC.LayerChoice, run: Run)
    requires ch.run !in w.runs && LC.Decide(ctx, w, LC.GetState(ctx, w), ch) == LC.Create(run)
    requires !LC.HistoryPanics(w.status.latestRuns, KeepLastRuns(ctx))
    ensures LayerEffect(ctx, w, LC.Recorded(w, LC.GetState(ctx, w), ch, run, KeepLastRuns(ctx)), ch)
  {
  }

  lemma LayerStepEffect(ctx: Context, w: World, ch: LC.LayerChoice)
    requires ch.run !in w.runs
    ensures LayerEffect(ctx, w, LC.ReconcileLayer(ctx, w, ch), ch)
  {
    if !ch.locked {
      var state, keep := LC.GetState(ctx, w), KeepLastRuns(ctx);
      var decision := LC.Decide(ctx, w, state, ch);
      if decision.NoRun? {
        CleanupEffect(ctx, w, LC.Shown(w, state, ch), ch);
      } else if decision.Create? && !LC.HistoryPanics(w.status.latestRuns, keep) {
        CreateEffect(ctx, w, ch, decision.run);
        CleanupEffect(ctx, w, LC.Recorded(w, state, ch, decision.run, keep), ch);
      }
    }
  }

  // -- pods and runner

  ghost predicate OnlyPods(w: World, w': World) {
    && w'.ann == w.ann && w'.status == w.status && w'.runs == w.runs && w'.runNames == w.runNames
    && w'.podNames == w.podNames && w'.plans == w.plans && w'.now == w.now
  }

  /** The pod is as before, or has moved on in a way that keeps the facts about it. */
  ghost predicate PodKept(w: World, w': World, p: PodName)
    requires p in w'.pods && p in w.pods
  {
    var pod, before := w'.pods[p], w.pods[p];
    && pod.run == before.run && pod.attempt == before.attempt
    && pod.phase != PodUnknown && (Active(pod) ==> Active(before))
    && (pod.progress == before.progress
        || (Active(pod) && pod.progress != Published && pod.run in w'.runs && ProgressOk(w', p)))
    && (pod.phase == PodSucceeded ==> pod.progress == Published)
  }

  /** Pods change phase or progress, or go: only the facts about these pods are at stake. */
  lemma PodChangeInv(ctx: Context, w: World, w': World)
    requires Inv(ctx, w) && OnlyPods(w, w') && w'.pods.Keys <= w.pods.Keys
    requires forall p :: p in w'.pods ==> PodKept(w, w', p)
    ensures Inv(ctx, w')
  {
    forall r | r in w'.runs ensures RunOk(w', r) {
      assert RunOk(w, r);
    }
    forall q | q in w'.pods ensures PodOk(w', q) {
      assert PodOk(w, q) && PodKept(w, w', q);
    }
    forall q | q in w'.pods && w'.pods[q].progress == Published ensures w.pods[q].progress == Published {
      assert PodKept(w, w', q);
    }
    forall r, q | r in w'.runs && q in w'.pods && w'.runs[r].status.runnerPod == Some(q) ensures w'.pods[q].run == r {
      assert PodKept(w, w', q);
    }
    forall q | q in w'.pods ensures w'.pods[q].run == w.pods[q].run {
      assert PodKept(w, w', q);
    }
  }

  /** A pod that works is the driving pod of the last run, and no other pod is active. */
  lemma WorkerFacts(ctx: Context, w: World, p: PodName)
    requires Inv(ctx, w) && p in w.pods && Active(w.pods[p])
    ensures Drives(w, p) && IsLast(w, w.pods[p].run)
    ensures CoordOf(w, p) == Coord(w.pods[p].run, w.pods[p].attempt)
    ensures forall q :: q in w.pods && Active(w.pods[q]) ==> q == p
  {
  }

  /** A new object appears in the datastore, under the attempt of the one active pod. */
  lemma StoredInv(ctx: Context, w: World, w': World, p: PodName, plan: Bytes)
    requires Inv(ctx, w) && p in w.pods && Active(w.pods[p]) && w.pods[p].run in w.runs
    requires w.pods[p].progress == Started && RunOf(w, p).action == PlanAction
    requires OnlyPods(w, w'.(plans := w.plans))
    requires w'.plans == w.plans[CoordOf(w, p) := plan] && w'.pods == w.pods[p := w.pods[p].(progress := Stored(plan))]
    ensures Inv(ctx, w')
  {
    WorkerFacts(ctx, w, p);
    assert RunOk(w, w.pods[p].run);
    assert CoordOf(w, p) !in w.plans;
    forall r | r in w'.runs ensures RunOk(w', r) {
      assert RunOk(w, r);
    }
    forall q | q in w'.pods ensures PodOk(w', q) {
      assert PodOk(w, q);
    }
  }

  lemma StorePlanInv(ctx: Context, w: World, p: PodName, plan: Bytes)
    requires Inv(ctx, w)
    ensures Inv(ctx, RunnerDoes(ctx, w, StorePlan(p, plan)))
  {
    if Works(w, p) && RunOf(w, p).action == PlanAction && w.pods[p].progress == Started {
      StoredInv(ctx, w, RunnerDoes(ctx, w, StorePlan(p, plan)), p, plan);
    }
  }

  lemma PublishInv(ctx: Context, w: World, p: PodName)
    requires Inv(ctx, w) && Works(w, p) && (w.pods[p].progress.Stored? || w.pods[p].progress.Applied?)
    ensures Inv(ctx, PublishResult(ctx, w, p))
  {
    var w' := PublishResult(ctx, w, p);
    WorkerFacts(ctx, w, p);
    forall r | r in w'.runs ensures RunOk(w', r) {
      assert RunOk(w, r);
    }
    forall q | q in w'.pods ensures PodOk(w', q) {
      assert PodOk(w, q);
    }
  }

  lemma PodMovesKeep(w: World, w': World, p: PodName)
    requires PodsOk(w) && PodMoves(w, w', p)
    ensures forall q :: q in w'.pods ==> PodKept(w, w', q)
  {
  }

  lemma PodStepInv(ctx: Context, w: World, step: Step)
    requires Inv(ctx, w) && IsPodStep(step)
    ensures Inv(ctx, PodLife(w, step))
  {
    var w' := PodLife(w, step);
    PodStepEffect(w, step);
    PodMovesKeep(w, w', step.pod);
    PodChangeInv(ctx, w, w');
  }

  lemma ApplyPlanInv(ctx: Context, w: World, p: PodName)
    requires Inv(ctx, w)
    ensures Inv(ctx, RunnerDoes(ctx, w, ApplyPlan(p)))
  {
    var w' := RunnerDoes(ctx, w, ApplyPlan(p));
    forall q | q in w.pods ensures PodKept(w, w', q) {
      assert PodOk(w, q);
    }
    PodChangeInv(ctx, w, w');
  }

  lemma RunnerStepInv(ctx: Context, w: World, step: Step)
    requires Inv(ctx, w) && IsRunnerStep(step)
    ensures Inv(ctx, RunnerDoes(ctx, w, step))
  {
    match step {
      case StorePlan(p, plan) => StorePlanInv(ctx, w, p, plan);
      case ApplyPlan(p) => ApplyPlanInv(ctx, w, p);
      case Publish(p) =>
        if Works(w, p) && (w.pods[p].progress.Stored? || w.pods[p].progress.Applied?) {
          PublishInv(ctx, w, p);
        }
    }
  }

  lemma OutsideBooks(ctx: Context, w: World, step: Step)
    ensures SameBooks(w, Outside(ctx, w, step))
  {
  }

  lemma OutsideStepInv(ctx: Context, w: World, step: Step)
    requires Inv(ctx, w)
    ensures Inv(ctx, Outside(ctx, w, step))
  {
    OutsideBooks(ctx, w, step);
    SameBooksInv(ctx, w, Outside(ctx, w, step));
  }

  /** Every step keeps the invariant. */
  lemma NextInv(ctx: Context, w: World, step: Step)
    requires Inv(ctx, w) && KeepLastRuns(ctx) >= 1 && Fresh(w, step)
    ensures Inv(ctx, Apply(ctx, w, step))
  {
    if step.LayerStep? {
      LayerStepInv(ctx, w, step.layer);
    } else if step.RunStep? {
      RunStepInv(ctx, w, step.run, step.choice);
    } else if IsPodStep(step) {
      PodStepInv(ctx, w, step);
    } else if IsRunnerStep(step) {
      RunnerStepInv(ctx, w, step);
    } else {
      OutsideStepInv(ctx, w, step);
    }
  }

  // ---- what each step can change ----

  /** One pod moves forward or goes; an active pod stays active only by starting. */
  ghost predicate PodMoves(w: World, w': World, p: PodName) {
    && OnlyPods(w, w') && w'.applied == w.applied
    && w'.pods.Keys <= w.pods.Keys && w.pods.Keys - {p} <= w'.pods.Keys
    && (forall q :: q in w'.pods && q != p ==> w'.pods[q] == w.pods[q])
    && (p in w'.pods ==>
          && w'.pods[p] == w.pods[p].(phase := w'.pods[p].phase)
          && (w'.pods[p] == w.pods[p]
              || (w'.pods[p].phase == PodRunning && w.pods[p].phase == PodPending)
              || (w'.pods[p].phase == PodFailed && Active(w.pods[p]))
              || (w'.pods[p].phase == PodSucceeded && Active(w.pods[p]) && w.pods[p].progress == Published)))
  }

  /** A runner writes artifacts and annotations, never a run or a pod's phase. */
  ghost predicate RunnerWrites(w: World, w': World) {
    && w'.status == w.status && w'.runs == w.runs && w'.runNames == w.runNames && w'.podNames == w.podNames
    && w'.now == w.now && w'.pods.Keys == w.pods.Keys
    && (forall p :: p in w.pods ==> w'.pods[p] == w.pods[p].(progress := w'.pods[p].progress))
  }

  ghost predicate OutsideChanges(w: World, w': World) {
    && w'.status == w.status && w'.runs == w.runs && w'.runNames == w.runNames && w'.pods == w.pods
    && w'.podNames == w.podNames && w'.plans == w.plans && w'.applied == w.applied && w'.now >= w.now
  }

  ghost predicate Effect(ctx: Context, w: World, step: Step, w': World) {
    if step.LayerStep? then LayerEffect(ctx, w, w', step.layer)
    else if step.RunStep? then
      if Reconciles(w, step.run, step.choice) then RunEffect(ctx, w, w', step.run, step.choice) else w' == w
    else if IsPodStep(step) then PodMoves(w, w', step.pod) && (Gone(w, w', step.pod) ==> step.VanishPod?)
    else if IsRunnerStep(step) then RunnerWrites(w, w')
    else OutsideChanges(w, w')
  }

  predicate Gone(w: World, w': World, p: PodName) {
    p in w.pods && p !in w'.pods
  }

  lemma PodStepEffect(w: World, step: Step)
    requires IsPodStep(step)
    ensures PodMoves(w, PodLife(w, step), step.pod)
    ensures Gone(w, PodLife(w, step), step.pod) ==> step.VanishPod?
  {
  }

  lemma RunnerStepEffect(ctx: Context, w: World, step: Step)
    ensures RunnerWrites(w, RunnerDoes(ctx, w, step))
  {
  }

  lemma NextEffect(ctx: Context, w: World, step: Step)
    requires RunsOk(w) && Fresh(w, step)
    ensures Effect(ctx, w, step, Apply(ctx, w, step))
  {
    if step.LayerStep? {
      assert forall r :: r in w.runs ==> RunOk(w, r);
      LayerStepEffect(ctx, w, step.layer);
    } else if step.RunStep? {
      if Reconciles(w, step.run, step.choice) {
        RunStepCases(ctx, w, step.run, step.choice);
      }
    } else if IsPodStep(step) {
      PodStepEffect(w, step);
    } else {
      RunnerStepEffect(ctx, w, step);
    }
  }

  /** While nothing runs, steps other than the layer controller's and commits leave alone what it decides by, but for
      requests and the clock. */
  lemma IdleNext(ctx: Context, w: World, step: Step, w': World)
    requires Inv(ctx, w) && !LC.IsRunning(w) && Next(ctx, w, step, w') && !step.LayerStep? && !step.SeeCommit?
    ensures w'.runs == w.runs && w'.runNames == w.runNames && w'.status == w.status && w'.now >= w.now
    ensures w'.ann == w.ann.(syncNow := w'.ann.syncNow, applyNow := w'.ann.applyNow)
    ensures !step.RequestSync? && !step.RequestApply? ==> w'.ann == w.ann
  {
    IdleMeansDone(ctx, w);
  }

  /** The invariant and the effect of each step, all along a path. */
  lemma PathEffect(ctx: Context, ws: seq<World>, steps: seq<Step>, i: nat)
    requires Path(ctx, ws, steps) && KeepLastRuns(ctx) >= 1 && Inv(ctx, ws[0]) && i < |steps|
    ensures Inv(ctx, ws[i]) && Inv(ctx, ws[i + 1]) && Fresh(ws[i], steps[i])
    ensures Effect(ctx, ws[i], steps[i], ws[i + 1])
  {
    PathInv(ctx, ws, steps, i);
    PathInv(ctx, ws, steps, i + 1);
    assert NextAt(ctx, ws, steps, i);
    NextEffect(ctx, ws[i], steps[i]);
  }

  /** The invariant holds all along a path that starts with it. */
  lemma {:induction false} PathInv(ctx: Context, ws: seq<World>, steps: seq<Step>, i: nat)
    requires Path(ctx, ws, steps) && KeepLastRuns(ctx) >= 1 && Inv(ctx, ws[0]) && i <= |steps|
    ensures Inv(ctx, ws[i])
  {
    if i > 0 {
      PathInv(ctx, ws, steps, i - 1);
      assert NextAt(ctx, ws, steps, i - 1);
      NextInv(ctx, ws[i - 1], steps[i - 1]);
    }
  }

  lemma ReachedInv(ctx: Context, ws: seq<World>, steps: seq<Step>)
    requires Execution(ctx, ws, steps) && KeepLastRuns(ctx) >= 1
    ensures Inv(ctx, ws[|steps|])
  {
    InitInv(ctx, ws[0]);
    PathInv(ctx, ws, steps, |steps|);
  }

  /** The run decided on is made and becomes the last one. */
  lemma OfferTaken(ctx: Context, w: World, q: RunName, run: Run)
    requires Inv(ctx, w) && KeepLastRuns(ctx) >= 1 && q !in w.runNames
    requires LC.Decide(ctx, w, LC.GetState(ctx, w), Offer(true, q)) == LC.Create(run)
    ensures var w' := LC.ReconcileLayer(ctx, w, Offer(true, q));
            && w'.ann == LC.Unmark(w, Offer(true, q)) && w'.applied == w.applied && w'.plans == w.plans
            && w'.pods == w.pods && w'.podNames == w.podNames && w'.now == w.now && w'.runNames == w.runNames + {q}
            && q in w'.runs && w'.runs[q] == run && IsLast(w', q)
  {
    var state, keep := LC.GetState(ctx, w), KeepLastRuns(ctx);
    var w1 := LC.Recorded(w, state, Offer(true, q), run, keep);
    CreateHistory(ctx, w, state, Offer(true, q), run);
    CleanupDeletes(ctx, w1, {});
    assert IsLast(w1, q);
  }
}
