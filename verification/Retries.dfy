/** Runs end: a measure that every change lowers, the bound on attempts, and the waiting between them. */
module Retries {
  import opened Resources
  import RC = RunController
  import opened Protocol
  import opened Invariant

  // ---- measure ----

  /** Retries that remain. */
  function Left(ctx: Context, st: RunStatus): nat {
    if st.retries < MaxRetries(ctx) then MaxRetries(ctx) - st.retries else 0
  }

  function PhaseRank(phase: PodPhase): nat {
    match phase
    case PodPending => 3
    case PodRunning => 2
    case PodSucceeded => 1
    case PodFailed => 1
    case PodUnknown => 0
  }

  /** How far the state lags behind what the pod's phase will make of it. */
  function StateRank(ctx: Context, st: RunStatus, phase: PodPhase, now: int): nat {
    match phase
    case PodFailed =>
      if st.state == FailureGracePeriod then 1
      else if st.state == Retrying && !RC.IsInFailureGracePeriod(ctx, st, phase, now) then 0
      else 2
    case PodSucceeded => 0
    case PodUnknown => if st.state == Retrying then 0 else 1
    case _ => if st.state == Running then 0 else 1
  }

  function StatusMeasure(ctx: Context, st: RunStatus, phase: PodPhase, now: int): nat {
    if Terminal(st.state) then 0
    else if st.state == NoStatus then 14 + 12 * Left(ctx, st)
    else 1 + 12 * Left(ctx, st) + 3 * PhaseRank(phase) + StateRank(ctx, st, phase, now)
  }

  function Measure(ctx: Context, w: World, r: RunName): nat {
    if r in w.runs then
      StatusMeasure(ctx, w.runs[r].status, RC.PhaseOf(w.pods, w.runs[r].status.runnerPod), w.now)
    else 0
  }

  /** The run's state, retry count or pod changed, or its pod changed phase: anything but waiting. */
  predicate Moves(w: World, w': World, r: RunName) {
    && r in w.runs && r in w'.runs
    && var st, st' := w.runs[r].status, w'.runs[r].status;
    && (st'.state != st.state || st'.retries != st.retries || st'.runnerPod != st.runnerPod
        || (!Terminal(st.state) && RC.PhaseOf(w'.pods, st'.runnerPod) != RC.PhaseOf(w.pods, st.runnerPod)))
  }

  ghost predicate Descends(ctx: Context, w: World, w': World, r: RunName) {
    Measure(ctx, w', r) <= Measure(ctx, w, r) && (Moves(w, w', r) ==> Measure(ctx, w', r) < Measure(ctx, w, r))
  }

  /** A reconciliation that keeps the pod lowers the measure unless the state stays. */
  lemma KeepingDescends(ctx: Context, st: RunStatus, st': RunStatus, phase: PodPhase, now: int)
    requires AttemptsOk(st) && !Terminal(st.state) && (st.state == NoStatus ==> st.attempts == [])
    requires st'.retries == st.retries && st'.lastRun == st.lastRun
    requires st'.state == RC.GetState(ctx, st, phase, now)
    requires phase == PodPending || phase == PodRunning ==> RC.IsRunning(st, phase)
    requires st.runnerPod.None? ==> phase == PodUnknown
    ensures if st'.state == st.state then StatusMeasure(ctx, st', phase, now) == StatusMeasure(ctx, st, phase, now)
            else StatusMeasure(ctx, st', phase, now) < StatusMeasure(ctx, st, phase, now)
  {
  }

  /** So does one that makes a pod: an attempt is used up, or the first status is written. */
  lemma MakingDescends(ctx: Context, st: RunStatus, st': RunStatus, phase: PodPhase, now: int)
    requires !Terminal(st.state) && (st.state == NoStatus ==> st.retries == 0)
    requires st'.state == RC.GetState(ctx, st, phase, now) && (st'.state == Initial || st'.state == Retrying)
    requires st'.retries == (if st'.state == Initial then 0 else st.retries + 1)
    ensures StatusMeasure(ctx, st', PodPending, now) < StatusMeasure(ctx, st, phase, now)
  {
  }

  lemma RunEffectDescends(ctx: Context, w: World, w': World, q: RunName, ch: RC.RunChoice, r: RunName)
    requires RunsOk(w) && PodsOk(w) && ch.pod !in w.podNames && r in w.runs
    requires Reconciles(w, q, ch) && RunEffect(ctx, w, w', q, ch)
    ensures Descends(ctx, w, w', r)
  {
    assert RunOk(w, r);
    var st, st' := w.runs[r].status, w'.runs[r].status;
    var phase := RC.PhaseOf(w.pods, st.runnerPod);
    if st.runnerPod.Some? {
      assert st.runnerPod.value in w.podNames;
    }
    if q != r {
      assert RC.PhaseOf(w'.pods, st.runnerPod) == phase;
    } else if MakesPod(st'.state, ch) {
      MakingDescends(ctx, st, st', phase, w.now);
    } else {
      if phase == PodPending || phase == PodRunning {
        assert w.pods[st.runnerPod.value].run == r;
        ActiveMeansRunning(ctx, w, st.runnerPod.value);
      }
      KeepingDescends(ctx, st, st', phase, w.now);
    }
  }

  /** A step that leaves the runs alone. */
  lemma OtherEffectDescends(ctx: Context, w: World, w': World, r: RunName)
    requires r in w.runs && AttemptsOk(w.runs[r].status) && w.now <= w'.now
    requires w.runs[r].status.state == NoStatus ==> w.runs[r].status.attempts == []
    requires r in w'.runs ==> w'.runs[r] == w.runs[r]
    requires var pod := w.runs[r].status.runnerPod;
             RC.PhaseOf(w'.pods, pod) == RC.PhaseOf(w.pods, pod)
             || PhaseRank(RC.PhaseOf(w'.pods, pod)) < PhaseRank(RC.PhaseOf(w.pods, pod))
    ensures Descends(ctx, w, w', r)
  {
  }

  lemma PodMovesDown(w: World, w': World, p: PodName, pod: Option<PodName>)
    requires PodsOk(w) && PodMoves(w, w', p)
    ensures RC.PhaseOf(w'.pods, pod) == RC.PhaseOf(w.pods, pod)
            || PhaseRank(RC.PhaseOf(w'.pods, pod)) < PhaseRank(RC.PhaseOf(w.pods, pod))
  {
  }

  /** Every step that moves a run lowers its measure, and no step raises it: for any retry limit and any clock. */
  lemma EveryMoveDescends(ctx: Context, w: World, step: Step, w': World, r: RunName)
    requires RunsOk(w) && PodsOk(w) && Fresh(w, step) && Effect(ctx, w, step, w') && r in w.runs
    ensures Descends(ctx, w, w', r)
  {
    assert RunOk(w, r);
    if step.RunStep? && Reconciles(w, step.run, step.choice) {
      RunEffectDescends(ctx, w, w', step.run, step.choice, r);
    } else {
      if IsPodStep(step) {
        PodMovesDown(w, w', step.pod, w.runs[r].status.runnerPod);
      }
      OtherEffectDescends(ctx, w, w', r);
    }
  }

  /** How many of the first n steps move the run. */
  ghost function Moved(ws: seq<World>, r: RunName, n: nat): nat
    requires n < |ws|
  {
    if n == 0 then 0 else Moved(ws, r, n - 1) + (if Moves(ws[n - 1], ws[n], r) then 1 else 0)
  }

  /** Once a run is deleted it is not there to be moved: its name is not reused. */
  lemma GoneStaysGone(ctx: Context, w: World, step: Step, w': World, r: RunName)
    requires Fresh(w, step) && Effect(ctx, w, step, w') && r in w.runNames
    ensures r in w'.runNames && (r !in w.runs ==> r !in w'.runs)
  {
  }

  lemma MovesStepAt(ctx: Context, ws: seq<World>, steps: seq<Step>, r: RunName, j: nat)
    requires Path(ctx, ws, steps) && KeepLastRuns(ctx) >= 1 && Inv(ctx, ws[0]) && j < |steps| && r in ws[j].runNames
    ensures r in ws[j + 1].runNames
    ensures Moved(ws, r, j + 1) + Measure(ctx, ws[j + 1], r) <= Moved(ws, r, j) + Measure(ctx, ws[j], r)
  {
    PathEffect(ctx, ws, steps, j);
    GoneStaysGone(ctx, ws[j], steps[j], ws[j + 1], r);
    if r in ws[j].runs {
      EveryMoveDescends(ctx, ws[j], steps[j], ws[j + 1], r);
    }
  }

  lemma {:induction false} MovesAreBounded(ctx: Context, ws: seq<World>, steps: seq<Step>, r: RunName, n: nat)
    requires Path(ctx, ws, steps) && KeepLastRuns(ctx) >= 1 && Inv(ctx, ws[0]) && r in ws[0].runs && n <= |steps|
    ensures Moved(ws, r, n) + Measure(ctx, ws[n], r) <= Measure(ctx, ws[0], r)
    ensures r in ws[n].runNames
  {
    if n == 0 {
      assert RunOk(ws[0], r);
    } else {
      var j := n - 1;
      MovesAreBounded(ctx, ws, steps, r, j);
      MovesStepAt(ctx, ws, steps, r, j);
    }
  }

  /** Whatever the pods, the leases, the limits and the clock do, a run moves at most 12 (M + 1) + 2 times in its
      life, M being the retry limit (or 0 when the limit is negative). */
  lemma RunsEnd(ctx: Context, ws: seq<World>, steps: seq<Step>, r: RunName, n: nat)
    requires Path(ctx, ws, steps) && KeepLastRuns(ctx) >= 1 && Inv(ctx, ws[0]) && r in ws[0].runs && n <= |steps|
    ensures Moved(ws, r, n) <= 12 * ((if MaxRetries(ctx) > 0 then MaxRetries(ctx) else 0) + 1) + 2
  {
    MovesAreBounded(ctx, ws, steps, r, n);
  }

  // ---- attempts ----

  /** The retry count stays within the limit. */
  ghost predicate WithinLimit(ctx: Context, w: World) {
    forall r :: r in w.runs ==> w.runs[r].status.retries <= 0 || w.runs[r].status.retries <= MaxRetries(ctx)
  }

  lemma WithinLimitNext(ctx: Context, w: World, step: Step, w': World)
    requires Effect(ctx, w, step, w') && WithinLimit(ctx, w)
    ensures WithinLimit(ctx, w')
  {
  }

  lemma {:induction false} WithinLimitAlong(ctx: Context, ws: seq<World>, steps: seq<Step>, i: nat)
    requires Path(ctx, ws, steps) && KeepLastRuns(ctx) >= 1 && Inv(ctx, ws[0]) && i <= |steps|
    requires WithinLimit(ctx, ws[0])
    ensures WithinLimit(ctx, ws[i])
  {
    if i > 0 {
      WithinLimitAlong(ctx, ws, steps, i - 1);
      PathEffect(ctx, ws, steps, i - 1);
      WithinLimitNext(ctx, ws[i - 1], steps[i - 1], ws[i]);
    }
  }

  /** In every reachable state a run's attempts carry consecutive numbers from 0 or 1 to its retry count, the last
      one is the runner pod's, and there are at most M + 1 of them. */
  lemma AttemptsAreNumbered(ctx: Context, ws: seq<World>, steps: seq<Step>, i: nat, r: RunName)
    requires Execution(ctx, ws, steps) && KeepLastRuns(ctx) >= 1 && i <= |steps| && r in ws[i].runs
    ensures var st := ws[i].runs[r].status;
            && AttemptsOk(st)
            && |st.attempts| <= (if MaxRetries(ctx) > 0 then MaxRetries(ctx) else 0) + 1
  {
    InitInv(ctx, ws[0]);
    WithinLimitAlong(ctx, ws, steps, i);
    PathInv(ctx, ws, steps, i);
    assert RunOk(ws[i], r);
  }

  // ---- waiting between attempts ----

  /** The grace periods of attempts from up to, but not including, to. */
  ghost function Waits(ctx: Context, from: nat, to: nat): int
    requires from <= to
  {
    if from == to then 0 else Waits(ctx, from, to - 1) + ctx.settings.backoff(to - 1)
  }

  /** The pod of a run in progress is removed from outside. */
  predicate LosesPod(w: World, step: Step) {
    && step.VanishPod? && step.pod in w.pods && w.pods[step.pod].run in w.runs
    && !Terminal(w.runs[w.pods[step.pod].run].status.state)
  }

  /** The last attempt began no earlier than the run was made plus the grace periods of the attempts before it. */
  ghost predicate WaitedFor(ctx: Context, w: World, r: RunName)
    requires r in w.runs
  {
    var st := w.runs[r].status;
    && w.runs[r].created <= w.now
    && (AttemptsOk(st) && st.attempts != [] ==>
          && (!Terminal(st.state) ==> st.runnerPod.value in w.pods)
          && st.lastRun.time >= w.runs[r].created + Waits(ctx, st.attempts[0].number, st.retries))
  }

  ghost predicate Waited(ctx: Context, w: World) {
    forall r :: r in w.runs ==> WaitedFor(ctx, w, r)
  }

  /** One retry: it comes no earlier than the grace period of the attempt it replaces. */
  lemma RetryWaits(ctx: Context, w: World, w': World, r: RunName, ch: RC.RunChoice)
    requires RunsOk(w) && PodsOk(w) && Reconciles(w, r, ch) && RunEffect(ctx, w, w', r, ch)
    requires MakesPod(Decided(ctx, w, r), ch) && w.runs[r].status.attempts != []
    requires AttemptsOk(w.runs[r].status) && w.runs[r].status.runnerPod.value in w.pods
    ensures var st, st' := w.runs[r].status, w'.runs[r].status;
            && w.pods[st.runnerPod.value].phase == PodFailed
            && st'.lastRun == At(w.now) && st'.retries == st.retries + 1
            && w.now >= st.lastRun.time + ctx.settings.backoff(st.retries)
  {
  }

  lemma WaitedMade(ctx: Context, w: World, w': World, r: RunName, ch: RC.RunChoice)
    requires RunsOk(w) && PodsOk(w) && r in w.runs && WaitedFor(ctx, w, r)
    requires Reconciles(w, r, ch) && RunEffect(ctx, w, w', r, ch) && MakesPod(Decided(ctx, w, r), ch)
    ensures WaitedFor(ctx, w', r)
  {
    assert RunOk(w, r);
    var st, st' := w.runs[r].status, w'.runs[r].status;
    if st.attempts != [] {
      RetryWaits(ctx, w, w', r, ch);
      assert st'.attempts[0].number == st.attempts[0].number;
    } else {
      assert Waits(ctx, st'.attempts[0].number, st'.retries) == 0;
    }
  }

  lemma WaitedKept(ctx: Context, w: World, w': World, r: RunName, ch: RC.RunChoice)
    requires r in w.runs && WaitedFor(ctx, w, r) && AttemptsOk(w.runs[r].status) && !Terminal(w.runs[r].status.state)
    requires RunEffect(ctx, w, w', r, ch) && !MakesPod(Decided(ctx, w, r), ch)
    ensures WaitedFor(ctx, w', r)
  {
  }

  lemma WaitedRun(ctx: Context, w: World, w': World, r: RunName, ch: RC.RunChoice)
    requires RunsOk(w) && PodsOk(w) && r in w.runs && WaitedFor(ctx, w, r)
    requires Reconciles(w, r, ch) && RunEffect(ctx, w, w', r, ch)
    ensures WaitedFor(ctx, w', r)
  {
    assert RunOk(w, r);
    if MakesPod(Decided(ctx, w, r), ch) {
      WaitedMade(ctx, w, w', r, ch);
    } else {
      WaitedKept(ctx, w, w', r, ch);
    }
  }

  lemma WaitedOther(ctx: Context, w: World, step: Step, w': World, r: RunName)
    requires RunsOk(w) && PodsOk(w) && r in w.runs && WaitedFor(ctx, w, r) && Fresh(w, step) && !LosesPod(w, step)
    requires Effect(ctx, w, step, w') && r in w'.runs && w'.runs[r] == w.runs[r]
    ensures WaitedFor(ctx, w', r)
  {
    PodStays(ctx, w, step, w', r);
    assert w'.now >= w.now;
  }

  /** The pod of a run in progress stays unless it is removed from outside. */
  lemma PodStays(ctx: Context, w: World, step: Step, w': World, r: RunName)
    requires PodsOk(w) && r in w.runs && !LosesPod(w, step) && Effect(ctx, w, step, w')
    ensures !Terminal(w.runs[r].status.state) && w.runs[r].status.runnerPod.Some?
            && w.runs[r].status.runnerPod.value in w.pods ==>
              w.runs[r].status.runnerPod.value in w'.pods
  {
  }

  lemma WaitedNext(ctx: Context, w: World, step: Step, w': World)
    requires Inv(ctx, w) && Waited(ctx, w) && Fresh(w, step) && !LosesPod(w, step)
    requires Effect(ctx, w, step, w')
    ensures Waited(ctx, w')
  {
    forall r | r in w'.runs ensures WaitedFor(ctx, w', r) {
      if r in w.runs && w'.runs[r] == w.runs[r] {
        WaitedOther(ctx, w, step, w', r);
      } else if step.RunStep? {
        WaitedRun(ctx, w, w', r, step.choice);
      }
    }
  }

  /** Over any execution in which no pod of a run in progress is removed from outside, every attempt of a run begins
      no earlier than the run's creation plus the grace periods of all earlier attempts. */
  lemma {:induction false} RetriesWait(ctx: Context, ws: seq<World>, steps: seq<Step>, i: nat)
    requires Execution(ctx, ws, steps) && KeepLastRuns(ctx) >= 1 && i <= |steps|
    requires forall k :: 0 <= k < i ==> !LosesPod(ws[k], steps[k])
    ensures Waited(ctx, ws[i])
  {
    if i > 0 {
      RetriesWait(ctx, ws, steps, i - 1);
      InitInv(ctx, ws[0]);
      PathEffect(ctx, ws, steps, i - 1);
      WaitedNext(ctx, ws[i - 1], steps[i - 1], ws[i]);
    }
  }
}
