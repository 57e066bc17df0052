/** At most one runner pod of a layer is active, no run in progress is deleted, and the history stays bounded. */
module Exclusion {
  import opened Resources
  import RC = RunController
  import LC = LayerController
  import opened Protocol
  import opened Invariant

  /** What the leases and the two controllers' bookkeeping are for. */
  ghost predicate Exclusive(w: World) {
    && (forall p, q :: p in w.pods && q in w.pods && Active(w.pods[p]) && Active(w.pods[q]) ==> p == q)
    && (forall r :: r in w.runs && !IsLast(w, r) ==> Terminal(w.runs[r].status.state))
    && (forall p :: p in w.pods && Active(w.pods[p]) ==>
          && w.pods[p].run in w.runs
          && w.runs[w.pods[p].run].status.state in {Initial, Retrying, Running}
          && w.runs[w.pods[p].run].status.runnerPod == Some(p))
  }

  lemma InvExclusive(ctx: Context, w: World)
    requires Inv(ctx, w)
    ensures Exclusive(w)
  {
    forall p | p in w.pods && Active(w.pods[p])
      ensures Drives(w, p) && forall q :: q in w.pods && Active(w.pods[q]) ==> q == p
    {
      WorkerFacts(ctx, w, p);
    }
    forall r | r in w.runs && !IsLast(w, r) ensures Terminal(w.runs[r].status.state) {
      assert RunOk(w, r);
    }
  }

  /** In every reachable state, for any outcome of any lock. */
  lemma ExclusionHolds(ctx: Context, ws: seq<World>, steps: seq<Step>, i: nat)
    requires Execution(ctx, ws, steps) && i <= |steps| && KeepLastRuns(ctx) >= 1
    ensures Exclusive(ws[i])
  {
    InitInv(ctx, ws[0]);
    PathInv(ctx, ws, steps, i);
    InvExclusive(ctx, ws[i]);
  }

  // ---- a history policy that keeps nothing ----

  /** The layer after its first commit, with the given new runs on it and no history. */
  function Committed(runs: map<RunName, Run>, pods: map<PodName, Pod>): World {
    NEW_LAYER.(
      ann := NOTHING.(
        branchCommit := Some("c"), branchDate := At(0), relevantCommit := Some("c"), relevantDate := At(0)),
      runs := runs, runNames := runs.Keys, pods := pods, podNames := pods.Keys)
  }

  const PLAN_RUN := Run(PlanAction, "c", None, 0, true, NEW_STATUS)

  /** Without a history the reconciliation that makes a run panics before it records the run. */
  lemma UnrecordedRun(ctx: Context, runs: map<RunName, Run>, pods: map<PodName, Pod>, name: RunName)
    requires KeepLastRuns(ctx) <= 0
    ensures LC.ReconcileLayer(ctx, Committed(runs, pods), Offer(true, name)) == Committed(runs[name := PLAN_RUN], pods)
  {
    var w := Committed(runs, pods);
    assert LC.GetState(ctx, w) == PlanNeeded;
    assert LC.Decide(ctx, w, PlanNeeded, Offer(true, name)) == LC.Create(PLAN_RUN);
    assert runs[name := PLAN_RUN].Keys == runs.Keys + {name};
  }

  /** A new run that gets the lease gets a pod; one that does not is left in Initial without a pod. */
  lemma Served(
    ctx: Context, runs: map<RunName, Run>, pods: map<PodName, Pod>, name: RunName, locked: bool, pod: PodName)
    requires name in runs && runs[name] == PLAN_RUN && pod !in pods
    ensures RC.ReconcileRun(ctx, Committed(runs, pods), name, Serve(locked, pod)) ==
            if locked then
              Committed(
                runs[name := PLAN_RUN.(status := RunStatus(Initial, 0, At(0), Some(pod), [Attempt(pod, 0, false)]))],
                pods[pod := Pod(name, 0, PodPending, Started)])
            else
              Committed(runs[name := PLAN_RUN.(status := NEW_STATUS.(state := Initial))], pods)
  {
    Unlogged(NEW_STATUS, Initial, Serve(locked, pod), PodsAfterServing(pods, name, 0, locked, pod));
    assert runs[name := PLAN_RUN].Keys == runs.Keys;
    assert pods[pod := Pod(name, 0, PodPending, Started)].Keys == pods.Keys + {pod};
  }

  function PodsAfterServing(pods: map<PodName, Pod>, name: RunName, attempt: nat, made: bool, pod: PodName)
    : map<PodName, Pod>
  {
    if made then pods[pod := Pod(name, attempt, PodPending, Started)] else pods
  }

  /** With no logs to upload the attempts are those of the handler. */
  lemma Unlogged(st: RunStatus, state: RunState, ch: RC.RunChoice, pods: map<PodName, Pod>)
    requires st.attempts == [] && ch.logs == map[]
    ensures var info := RC.Handle(state, st, 0, ch);
            RC.StatusAfter(st, state, info, pods, ch.logs).attempts ==
            if info.newPod && info.runnerPod.Some? then [Attempt(info.runnerPod.value, info.retries, false)] else []
  {
  }

  /** The next reconciliation of a run left without a pod: a retry while retries are allowed. */
  lemma ServedByRetry(ctx: Context, runs: map<RunName, Run>, pods: map<PodName, Pod>, name: RunName, pod: PodName)
    requires name in runs && runs[name] == UNSERVED && pod !in pods && MaxRetries(ctx) >= 1
    ensures RC.ReconcileRun(ctx, Committed(runs, pods), name, Serve(false, pod)) ==
            Committed(
              runs[name := PLAN_RUN.(status := RunStatus(Retrying, 1, At(0), Some(pod), [Attempt(pod, 1, false)]))],
              pods[pod := Pod(name, 1, PodPending, Started)])
  {
    Unlogged(UNSERVED.status, Retrying, Serve(false, pod), PodsAfterServing(pods, name, 1, true, pod));
    assert RC.GetState(ctx, UNSERVED.status, PodUnknown, 0) == Retrying;
    assert RC.Handle(Retrying, UNSERVED.status, 0, Serve(false, pod)) == RC.RunInfo(1, At(0), Some(pod), true);
    assert runs[name := PLAN_RUN].Keys == runs.Keys;
    assert pods[pod := Pod(name, 1, PodPending, Started)].Keys == pods.Keys + {pod};
  }

  /** Else a failure. */
  lemma FailedUnserved(ctx: Context, runs: map<RunName, Run>, pods: map<PodName, Pod>, name: RunName, pod: PodName)
    requires name in runs && runs[name] == UNSERVED && MaxRetries(ctx) < 1
    ensures RC.ReconcileRun(ctx, Committed(runs, pods), name, Serve(false, pod)) ==
            Committed(runs[name := PLAN_RUN.(status := NEW_STATUS.(state := Failed))], pods)
  {
  }

  const UNSERVED := PLAN_RUN.(status := NEW_STATUS.(state := Initial))
  const SERVED := PLAN_RUN.(status := RunStatus(Initial, 0, At(0), Some("x"), [Attempt("x", 0, false)]))
  const POD := Pod("a", 0, PodPending, Started)

  /** With no history two runs are made in a row. */
  lemma TwoLiveRuns(ctx: Context) returns (ws: seq<World>, steps: seq<Step>)
    requires KeepLastRuns(ctx) <= 0
    ensures Execution(ctx, ws, steps) && ws[|steps|] == Committed(map["a" := PLAN_RUN, "b" := PLAN_RUN], map[])
  {
    ws, steps := PathExtend(ctx, [NEW_LAYER], [], SeeCommit("c", true));
    assert ws[|steps|] == Committed(map[], map[]);
    UnrecordedRun(ctx, map[], map[], "a");
    ws, steps := PathExtend(ctx, ws, steps, LayerStep(Offer(true, "a")));
    UnrecordedRun(ctx, map["a" := PLAN_RUN], map[], "b");
    ws, steps := PathExtend(ctx, ws, steps, LayerStep(Offer(true, "b")));
  }

  /** Only the first of them gets the lease, and a pod. */
  lemma OneLiveLease(ctx: Context) returns (ws: seq<World>, steps: seq<Step>)
    requires KeepLastRuns(ctx) <= 0
    ensures Execution(ctx, ws, steps) && ws[|steps|] == Committed(map["a" := SERVED, "b" := UNSERVED], map["x" := POD])
  {
    ws, steps := TwoLiveRuns(ctx);
    Served(ctx, map["a" := PLAN_RUN, "b" := PLAN_RUN], map[], "a", true, "x");
    ws, steps := PathExtend(ctx, ws, steps, RunStep("a", Serve(true, "x")));
    assert ws[|steps|] == Committed(map["a" := SERVED, "b" := PLAN_RUN], map["x" := POD]);
    Served(ctx, map["a" := SERVED, "b" := PLAN_RUN], map["x" := POD], "b", false, "y");
    ws, steps := PathExtend(ctx, ws, steps, RunStep("b", Serve(false, "y")));
  }

  /** The second run gets a pod beside the first one's: by retrying without the lease when retries are allowed,
      else through a third run once the second one's failure has released the lease. */
  lemma KeepNothingBreaksExclusion(ctx: Context) returns (ws: seq<World>, steps: seq<Step>)
    requires KeepLastRuns(ctx) <= 0
    ensures Execution(ctx, ws, steps) && !Exclusive(ws[|steps|])
  {
    ws, steps := OneLiveLease(ctx);
    if MaxRetries(ctx) >= 1 {
      ServedByRetry(ctx, map["a" := SERVED, "b" := UNSERVED], map["x" := POD], "b", "y");
    } else {
      FailedUnserved(ctx, map["a" := SERVED, "b" := UNSERVED], map["x" := POD], "b", "y");
    }
    ws, steps := PathExtend(ctx, ws, steps, RunStep("b", Serve(false, "y")));
    if MaxRetries(ctx) < 1 {
      var runs := map["a" := SERVED, "b" := PLAN_RUN.(status := NEW_STATUS.(state := Failed))];
      assert ws[|steps|] == Committed(runs, map["x" := POD]);
      UnrecordedRun(ctx, runs, map["x" := POD], "d");
      ws, steps := PathExtend(ctx, ws, steps, LayerStep(Offer(true, "d")));
      Served(ctx, runs["d" := PLAN_RUN], map["x" := POD], "d", true, "y");
      ws, steps := PathExtend(ctx, ws, steps, RunStep("d", Serve(true, "y")));
    }
    assert ws[|steps|].pods["x"] == POD && Active(ws[|steps|].pods["y"]);
  }

  /** Exclusion holds in every reachable state exactly when the history policy keeps at least one run. */
  lemma ExclusionIffHistoryKept(ctx: Context)
    ensures (forall ws, steps, i: nat :: Execution(ctx, ws, steps) && i <= |steps| ==> Exclusive(ws[i]))
            <==> KeepLastRuns(ctx) >= 1
  {
    if KeepLastRuns(ctx) >= 1 {
      forall ws, steps, i: nat | Execution(ctx, ws, steps) && i <= |steps| ensures Exclusive(ws[i]) {
        ExclusionHolds(ctx, ws, steps, i);
      }
    } else {
      var ws, steps := KeepNothingBreaksExclusion(ctx);
    }
  }

  // ---- cleanup and history ----

  /** No reconciliation deletes a run in progress, nor the last run. */
  lemma CleanupSparesLiveRuns(ctx: Context, w: World, ch: LC.LayerChoice, r: RunName)
    requires Inv(ctx, w) && KeepLastRuns(ctx) >= 1 && ch.run !in w.runNames
    requires r in w.runs && (!Terminal(w.runs[r].status.state) || IsLast(LC.ReconcileLayer(ctx, w, ch), r))
    ensures r in LC.ReconcileLayer(ctx, w, ch).runs
  {
    var w' := LC.ReconcileLayer(ctx, w, ch);
    assert RunOk(w, r);
    LayerStepInv(ctx, w, ch);
    assert IsLast(w', r) ==> w'.status.lastRun.value.name in w'.runs;
    if !ch.locked && IsLast(w, r) && !Terminal(w.runs[r].status.state) {
      assert LC.IsRunning(w);
    }
  }

  lemma {:induction false} FewNames(runs: seq<LayerRun>)
    ensures |LC.Names(runs)| <= |runs|
  {
    if runs != [] {
      FewNames(runs[1..]);
      assert LC.Names(runs) == {runs[0].name} + LC.Names(runs[1..]);
    }
  }

  lemma FewKeys<V>(m: map<RunName, V>, s: set<RunName>)
    requires m.Keys <= s
    ensures |m| <= |s|
  {
    assert |m.Keys| <= |s| by { SubsetSize(m.Keys, s); }
  }

  lemma {:induction false} SubsetSize<T>(a: set<T>, b: set<T>)
    requires a <= b
    ensures |a| <= |b|
  {
    if a != {} {
      var x :| x in a;
      SubsetSize(a - {x}, b - {x});
    }
  }

  lemma CleanedUp(w: World, keep: int)
    requires |w.status.latestRuns| <= keep
    ensures |LC.Cleanup(w, keep, {}).runs| <= keep
  {
    var w' := LC.Cleanup(w, keep, {});
    FewNames(w.status.latestRuns);
    if |w.runs| >= keep {
      FewKeys(w'.runs, LC.Names(w.status.latestRuns));
    }
  }

  /** After a reconciliation that runs to its end and deletes what it means to, at most keep runs remain. */
  lemma AtMostKeepRuns(ctx: Context, w: World, ch: LC.LayerChoice)
    requires Inv(ctx, w) && KeepLastRuns(ctx) >= 1 && ch.run !in w.runNames
    requires !ch.locked && ch.undeleted == {} && !LC.Decide(ctx, w, LC.GetState(ctx, w), ch).NoArtifact?
    ensures |LC.ReconcileLayer(ctx, w, ch).runs| <= KeepLastRuns(ctx)
  {
    var state, keep := LC.GetState(ctx, w), KeepLastRuns(ctx);
    match LC.Decide(ctx, w, state, ch) {
      case NoRun => CleanedUp(LC.Shown(w, state, ch), keep);
      case Create(run) =>
        UpdatedHistory(w.status.latestRuns, LayerRun(ch.run, run.created, run.action), keep, w.now);
        CleanedUp(LC.Recorded(w, state, ch, run, keep), keep);
    }
  }

  /** The entry that leaves a full history is the oldest one exactly when the search could see it: when
      some entry is dated before the clock, or when the first entry is the oldest anyway. */
  lemma EvictionIsOldestIff(runs: seq<LayerRun>, entry: LayerRun, keep: int, now: int)
    requires |runs| >= keep && runs != []
    ensures var k := LC.Oldest(runs, |runs|, now).0;
            && LC.UpdateLatestRuns(runs, entry, keep, now) == LC.Drop(runs, k) + [entry]
            && ((forall j :: 0 <= j < |runs| ==> runs[k].date <= runs[j].date) <==>
                 ((exists j :: 0 <= j < |runs| && runs[j].date < now)
                  || (forall j :: 0 <= j < |runs| ==> runs[0].date <= runs[j].date)))
  {
  }

  /** In a reachable state the evicted entry is always an oldest one: no recorded date is in the future. */
  lemma EvictionIsOldest(ctx: Context, w: World, entry: LayerRun)
    requires Inv(ctx, w) && |w.status.latestRuns| >= KeepLastRuns(ctx) >= 1
    ensures var runs, k := w.status.latestRuns, LC.Oldest(w.status.latestRuns, |w.status.latestRuns|, w.now).0;
            && LC.UpdateLatestRuns(runs, entry, KeepLastRuns(ctx), w.now) == LC.Drop(runs, k) + [entry]
            && forall e :: e in runs ==> runs[k].date <= e.date
  {
  }
}
