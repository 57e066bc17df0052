/** One layer with its runs, pods and plans, as the controllers, the runner and the API change it. Every method takes a
    step of the protocol: what is proved of the protocol holds of any sequence of calls. */
module LayerObjects {
  import opened Resources
  import RC = RunController
  import LC = LayerController
  import opened Protocol
  import opened AnnotationMap
  import opened Controllers

  /** How the API server lists the runs that exist: in any order, or not at all. */
  type Lister = set<RunName> -> Option<seq<RunName>>

  ghost predicate Faithful(list: Lister) {
    forall all :: list(all).Some? ==> Enumerates(list(all).value, all)
  }

  /** What a cleanup leaves of the runs it means to delete: all of them when the runs cannot be listed, else those that
      are refused and those it did not come to after the first refusal. */
  ghost predicate Spared(listed: bool, refused: set<RunName>, all: set<RunName>, undeleted: set<RunName>) {
    if !listed then undeleted == all
    else undeleted <= all && all * refused <= undeleted && (undeleted == {} <==> all * refused == {})
  }

  class Layer {
    const ctx: Context
    const dates: Dates
    var annotations: map<string, string>
    var status: LayerStatus
    var runs: map<RunName, Run>
    var pods: map<PodName, Pod>
    var plans: map<Coord, Bytes>
    var now: int
    var runNames: set<RunName>      // this and the next two are bookkeeping that no step decides on
    var podNames: set<PodName>
    var applied: seq<Coord>

    constructor (ctx: Context, dates: Dates, now: int)
      ensures this.ctx == ctx && this.dates == dates && Init(Snapshot())
    {
      this.ctx, this.dates, this.now := ctx, dates, now;
      annotations, status := map[], LayerStatus(Unreconciled, false, None, []);
      runs, pods, plans, runNames, podNames, applied := map[], map[], map[], {}, {}, [];
    }

    function Snapshot(): World
      reads this
    {
      World(View(dates, annotations), status, runs, runNames, pods, podNames, plans, applied, now)
    }

    // ---- the run controller ----

    method HandleRun(name: RunName, state: RunState, st: RunStatus, ch: RC.RunChoice) returns (info: RC.RunInfo)
      modifies this`pods, this`podNames
      ensures info == RC.Handle(state, st, now, ch)
      ensures pods == RC.PodsAfter(old(pods), name, info)
      ensures podNames == if info.newPod then old(podNames) + {ch.pod} else old(podNames)
    {
      match state {
        case Initial =>
          if !ch.locked || !ch.room || !ch.created {
            return RC.EMPTY_INFO;
          }
          pods, podNames := pods[ch.pod := Pod(name, 0, PodPending, Started)], podNames + {ch.pod};
          return RC.RunInfo(0, At(now), Some(ch.pod), true);
        case Retrying =>
          info := RC.GetRunInfo(st);
          if !ch.room || !ch.created {
            return;
          }
          pods, podNames := pods[ch.pod := Pod(name, info.retries + 1, PodPending, Started)], podNames + {ch.pod};
          return RC.RunInfo(info.retries + 1, At(now), Some(ch.pod), true);
        case _ =>
          return RC.GetRunInfo(st);
      }
    }

    /** The status to write, with one more attempt when a pod was made, and the logs of finished attempts uploaded. */
    method WriteStatus(st: RunStatus, state: RunState, info: RC.RunInfo, ch: RC.RunChoice) returns (st': RunStatus)
      ensures st' == RC.StatusAfter(st, state, info, pods, ch.logs)
    {
      var list := st.attempts;
      if info.newPod && info.runnerPod.Some? {
        list := list + [Attempt(info.runnerPod.value, info.retries, false)];
      }
      var attempts := new Attempt[|list|](i requires 0 <= i < |list| => list[i]);
      assert attempts[..] == list;
      UploadLogs(attempts, pods, ch.logs);
      return RunStatus(state, info.retries, info.lastRun, info.runnerPod, attempts[..]);
    }

    method ReconcileRun(name: RunName, ch: RC.RunChoice)
      modifies this`runs, this`pods, this`podNames
      ensures Snapshot() == RC.ReconcileRun(ctx, old(Snapshot()), name, ch)
    {
      if name !in runs {
        return;
      }
      var run := runs[name];
      var st := run.status;
      if st.state == Succeeded || st.state == Failed {
        return;
      }
      if !ch.bundleOk {
        return;
      }
      var state := RC.GetState(ctx, st, RC.PhaseOf(pods, st.runnerPod), now);
      var info := HandleRun(name, state, st, ch);
      var st' := WriteStatus(st, state, info, ch);
      runs := runs[name := run.(status := st')];
    }

    // ---- the layer controller ----

    /** Deletes runs one by one, up to the first that is refused. */
    method DeleteAll(names: seq<RunName>, refused: set<RunName>) returns (failed: bool, ghost undeleted: set<RunName>)
      requires forall i, j :: 0 <= i < j < |names| ==> names[i] != names[j]
      modifies this`runs
      ensures runs == old(runs) - ((set n | n in names) - undeleted)
      ensures Spared(true, refused, (set n | n in names), undeleted) && (failed <==> undeleted != {})
    {
      for i := 0 to |names|
        invariant runs == old(runs) - (set n | n in names[..i])
        invariant forall n :: n in names[..i] ==> n !in refused
      {
        if names[i] in refused {
          undeleted := set n | n in names[i..];
          assert names[i] in undeleted && names[i] in (set n | n in names) * refused;
          assert forall n :: n in names <==> n in names[..i] || n in names[i..];
          assert forall n :: n in names[..i] ==> n !in names[i..];
          return true, undeleted;
        }
        runs := runs - {names[i]};
        assert names[..i + 1] == names[..i] + [names[i]];
      }
      assert names[..|names|] == names;
      return false, {};
    }

    /** The runs to delete, when the runs can be listed. */
    method RunsOutsideHistory(keep: int, list: Lister) returns (toDelete: Option<seq<RunName>>)
      requires Faithful(list)
      ensures toDelete.Some? <==> list(runs.Keys).Some?
      ensures toDelete.Some? ==> Enumerates(toDelete.value, LC.ToDelete(runs, status.latestRuns, keep))
    {
      ToDeleteOf(runs, status.latestRuns, keep);
      var listed := list(runs.Keys);
      if listed.None? {
        return None;
      }
      EnumerationSize(listed.value, runs.Keys);
      if |listed.value| < keep {
        return Some([]);
      }
      var runsToKeep := RunsToKeep(status.latestRuns);
      var all := RunsToDelete(listed.value, runsToKeep, runs.Keys);
      return Some(all);
    }

    /** An error of the listing is passed over unless the policy keeps nothing. */
    method CleanupRuns(keep: int, list: Lister, refused: set<RunName>)
      returns (failed: bool, ghost undeleted: set<RunName>)
      requires Faithful(list)
      modifies this`runs
      ensures var all := LC.ToDelete(old(runs), status.latestRuns, keep);
              runs == old(runs) - (all - undeleted) && Spared(list(old(runs.Keys)).Some?, refused, all, undeleted)
      ensures failed <==> if list(old(runs.Keys)).Some? then undeleted != {} else keep <= 0
    {
      var toDelete := RunsOutsideHistory(keep, list);
      if toDelete.None? {
        undeleted := LC.ToDelete(runs, status.latestRuns, keep);
        return keep <= 0, undeleted;
      }
      failed, undeleted := DeleteAll(toDelete.value, refused);
    }

    /** The state, and the request that it answers removed. */
    method GetState(ch: LC.LayerChoice) returns (state: LayerState)
      modifies this`annotations
      ensures state == LC.GetState(ctx, old(Snapshot()))
      ensures View(dates, annotations) == LC.Unmark(old(Snapshot()), ch)
    {
      var w := Snapshot();
      var planExhausted := LC.HasLastRunReachedRetryLimit(ctx, w, PlanAction);
      var applyExhausted := LC.HasLastRunReachedRetryLimit(ctx, w, ApplyAction);
      var outdated := LC.IsLastPlanTooOld(ctx, w) || !LC.IsLastRelevantCommitPlanned(w);
      if LC.IsRunning(w) {
        return Idle;
      }
      if SYNC_NOW in annotations {
        if ch.unmarked {
          SyncUnmarked(dates, annotations);
          annotations := Remove(annotations, SYNC_NOW);
        }
        return PlanNeeded;
      }
      if APPLY_NOW in annotations {
        if ch.unmarked {
          ApplyUnmarked(dates, annotations);
          annotations := Remove(annotations, APPLY_NOW);
        }
        return ApplyNeeded(true);
      }
      if outdated && !planExhausted {
        return PlanNeeded;
      }
      if !LC.IsApplyUpToDate(w) && !LC.HasLastPlanFailed(w) && !applyExhausted {
        return ApplyNeeded(false);
      }
      return if planExhausted || applyExhausted then MaxRetriesReached else Idle;
    }

    /** The run to make, if any; NoArtifact is a panic. */
    method HandleLayer(state: LayerState, requested: bool, ch: LC.LayerChoice, ghost w: World)
      returns (decision: LC.Decision)
      requires w.now == now && w.ann.syncNow == requested
      requires var ann := View(dates, annotations);
               w.ann.relevantCommit == ann.relevantCommit && w.ann.planRun == ann.planRun
      ensures decision == LC.Decide(ctx, w, state, ch)
    {
      var ann := View(dates, annotations);
      match state {
        case PlanNeeded =>
          if ch.planBlocked || RELEVANT_COMMIT !in annotations || !ch.created {
            return LC.NoRun;
          }
          return LC.Create(Run(PlanAction, annotations[RELEVANT_COMMIT], None, now, !requested, NEW_STATUS));
        case ApplyNeeded(manual) =>
          if !manual && !AutoApplyEnabled(ctx) {
            return LC.NoRun;
          }
          if ch.applyBlocked || RELEVANT_COMMIT !in annotations {
            return LC.NoRun;
          }
          if ann.planRun.None? {
            return LC.NoArtifact;
          }
          if !ch.created {
            return LC.NoRun;
          }
          return LC.Create(Run(ApplyAction, annotations[RELEVANT_COMMIT], ann.planRun, now, !manual, NEW_STATUS));
        case _ =>
          return LC.NoRun;
      }
    }

    /** The history after a run was made, in an array of its own. */
    method Remember(entry: LayerRun, keep: int) returns (latest: seq<LayerRun>)
      requires !LC.HistoryPanics(status.latestRuns, keep)
      ensures latest == LC.UpdateLatestRuns(status.latestRuns, entry, keep, now)
    {
      var runs := status.latestRuns;
      var history := new LayerRun[|runs|](i requires 0 <= i < |runs| => runs[i]);
      assert history[..] == runs;
      var updated := UpdateLatestRuns(history, entry, keep, now);
      return updated[..];
    }

    /** Makes the run that was decided on and writes the status; false when that panics. */
    method Write(state: LayerState, requested: bool, ch: LC.LayerChoice, decision: LC.Decision, ghost w: World)
      returns (written: bool)
      requires Snapshot() == w.(ann := LC.Unmark(w, ch)) && requested == w.ann.syncNow
      modifies this`status, this`runs, this`runNames
      ensures var keep := KeepLastRuns(ctx);
              match decision
              case NoArtifact => !written && Snapshot() == old(Snapshot())
              case NoRun => written && Snapshot() == LC.Shown(w, state, ch)
              case Create(run) =>
                if LC.HistoryPanics(w.status.latestRuns, keep) then
                  !written && Snapshot() == LC.WithRun(w, ch.run, run).(ann := LC.Unmark(w, ch))
                else written && Snapshot() == LC.Recorded(w, state, ch, run, keep)
      ensures written ==> Extends(w, Snapshot(), ch.run)
    {
      match decision {
        case NoArtifact =>
          return false;
        case NoRun =>
          status := status.(state := state, syncScheduled := requested);
        case Create(run) =>
          var keep := KeepLastRuns(ctx);
          runs, runNames := runs[ch.run := run], runNames + {ch.run};
          if LC.HistoryPanics(status.latestRuns, keep) {
            return false;
          }
          var entry := LayerRun(ch.run, run.created, run.action);
          var latest := Remember(entry, keep);
          status := LayerStatus(state, requested, Some(entry), latest);
          assert entry in latest;
      }
      return true;
    }

    method ReconcileLayer(ch: LC.LayerChoice, list: Lister, refused: set<RunName>)
      returns (ghost undeleted: set<RunName>)
      requires Faithful(list)
      modifies this`annotations, this`status, this`runs, this`runNames
      ensures Snapshot() == LC.ReconcileLayer(ctx, old(Snapshot()), ch.(undeleted := undeleted))
      ensures ch.locked ==> undeleted == {}
      ensures Completes(ctx, old(Snapshot()), ch) ==>
                CleansUp(ctx, old(Snapshot()), Snapshot(), ch.run, list, refused, undeleted)
    {
      undeleted := {};
      if ch.locked {
        return;
      }
      ghost var w := Snapshot();
      var requested := SYNC_NOW in annotations;
      var state := GetState(ch);
      var decision := HandleLayer(state, requested, ch, w);
      var written := Write(state, requested, ch, decision, w);
      ghost var w1 := Snapshot();
      if written {
        var _, left := CleanupRuns(KeepLastRuns(ctx), list, refused);
        undeleted := left;
        CleanupScope(ctx, w, w1.runs, Snapshot(), ch.run, list, refused, undeleted);
      }
      WrittenAndCleaned(ctx, w, ch, w1, written, Snapshot(), undeleted);
    }

    // ---- the runner ----

    /** Stores the plan under the run's current attempt; the digest of what was stored. */
    method ExecPlan(pod: PodName, plan: Bytes, stored: bool) returns (sum: Option<string>)
      requires Works(Snapshot(), pod) && RunOf(Snapshot(), pod).action == PlanAction && pods[pod].progress == Started
      modifies this`plans, this`pods
      ensures sum == if stored then Some(ctx.settings.digest(plan)) else None
      ensures Snapshot() == if stored then RunnerDoes(ctx, old(Snapshot()), StorePlan(pod, plan)) else old(Snapshot())
      ensures stored ==> Works(Snapshot(), pod) && pods[pod] == old(pods[pod]).(progress := Stored(plan))
    {
      if !stored {
        return None;
      }
      plans := plans[Coord(pods[pod].run, runs[pods[pod].run].status.retries) := plan];
      pods := pods[pod := pods[pod].(progress := Stored(plan))];
      return Some(ctx.settings.digest(plan));
    }

    /** Reads the artifact of the run and applies it; the digest of what was applied. */
    method ExecApply(pod: PodName, executed: bool) returns (sum: Option<string>)
      requires Works(Snapshot(), pod) && RunOf(Snapshot(), pod).action == ApplyAction && pods[pod].progress == Started
      modifies this`pods, this`applied
      ensures Snapshot() == if executed then RunnerDoes(ctx, old(Snapshot()), ApplyPlan(pod)) else old(Snapshot())
      ensures sum.Some? <==> executed && RunOf(old(Snapshot()), pod).artifact.Some?
                             && RunOf(old(Snapshot()), pod).artifact.value in plans
      ensures sum.Some? ==>
                && Works(Snapshot(), pod) && pods[pod].progress.Applied?
                && pods[pod] == old(pods[pod]).(progress := pods[pod].progress)
                && sum.value == ctx.settings.digest(pods[pod].progress.artifact)
    {
      var run := runs[pods[pod].run];
      if run.artifact.None? || run.artifact.value !in plans {
        return None;
      }
      var plan := plans[run.artifact.value];
      if !executed {
        return None;
      }
      pods := pods[pod := pods[pod].(progress := Applied(plan))];
      if run.auto {
        applied := applied + [run.artifact.value];
      }
      return Some(ctx.settings.digest(plan));
    }

    /** Publishes a plan, or an apply, on the layer. */
    method PublishPlan(pod: PodName, sum: string)
      requires Lossless(dates) && Works(Snapshot(), pod) && pods[pod].progress.Stored? && '/' !in pods[pod].run
      requires sum == ctx.settings.digest(pods[pod].progress.plan)
      modifies this`annotations, this`pods
      ensures Snapshot() == PublishResult(ctx, old(Snapshot()), pod)
    {
      var run := runs[pods[pod].run];
      var c := Coord(pods[pod].run, run.status.retries);
      PlanReported(dates, annotations, now, c, sum, run.revision);
      annotations := Add(annotations, PlanReport(dates, now, c, sum, run.revision));
      pods := pods[pod := pods[pod].(progress := Published)];
    }

    method PublishApply(pod: PodName, sum: string)
      requires Lossless(dates) && Works(Snapshot(), pod) && pods[pod].progress.Applied?
      requires sum == ctx.settings.digest(pods[pod].progress.artifact)
      modifies this`annotations, this`pods
      ensures Snapshot() == PublishResult(ctx, old(Snapshot()), pod)
    {
      var run := runs[pods[pod].run];
      ApplyReported(dates, annotations, now, sum, run.revision);
      annotations := Add(annotations, ApplyReport(dates, now, sum, run.revision));
      pods := pods[pod := pods[pod].(progress := Published)];
    }

    /** What the runner of a pod does: two steps of the protocol, as far as nothing fails. */
    method ExecAction(pod: PodName, plan: Bytes, executed: bool, patched: bool) returns (ok: bool)
      requires Lossless(dates) && Works(Snapshot(), pod) && pods[pod].progress == Started && '/' !in pods[pod].run
      modifies this`plans, this`pods, this`annotations, this`applied
      ensures var w := old(Snapshot());
              ok <==> executed && patched
                      && (RunOf(w, pod).action == ApplyAction ==>
                            RunOf(w, pod).artifact.Some? && RunOf(w, pod).artifact.value in w.plans)
      ensures var w, a := old(Snapshot()), View(dates, annotations);
              if !ok then a == w.ann
              else if RunOf(w, pod).action == PlanAction then
                a == w.ann.(
                  planDate := At(now), planRun := Some(Coord(w.pods[pod].run, RunOf(w, pod).status.retries)),
                  planSum := Some(ctx.settings.digest(plan)), planCommit := Some(RunOf(w, pod).revision))
              else
                && RunOf(w, pod).artifact.Some? && RunOf(w, pod).artifact.value in w.plans
                && a == w.ann.(
                     applyDate := At(now), applySum := Some(ctx.settings.digest(w.plans[RunOf(w, pod).artifact.value])),
                     applyCommit := Some(RunOf(w, pod).revision))
      ensures var w := old(Snapshot());
              var first := if RunOf(w, pod).action == PlanAction then StorePlan(pod, plan) else ApplyPlan(pod);
              var w1 := if executed then RunnerDoes(ctx, w, first) else w;
              Snapshot() == (if ok then RunnerDoes(ctx, w1, Publish(pod)) else w1)
    {
      var run := runs[pods[pod].run];
      match run.action {
        case PlanAction =>
          var sum := ExecPlan(pod, plan, executed);
          if sum.None? || !patched {
            return false;
          }
          PublishPlan(pod, sum.value);
        case ApplyAction =>
          var sum := ExecApply(pod, executed);
          if sum.None? || !patched {
            return false;
          }
          PublishApply(pod, sum.value);
      }
      return true;
    }

    // ---- the API ----

    method SyncLayer() returns (accepted: bool)
      modifies this`annotations
      ensures Snapshot() == Outside(ctx, old(Snapshot()), RequestSync)
      ensures accepted <==>
                !(SYNC_NOW in old(annotations) && old(annotations)[SYNC_NOW] == "true") && !old(status.syncScheduled)
      ensures View(dates, annotations) == old(View(dates, annotations)).(
                syncNow := accepted || old(View(dates, annotations)).syncNow)
    {
      if Lookup(annotations, SYNC_NOW) == Some("true") || status.syncScheduled {
        return false;
      }
      SyncMarked(dates, annotations);
      annotations := Add(annotations, map[SYNC_NOW := "true"]);
      return true;
    }

    method ApplyLayer() returns (accepted: bool)
      modifies this`annotations
      ensures Snapshot() == Outside(ctx, old(Snapshot()), RequestApply)
      ensures accepted <==> ctx.layer.managedBy == ""
      ensures View(dates, annotations) == old(View(dates, annotations)).(
                applyNow := accepted || old(View(dates, annotations)).applyNow)
    {
      if ctx.layer.managedBy != "" {
        return false;
      }
      ApplyMarked(dates, annotations);
      annotations := Add(annotations, map[APPLY_NOW := "true"]);
      return true;
    }
  }

  lemma ToDeleteOf(runs: map<RunName, Run>, latestRuns: seq<LayerRun>, keep: int)
    ensures LC.ToDelete(runs, latestRuns, keep) ==
            if |runs.Keys| < keep then {} else runs.Keys - LC.Names(latestRuns)
  {
    assert |runs| == |runs.Keys|;
  }

  /** No run is made, or one that is in the history. */
  ghost predicate Extends(w: World, w': World, run: RunName) {
    w'.runs == w.runs
    || (w'.runs.Keys == w.runs.Keys + {run} && run in LC.Names(w'.status.latestRuns))
  }

  /** The reconciliation runs to its end. */
  predicate Completes(ctx: Context, w: World, ch: LC.LayerChoice) {
    !ch.locked && KeepLastRuns(ctx) >= 1 && !LC.Decide(ctx, w, LC.GetState(ctx, w), ch).NoArtifact?
  }

  /** What cleanup means to delete, of the old runs and the new one if there is one, and how far it got. */
  ghost predicate CleansUp(
    ctx: Context, w: World, w': World, run: RunName, list: Lister, refused: set<RunName>, undeleted: set<RunName>)
  {
    var keys := w.runs.Keys + (if run in w'.runs then {run} else {});
    Spared(list(keys).Some?, refused,
           if |keys| < KeepLastRuns(ctx) then {} else keys - LC.Names(w'.status.latestRuns), undeleted)
  }

  lemma CleanupScope(
    ctx: Context, w: World, before: map<RunName, Run>, w': World, run: RunName,
    list: Lister, refused: set<RunName>, undeleted: set<RunName>)
    requires Extends(w, w'.(runs := before), run)
    requires var all := LC.ToDelete(before, w'.status.latestRuns, KeepLastRuns(ctx));
             w'.runs == before - (all - undeleted) && Spared(list(before.Keys).Some?, refused, all, undeleted)
    ensures CleansUp(ctx, w, w', run, list, refused, undeleted)
  {
    assert w.runs.Keys + (if run in w'.runs then {run} else {}) == before.Keys;
    ToDeleteOf(before, w'.status.latestRuns, KeepLastRuns(ctx));
  }

  /** What was written before the cleanup, and the cleanup, make up the reconciliation. */
  lemma WrittenAndCleaned(
    ctx: Context, w: World, ch: LC.LayerChoice, w1: World, written: bool, w': World, undeleted: set<RunName>)
    requires !ch.locked
    requires var state, keep := LC.GetState(ctx, w), KeepLastRuns(ctx);
             match LC.Decide(ctx, w, state, ch)
             case NoArtifact => !written && w1 == w.(ann := LC.Unmark(w, ch))
             case NoRun => written && w1 == LC.Shown(w, state, ch)
             case Create(run) =>
               if LC.HistoryPanics(w.status.latestRuns, keep) then
                 !written && w1 == LC.WithRun(w, ch.run, run).(ann := LC.Unmark(w, ch))
               else written && w1 == LC.Recorded(w, state, ch, run, keep)
    requires w' == if written then LC.Cleanup(w1, KeepLastRuns(ctx), undeleted) else w1
    ensures w' == LC.ReconcileLayer(ctx, w, ch.(undeleted := undeleted))
    ensures Completes(ctx, w, ch) ==> written
  {
    var state, ch' := LC.GetState(ctx, w), ch.(undeleted := undeleted);
    assert LC.Decide(ctx, w, state, ch') == LC.Decide(ctx, w, state, ch) && LC.Unmark(w, ch') == LC.Unmark(w, ch);
  }
}
