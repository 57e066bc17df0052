/** The run controller, the layer controller, the runner and the API as they work on one layer's objects, field by
    field and loop by loop: each method against the step of the protocol that it takes. */
module Controllers {
  import opened Resources
  import RC = RunController
  import LC = LayerController

  // ---- logs ----

  /** The first n attempts are dealt with, and none of them was refused. */
  ghost predicate UploadedTo(
    pods: map<PodName, Pod>, logs: map<PodName, RC.LogOutcome>, all: seq<Attempt>, n: nat, marked: seq<Attempt>)
    requires n <= |all|
  {
    && |marked| == |all|
    && (forall j :: 0 <= j < n ==> !RC.Refused(pods, logs, all[j]))
    && (forall j :: 0 <= j < n ==> marked[j] == all[j].(logsUploaded := RC.IsUploaded(pods, logs, all, j)))
    && (forall j :: n <= j < |all| ==> marked[j] == all[j])
  }

  lemma UploadedNext(
    pods: map<PodName, Pod>, logs: map<PodName, RC.LogOutcome>, all: seq<Attempt>, n: nat, marked: seq<Attempt>)
    requires n < |all| && UploadedTo(pods, logs, all, n, marked)
    ensures if RC.Refused(pods, logs, all[n]) then marked == RC.UploadLogs(pods, logs, all)
            else if RC.Due(pods, logs, all[n]) then
              UploadedTo(pods, logs, all, n + 1, marked[n := marked[n].(logsUploaded := true)])
            else UploadedTo(pods, logs, all, n + 1, marked)
  {
    if RC.Refused(pods, logs, all[n]) {
      forall i | 0 <= i < |all| ensures marked[i] == RC.UploadLogs(pods, logs, all)[i] {
        RC.UploadMarksIff(pods, logs, all, i);
      }
    }
  }

  lemma UploadedAll(
    pods: map<PodName, Pod>, logs: map<PodName, RC.LogOutcome>, all: seq<Attempt>, marked: seq<Attempt>)
    requires UploadedTo(pods, logs, all, |all|, marked)
    ensures marked == RC.UploadLogs(pods, logs, all)
  {
    forall i | 0 <= i < |all| ensures marked[i] == RC.UploadLogs(pods, logs, all)[i] {
      RC.UploadMarksIff(pods, logs, all, i);
    }
  }

  /** Marks in place the attempts whose logs reach the datastore. */
  method UploadLogs(attempts: array<Attempt>, pods: map<PodName, Pod>, logs: map<PodName, RC.LogOutcome>)
    modifies attempts
    ensures attempts[..] == RC.UploadLogs(pods, logs, old(attempts[..]))
  {
    ghost var all := attempts[..];
    for i := 0 to attempts.Length
      invariant UploadedTo(pods, logs, all, i, attempts[..])
    {
      UploadedNext(pods, logs, all, i, attempts[..]);
      var attempt := attempts[i];
      if attempt.logsUploaded || !RC.Finished(pods, attempt.podName) {
        continue;
      }
      if attempt.podName !in logs || logs[attempt.podName] == RC.Unreadable {
        continue;
      }
      if logs[attempt.podName] == RC.NotStored {
        return;
      }
      attempts[i] := attempt.(logsUploaded := true);
    }
    UploadedAll(pods, logs, all, attempts[..]);
  }

  // ---- the limit on runner pods ----

  method CountActive(pods: seq<Pod>) returns (activeCount: nat)
    ensures activeCount == |set i: nat | i < |pods| && Active(pods[i])|
  {
    activeCount := 0;
    for i := 0 to |pods|
      invariant activeCount == |set j: nat | j < i && Active(pods[j])|
    {
      ghost var before := set j: nat | j < i && Active(pods[j]);
      assert (set j: nat | j < i + 1 && Active(pods[j])) == before + (if Active(pods[i]) then {i} else {});
      if pods[i].phase == PodRunning || pods[i].phase == PodPending {
        activeCount := activeCount + 1;
      }
    }
  }

  /** listed is the list of the cluster's runner pods, when it could be had. */
  method IsMaxConcurrentRunnerPodsReached(ctx: Context, listed: Option<seq<Pod>>) returns (reached: Option<bool>)
    ensures reached == var limit := Limit(ctx);
              if limit <= 0 then Some(false)
              else if listed.None? then None
              else Some(|set i: nat | i < |listed.value| && Active(listed.value[i])| >= limit)
  {
    var maxConcurrentRunnerPods := ctx.settings.maxConcurrentRunnerPods;
    if ctx.repo.maxConcurrentRunnerPods > 0 {
      maxConcurrentRunnerPods := ctx.repo.maxConcurrentRunnerPods;
    }
    if maxConcurrentRunnerPods > 0 {
      if listed.None? {
        return None;
      }
      var activeCount := CountActive(listed.value);
      if activeCount >= maxConcurrentRunnerPods {
        return Some(true);
      }
    }
    return Some(false);
  }

  // ---- run history ----

  /** The first oldest entry, or the first one when none is dated before now. */
  method FindOldest(runs: array<LayerRun>, now: int) returns (index: nat)
    ensures index == LC.Oldest(runs[..], runs.Length, now).0
  {
    var oldest: int;
    oldest, index := now, 0;
    for i := 0 to runs.Length
      invariant (index, oldest) == LC.Oldest(runs[..], i, now)
    {
      if runs[i].date < oldest {
        oldest, index := runs[i].date, i;
      }
    }
  }

  method ShiftOut(runs: array<LayerRun>, index: nat)
    requires index < runs.Length
    modifies runs
    ensures runs[..runs.Length - 1] == LC.Drop(old(runs[..]), index)
  {
    for i := index to runs.Length - 1
      invariant forall j :: 0 <= j < index ==> runs[j] == old(runs[j])
      invariant forall j :: index <= j < i ==> runs[j] == old(runs[j + 1])
      invariant forall j :: i <= j < runs.Length ==> runs[j] == old(runs[j])
    {
      runs[i] := runs[i + 1];
    }
  }

  /** When the history is full the oldest entry is shifted out in place. */
  method UpdateLatestRuns(runs: array<LayerRun>, entry: LayerRun, keep: int, now: int) returns (latest: array<LayerRun>)
    requires !LC.HistoryPanics(runs[..], keep)
    modifies runs
    ensures latest[..] == LC.UpdateLatestRuns(old(runs[..]), entry, keep, now)
    ensures if runs.Length >= keep then latest == runs else fresh(latest) && runs[..] == old(runs[..])
  {
    var index := FindOldest(runs, now);
    if runs.Length < keep {
      ghost var before := runs[..];
      latest := new LayerRun[runs.Length + 1];
      for i := 0 to runs.Length
        invariant runs[..] == before && latest[..i] == before[..i]
      {
        latest[i] := runs[i];
      }
      latest[runs.Length] := entry;
      assert latest[..] == latest[..runs.Length] + [entry];
      return;
    }
    ShiftOut(runs, index);
    runs[runs.Length - 1] := entry;
    assert runs[..] == runs[..runs.Length - 1] + [entry];
    return runs;
  }

  // ---- cleanup ----

  method RunsToKeep(latestRuns: seq<LayerRun>) returns (names: set<RunName>)
    ensures names == LC.Names(latestRuns)
  {
    names := {};
    for i := 0 to |latestRuns|
      invariant names == LC.Names(latestRuns[..i])
    {
      names := names + {latestRuns[i].name};
      assert latestRuns[..i + 1] == latestRuns[..i] + [latestRuns[i]];
    }
    assert latestRuns[..|latestRuns|] == latestRuns;
  }

  ghost predicate Enumerates(names: seq<RunName>, all: set<RunName>) {
    (set n | n in names) == all && forall i, j :: 0 <= i < j < |names| ==> names[i] != names[j]
  }

  lemma {:induction false} EnumerationSize(names: seq<RunName>, all: set<RunName>)
    requires Enumerates(names, all)
    ensures |names| == |all|
  {
    if names == [] {
    } else {
      var rest := names[1..];
      assert names == [names[0]] + rest;
      assert forall i :: 0 <= i < |rest| ==> rest[i] == names[i + 1];
      assert (set n | n in rest) == all - {names[0]};
      EnumerationSize(rest, all - {names[0]});
    }
  }

  method RunsToDelete(listed: seq<RunName>, runsToKeep: set<RunName>, ghost all: set<RunName>)
    returns (toDelete: seq<RunName>)
    requires Enumerates(listed, all)
    ensures Enumerates(toDelete, all - runsToKeep)
  {
    toDelete := [];
    for i := 0 to |listed|
      invariant Enumerates(toDelete, (set n | n in listed[..i]) - runsToKeep)
    {
      assert listed[..i + 1] == listed[..i] + [listed[i]];
      assert listed[i] !in listed[..i];
      if listed[i] !in runsToKeep {
        ghost var before := set n | n in toDelete;
        assert listed[i] !in before;
        toDelete := toDelete + [listed[i]];
        assert (set n | n in toDelete) == before + {listed[i]};
      }
    }
    assert listed[..|listed|] == listed;
  }
}
