/** Where the logs of a layer's attempts go: no two attempts share a key of the datastore. */
module Logs {
  import opened Resources
  import opened Text
  import RC = RunController
  import opened Protocol
  import opened Invariant
  import S = Storage
  import D = Datastore

  /** The attempts of a run that is there at both times: those before are still there, under their numbers and pods. */
  ghost predicate Grown(w: World, w': World, r: RunName)
    requires r in w.runs
  {
    && r in w'.runNames
    && (r in w'.runs ==>
          var before, after := w.runs[r].status.attempts, w'.runs[r].status.attempts;
          |before| <= |after| && SameAttempts(before, after[..|before|]))
  }

  lemma GrownByRun(ctx: Context, w: World, w': World, q: RunName, ch: RC.RunChoice, r: RunName)
    requires q in w.runs && RunEffect(ctx, w, w', q, ch) && r in w.runs && r in w.runNames
    ensures Grown(w, w', r)
  {
  }

  /** What one step does to the runs there are, and that it brings none back. */
  lemma GrownByStep(ctx: Context, w: World, step: Step, w': World, r: RunName)
    requires RunsOk(w) && Next(ctx, w, step, w') && r in w.runNames
    ensures r in w'.runNames && (r !in w.runs ==> r !in w'.runs)
    ensures r in w.runs ==> Grown(w, w', r)
  {
    NextEffect(ctx, w, step);
    if r in w.runs && step.RunStep? && Reconciles(w, step.run, step.choice) {
      GrownByRun(ctx, w, w', step.run, step.choice, r);
    } else if r in w.runs && r in w'.runs {
      assert w'.runs[r] == w.runs[r];
    }
  }

  lemma GrownOn(w0: World, w: World, w': World, r: RunName)
    requires r in w0.runs && Grown(w0, w, r) && r in w'.runNames && (r !in w.runs ==> r !in w'.runs)
    requires r in w.runs ==> Grown(w, w', r)
    ensures Grown(w0, w', r)
  {
    if r in w'.runs {
      var before, now, after := w0.runs[r].status.attempts, w.runs[r].status.attempts, w'.runs[r].status.attempts;
      assert forall k :: 0 <= k < |before| ==> now[..|before|][k] == now[k] && after[..|before|][k] == after[k];
      assert forall k :: 0 <= k < |before| ==> after[..|now|][k] == after[k];
    }
  }

  lemma GrownStepAt(ctx: Context, ws: seq<World>, steps: seq<Step>, i: nat, k: nat, r: RunName)
    requires Execution(ctx, ws, steps) && KeepLastRuns(ctx) >= 1 && i <= k < |steps|
    requires r in ws[i].runs && Grown(ws[i], ws[k], r)
    ensures Grown(ws[i], ws[k + 1], r)
  {
    InitInv(ctx, ws[0]);
    PathInv(ctx, ws, steps, k);
    assert NextAt(ctx, ws, steps, k);
    GrownByStep(ctx, ws[k], steps[k], ws[k + 1], r);
    GrownOn(ws[i], ws[k], ws[k + 1], r);
  }

  lemma {:induction false} GrownAlong(ctx: Context, ws: seq<World>, steps: seq<Step>, i: nat, j: nat, r: RunName)
    requires Execution(ctx, ws, steps) && KeepLastRuns(ctx) >= 1 && i <= j <= |steps| && r in ws[i].runs
    ensures Grown(ws[i], ws[j], r)
  {
    if i == j {
      InitInv(ctx, ws[0]);
      PathInv(ctx, ws, steps, i);
      assert RunOk(ws[i], r);
    } else {
      GrownAlong(ctx, ws, steps, i, j - 1, r);
      GrownStepAt(ctx, ws, steps, i, j - 1, r);
    }
  }

  /** The key the logs of an attempt are stored under. */
  function LogKey(namespace: string, layer: string, r: RunName, a: Attempt): string {
    D.Path(D.LogsKey(namespace, layer, r, Itoa(a.number)))
  }

  lemma KeyIff(namespace: string, layer: string, r: RunName, a: Attempt, s: RunName, b: Attempt)
    requires S.Name(namespace) && S.Name(layer) && S.Name(r) && S.Name(s)
    ensures LogKey(namespace, layer, r, a) == LogKey(namespace, layer, s, b) <==> r == s && a.number == b.number
  {
    ItoaDigits(a.number);
    ItoaDigits(b.number);
    ItoaPlain(a.number, '/');
    ItoaPlain(b.number, '/');
    S.KeysAreInjective(
      S.LogsPut(namespace, layer, r, Itoa(a.number), []), S.LogsPut(namespace, layer, s, Itoa(b.number), []));
  }

  /** At any two times of an execution, two attempts of a layer's runs have the same log key exactly when they are the
      same attempt of the same run. */
  lemma LogKeysAreApart(
    ctx: Context, ws: seq<World>, steps: seq<Step>, i: nat, j: nat, namespace: string, layer: string,
    r: RunName, a: nat, s: RunName, b: nat)
    requires Execution(ctx, ws, steps) && KeepLastRuns(ctx) >= 1 && i <= j <= |steps|
    requires r in ws[i].runs && a < |ws[i].runs[r].status.attempts|
    requires s in ws[j].runs && b < |ws[j].runs[s].status.attempts|
    requires S.Name(namespace) && S.Name(layer) && S.Name(r) && S.Name(s)
    ensures LogKey(namespace, layer, r, ws[i].runs[r].status.attempts[a])
            == LogKey(namespace, layer, s, ws[j].runs[s].status.attempts[b])
            <==> r == s && a == b
  {
    var before, after := ws[i].runs[r].status.attempts, ws[j].runs[s].status.attempts;
    KeyIff(namespace, layer, r, before[a], s, after[b]);
    GrownAlong(ctx, ws, steps, i, j, r);
    InitInv(ctx, ws[0]);
    PathInv(ctx, ws, steps, j);
    assert RunOk(ws[j], s);
    if r == s {
      assert after[..|before|][a].number == after[a].number;
    }
  }

  // ---- which logs are stored ----

  lemma LogsAfterStatus(
    st: RunStatus, state: RunState, info: RC.RunInfo, pods: map<PodName, Pod>, logs: map<PodName, RC.LogOutcome>,
    i: nat)
    requires i < |st.attempts|
    ensures var after := RC.StatusAfter(st, state, info, pods, logs).attempts;
            && |st.attempts| <= |after|
            && after[i].logsUploaded == RC.IsUploaded(pods, logs, st.attempts, i)
  {
    var more :=
      if info.newPod && info.runnerPod.Some? then [Attempt(info.runnerPod.value, info.retries, false)] else [];
    var all := st.attempts + more;
    assert more == [] ==> all == st.attempts;
    RC.UploadMarksIff(pods, logs, all, i);
    assert RC.IsUploaded(pods, logs, all, i) <==> RC.IsUploaded(pods, logs, st.attempts, i) by {
      assert forall j :: 0 <= j < |st.attempts| ==> all[j] == st.attempts[j];
      assert forall j :: 0 <= j <= i ==> (RC.Refused(pods, logs, all[j]) <==> RC.Refused(pods, logs, st.attempts[j]));
    }
  }

  /** A reconciliation of a run marks exactly the attempts whose logs are stored already or reach the datastore in it,
      judged by the pods as it leaves them. */
  lemma LogsAfterRun(ctx: Context, w: World, r: RunName, ch: RC.RunChoice, i: nat)
    requires Reconciles(w, r, ch) && i < |w.runs[r].status.attempts|
    ensures var w' := RC.ReconcileRun(ctx, w, r, ch);
            && r in w'.runs && |w.runs[r].status.attempts| <= |w'.runs[r].status.attempts|
            && w'.runs[r].status.attempts[i].logsUploaded ==
               RC.IsUploaded(w'.pods, ch.logs, w.runs[r].status.attempts, i)
  {
    var st, state := w.runs[r].status, Decided(ctx, w, r);
    var info := RC.Handle(state, st, w.now, ch);
    LogsAfterStatus(st, state, info, RC.PodsAfter(w.pods, r, info), ch.logs, i);
  }

  /** Once a run is over its logs are stored no more: what the reconciliation that ended it could not store is lost. */
  lemma LogsEndWithRun(ctx: Context, w: World, step: Step, w': World, r: RunName)
    requires RunsOk(w) && Next(ctx, w, step, w') && r in w.runs && Terminal(w.runs[r].status.state)
    ensures r in w'.runs ==> w'.runs[r] == w.runs[r]
  {
    NextEffect(ctx, w, step);
  }
}
