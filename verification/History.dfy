/** A layer's run history: it holds exactly the latest runs, as many as the policy keeps, and these runs exist. */
module History {
  import opened Resources
  import LC = LayerController
  import opened Protocol
  import opened Invariant
  import opened Requests
  import Exclusion

  /** The run that a step made, as it was made. */
  ghost function MadeRun(w: World, step: Step, w': World): seq<LayerRun> {
    if step.LayerStep? && step.layer.run in w'.runs && step.layer.run !in w.runNames then
      [LayerRun(step.layer.run, w.now, w'.runs[step.layer.run].action)]
    else []
  }

  /** All runs made by the first n steps, in order. */
  ghost function MadeRuns(ws: seq<World>, steps: seq<Step>, n: nat): seq<LayerRun>
    requires |ws| == |steps| + 1 && n <= |steps|
  {
    if n == 0 then [] else MadeRuns(ws, steps, n - 1) + MadeRun(ws[n - 1], steps[n - 1], ws[n])
  }

  function Latest(runs: seq<LayerRun>, keep: int): seq<LayerRun> {
    if |runs| <= keep || keep < 0 then runs else runs[|runs| - keep..]
  }

  ghost predicate Ordered(runs: seq<LayerRun>, now: int) {
    && (forall i, j :: 0 <= i < j < |runs| ==> runs[i].date <= runs[j].date)
    && (forall i :: 0 <= i < |runs| ==> runs[i].date <= now)
  }

  /** Every run of the history exists, and is what the history says. */
  ghost predicate Exists(w: World) {
    forall e :: e in w.status.latestRuns ==>
      e.name in w.runs && w.runs[e.name].action == e.action && w.runs[e.name].created == e.date
  }

  // ---- one more entry ----

  /** The k-th entry makes way for the new one, and is an oldest one if it is dated before now. */
  ghost predicate Evicts(runs: seq<LayerRun>, k: nat, entry: LayerRun, now: int, latest: seq<LayerRun>)
    requires k < |runs|
  {
    && multiset(latest) + multiset{runs[k]} == multiset(runs) + multiset{entry}
    && (runs[k].date < now ==> forall e :: e in runs ==> runs[k].date <= e.date)
  }

  /** While there is room no entry goes; when there is none exactly one goes, an oldest one where the search can see it.
      The new entry comes last. */
  lemma HistoryUpdated(runs: seq<LayerRun>, entry: LayerRun, keep: int, now: int)
    requires keep >= 1 && |runs| <= keep
    ensures var latest := LC.UpdateLatestRuns(runs, entry, keep, now);
            && |latest| == (if |runs| < keep then |runs| + 1 else keep)
            && latest[|latest| - 1] == entry
            && (|runs| < keep ==> multiset(latest) == multiset(runs) + multiset{entry})
            && (|runs| == keep ==> exists k :: 0 <= k < |runs| && Evicts(runs, k, entry, now, latest))
  {
    if |runs| == keep {
      var k := LC.Oldest(runs, |runs|, now).0;
      assert runs == runs[..k] + [runs[k]] + runs[k + 1..];
      assert LC.UpdateLatestRuns(runs, entry, keep, now) == runs[..k] + runs[k + 1..] + [entry];
      assert Evicts(runs, k, entry, now, LC.UpdateLatestRuns(runs, entry, keep, now));
    }
  }

  /** Entries in the order of their dates leave in that order. */
  lemma OrderedUpdated(runs: seq<LayerRun>, entry: LayerRun, keep: int, now: int)
    requires keep >= 1 && |runs| <= keep && Ordered(runs, now) && entry.date == now
    ensures var latest := LC.UpdateLatestRuns(runs, entry, keep, now);
            && latest == (if |runs| < keep then runs else runs[1..]) + [entry]
            && Ordered(latest, now)
  {
    var oldest := LC.Oldest(runs, |runs|, now);
    if |runs| == keep {
      assert runs[0].date <= runs[oldest.0].date;
      assert oldest.0 == 0;
    }
  }

  lemma LatestAppend(all: seq<LayerRun>, entry: LayerRun, keep: int)
    requires keep >= 1
    ensures var runs := Latest(all, keep);
            && |runs| <= keep
            && Latest(all + [entry], keep) == (if |runs| < keep then runs else runs[1..]) + [entry]
  {
  }

  // ---- one step ----

  /** What a reconciliation makes of the history. */
  ghost predicate HistoryEffect(ctx: Context, w: World, w': World, made: seq<LayerRun>)
    requires KeepLastRuns(ctx) >= 1
  {
    && w'.now == w.now && Exists(w') && w'.runs.Keys <= w.runs.Keys + LC.Names(made) && |made| <= 1
    && w'.status.lastRun == (if made == [] then w.status.lastRun else Some(made[0]))
    && w'.status.latestRuns ==
       if made == [] then w.status.latestRuns
       else LC.UpdateLatestRuns(w.status.latestRuns, made[0], KeepLastRuns(ctx), w.now)
  }

  lemma RecordedExists(w: World, state: LayerState, ch: LC.LayerChoice, run: Run, keep: int)
    requires keep >= 1 && |w.status.latestRuns| <= keep && Exists(w) && ch.run !in w.runs
    ensures Exists(LC.Recorded(w, state, ch, run, keep))
  {
    var entry := LayerRun(ch.run, run.created, run.action);
    forall e | e in LC.UpdateLatestRuns(w.status.latestRuns, entry, keep, w.now)
      ensures e in w.status.latestRuns || e == entry
    {
    }
  }

  lemma RecordedEffect(ctx: Context, w: World, state: LayerState, ch: LC.LayerChoice, run: Run)
    requires |w.status.latestRuns| <= KeepLastRuns(ctx) && KeepLastRuns(ctx) >= 1 && ch.run !in w.runs && Exists(w)
    requires run.created == w.now
    ensures HistoryEffect(
      ctx, w, LC.Recorded(w, state, ch, run, KeepLastRuns(ctx)), [LayerRun(ch.run, w.now, run.action)])
  {
    RecordedExists(w, state, ch, run, KeepLastRuns(ctx));
    assert LC.Names([LayerRun(ch.run, w.now, run.action)]) == {ch.run};
  }

  lemma CleanupEffect(ctx: Context, w: World, w1: World, undeleted: set<RunName>, made: seq<LayerRun>)
    requires KeepLastRuns(ctx) >= 1 && HistoryEffect(ctx, w, w1, made)
    ensures HistoryEffect(ctx, w, LC.Cleanup(w1, KeepLastRuns(ctx), undeleted), made)
  {
    CleanupKeeps(w1, KeepLastRuns(ctx), undeleted);
  }

  lemma HistoryCreated(ctx: Context, w: World, ch: LC.LayerChoice, run: Run)
    requires |w.status.latestRuns| <= KeepLastRuns(ctx) && KeepLastRuns(ctx) >= 1 && ch.run !in w.runs && Exists(w)
    requires !ch.locked && LC.Decide(ctx, w, LC.GetState(ctx, w), ch) == LC.Create(run)
    ensures HistoryEffect(ctx, w, LC.ReconcileLayer(ctx, w, ch), [LayerRun(ch.run, w.now, run.action)])
  {
    var state := LC.GetState(ctx, w);
    RecordedEffect(ctx, w, state, ch, run);
    CleanupEffect(ctx, w, LC.Recorded(w, state, ch, run, KeepLastRuns(ctx)), ch.undeleted,
                  [LayerRun(ch.run, w.now, run.action)]);
  }

  lemma HistoryIdle(ctx: Context, w: World, ch: LC.LayerChoice)
    requires KeepLastRuns(ctx) >= 1 && Exists(w)
    requires ch.locked || !LC.Decide(ctx, w, LC.GetState(ctx, w), ch).Create?
    ensures HistoryEffect(ctx, w, LC.ReconcileLayer(ctx, w, ch), [])
  {
    if !ch.locked && LC.Decide(ctx, w, LC.GetState(ctx, w), ch).NoRun? {
      CleanupKeeps(LC.Shown(w, LC.GetState(ctx, w), ch), KeepLastRuns(ctx), ch.undeleted);
    }
  }

  lemma HistoryLayerStep(ctx: Context, w: World, ch: LC.LayerChoice)
    requires Inv(ctx, w) && KeepLastRuns(ctx) >= 1 && ch.run !in w.runNames && Exists(w)
    ensures var w' := LC.ReconcileLayer(ctx, w, ch);
            HistoryEffect(ctx, w, w', MadeRun(w, LayerStep(ch), w'))
  {
    forall r | r in w.runs ensures r in w.runNames {
      assert RunOk(w, r);
    }
    var decision := LC.Decide(ctx, w, LC.GetState(ctx, w), ch);
    if !ch.locked && decision.Create? {
      RunMade(ctx, w, ch);
      HistoryCreated(ctx, w, ch, decision.run);
    } else {
      HistoryIdle(ctx, w, ch);
    }
  }

  lemma CleanupKeeps(w: World, keep: int, undeleted: set<RunName>)
    requires Exists(w)
    ensures Exists(LC.Cleanup(w, keep, undeleted))
  {
  }

  /** No other step touches the history or the set of runs. */
  lemma HistoryOtherStep(ctx: Context, w: World, step: Step, w': World)
    requires RunsOk(w) && Next(ctx, w, step, w') && !step.LayerStep? && Exists(w)
    ensures w'.status == w.status && w'.runs.Keys == w.runs.Keys && Exists(w') && w'.now >= w.now
  {
    NextEffect(ctx, w, step);
  }

  // ---- every reachable state ----

  ghost predicate IsHistory(ctx: Context, w: World, made: seq<LayerRun>) {
    && w.status.latestRuns == Latest(made, KeepLastRuns(ctx)) && Ordered(w.status.latestRuns, w.now)
    && w.status.lastRun == (if made == [] then None else Some(made[|made| - 1]))
    && Exists(w) && (forall r :: r in w.runs ==> r in LC.Names(made))
  }

  lemma MoreNames(a: seq<LayerRun>, b: seq<LayerRun>)
    ensures LC.Names(a + b) == LC.Names(a) + LC.Names(b)
  {
  }

  lemma HistoryGrows(ctx: Context, w: World, w': World, made: seq<LayerRun>, more: seq<LayerRun>)
    requires KeepLastRuns(ctx) >= 1 && IsHistory(ctx, w, made) && HistoryEffect(ctx, w, w', more)
    requires more != [] ==> more[0].date == w.now
    ensures IsHistory(ctx, w', made + more)
  {
    MoreNames(made, more);
    if more != [] {
      assert more == [more[0]];
      LatestAppend(made, more[0], KeepLastRuns(ctx));
      OrderedUpdated(w.status.latestRuns, more[0], KeepLastRuns(ctx), w.now);
    } else {
      assert made + more == made;
    }
  }

  lemma HistoryNext(ctx: Context, w: World, step: Step, w': World, made: seq<LayerRun>)
    requires Inv(ctx, w) && KeepLastRuns(ctx) >= 1 && Next(ctx, w, step, w') && IsHistory(ctx, w, made)
    ensures IsHistory(ctx, w', made + MadeRun(w, step, w'))
  {
    if step.LayerStep? {
      HistoryLayerStep(ctx, w, step.layer);
      HistoryGrows(ctx, w, w', made, MadeRun(w, step, w'));
    } else {
      HistoryOtherStep(ctx, w, step, w');
      assert made + MadeRun(w, step, w') == made;
    }
  }

  lemma HistoryStepAt(ctx: Context, ws: seq<World>, steps: seq<Step>, i: nat)
    requires Execution(ctx, ws, steps) && KeepLastRuns(ctx) >= 1 && i < |steps|
    requires IsHistory(ctx, ws[i], MadeRuns(ws, steps, i))
    ensures IsHistory(ctx, ws[i + 1], MadeRuns(ws, steps, i + 1))
  {
    InitInv(ctx, ws[0]);
    PathInv(ctx, ws, steps, i);
    assert NextAt(ctx, ws, steps, i);
    HistoryNext(ctx, ws[i], steps[i], ws[i + 1], MadeRuns(ws, steps, i));
  }

  /** In every reachable state the history is the sequence of the latest runs made, as many as the policy keeps or all
      of them, the last run is the latest one, and all these runs exist. */
  lemma {:induction false} LatestRunsAreKept(ctx: Context, ws: seq<World>, steps: seq<Step>, i: nat)
    requires Execution(ctx, ws, steps) && KeepLastRuns(ctx) >= 1 && i <= |steps|
    ensures ws[i].status.latestRuns == Latest(MadeRuns(ws, steps, i), KeepLastRuns(ctx)) && Exists(ws[i])
    ensures IsHistory(ctx, ws[i], MadeRuns(ws, steps, i))
  {
    if i > 0 {
      var j := i - 1;
      LatestRunsAreKept(ctx, ws, steps, j);
      HistoryStepAt(ctx, ws, steps, j);
    }
  }

  /** Either all runs outside the history are gone, or there were too few runs to delete any. */
  lemma CleanedRuns(ctx: Context, w: World, ch: LC.LayerChoice)
    requires Inv(ctx, w) && KeepLastRuns(ctx) >= 1 && ch.run !in w.runNames && !ch.locked && ch.undeleted == {}
    requires !LC.Decide(ctx, w, LC.GetState(ctx, w), ch).NoArtifact?
    ensures var w' := LC.ReconcileLayer(ctx, w, ch);
            w'.runs.Keys <= LC.Names(w'.status.latestRuns) || |w'.runs| < KeepLastRuns(ctx)
  {
  }

  /** After a reconciliation that runs to its end and deletes what it means to, the runs there are are those of the
      history and no others. */
  lemma ExactlyLatestRemain(ctx: Context, ws: seq<World>, steps: seq<Step>, i: nat)
    requires Execution(ctx, ws, steps) && KeepLastRuns(ctx) >= 1 && i < |steps|
    requires steps[i].LayerStep? && !steps[i].layer.locked && steps[i].layer.undeleted == {}
    requires !LC.Decide(ctx, ws[i], LC.GetState(ctx, ws[i]), steps[i].layer).NoArtifact?
    ensures ws[i + 1].runs.Keys == LC.Names(Latest(MadeRuns(ws, steps, i + 1), KeepLastRuns(ctx)))
  {
    CleanedAt(ctx, ws, steps, i);
    LatestRunsAreKept(ctx, ws, steps, i + 1);
    OnlyHistory(ctx, ws[i + 1], MadeRuns(ws, steps, i + 1));
  }

  lemma CleanedAt(ctx: Context, ws: seq<World>, steps: seq<Step>, i: nat)
    requires Execution(ctx, ws, steps) && KeepLastRuns(ctx) >= 1 && i < |steps|
    requires steps[i].LayerStep? && !steps[i].layer.locked && steps[i].layer.undeleted == {}
    requires !LC.Decide(ctx, ws[i], LC.GetState(ctx, ws[i]), steps[i].layer).NoArtifact?
    ensures var w' := ws[i + 1];
            && (w'.runs.Keys <= LC.Names(w'.status.latestRuns) || |w'.runs| < KeepLastRuns(ctx))
            && Distinct(w'.status.latestRuns)
  {
    InitInv(ctx, ws[0]);
    PathInv(ctx, ws, steps, i);
    PathInv(ctx, ws, steps, i + 1);
    assert NextAt(ctx, ws, steps, i);
    CleanedRuns(ctx, ws[i], steps[i].layer);
  }

  /** With fewer runs than the policy keeps, the history is all that was ever made. */
  lemma OnlyHistory(ctx: Context, w: World, made: seq<LayerRun>)
    requires IsHistory(ctx, w, made) && KeepLastRuns(ctx) >= 1 && Distinct(w.status.latestRuns)
    requires w.runs.Keys <= LC.Names(w.status.latestRuns) || |w.runs| < KeepLastRuns(ctx)
    ensures w.runs.Keys == LC.Names(w.status.latestRuns)
  {
    HistorySize(w);
    if |w.runs| < KeepLastRuns(ctx) {
      assert w.status.latestRuns == made;
    }
  }

  /** A history of different runs that all exist is no longer than there are runs. */
  lemma HistorySize(w: World)
    requires Exists(w) && Distinct(w.status.latestRuns)
    ensures |w.status.latestRuns| <= |w.runs|
  {
    NamesSize(w.status.latestRuns);
    Exclusion.SubsetSize(LC.Names(w.status.latestRuns), w.runs.Keys);
  }

  lemma {:induction false} NamesSize(runs: seq<LayerRun>)
    requires Distinct(runs)
    ensures |LC.Names(runs)| == |runs|
  {
    if runs != [] {
      NamesSize(runs[1..]);
      assert runs[0].name !in LC.Names(runs[1..]);
      assert LC.Names(runs) == {runs[0].name} + LC.Names(runs[1..]);
    }
  }
}
