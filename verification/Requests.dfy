/** Manual requests: when a reconciliation takes one off the layer, what it makes of it, and when one is lost. */
module Requests {
  import opened Resources
  import LC = LayerController
  import opened Protocol
  import opened Invariant

  /** The reconciliation gets as far as answering a request. */
  predicate Answers(w: World, ch: LC.LayerChoice) {
    !ch.locked && !LC.IsRunning(w)
  }

  /** The one request that is taken off: a sync goes before an apply. */
  lemma MarksTaken(ctx: Context, w: World, ch: LC.LayerChoice)
    ensures var w' := LC.ReconcileLayer(ctx, w, ch);
            && (w'.ann.syncNow <==> w.ann.syncNow && !(Answers(w, ch) && ch.unmarked))
            && (w'.ann.applyNow <==> w.ann.applyNow && !(Answers(w, ch) && ch.unmarked && !w.ann.syncNow))
  {
  }

  /** What the API sees of a sync request: a reconciliation that runs to its end shows whether one was there when it
      began, and refuses another until the next one finds none. */
  lemma SyncShown(ctx: Context, w: World, ch: LC.LayerChoice)
    requires KeepLastRuns(ctx) >= 1 && !ch.locked && !LC.Decide(ctx, w, LC.GetState(ctx, w), ch).NoArtifact?
    ensures var w' := LC.ReconcileLayer(ctx, w, ch);
            && w'.status.syncScheduled == w.ann.syncNow
            && (w.ann.syncNow ==> Outside(ctx, w', RequestSync) == w')
            && (!w.ann.syncNow ==> Outside(ctx, w', RequestSync).ann.syncNow)
  {
  }

  /** The run a reconciliation made. */
  predicate Makes(ctx: Context, w: World, ch: LC.LayerChoice, action: Action) {
    var w' := LC.ReconcileLayer(ctx, w, ch);
    ch.run !in w.runs && ch.run in w'.runs && w'.runs[ch.run].action == action
  }

  /** The layer is shown as needing what it has just been given a run for, asked for or not, and as idle while a run is
      in progress. */
  lemma RunShown(ctx: Context, w: World, ch: LC.LayerChoice)
    requires Inv(ctx, w) && KeepLastRuns(ctx) >= 1 && ch.run !in w.runNames && !ch.locked
    ensures var w' := LC.ReconcileLayer(ctx, w, ch);
            && (Makes(ctx, w, ch, PlanAction) ==> w'.status.state == PlanNeeded)
            && (Makes(ctx, w, ch, ApplyAction) ==> w'.status.state == ApplyNeeded(w.ann.applyNow))
            && (LC.IsRunning(w) ==> w'.status.state == Idle)
  {
    RunMade(ctx, w, ch);
  }

  /** A sync request gets a plan run of the relevant commit exactly when the window is open, the commit is known and the
      run can be created. */
  lemma SyncServedIff(ctx: Context, w: World, ch: LC.LayerChoice)
    requires Inv(ctx, w) && KeepLastRuns(ctx) >= 1 && ch.run !in w.runNames && Answers(w, ch) && w.ann.syncNow
    ensures Makes(ctx, w, ch, PlanAction) <==> !ch.planBlocked && w.ann.relevantCommit.Some? && ch.created
    ensures !Makes(ctx, w, ch, ApplyAction)
    ensures Makes(ctx, w, ch, PlanAction) ==>
              Some(LC.ReconcileLayer(ctx, w, ch).runs[ch.run].revision) == w.ann.relevantCommit
  {
    RunMade(ctx, w, ch);
  }

  /** An apply request gets an apply run of the planned artifact, up to date or not and automatic or not, exactly when
      besides there is a plan. */
  lemma ApplyServedIff(ctx: Context, w: World, ch: LC.LayerChoice)
    requires Inv(ctx, w) && KeepLastRuns(ctx) >= 1 && ch.run !in w.runNames && Answers(w, ch)
    requires w.ann.applyNow && !w.ann.syncNow
    ensures Makes(ctx, w, ch, ApplyAction) <==>
              !ch.applyBlocked && w.ann.relevantCommit.Some? && w.ann.planRun.Some? && ch.created
    ensures !Makes(ctx, w, ch, PlanAction)
    ensures Makes(ctx, w, ch, ApplyAction) ==> LC.ReconcileLayer(ctx, w, ch).runs[ch.run].artifact == w.ann.planRun
  {
    RunMade(ctx, w, ch);
  }

  /** A run is there after the reconciliation exactly when it was decided on: the cleanup spares it. */
  lemma RunMade(ctx: Context, w: World, ch: LC.LayerChoice)
    requires Inv(ctx, w) && KeepLastRuns(ctx) >= 1 && ch.run !in w.runNames && !ch.locked
    ensures var decision := LC.Decide(ctx, w, LC.GetState(ctx, w), ch);
            var w' := LC.ReconcileLayer(ctx, w, ch);
            && ch.run !in w.runs
            && (ch.run in w'.runs <==> decision.Create?)
            && (decision.Create? ==> w'.runs[ch.run] == decision.run)
  {
    forall r | r in w.runs ensures r in w.runNames {
      assert RunOk(w, r);
    }
    LayerStepEffect(ctx, w, ch);
    var state, keep := LC.GetState(ctx, w), KeepLastRuns(ctx);
    var decision := LC.Decide(ctx, w, state, ch);
    if decision.Create? {
      CreateHistory(ctx, w, state, ch, decision.run);
      var recorded := LC.Recorded(w, state, ch, decision.run, keep);
      assert IsLast(recorded, ch.run);
      CleanupDeletes(ctx, recorded, ch.undeleted);
    }
  }

  /** The request is gone and nothing came of it. */
  predicate LosesSync(ctx: Context, w: World, ch: LC.LayerChoice) {
    w.ann.syncNow && !LC.ReconcileLayer(ctx, w, ch).ann.syncNow && !Makes(ctx, w, ch, PlanAction)
  }

  /** A sync request is lost exactly when it is taken off while its window is closed, the relevant commit is not known
      or the run cannot be created: it is taken off before these are looked at. */
  lemma SyncLostIff(ctx: Context, w: World, ch: LC.LayerChoice)
    requires Inv(ctx, w) && KeepLastRuns(ctx) >= 1 && ch.run !in w.runNames
    ensures LosesSync(ctx, w, ch) <==>
              && w.ann.syncNow && Answers(w, ch) && ch.unmarked
              && (ch.planBlocked || w.ann.relevantCommit.None? || !ch.created)
  {
    MarksTaken(ctx, w, ch);
    if Answers(w, ch) && w.ann.syncNow {
      SyncServedIff(ctx, w, ch);
    }
  }

  predicate LosesApplyRequest(ctx: Context, w: World, ch: LC.LayerChoice) {
    w.ann.applyNow && !LC.ReconcileLayer(ctx, w, ch).ann.applyNow && !Makes(ctx, w, ch, ApplyAction)
  }

  /** An apply request is lost in the same way, and also when nothing was planned yet, which panics; while a sync
      request is there as well it is never taken off. */
  lemma ApplyLostIff(ctx: Context, w: World, ch: LC.LayerChoice)
    requires Inv(ctx, w) && KeepLastRuns(ctx) >= 1 && ch.run !in w.runNames
    ensures LosesApplyRequest(ctx, w, ch) <==>
              && w.ann.applyNow && !w.ann.syncNow && Answers(w, ch) && ch.unmarked
              && (ch.applyBlocked || w.ann.relevantCommit.None? || w.ann.planRun.None? || !ch.created)
  {
    MarksTaken(ctx, w, ch);
    if Answers(w, ch) && w.ann.applyNow && !w.ann.syncNow {
      ApplyServedIff(ctx, w, ch);
    }
  }

  // ---- plans nobody asks for ----

  /** Nothing stands in the way of a plan run: no lease, no live run, no closed window, no failed call, and the last run
      did not give up planning this commit. */
  predicate Unhindered(ctx: Context, w: World, ch: LC.LayerChoice) {
    && Answers(w, ch) && !ch.planBlocked && ch.created && w.ann.relevantCommit.Some?
    && !LC.HasLastRunReachedRetryLimit(ctx, w, PlanAction)
  }

  lemma PlanDecided(ctx: Context, w: World, ch: LC.LayerChoice)
    requires Unhindered(ctx, w, ch) && !w.ann.syncNow && !w.ann.applyNow
    ensures var decision := LC.Decide(ctx, w, LC.GetState(ctx, w), ch);
            && (decision.Create? && decision.run.action == PlanAction <==> LC.PlanIsStale(ctx, w))
  {
  }

  /** A planned layer that nothing hinders and nobody asks for anything is planned again exactly when its plan has
      reached the drift detection period, or no commit of its branch is the planned one and the plan is not younger than
      the branch's last commit. While the plan is of the relevant commit, drift alone brings a plan, at the period's
      first second. */
  lemma PlansAgainIff(ctx: Context, w: World, ch: LC.LayerChoice)
    requires Inv(ctx, w) && KeepLastRuns(ctx) >= 1 && ch.run !in w.runNames && Unhindered(ctx, w, ch)
    requires !w.ann.syncNow && !w.ann.applyNow && w.ann.planRun.Some?
    ensures w.ann.planDate.At? && w.ann.planCommit.Some?
    ensures Makes(ctx, w, ch, PlanAction) <==>
              || w.now - w.ann.planDate.time >= ctx.settings.driftDetection
              || (w.ann.branchCommit.Some? && w.ann.planCommit != w.ann.branchCommit
                  && w.ann.planCommit != w.ann.relevantCommit
                  && (w.ann.branchDate.At? ==> w.ann.planDate.time <= w.ann.branchDate.time)
                  && !w.ann.branchDate.Garbled?)
    ensures w.ann.planCommit == w.ann.relevantCommit ==>
              (Makes(ctx, w, ch, PlanAction) <==> w.now - w.ann.planDate.time >= ctx.settings.driftDetection)
  {
    PlanDecided(ctx, w, ch);
    RunMade(ctx, w, ch);
  }
}
