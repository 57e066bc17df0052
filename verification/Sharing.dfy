/** What the leases exclude among different layers: nothing. The limit on runner pods does, when it is one. */
module Sharing {
  import opened Resources
  import RC = RunController
  import LC = LayerController
  import opened Protocol
  import opened Invariant
  import opened Exclusion
  import opened Lock
  import opened Cluster
  import opened Requests
  import opened PullRequests

  // ---- reachable clusters ----

  ghost predicate Reached(c0: Cluster, c: Cluster) {
    exists cs, es :: History(cs, es) && cs[0] == c0 && cs[|es|] == c
  }

  lemma ReachedStart(c: Cluster)
    requires NewCluster(c)
    ensures Reached(c, c)
  {
    assert History([c], []);
  }

  lemma HistoryAppend(cs: seq<Cluster>, es: seq<Event>, e: Event, c': Cluster)
    requires History(cs, es) && Happens(cs[|es|], e, c')
    ensures History(cs + [c'], es + [e])
  {
    var cs', es' := cs + [c'], es + [e];
    forall i | 0 <= i < |es'| ensures HappensAt(cs', es', i) {
      if i < |es| {
        assert HappensAt(cs, es, i);
      }
    }
  }

  lemma ReachedStep(c0: Cluster, c: Cluster, e: Event, c': Cluster)
    requires Reached(c0, c) && Happens(c, e, c')
    ensures Reached(c0, c')
  {
    var cs, es :| History(cs, es) && cs[0] == c0 && cs[|es|] == c;
    HistoryAppend(cs, es, e, c');
    assert (cs + [c'])[0] == c0 && (cs + [c'])[|es + [e]|] == c';
  }

  lemma ReachedInv(c0: Cluster, c: Cluster)
    requires Reached(c0, c)
    ensures AllInv(c) && SameMembers(c0, c)
  {
    var cs, es :| History(cs, es) && cs[0] == c0 && cs[|es|] == c;
    HistoryInv(cs, es, |es|);
  }

  /** The cluster after a step of one layer. */
  function After(c: Cluster, n: LayerName, step: Step): Cluster
    requires n in c.layers
  {
    var m := c.layers[n];
    c.(layers := c.layers[n := m.(world := Apply(m.ctx, m.world, step))],
       leases := LeasesAfter(c.leases, n, m, step, true))
  }

  lemma ReachedAfter(c0: Cluster, c: Cluster, n: LayerName, step: Step)
    requires Reached(c0, c) && n in c.layers && Agrees(c, c.layers[n], step) && Fresh(c.layers[n].world, step)
    ensures Reached(c0, After(c, n, step))
  {
    ReachedStep(c0, c, On(n, step, true), After(c, n, step));
  }

  // ---- two layers with a limit of one ----

  /** The two layers do not both have an active pod. */
  ghost predicate Apart(c: Cluster, a: LayerName, b: LayerName) {
    forall p, q :: !((a, p) in ActivePods(c.layers) && (b, q) in ActivePods(c.layers))
  }

  /** A layer whose limit is one gets its pod when no other is active. */
  lemma MadeAlone(c: Cluster, e: Event, c': Cluster, n: LayerName, p: PodName, m: LayerName, q: PodName)
    requires AllInv(c) && Happens(c, e, c') && n in c.layers && Limit(c.layers[n].ctx) == 1
    requires (n, p) in ActivePods(c'.layers) && (n, p) !in ActivePods(c.layers)
    ensures (m, q) !in ActivePods(c.layers) && (n, p) in Made(e)
  {
    HappensMoves(c, e, c');
    MadeByEvent(c, e, c', n, p);
    assert Agrees(c, c.layers[n], e.step) && !LimitReached(c, c.layers[n].ctx);
    if (m, q) in ActivePods(c.layers) {
      SubsetSize({(m, q)}, ActivePods(c.layers));
    }
  }

  lemma ApartKept(c: Cluster, e: Event, c': Cluster, a: LayerName, b: LayerName)
    requires AllInv(c) && Happens(c, e, c') && a in c.layers && b in c.layers && a != b
    requires Limit(c.layers[a].ctx) == 1 && Limit(c.layers[b].ctx) == 1 && Apart(c, a, b)
    ensures Apart(c', a, b)
  {
    forall p, q | (a, p) in ActivePods(c'.layers) && (b, q) in ActivePods(c'.layers) ensures false {
      if (a, p) !in ActivePods(c.layers) {
        MadeAlone(c, e, c', a, p, b, q);
        if (b, q) !in ActivePods(c.layers) {
          MadeAlone(c, e, c', b, q, a, p);
        }
      } else if (b, q) !in ActivePods(c.layers) {
        MadeAlone(c, e, c', b, q, a, p);
      }
    }
  }

  lemma ApartStep(cs: seq<Cluster>, es: seq<Event>, a: LayerName, b: LayerName, i: nat)
    requires History(cs, es) && i < |es| && a in cs[0].layers && b in cs[0].layers && a != b && Apart(cs[i], a, b)
    requires Limit(cs[0].layers[a].ctx) == 1 && Limit(cs[0].layers[b].ctx) == 1
    ensures Apart(cs[i + 1], a, b)
  {
    HistoryInv(cs, es, i);
    assert HappensAt(cs, es, i);
    ApartKept(cs[i], es[i], cs[i + 1], a, b);
  }

  lemma {:induction false} ApartAlong(cs: seq<Cluster>, es: seq<Event>, a: LayerName, b: LayerName, i: nat)
    requires History(cs, es) && i <= |es| && a in cs[0].layers && b in cs[0].layers && a != b
    requires Limit(cs[0].layers[a].ctx) == 1 && Limit(cs[0].layers[b].ctx) == 1
    ensures Apart(cs[i], a, b)
  {
    if i == 0 {
      assert forall n :: n in cs[0].layers ==> cs[0].layers[n].world.pods == map[];
    } else {
      ApartAlong(cs, es, a, b, i - 1);
      ApartStep(cs, es, a, b, i - 1);
    }
  }

  // ---- two layers with any other limit ----

  /** A sync of which the request stays on the layer. */
  function Insist(r: RunName): LC.LayerChoice {
    LC.LayerChoice(false, false, false, false, true, r, {})
  }

  /** A new run waits for its pod, with the sync request that it was made for still there. */
  predicate Waiting(w: World, r: RunName) {
    r in w.runs && w.runs[r].status == NEW_STATUS && w.pods == map[] && w.ann.syncNow && w.ann.relevantCommit.Some?
  }

  lemma RunAsked(ctx: Context, w: World, r: RunName)
    requires Inv(ctx, w) && KeepLastRuns(ctx) >= 1 && r !in w.runNames && !LC.IsRunning(w)
    requires w.pods == map[] && w.ann.syncNow && w.ann.relevantCommit.Some?
    ensures Waiting(LC.ReconcileLayer(ctx, w, Insist(r)), r)
  {
    RunMade(ctx, w, Insist(r));
  }

  /** All but n are as they were. */
  ghost predicate OnlyMoves(c: Cluster, c': Cluster, n: LayerName)
    requires n in c.layers
  {
    n in c'.layers && c' == c.(layers := c.layers[n := c.layers[n].(world := c'.layers[n].world)], leases := c'.leases)
  }

  /** A layer's run is made when it is asked for and neither a live run nor the lease stands in the way. */
  lemma AskedFor(c0: Cluster, c: Cluster, n: LayerName) returns (c': Cluster, r: RunName)
    requires Reached(c0, c) && n in c.layers && c.layers[n].lock !in c.leases && !LC.IsRunning(c.layers[n].world)
    requires c.layers[n].world.pods == map[]
    requires c.layers[n].world.ann.syncNow && c.layers[n].world.ann.relevantCommit.Some?
    ensures Reached(c0, c') && OnlyMoves(c, c', n) && c'.leases == c.leases && Waiting(c'.layers[n].world, r)
  {
    ReachedInv(c0, c);
    r := FreshName(c.layers[n].world.runNames);
    RunAsked(c.layers[n].ctx, c.layers[n].world, r);
    ReachedAfter(c0, c, n, LayerStep(Insist(r)));
    c' := After(c, n, LayerStep(Insist(r)));
  }

  ghost predicate NoPods(c: Cluster) {
    forall n :: n in c.layers ==> c.layers[n].world.pods == map[]
  }

  lemma Prepared(c0: Cluster, c: Cluster, n: LayerName) returns (c': Cluster, r: RunName)
    requires Reached(c0, c) && n in c.layers && c.leases == map[] && Init(c.layers[n].world) && NoPods(c)
    ensures Reached(c0, c') && OnlyMoves(c, c', n) && c'.leases == map[] && Waiting(c'.layers[n].world, r) && NoPods(c')
  {
    ReachedAfter(c0, c, n, SeeCommit("c", true));
    var c1 := After(c, n, SeeCommit("c", true));
    ReachedAfter(c0, c1, n, RequestSync);
    c', r := AskedFor(c0, After(c1, n, RequestSync), n);
  }

  /** A new run gets its pod at once with the lease; without it, it is shown as Initial all the same. */
  lemma NewRunServed(ctx: Context, w: World, r: RunName, locked: bool, p: PodName)
    requires Inv(ctx, w) && r in w.runs && w.runs[r].status.state == NoStatus && p !in w.podNames
    ensures var w1 := RC.ReconcileRun(ctx, w, r, Serve(locked, p));
            && Decided(ctx, w, r) == Initial && r in w1.runs && w1.ann == w.ann
            && if locked then w1.pods == w.pods[p := Pod(r, 0, PodPending, Started)]
               else w1.pods == w.pods && w1.podNames == w.podNames && w1.status == w.status
                    && w1.runs[r].status == NEW_STATUS.(state := Initial)
  {
    assert RunOk(w, r);
    RunStepCases(ctx, w, r, Serve(locked, p));
  }

  /** The retry of a run that was refused the lease does not look at the lease. */
  lemma RefusedRunServed(ctx: Context, w: World, r: RunName, p: PodName)
    requires r in w.runs && w.runs[r].status == NEW_STATUS.(state := Initial)
    requires p !in w.podNames
    ensures var w1 := RC.ReconcileRun(ctx, w, r, Serve(false, p));
            && w1.ann == w.ann && w1.status == w.status
            && if MaxRetries(ctx) >= 1 then
                 Decided(ctx, w, r) == Retrying && w1.pods == w.pods[p := Pod(r, 1, PodPending, Started)]
               else
                 Decided(ctx, w, r) == Failed && w1.pods == w.pods && r in w1.runs && w1.runs[r].status.state == Failed
  {
  }

  /** No pod but, perhaps, p of layer a. */
  ghost predicate AtMost(c: Cluster, a: LayerName, p: PodName) {
    forall n, q :: n in c.layers && q in c.layers[n].world.pods ==> n == a && q == p
  }

  lemma RoomBeside(c: Cluster, a: LayerName, p: PodName, ctx: Context)
    requires AtMost(c, a, p) && Limit(ctx) != 1
    ensures !LimitReached(c, ctx)
  {
    SubsetSize(ActivePods(c.layers), {(a, p)});
  }

  lemma RoomAtFirst(c: Cluster, ctx: Context)
    requires NoPods(c)
    ensures !LimitReached(c, ctx)
  {
    assert ActivePods(c.layers) == {};
  }

  /** One reconciliation of a run, in which nothing fails but, perhaps, the lease. */
  lemma Reconciled(c0: Cluster, c: Cluster, n: LayerName, r: RunName, locked: bool, p: PodName) returns (c': Cluster)
    requires Reached(c0, c) && n in c.layers && !LimitReached(c, c.layers[n].ctx)
    requires Reconciles(c.layers[n].world, r, Serve(locked, p)) && p !in c.layers[n].world.podNames
    requires locked ==> c.layers[n].lock !in c.leases
    ensures Reached(c0, c') && OnlyMoves(c, c', n)
    ensures var m := c.layers[n];
            var state := Decided(m.ctx, m.world, r);
            && c'.layers[n].world == RC.ReconcileRun(m.ctx, m.world, r, Serve(locked, p))
            && c'.leases ==
               if state == Initial && locked then c.leases[m.lock := (n, r)]
               else if Terminal(state) then c.leases - {m.lock}
               else c.leases
  {
    ReachedAfter(c0, c, n, RunStep(r, Serve(locked, p)));
    c' := After(c, n, RunStep(r, Serve(locked, p)));
  }

  /** A run that was refused the lease: shown as Initial, without a pod. */
  predicate TurnedAway(w: World, r: RunName) {
    && r in w.runs && w.runs[r].status == NEW_STATUS.(state := Initial)
    && w.pods == map[] && w.ann.syncNow && w.ann.relevantCommit.Some?
    && w.status.lastRun.Some? && w.status.lastRun.value.name == r
  }

  lemma WaitingReconciled(c0: Cluster, c: Cluster, n: LayerName, r: RunName, locked: bool, p: PodName)
    requires Reached(c0, c) && n in c.layers && Waiting(c.layers[n].world, r) && p !in c.layers[n].world.podNames
    ensures var m := c.layers[n];
            var w1 := RC.ReconcileRun(m.ctx, m.world, r, Serve(locked, p));
            && Decided(m.ctx, m.world, r) == Initial
            && if locked then w1.pods == map[p := Pod(r, 0, PodPending, Started)] else TurnedAway(w1, r)
  {
    var m := c.layers[n];
    ReachedInv(c0, c);
    assert RunOk(m.world, r);
    NewRunServed(m.ctx, m.world, r, locked, p);
  }

  /** A waiting run that gets the lease gets its pod. */
  lemma WaitingServed(c0: Cluster, c: Cluster, n: LayerName, r: RunName) returns (c': Cluster, p: PodName)
    requires Reached(c0, c) && n in c.layers && Waiting(c.layers[n].world, r)
    requires c.layers[n].lock !in c.leases && !LimitReached(c, c.layers[n].ctx)
    ensures Reached(c0, c') && OnlyMoves(c, c', n) && c'.leases == c.leases[c.layers[n].lock := (n, r)]
    ensures c'.layers[n].world.pods.Keys == {p} && Active(c'.layers[n].world.pods[p])
  {
    p := FreshName(c.layers[n].world.podNames);
    WaitingReconciled(c0, c, n, r, true, p);
    c' := Reconciled(c0, c, n, r, true, p);
  }

  lemma WaitingTurnedAway(c0: Cluster, c: Cluster, n: LayerName, r: RunName) returns (c': Cluster)
    requires Reached(c0, c) && n in c.layers && Waiting(c.layers[n].world, r) && !LimitReached(c, c.layers[n].ctx)
    ensures Reached(c0, c') && OnlyMoves(c, c', n) && c'.leases == c.leases && TurnedAway(c'.layers[n].world, r)
  {
    var p := FreshName(c.layers[n].world.podNames);
    WaitingReconciled(c0, c, n, r, false, p);
    c' := Reconciled(c0, c, n, r, false, p);
  }

  /** It gets its pod by retrying. */
  lemma TurnedAwayRetries(c0: Cluster, c: Cluster, n: LayerName, r: RunName) returns (c': Cluster, p: PodName)
    requires Reached(c0, c) && n in c.layers && TurnedAway(c.layers[n].world, r)
    requires MaxRetries(c.layers[n].ctx) >= 1 && !LimitReached(c, c.layers[n].ctx)
    ensures Reached(c0, c') && OnlyMoves(c, c', n)
    ensures c'.layers[n].world.pods.Keys == {p} && Active(c'.layers[n].world.pods[p])
  {
    var m := c.layers[n];
    p := FreshName(m.world.podNames);
    RefusedRunServed(m.ctx, m.world, r, p);
    c' := Reconciled(c0, c, n, r, false, p);
  }

  /** Without retries it fails, and frees the lease that the other layer's run holds. */
  lemma TurnedAwayFails(c0: Cluster, c: Cluster, n: LayerName, r: RunName) returns (c': Cluster)
    requires Reached(c0, c) && n in c.layers && TurnedAway(c.layers[n].world, r)
    requires MaxRetries(c.layers[n].ctx) < 1 && !LimitReached(c, c.layers[n].ctx)
    ensures Reached(c0, c') && OnlyMoves(c, c', n) && c'.leases == c.leases - {c.layers[n].lock}
    ensures var w := c'.layers[n].world;
            !LC.IsRunning(w) && w.pods == map[] && w.ann.syncNow && w.ann.relevantCommit.Some?
  {
    var m := c.layers[n];
    var p := FreshName(m.world.podNames);
    RefusedRunServed(m.ctx, m.world, r, p);
    c' := Reconciled(c0, c, n, r, false, p);
  }

  /** Whoever holds the lease, the waiting run of a layer without pods gets a pod, or the next run of its layer does. */
  lemma ServedAnyway(c0: Cluster, c: Cluster, a: LayerName, p: PodName, b: LayerName, r: RunName)
    returns (c': Cluster, q: PodName)
    requires Reached(c0, c) && AtMost(c, a, p) && a != b
    requires b in c.layers && Waiting(c.layers[b].world, r) && Limit(c.layers[b].ctx) != 1
    ensures Reached(c0, c') && OnlyMoves(c, c', b)
    ensures c'.layers[b].world.pods.Keys == {q} && Active(c'.layers[b].world.pods[q])
  {
    var ctx := c.layers[b].ctx;
    RoomBeside(c, a, p, ctx);
    if c.layers[b].lock !in c.leases {
      c', q := WaitingServed(c0, c, b, r);
    } else {
      c' := WaitingTurnedAway(c0, c, b, r);
      RoomBeside(c', a, p, ctx);
      if MaxRetries(ctx) >= 1 {
        c', q := TurnedAwayRetries(c0, c', b, r);
      } else {
        c' := TurnedAwayFails(c0, c', b, r);
        var s;
        c', s := AskedFor(c0, c', b);
        RoomBeside(c', a, p, ctx);
        c', q := WaitingServed(c0, c', b, s);
      }
    }
  }

  /** Both layers have a run that waits. */
  lemma BothPrepared(c0: Cluster, a: LayerName, b: LayerName) returns (c: Cluster, r: RunName, s: RunName)
    requires NewCluster(c0) && a in c0.layers && b in c0.layers && a != b
    ensures Reached(c0, c) && SameMembers(c0, c) && c.leases == map[]
    ensures Waiting(c.layers[a].world, r) && Waiting(c.layers[b].world, s)
    ensures NoPods(c)
  {
    ReachedStart(c0);
    c, r := Prepared(c0, c0, a);
    var c1 := c;
    c, s := Prepared(c0, c1, b);
    TwoMoves(c0, c1, c, a, b);
  }

  lemma TwoMoves(c0: Cluster, c1: Cluster, c2: Cluster, a: LayerName, b: LayerName)
    requires a in c0.layers && b in c1.layers && a != b && OnlyMoves(c0, c1, a) && OnlyMoves(c1, c2, b)
    ensures SameMembers(c0, c2) && c2.layers[a] == c1.layers[a]
  {
  }

  /** The first layer's run is served, and then the second's all the same. */
  lemma BothServed(c0: Cluster, a: LayerName, b: LayerName) returns (c: Cluster)
    requires NewCluster(c0) && a in c0.layers && b in c0.layers && a != b && Limit(c0.layers[b].ctx) != 1
    ensures Reached(c0, c) && !Apart(c, a, b)
  {
    var r, s, p, q;
    c, r, s := BothPrepared(c0, a, b);
    RoomAtFirst(c, c.layers[a].ctx);
    c, p := WaitingServed(c0, c, a, r);
    c, q := ServedAnyway(c0, c, a, p, b, s);
    assert (a, p) in ActivePods(c.layers) && (b, q) in ActivePods(c.layers);
  }

  // ---- what excludes ----

  /** Two layers never both have an active pod exactly when the limit of both is one: whether they share a lease makes
      no difference. */
  lemma ApartIff(c0: Cluster, a: LayerName, b: LayerName)
    requires NewCluster(c0) && a in c0.layers && b in c0.layers && a != b
    ensures (forall c :: Reached(c0, c) ==> Apart(c, a, b))
            <==> Limit(c0.layers[a].ctx) == 1 && Limit(c0.layers[b].ctx) == 1
  {
    if Limit(c0.layers[b].ctx) != 1 {
      var c := BothServed(c0, a, b);
    } else if Limit(c0.layers[a].ctx) != 1 {
      var c := BothServed(c0, b, a);
      assert !Apart(c, a, b);
    } else {
      forall c | Reached(c0, c) ensures Apart(c, a, b) {
        var cs, es :| History(cs, es) && cs[0] == c0 && cs[|es|] == c;
        ApartAlong(cs, es, a, b, |es|);
      }
    }
  }

  /** At most one runner pod is active among the layers that use a lease. */
  ghost predicate LockExclusive(c: Cluster, lock: LockKey) {
    forall n, m, p, q ::
      n in c.layers && m in c.layers && c.layers[n].lock == lock && c.layers[m].lock == lock
      && (n, p) in ActivePods(c.layers) && (m, q) in ActivePods(c.layers)
      ==> n == m && p == q
  }

  /** The layer shares its lease. */
  ghost predicate Shares(c: Cluster, n: LayerName)
    requires n in c.layers
  {
    exists m :: m in c.layers && m != n && c.layers[m].lock == c.layers[n].lock
  }

  /** A lease excludes, in every reachable state, exactly when one layer has it to itself or all layers that share it
      are limited to one pod. */
  lemma LockExcludesIff(c0: Cluster, lock: LockKey)
    requires NewCluster(c0)
    ensures (forall c :: Reached(c0, c) ==> LockExclusive(c, lock))
            <==> (forall n :: n in c0.layers && c0.layers[n].lock == lock && Shares(c0, n) ==>
                    Limit(c0.layers[n].ctx) == 1)
  {
    if forall n :: n in c0.layers && c0.layers[n].lock == lock && Shares(c0, n) ==> Limit(c0.layers[n].ctx) == 1 {
      forall c | Reached(c0, c) ensures LockExclusive(c, lock) {
        AllApart(c0, c, lock);
      }
    } else {
      var n :| n in c0.layers && c0.layers[n].lock == lock && Shares(c0, n) && Limit(c0.layers[n].ctx) != 1;
      var m :| m in c0.layers && m != n && c0.layers[m].lock == lock;
      var c := BothServed(c0, m, n);
      ReachedInv(c0, c);
      assert !LockExclusive(c, lock);
    }
  }

  lemma AllApart(c0: Cluster, c: Cluster, lock: LockKey)
    requires NewCluster(c0) && Reached(c0, c)
    requires forall n :: n in c0.layers && c0.layers[n].lock == lock && Shares(c0, n) ==> Limit(c0.layers[n].ctx) == 1
    ensures LockExclusive(c, lock)
  {
    ReachedInv(c0, c);
    forall n, m, p, q |
      n in c.layers && m in c.layers && c.layers[n].lock == lock && c.layers[m].lock == lock
      && (n, p) in ActivePods(c.layers) && (m, q) in ActivePods(c.layers)
      ensures n == m && p == q
    {
      if n == m {
        InvExclusive(c.layers[n].ctx, c.layers[n].world);
      } else {
        assert Shares(c0, n) && Shares(c0, m);
        ApartIff(c0, n, m);
      }
    }
  }

  // ---- pull requests ----

  /** b is a pull request's copy of the layer a. */
  ghost predicate CopyOf(c: Cluster, pr: PullRequest, layer: LayerObject, a: LayerName, b: LayerName) {
    && a in c.layers && b in c.layers && a != b
    && c.layers[a].place == layer.place
    && c.layers[b].place == TempLayer(pr, layer).place && c.layers[b].ctx.layer == TempLayer(pr, layer).spec
    && c.layers[b].ctx.repo == c.layers[a].ctx.repo && c.layers[b].ctx.settings == c.layers[a].ctx.settings
  }

  /** A pull request's layer shares the lease of the layer it was made from, whatever the hash, and has its pod beside
      that layer's pod in some reachable state exactly when their repository's limit is not one. */
  lemma PullRequestApartIff(c0: Cluster, pr: PullRequest, layer: LayerObject, a: LayerName, b: LayerName)
    requires NewCluster(c0) && CopyOf(c0, pr, layer, a, b)
    ensures c0.layers[b].lock == c0.layers[a].lock && !OwnLock(c0, a) && !OwnLock(c0, b)
    ensures (forall c :: Reached(c0, c) ==> Apart(c, a, b)) <==> Limit(c0.layers[a].ctx) == 1
  {
    ApartIff(c0, a, b);
  }
}
