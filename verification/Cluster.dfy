/** Many layers in one cluster: the leases they share and the limit on runner pods. */
module Cluster {
  import opened Resources
  import RC = RunController
  import LC = LayerController
  import opened Protocol
  import opened Invariant
  import opened Exclusion
  import opened Lock

  type LayerName = string

  /** A layer with its settings, its place and the key of its lease. */
  datatype Member = Member(ctx: Context, place: Place, lock: LockKey, world: World)

  /** The layers; the leases, each with the layer and the run that own it; the hash that names them. */
  datatype Cluster = Cluster(
    layers: map<LayerName, Member>, leases: map<LockKey, (LayerName, RunName)>, hash: string -> nat)

  datatype Event =
    | On(layer: LayerName, step: Step, unlocked: bool)   // a step of one layer; unlocked: DeleteLock would succeed
    | Collect(lock: LockKey)                             // garbage collection of a lease whose run is gone
    | Wait(seconds: nat)

  // ---- shared state ----

  ghost function ActivePods(layers: map<LayerName, Member>): set<(LayerName, PodName)> {
    set n, p | n in layers && p in layers[n].world.pods && Active(layers[n].world.pods[p]) :: (n, p)
  }

  ghost predicate LimitReached(c: Cluster, ctx: Context) {
    Limit(ctx) > 0 && |ActivePods(c.layers)| >= Limit(ctx)
  }

  /** What the API server answers agrees with the shared state; it may always fail instead. */
  ghost predicate Agrees(c: Cluster, m: Member, step: Step) {
    match step
    case LayerStep(ch) => ch.locked == (m.lock in c.leases)
    case RunStep(_, ch) => (ch.locked ==> m.lock !in c.leases) && (ch.room ==> !LimitReached(c, m.ctx))
    case Tick(_) => false
    case _ => true
  }

  function LeasesAfter(
    leases: map<LockKey, (LayerName, RunName)>, name: LayerName, m: Member, step: Step, unlocked: bool)
    : map<LockKey, (LayerName, RunName)>
  {
    if step.RunStep? && Reconciles(m.world, step.run, step.choice) then
      var st := m.world.runs[step.run].status;
      var state := RC.GetState(m.ctx, st, RC.PhaseOf(m.world.pods, st.runnerPod), m.world.now);
      if state == Initial && step.choice.locked then leases[m.lock := (name, step.run)]
      else if Terminal(state) && unlocked then leases - {m.lock}
      else leases
    else leases
  }

  ghost predicate Happens(c: Cluster, e: Event, c': Cluster) {
    match e
    case On(n, step, unlocked) =>
      && n in c.layers
      && var m := c.layers[n];
      && Agrees(c, m, step) && Fresh(m.world, step)
      && c' == c.(
           layers := c.layers[n := m.(world := Apply(m.ctx, m.world, step))],
           leases := LeasesAfter(c.leases, n, m, step, unlocked))
    case Collect(lock) =>
      && lock in c.leases
      && (c.leases[lock].0 in c.layers ==> c.leases[lock].1 !in c.layers[c.leases[lock].0].world.runs)
      && c' == c.(leases := c.leases - {lock})
    case Wait(s) =>
      c' == c.(layers := map n | n in c.layers ::
        c.layers[n].(world := Apply(c.layers[n].ctx, c.layers[n].world, Tick(s))))
  }

  ghost predicate HappensAt(cs: seq<Cluster>, es: seq<Event>, i: nat) {
    i < |es| && i + 1 < |cs| && Happens(cs[i], es[i], cs[i + 1])
  }

  /** New layers, each with its lease key, and no leases. */
  ghost predicate NewCluster(c: Cluster) {
    && c.leases == map[]
    && (forall n :: n in c.layers ==> Init(c.layers[n].world) && KeepLastRuns(c.layers[n].ctx) >= 1)
    && (forall n :: n in c.layers ==> c.layers[n].lock == LeaseKey(c.hash, c.layers[n].place))
  }

  ghost predicate History(cs: seq<Cluster>, es: seq<Event>) {
    && |cs| == |es| + 1
    && NewCluster(cs[0])
    && (forall i :: 0 <= i < |es| ==> HappensAt(cs, es, i))
  }

  ghost predicate AllInv(c: Cluster) {
    forall n :: n in c.layers ==> KeepLastRuns(c.layers[n].ctx) >= 1 && Inv(c.layers[n].ctx, c.layers[n].world)
  }

  /** Settings, places and lease keys stay what they are. */
  ghost predicate SameMembers(c: Cluster, c': Cluster) {
    && c'.layers.Keys == c.layers.Keys
    && (forall n :: n in c.layers ==> c'.layers[n] == c.layers[n].(world := c'.layers[n].world))
  }

  /** What an event means for one layer: a step of its own, a tick, or nothing. */
  ghost predicate LayerMoves(c: Cluster, e: Event, c': Cluster, n: LayerName)
    requires n in c.layers
  {
    && n in c'.layers
    && c'.layers[n] == c.layers[n].(world := c'.layers[n].world)
    && var ctx, w, w' := c.layers[n].ctx, c.layers[n].world, c'.layers[n].world;
    match e
    case On(m, step, _) => if m == n then Agrees(c, c.layers[n], step) && Next(ctx, w, step, w') else w' == w
    case Collect(_) => w' == w
    case Wait(s) => Next(ctx, w, Tick(s), w')
  }

  lemma HappensMoves(c: Cluster, e: Event, c': Cluster)
    requires Happens(c, e, c')
    ensures c'.layers.Keys == c.layers.Keys
    ensures forall n :: n in c.layers ==> LayerMoves(c, e, c', n)
  {
  }

  lemma MovesInv(c: Cluster, e: Event, c': Cluster, n: LayerName)
    requires n in c.layers && KeepLastRuns(c.layers[n].ctx) >= 1 && Inv(c.layers[n].ctx, c.layers[n].world)
    requires LayerMoves(c, e, c', n)
    ensures Inv(c'.layers[n].ctx, c'.layers[n].world)
  {
    if e.On? && e.layer == n {
      NextInv(c.layers[n].ctx, c.layers[n].world, e.step);
    } else if e.Wait? {
      NextInv(c.layers[n].ctx, c.layers[n].world, Tick(e.seconds));
    }
  }

  lemma HappensInv(c: Cluster, e: Event, c': Cluster)
    requires AllInv(c) && Happens(c, e, c')
    ensures AllInv(c') && SameMembers(c, c')
  {
    HappensMoves(c, e, c');
    forall n | n in c'.layers ensures KeepLastRuns(c'.layers[n].ctx) >= 1 && Inv(c'.layers[n].ctx, c'.layers[n].world) {
      MovesInv(c, e, c', n);
    }
  }

  lemma NewClusterInv(c: Cluster)
    requires NewCluster(c)
    ensures AllInv(c) && SameMembers(c, c)
  {
    forall n | n in c.layers ensures Inv(c.layers[n].ctx, c.layers[n].world) {
      InitInv(c.layers[n].ctx, c.layers[n].world);
    }
  }

  lemma SameMembersOn(c: Cluster, c1: Cluster, c2: Cluster)
    requires SameMembers(c, c1) && SameMembers(c1, c2)
    ensures SameMembers(c, c2)
  {
  }

  lemma HistoryStep(cs: seq<Cluster>, es: seq<Event>, i: nat)
    requires History(cs, es) && i < |es| && AllInv(cs[i]) && SameMembers(cs[0], cs[i])
    ensures AllInv(cs[i + 1]) && SameMembers(cs[0], cs[i + 1])
  {
    assert HappensAt(cs, es, i);
    HappensInv(cs[i], es[i], cs[i + 1]);
    SameMembersOn(cs[0], cs[i], cs[i + 1]);
  }

  lemma {:induction false} HistoryInv(cs: seq<Cluster>, es: seq<Event>, i: nat)
    requires History(cs, es) && i <= |es|
    ensures AllInv(cs[i]) && SameMembers(cs[0], cs[i])
  {
    if i == 0 {
      NewClusterInv(cs[0]);
    } else {
      var j := i - 1;
      HistoryInv(cs, es, j);
      HistoryStep(cs, es, j);
      assert cs[j + 1] == cs[i];
    }
  }

  // ---- the limit on runner pods ----

  /** The list of all runner pods of the cluster, each once, under its layer and name. */
  ghost predicate ListsPods(c: Cluster, names: seq<(LayerName, PodName)>, pods: seq<Pod>) {
    && |names| == |pods| && AllDifferent(names)
    && (forall i :: 0 <= i < |names| ==>
          && names[i].0 in c.layers && names[i].1 in c.layers[names[i].0].world.pods
          && pods[i] == c.layers[names[i].0].world.pods[names[i].1])
    && (forall n, p :: n in c.layers && p in c.layers[n].world.pods ==> (n, p) in names)
  }

  ghost function ActiveIndices(pods: seq<Pod>, n: nat): set<nat>
    requires n <= |pods|
  {
    set i: nat | i < n && Active(pods[i])
  }

  ghost function Image<T>(names: seq<T>, s: set<nat>): set<T>
    requires forall i :: i in s ==> i < |names|
  {
    set i | i in s :: names[i]
  }

  ghost predicate AllDifferent<T>(names: seq<T>) {
    forall i, j :: 0 <= i < j < |names| ==> names[i] != names[j]
  }

  lemma {:induction false} ImageSize<T>(names: seq<T>, s: set<nat>)
    requires (forall i :: i in s ==> i < |names|) && AllDifferent(names)
    ensures |Image(names, s)| == |s|
  {
    if s == {} {
      assert Image(names, s) == {};
    } else {
      var x :| x in s;
      var rest := s - {x};
      ImageSize(names, rest);
      ImageMore(names, rest, x);
      assert rest + {x} == s;
    }
  }

  lemma ImageMore<T>(names: seq<T>, s: set<nat>, x: nat)
    requires (forall i :: i in s ==> i < |names|) && x < |names| && x !in s && AllDifferent(names)
    ensures Image(names, s + {x}) == Image(names, s) + {names[x]} && names[x] !in Image(names, s)
  {
  }

  /** Counting the active pods of the list answers whether the limit is reached. */
  lemma CountedLimit(c: Cluster, ctx: Context, names: seq<(LayerName, PodName)>, pods: seq<Pod>)
    requires ListsPods(c, names, pods)
    ensures LimitReached(c, ctx) <==> Limit(ctx) > 0 && |ActiveIndices(pods, |pods|)| >= Limit(ctx)
  {
    var active := ActiveIndices(pods, |pods|);
    ImageSize(names, active);
    var counted := Image(names, active);
    forall x | x in ActivePods(c.layers) ensures x in counted {
      var i :| 0 <= i < |names| && names[i] == (x.0, x.1);
      assert i in active;
    }
    assert counted == ActivePods(c.layers);
  }

  /** The pods an event may make active: one, by a reconciliation of a run that was told there is room. */
  ghost function Made(e: Event): set<(LayerName, PodName)> {
    if e.On? && e.step.RunStep? && e.step.choice.room then {(e.layer, e.step.choice.pod)} else {}
  }

  lemma OnePodAtATime(ctx: Context, w: World, step: Step, w': World, p: PodName)
    requires Inv(ctx, w) && Next(ctx, w, step, w') && p in w'.pods && Active(w'.pods[p])
    ensures (p in w.pods && Active(w.pods[p])) || (step.RunStep? && p == step.choice.pod && step.choice.room)
  {
    NextEffect(ctx, w, step);
    assert p in w.pods ==> PodOk(w, p);
  }

  lemma MadeByEvent(c: Cluster, e: Event, c': Cluster, n: LayerName, p: PodName)
    requires AllInv(c) && n in c.layers && LayerMoves(c, e, c', n)
    requires p in c'.layers[n].world.pods && Active(c'.layers[n].world.pods[p])
    ensures (p in c.layers[n].world.pods && Active(c.layers[n].world.pods[p])) || (n, p) in Made(e)
  {
    if e.On? && e.layer == n {
      OnePodAtATime(c.layers[n].ctx, c.layers[n].world, e.step, c'.layers[n].world, p);
    } else if e.Wait? {
      OnePodAtATime(c.layers[n].ctx, c.layers[n].world, Tick(e.seconds), c'.layers[n].world, p);
    }
  }

  lemma ActiveAfter(c: Cluster, e: Event, c': Cluster)
    requires AllInv(c) && Happens(c, e, c')
    ensures ActivePods(c'.layers) <= ActivePods(c.layers) + Made(e)
  {
    HappensMoves(c, e, c');
    forall x | x in ActivePods(c'.layers) ensures x in ActivePods(c.layers) + Made(e) {
      MadeByEvent(c, e, c', x.0, x.1);
    }
  }

  lemma LimitKept(c: Cluster, e: Event, c': Cluster, k: nat)
    requires AllInv(c) && Happens(c, e, c') && |ActivePods(c.layers)| <= k
    requires forall n :: n in c.layers ==> 1 <= Limit(c.layers[n].ctx) <= k
    ensures |ActivePods(c'.layers)| <= k
  {
    var before := ActivePods(c.layers);
    ActiveAfter(c, e, c');
    SubsetSize(ActivePods(c'.layers), before + Made(e));
    if Made(e) != {} {
      HappensMoves(c, e, c');
      assert LayerMoves(c, e, c', e.layer) && Agrees(c, c.layers[e.layer], e.step);
      assert !LimitReached(c, c.layers[e.layer].ctx);
    }
  }

  lemma LimitStep(cs: seq<Cluster>, es: seq<Event>, k: nat, i: nat)
    requires History(cs, es) && i < |es| && |ActivePods(cs[i].layers)| <= k
    requires forall n :: n in cs[0].layers ==> 1 <= Limit(cs[0].layers[n].ctx) <= k
    ensures |ActivePods(cs[i + 1].layers)| <= k
  {
    HistoryInv(cs, es, i);
    assert HappensAt(cs, es, i);
    LimitKept(cs[i], es[i], cs[i + 1], k);
  }

  /** However the reconciliations of all layers interleave, the cluster never has more active runner pods than the
      largest limit any of its repositories is given. */
  lemma {:induction false} PodLimitHolds(cs: seq<Cluster>, es: seq<Event>, k: nat, i: nat)
    requires History(cs, es) && i <= |es|
    requires forall n :: n in cs[0].layers ==> 1 <= Limit(cs[0].layers[n].ctx) <= k
    ensures |ActivePods(cs[i].layers)| <= k
  {
    if i == 0 {
      assert ActivePods(cs[0].layers) == {};
    } else {
      PodLimitHolds(cs, es, k, i - 1);
      LimitStep(cs, es, k, i - 1);
    }
  }

  // ---- leases ----

  /** No other layer has the same lease. */
  ghost predicate OwnLock(c: Cluster, n: LayerName)
    requires n in c.layers
  {
    forall m :: m in c.layers && m != n ==> c.layers[m].lock != c.layers[n].lock
  }

  /** The layer's last run has begun and is not over. */
  predicate Busy(w: World) {
    && LC.IsRunning(w)
    && w.runs[w.status.lastRun.value.name].status.state != NoStatus
  }

  ghost predicate LeaseOk(c: Cluster, n: LayerName)
    requires n in c.layers
  {
    && (c.layers[n].lock in c.leases <==> Busy(c.layers[n].world))
    && (c.layers[n].lock in c.leases ==>
          c.leases[c.layers[n].lock].0 == n && c.leases[c.layers[n].lock].1 in c.layers[n].world.runs)
  }

  /** The lease requests of the layer's runs reach the API server. */
  ghost predicate ReliableLock(c: Cluster, e: Event, n: LayerName)
    requires n in c.layers
  {
    e.On? && e.layer == n && e.step.RunStep? ==>
      e.unlocked && (c.layers[n].lock !in c.leases ==> e.step.choice.locked)
  }

  /** What an event does to one lease. */
  lemma LeasesMove(c: Cluster, e: Event, c': Cluster, n: LayerName)
    requires Happens(c, e, c') && n in c.layers && OwnLock(c, n)
    ensures var lock := c.layers[n].lock;
            if e.On? && e.layer == n then
              c'.leases == LeasesAfter(c.leases, n, c.layers[n], e.step, e.unlocked)
            else
              && (lock in c'.leases ==> lock in c.leases && c'.leases[lock] == c.leases[lock])
              && (lock in c.leases && lock !in c'.leases ==>
                    e.Collect? && (c.leases[lock].0 in c.layers ==>
                                     c.leases[lock].1 !in c.layers[c.leases[lock].0].world.runs))
  {
  }

  /** What a reconciliation of one of the layer's runs does to the layer and to its lease. */
  lemma OwnRunEvent(c: Cluster, e: Event, c': Cluster, n: LayerName)
    requires Happens(c, e, c') && n in c.layers && e.On? && e.layer == n && e.step.RunStep?
    ensures n in c'.layers
    ensures var m, ch := c.layers[n], e.step.choice;
            && c'.layers[n] == m.(world := RC.ReconcileRun(m.ctx, m.world, e.step.run, ch))
            && c'.leases == LeasesAfter(c.leases, n, m, e.step, e.unlocked)
            && (ch.locked ==> m.lock !in c.leases)
  {
  }

  lemma LeaseOwnRun(c: Cluster, e: Event, c': Cluster, n: LayerName)
    requires Happens(c, e, c') && n in c.layers && LeaseOk(c, n) && ReliableLock(c, e, n)
    requires RunsOk(c.layers[n].world) && e.On? && e.layer == n && e.step.RunStep?
    ensures n in c'.layers && LeaseOk(c', n)
  {
    var m, step := c.layers[n], e.step;
    OwnRunEvent(c, e, c', n);
    if Reconciles(m.world, step.run, step.choice) {
      RunStepCases(m.ctx, m.world, step.run, step.choice);
      LeaseRunStep(m.ctx, m.world, c'.layers[n].world, step.run, step.choice);
    }
  }

  lemma LeaseOwnOther(c: Cluster, e: Event, c': Cluster, n: LayerName)
    requires AllInv(c) && Happens(c, e, c') && n in c.layers && LeaseOk(c, n)
    requires e.On? && e.layer == n && OwnLock(c, n) && !e.step.RunStep?
    ensures LeaseOk(c', n)
  {
    var m, step := c.layers[n], e.step;
    HappensMoves(c, e, c');
    LeasesMove(c, e, c', n);
    assert LayerMoves(c, e, c', n) && Inv(m.ctx, m.world);
    NextEffect(m.ctx, m.world, step);
    if step.LayerStep? {
      LeaseLayerStep(m.ctx, m.world, step.layer);
    }
  }

  /** The run that is reconciled is the last one: it takes the lease with its first status and lets go with its last. */
  lemma LeaseRunStep(ctx: Context, w: World, w': World, r: RunName, ch: RC.RunChoice)
    requires RunsOk(w) && Reconciles(w, r, ch) && RunEffect(ctx, w, w', r, ch)
    ensures IsLast(w, r) && LC.IsRunning(w)
    ensures Busy(w') <==> !Terminal(Decided(ctx, w, r))
    ensures Decided(ctx, w, r) == Initial <==> !Busy(w)
  {
  }

  /** The layer controller neither begins nor ends a run. */
  lemma LeaseLayerStep(ctx: Context, w: World, ch: LC.LayerChoice)
    requires Inv(ctx, w) && KeepLastRuns(ctx) >= 1 && ch.run !in w.runNames && (ch.locked <==> Busy(w))
    ensures Busy(LC.ReconcileLayer(ctx, w, ch)) == Busy(w)
    ensures ch.locked ==> LC.ReconcileLayer(ctx, w, ch) == w
  {
    var w' := LC.ReconcileLayer(ctx, w, ch);
    if !ch.locked {
      forall r | r in w.runs ensures r in w.runNames && (!Terminal(w.runs[r].status.state) ==> IsLast(w, r)) {
        assert RunOk(w, r);
      }
      LayerStepEffect(ctx, w, ch);
    }
  }

  lemma LeaseOtherStep(c: Cluster, e: Event, c': Cluster, n: LayerName)
    requires Happens(c, e, c') && n in c.layers && LeaseOk(c, n) && OwnLock(c, n)
    requires !(e.On? && e.layer == n)
    ensures n in c'.layers && LeaseOk(c', n)
  {
  }

  lemma LeaseNext(c: Cluster, e: Event, c': Cluster, n: LayerName)
    requires AllInv(c) && Happens(c, e, c') && n in c.layers && LeaseOk(c, n) && ReliableLock(c, e, n) && OwnLock(c, n)
    ensures n in c'.layers && LeaseOk(c', n)
  {
    if !(e.On? && e.layer == n) {
      LeaseOtherStep(c, e, c', n);
    } else if e.step.RunStep? {
      LeaseOwnRun(c, e, c', n);
    } else {
      LeaseOwnOther(c, e, c', n);
    }
  }

  lemma LeaseStep(cs: seq<Cluster>, es: seq<Event>, n: LayerName, i: nat)
    requires History(cs, es) && i < |es| && n in cs[0].layers && OwnLock(cs[0], n)
    requires n in cs[i].layers && LeaseOk(cs[i], n) && ReliableLock(cs[i], es[i], n)
    ensures n in cs[i + 1].layers && LeaseOk(cs[i + 1], n)
  {
    HistoryInv(cs, es, i);
    SameOwnLock(cs[0], cs[i], n);
    assert HappensAt(cs, es, i);
    LeaseNext(cs[i], es[i], cs[i + 1], n);
  }

  /** For a lease name that one layer has to itself, as long as lease requests reach the API server: the lease exists
      exactly while the layer's last run has begun and is not over. So no run is ever refused it, and every run that
      ends gives it back. */
  lemma {:induction false} LeaseFollowsRun(cs: seq<Cluster>, es: seq<Event>, n: LayerName, i: nat)
    requires History(cs, es) && i <= |es| && n in cs[0].layers && OwnLock(cs[0], n)
    requires forall j :: 0 <= j < i ==> n in cs[j].layers && ReliableLock(cs[j], es[j], n)
    ensures n in cs[i].layers && LeaseOk(cs[i], n)
  {
    if i == 0 {
      LeaseStart(cs[0], n);
    } else {
      LeaseFollowsRun(cs, es, n, i - 1);
      LeaseStep(cs, es, n, i - 1);
    }
  }

  lemma LeaseStart(c: Cluster, n: LayerName)
    requires n in c.layers && c.leases == map[] && Init(c.layers[n].world)
    ensures LeaseOk(c, n)
  {
  }

  lemma SameOwnLock(c: Cluster, c': Cluster, n: LayerName)
    requires SameMembers(c, c') && n in c.layers && OwnLock(c, n)
    ensures n in c'.layers && OwnLock(c', n)
  {
  }

  /** A run without a status finds its layer's own lease free. */
  lemma NewRunFindsLeaseFree(c: Cluster, n: LayerName, r: RunName)
    requires AllInv(c) && n in c.layers && LeaseOk(c, n)
    requires r in c.layers[n].world.runs && c.layers[n].world.runs[r].status.state == NoStatus
    ensures c.layers[n].lock !in c.leases
  {
  }
}
