/** The two controllers with the leases and the list of runner pods at hand: each reconciliation is an event of the
    cluster. */
module LeaseObjects {
  import opened Resources
  import RC = RunController
  import LC = LayerController
  import opened Protocol
  import opened Invariant
  import opened Lock
  import opened Cluster
  import opened Controllers
  import opened LayerObjects

  /** The object is the layer of that name, and the leases are those of the cluster. */
  ghost predicate Holds(c: Cluster, name: LayerName, lock: LockKey, layer: Layer, leases: Leases)
    reads layer, leases
  {
    && name in c.layers && leases.leases == c.leases
    && c.layers[name].ctx == layer.ctx && c.layers[name].lock == lock && c.layers[name].world == layer.Snapshot()
  }

  /** The cluster with the layer and the leases as the objects now have them. */
  ghost function Updated(c: Cluster, name: LayerName, world: World, leases: map<LockKey, Owner>): Cluster
    requires name in c.layers
  {
    c.(layers := c.layers[name := c.layers[name].(world := world)], leases := leases)
  }

  /** The state that the handler is chosen by, when the reconciliation gets that far. */
  method ReadState(layer: Layer, run: RunName, bundleOk: bool) returns (state: Option<RunState>)
    ensures var w := layer.Snapshot();
            state == if run in w.runs && !Terminal(w.runs[run].status.state) && bundleOk then
                       Some(Decided(layer.ctx, w, run))
                     else None
  {
    if run !in layer.runs || Terminal(layer.runs[run].status.state) || !bundleOk {
      return None;
    }
    var st := layer.runs[run].status;
    return Some(RC.GetState(layer.ctx, st, RC.PhaseOf(layer.pods, st.runnerPod), layer.now));
  }

  /** Whether there is room for one more pod; not when the pods cannot be listed. */
  method HasRoom(ctx: Context, listed: Option<seq<Pod>>, ghost names: seq<(LayerName, PodName)>, ghost c: Cluster)
    returns (room: bool)
    requires listed.Some? ==> ListsPods(c, names, listed.value)
    ensures room <==> HasPlace(c, ctx, listed)
  {
    var reached := IsMaxConcurrentRunnerPodsReached(ctx, listed);
    if listed.Some? {
      CountedLimit(c, ctx, names, listed.value);
    }
    return reached == Some(false);
  }

  /** There is room for one more pod, and that can be told. */
  ghost predicate HasPlace(c: Cluster, ctx: Context, listed: Option<seq<Pod>>) {
    !LimitReached(c, ctx) && (Limit(ctx) > 0 ==> listed.Some?)
  }

  /** The run has not been looked at yet. */
  predicate IsNewRun(w: World, run: RunName) {
    run in w.runs && w.runs[run].status.state == NoStatus
  }

  /** The run is shown as begun, with its first pod waiting to be started. */
  predicate IsServed(w: World, run: RunName, pod: PodName) {
    && run in w.runs && w.runs[run].status.state == Initial && w.runs[run].status.runnerPod == Some(pod)
    && w.runs[run].status.retries == 0
    && pod in w.pods && w.pods[pod] == Pod(run, 0, PodPending, Started)
  }

  /** The run's pod has succeeded, and the run is not shown as over yet. */
  predicate HasEnded(w: World, run: RunName) {
    && run in w.runs && !Terminal(w.runs[run].status.state) && w.runs[run].status.state != NoStatus
    && var pod := w.runs[run].status.runnerPod;
    && pod.Some? && pod.value in w.pods && w.pods[pod.value].phase == PodSucceeded
  }

  /** The new run holds the lease and has its pod. */
  ghost predicate TakesLease(
    c: Cluster, name: LayerName, run: RunName, pod: PodName, w': World, leases: map<LockKey, Owner>)
    requires name in c.layers
  {
    leases == c.leases[c.layers[name].lock := (name, run)] && IsServed(w', run, pod)
  }

  /** The run is over and the lease is gone. */
  ghost predicate FreesLease(c: Cluster, name: LayerName, run: RunName, w': World, leases: map<LockKey, Owner>)
    requires name in c.layers
  {
    leases == c.leases - {c.layers[name].lock} && run in w'.runs && w'.runs[run].status.state == Succeeded
  }

  /** What the lease calls of a handler come to. */
  function Handled(
    leases: map<LockKey, Owner>, lock: LockKey, owner: Owner, state: Option<RunState>, locked: bool, refused: bool)
    : map<LockKey, Owner>
  {
    if locked then leases[lock := owner]
    else if state.Some? && Terminal(state.value) && !refused then leases - {lock}
    else leases
  }

  lemma RunHappens(
    c: Cluster, name: LayerName, run: RunName, choice: RC.RunChoice, refused: bool, state: Option<RunState>, w': World,
    leases: map<LockKey, Owner>)
    requires name in c.layers && choice.pod !in c.layers[name].world.podNames
    requires var m := c.layers[name];
             && state == (if Reconciles(m.world, run, choice) then Some(Decided(m.ctx, m.world, run)) else None)
             && (choice.locked ==> state == Some(Initial) && m.lock !in c.leases)
             && (choice.room ==> !LimitReached(c, m.ctx))
             && w' == RC.ReconcileRun(m.ctx, m.world, run, choice)
             && leases == Handled(c.leases, m.lock, (name, run), state, choice.locked, refused)
    ensures Happens(c, On(name, RunStep(run, choice), !refused), Updated(c, name, w', leases))
  {
  }

  /** What a reconciliation makes of a new run that gets all it asks for, and of one that has ended well. */
  lemma RunLeases(
    c: Cluster, name: LayerName, run: RunName, choice: RC.RunChoice, refused: bool, state: Option<RunState>, w': World,
    leases: map<LockKey, Owner>)
    requires name in c.layers && choice.bundleOk
    requires var m := c.layers[name];
             && state == (if Reconciles(m.world, run, choice) then Some(Decided(m.ctx, m.world, run)) else None)
             && w' == RC.ReconcileRun(m.ctx, m.world, run, choice)
             && leases == Handled(c.leases, m.lock, (name, run), state, choice.locked, refused)
    ensures IsNewRun(c.layers[name].world, run) ==> state == Some(Initial)
    ensures IsNewRun(c.layers[name].world, run) && choice.locked && choice.room && choice.created ==>
              TakesLease(c, name, run, choice.pod, w', leases)
    ensures HasEnded(c.layers[name].world, run) && !refused && !choice.locked ==> FreesLease(c, name, run, w', leases)
    ensures HasEnded(c.layers[name].world, run) || state == Some(Initial) ==>
              (state == Some(Initial) <==> IsNewRun(c.layers[name].world, run))
  {
  }

  /** The lease calls of the handler: the lease is taken for a new run and let go of when the run is over. */
  method CallLeases(leases: Leases, lock: LockKey, owner: Owner, state: Option<RunState>, refused: bool)
    returns (locked: bool)
    modifies leases
    ensures locked <==> state == Some(Initial) && lock !in old(leases.leases) && !refused
    ensures leases.leases == Handled(old(leases.leases), lock, owner, state, locked, refused)
  {
    locked := false;
    if state == Some(Initial) {
      locked := leases.CreateLock(lock, owner, refused);
    } else if state == Some(Succeeded) || state == Some(Failed) {
      leases.DeleteLock(lock, refused);
    }
  }

  /** A reconciliation of a run takes the lease when the run is new, counts the cluster's pods, and lets the lease go
      when the run is over. */
  method ReconcileRun(
    leases: Leases, layer: Layer, name: LayerName, lock: LockKey, run: RunName, ch: RC.RunChoice,
    listed: Option<seq<Pod>>, refused: bool, ghost names: seq<(LayerName, PodName)>, ghost c: Cluster)
    returns (ghost choice: RC.RunChoice)
    requires Holds(c, name, lock, layer, leases) && ch.pod !in layer.podNames
    requires listed.Some? ==> ListsPods(c, names, listed.value)
    modifies leases, layer`runs, layer`pods, layer`podNames
    ensures Happens(
      c, On(name, RunStep(run, choice), !refused), Updated(c, name, layer.Snapshot(), leases.leases))
    ensures choice == ch.(locked := choice.locked, room := choice.room)
    ensures choice.locked <==> IsNewRun(c.layers[name].world, run) && ch.bundleOk && lock !in c.leases && !refused
    ensures choice.room <==> HasPlace(c, layer.ctx, listed)
    ensures IsNewRun(c.layers[name].world, run) && choice.bundleOk && choice.locked && choice.room && choice.created ==>
              TakesLease(c, name, run, choice.pod, layer.Snapshot(), leases.leases)
    ensures HasEnded(c.layers[name].world, run) && choice.bundleOk && !refused ==>
              FreesLease(c, name, run, layer.Snapshot(), leases.leases)
  {
    var state := ReadState(layer, run, ch.bundleOk);
    var locked := CallLeases(leases, lock, (name, run), state, refused);
    var room := HasRoom(layer.ctx, listed, names, c);
    choice := ch.(locked := locked, room := room);
    layer.ReconcileRun(run, ch.(locked := locked, room := room));
    RunHappens(c, name, run, choice, refused, state, layer.Snapshot(), leases.leases);
    if ch.bundleOk {
      RunLeases(c, name, run, choice, refused, state, layer.Snapshot(), leases.leases);
    }
  }

  lemma LayerHappens(c: Cluster, name: LayerName, choice: LC.LayerChoice, w': World)
    requires name in c.layers && choice.run !in c.layers[name].world.runNames
    requires choice.locked <==> c.layers[name].lock in c.leases
    requires w' == LC.ReconcileLayer(c.layers[name].ctx, c.layers[name].world, choice)
    ensures Happens(c, On(name, LayerStep(choice), true), Updated(c, name, w', c.leases))
    ensures choice.locked ==> w' == c.layers[name].world
  {
  }

  /** A reconciliation of the layer looks the lease up first. */
  method ReconcileLayer(
    leases: Leases, layer: Layer, name: LayerName, lock: LockKey, ch: LC.LayerChoice,
    list: Lister, refused: set<RunName>, ghost c: Cluster)
    returns (ghost choice: LC.LayerChoice)
    requires Holds(c, name, lock, layer, leases) && ch.run !in layer.runNames && Faithful(list)
    modifies layer`annotations, layer`status, layer`runs, layer`runNames
    ensures Happens(c, On(name, LayerStep(choice), true), Updated(c, name, layer.Snapshot(), leases.leases))
    ensures choice == ch.(locked := lock in c.leases, undeleted := choice.undeleted)
    ensures lock in c.leases ==> layer.Snapshot() == c.layers[name].world
    ensures Completes(layer.ctx, c.layers[name].world, choice) ==>
              CleansUp(layer.ctx, c.layers[name].world, layer.Snapshot(), ch.run, list, refused, choice.undeleted)
  {
    var locked := leases.IsLayerLocked(lock);
    ghost var undeleted := layer.ReconcileLayer(ch.(locked := locked), list, refused);
    choice := ch.(locked := locked, undeleted := undeleted);
    LayerHappens(c, name, choice, layer.Snapshot());
  }
}
