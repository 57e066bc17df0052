/** The TerraformRepository controller as it works on its repository, step by step: each method against the function
    that says what it does. */
module RepositoryController {
  import opened Resources
  import opened Protocol
  import opened RepositorySync

  lemma {:induction false} RefsAppend(a: seq<Layer>, l: Layer)
    ensures Refs(a + [l]) == Refs(a) + [l.branch]
  {
    if a == [] {
      assert [l][1..] == [];
    } else {
      RefsAppend(a[1..], l);
      assert (a + [l])[1..] == a[1..] + [l] && (a + [l])[0] == a[0];
    }
  }

  lemma {:induction false} ManagedAppend(name: string, a: seq<Layer>, l: Layer)
    ensures Managed(name, a + [l]) == Managed(name, a) + (if l.repository == name then [l] else [])
  {
    if a == [] {
      assert [l][1..] == [];
    } else {
      ManagedAppend(name, a[1..], l);
      assert (a + [l])[1..] == a[1..] + [l] && (a + [l])[0] == a[0];
    }
  }

  lemma {:induction false} TrackedAppend(found: seq<string>, a: seq<BranchState>, b: BranchState)
    ensures Tracked(found, a + [b]) == Tracked(found, a) + (if b.name in found then [b] else [])
  {
    if a == [] {
      assert [b][1..] == [];
    } else {
      TrackedAppend(found, a[1..], b);
      assert (a + [b])[1..] == a[1..] + [b] && (a + [b])[0] == a[0];
    }
  }

  lemma {:induction false} NoRefsNoStates(states: seq<BranchState>)
    ensures Merge([], states) == []
  {
    if states != [] {
      NoRefsNoStates(states[1..]);
    }
  }

  method RetrieveManagedLayers(name: string, layers: seq<Layer>) returns (managed: seq<Layer>)
    ensures managed == Managed(name, layers)
  {
    managed := [];
    for i := 0 to |layers|
      invariant managed == Managed(name, layers[..i])
    {
      ManagedAppend(name, layers[..i], layers[i]);
      assert layers[..i + 1] == layers[..i] + [layers[i]];
      if layers[i].repository == name {
        managed := managed + [layers[i]];
      }
    }
    assert layers[..|layers|] == layers;
  }

  method RetrieveAllLayerRefs(layers: seq<Layer>) returns (refs: seq<string>)
    ensures refs == Refs(layers)
  {
    refs := [];
    for i := 0 to |layers|
      invariant refs == Refs(layers[..i])
    {
      RefsAppend(layers[..i], layers[i]);
      assert layers[..i + 1] == layers[..i] + [layers[i]];
      refs := refs + [layers[i].branch];
    }
    assert layers[..|layers|] == layers;
  }

  method GetBranchState(name: string, branches: seq<BranchState>) returns (state: Option<BranchState>)
    ensures state.None? <==> name !in Names(branches)
    ensures state.Some? ==> exists i :: 0 <= i < |branches| && branches[i] == state.value && state.value.name == name
                              && forall j :: 0 <= j < i ==> branches[j].name != name
  {
    for i := 0 to |branches|
      invariant forall j :: 0 <= j < i ==> branches[j].name != name
    {
      if branches[i].name == name {
        assert branches[i] in branches;
        return Some(branches[i]);
      }
    }
    return None;
  }

  method MergeBranchesWithBranchState(found: seq<string>, states: seq<BranchState>) returns (merged: seq<BranchState>)
    ensures merged == Merge(found, states)
  {
    var all := states;
    for i := 0 to |found|
      invariant AddMissing(found, states) == AddMissing(found[i..], all)
    {
      assert found[i..][1..] == found[i + 1..];
      var state := GetBranchState(found[i], all);
      if state.None? {
        all := all + [NewState(found[i])];
      }
    }
    merged := [];
    for i := 0 to |all|
      invariant merged == Tracked(found, all[..i])
    {
      TrackedAppend(found, all[..i], all[i]);
      assert all[..i + 1] == all[..i] + [all[i]];
      if all[i].name in found {
        merged := merged + [all[i]];
      }
    }
    assert all[..|all|] == all;
  }

  lemma {:induction false} UpdatedNone(states: seq<BranchState>, name: string, now: int, rev: string, status: string)
    requires forall j :: 0 <= j < |states| ==> states[j].name != name
    ensures Updated(states, name, now, rev, status) == states
  {
    if states != [] {
      UpdatedNone(states[1..], name, now, rev, status);
    }
  }

  /** Writes the first state of that name in place. */
  method UpdateBranchState(states: array<BranchState>, name: string, now: int, rev: string, status: string)
    modifies states
    ensures states[..] == Updated(old(states[..]), name, now, rev, status)
  {
    for i := 0 to states.Length
      invariant states[..] == old(states[..])
      invariant forall j :: 0 <= j < i ==> states[j].name != name
    {
      if states[i].name == name {
        UpdatedFirst(states[..], i, name, now, rev, status);
        states[i] := BranchState(name, rev, At(now), status);
        return;
      }
    }
    UpdatedNone(states[..], name, now, rev, status);
  }

  /** A new layer of the repository, and of the branch when one is given. */
  predicate NewLayer(repo: string, ref: Option<string>, l: Layer) {
    l.repository == repo && (ref.None? || l.branch == ref.value) && IsNew(l)
  }

  method IsThereANewLayer(repo: string, ref: Option<string>, layers: seq<Layer>) returns (found: bool)
    ensures found <==> exists k :: 0 <= k < |layers| && NewLayer(repo, ref, layers[k])
  {
    for k := 0 to |layers|
      invariant forall j :: 0 <= j < k ==> !NewLayer(repo, ref, layers[j])
    {
      if NewLayer(repo, ref, layers[k]) {
        return true;
      }
    }
    return false;
  }

  /** The repository with the layers and bundles that its reconciliations change. */
  class Reconciler {
    const name: string
    var branches: seq<BranchState>
    var requests: map<string, Stamp>
    var layers: seq<Layer>
    var bundles: set<(string, string)>

    constructor (name: string, layers: seq<Layer>)
      ensures Snapshot() == Repo(name, [], map[], layers, {}) && Consistent(Snapshot())
    {
      this.name, this.branches, this.requests, this.layers, this.bundles := name, [], map[], layers, {};
    }

    ghost function Snapshot(): Repo
      reads this
    {
      Repo(name, branches, requests, layers, bundles)
    }

    /** None when the sync-now annotation cannot be read. */
    method IsSyncNowRequested(branch: string, lastSync: int) returns (requested: Option<bool>)
      ensures requested ==
              if Request(Snapshot(), branch).Garbled? then None else Some(RequestedAfter(Snapshot(), branch, lastSync))
    {
      if RequestKey(branch) in requests {
        match requests[RequestKey(branch)] {
          case Absent =>
          case Garbled => return None;
          case At(t) =>
            if t > lastSync {
              return Some(true);
            }
        }
      }
      return Some(false);
    }

    method LastSyncTooOld(env: Env) returns (tooOld: bool)
      ensures tooOld <==> IsLastSyncTooOld(env, Snapshot())
    {
      if !env.listed {
        return true;
      }
      var unseen := IsThereANewLayer(name, None, layers);
      if unseen {
        return true;
      }
      var managed := RetrieveManagedLayers(name, layers);
      var refs := RetrieveAllLayerRefs(managed);
      if |refs| == 0 {
        NoRefsNoStates(branches);
        return false;
      }
      var states := MergeBranchesWithBranchState(refs, branches);
      for i := 0 to |states|
        invariant forall j :: 0 <= j < i ==> !TooOld(env, Snapshot(), states[j])
      {
        var b := states[i];
        if !b.lastSyncDate.At? {
          return true;
        }
        var requested := IsSyncNowRequested(b.name, b.lastSyncDate.time);
        if requested.None? || requested.value {
          return true;
        }
        if b.lastSyncDate.time + env.period < env.now {
          return true;
        }
      }
      return false;
    }

    method LastSyncFailed(env: Env) returns (failed: bool)
      ensures failed <==> HasLastSyncFailed(env, Snapshot())
    {
      if !env.listed {
        return true;
      }
      var managed := RetrieveManagedLayers(name, layers);
      var refs := RetrieveAllLayerRefs(managed);
      if |refs| == 0 {
        NoRefsNoStates(branches);
        return false;
      }
      var states := MergeBranchesWithBranchState(refs, branches);
      for i := 0 to |states|
        invariant AnyFailed(states) == AnyFailed(states[i..])
      {
        assert states[i..][0] == states[i] && states[i..][1..] == states[i + 1..];
        if states[i].lastSyncStatus == "" {
          return false;
        }
        if states[i].lastSyncStatus == FAILED {
          return true;
        }
      }
      return false;
    }

    method AnnotateLayers(env: Env, ref: string, rev: string)
      modifies this`layers
      ensures layers == Annotate(env, name, ref, rev, old(layers))
    {
      ghost var before, after := layers, Annotate(env, name, ref, rev, layers);
      for k := 0 to |layers|
        invariant |layers| == |before|
        invariant forall j :: 0 <= j < k ==> layers[j] == after[j]
        invariant forall j :: k <= j < |before| ==> layers[j] == before[j]
      {
        AnnotateAt(env, name, ref, rev, before, k);
        var l := layers[k];
        if l.repository == name && l.branch == ref && env.patched(l.name) {
          layers := layers[k := l.(ann := Annotated(l.ann, env.now, rev, env.relevant(l.name, rev)))];
        }
      }
    }

    /** The sync of the branch at index i. */
    method Sync(env: Env, states: array<BranchState>, i: nat)
      requires i < states.Length
      modifies this`layers, this`bundles, states
      ensures var r := old(Snapshot()).(branches := old(states[..]));
              Snapshot().(branches := states[..]) == SyncBranch(env, r, i)
    {
      var b := states[i];
      if b.lastSyncDate.At? {
        var requested := IsSyncNowRequested(b.name, b.lastSyncDate.time);
        if requested.None? {
          return;
        }
        var unseen := IsThereANewLayer(name, Some(b.name), layers);
        if !requested.value && !(b.lastSyncDate.time + env.period < env.now) && b.lastSyncStatus == SUCCESS && !unseen {
          return;
        }
      }
      var latest := env.latest(b.name);
      if latest.None? {
        UpdateBranchState(states, b.name, env.now, "", FAILED);
        return;
      }
      var rev := latest.value;
      if !env.checked(b.name, rev) {
        UpdateBranchState(states, b.name, env.now, rev, FAILED);
        return;
      }
      if (b.name, rev) !in bundles {
        if !env.bundled(b.name) || !env.stored(b.name, rev) {
          UpdateBranchState(states, b.name, env.now, rev, FAILED);
          return;
        }
        bundles := bundles + {(b.name, rev)};
      }
      UpdateBranchState(states, b.name, env.now, rev, SUCCESS);
      AnnotateLayers(env, b.name, rev);
    }

    method Handle(env: Env)
      modifies this`branches, this`layers, this`bundles
      ensures Snapshot() == Handled(env, old(Snapshot()))
    {
      if !env.provider || !env.listed {
        return;
      }
      var managed := RetrieveManagedLayers(name, layers);
      if |managed| == 0 {
        branches := [];
        return;
      }
      var refs := RetrieveAllLayerRefs(managed);
      var merged := MergeBranchesWithBranchState(refs, branches);
      ghost var start := Snapshot().(branches := merged);
      var states := new BranchState[|merged|](i requires 0 <= i < |merged| => merged[i]);
      for i := 0 to states.Length
        invariant branches == old(branches)
        invariant Snapshot().(branches := states[..]) == Pass(env, start, i)
      {
        Sync(env, states, i);
      }
      branches := states[..];
    }

    method Reconcile(env: Env)
      modifies this`branches, this`layers, this`bundles
      ensures Snapshot() == Reconciled(env, old(Snapshot()))
    {
      var tooOld := LastSyncTooOld(env);
      var failed := LastSyncFailed(env);
      if tooOld || failed {
        Handle(env);
      }
    }
  }
}
