/** The TerraformRepository controller: branch states, the sync of every tracked branch, and when a repository counts
    as synced. */
module RepositorySync {
  import opened Resources
  import opened Protocol

  const SUCCESS := "success"
  const FAILED := "failed"

  /** Status "" and a missing date stand for a branch that was never synced. */
  datatype BranchState = BranchState(name: string, latestRev: string, lastSyncDate: Stamp, lastSyncStatus: string)

  datatype Layer = Layer(name: string, repository: string, branch: string, ann: Annotations)

  /** A repository, the layers of the cluster and the bundles of the datastore, by branch and revision. */
  datatype Repo = Repo(
    name: string,
    branches: seq<BranchState>,
    requests: map<string, Stamp>,     // the sync-now annotations
    layers: seq<Layer>,
    bundles: set<(string, string)>)

  /** The clock, the sync period, and what the git provider and the API server answer. */
  datatype Env = Env(
    now: int,
    period: int,
    provider: bool,                                 // a git provider was found
    listed: bool,                                   // the layers could be listed
    latest: string -> Option<string>,               // GetLatestRevisionForRef
    checked: (string, string) -> bool,              // CheckGitBundle gave an answer
    bundled: string -> bool,                        // Bundle gave a bundle
    stored: (string, string) -> bool,               // PutGitBundle succeeded
    relevant: (string, string) -> bool,             // the layer's files changed up to this revision
    patched: string -> bool)                        // the layer could be annotated

  // ---- layers ----

  function Managed(name: string, layers: seq<Layer>): seq<Layer> {
    if layers == [] then []
    else if layers[0].repository == name then [layers[0]] + Managed(name, layers[1..])
    else Managed(name, layers[1..])
  }

  function Refs(layers: seq<Layer>): (refs: seq<string>) {
    if layers == [] then [] else [layers[0].branch] + Refs(layers[1..])
  }

  predicate IsNew(layer: Layer) {
    layer.ann.branchCommit.None?
  }

  ghost predicate AnyNew(repo: string, layers: seq<Layer>) {
    exists k :: 0 <= k < |layers| && layers[k].repository == repo && IsNew(layers[k])
  }

  ghost predicate AnyNewFor(repo: string, ref: string, layers: seq<Layer>) {
    exists k :: 0 <= k < |layers| && layers[k].repository == repo && layers[k].branch == ref && IsNew(layers[k])
  }

  /** Every layer of this repository and branch, annotated with the revision where it could be. */
  function Annotate(env: Env, repo: string, ref: string, rev: string, layers: seq<Layer>): (r: seq<Layer>)
    ensures |r| == |layers|
  {
    if layers == [] then []
    else
      var l := layers[0];
      var l' :=
        if l.repository == repo && l.branch == ref && env.patched(l.name) then
          l.(ann := Annotated(l.ann, env.now, rev, env.relevant(l.name, rev)))
        else l;
      [l'] + Annotate(env, repo, ref, rev, layers[1..])
  }

  // ---- branch states ----

  function Names(states: seq<BranchState>): set<string> {
    set b | b in states :: b.name
  }

  ghost predicate Unique(states: seq<BranchState>) {
    forall i, j :: 0 <= i < j < |states| ==> states[i].name != states[j].name
  }

  function NewState(name: string): BranchState {
    BranchState(name, "", Absent, "")
  }

  function AddMissing(found: seq<string>, states: seq<BranchState>): seq<BranchState> {
    if found == [] then states
    else AddMissing(found[1..], if found[0] in Names(states) then states else states + [NewState(found[0])])
  }

  function Tracked(found: seq<string>, states: seq<BranchState>): seq<BranchState> {
    if states == [] then []
    else if states[0].name in found then [states[0]] + Tracked(found, states[1..])
    else Tracked(found, states[1..])
  }

  function Merge(found: seq<string>, states: seq<BranchState>): seq<BranchState> {
    Tracked(found, AddMissing(found, states))
  }

  /** Only the first state of that name is written. */
  function Updated(states: seq<BranchState>, name: string, now: int, rev: string, status: string): (r: seq<BranchState>)
    ensures |r| == |states|
  {
    if states == [] then []
    else if states[0].name == name then [BranchState(name, rev, At(now), status)] + states[1..]
    else [states[0]] + Updated(states[1..], name, now, rev, status)
  }

  // ---- requests ----

  function Dashed(branch: string): string {
    if branch == "" then "" else (if branch[0] == '/' then "--" else [branch[0]]) + Dashed(branch[1..])
  }

  function RequestKey(branch: string): string {
    "webhook.terraform.padok.cloud/sync-" + Dashed(branch)
  }

  /** Branches whose names hold no dash have requests of their own. */
  lemma {:induction false} RequestsApart(a: string, b: string)
    requires '-' !in a && '-' !in b
    ensures RequestKey(a) == RequestKey(b) <==> a == b
  {
    var prefix := "webhook.terraform.padok.cloud/sync-";
    if RequestKey(a) == RequestKey(b) {
      assert Dashed(a) == RequestKey(a)[|prefix|..] == RequestKey(b)[|prefix|..] == Dashed(b);
      DashedApart(a, b);
    }
  }

  lemma {:induction false} DashedApart(a: string, b: string)
    requires '-' !in a && '-' !in b && Dashed(a) == Dashed(b)
    ensures a == b
  {
    if a != "" && b != "" {
      assert Dashed(a)[0] == (if a[0] == '/' then '-' else a[0]) && Dashed(b)[0] == (if b[0] == '/' then '-' else b[0]);
      assert a[0] in a && b[0] in b && a[0] == b[0];
      var n := if a[0] == '/' then 2 else 1;
      assert Dashed(a)[n..] == Dashed(a[1..]) && Dashed(b)[n..] == Dashed(b[1..]);
      DashedApart(a[1..], b[1..]);
      assert a == [a[0]] + a[1..] && b == [b[0]] + b[1..];
    }
  }

  /** Others may share them: a request for one is taken for a request for the other. */
  lemma RequestsShared()
    ensures RequestKey("a/b") == RequestKey("a--b") && RequestKey("a/-b") == RequestKey("a-/b")
  {
    assert Dashed("a/b") == "a" + Dashed("/b") == "a--" + Dashed("b");
    assert Dashed("a--b") == "a" + Dashed("--b") == "a-" + Dashed("-b") == "a--" + Dashed("b");
    assert Dashed("a/-b") == "a" + Dashed("/-b") == "a--" + Dashed("-b") == "a---" + Dashed("b");
    assert Dashed("a-/b") == "a" + Dashed("-/b") == "a-" + Dashed("/b") == "a---" + Dashed("b");
  }

  function Request(r: Repo, branch: string): Stamp {
    if RequestKey(branch) in r.requests then r.requests[RequestKey(branch)] else Absent
  }

  predicate RequestedAfter(r: Repo, branch: string, lastSync: int) {
    Request(r, branch).At? && Request(r, branch).time > lastSync
  }

  // ---- the decision ----

  predicate TooOld(env: Env, r: Repo, b: BranchState) {
    || !b.lastSyncDate.At?
    || Request(r, b.name).Garbled?
    || RequestedAfter(r, b.name, b.lastSyncDate.time)
    || b.lastSyncDate.time + env.period < env.now
  }

  ghost predicate IsLastSyncTooOld(env: Env, r: Repo) {
    var layers := Managed(r.name, r.layers);
    || !env.listed
    || AnyNew(r.name, r.layers)
    || exists i :: 0 <= i < |Merge(Refs(layers), r.branches)| && TooOld(env, r, Merge(Refs(layers), r.branches)[i])
  }

  /** A state that was never written ends the search. */
  predicate AnyFailed(states: seq<BranchState>) {
    states != [] && states[0].lastSyncStatus != "" && (states[0].lastSyncStatus == FAILED || AnyFailed(states[1..]))
  }

  predicate HasLastSyncFailed(env: Env, r: Repo) {
    var layers := Managed(r.name, r.layers);
    !env.listed || AnyFailed(Merge(Refs(layers), r.branches))
  }

  ghost predicate Synced(env: Env, r: Repo) {
    !IsLastSyncTooOld(env, r) && !HasLastSyncFailed(env, r)
  }

  // ---- the pass ----

  ghost predicate Skipped(env: Env, r: Repo, b: BranchState) {
    && b.lastSyncDate.At?
    && (Request(r, b.name).Garbled?
        || (!RequestedAfter(r, b.name, b.lastSyncDate.time) && !(b.lastSyncDate.time + env.period < env.now)
            && b.lastSyncStatus == SUCCESS && !AnyNewFor(r.name, b.name, r.layers)))
  }

  /** The sync of the branch at index i of the states. */
  ghost function SyncBranch(env: Env, r: Repo, i: nat): Repo
    requires i < |r.branches|
  {
    var b := r.branches[i];
    if Skipped(env, r, b) then r
    else
      match env.latest(b.name)
      case None => r.(branches := Updated(r.branches, b.name, env.now, "", FAILED))
      case Some(rev) =>
        var known := (b.name, rev) in r.bundles;
        if !env.checked(b.name, rev) || (!known && (!env.bundled(b.name) || !env.stored(b.name, rev))) then
          r.(branches := Updated(r.branches, b.name, env.now, rev, FAILED))
        else
          r.(branches := Updated(r.branches, b.name, env.now, rev, SUCCESS),
             bundles := r.bundles + {(b.name, rev)},
             layers := Annotate(env, r.name, b.name, rev, r.layers))
  }

  ghost function Pass(env: Env, r: Repo, n: nat): (r': Repo)
    requires n <= |r.branches|
    ensures |r'.branches| == |r.branches|
  {
    if n == 0 then r else SyncBranch(env, Pass(env, r, n - 1), n - 1)
  }

  /** One reconciliation that found a sync needed. */
  ghost function Handled(env: Env, r: Repo): Repo {
    var layers := Managed(r.name, r.layers);
    if !env.provider || !env.listed then r
    else if layers == [] then r.(branches := [])
    else
      var merged := r.(branches := Merge(Refs(layers), r.branches));
      Pass(env, merged, |merged.branches|)
  }

  ghost function Reconciled(env: Env, r: Repo): Repo {
    if Synced(env, r) then r else Handled(env, r)
  }

  // ---- merging ----

  lemma AddedOne(states: seq<BranchState>, name: string)
    requires name !in Names(states)
    ensures var next := states + [NewState(name)];
            && Names(next) == Names(states) + {name}
            && (Unique(states) ==> Unique(next))
  {
  }

  /** What merging keeps of the stored states and adds to them. */
  lemma {:induction false} AddMissingFacts(found: seq<string>, states: seq<BranchState>)
    ensures var all := AddMissing(found, states);
            && states <= all
            && (Unique(states) ==> Unique(all))
            && (forall i :: 0 <= i < |found| ==> found[i] in Names(all))
            && (forall i :: |states| <= i < |all| ==>
                  all[i] == NewState(all[i].name) && all[i].name in found && all[i].name !in Names(states))
  {
    if found != [] {
      var next := if found[0] in Names(states) then states else states + [NewState(found[0])];
      var all := AddMissing(found[1..], next);
      AddMissingFacts(found[1..], next);
      if found[0] !in Names(states) {
        AddedOne(states, found[0]);
        assert all[|states|] == next[|states|] == NewState(found[0]);
      }
      assert found[0] in Names(next);
      NamesGrow(next, all);
    }
  }

  lemma NamesGrow(states: seq<BranchState>, all: seq<BranchState>)
    requires states <= all
    ensures Names(states) <= Names(all)
  {
  }

  lemma {:induction false} TrackedIff(found: seq<string>, states: seq<BranchState>, b: BranchState)
    ensures b in Tracked(found, states) <==> b in states && b.name in found
  {
    if states != [] {
      TrackedIff(found, states[1..], b);
      assert states == [states[0]] + states[1..];
    }
  }

  lemma {:induction false} TrackedUnique(found: seq<string>, states: seq<BranchState>)
    requires Unique(states)
    ensures Unique(Tracked(found, states))
  {
    if states != [] {
      assert forall i :: 0 <= i < |states[1..]| ==> states[1..][i] == states[i + 1];
      TrackedUnique(found, states[1..]);
      forall b | b in Tracked(found, states[1..]) ensures b.name != states[0].name {
        TrackedIff(found, states[1..], b);
      }
    }
  }

  lemma {:induction false} AllTracked(found: seq<string>, states: seq<BranchState>)
    requires forall i :: 0 <= i < |states| ==> states[i].name in found
    ensures Tracked(found, states) == states
  {
    if states != [] {
      AllTracked(found, states[1..]);
      assert states == [states[0]] + states[1..];
    }
  }

  lemma MergeUnique(found: seq<string>, states: seq<BranchState>)
    requires Unique(states)
    ensures Unique(Merge(found, states))
  {
    AddMissingFacts(found, states);
    TrackedUnique(found, AddMissing(found, states));
  }

  /** A merged state is a stored one of a found branch, or the new one of a branch that had none. */
  lemma MergedFrom(found: seq<string>, states: seq<BranchState>, b: BranchState)
    ensures b in Merge(found, states) ==>
              b.name in found && (b in states || (b == NewState(b.name) && b.name !in Names(states)))
    ensures b in states && b.name in found ==> b in Merge(found, states)
  {
    var all := AddMissing(found, states);
    AddMissingFacts(found, states);
    TrackedIff(found, all, b);
    if b in all {
      var i :| 0 <= i < |all| && all[i] == b;
      if i < |states| {
        assert states[i] == b;
      }
    }
    if b in states {
      var i :| 0 <= i < |states| && states[i] == b;
      assert all[i] == b;
    }
  }

  /** After a merge there is a state for exactly the branches found. */
  lemma MergeNames(found: seq<string>, states: seq<BranchState>)
    ensures Names(Merge(found, states)) == (set x | x in found)
  {
    var all, merged := AddMissing(found, states), Merge(found, states);
    AddMissingFacts(found, states);
    forall x | x in found ensures x in Names(merged) {
      var i :| 0 <= i < |found| && found[i] == x;
      var b :| b in all && b.name == x;
      TrackedIff(found, all, b);
    }
    forall b | b in merged ensures b.name in found {
      TrackedIff(found, all, b);
    }
  }

  lemma {:induction false} NothingMissing(found: seq<string>, states: seq<BranchState>)
    requires forall x :: x in found ==> x in Names(states)
    ensures AddMissing(found, states) == states
  {
    if found != [] {
      assert found[0] in found;
      NothingMissing(found[1..], states);
    }
  }

  /** Merging again changes nothing. */
  lemma MergeIdle(found: seq<string>, states: seq<BranchState>)
    requires Names(states) == (set x | x in found)
    ensures Merge(found, states) == states
  {
    NothingMissing(found, states);
    forall i | 0 <= i < |states| ensures states[i].name in found {
      assert states[i].name in Names(states);
    }
    AllTracked(found, states);
  }

  lemma {:induction false} UpdatedFirst(
    states: seq<BranchState>, i: nat, name: string, now: int, rev: string, status: string)
    requires i < |states| && states[i].name == name && forall j :: 0 <= j < i ==> states[j].name != name
    ensures Updated(states, name, now, rev, status) == states[i := BranchState(name, rev, At(now), status)]
  {
    if i > 0 {
      assert states[1..][i - 1] == states[i];
      UpdatedFirst(states[1..], i - 1, name, now, rev, status);
      assert states == [states[0]] + states[1..];
    }
  }

  /** With unique names the state of the branch itself is written. */
  lemma UpdatedAt(states: seq<BranchState>, i: nat, now: int, rev: string, status: string)
    requires i < |states| && Unique(states)
    ensures Updated(states, states[i].name, now, rev, status) ==
            states[i := BranchState(states[i].name, rev, At(now), status)]
  {
    UpdatedFirst(states, i, states[i].name, now, rev, status);
  }

  lemma {:induction false} AnnotateAt(env: Env, repo: string, ref: string, rev: string, layers: seq<Layer>, k: nat)
    requires k < |layers|
    ensures Annotate(env, repo, ref, rev, layers)[k] ==
            var l := layers[k];
            if l.repository == repo && l.branch == ref && env.patched(l.name) then
              l.(ann := Annotated(l.ann, env.now, rev, env.relevant(l.name, rev)))
            else l
  {
    if k > 0 {
      AnnotateAt(env, repo, ref, rev, layers[1..], k - 1);
    }
  }

  // ---- one pass ----

  /** The revision that a sync of the branch gets: the provider's latest, when its bundle is there or can be had. */
  function SyncedTo(env: Env, r: Repo, branch: string): Option<string> {
    match env.latest(branch)
    case None => None
    case Some(rev) =>
      var known := (branch, rev) in r.bundles;
      if env.checked(branch, rev) && (known || (env.bundled(branch) && env.stored(branch, rev))) then Some(rev)
      else None
  }

  /** What a pass leaves of one branch state. */
  ghost function Left(env: Env, r: Repo, b: BranchState): BranchState {
    if Skipped(env, r, b) then b
    else
      BranchState(
        b.name, if env.latest(b.name).Some? then env.latest(b.name).value else "", At(env.now),
        if SyncedTo(env, r, b.name).Some? then SUCCESS else FAILED)
  }

  /** The branch is among the first n states, and is synced by the pass. */
  ghost predicate SyncedIn(env: Env, r: Repo, n: nat, branch: string)
    requires n <= |r.branches|
  {
    && SyncedTo(env, r, branch).Some?
    && exists j :: 0 <= j < n && r.branches[j].name == branch && !Skipped(env, r, r.branches[j])
  }

  /** The layer has been annotated with the revision: as its branch's commit, dated now unless it was that already, and
      as its relevant commit, dated now, when it had none or is affected. Nothing else of it has changed. */
  ghost predicate Carries(env: Env, l: Layer, l': Layer, rev: string) {
    var was, ann := l.ann, l'.ann;
    var affected := was.relevantCommit.None? || env.relevant(l.name, rev);
    && l' == l.(ann := ann)
    && ann == was.(
         branchCommit := ann.branchCommit, branchDate := ann.branchDate,
         relevantCommit := ann.relevantCommit, relevantDate := ann.relevantDate)
    && ann.branchCommit == Some(rev)
    && ann.branchDate == (if was.branchCommit == Some(rev) then was.branchDate else At(env.now))
    && ann.relevantCommit == (if affected then Some(rev) else was.relevantCommit)
    && ann.relevantDate == (if affected then At(env.now) else was.relevantDate)
  }

  /** The layers after the first n branches: those of synced branches that could be annotated carry what their branch
      was synced to, the others are as they were. */
  ghost predicate LayersLeft(env: Env, r: Repo, n: nat, layers: seq<Layer>)
    requires n <= |r.branches|
  {
    |layers| == |r.layers| && forall k :: 0 <= k < |layers| ==> LayerLeft(env, r, n, r.layers[k], layers[k])
  }

  ghost predicate LayerLeft(env: Env, r: Repo, n: nat, l: Layer, l': Layer)
    requires n <= |r.branches|
  {
    if l.repository == r.name && env.patched(l.name) && SyncedIn(env, r, n, l.branch) then
      Carries(env, l, l', SyncedTo(env, r, l.branch).value)
    else l' == l
  }

  ghost predicate BundlesLeft(env: Env, r: Repo, n: nat, bundles: set<(string, string)>)
    requires n <= |r.branches|
  {
    forall branch, rev :: (branch, rev) in bundles <==>
      (branch, rev) in r.bundles || (SyncedIn(env, r, n, branch) && SyncedTo(env, r, branch) == Some(rev))
  }

  ghost predicate PassLeft(env: Env, r: Repo, n: nat, r': Repo)
    requires n <= |r.branches|
  {
    && r'.name == r.name && r'.requests == r.requests && |r'.branches| == |r.branches|
    && (forall j :: 0 <= j < n ==> r'.branches[j] == Left(env, r, r.branches[j]))
    && (forall j :: n <= j < |r.branches| ==> r'.branches[j] == r.branches[j])
    && LayersLeft(env, r, n, r'.layers)
    && BundlesLeft(env, r, n, r'.bundles)
  }

  lemma NotYetSynced(env: Env, r: Repo, n: nat)
    requires n < |r.branches| && Unique(r.branches)
    ensures !SyncedIn(env, r, n, r.branches[n].name)
  {
  }

  /** A branch is skipped or not, and synced to what it is, whatever has been done to the branches before it. */
  lemma SameSkip(env: Env, r: Repo, n: nat, r': Repo)
    requires n < |r.branches| && Unique(r.branches) && PassLeft(env, r, n, r')
    ensures Skipped(env, r', r.branches[n]) <==> Skipped(env, r, r.branches[n])
    ensures SyncedTo(env, r', r.branches[n].name) == SyncedTo(env, r, r.branches[n].name)
  {
    var b := r.branches[n];
    NotYetSynced(env, r, n);
    forall k | 0 <= k < |r.layers| && (r.layers[k].branch == b.name || r'.layers[k].branch == b.name)
      ensures r'.layers[k] == r.layers[k]
    {
      assert LayerLeft(env, r, n, r.layers[k], r'.layers[k]);
    }
  }

  lemma OneMoreSynced(env: Env, r: Repo, n: nat, branch: string)
    requires n < |r.branches|
    ensures var b := r.branches[n];
            SyncedIn(env, r, n + 1, branch) <==>
              SyncedIn(env, r, n, branch)
              || (b.name == branch && !Skipped(env, r, b) && SyncedTo(env, r, branch).Some?)
  {
  }

  lemma PassStates(env: Env, r: Repo, n: nat, r': Repo, r'': Repo)
    requires n < |r.branches| && Unique(r.branches) && PassLeft(env, r, n, r') && r'' == SyncBranch(env, r', n)
    ensures r''.name == r.name && r''.requests == r.requests && |r''.branches| == |r.branches|
    ensures forall j :: 0 <= j < n + 1 ==> r''.branches[j] == Left(env, r, r.branches[j])
    ensures forall j :: n + 1 <= j < |r.branches| ==> r''.branches[j] == r.branches[j]
  {
    var b := r.branches[n];
    SameSkip(env, r, n, r');
    forall i, j | 0 <= i < j < |r.branches| ensures r'.branches[i].name != r'.branches[j].name {
      assert r.branches[i].name != r.branches[j].name;
    }
    if !Skipped(env, r, b) {
      var left := Left(env, r, b);
      UpdatedAt(r'.branches, n, env.now, left.latestRev, left.lastSyncStatus);
    }
  }

  lemma PassBundlesLeft(env: Env, r: Repo, n: nat, r': Repo, r'': Repo)
    requires n < |r.branches| && Unique(r.branches) && PassLeft(env, r, n, r') && r'' == SyncBranch(env, r', n)
    ensures BundlesLeft(env, r, n + 1, r''.bundles)
  {
    SameSkip(env, r, n, r');
    forall branch, rev
      ensures (branch, rev) in r''.bundles <==>
        (branch, rev) in r.bundles || (SyncedIn(env, r, n + 1, branch) && SyncedTo(env, r, branch) == Some(rev))
    {
      OneMoreSynced(env, r, n, branch);
    }
  }

  lemma PassLayer(env: Env, r: Repo, n: nat, r': Repo, r'': Repo, k: nat)
    requires n < |r.branches| && Unique(r.branches) && PassLeft(env, r, n, r') && k < |r.layers|
    requires r'' == SyncBranch(env, r', n)
    ensures |r''.layers| == |r.layers| && LayerLeft(env, r, n + 1, r.layers[k], r''.layers[k])
  {
    var b, l := r.branches[n], r.layers[k];
    SameSkip(env, r, n, r');
    NotYetSynced(env, r, n);
    OneMoreSynced(env, r, n, l.branch);
    assert LayerLeft(env, r, n, l, r'.layers[k]);
    if !Skipped(env, r, b) && SyncedTo(env, r, b.name).Some? {
      AnnotateAt(env, r.name, b.name, SyncedTo(env, r, b.name).value, r'.layers, k);
    }
  }

  lemma PassLayers(env: Env, r: Repo, n: nat, r': Repo, r'': Repo)
    requires n < |r.branches| && Unique(r.branches) && PassLeft(env, r, n, r') && r'' == SyncBranch(env, r', n)
    ensures LayersLeft(env, r, n + 1, r''.layers)
  {
    assert |r''.layers| == |r'.layers|;
    forall k | 0 <= k < |r.layers| ensures LayerLeft(env, r, n + 1, r.layers[k], r''.layers[k]) {
      PassLayer(env, r, n, r', r'', k);
    }
  }

  lemma PassStep(env: Env, r: Repo, n: nat, r': Repo, r'': Repo)
    requires n < |r.branches| && Unique(r.branches) && PassLeft(env, r, n, r') && r'' == SyncBranch(env, r', n)
    ensures PassLeft(env, r, n + 1, r'')
  {
    PassStates(env, r, n, r', r'');
    PassBundlesLeft(env, r, n, r', r'');
    PassLayers(env, r, n, r', r'');
  }

  /** After a pass over the first n branches every one of them is skipped or left as its sync leaves it, judged by what
      was there before the pass; so are the layers and the bundles. No branch's sync depends on another's. */
  lemma {:induction false} PassLeaves(env: Env, r: Repo, n: nat)
    requires n <= |r.branches| && Unique(r.branches)
    ensures PassLeft(env, r, n, Pass(env, r, n))
  {
    if n > 0 {
      PassLeaves(env, r, n - 1);
      PassStep(env, r, n - 1, Pass(env, r, n - 1), Pass(env, r, n));
    }
  }

  // ---- one clean pass ----

  /** Nothing the pass asks for fails. */
  ghost predicate Clean(env: Env) {
    && env.provider && env.listed
    && (forall b :: env.latest(b).Some? && env.bundled(b))
    && (forall b, v :: env.checked(b, v) && env.stored(b, v))
    && (forall l :: env.patched(l))
  }

  /** A clean pass leaves every state skipped or synced to the provider's latest revision, and every layer of a synced
      branch annotated with it. */
  lemma CleanPass(env: Env, r: Repo, n: nat)
    requires Clean(env) && n <= |r.branches| && Unique(r.branches)
    ensures PassLeft(env, r, n, Pass(env, r, n))
    ensures var r' := Pass(env, r, n);
            && |r'.branches| == |r.branches| && |r'.layers| == |r.layers|
            && forall j :: 0 <= j < n && !Skipped(env, r, r.branches[j]) ==>
                 var b, rev := r.branches[j], env.latest(r.branches[j].name).value;
                 && r'.branches[j] == BranchState(b.name, rev, At(env.now), SUCCESS)
                 && (b.name, rev) in r'.bundles
                 && forall k :: 0 <= k < |r.layers| ==>
                      (r.layers[k].repository == r.name && r.layers[k].branch == b.name ==>
                         Carries(env, r.layers[k], r'.layers[k], rev))
  {
    var r' := Pass(env, r, n);
    PassLeaves(env, r, n);
    forall j | 0 <= j < n && !Skipped(env, r, r.branches[j]) ensures SyncedIn(env, r, n, r.branches[j].name) {
    }
    forall k | 0 <= k < |r.layers| ensures LayerLeft(env, r, n, r.layers[k], r'.layers[k]) {
    }
  }

  // ---- convergence ----

  /** The request of a branch, if any, can be read and is not later than the branch's next sync: than now, or than
      the last sync where that one is good enough to be kept. */
  ghost predicate Honoured(env: Env, r: Repo, b: BranchState) {
    match Request(r, b.name)
    case Absent => true
    case Garbled => false
    case At(t) => t <= env.now || Skipped(env, r, b)
  }

  lemma LeftTooOldIff(env: Env, r: Repo, r': Repo, b: BranchState)
    requires Clean(env) && env.period >= 0 && r'.requests == r.requests
    ensures TooOld(env, r', Left(env, r, b)) <==> !Honoured(env, r, b)
  {
  }

  lemma {:induction false} NoneFailed(states: seq<BranchState>)
    requires forall i :: 0 <= i < |states| ==> states[i].lastSyncStatus == SUCCESS
    ensures !AnyFailed(states)
  {
    if states != [] {
      NoneFailed(states[1..]);
    }
  }

  /** Annotating layers moves none of them to another repository or branch. */
  lemma {:induction false} SameRefs(repo: string, layers: seq<Layer>, layers': seq<Layer>)
    requires |layers'| == |layers|
    requires forall k :: 0 <= k < |layers| ==> layers'[k] == layers[k].(ann := layers'[k].ann)
    ensures Refs(Managed(repo, layers')) == Refs(Managed(repo, layers))
    ensures |Managed(repo, layers')| == |Managed(repo, layers)|
  {
    if layers != [] {
      SameRefs(repo, layers[1..], layers'[1..]);
    }
  }

  lemma {:induction false} RefOfLayer(repo: string, layers: seq<Layer>, k: nat)
    requires k < |layers| && layers[k].repository == repo
    ensures layers[k].branch in Refs(Managed(repo, layers))
  {
    if k > 0 {
      RefOfLayer(repo, layers[1..], k - 1);
    }
  }

  /** What the whole clean pass leaves: every state settled, no name added or lost. */
  lemma CleanStates(env: Env, r: Repo, r': Repo)
    requires Clean(env) && PassLeft(env, r, |r.branches|, r')
    requires Names(r.branches) == (set x | x in Refs(Managed(r.name, r.layers)))
    ensures Merge(Refs(Managed(r'.name, r'.layers)), r'.branches) == r'.branches
  {
    SameRefs(r.name, r.layers, r'.layers);
    forall x ensures x in Names(r'.branches) <==> x in Names(r.branches) {
      if x in Names(r'.branches) {
        var b :| b in r'.branches && b.name == x;
        var j :| 0 <= j < |r'.branches| && r'.branches[j] == b;
        assert r.branches[j] in r.branches;
      }
      if x in Names(r.branches) {
        var b :| b in r.branches && b.name == x;
        var j :| 0 <= j < |r.branches| && r.branches[j] == b;
        assert r'.branches[j] in r'.branches;
      }
    }
    MergeIdle(Refs(Managed(r'.name, r'.layers)), r'.branches);
  }

  /** Where every request is honoured, no layer stays new. */
  lemma NoNewLeft(env: Env, r: Repo, r': Repo)
    requires Clean(env) && PassLeft(env, r, |r.branches|, r')
    requires Names(r.branches) == (set x | x in Refs(Managed(r.name, r.layers)))
    requires forall i :: 0 <= i < |r.branches| ==> Honoured(env, r, r.branches[i])
    ensures !AnyNew(r'.name, r'.layers)
  {
    forall k | 0 <= k < |r'.layers| && r'.layers[k].repository == r.name ensures !IsNew(r'.layers[k]) {
      var l := r.layers[k];
      RefOfLayer(r.name, r.layers, k);
      assert l.branch in Names(r.branches);
      var b :| b in r.branches && b.name == l.branch;
      var j :| 0 <= j < |r.branches| && r.branches[j] == b;
      if !Skipped(env, r, b) {
        assert SyncedIn(env, r, |r.branches|, l.branch);
      }
    }
  }

  lemma HonouredSyncs(env: Env, r: Repo, r': Repo)
    requires Clean(env) && env.period >= 0 && PassLeft(env, r, |r.branches|, r')
    requires Names(r.branches) == (set x | x in Refs(Managed(r.name, r.layers)))
    requires forall i :: 0 <= i < |r.branches| ==> Honoured(env, r, r.branches[i])
    ensures Synced(env, r')
  {
    CleanStates(env, r, r');
    NoNewLeft(env, r, r');
    forall i | 0 <= i < |r.branches|
      ensures !TooOld(env, r', r'.branches[i]) && r'.branches[i].lastSyncStatus == SUCCESS
    {
      LeftTooOldIff(env, r, r', r.branches[i]);
      assert Honoured(env, r, r.branches[i]);
    }
    NoneFailed(r'.branches);
  }

  lemma UnhonouredStays(env: Env, r: Repo, r': Repo, i: nat)
    requires Clean(env) && env.period >= 0 && PassLeft(env, r, |r.branches|, r')
    requires Names(r.branches) == (set x | x in Refs(Managed(r.name, r.layers)))
    requires i < |r.branches| && !Honoured(env, r, r.branches[i])
    ensures !Synced(env, r')
  {
    CleanStates(env, r, r');
    LeftTooOldIff(env, r, r', r.branches[i]);
    assert TooOld(env, r', r'.branches[i]);
  }

  lemma PassConverges(env: Env, r: Repo)
    requires Clean(env) && env.period >= 0 && Unique(r.branches)
    requires Names(r.branches) == (set x | x in Refs(Managed(r.name, r.layers)))
    ensures Synced(env, Pass(env, r, |r.branches|)) <==>
            forall i :: 0 <= i < |r.branches| ==> Honoured(env, r, r.branches[i])
  {
    var r' := Pass(env, r, |r.branches|);
    CleanPass(env, r, |r.branches|);
    if forall i :: 0 <= i < |r.branches| ==> Honoured(env, r, r.branches[i]) {
      HonouredSyncs(env, r, r');
    } else {
      var i :| 0 <= i < |r.branches| && !Honoured(env, r, r.branches[i]);
      UnhonouredStays(env, r, r', i);
    }
  }

  /** The states a reconciliation works on: those of the branches that managed layers follow. */
  function Current(r: Repo): seq<BranchState> {
    Merge(Refs(Managed(r.name, r.layers)), r.branches)
  }

  lemma {:induction false} NothingManaged(repo: string, layers: seq<Layer>)
    requires Managed(repo, layers) == []
    ensures forall k :: 0 <= k < |layers| ==> layers[k].repository != repo
  {
    if layers != [] {
      NothingManaged(repo, layers[1..]);
      assert layers == [layers[0]] + layers[1..];
    }
  }

  lemma HandledConverges(env: Env, r: Repo)
    requires Clean(env) && env.period >= 0 && Unique(r.branches)
    ensures Synced(env, Handled(env, r)) <==> forall i :: 0 <= i < |Current(r)| ==> Honoured(env, r, Current(r)[i])
  {
    var layers := Managed(r.name, r.layers);
    if layers == [] {
      NothingManaged(r.name, r.layers);
      MergeNames([], r.branches);
      assert forall i :: 0 <= i < |Current(r)| ==> Current(r)[i].name in Names(Current(r));
    } else {
      var merged := r.(branches := Current(r));
      MergeUnique(Refs(layers), r.branches);
      MergeNames(Refs(layers), r.branches);
      PassConverges(env, merged);
      assert forall b :: Honoured(env, merged, b) <==> Honoured(env, r, b);
    }
  }

  /** In a repository that counts as synced every request is honoured. */
  lemma SyncedHonours(env: Env, r: Repo, i: nat)
    requires Consistent(r) && Synced(env, r) && i < |Current(r)|
    ensures Honoured(env, r, Current(r)[i]) && Current(r)[i].lastSyncStatus == SUCCESS
  {
    var b := Current(r)[i];
    CurrentConsistent(r);
    assert !TooOld(env, r, b);
    NoneFailedMeans(Current(r), i);
    assert !AnyNewFor(r.name, b.name, r.layers);
  }

  lemma {:induction false} NoneFailedMeans(states: seq<BranchState>, i: nat)
    requires !AnyFailed(states) && i < |states| && forall j :: 0 <= j < |states| ==> states[j].lastSyncStatus != ""
    ensures states[i].lastSyncStatus != FAILED
  {
    if i > 0 {
      NoneFailedMeans(states[1..], i - 1);
    }
  }

  /** Decision and handler agree: after one reconciliation in which nothing fails, the repository counts as synced at
      that time exactly when every sync request can be read and is not in the future, or is older than a sync that
      still stands. */
  lemma OnePassConvergesIff(env: Env, r: Repo)
    requires Clean(env) && env.period >= 0 && Consistent(r)
    ensures Synced(env, Reconciled(env, r)) <==> forall i :: 0 <= i < |Current(r)| ==> Honoured(env, r, Current(r)[i])
  {
    if Synced(env, r) {
      forall i | 0 <= i < |Current(r)| ensures Honoured(env, r, Current(r)[i]) {
        SyncedHonours(env, r, i);
      }
    } else {
      HandledConverges(env, r);
    }
  }

  /** What one reconciliation makes of a layer of the repository, whatever fails: when its branch is not skipped and is
      synced, the branch's state shows the provider's latest revision and the layer, if it could be annotated, carries
      that same revision; otherwise the layer is left alone. */
  lemma ReconciledLayer(env: Env, r: Repo, k: nat) returns (b: BranchState)
    requires Unique(r.branches) && env.provider && env.listed && !Synced(env, r)
    requires k < |r.layers| && r.layers[k].repository == r.name
    ensures b in Current(r) && b.name == r.layers[k].branch
    ensures var l, r', rev := r.layers[k], Reconciled(env, r), SyncedTo(env, r, b.name);
            && |r'.layers| == |r.layers|
            && if Skipped(env, r, b) || rev.None? then r'.layers[k] == l
               else
                 && env.latest(l.branch) == rev && BranchState(l.branch, rev.value, At(env.now), SUCCESS) in r'.branches
                 && if env.patched(l.name) then Carries(env, l, r'.layers[k], rev.value) else r'.layers[k] == l
  {
    var l, refs, merged := r.layers[k], Refs(Managed(r.name, r.layers)), r.(branches := Current(r));
    RefOfLayer(r.name, r.layers, k);
    MergeNames(refs, r.branches);
    MergeUnique(refs, r.branches);
    assert l.branch in Names(Current(r));
    b :| b in Current(r) && b.name == l.branch;
    var j :| 0 <= j < |Current(r)| && Current(r)[j] == b;
    PassLeaves(env, merged, |merged.branches|);
    var r' := Pass(env, merged, |merged.branches|);
    assert r'.branches[j] == Left(env, merged, b) && LayerLeft(env, merged, |merged.branches|, l, r'.layers[k]);
    assert SyncedIn(env, merged, |merged.branches|, l.branch) <==>
           !Skipped(env, r, b) && SyncedTo(env, r, b.name).Some? by {
      assert forall i :: 0 <= i < |Current(r)| && Current(r)[i].name == b.name ==> i == j;
    }
  }

  lemma {:induction false} PassNames(env: Env, r: Repo, n: nat)
    requires n <= |r.branches| && Unique(r.branches)
    ensures Names(Pass(env, r, n).branches) == Names(r.branches)
  {
    PassLeaves(env, r, n);
    var r' := Pass(env, r, n);
    forall j | 0 <= j < |r.branches| ensures r'.branches[j].name == r.branches[j].name {
    }
    forall x ensures x in Names(r'.branches) <==> x in Names(r.branches) {
      if x in Names(r'.branches) {
        var j :| 0 <= j < |r'.branches| && r'.branches[j].name == x;
        assert r.branches[j] in r.branches;
      }
      if x in Names(r.branches) {
        var j :| 0 <= j < |r.branches| && r.branches[j].name == x;
        assert r'.branches[j] in r'.branches;
      }
    }
  }

  /** After a reconciliation that had to act and could, there is a state for exactly the branches that layers of the
      repository follow: none is missing, and those of branches nobody follows any more are gone. */
  lemma ReconciledTracks(env: Env, r: Repo)
    requires Unique(r.branches) && env.provider && env.listed && !Synced(env, r)
    ensures Names(Reconciled(env, r).branches) == (set x | x in Refs(Managed(r.name, r.layers)))
  {
    var refs, merged := Refs(Managed(r.name, r.layers)), r.(branches := Current(r));
    MergeNames(refs, r.branches);
    MergeUnique(refs, r.branches);
    PassNames(env, merged, |merged.branches|);
    if Managed(r.name, r.layers) == [] {
      assert refs == [];
    }
  }

  /** A request on the repository for a branch that its layers follow is heard: while it is later than the branch's last
      sync the repository does not count as synced, and the next pass does not skip the branch. */
  lemma RequestIsHeard(env: Env, r: Repo, b: BranchState, t: int)
    requires b in Current(r) && b.lastSyncDate.At? && t > b.lastSyncDate.time
    requires var key := "webhook.terraform.padok.cloud/sync-" + Dashed(b.name);
             key in r.requests && r.requests[key] == At(t)
    ensures !Synced(env, r) && !Skipped(env, r, b)
  {
    var i :| 0 <= i < |Current(r)| && Current(r)[i] == b;
    assert TooOld(env, r, Current(r)[i]);
  }

  // ---- what every reconciliation keeps ----

  /** Date and status are written together, and a success has its bundle. */
  ghost predicate StateOk(bundles: set<(string, string)>, b: BranchState) {
    && !b.lastSyncDate.Garbled?
    && (b.lastSyncDate.Absent? <==> b.lastSyncStatus == "")
    && (b.lastSyncStatus == "" || b.lastSyncStatus == FAILED
        || (b.lastSyncStatus == SUCCESS && (b.name, b.latestRev) in bundles))
  }

  ghost predicate Consistent(r: Repo) {
    && Unique(r.branches)
    && forall i :: 0 <= i < |r.branches| ==> StateOk(r.bundles, r.branches[i])
  }

  lemma CurrentConsistent(r: Repo)
    requires Consistent(r)
    ensures Consistent(r.(branches := Current(r)))
  {
    MergeUnique(Refs(Managed(r.name, r.layers)), r.branches);
    forall i | 0 <= i < |Current(r)| ensures StateOk(r.bundles, Current(r)[i]) {
      MergedFrom(Refs(Managed(r.name, r.layers)), r.branches, Current(r)[i]);
    }
  }

  lemma UpdateConsistent(r: Repo, i: nat, now: int, rev: string, status: string, bundles: set<(string, string)>)
    requires Consistent(r) && i < |r.branches| && r.bundles <= bundles
    requires status == FAILED || (status == SUCCESS && (r.branches[i].name, rev) in bundles)
    ensures Consistent(r.(branches := Updated(r.branches, r.branches[i].name, now, rev, status), bundles := bundles))
  {
    UpdatedAt(r.branches, i, now, rev, status);
    forall j | 0 <= j < |r.branches| ensures StateOk(bundles, r.branches[j]) {
      assert StateOk(r.bundles, r.branches[j]);
    }
  }

  lemma SyncBranchConsistent(env: Env, r: Repo, i: nat, r': Repo)
    requires Consistent(r) && i < |r.branches| && r' == SyncBranch(env, r, i)
    ensures Consistent(r')
  {
    var b := r.branches[i];
    match env.latest(b.name) {
      case None => UpdateConsistent(r, i, env.now, "", FAILED, r.bundles);
      case Some(rev) =>
        UpdateConsistent(r, i, env.now, rev, FAILED, r.bundles);
        UpdateConsistent(r, i, env.now, rev, SUCCESS, r.bundles + {(b.name, rev)});
    }
  }

  lemma {:induction false} PassConsistent(env: Env, r: Repo, n: nat)
    requires Consistent(r) && n <= |r.branches|
    ensures Consistent(Pass(env, r, n))
  {
    if n > 0 {
      PassConsistent(env, r, n - 1);
      SyncBranchConsistent(env, Pass(env, r, n - 1), n - 1, Pass(env, r, n));
    }
  }

  lemma BundlesStay(env: Env, r: Repo, i: nat)
    requires i < |r.branches|
    ensures r.bundles <= SyncBranch(env, r, i).bundles
  {
  }

  lemma {:induction false} PassKeepsBundles(env: Env, r: Repo, n: nat)
    requires n <= |r.branches|
    ensures r.bundles <= Pass(env, r, n).bundles
  {
    if n > 0 {
      PassKeepsBundles(env, r, n - 1);
      BundlesStay(env, Pass(env, r, n - 1), n - 1);
    }
  }

  /** Whatever fails: names stay free of duplicates, date and status are set together, and a branch shown as a success
      has the bundle of its latest revision in the datastore. */
  lemma ReconciledConsistent(env: Env, r: Repo)
    requires Consistent(r)
    ensures Consistent(Reconciled(env, r)) && r.bundles <= Reconciled(env, r).bundles
  {
    var merged := r.(branches := Current(r));
    CurrentConsistent(r);
    PassConsistent(env, merged, |merged.branches|);
    PassKeepsBundles(env, merged, |merged.branches|);
  }

  /** The bundles of the commits a layer is annotated with are in the datastore: runs made from them find theirs. */
  ghost predicate LayerBundled(bundles: set<(string, string)>, l: Layer) {
    && (l.ann.branchCommit.Some? ==> (l.branch, l.ann.branchCommit.value) in bundles)
    && (l.ann.relevantCommit.Some? ==> (l.branch, l.ann.relevantCommit.value) in bundles)
  }

  ghost predicate LayersBundled(r: Repo) {
    forall k :: 0 <= k < |r.layers| && r.layers[k].repository == r.name ==> LayerBundled(r.bundles, r.layers[k])
  }

  lemma SyncBranchBundles(env: Env, r: Repo, i: nat, r': Repo)
    requires LayersBundled(r) && i < |r.branches| && r' == SyncBranch(env, r, i)
    ensures LayersBundled(r')
  {
    var b := r.branches[i];
    forall k | 0 <= k < |r'.layers| && r'.layers[k].repository == r'.name
      ensures LayerBundled(r'.bundles, r'.layers[k])
    {
      if env.latest(b.name).Some? {
        AnnotateAt(env, r.name, b.name, env.latest(b.name).value, r.layers, k);
      }
      assert LayerBundled(r.bundles, r.layers[k]);
    }
  }

  lemma {:induction false} PassBundles(env: Env, r: Repo, n: nat)
    requires LayersBundled(r) && n <= |r.branches|
    ensures LayersBundled(Pass(env, r, n))
  {
    if n > 0 {
      PassBundles(env, r, n - 1);
      SyncBranchBundles(env, Pass(env, r, n - 1), n - 1, Pass(env, r, n));
    }
  }

  /** No reconciliation annotates a layer with a commit whose bundle is not stored. */
  lemma ReconciledBundles(env: Env, r: Repo)
    requires LayersBundled(r)
    ensures LayersBundled(Reconciled(env, r))
  {
    var merged := r.(branches := Current(r));
    PassBundles(env, merged, |merged.branches|);
  }

  // ---- what Synced means ----

  /** A branch that was synced successfully, not too long ago, and not before a request. */
  ghost predicate RecentSuccess(env: Env, r: Repo, b: BranchState) {
    && b in r.branches && b.lastSyncDate.At? && b.lastSyncStatus == SUCCESS && (b.name, b.latestRev) in r.bundles
    && b.lastSyncDate.time + env.period >= env.now
    && (Request(r, b.name).Absent? || (Request(r, b.name).At? && Request(r, b.name).time <= b.lastSyncDate.time))
  }

  lemma {:induction false} RefHasLayer(repo: string, layers: seq<Layer>, ref: string) returns (k: nat)
    requires ref in Refs(Managed(repo, layers))
    ensures k < |layers| && layers[k].repository == repo && layers[k].branch == ref
  {
    if layers[0].repository == repo && layers[0].branch == ref {
      k := 0;
    } else {
      k := RefHasLayer(repo, layers[1..], ref);
      k := k + 1;
    }
  }

  /** A layer is looked after: it is annotated, and its branch is fresh. */
  ghost predicate LookedAfter(env: Env, r: Repo, l: Layer) {
    l.ann.branchCommit.Some? && exists b: BranchState :: b.name == l.branch && RecentSuccess(env, r, b)
  }

  lemma SyncedLooksAfter(env: Env, r: Repo, k: nat)
    requires Consistent(r) && Synced(env, r) && k < |r.layers| && r.layers[k].repository == r.name
    ensures LookedAfter(env, r, r.layers[k])
  {
    var l, refs := r.layers[k], Refs(Managed(r.name, r.layers));
    RefOfLayer(r.name, r.layers, k);
    MergeNames(refs, r.branches);
    assert l.branch in Names(Current(r));
    var b :| b in Current(r) && b.name == l.branch;
    var i :| 0 <= i < |Current(r)| && Current(r)[i] == b;
    SyncedHonours(env, r, i);
    CurrentConsistent(r);
    MergedFrom(refs, r.branches, b);
    assert !TooOld(env, r, b);
    assert RecentSuccess(env, r, b);
  }

  lemma LookedAfterState(env: Env, r: Repo, i: nat)
    requires Consistent(r) && i < |Current(r)|
    requires forall k :: 0 <= k < |r.layers| && r.layers[k].repository == r.name ==> LookedAfter(env, r, r.layers[k])
    ensures !TooOld(env, r, Current(r)[i]) && Current(r)[i].lastSyncStatus == SUCCESS
  {
    var c, refs := Current(r)[i], Refs(Managed(r.name, r.layers));
    MergedFrom(refs, r.branches, c);
    var k := RefHasLayer(r.name, r.layers, c.name);
    var b: BranchState :| b.name == c.name && RecentSuccess(env, r, b);
    assert b.name in Names(r.branches);
    var x :| 0 <= x < |r.branches| && r.branches[x] == b;
    var y :| 0 <= y < |r.branches| && r.branches[y] == c;
  }

  /** A repository counts as synced exactly when its layers can be listed and each is annotated and follows a branch
      that was synced successfully, recently and after the last request. */
  lemma SyncedIff(env: Env, r: Repo)
    requires Consistent(r)
    ensures Synced(env, r) <==>
              env.listed
              && forall k :: 0 <= k < |r.layers| && r.layers[k].repository == r.name ==>
                   LookedAfter(env, r, r.layers[k])
  {
    if Synced(env, r) {
      forall k | 0 <= k < |r.layers| && r.layers[k].repository == r.name ensures LookedAfter(env, r, r.layers[k]) {
        SyncedLooksAfter(env, r, k);
      }
    }
    if forall k :: 0 <= k < |r.layers| && r.layers[k].repository == r.name ==> LookedAfter(env, r, r.layers[k]) {
      forall i | 0 <= i < |Current(r)|
        ensures !TooOld(env, r, Current(r)[i]) && Current(r)[i].lastSyncStatus == SUCCESS
      {
        LookedAfterState(env, r, i);
      }
      NoneFailed(Current(r));
    }
  }
}
