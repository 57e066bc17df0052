/** Plans, logs and bundles over the map-backed backend, and what can be read back after any sequence of writes. */
module Storage {
  import opened Resources
  import opened Text
  import opened Datastore
  import E = Encryption

  /** A name as the API server admits it. */
  predicate Name(s: string) {
    s != "" && '/' !in s
  }

  function ReadAt(m: Manager, data: map<string, Bytes>, key: string): Option<Bytes> {
    if Path(key) in data then Some(Readable(m, data[Path(key)])) else None
  }

  ghost predicate AllNatural(attempts: set<string>) {
    forall a :: a in attempts ==> Atoi(a) >= 0
  }

  ghost predicate IsLatest(attempts: set<string>, a: string) {
    a in attempts && forall b :: b in attempts ==> Atoi(b) <= Atoi(a)
  }

  // ---- writes ----

  datatype Put =
    | PlanPut(namespace: string, layer: string, run: string, attempt: string, format: string, content: Bytes)
    | LogsPut(namespace: string, layer: string, run: string, attempt: string, content: Bytes)
    | BundlePut(namespace: string, repository: string, branch: string, revision: string, content: Bytes)

  function KeyOf(p: Put): string {
    match p
    case PlanPut(n, l, r, a, f, _) => PlanKey(n, l, r, a, f)
    case LogsPut(n, l, r, a, _) => LogsKey(n, l, r, a)
    case BundlePut(n, r, b, v, _) => BundleKey(n, r, b, v)
  }

  function After(m: Manager, data: map<string, Bytes>, p: Put, iv: E.Block): map<string, Bytes> {
    data[Path(KeyOf(p)) := Written(m, iv, p.content)]
  }

  // ---- listing and sorting ----

  lemma RunPrefixInner(namespace: string, layer: string, run: string)
    requires Name(run)
    ensures Inner(RunPrefix(namespace, layer, run))
    ensures "/" + SanitizePrefix(RunPrefix(namespace, layer, run)) == "/" + RunPrefix(namespace, layer, run) + "/"
  {
    var key := RunPrefix(namespace, layer, run);
    assert ["layers", namespace, layer] + [run] == ["layers", namespace, layer, run];
    JoinEnds(["layers", namespace, layer], run);
    InnerPath(key);
  }

  lemma JoinHead(parts: seq<string>)
    requires parts != []
    ensures parts[0] <= Join(parts, '/')
  {
  }

  lemma JoinTail(front: seq<string>, last: string)
    requires front != []
    ensures Join(front + [last], '/') == Join(front, '/') + ['/'] + last
  {
    JoinAppend(front, [last], '/');
  }

  /** A joined path begins with its first piece and ends with its last. */
  lemma JoinEnds(front: seq<string>, last: string)
    requires front != [] && front[0] != "" && last != ""
    ensures var s := Join(front + [last], '/');
            && s != "" && s[0] == front[0][0] && s[|s| - 1] == last[|last| - 1]
  {
    JoinTail(front, last);
    JoinHead(front);
  }

  lemma EntryPlain(data: map<string, Bytes>, listPrefix: string, e: string)
    requires e in Entries(data, listPrefix)
    ensures Split(e, '/') == [e]
  {
    SplitPlain(e, '/');
  }

  lemma SomeEntry(data: map<string, Bytes>, listPrefix: string)
    requires Under(data, listPrefix) != {}
    ensures Entries(data, listPrefix) != {}
  {
    var k :| k in Under(data, listPrefix);
    assert FirstPart(k[|listPrefix|..]) in Entries(data, listPrefix);
  }

  /** Dropping a common prefix keeps a listing one. */
  lemma AllListed(paths: seq<string>, all: seq<string>, prefix: string, entries: set<string>)
    requires |all| == |paths| && Lists(paths, Below(prefix, entries))
    requires forall j :: 0 <= j < |all| ==> all[j] in entries && paths[j] == prefix + all[j]
    ensures Lists(all, entries)
  {
    forall e | e in entries ensures e in all {
      assert prefix + e in Below(prefix, entries);
      assert prefix + e in (set x | x in paths);
      var j :| 0 <= j < |paths| && paths[j] == prefix + e;
      assert all[j] == paths[j][|prefix|..] == e;
    }
  }

  lemma SortedLists(s: seq<string>, t: seq<string>, elements: set<string>)
    requires Lists(s, elements) && multiset(s) == multiset(t)
    ensures Lists(t, elements)
  {
    forall x ensures x in t <==> x in s {
      assert x in multiset(s) <==> x in multiset(t);
    }
    forall x | x in s ensures multiset(s)[x] == 1 {
      OnceInMultiset(s, x);
    }
    forall i, j | 0 <= i < j < |t| ensures t[i] != t[j] {
      if t[i] == t[j] {
        TwiceInMultiset(t, i, j);
      }
    }
  }

  lemma {:induction false} OnceInMultiset(s: seq<string>, x: string)
    requires x in s && forall i, j :: 0 <= i < j < |s| ==> s[i] != s[j]
    ensures multiset(s)[x] == 1
  {
    assert s == [s[0]] + s[1..];
    if x == s[0] {
      assert x !in s[1..];
    } else {
      OnceInMultiset(s[1..], x);
    }
  }

  lemma TwiceInMultiset(s: seq<string>, i: nat, j: nat)
    requires i < j < |s| && s[i] == s[j]
    ensures multiset(s)[s[i]] >= 2
  {
    assert s == s[..j] + [s[j]] + s[j + 1..];
    assert s[..j][i] == s[i];
    assert s[i] in multiset(s[..j]);
  }

  lemma LastIsLatest(attempts: seq<string>, all: set<string>)
    requires attempts != [] && Lists(attempts, all) && (Naturals(attempts) ==> Ascending(attempts))
    ensures attempts[|attempts| - 1] in all
    ensures AllNatural(all) ==> IsLatest(all, attempts[|attempts| - 1])
  {
  }

  // ---- storage ----

  class Storage {
    const backend: Mock
    const manager: Manager

    constructor (manager: Manager)
      ensures fresh(backend) && backend.data == map[] && this.manager == manager
    {
      backend := new Mock();
      this.manager := manager;
    }

    method Get(key: string) returns (r: Option<Bytes>)
      ensures r == ReadAt(manager, backend.data, key)
    {
      var data := backend.Get(key);
      if data.None? {
        return None;
      }
      return Some(Readable(manager, data.value));
    }

    method GetPlan(namespace: string, layer: string, run: string, attempt: string, format: string)
      returns (r: Option<Bytes>)
      ensures r == ReadAt(manager, backend.data, PlanKey(namespace, layer, run, attempt, format))
    {
      r := Get(PlanKey(namespace, layer, run, attempt, format));
    }

    /** iv is what the random source gives. */
    method PutPlan(
      namespace: string, layer: string, run: string, attempt: string, format: string, iv: E.Block, plan: Bytes)
      modifies backend
      ensures backend.data ==
              After(manager, old(backend.data), PlanPut(namespace, layer, run, attempt, format, plan), iv)
    {
      backend.Set(PlanKey(namespace, layer, run, attempt, format), Written(manager, iv, plan));
    }

    /** The attempts under which anything is stored for exactly this run, in numerical order. */
    method GetAttempts(namespace: string, layer: string, run: string) returns (attempts: seq<string>, err: bool)
      requires Name(run)
      ensures Lists(attempts, Attempts(backend.data, namespace, layer, run))
      ensures err <==> Attempts(backend.data, namespace, layer, run) == {}
      ensures Naturals(attempts) ==> Ascending(attempts)
    {
      var key := RunPrefix(namespace, layer, run);
      RunPrefixInner(namespace, layer, run);
      var paths := backend.List(key);
      if paths.None? {
        return [], true;
      }
      var all := new string[|paths.value|](i => "");
      ghost var entries := Entries(backend.data, "/" + key + "/");
      for i := 0 to |paths.value|
        invariant forall j :: 0 <= j < i ==> all[j] in entries && paths.value[j] == "/" + key + "/" + all[j]
      {
        var path := paths.value[i];
        assert path in (set x | x in paths.value);
        assert path in Below("/" + key + "/", entries);
        ghost var e :| e in entries && path == "/" + key + "/" + e;
        EntryPlain(backend.data, "/" + key + "/", e);
        assert TrimPrefix(path, "/" + key + "/") == e;
        all[i] := Split(TrimPrefix(path, "/" + key + "/"), '/')[0];
      }
      AllListed(paths.value, all[..], "/" + key + "/", entries);
      ghost var unsorted := all[..];
      SomeEntry(backend.data, "/" + key + "/");
      SortFunc(all);
      SortedLists(unsorted, all[..], entries);
      return all[..], false;
    }

    /** "-1" stands for none. */
    method GetLatestAttempt(namespace: string, layer: string, run: string) returns (latest: string, err: bool)
      requires Name(run)
      ensures var attempts := Attempts(backend.data, namespace, layer, run);
              && (err <==> attempts == {})
              && (err ==> latest == "-1")
              && (!err ==> latest in attempts && (AllNatural(attempts) ==> IsLatest(attempts, latest)))
    {
      var attempts, failed := GetAttempts(namespace, layer, run);
      if failed || |attempts| == 0 {
        return "-1", true;
      }
      LastIsLatest(attempts, Attempts(backend.data, namespace, layer, run));
      return attempts[|attempts| - 1], false;
    }

    method GetLatestPlan(namespace: string, layer: string, run: string, format: string) returns (r: Option<Bytes>)
      requires Name(run)
      ensures var attempts := Attempts(backend.data, namespace, layer, run);
              && (attempts == {} ==> r.None?)
              && (attempts != {} && AllNatural(attempts) ==>
                    exists a :: IsLatest(attempts, a)
                      && r == ReadAt(manager, backend.data, PlanKey(namespace, layer, run, a, format)))
    {
      var latest, err := GetLatestAttempt(namespace, layer, run);
      if err || latest == "-1" {
        return None;
      }
      r := GetPlan(namespace, layer, run, latest, format);
    }
  }

  // ---- what any sequence of writes leaves ----

  predicate Proper(p: Put) {
    match p
    case PlanPut(n, l, r, a, _, _) => Name(n) && Name(l) && Name(r) && Name(a)
    case LogsPut(n, l, r, a, _) => Name(n) && Name(l) && Name(r) && Name(a)
    case BundlePut(n, r, _, v, _) => Name(n) && Name(r) && '/' !in v
  }

  predicate ForRun(p: Put, namespace: string, layer: string, run: string) {
    !p.BundlePut? && p.namespace == namespace && p.layer == layer && p.run == run
  }

  /** A plan is kept in four forms; any other format is taken for "json". */
  predicate SameFormat(f: string, g: string) {
    f == g || (f !in {"pretty", "short", "bin"} && g !in {"pretty", "short", "bin"})
  }

  lemma FilesApart(f: string, g: string)
    ensures FileOf(f) == FileOf(g) <==> SameFormat(f, g)
    ensures FileOf(f) != "run.log"
  {
    assert "plan.json"[5] != "plan.bin"[5] && "pretty.plan"[1] != "plan.json"[1] && "pretty.plan"[1] != "plan.bin"[1];
    assert "short.diff"[0] == 's' && "run.log"[0] == 'r';
  }

  /** Two writes to the same object. */
  predicate SameObject(p: Put, q: Put) {
    match p
    case PlanPut(n, l, r, a, f, _) =>
      q.PlanPut? && q.namespace == n && q.layer == l && q.run == r && q.attempt == a && SameFormat(q.format, f)
    case LogsPut(n, l, r, a, _) => q.LogsPut? && q.namespace == n && q.layer == l && q.run == r && q.attempt == a
    case BundlePut(n, r, b, v, _) =>
      q.BundlePut? && q.namespace == n && q.repository == r && q.branch == b && q.revision == v
  }

  /** The pieces of the key of a plan or of logs. */
  function Pieces(p: Put): seq<string>
    requires !p.BundlePut?
  {
    ["layers", p.namespace, p.layer, p.run, p.attempt, if p.PlanPut? then FileOf(p.format) else "run.log"]
  }

  lemma PiecesPlain(p: Put)
    requires !p.BundlePut? && Proper(p)
    ensures Plain(Pieces(p), '/') && KeyOf(p) == Join(Pieces(p), '/')
  {
  }

  lemma KeyOfInner(p: Put)
    requires Proper(p)
    ensures Inner(KeyOf(p)) && Path(KeyOf(p)) == "/" + KeyOf(p)
    ensures KeyOf(p)[0] == (if p.BundlePut? then 'r' else 'l')
  {
    if p.BundlePut? {
      var front, file := ["repositories", p.namespace, p.repository, p.branch], p.revision + ".gitbundle";
      assert front + [file] == ["repositories", p.namespace, p.repository, p.branch, file];
      assert file[|file| - 1] == 'e';
      JoinEnds(front, file);
    } else {
      assert Pieces(p) == ["layers", p.namespace, p.layer, p.run, p.attempt] + [Pieces(p)[5]];
      JoinEnds(["layers", p.namespace, p.layer, p.run, p.attempt], Pieces(p)[5]);
    }
    InnerPath(KeyOf(p));
  }

  /** A bundle key, with its branch, which may hold separators, in the middle. */
  lemma BundleKeyShape(p: Put)
    requires p.BundlePut?
    ensures KeyOf(p) ==
            "repositories" + ['/'] + (p.namespace + ['/'] + (p.repository + ['/'] +
            (p.branch + ['/'] + (p.revision + ".gitbundle"))))
  {
    var file := p.revision + ".gitbundle";
    var last, branch := [file], [p.branch, file];
    var repository, namespace := [p.repository] + branch, [p.namespace, p.repository] + branch;
    var all := ["repositories", p.namespace, p.repository, p.branch, file];
    assert all[1..] == namespace && namespace[1..] == repository && repository[1..] == branch && branch[1..] == last;
    assert Join(branch, '/') == p.branch + ['/'] + file;
    assert Join(repository, '/') == p.repository + ['/'] + Join(branch, '/');
    assert Join(namespace, '/') == p.namespace + ['/'] + Join(repository, '/');
  }

  lemma BundleKeyInjective(p: Put, q: Put)
    requires p.BundlePut? && q.BundlePut? && Proper(p) && Proper(q) && KeyOf(p) == KeyOf(q)
    ensures SameObject(p, q)
  {
    BundleKeyShape(p);
    BundleKeyShape(q);
    var pFile, qFile := p.revision + ".gitbundle", q.revision + ".gitbundle";
    var pBranch, qBranch := p.branch + ['/'] + pFile, q.branch + ['/'] + qFile;
    var pRepo, qRepo := p.repository + ['/'] + pBranch, q.repository + ['/'] + qBranch;
    FirstPiece("repositories", p.namespace + ['/'] + pRepo, "repositories", q.namespace + ['/'] + qRepo, '/');
    FirstPiece(p.namespace, pRepo, q.namespace, qRepo, '/');
    FirstPiece(p.repository, pBranch, q.repository, qBranch, '/');
    LastPiece(p.branch, pFile, q.branch, qFile, '/');
    assert p.revision == pFile[..|p.revision|] && q.revision == qFile[..|q.revision|];
  }

  lemma LayerKeyInjective(p: Put, q: Put)
    requires !p.BundlePut? && !q.BundlePut? && Proper(p) && Proper(q) && KeyOf(p) == KeyOf(q)
    ensures SameObject(p, q)
  {
    PiecesPlain(p);
    PiecesPlain(q);
    var xs, ys := Pieces(p), Pieces(q);
    JoinInjective(xs, ys, '/');
    assert xs[1] == ys[1] && xs[2] == ys[2] && xs[3] == ys[3] && xs[4] == ys[4] && xs[5] == ys[5];
    FilesApart(if p.PlanPut? then p.format else "", if q.PlanPut? then q.format else "");
  }

  /** Objects and map keys correspond one to one, slashes in branch names included. */
  lemma KeysAreInjective(p: Put, q: Put)
    requires Proper(p) && Proper(q)
    ensures Path(KeyOf(p)) == Path(KeyOf(q)) <==> SameObject(p, q)
  {
    KeyOfInner(p);
    KeyOfInner(q);
    if p.PlanPut? && q.PlanPut? {
      FilesApart(p.format, q.format);
    }
    if Path(KeyOf(p)) == Path(KeyOf(q)) {
      assert KeyOf(p) == ("/" + KeyOf(p))[1..] == KeyOf(q);
      if p.BundlePut? {
        BundleKeyInjective(p, q);
      } else {
        LayerKeyInjective(p, q);
      }
    }
  }

  /** The map after a sequence of writes to an empty backend. */
  function Filed(m: Manager, puts: seq<(Put, E.Block)>): map<string, Bytes> {
    if puts == [] then map[]
    else
      var last := puts[|puts| - 1];
      After(m, Filed(m, puts[..|puts| - 1]), last.0, last.1)
  }

  ghost predicate AllProper(puts: seq<(Put, E.Block)>) {
    forall i :: 0 <= i < |puts| ==> Proper(puts[i].0)
  }

  /** The content of the last write to p's object. */
  function LastContent(puts: seq<(Put, E.Block)>, p: Put): Option<Bytes> {
    if puts == [] then None
    else if SameObject(puts[|puts| - 1].0, p) then Some(puts[|puts| - 1].0.content)
    else LastContent(puts[..|puts| - 1], p)
  }

  lemma ReadAfter(m: Manager, data: map<string, Bytes>, last: Put, iv: E.Block, p: Put)
    requires Proper(last) && Proper(p)
    ensures ReadAt(m, After(m, data, last, iv), KeyOf(p)) ==
            if SameObject(last, p) then Some(last.content) else ReadAt(m, data, KeyOf(p))
  {
    KeysAreInjective(last, p);
    ReadBack(m, iv, last.content);
  }

  /** What was written last to an object is what is read, whatever else was written and whether encryption is on. */
  lemma {:induction false} ReadsLastWrite(m: Manager, puts: seq<(Put, E.Block)>, p: Put)
    requires AllProper(puts) && Proper(p)
    ensures ReadAt(m, Filed(m, puts), KeyOf(p)) == LastContent(puts, p)
  {
    if puts != [] {
      var rest, last := puts[..|puts| - 1], puts[|puts| - 1];
      ReadsLastWrite(m, rest, p);
      ReadAfter(m, Filed(m, rest), last.0, last.1, p);
    }
  }

  // ---- the forms of a plan ----

  const FORMATS := ["pretty", "json", "short", "bin"]

  /** The forms of a plan as the runner puts them at one attempt, one after the other. */
  function PlanPuts(
    namespace: string, layer: string, run: string, attempt: string, forms: seq<Bytes>, ivs: seq<E.Block>, n: nat)
    : seq<(Put, E.Block)>
    requires n <= |FORMATS| == |forms| == |ivs|
  {
    seq(n, i requires 0 <= i < n => (PlanPut(namespace, layer, run, attempt, FORMATS[i], forms[i]), ivs[i]))
  }

  lemma LastOfForms(
    puts: seq<(Put, E.Block)>, namespace: string, layer: string, run: string, attempt: string,
    forms: seq<Bytes>, ivs: seq<E.Block>, n: nat, i: nat)
    requires i < n <= |FORMATS| == |forms| == |ivs|
    ensures LastContent(puts + PlanPuts(namespace, layer, run, attempt, forms, ivs, n),
                        PlanPut(namespace, layer, run, attempt, FORMATS[i], [])) == Some(forms[i])
    decreases n
  {
    var all := puts + PlanPuts(namespace, layer, run, attempt, forms, ivs, n);
    var fewer := puts + PlanPuts(namespace, layer, run, attempt, forms, ivs, n - 1);
    assert all[..|all| - 1] == fewer;
    if i < n - 1 {
      LastOfForms(puts, namespace, layer, run, attempt, forms, ivs, n - 1, i);
    }
  }

  /** Whatever was written before, each of the four forms put at one attempt reads back as it was put, and any other
      format reads the "json" form. */
  lemma FormsReadBack(
    m: Manager, puts: seq<(Put, E.Block)>, namespace: string, layer: string, run: string, attempt: string,
    forms: seq<Bytes>, ivs: seq<E.Block>, format: string)
    requires AllProper(puts) && Name(namespace) && Name(layer) && Name(run) && Name(attempt)
    requires |FORMATS| == |forms| == |ivs|
    ensures var data := Filed(m, puts + PlanPuts(namespace, layer, run, attempt, forms, ivs, 4));
            ReadAt(m, data, PlanKey(namespace, layer, run, attempt, format)) ==
            Some(if format == "pretty" then forms[0] else if format == "short" then forms[2]
                 else if format == "bin" then forms[3] else forms[1])
  {
    var all := puts + PlanPuts(namespace, layer, run, attempt, forms, ivs, 4);
    var i := if format == "pretty" then 0 else if format == "short" then 2 else if format == "bin" then 3 else 1;
    FilesApart(format, FORMATS[i]);
    ReadsLastWrite(m, all, PlanPut(namespace, layer, run, attempt, FORMATS[i], []));
    LastOfForms(puts, namespace, layer, run, attempt, forms, ivs, 4, i);
  }

  // ---- the latest attempt ----

  lemma ListedPut(ys: seq<string>, attempt: string, file: string)
    requires ys != [] && '/' !in attempt
    ensures "/" + Join(ys + [attempt, file], '/') == "/" + Join(ys, '/') + "/" + (attempt + "/" + file)
    ensures FirstPart(attempt + "/" + file) == attempt
  {
    JoinAppend(ys, [attempt, file], '/');
    assert [attempt, file][1..] == [file];
    assert Join([attempt, file], '/') == attempt + ['/'] + file;
    SplitFirst(attempt, file, '/');
  }

  /** The objects of one run are found under its prefix, by their attempt. */
  lemma EntryOfRun(p: Put)
    requires !p.BundlePut? && Proper(p)
    ensures var listPrefix := "/" + RunPrefix(p.namespace, p.layer, p.run) + "/";
            listPrefix <= Path(KeyOf(p)) && FirstPart(Path(KeyOf(p))[|listPrefix|..]) == p.attempt
  {
    var ys, file := ["layers", p.namespace, p.layer, p.run], Pieces(p)[5];
    KeyOfInner(p);
    PiecesPlain(p);
    assert Pieces(p) == ys + [p.attempt, file];
    ListedPut(ys, p.attempt, file);
  }

  lemma BelowWithoutSlash(y: string, k: string)
    requires "/" + y + "/" <= "/" + k
    ensures y + ['/'] <= k
  {
    assert ("/" + y + "/")[1..] == y + ['/'] && ("/" + k)[1..] == k;
  }

  /** Nothing else is. */
  lemma UnderRunPrefix(p: Put, namespace: string, layer: string, run: string)
    requires Proper(p) && Name(namespace) && Name(layer) && Name(run)
    requires "/" + RunPrefix(namespace, layer, run) + "/" <= Path(KeyOf(p))
    ensures ForRun(p, namespace, layer, run)
  {
    var ys := ["layers", namespace, layer, run];
    var y := Join(ys, '/');
    KeyOfInner(p);
    var k := KeyOf(p);
    BelowWithoutSlash(y, k);
    JoinHead(ys);
    assert k[0] == y[0] == "layers"[0];
    PiecesPlain(p);
    PrefixPieces(ys, Pieces(p), '/');
    var xs := Pieces(p);
    assert xs[1] == xs[..4][1] && xs[2] == xs[..4][2] && xs[3] == xs[..4][3];
  }

  /** The entry under which a write shows up in the listing of a run, if it does. */
  lemma EntryOfPut(p: Put, namespace: string, layer: string, run: string)
    requires Proper(p) && Name(namespace) && Name(layer) && Name(run)
    ensures var listPrefix := "/" + RunPrefix(namespace, layer, run) + "/";
            && (listPrefix <= Path(KeyOf(p)) <==> ForRun(p, namespace, layer, run))
            && (listPrefix <= Path(KeyOf(p)) ==> FirstPart(Path(KeyOf(p))[|listPrefix|..]) == p.attempt)
  {
    if ForRun(p, namespace, layer, run) {
      EntryOfRun(p);
    } else if "/" + RunPrefix(namespace, layer, run) + "/" <= Path(KeyOf(p)) {
      UnderRunPrefix(p, namespace, layer, run);
    }
  }

  lemma {:induction false} FiledByPut(m: Manager, puts: seq<(Put, E.Block)>, k: string) returns (i: nat)
    requires k in Filed(m, puts)
    ensures i < |puts| && Path(KeyOf(puts[i].0)) == k
  {
    i := |puts| - 1;
    if k != Path(KeyOf(puts[i].0)) {
      i := FiledByPut(m, puts[..|puts| - 1], k);
    }
  }

  lemma {:induction false} PutIsFiled(m: Manager, puts: seq<(Put, E.Block)>, i: nat)
    requires i < |puts|
    ensures Path(KeyOf(puts[i].0)) in Filed(m, puts)
  {
    if i < |puts| - 1 {
      PutIsFiled(m, puts[..|puts| - 1], i);
    }
  }

  /** The attempts listed for a run are those that were written for exactly that run, however the names of runs,
      layers and namespaces resemble one another. */
  lemma AttemptsAreWritten(
    m: Manager, puts: seq<(Put, E.Block)>, namespace: string, layer: string, run: string, a: string)
    requires AllProper(puts) && Name(namespace) && Name(layer) && Name(run)
    ensures a in Attempts(Filed(m, puts), namespace, layer, run) <==>
            exists i :: 0 <= i < |puts| && ForRun(puts[i].0, namespace, layer, run) && puts[i].0.attempt == a
  {
    var listPrefix := "/" + RunPrefix(namespace, layer, run) + "/";
    var data := Filed(m, puts);
    if a in Attempts(data, namespace, layer, run) {
      var k :| k in Under(data, listPrefix) && FirstPart(k[|listPrefix|..]) == a;
      var i := FiledByPut(m, puts, k);
      EntryOfPut(puts[i].0, namespace, layer, run);
    }
    if exists i :: 0 <= i < |puts| && ForRun(puts[i].0, namespace, layer, run) && puts[i].0.attempt == a {
      var i :| 0 <= i < |puts| && ForRun(puts[i].0, namespace, layer, run) && puts[i].0.attempt == a;
      var k := Path(KeyOf(puts[i].0));
      EntryOfPut(puts[i].0, namespace, layer, run);
      PutIsFiled(m, puts, i);
      assert k in Under(data, listPrefix);
    }
  }

  /** The attempt is written as the number of its run's retries. */
  ghost predicate Numeral(a: string) {
    exists n: nat :: n <= MAX_INT && a == Itoa(n)
  }

  /** After a plan is written at an attempt that no other write for its run exceeds, the latest plan of the run is
      that plan, with encryption on or off. */
  lemma LatestPlanIsLastWritten(m: Manager, puts: seq<(Put, E.Block)>, p: Put, iv: E.Block, a: string)
    requires AllProper(puts) && Proper(p) && p.PlanPut? && Numeral(p.attempt)
    requires forall i :: 0 <= i < |puts| && ForRun(puts[i].0, p.namespace, p.layer, p.run) ==>
               Numeral(puts[i].0.attempt) && Atoi(puts[i].0.attempt) <= Atoi(p.attempt)
    ensures var data := Filed(m, puts + [(p, iv)]);
            var attempts := Attempts(data, p.namespace, p.layer, p.run);
            && AllNatural(attempts) && p.attempt in attempts
            && (IsLatest(attempts, a) ==>
                  && a == p.attempt
                  && ReadAt(m, data, PlanKey(p.namespace, p.layer, p.run, a, p.format)) == Some(p.content))
  {
    var all := puts + [(p, iv)];
    var attempts := Attempts(Filed(m, all), p.namespace, p.layer, p.run);
    forall b | b in attempts ensures Numeral(b) && Atoi(b) <= Atoi(p.attempt) {
      AttemptsAreWritten(m, all, p.namespace, p.layer, p.run, b);
    }
    assert all[|puts|].0 == p;
    AttemptsAreWritten(m, all, p.namespace, p.layer, p.run, p.attempt);
    forall b | b in attempts ensures 0 <= Atoi(b) {
      NumeralValue(b, b);
    }
    assert all[..|puts|] == puts;
    ReadBack(m, iv, p.content);
    if IsLatest(attempts, a) {
      NumeralValue(a, p.attempt);
    }
  }

  lemma NumeralValue(a: string, b: string)
    requires Numeral(a) && Numeral(b)
    ensures Atoi(a) >= 0 && (Atoi(a) == Atoi(b) ==> a == b)
  {
    var m: nat :| m <= MAX_INT && a == Itoa(m);
    var n: nat :| n <= MAX_INT && b == Itoa(n);
    AtoiItoa(m);
    AtoiItoa(n);
  }
}
