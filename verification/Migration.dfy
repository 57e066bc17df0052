/** The bulk encryption of plans and logs that were stored before encryption was turned on. */
module Migration {
  import opened Resources
  import opened Text
  import opened Datastore
  import opened Storage
  import E = Encryption

  datatype Problem = ListFailed | NoObject | BadPath | NoEncryptor | AlreadyEncrypted | NoRandom

  /** The random source's answer for each file. */
  type Vectors = string -> Option<E.Block>

  const PREFIX := "/layers/"

  /** The files a pass goes through; a key that ends with a separator is taken for a directory. */
  function Targets(data: map<string, Bytes>): set<string> {
    set k | k in Under(data, PREFIX) && !HasSuffix(k, "/")
  }

  /** The file is encrypted by the pass: it does not open as it is. */
  predicate Encrypts(m: Manager, data: map<string, Bytes>, k: string, ivs: Vectors)
    requires k in data
  {
    m.Some? && E.Opened(m.value, data[k]).Err? && ivs(k).Some?
  }

  /** Why a file is not encrypted. */
  function Obstacle(m: Manager, data: map<string, Bytes>, k: string, ivs: Vectors): Problem
    requires k in data && !Encrypts(m, data, k, ivs)
  {
    if m.None? then NoEncryptor else if E.Opened(m.value, data[k]).Ok? then AlreadyEncrypted else NoRandom
  }

  function MigratedFile(m: Manager, data: map<string, Bytes>, k: string, ivs: Vectors): Bytes
    requires k in data
  {
    if Encrypts(m, data, k, ivs) then E.Sealed(m.value, ivs(k).value, data[k]) else data[k]
  }

  /** The objects once the given files have been gone through. */
  function Migrated(m: Manager, data: map<string, Bytes>, done: set<string>, ivs: Vectors): map<string, Bytes> {
    map k | k in data :: if k in done then MigratedFile(m, data, k, ivs) else data[k]
  }

  function EncryptedFiles(m: Manager, data: map<string, Bytes>, done: set<string>, ivs: Vectors): set<string> {
    set k | k in done && k in data && Encrypts(m, data, k, ivs)
  }

  function Problems(m: Manager, data: map<string, Bytes>, done: set<string>, ivs: Vectors): map<string, Problem> {
    map k | k in done && k in data && !Encrypts(m, data, k, ivs) :: Obstacle(m, data, k, ivs)
  }

  /** The errors reported are exactly these problems, one for each file. */
  ghost predicate Reports(errors: seq<(string, Problem)>, problems: map<string, Problem>) {
    && |errors| == |problems|
    && (forall e :: e in errors ==> e.0 in problems && problems[e.0] == e.1)
    && (forall k :: k in problems ==> (k, problems[k]) in errors)
  }

  lemma TargetParts(rest: string)
    ensures |Split("layers/" + rest, '/')| >= 2
  {
    SplitFirst("layers", rest, '/');
    assert "layers/" + rest == "layers" + ['/'] + rest;
  }

  lemma TargetPath(k: string)
    requires PREFIX <= k && !HasSuffix(k, "/")
    ensures Path(k) == k && |Split(TrimPrefix(k, "/"), '/')| >= 2
  {
    var key := k[1..];
    assert k == "/" + key && k[|k| - 1..] == [k[|k| - 1]];
    SlashPath(key);
    assert key == "layers/" + k[|PREFIX|..];
    TargetParts(k[|PREFIX|..]);
  }

  // ---- one file more ----

  lemma MigratedAgain(m: Manager, data: map<string, Bytes>, done: set<string>, k: string, ivs: Vectors)
    requires k in data && k !in done
    ensures k in Migrated(m, data, done, ivs) && Migrated(m, data, done, ivs)[k] == data[k]
    ensures Migrated(m, Migrated(m, data, done, ivs), {k}, ivs) == Migrated(m, data, done + {k}, ivs)
  {
  }

  lemma OneMore(m: Manager, data: map<string, Bytes>, done: set<string>, k: string, ivs: Vectors)
    requires k in data && k !in done
    ensures k !in EncryptedFiles(m, data, done, ivs) && k !in Problems(m, data, done, ivs)
    ensures if Encrypts(m, data, k, ivs) then
              && EncryptedFiles(m, data, done + {k}, ivs) == EncryptedFiles(m, data, done, ivs) + {k}
              && Problems(m, data, done + {k}, ivs) == Problems(m, data, done, ivs)
            else
              && EncryptedFiles(m, data, done + {k}, ivs) == EncryptedFiles(m, data, done, ivs)
              && Problems(m, data, done + {k}, ivs) == Problems(m, data, done, ivs)[k := Obstacle(m, data, k, ivs)]
  {
  }

  lemma ReportOne(errors: seq<(string, Problem)>, problems: map<string, Problem>, k: string, problem: Problem)
    requires Reports(errors, problems) && k !in problems
    ensures Reports(errors + [(k, problem)], problems[k := problem])
  {
  }

  /** The given files have been gone through: the objects, the count and the errors are what they should be. */
  ghost predicate GoneThrough(
    m: Manager, data: map<string, Bytes>, now: map<string, Bytes>, done: set<string>, ivs: Vectors,
    filesEncrypted: nat, errors: seq<(string, Problem)>)
  {
    && now == Migrated(m, data, done, ivs)
    && filesEncrypted == |EncryptedFiles(m, data, done, ivs)|
    && Reports(errors, Problems(m, data, done, ivs))
  }

  lemma GoneThroughOne(
    m: Manager, data: map<string, Bytes>, done: set<string>, k: string, ivs: Vectors,
    filesEncrypted: nat, errors: seq<(string, Problem)>)
    requires k in data && k !in done
    requires GoneThrough(m, data, Migrated(m, data, done, ivs), done, ivs, filesEncrypted, errors)
    ensures var before := Migrated(m, data, done, ivs);
            && k in before && (Encrypts(m, before, k, ivs) <==> Encrypts(m, data, k, ivs))
            && if Encrypts(m, data, k, ivs) then
                 GoneThrough(m, data, Migrated(m, before, {k}, ivs), done + {k}, ivs, filesEncrypted + 1, errors)
               else
                 && Obstacle(m, before, k, ivs) == Obstacle(m, data, k, ivs)
                 && GoneThrough(m, data, Migrated(m, before, {k}, ivs), done + {k}, ivs, filesEncrypted,
                                errors + [(k, Obstacle(m, data, k, ivs))])
  {
    MigratedAgain(m, data, done, k, ivs);
    OneMore(m, data, done, k, ivs);
    if !Encrypts(m, data, k, ivs) {
      ReportOne(errors, Problems(m, data, done, ivs), k, Obstacle(m, data, k, ivs));
    }
  }

  // ---- the pass ----

  function Files(keys: seq<string>): set<string> {
    set k | k in keys && !HasSuffix(k, "/")
  }

  lemma NextFile(m: Manager, data: map<string, Bytes>, keys: seq<string>, i: nat)
    requires i < |keys| && Lists(keys, Under(data, PREFIX))
    ensures keys[i] in data && keys[i] !in Files(keys[..i])
    ensures Files(keys[..i + 1]) == if HasSuffix(keys[i], "/") then Files(keys[..i]) else Files(keys[..i]) + {keys[i]}
    ensures !HasSuffix(keys[i], "/") ==> Path(keys[i]) == keys[i] && |Split(TrimPrefix(keys[i], "/"), '/')| >= 2
  {
    assert keys[i] in (set x | x in keys);
    assert keys[i] in Under(data, PREFIX);
    assert keys[..i + 1] == keys[..i] + [keys[i]];
    if !HasSuffix(keys[i], "/") {
      TargetPath(keys[i]);
    }
  }

  lemma AllFiles(data: map<string, Bytes>, keys: seq<string>)
    requires Lists(keys, Under(data, PREFIX))
    ensures Files(keys) == Targets(data)
  {
  }

  class API {
    const storage: Storage

    constructor (storage: Storage)
      ensures this.storage == storage
    {
      this.storage := storage;
    }

    /** A file that opens is not encrypted again, and is reported like any other error: the error built for it is a
        new one, which the caller's comparison does not recognize. */
    method EncryptSingleFile(file: string, ivs: Vectors) returns (problem: Option<Problem>)
      modifies storage.backend
      ensures var m, data, k := storage.manager, old(storage.backend.data), Path(file);
              if k !in data || |Split(TrimPrefix(file, "/"), '/')| < 2 then
                storage.backend.data == data && problem == Some(if k !in data then NoObject else BadPath)
              else
                && storage.backend.data == Migrated(m, data, {k}, ivs)
                && problem == if Encrypts(m, data, k, ivs) then None else Some(Obstacle(m, data, k, ivs))
    {
      var data := storage.backend.Get(file);
      if data.None? {
        return Some(NoObject);
      }
      if |Split(TrimPrefix(file, "/"), '/')| < 2 {
        return Some(BadPath);
      }
      if storage.manager.None? {
        return Some(NoEncryptor);
      }
      var c := storage.manager.value;
      var plain := E.Decrypt(c, data.value);
      if plain.Ok? {
        return Some(AlreadyEncrypted);
      }
      var iv := ivs(Path(file));
      if iv.None? {
        return Some(NoRandom);
      }
      var encrypted := E.Encrypt(c, iv.value, data.value);
      storage.backend.Set(file, encrypted);
      return None;
    }

    method EncryptAllFiles(ivs: Vectors) returns (filesEncrypted: nat, errors: seq<(string, Problem)>)
      modifies storage.backend
      ensures var data := old(storage.backend.data);
              if Under(data, PREFIX) == {} then
                storage.backend.data == data && filesEncrypted == 0 && errors == [("layers", ListFailed)]
              else
                GoneThrough(storage.manager, data, storage.backend.data, Targets(data), ivs, filesEncrypted, errors)
    {
      ghost var m, data := storage.manager, storage.backend.data;
      filesEncrypted, errors := 0, [];
      assert "/" + SanitizePrefix("layers") == PREFIX;
      var files := storage.backend.ListRecursive("layers");
      if files.None? {
        errors := [("layers", ListFailed)];
        return;
      }
      for i := 0 to |files.value|
        invariant GoneThrough(m, data, storage.backend.data, Files(files.value[..i]), ivs, filesEncrypted, errors)
      {
        var file := files.value[i];
        NextFile(m, data, files.value, i);
        if HasSuffix(file, "/") {
          continue;
        }
        var problem := EncryptSingleFile(file, ivs);
        GoneThroughOne(m, data, Files(files.value[..i]), file, ivs, filesEncrypted, errors);
        if problem.Some? {
          errors := errors + [(file, problem.value)];
          continue;
        }
        filesEncrypted := filesEncrypted + 1;
      }
      assert files.value[..|files.value|] == files.value;
      AllFiles(data, files.value);
    }
  }

  // ---- what a pass means ----

  /** A pass goes through every plan and all logs that are stored, and through no bundle. */
  lemma TargetsAreLayers(data: map<string, Bytes>, p: Put)
    requires Proper(p) && Path(KeyOf(p)) in data
    ensures Path(KeyOf(p)) in Targets(data) <==> p.PlanPut? || p.LogsPut?
  {
    KeyOfInner(p);
    var k := Path(KeyOf(p));
    assert k[|k| - 1..] == [KeyOf(p)[|KeyOf(p)| - 1]];
    if p.BundlePut? {
      assert k[1] != PREFIX[1];
    } else {
      var front := ["layers", p.namespace, p.layer, p.run, p.attempt];
      assert Pieces(p) == ["layers"] + Pieces(p)[1..];
      JoinAppend(["layers"], Pieces(p)[1..], '/');
      assert KeyOf(p) == "layers" + ['/'] + Join(Pieces(p)[1..], '/');
      assert PREFIX == "/" + ("layers" + ['/']);
      assert k[..|PREFIX|] == PREFIX;
    }
  }

  /** Whatever is stored, and whatever opens by chance, every object reads the same before and after a pass; no other
      object changes, and none appears or goes. */
  lemma MigrationKeepsMeaning(m: Manager, data: map<string, Bytes>, ivs: Vectors, key: string)
    ensures var data' := Migrated(m, data, Targets(data), ivs);
            && data'.Keys == data.Keys
            && ReadAt(m, data', key) == ReadAt(m, data, key)
            && (Path(key) in data && Path(key) !in Targets(data) ==> data'[Path(key)] == data[Path(key)])
  {
    var k := Path(key);
    if k in data && Encrypts(m, data, k, ivs) {
      E.OpenedSealed(m.value, ivs(k).value, data[k]);
    }
  }

  /** The random source answers for every file. */
  ghost predicate Random(ivs: Vectors) {
    forall k :: ivs(k).Some?
  }

  /** After a pass every file opens. */
  lemma MigratedFilesOpen(m: Manager, data: map<string, Bytes>, ivs: Vectors, k: string)
    requires m.Some? && Random(ivs) && k in Targets(data)
    ensures E.Opened(m.value, Migrated(m, data, Targets(data), ivs)[k]).Ok?
  {
    if Encrypts(m, data, k, ivs) {
      E.OpenedSealed(m.value, ivs(k).value, data[k]);
    }
  }

  /** A second pass over files that open encrypts nothing and writes nothing, and finds a problem with every file. */
  lemma OpenFilesAreLeft(m: Manager, data: map<string, Bytes>, ivs: Vectors)
    requires m.Some? && forall k :: k in Targets(data) ==> E.Opened(m.value, data[k]).Ok?
    ensures Migrated(m, data, Targets(data), ivs) == data
    ensures EncryptedFiles(m, data, Targets(data), ivs) == {}
    ensures Problems(m, data, Targets(data), ivs) == map k | k in Targets(data) :: AlreadyEncrypted
  {
  }

  lemma MigratedTargets(m: Manager, data: map<string, Bytes>, ivs: Vectors)
    ensures Targets(Migrated(m, data, Targets(data), ivs)) == Targets(data)
  {
  }

  /** After a pass for which the random source answered, a second pass writes nothing and encrypts nothing, but it
      reports an error for every file. */
  lemma SecondPassWritesNothing(
    m: Manager, data: map<string, Bytes>, ivs: Vectors, ivs': Vectors, errors: seq<(string, Problem)>)
    requires m.Some? && Random(ivs)
    ensures var data' := Migrated(m, data, Targets(data), ivs);
            && Migrated(m, data', Targets(data'), ivs') == data'
            && EncryptedFiles(m, data', Targets(data'), ivs') == {}
            && (Reports(errors, Problems(m, data', Targets(data'), ivs')) ==>
                  forall k :: k in Targets(data) <==> (k, AlreadyEncrypted) in errors)
  {
    var data' := Migrated(m, data, Targets(data), ivs);
    MigratedTargets(m, data, ivs);
    forall k | k in Targets(data') ensures E.Opened(m.value, data'[k]).Ok? {
      MigratedFilesOpen(m, data, ivs, k);
    }
    OpenFilesAreLeft(m, data', ivs');
    if Reports(errors, Problems(m, data', Targets(data'), ivs')) {
      ReportedTargets(errors, Targets(data));
    }
  }

  lemma ReportedTargets(errors: seq<(string, Problem)>, files: set<string>)
    requires Reports(errors, map k | k in files :: AlreadyEncrypted)
    ensures forall k :: k in files <==> (k, AlreadyEncrypted) in errors
  {
    var problems := map k | k in files :: AlreadyEncrypted;
    forall k ensures k in files <==> (k, AlreadyEncrypted) in errors {
      if k in files {
        assert (k, problems[k]) in errors;
      }
    }
  }
}
