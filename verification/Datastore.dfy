/** The datastore: its keys, the map-backed backend, encryption at rest, and the search for the latest attempt. */
module Datastore {
  import opened Resources
  import opened Text
  import E = Encryption

  // ---- keys ----

  function FileOf(format: string): string {
    if format == "pretty" then "pretty.plan"
    else if format == "short" then "short.diff"
    else if format == "bin" then "plan.bin"
    else "plan.json"
  }

  function LayerKey(namespace: string, layer: string, run: string, attempt: string, file: string): string {
    Join(["layers", namespace, layer, run, attempt, file], '/')
  }

  function PlanKey(namespace: string, layer: string, run: string, attempt: string, format: string): string {
    LayerKey(namespace, layer, run, attempt, FileOf(format))
  }

  function LogsKey(namespace: string, layer: string, run: string, attempt: string): string {
    LayerKey(namespace, layer, run, attempt, "run.log")
  }

  function BundleKey(namespace: string, repository: string, branch: string, revision: string): string {
    Join(["repositories", namespace, repository, branch, revision + ".gitbundle"], '/')
  }

  function SanitizePrefix(prefix: string): string {
    TrimSuffix(TrimPrefix(prefix, "/"), "/") + "/"
  }

  /** The map key under which the backend files a key. */
  function Path(key: string): string {
    TrimSuffix("/" + SanitizePrefix(key), "/")
  }

  predicate Inner(key: string) {
    key != "" && key[0] != '/' && key[|key| - 1] != '/'
  }

  lemma InnerPath(key: string)
    requires Inner(key)
    ensures SanitizePrefix(key) == key + "/" && Path(key) == "/" + key
  {
  }

  /** A path is its own path. */
  lemma SlashPath(key: string)
    requires Inner(key)
    ensures Path("/" + key) == "/" + key
  {
  }

  // ---- backend ----

  function Lookup<K, V>(m: map<K, V>, key: K): Option<V> {
    if key in m then Some(m[key]) else None
  }

  function Under(data: map<string, Bytes>, listPrefix: string): set<string> {
    set k | k in data && listPrefix <= k
  }

  function FirstPart(s: string): string {
    Split(s, '/')[0]
  }

  /** The folders and files one level below a prefix. */
  function Entries(data: map<string, Bytes>, listPrefix: string): set<string> {
    set k | k in Under(data, listPrefix) :: FirstPart(k[|listPrefix|..])
  }

  function Below(listPrefix: string, entries: set<string>): set<string> {
    set e | e in entries :: listPrefix + e
  }

  ghost predicate Lists(s: seq<string>, elements: set<string>) {
    (set x | x in s) == elements && forall i, j :: 0 <= i < j < |s| ==> s[i] != s[j]
  }

  /** The keys of a set, in no particular order. */
  method MapKeys(m: set<string>) returns (keys: seq<string>)
    ensures Lists(keys, m)
  {
    keys := [];
    var left := m;
    while left != {}
      invariant left <= m && Lists(keys, m - left)
      decreases left
    {
      var k :| k in left;
      assert k !in (set x | x in keys);
      ghost var before := set x | x in keys;
      left, keys := left - {k}, keys + [k];
      assert (set x | x in keys) == before + {k};
    }
  }

  class Mock {
    var data: map<string, Bytes>

    constructor ()
      ensures data == map[]
    {
      data := map[];
    }

    method Get(key: string) returns (value: Option<Bytes>)
      ensures value == Lookup(data, Path(key))
    {
      var path := Path(key);
      if path !in data {
        return None;
      }
      return Some(data[path]);
    }

    method Set(key: string, value: Bytes)
      modifies this
      ensures data == old(data)[Path(key) := value]
    {
      data := data[Path(key) := value];
    }

    /** None when no key lies under the prefix. */
    method List(prefix: string) returns (paths: Option<seq<string>>)
      ensures var listPrefix := "/" + SanitizePrefix(prefix);
              && (paths.None? <==> Under(data, listPrefix) == {})
              && (paths.Some? ==> Lists(paths.value, Below(listPrefix, Entries(data, listPrefix))))
    {
      var listPrefix := "/" + SanitizePrefix(prefix);
      var keySet: set<string> := {};
      var found := false;
      var left := data.Keys;
      ghost var seen: set<string> := {};
      while left != {}
        invariant left <= data.Keys && seen == data.Keys - left
        invariant found <==> exists k :: k in seen && listPrefix <= k
        invariant keySet == set k | k in seen && listPrefix <= k :: listPrefix + FirstPart(k[|listPrefix|..])
        decreases left
      {
        var k :| k in left;
        left := left - {k};
        seen := seen + {k};
        if listPrefix <= k {
          found := true;
          keySet := keySet + {listPrefix + FirstPart(TrimPrefix(k, listPrefix))};
        }
      }
      assert seen == data.Keys;
      if !found {
        assert Under(data, listPrefix) == {};
        return None;
      }
      assert Under(data, listPrefix) != {} by {
        var k :| k in seen && listPrefix <= k;
        assert k in Under(data, listPrefix);
      }
      assert keySet == Below(listPrefix, Entries(data, listPrefix));
      var keys := MapKeys(keySet);
      return Some(keys);
    }

    method ListRecursive(prefix: string) returns (paths: Option<seq<string>>)
      ensures var all := Under(data, "/" + SanitizePrefix(prefix));
              if all == {} then paths.None? else paths.Some? && Lists(paths.value, all)
    {
      var listPrefix := "/" + SanitizePrefix(prefix);
      var keys: seq<string> := [];
      var found := false;
      var left := data.Keys;
      ghost var seen: set<string> := {};
      while left != {}
        invariant left <= data.Keys && seen == data.Keys - left
        invariant found <==> keys != []
        invariant Lists(keys, set k | k in seen && listPrefix <= k)
        decreases left
      {
        var k :| k in left;
        ghost var before := set x | x in keys;
        assert k !in before;
        left := left - {k};
        seen := seen + {k};
        if listPrefix <= k {
          keys := keys + [k];
          found := true;
          assert (set x | x in keys) == before + {k};
        }
        assert (set x | x in keys) == set x | x in seen && listPrefix <= x;
      }
      assert seen == data.Keys;
      assert (set x | x in keys) == Under(data, listPrefix);
      if !found {
        assert Under(data, listPrefix) == {};
        return None;
      }
      assert keys[0] in Under(data, listPrefix);
      return Some(keys);
    }
  }

  // ---- encryption at rest ----

  /** The default encryptor, when encryption is on. */
  type Manager = m: Option<E.Cipher> | m.Some? ==> E.IsBlockCipher(m.value) witness None

  function Written(m: Manager, iv: E.Block, plain: Bytes): Bytes {
    if m.None? then plain else E.Sealed(m.value, iv, plain)
  }

  /** Data that does not open is taken for plaintext from before encryption was turned on. */
  function Readable(m: Manager, data: Bytes): Bytes {
    if m.None? then data
    else
      match E.Opened(m.value, data)
      case Ok(plain) => plain
      case Err(_) => data
  }

  lemma ReadBack(m: Manager, iv: E.Block, plain: Bytes)
    ensures Readable(m, Written(m, iv, plain)) == plain
  {
    if m.Some? {
      E.OpenedSealed(m.value, iv, plain);
    }
  }

  /** Plaintext from before encryption was turned on reads back as it is exactly when it does not open, or is empty. */
  lemma PlainReadsBackIff(m: Manager, plain: Bytes)
    requires m.Some?
    ensures Readable(m, plain) == plain <==> E.Opened(m.value, plain).Err? || plain == []
  {
  }

  // ---- attempts ----

  /** Where the objects of one run are filed. */
  function RunPrefix(namespace: string, layer: string, run: string): string {
    Join(["layers", namespace, layer, run], '/')
  }

  function Attempts(data: map<string, Bytes>, namespace: string, layer: string, run: string): set<string> {
    Entries(data, "/" + RunPrefix(namespace, layer, run) + "/")
  }

  ghost predicate Ascending(s: seq<string>) {
    AscendingTo(s, |s|)
  }

  ghost predicate AscendingTo(s: seq<string>, n: nat) {
    n <= |s| && forall i, j :: 0 <= i < j < n ==> Atoi(s[i]) <= Atoi(s[j])
  }

  /** The difference that the sort compares by, wrapped to 64 bits. */
  function Compare(a: string, b: string): int {
    var d := Atoi(a) - Atoi(b);
    if d > MAX_INT then d - 2 * (MAX_INT + 1) else if d < -MAX_INT - 1 then d + 2 * (MAX_INT + 1) else d
  }

  lemma CompareNatural(a: string, b: string)
    requires Atoi(a) >= 0 && Atoi(b) >= 0
    ensures Compare(a, b) == Atoi(a) - Atoi(b)
  {
  }

  ghost predicate Naturals(s: seq<string>) {
    forall i :: 0 <= i < |s| ==> Atoi(s[i]) >= 0
  }

  /** Sorts in place; an order comes out when no comparison overflows. */
  method SortFunc(a: array<string>)
    modifies a
    ensures multiset(a[..]) == multiset(old(a[..]))
    ensures Naturals(old(a[..])) ==> Ascending(a[..])
  {
    for i := 0 to a.Length
      invariant multiset(a[..]) == multiset(old(a[..]))
      invariant Naturals(old(a[..])) ==> Naturals(a[..]) && AscendingTo(a[..], i)
    {
      Insert(a, i);
    }
  }

  method Swap(a: array<string>, i: nat, j: nat)
    requires i < j < a.Length
    modifies a
    ensures a[..] == old(a[..])[i := old(a[j])][j := old(a[i])]
    ensures multiset(a[..]) == multiset(old(a[..]))
  {
    a[i], a[j] := a[j], a[i];
  }

  /** Ascending but for the element at j, which is still on its way down. */
  ghost predicate Sinking(s: seq<string>, n: nat, j: nat) {
    && j <= n < |s| && Naturals(s)
    && forall i, k :: 0 <= i < k <= n && k != j ==> Atoi(s[i]) <= Atoi(s[k])
  }

  lemma SinkStep(s: seq<string>, n: nat, j: nat)
    requires Sinking(s, n, j) && j > 0 && Compare(s[j], s[j - 1]) < 0
    ensures Sinking(s[j - 1 := s[j]][j := s[j - 1]], n, j - 1)
  {
    CompareNatural(s[j], s[j - 1]);
    var t := s[j - 1 := s[j]][j := s[j - 1]];
    forall i, k | 0 <= i < k <= n && k != j - 1 ensures Atoi(t[i]) <= Atoi(t[k]) {
      if k == j && i < j - 1 {
        assert Atoi(s[i]) <= Atoi(s[j - 1]);
      }
    }
  }

  lemma Sunk(s: seq<string>, n: nat, j: nat)
    requires Sinking(s, n, j) && (j > 0 ==> Compare(s[j], s[j - 1]) >= 0)
    ensures AscendingTo(s, n + 1)
  {
    if j > 0 {
      CompareNatural(s[j], s[j - 1]);
      forall i | 0 <= i < j ensures Atoi(s[i]) <= Atoi(s[j]) {
        assert i < j - 1 ==> Atoi(s[i]) <= Atoi(s[j - 1]);
      }
    }
  }

  method Insert(a: array<string>, n: nat)
    requires n < a.Length
    modifies a
    ensures multiset(a[..]) == multiset(old(a[..]))
    ensures Naturals(old(a[..])) && AscendingTo(old(a[..]), n) ==> Naturals(a[..]) && AscendingTo(a[..], n + 1)
  {
    var j: nat := n;
    ghost var ok := Naturals(a[..]) && AscendingTo(a[..], n);
    while j > 0 && Compare(a[j], a[j - 1]) < 0
      invariant j <= n
      invariant multiset(a[..]) == multiset(old(a[..]))
      invariant ok ==> Sinking(a[..], n, j)
    {
      ghost var before := a[..];
      Swap(a, j - 1, j);
      if ok {
        SinkStep(before, n, j);
      }
      j := j - 1;
    }
    if ok {
      Sunk(a[..], n, j);
    }
  }
}
