/** Leases: what they are called, and the three things that are done with them. */
module Lock {
  import opened Text

  /** What the name of a layer's lease is made from. */
  datatype Place = Place(namespace: string, repository: string, repositoryNamespace: string, path: string)

  /** A lease is looked up by the namespace of its layer and its name. */
  type LockKey = (string, string)

  /** The owner of a lease: a layer and its run. */
  type Owner = (string, string)

  /** hash is the 32-bit FNV-1a hash. */
  function LeaseKey(hash: string -> nat, place: Place): LockKey {
    (place.namespace, "burrito-layer-lock-" + Itoa(hash(place.repository + place.repositoryNamespace + place.path)))
  }

  /** Layers share a lease exactly when they share a namespace and the hash of their repository, its namespace and their
      path, joined. */
  lemma SharedKeyIff(hash: string -> nat, p: Place, q: Place)
    ensures LeaseKey(hash, p) == LeaseKey(hash, q) <==>
              p.namespace == q.namespace
              && hash(p.repository + p.repositoryNamespace + p.path) ==
                 hash(q.repository + q.repositoryNamespace + q.path)
  {
    var prefix := "burrito-layer-lock-";
    var m := hash(p.repository + p.repositoryNamespace + p.path);
    var n := hash(q.repository + q.repositoryNamespace + q.path);
    ItoaDigits(m);
    ItoaDigits(n);
    if prefix + Itoa(m) == prefix + Itoa(n) {
      assert Itoa(m) == (prefix + Itoa(m))[|prefix|..] == (prefix + Itoa(n))[|prefix|..] == Itoa(n);
    }
  }

  /** Layers of one repository whose joined texts do not collide share a lease exactly when they share a namespace and a
      path, as a pull request's layer does with the layer it was made from. */
  lemma SharedLeaseIff(hash: string -> nat, p: Place, q: Place)
    requires p.repository == q.repository && p.repositoryNamespace == q.repositoryNamespace
    requires var base := p.repository + p.repositoryNamespace;
             hash(base + p.path) == hash(base + q.path) ==> base + p.path == base + q.path
    ensures LeaseKey(hash, p) == LeaseKey(hash, q) <==> p == q
  {
    SharedKeyIff(hash, p, q);
    var base := p.repository + p.repositoryNamespace;
    if base + p.path == base + q.path {
      assert p.path == (base + p.path)[|base|..] && q.path == (base + q.path)[|base|..];
    }
  }

  /** Two repositories may share one without a collision: their names and namespaces are joined without a separator. */
  lemma RepositoriesCanShare(hash: string -> nat, namespace: string, a: string, b: string, c: string, path: string)
    ensures LeaseKey(hash, Place(namespace, a + b, c, path)) == LeaseKey(hash, Place(namespace, a, b + c, path))
  {
    assert (a + b) + c + path == a + (b + c) + path;
  }

  class Leases {
    var leases: map<LockKey, Owner>

    constructor ()
      ensures leases == map[]
    {
      leases := map[];
    }

    method IsLayerLocked(lock: LockKey) returns (locked: bool)
      ensures locked <==> lock in leases
    {
      return lock in leases;
    }

    /** Creating a lease that exists fails, as does a call that the API server refuses. */
    method CreateLock(lock: LockKey, owner: Owner, refused: bool) returns (created: bool)
      modifies this
      ensures created <==> lock !in old(leases) && !refused
      ensures leases == if created then old(leases)[lock := owner] else old(leases)
    {
      if lock in leases || refused {
        return false;
      }
      leases := leases[lock := owner];
      return true;
    }

    /** The lease goes by its name, whoever owns it. */
    method DeleteLock(lock: LockKey, refused: bool)
      modifies this
      ensures leases == if refused then old(leases) else old(leases) - {lock}
    {
      if !refused {
        leases := leases - {lock};
      }
    }
  }
}
