/** The request fingerprint used as cache key, and the selection of a cache
    backend from the `cache` argument of the client and the app. */
module Utils {
  import opened Common
  import Cache

  type Pairs = set<(string, string)>

  /** `(url, frozenset(header pairs), frozenset(path pairs), frozenset(query pairs))` */
  datatype CacheKey = CacheKey(url: string, header: Pairs, path: Pairs, query: Pairs)

  /** `frozenset(d.items())` */
  function PairsOf(d: map<string, string>): (p: Pairs)
    ensures forall k, v :: (k, v) in p <==> k in d && d[k] == v
  {
    set k | k in d :: (k, d[k])
  }

  /** `frozenset(list_of_pairs)` */
  function PairSet(q: seq<(string, string)>): (p: Pairs)
    ensures forall x :: x in p <==> x in q
  {
    set x | x in q
  }

  function MakeCacheKey(r: Request): (k: CacheKey)
    ensures k.url == r.url
    ensures forall n, v :: (n, v) in k.header <==> n in r.header && r.header[n] == v
    ensures forall n, v :: (n, v) in k.path <==> n in r.path && r.path[n] == v
    ensures forall x :: x in k.query <==> x in r.query
  {
    CacheKey(r.url, PairsOf(r.header), PairsOf(r.path), PairSet(r.query))
  }

  /** A dictionary is determined by its set of items. */
  lemma PairsOfInjective(a: map<string, string>, b: map<string, string>)
    requires PairsOf(a) == PairsOf(b)
    ensures a == b
  {
    forall k | k in a
      ensures k in b && b[k] == a[k]
    {
      assert (k, a[k]) in PairsOf(a);
    }
    forall k | k in b
      ensures k in a
    {
      assert (k, b[k]) in PairsOf(b);
    }
  }

  /** Two requests get the same key exactly when they agree on the URL, the
      header dictionary, the path parameters and the set of query pairs. */
  lemma {:induction false} SameKeyIff(r1: Request, r2: Request)
    ensures MakeCacheKey(r1) == MakeCacheKey(r2) <==>
      r1.url == r2.url && r1.header == r2.header && r1.path == r2.path &&
      (forall x :: x in r1.query <==> x in r2.query)
  {
    if MakeCacheKey(r1) == MakeCacheKey(r2) {
      PairsOfInjective(r1.header, r2.header);
      PairsOfInjective(r1.path, r2.path);
      forall x ensures x in r1.query <==> x in r2.query {
        assert x in r1.query <==> x in PairSet(r1.query);
      }
    }
    if r1.url == r2.url && r1.header == r2.header && r1.path == r2.path &&
       (forall x :: x in r1.query <==> x in r2.query) {
      assert PairSet(r1.query) == PairSet(r2.query);
    }
  }

  /** Reordering the query list, and changing the method or the body, do not
      change the key. */
  lemma {:induction false} KeyIgnoresOrderMethodAndBody(r: Request, q: seq<(string, string)>, verb: string, data: string)
    requires multiset(q) == multiset(r.query)
    ensures MakeCacheKey(r.(query := q, verb := verb, data := data)) == MakeCacheKey(r)
  {
    var r' := r.(query := q, verb := verb, data := data);
    forall x ensures x in r'.query <==> x in r.query {
      assert x in q <==> x in multiset(q);
      assert x in r.query <==> x in multiset(r.query);
    }
    SameKeyIff(r', r);
  }

  /** The `cache` argument: an existing backend object, `False` (the
      default), `None`, or any other value. */
  datatype CacheArg<K(==), V> = Instance(backend: Cache.Backend<K, V>) | FalseArg | NoneArg | Other

  datatype ConfigError = ValueError(message: string)

  method CheckCache<K(==), V>(arg: CacheArg<K, V>) returns (r: Result<Cache.Backend<K, V>, ConfigError>)
    ensures arg.Instance? ==> r == Success(arg.backend)
    ensures arg.FalseArg? ==> r.Success? && r.value.InMemory? && fresh(r.value.dict) && r.value.Contents() == map[]
    ensures arg.NoneArg? ==> r.Success? && r.value.NoCache? && fresh(r.value.dummy)
    ensures arg.Other? ==> r == Failure(ValueError("Provided cache must implement BaseCache"))
  {
    match arg
    case Instance(b) =>
      r := Success(b);
    case FalseArg =>
      var d := new Cache.DictCache<K, V>();
      r := Success(Cache.InMemory(d));
    case NoneArg =>
      var n := new Cache.DummyCache<K, V>();
      r := Success(Cache.NoCache(n));
    case Other =>
      r := Failure(ValueError("Provided cache must implement BaseCache"));
  }
}
