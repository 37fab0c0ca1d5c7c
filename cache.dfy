/** The cache store contract (`get`, `set`, `invalidate`), the two in-process
    backends, and the expire conversions of the three external backends. */
module Cache {
  import opened Common

  /** In-memory backend. Entries never expire: the `expire` argument of
      `Set` is accepted and ignored. */
  class DictCache<K(==), V> {
    var entries: map<K, V>

    constructor ()
      ensures entries == map[]
    {
      entries := map[];
    }

    /** The stored value, or `default` for a key never set or since invalidated. */
    method Get(key: K, default: V) returns (r: V)
      ensures key in entries ==> r == entries[key]
      ensures key !in entries ==> r == default
    {
      if key in entries {
        r := entries[key];
      } else {
        r := default;
      }
    }

    /** `get(key, None)`, for value types that never hold `None` */
    method Lookup(key: K) returns (r: Option<V>)
      ensures key in entries ==> r == Some(entries[key])
      ensures key !in entries ==> r == None
    {
      if key in entries {
        r := Some(entries[key]);
      } else {
        r := None;
      }
    }

    method Set(key: K, value: V, expire: Option<int>)
      modifies this
      ensures entries == old(entries)[key := value]
    {
      entries := entries[key := value];
    }

    /** Drops the key if present; a missing key is not an error. */
    method Invalidate(key: K)
      modifies this
      ensures entries == old(entries) - {key}
    {
      entries := entries - {key};
    }

    method Clear()
      modifies this
      ensures entries == map[]
    {
      entries := map[];
    }
  }

  /** The backend that lets callers disable caching: every lookup misses and
      every write is discarded. Its dictionary is created and never used. */
  class DummyCache<K(==), V> {
    var unused: map<K, V>

    constructor ()
      ensures unused == map[]
    {
      unused := map[];
    }

    method Get(key: K, default: V) returns (r: V)
      ensures r == default
    {
      r := default;
    }

    method Lookup(key: K) returns (r: Option<V>)
      ensures r == None
    {
      r := None;
    }

    method Set(key: K, value: V, expire: Option<int>)
      ensures unchanged(this)
    {
    }

    method Invalidate(key: K)
      ensures unchanged(this)
    {
    }
  }

  /** A cache object the client or the app holds. */
  datatype Backend<K(==), V> = InMemory(dict: DictCache<K, V>) | NoCache(dummy: DummyCache<K, V>)
  {
    function Obj(): object
    {
      if InMemory? then dict else dummy
    }

    /** What a lookup can see: the dictionary, or nothing at all. */
    ghost function Contents(): map<K, V>
      reads Obj()
    {
      if InMemory? then dict.entries else map[]
    }
  }

  /** The store after writing `value` under `key` to a backend of that kind. */
  function Stored<K, V>(inMemory: bool, m: map<K, V>, key: K, value: V): (r: map<K, V>)
    ensures inMemory ==> key in r && r[key] == value && forall k :: k in m && k != key ==> k in r && r[k] == m[k]
    ensures inMemory ==> r.Keys == m.Keys + {key}
    ensures !inMemory ==> r == m
  {
    if inMemory then m[key := value] else m
  }

  method Get<K, V>(b: Backend<K, V>, key: K, default: V) returns (r: V)
    ensures key in b.Contents() ==> r == b.Contents()[key]
    ensures key !in b.Contents() ==> r == default
  {
    match b
    case InMemory(d) => r := d.Get(key, default);
    case NoCache(n) => r := n.Get(key, default);
  }

  method Lookup<K, V>(b: Backend<K, V>, key: K) returns (r: Option<V>)
    ensures key in b.Contents() ==> r == Some(b.Contents()[key])
    ensures key !in b.Contents() ==> r == None
  {
    match b
    case InMemory(d) => r := d.Lookup(key);
    case NoCache(n) => r := n.Lookup(key);
  }

  method Set<K, V>(b: Backend<K, V>, key: K, value: V, expire: Option<int>)
    modifies b.Obj()
    ensures b.Contents() == Stored(b.InMemory?, old(b.Contents()), key, value)
  {
    match b
    case InMemory(d) => d.Set(key, value, expire);
    case NoCache(n) => n.Set(key, value, expire);
  }

  method Invalidate<K, V>(b: Backend<K, V>, key: K)
    modifies b.Obj()
    ensures b.Contents() == old(b.Contents()) - {key}
  {
    match b
    case InMemory(d) => d.Invalidate(key);
    case NoCache(n) => n.Invalidate(key);
  }

  /** Invalidating twice is invalidating once, and never adds a key. */
  lemma InvalidateIdempotent<K, V>(m: map<K, V>, key: K)
    ensures (m - {key}) - {key} == m - {key}
    ensures key !in m ==> m - {key} == m
  {
  }

  // ---- expire conversions of the external backends ----

  /** File backend: 0 and None store without expiry, anything else is a TTL. */
  function FileCacheExpire(expire: Option<int>): (r: Option<int>)
    ensures r.None? <==> expire.None? || expire == Some(0)
    ensures r.Some? ==> r == expire && r.value != 0
  {
    if expire.None? || expire == Some(0) then None else Some(expire.value)
  }

  /** Memcached backend: None becomes 0, which the service reads as "never expires". */
  function MemcachedExpire(expire: Option<int>): (r: int)
    ensures expire.None? ==> r == 0
    ensures expire.Some? ==> r == expire.value
  {
    if expire.None? then 0 else expire.value
  }

  /** How the Redis backend writes: a plain SET, or a SETEX with a TTL in seconds. */
  datatype RedisWrite = PlainSet | SetWithTtl(seconds: int)

  function RedisExpire(expire: Option<int>): (r: RedisWrite)
    ensures r.PlainSet? <==> expire.None? || expire == Some(0)
    ensures r.SetWithTtl? ==> r.seconds == expire.value && r.seconds != 0
  {
    if expire.None? || expire == Some(0) then PlainSet else SetWithTtl(expire.value)
  }

  /** On every external backend an expire of 0 means the same as no expire:
      the entry is kept with no time limit. */
  lemma ZeroExpireMeansNoExpire()
    ensures FileCacheExpire(Some(0)) == FileCacheExpire(None) == None
    ensures MemcachedExpire(Some(0)) == MemcachedExpire(None) == 0
    ensures RedisExpire(Some(0)) == RedisExpire(None) == PlainSet
  {
  }

  /** A non-zero expire reaches every external backend as that many seconds. */
  lemma NonZeroExpireIsTtl(e: int)
    requires e != 0
    ensures FileCacheExpire(Some(e)) == Some(e)
    ensures MemcachedExpire(Some(e)) == e
    ensures RedisExpire(Some(e)) == SetWithTtl(e)
  {
  }
}
