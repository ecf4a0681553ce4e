/** The external key-value store the failover logic coordinates through
    (a Redis server in the Python program). Keys live in one namespace and map
    to a string value together with the time-to-live it was written with.
    There is no clock: a key whose time-to-live runs out is removed by an
    explicit eviction. */
module KeyValue {

  datatype Option<T> = None | Some(value: T)

  /** A stored value and the time-to-live, in seconds, it was written with. */
  datatype Entry = Entry(value: string, ttl: nat)

  type Store = map<string, Entry>

  /** The outcome of a conditional write: whether it wrote, and the store after it. */
  datatype CondWrite = CondWrite(written: bool, store: Store)

  /** `s` and `t` agree on key `k`: both lack it, or both hold the same entry. */
  predicate AgreeOn(s: Store, t: Store, k: string)
  {
    (k !in s && k !in t) || (k in s && k in t && s[k] == t[k])
  }

  /** GET: the value under `k`, or nothing when the key is absent. */
  function Lookup(s: Store, k: string): (r: Option<string>)
    ensures r.None? <==> k !in s
    ensures r.Some? ==> r.value == s[k].value
  {
    if k in s then Some(s[k].value) else None
  }

  /** SET with an expiry: overwrites `k` unconditionally. */
  function Assign(s: Store, k: string, v: string, ttl: nat): (r: Store)
    ensures k in r && r[k] == Entry(v, ttl)
    ensures r.Keys == s.Keys + {k}
    ensures forall j :: j != k ==> AgreeOn(s, r, j)
  {
    s[k := Entry(v, ttl)]
  }

  /** SET with "only if absent" and an expiry: writes exactly when `k` is
      missing, and otherwise leaves the store as it was. */
  function AssignIfAbsent(s: Store, k: string, v: string, ttl: nat): (r: CondWrite)
    ensures r.written <==> k !in s
    ensures r.written ==> k in r.store && r.store[k] == Entry(v, ttl)
    ensures !r.written ==> r.store == s
    ensures forall j :: j != k ==> AgreeOn(s, r.store, j)
  {
    if k in s then CondWrite(false, s) else CondWrite(true, Assign(s, k, v, ttl))
  }

  /** The time-to-live of `k` has run out: the key disappears. */
  function Evicted(s: Store, k: string): (r: Store)
    ensures k !in r
    ensures r.Keys == s.Keys - {k}
    ensures forall j :: j != k ==> AgreeOn(s, r, j)
  {
    s - {k}
  }

  /** The store server, shared by every client connected to it and updated in place. */
  class KvStore {
    var data: Store

    constructor ()
      ensures data == map[]
    {
      data := map[];
    }

    method Get(k: string) returns (v: Option<string>)
      ensures v == Lookup(data, k)
    {
      if k in data {
        v := Some(data[k].value);
      } else {
        v := None;
      }
    }

    method Set(k: string, v: string, ttl: nat)
      modifies this
      ensures data == Assign(old(data), k, v, ttl)
    {
      data := data[k := Entry(v, ttl)];
    }

    method SetIfAbsent(k: string, v: string, ttl: nat) returns (written: bool)
      modifies this
      ensures written <==> k !in old(data)
      ensures data == AssignIfAbsent(old(data), k, v, ttl).store
    {
      written := k !in data;
      if written {
        data := data[k := Entry(v, ttl)];
      }
    }

    method Evict(k: string)
      modifies this
      ensures data == Evicted(old(data), k)
    {
      data := data - {k};
    }
  }
}
