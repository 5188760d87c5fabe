/**
 The integer keys of Redis with their expiries. A key past its deadline is gone for every command,
 so a command takes the server's clock reading `now`. A pipeline is a run of commands at one reading.
 */
module Redis {
  import opened Wrappers

  /** deadline == None is a key without an expiry. */
  datatype Entry<+V> = Entry(value: V, deadline: Option<int>)

  type Store<K, V> = map<K, Entry<V>>

  predicate Live<K, V>(s: Store<K, V>, k: K, now: int) {
    k in s && (s[k].deadline.Some? ==> now < s[k].deadline.value)
  }

  function Get<K, V>(s: Store<K, V>, k: K, now: int): Option<V> {
    if Live(s, k, now) then Some(s[k].value) else None
  }

  /** A counter as its readers use it: `int(result or 0)`. */
  function Count<K>(s: Store<K, int>, k: K, now: int): int {
    if Live(s, k, now) then s[k].value else 0
  }

  function Incr<K>(s: Store<K, int>, k: K, now: int): Store<K, int> {
    if Live(s, k, now) then s[k := s[k].(value := s[k].value + 1)] else s[k := Entry(1, None)]
  }

  /** EXPIRE leaves a missing key missing, and a time-to-live that is not positive deletes the key. */
  function Expire<K, V>(s: Store<K, V>, k: K, ttl: int, now: int): Store<K, V> {
    if !Live(s, k, now) then s
    else if ttl <= 0 then s - {k}
    else s[k := s[k].(deadline := Some(now + ttl))]
  }

  function SetEx<K, V>(s: Store<K, V>, k: K, v: V, ttl: int, now: int): Store<K, V> {
    s[k := Entry(v, Some(now + ttl))]
  }

  function Delete<K, V>(s: Store<K, V>, k: K): Store<K, V> {
    s - {k}
  }

  /** INCR followed by EXPIRE, the pair every limiter of the platform uses. */
  function Bump<K>(s: Store<K, int>, k: K, ttl: int, now: int): Store<K, int> {
    Expire(Incr(s, k, now), k, ttl, now)
  }

  /** What a bump does to every later reading of every key: one more until the refreshed deadline. */
  lemma BumpCounts<K>(s: Store<K, int>, k: K, ttl: int, now: int, j: K, t: int)
    requires ttl > 0
    ensures Count(Bump(s, k, ttl, now), j, t) ==
            if j != k then Count(s, j, t)
            else if t < now + ttl then Count(s, k, now) + 1
            else 0
  {
  }

  /** The server: one mutable key space shared by the services that hold a client. */
  class Server<K(==)> {
    var store: map<K, Entry<int>>

    constructor ()
      ensures store == map[]
    {
      store := map[];
    }

    method GetCount(k: K, now: int) returns (n: int)
      ensures n == Count(store, k, now)
    {
      n := 0;
      if k in store {
        var e := store[k];
        if e.deadline == None || now < e.deadline.value {
          n := e.value;
        }
      }
    }

    method Exists(k: K, now: int) returns (b: bool)
      ensures b == Live(store, k, now)
    {
      b := k in store && (store[k].deadline == None || now < store[k].deadline.value);
    }

    method IncrKey(k: K, now: int) returns (n: int)
      modifies this
      ensures store == Incr(old(store), k, now)
      ensures n == Count(store, k, now) == old(Count(store, k, now)) + 1
    {
      var live := Exists(k, now);
      if live {
        store := store[k := store[k].(value := store[k].value + 1)];
      } else {
        store := store[k := Entry(1, None)];
      }
      n := store[k].value;
    }

    method ExpireKey(k: K, ttl: int, now: int)
      modifies this
      ensures store == Expire(old(store), k, ttl, now)
    {
      var live := Exists(k, now);
      if live {
        store := if ttl <= 0 then store - {k} else store[k := store[k].(deadline := Some(now + ttl))];
      }
    }

    method SetKeyEx(k: K, v: int, ttl: int, now: int)
      modifies this
      ensures store == SetEx(old(store), k, v, ttl, now)
    {
      store := store[k := Entry(v, Some(now + ttl))];
    }

    method DeleteKeys(ks: set<K>)
      modifies this
      ensures store == old(store) - ks
    {
      store := store - ks;
    }

    method DeleteKey(k: K)
      modifies this
      ensures store == Delete(old(store), k)
    {
      store := store - {k};
    }
  }
}
