/**
 The Redis-like substrate shared by the services.

 A table maps a key to a value and an optional deadline.  Tables hold live keys only: when the
 clock moves, `Evict` drops every key whose deadline has been reached, which is what a reader of
 the real store observes.
 */
module Store {

  datatype Option<+T> = None | Some(value: T)

  /** A stored value; the key vanishes when the clock reaches the deadline, if there is one. */
  datatype Entry<+V> = Entry(value: V, deadline: Option<int>)

  const SECOND := 1000

  predicate LiveAt<V>(e: Entry<V>, now: int) {
    e.deadline.Some? ==> now < e.deadline.value
  }

  /** A TTL is in seconds; a TTL of zero means no deadline. */
  function DeadlineAfter(ttl: nat, now: int): Option<int> {
    if ttl == 0 then None else Some(now + ttl * SECOND)
  }

  /** SET: replaces the value and the deadline, so writing without a TTL clears an earlier one. */
  function Put<K(==), V>(t: map<K, Entry<V>>, k: K, v: V, ttl: nat, now: int): map<K, Entry<V>> {
    t[k := Entry(v, DeadlineAfter(ttl, now))]
  }

  function Evict<K(==), V>(t: map<K, Entry<V>>, now: int): map<K, Entry<V>> {
    map k | k in t && LiveAt(t[k], now) :: t[k]
  }

  /** SMEMBERS: a missing set reads as empty. */
  function Members<K(==), M(==)>(t: map<K, Entry<set<M>>>, k: K): set<M> {
    if k in t then t[k].value else {}
  }

  /** SADD keeps the deadline of an existing set. */
  function SAdd<K(==), M(==)>(t: map<K, Entry<set<M>>>, k: K, m: M): map<K, Entry<set<M>>> {
    t[k := Entry(Members(t, k) + {m}, if k in t then t[k].deadline else None)]
  }

  /** SREM deletes the key of a set that becomes empty. */
  function SRem<K(==), M(==)>(t: map<K, Entry<set<M>>>, k: K, m: M): map<K, Entry<set<M>>> {
    if m !in Members(t, k) then t
    else if t[k].value == {m} then t - {k}
    else t[k := Entry(t[k].value - {m}, t[k].deadline)]
  }

  /** EXPIRE: a new deadline for an existing key. */
  function Expire<K(==), V>(t: map<K, Entry<V>>, k: K, ttl: nat, now: int): map<K, Entry<V>> {
    if k in t then t[k := Entry(t[k].value, DeadlineAfter(ttl, now))] else t
  }
}
