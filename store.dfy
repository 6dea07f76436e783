/**
 * The in-memory fallback key/value store of the relay (`MockRedis`).
 *
 * Values live in `data`, deadlines in a second map `ttls`. Expiry is lazy:
 * `get` and `exists` compare the clock with the key's deadline using a strict
 * `>` and evict an expired key from both maps on the spot. The wall clock is
 * an integer parameter `now`.
 *
 * `Store` is the value view of the two maps, with one function per operation;
 * `MockRedis` is the object whose methods update the maps in place, each proved
 * to produce exactly the state (and result) the matching function describes.
 */
module EphemeralStore {
  import opened Wrappers

  /** Python's truth test on the `ex` argument of `set`: `None` and `0` both mean "no deadline". */
  function Truthy(ex: Option<int>): (r: bool)
    ensures r <==> ex != None && ex != Some(0)
  {
    ex.Some? && ex.value != 0
  }

  datatype Store<V> = Store(data: map<string, V>, ttls: map<string, int>) {

    /** The store's invariant: every key that has a deadline also has a value. */
    ghost predicate Valid() {
      ttls.Keys <= data.Keys
    }

    /** The lazy-expiry test of `get` and `exists`: a deadline exists and `now` is strictly past it. */
    function Expired(key: string, now: int): (r: bool)
      ensures key !in ttls ==> !r
      ensures key in ttls ==> (r <==> ttls[key] < now)
    {
      key in ttls && now > ttls[key]
    }

    /** A key is visible at `now` when it holds a value and its deadline, if any, has not passed. */
    predicate Live(key: string, now: int) {
      key in data && !Expired(key, now)
    }

    /** `set(key, value, ex)`: store the value; a truthy `ex` sets the deadline `now + ex`. */
    function Set(key: string, value: V, ex: Option<int>, now: int): (r: Store<V>)
      ensures key in r.data && r.data[key] == value
      ensures Truthy(ex) ==> key in r.ttls && r.ttls[key] == now + ex.value
      ensures !Truthy(ex) ==> r.ttls == ttls
      ensures r.data - {key} == data - {key} && r.ttls - {key} == ttls - {key}
      ensures Valid() ==> r.Valid()
    {
      Store(data[key := value], if Truthy(ex) then ttls[key := now + ex.value] else ttls)
    }

    /** `delete(key)`: forget the value and the deadline of `key`, whichever exist. */
    function Delete(key: string): (r: Store<V>)
      ensures key !in r.data && key !in r.ttls
      ensures r.data - {key} == data - {key} && r.ttls - {key} == ttls - {key}
      ensures key !in data && key !in ttls ==> r == this
      ensures Valid() ==> r.Valid()
    {
      Store(data - {key}, ttls - {key})
    }

    /** The state after a `get` or `exists` of `key` at `now`: an expired key is evicted from both maps. */
    function Evict(key: string, now: int): (r: Store<V>)
      ensures !r.Expired(key, now)
      ensures Expired(key, now) ==> key !in r.data && key !in r.ttls
      ensures r.data - {key} == data - {key} && r.ttls - {key} == ttls - {key}
      ensures !Expired(key, now) ==> r == this
      ensures Valid() ==> r.Valid()
    {
      if Expired(key, now) then Delete(key) else this
    }

    /** The value `get(key)` returns at `now`. */
    function Get(key: string, now: int): (r: Option<V>)
      ensures r.Some? <==> Live(key, now)
      ensures r.Some? ==> r.value == data[key]
    {
      if Expired(key, now) then None
      else if key in data then Some(data[key])
      else None
    }

    /** The answer `exists(key)` gives at `now`. */
    function Exists(key: string, now: int): (r: bool)
      ensures r <==> Live(key, now)
    {
      if Expired(key, now) then false else key in data
    }

    /** `expire(key, seconds)`: a key that holds a value gets the deadline `now + seconds`; any other call changes nothing. */
    function Expire(key: string, seconds: int, now: int): (r: Store<V>)
      ensures key !in data ==> r == this
      ensures key in data ==> key in r.ttls && r.ttls[key] == now + seconds
      ensures r.data == data && r.ttls - {key} == ttls - {key}
      ensures Valid() ==> r.Valid()
    {
      if key in data then Store(data, ttls[key := now + seconds]) else this
    }
  }

  /**
   * The expiry boundary: after `set(key, value, ex)` with a truthy `ex` at time `t`,
   * `get` and `exists` see the value at every time up to and including `t + ex`,
   * and at every later time answer "absent" and evict the key from both maps.
   */
  lemma ExpiryBoundary<V>(s: Store<V>, key: string, value: V, ex: int, t: int, now: int)
    requires ex != 0
    ensures s.Set(key, value, Some(ex), t).Get(key, now) == (if now <= t + ex then Some(value) else None)
    ensures s.Set(key, value, Some(ex), t).Exists(key, now) <==> now <= t + ex
    ensures now > t + ex ==>
      var e := s.Set(key, value, Some(ex), t).Evict(key, now);
      key !in e.data && key !in e.ttls
    ensures now <= t + ex ==> s.Set(key, value, Some(ex), t).Evict(key, now) == s.Set(key, value, Some(ex), t)
  {
  }

  /** `set` without a deadline keeps whatever deadline the key already had, so it cannot revive an expired key. */
  lemma SetWithoutDeadlineKeepsExpiry<V>(s: Store<V>, key: string, value: V, ex: Option<int>, now: int)
    requires !Truthy(ex) && s.Expired(key, now)
    ensures !s.Set(key, value, ex, now).Exists(key, now)
    ensures s.Set(key, value, ex, now).Get(key, now) == None
  {
  }

  /** `delete` is idempotent. */
  lemma DeleteIdempotent<V>(s: Store<V>, key: string)
    ensures s.Delete(key).Delete(key) == s.Delete(key)
  {
  }

  /** A `get` or `exists` never changes what any key looks like at the same instant. */
  lemma EvictIsUnobservable<V>(s: Store<V>, key: string, other: string, now: int)
    ensures s.Evict(key, now).Get(other, now) == s.Get(other, now)
  {
  }

  /** The fallback store object: two dictionaries updated in place. */
  class MockRedis<V> {
    var data: map<string, V>
    var ttls: map<string, int>

    /** The current contents as a `Store` value. */
    function State(): Store<V>
      reads this
    {
      Store(data, ttls)
    }

    ghost predicate Valid()
      reads this
    {
      State().Valid()
    }

    constructor ()
      ensures Valid()
      ensures State() == Store(map[], map[])
    {
      data := map[];
      ttls := map[];
    }

    method Set(key: string, value: V, ex: Option<int>, now: int)
      requires Valid()
      modifies this
      ensures Valid()
      ensures State() == old(State()).Set(key, value, ex, now)
    {
      data := data[key := value];
      if Truthy(ex) {
        ttls := ttls[key := now + ex.value];
      }
    }

    method Get(key: string, now: int) returns (r: Option<V>)
      requires Valid()
      modifies this
      ensures Valid()
      ensures r == old(State()).Get(key, now)
      ensures State() == old(State()).Evict(key, now)
    {
      if key in ttls && now > ttls[key] {
        Delete(key);
        return None;
      }
      r := if key in data then Some(data[key]) else None;
    }

    method Delete(key: string)
      requires Valid()
      modifies this
      ensures Valid()
      ensures State() == old(State()).Delete(key)
    {
      if key in data {
        data := data - {key};
      }
      if key in ttls {
        ttls := ttls - {key};
      }
    }

    method Exists(key: string, now: int) returns (r: bool)
      requires Valid()
      modifies this
      ensures Valid()
      ensures r == old(State()).Exists(key, now)
      ensures State() == old(State()).Evict(key, now)
    {
      if key in ttls && now > ttls[key] {
        Delete(key);
        return false;
      }
      r := key in data;
    }

    method Expire(key: string, seconds: int, now: int)
      requires Valid()
      modifies this
      ensures Valid()
      ensures State() == old(State()).Expire(key, seconds, now)
    {
      if key in data {
        ttls := ttls[key := now + seconds];
      }
    }
  }
}
