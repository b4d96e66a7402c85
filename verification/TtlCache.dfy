/**
 The TTL cache of internal/cache/cache.go: lazy expiry on Get, no sweep.  Each operation
 reads the clock at most once, so the time it reads is a parameter.
 */
module TtlCache {
  import opened Basics

  datatype Entry<V> = Entry(value: V, expiresAt: int)

  // ---------------------------------------------------------------- as functions

  function Got<K, V>(store: map<K, Entry<V>>, key: K, now: int): (map<K, Entry<V>>, Option<V>) {
    if key !in store then (store, None)
    else if now > store[key].expiresAt then (store - {key}, None)
    else (store, Some(store[key].value))
  }

  function Stored<K, V>(store: map<K, Entry<V>>, key: K, value: V, now: int, ttl: int): map<K, Entry<V>> {
    store[key := Entry(value, now + ttl)]
  }

  // ---------------------------------------------------------------- as the object

  class TTLCache<K(==), V> {
    const ttl: int
    var store: map<K, Entry<V>>

    constructor (ttl: int)
      ensures this.ttl == ttl && store == map[]
    {
      this.ttl := ttl;
      store := map[];
    }

    method Get(key: K, now: int) returns (value: Option<V>)
      modifies this
      ensures (store, value) == Got(old(store), key, now)
    {
      if key !in store {
        return None;
      }
      var e := store[key];
      if now > e.expiresAt {
        store := store - {key};
        return None;
      }
      return Some(e.value);
    }

    method Set(key: K, value: V, now: int)
      modifies this
      ensures store == Stored(old(store), key, value, now, ttl)
    {
      store := store[key := Entry(value, now + ttl)];
    }

    method Delete(key: K)
      modifies this
      ensures store == old(store) - {key}
    {
      store := store - {key};
    }

    method Clear()
      modifies this
      ensures store == map[]
    {
      store := map[];
    }
  }

  // ---------------------------------------------------------------- the history

  datatype Op<K, V> = Get(key: K) | Set(key: K, value: V) | Delete(key: K) | Clear
  datatype Event<K, V> = Event(op: Op<K, V>, at: int)

  function Step<K, V>(store: map<K, Entry<V>>, e: Event<K, V>, ttl: int): map<K, Entry<V>> {
    match e.op
    case Get(k) => Got(store, k, e.at).0
    case Set(k, v) => Stored(store, k, v, e.at, ttl)
    case Delete(k) => store - {k}
    case Clear => map[]
  }

  // The contents of a cache that starts empty and sees these events.
  function Replay<K, V>(events: seq<Event<K, V>>, ttl: int): map<K, Entry<V>> {
    if events == [] then map[]
    else Step(Replay(events[..|events| - 1], ttl), events[|events| - 1], ttl)
  }

  // The value and time of the last Set of key that no Delete or Clear followed.  Gets do
  // not matter here.
  function LastSet<K(==), V>(events: seq<Event<K, V>>, key: K): Option<(V, int)> {
    if events == [] then None
    else
      var n := |events| - 1;
      match events[n].op
      case Get(_) => LastSet(events[..n], key)
      case Set(k, v) => if k == key then Some((v, events[n].at)) else LastSet(events[..n], key)
      case Delete(k) => if k == key then None else LastSet(events[..n], key)
      case Clear => None
  }

  // The value a lookup ought to find, by the history alone.
  function Due<K(==), V>(events: seq<Event<K, V>>, ttl: int, key: K, now: int): Option<V> {
    match LastSet(events, key)
    case None => None
    case Some((v, at)) => if now <= at + ttl then Some(v) else None
  }

  // The clock never goes backwards, and now is not before the last event.
  ghost predicate Chronological<K, V>(events: seq<Event<K, V>>, now: int) {
    && (forall i, j :: 0 <= i < j < |events| ==> events[i].at <= events[j].at)
    && (forall i :: 0 <= i < |events| ==> events[i].at <= now)
  }

  lemma {:induction false} StoreFollowsHistory<K, V>(events: seq<Event<K, V>>, ttl: int, key: K, now: int)
    requires Chronological(events, now)
    ensures match LastSet(events, key)
      case None => key !in Replay(events, ttl)
      case Some((v, at)) =>
        if key in Replay(events, ttl) then Replay(events, ttl)[key] == Entry(v, at + ttl) else at + ttl < now
  {
    if events == [] {
    } else {
      var n := |events| - 1;
      StoreFollowsHistory(events[..n], ttl, key, events[n].at);
    }
  }

  /** After any history, Get finds exactly the value last set, not deleted since, and not
      older than the ttl; the instant of expiry itself still counts. */
  lemma GetFollowsHistory<K, V>(events: seq<Event<K, V>>, ttl: int, key: K, now: int)
    requires Chronological(events, now)
    ensures Got(Replay(events, ttl), key, now).1 == Due(events, ttl, key, now)
  {
    StoreFollowsHistory(events, ttl, key, now);
  }

  function WithoutGets<K, V>(events: seq<Event<K, V>>): seq<Event<K, V>> {
    if events == [] then []
    else
      var n := |events| - 1;
      WithoutGets(events[..n]) + if events[n].op.Get? then [] else [events[n]]
  }

  lemma {:induction false} StaysChronological<K, V>(events: seq<Event<K, V>>, now: int)
    requires Chronological(events, now)
    ensures Chronological(WithoutGets(events), now)
  {
    if events == [] {
    } else {
      var n := |events| - 1;
      StaysChronological(events[..n], events[n].at);
    }
  }

  lemma {:induction false} GetsLeaveNoTrace<K, V>(events: seq<Event<K, V>>, key: K)
    ensures LastSet(WithoutGets(events), key) == LastSet(events, key)
  {
    if events == [] {
    } else {
      var n := |events| - 1;
      GetsLeaveNoTrace(events[..n], key);
      var w := WithoutGets(events[..n]);
      if events[n].op.Get? {
        assert WithoutGets(events) == w;
      } else {
        assert (w + [events[n]])[..|w|] == w;
      }
    }
  }

  /** Deleting expired entries on read is unobservable: a lookup finds the same whether or
      not any of the earlier lookups ever happened. */
  lemma LazyExpiryIsUnobservable<K, V>(events: seq<Event<K, V>>, ttl: int, key: K, now: int)
    requires Chronological(events, now)
    ensures Got(Replay(events, ttl), key, now).1 == Got(Replay(WithoutGets(events), ttl), key, now).1
  {
    StaysChronological(events, now);
    GetsLeaveNoTrace(events, key);
    GetFollowsHistory(events, ttl, key, now);
    GetFollowsHistory(WithoutGets(events), ttl, key, now);
  }
}
