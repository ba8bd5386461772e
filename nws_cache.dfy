/** The in-memory response cache: a dictionary from cache key to a decoded
    response and the time it expires. Expired entries are dropped lazily by
    `Get` and in bulk by `CleanExpired`. The clock is an explicit `now`. */
module NwsCache {
  import opened Wrappers
  import opened JsonValues

  /** A stored response and its absolute expiry time in seconds. */
  datatype Entry = Entry(value: Json, expiry: real)

  type Entries = map<string, Entry>

  /** A key is live at `now` while its expiry lies strictly after `now`. */
  predicate IsLive(m: Entries, key: string, now: real) {
    key in m && m[key].expiry > now
  }

  /** What `get` returns: the stored value of a live key, nothing otherwise. */
  function Lookup(m: Entries, key: string, now: real): (r: Option<Json>)
    ensures r.Some? <==> IsLive(m, key, now)
    ensures r.Some? ==> r.value == m[key].value
  {
    if IsLive(m, key, now) then Some(m[key].value) else None
  }

  /** The dictionary after `get`: a present but expired key is deleted, and
      nothing else changes. */
  function AfterGet(m: Entries, key: string, now: real): (r: Entries)
    ensures r.Keys == if key in m && !IsLive(m, key, now) then m.Keys - {key} else m.Keys
    ensures forall k :: k in r ==> r[k] == m[k]
  {
    if key in m && !IsLive(m, key, now) then m - {key} else m
  }

  /** The live part of the dictionary at `now`. */
  function Live(m: Entries, now: real): (r: Entries)
    ensures forall k :: k in r <==> IsLive(m, k, now)
    ensures forall k :: k in r ==> k in m && r[k] == m[k]
  {
    map k | k in m && m[k].expiry > now :: m[k]
  }

  /** Two dictionaries with the same keys and the same entries are equal. */
  lemma MapsEqual(a: Entries, b: Entries)
    requires forall k :: k in a <==> k in b
    requires forall k :: k in a ==> a[k] == b[k]
    ensures a == b
  {
    assert a.Keys == b.Keys;
  }

  class Cache {
    var entries: Entries

    constructor()
      ensures entries == map[]
    {
      entries := map[];
    }

    /** Returns the value of a live key; deletes the key when it has expired. */
    method Get(key: string, now: real) returns (r: Option<Json>)
      modifies this
      ensures r == Lookup(old(entries), key, now)
      ensures entries == AfterGet(old(entries), key, now)
    {
      r := None;
      if key in entries {
        var e := entries[key];
        if e.expiry > now {
          r := Some(e.value);
        } else {
          entries := entries - {key};
        }
      }
    }

    /** Stores `value` under `key` until `now + ttl`, replacing any entry. */
    method Set(key: string, value: Json, ttl: int, now: real)
      modifies this
      ensures entries == old(entries)[key := Entry(value, now + ttl as real)]
    {
      entries := entries[key := Entry(value, now + ttl as real)];
    }

    /** Drops every entry. */
    method Clear()
      modifies this
      ensures entries == map[]
    {
      entries := map[];
    }

    /** Collects the keys whose expiry is at or before `now`, then deletes them
        one at a time. */
    method CleanExpired(now: real)
      modifies this
      ensures entries == Live(old(entries), now)
    {
      var expired := set k | k in entries && entries[k].expiry <= now;
      while expired != {}
        invariant expired <= entries.Keys
        invariant forall k :: k in expired ==> k in old(entries) && old(entries)[k].expiry <= now
        invariant forall k :: k in entries <==> k in old(entries) && (old(entries)[k].expiry > now || k in expired)
        invariant forall k :: k in entries ==> entries[k] == old(entries)[k]
        decreases |expired|
      {
        var k :| k in expired;
        entries := entries - {k};
        expired := expired - {k};
      }
      MapsEqual(entries, Live(old(entries), now));
    }
  }

  // ---------------------------------------------------------------------------
  // Properties of the cache operations
  // ---------------------------------------------------------------------------

  /** After `set(k, v, ttl)` at time `t0`, `get(k)` at time `t` returns `v`
      exactly when `t0 + ttl > t`; so a ttl of zero or less misses even at `t0`. */
  lemma SetThenGet(m: Entries, key: string, v: Json, ttl: int, t0: real, t: real)
    ensures Lookup(m[key := Entry(v, t0 + ttl as real)], key, t)
            == if t0 + ttl as real > t then Some(v) else None
    ensures ttl <= 0 ==> Lookup(m[key := Entry(v, t0 + ttl as real)], key, t0).None?
    ensures ttl > 0 ==> Lookup(m[key := Entry(v, t0 + ttl as real)], key, t0) == Some(v)
  {
  }

  /** `set` touches only its own key: every other key reads as before. */
  lemma SetIsolated(m: Entries, key: string, e: Entry, other: string, t: real)
    requires other != key
    ensures Lookup(m[key := e], other, t) == Lookup(m, other, t)
    ensures Live(m[key := e], t) - {key} == Live(m, t) - {key}
  {
    var a, b := Live(m[key := e], t) - {key}, Live(m, t) - {key};
    MapsEqual(a, b);
  }

  /** `get` on an expired key removes exactly that key, so the dictionary
      shrinks by one, and a later sweep keeps exactly what it would have kept. */
  lemma ExpiredGetEvicts(m: Entries, key: string, now: real, later: real)
    requires key in m && m[key].expiry <= now
    requires now <= later
    ensures |AfterGet(m, key, now)| == |m| - 1
    ensures key !in AfterGet(m, key, now)
    ensures Live(AfterGet(m, key, now), later) == Live(m, later)
  {
    assert AfterGet(m, key, now) == m - {key};
    assert (m - {key}).Keys == m.Keys - {key};
    MapsEqual(Live(AfterGet(m, key, now), later), Live(m, later));
  }

  /** `get` on a missing key or on a live key leaves the dictionary as it was. */
  lemma GetUnchanged(m: Entries, key: string, now: real)
    requires key !in m || IsLive(m, key, now)
    ensures AfterGet(m, key, now) == m
  {
  }

  /** A lazy eviction by `get` never changes what is live. */
  lemma GetKeepsLive(m: Entries, key: string, now: real)
    ensures Live(AfterGet(m, key, now), now) == Live(m, now)
    ensures Lookup(AfterGet(m, key, now), key, now) == Lookup(m, key, now)
  {
    MapsEqual(Live(AfterGet(m, key, now), now), Live(m, now));
  }

  /** Sweeping twice at the same time removes nothing the first sweep left. */
  lemma CleanIdempotent(m: Entries, now: real)
    ensures Live(Live(m, now), now) == Live(m, now)
  {
    MapsEqual(Live(Live(m, now), now), Live(m, now));
  }

  /** Sweeping does not change what `get` answers at the same time. */
  lemma CleanPreservesLookups(m: Entries, key: string, now: real)
    ensures Lookup(Live(m, now), key, now) == Lookup(m, key, now)
  {
  }

  /** An entry that has expired stays expired: a later sweep keeps no more. */
  lemma LiveShrinksOverTime(m: Entries, t1: real, t2: real)
    requires t1 <= t2
    ensures Live(m, t2).Keys <= Live(m, t1).Keys
  {
  }

  /** After `clear`, every key is absent. */
  lemma ClearedMisses(key: string, now: real)
    ensures Lookup(map[], key, now).None?
  {
  }
}
