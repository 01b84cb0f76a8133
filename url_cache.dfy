/** The module-level `url_cache = TTLCache(maxsize=100, ttl=3600)` of
    web_search.py, with the rules of the cachetools `TTLCache` it is built on:

    - `key in cache` holds while the current time is before the entry's
      insertion time plus the time-to-live, and does not reorder anything;
    - `cache[key]` returns the value and marks the key most recently used;
    - `cache[key] = value` first drops every expired entry, then either updates
      an existing key (making it most recently used and restarting its
      time-to-live) or, for a new key, evicts the least recently used entry when
      the cache is full and appends the new one.

    The entries are kept as a sequence of slots in least-recently-used-first
    order, so the size of the cache is the length of the sequence. */
module Caching {
  import opened Wrappers

  datatype Slot<V> = Slot(key: string, value: V, insertedAt: int)

  /** The entry is still alive at `now`. */
  predicate Live<V(!new)>(slot: Slot<V>, ttl: int, now: int) {
    now < slot.insertedAt + ttl
  }

  /** No key is held twice. */
  predicate Distinct<V(!new)>(slots: seq<Slot<V>>) {
    forall i, j :: 0 <= i < j < |slots| ==> slots[i].key != slots[j].key
  }

  /** Position of `key`, if it is held. */
  function Find<V(!new)>(slots: seq<Slot<V>>, key: string): (r: Option<nat>)
    ensures r.Some? ==> r.value < |slots| && slots[r.value].key == key
    ensures r.None? <==> forall i :: 0 <= i < |slots| ==> slots[i].key != key
  {
    if slots == [] then None
    else if slots[0].key == key then Some(0)
    else
      match Find(slots[1..], key)
      case None => None
      case Some(i) => Some(i + 1)
  }

  /** The slot held for `key`, if any. */
  function Entry<V(!new)>(slots: seq<Slot<V>>, key: string): Option<Slot<V>> {
    match Find(slots, key)
    case None => None
    case Some(i) => Some(slots[i])
  }

  /** `key in cache` at time `now`. */
  predicate Hit<V(!new)>(slots: seq<Slot<V>>, key: string, ttl: int, now: int)
  {
    Entry(slots, key).Some? && Live(Entry(slots, key).value, ttl, now)
  }

  /** `expire(now)`: every slot that is no longer alive is dropped; the rest keep
      their order. */
  function Expire<V(!new)>(slots: seq<Slot<V>>, ttl: int, now: int): (r: seq<Slot<V>>)
    ensures forall x :: x in r <==> x in slots && Live(x, ttl, now)
    ensures |r| <= |slots|
    ensures Distinct(slots) ==> Distinct(r)
  {
    if slots == [] then []
    else
      var rest := Expire(slots[1..], ttl, now);
      assert forall x :: x in slots <==> x == slots[0] || x in slots[1..];
      if Live(slots[0], ttl, now) then
        assert Distinct(slots) ==> forall x :: x in rest ==> x.key != slots[0].key by {
          if Distinct(slots) {
            forall x | x in rest ensures x.key != slots[0].key {
              var j :| 0 <= j < |slots[1..]| && slots[1..][j] == x;
              assert slots[j + 1] == x;
            }
          }
        }
        [slots[0]] + rest
      else rest
  }

  /** The slots without the one at `i`. */
  function Remove<V(!new)>(slots: seq<Slot<V>>, i: nat): (r: seq<Slot<V>>)
    requires i < |slots|
    ensures |r| == |slots| - 1
    ensures Distinct(slots) ==> Distinct(r) && forall x :: x in r <==> x in slots && x.key != slots[i].key
  {
    var r := slots[..i] + slots[i + 1..];
    assert forall j :: 0 <= j < |r| ==> r[j] == slots[if j < i then j else j + 1];
    assert forall x :: x in slots ==> x == slots[i] || x in r by {
      forall x | x in slots ensures x == slots[i] || x in r {
        var j :| 0 <= j < |slots| && slots[j] == x;
        if j < i { assert r[j] == x; } else if j > i { assert r[j - 1] == x; }
      }
    }
    r
  }

  /** `cache[key]` on a hit: the slot at `i` becomes the most recently used. */
  function Touch<V(!new)>(slots: seq<Slot<V>>, i: nat): seq<Slot<V>>
    requires i < |slots|
  {
    Remove(slots, i) + [slots[i]]
  }

  /** What a store keeps of the live slots before appending the new one. */
  function Kept<V(!new)>(live: seq<Slot<V>>, key: string, maxSize: nat): seq<Slot<V>> {
    match Find(live, key)
    case Some(i) => Remove(live, i)
    case None => if |live| >= maxSize && live != [] then live[1..] else live
  }

  /** `cache[key] = value` at time `now`. */
  function Stored<V(!new)>(slots: seq<Slot<V>>, key: string, value: V, now: int, ttl: int, maxSize: nat)
    : (r: seq<Slot<V>>)
    requires maxSize > 0
    ensures r != [] && r[|r| - 1] == Slot(key, value, now)
    ensures Distinct(slots) ==>
      forall i :: 0 <= i < |r| - 1 ==> r[i] in slots && Live(r[i], ttl, now) && r[i].key != key
  {
    Kept(Expire(slots, ttl, now), key, maxSize) + [Slot(key, value, now)]
  }

  /** Expiry distributes over concatenation: it keeps the surviving slots in
      their order. */
  lemma {:induction false} ExpireAppend<V(!new)>(a: seq<Slot<V>>, b: seq<Slot<V>>, ttl: int, now: int)
    ensures Expire(a + b, ttl, now) == Expire(a, ttl, now) + Expire(b, ttl, now)
  {
    if a == [] {
      assert a + b == b;
    } else {
      assert (a + b)[0] == a[0] && (a + b)[1..] == a[1..] + b;
      ExpireAppend(a[1..], b, ttl, now);
    }
  }

  /** Expiry keeps every live slot as often as it occurs and no expired one. */
  lemma {:induction false} ExpireCounts<V(!new)>(slots: seq<Slot<V>>, ttl: int, now: int)
    ensures forall x :: multiset(Expire(slots, ttl, now))[x] == if Live(x, ttl, now) then multiset(slots)[x] else 0
  {
    if slots != [] {
      ExpireCounts(slots[1..], ttl, now);
      assert slots == [slots[0]] + slots[1..];
      assert multiset(slots) == multiset{slots[0]} + multiset(slots[1..]);
    }
  }

  // ---------------------------------------------------------------------------
  // Reading entries

  /** A hit is a live slot held for the key; with distinct keys, any live slot held
      for the key makes it a hit. */
  lemma HitIsLiveMember<V(!new)>(slots: seq<Slot<V>>, key: string, ttl: int, now: int)
    ensures Hit(slots, key, ttl, now) ==> exists x :: x in slots && x.key == key && Live(x, ttl, now)
    ensures Distinct(slots) && (exists x :: x in slots && x.key == key && Live(x, ttl, now))
            ==> Hit(slots, key, ttl, now)
  {
    if Distinct(slots) && exists x :: x in slots && x.key == key && Live(x, ttl, now) {
      var x :| x in slots && x.key == key && Live(x, ttl, now);
      EntryIsMember(slots, key, x);
    }
  }

  /** With distinct keys, the entry for a key is the one slot holding it. */
  lemma EntryIsMember<V(!new)>(slots: seq<Slot<V>>, key: string, x: Slot<V>)
    requires Distinct(slots)
    ensures Entry(slots, key) == Some(x) <==> x in slots && x.key == key
  {
    if x in slots && x.key == key {
      var j :| 0 <= j < |slots| && slots[j] == x;
      var i := Find(slots, key).value;
      assert i == j;
    }
  }

  /** Two caches that hold the same slots for `key` give the same entry for it. */
  lemma SameEntry<V(!new)>(a: seq<Slot<V>>, b: seq<Slot<V>>, key: string)
    requires Distinct(a) && Distinct(b)
    requires forall x :: x in a && x.key == key <==> x in b && x.key == key
    ensures Entry(a, key) == Entry(b, key)
  {
    if Entry(a, key).Some? {
      EntryIsMember(a, key, Entry(a, key).value);
      EntryIsMember(b, key, Entry(a, key).value);
    } else if Entry(b, key).Some? {
      EntryIsMember(a, key, Entry(b, key).value);
      EntryIsMember(b, key, Entry(b, key).value);
    }
  }

  // ---------------------------------------------------------------------------
  // What a lookup and a store do

  /** A lookup reorders the cache and changes no entry. */
  lemma TouchKeepsEntries<V(!new)>(slots: seq<Slot<V>>, i: nat, key: string)
    requires Distinct(slots) && i < |slots|
    ensures Distinct(Touch(slots, i)) && |Touch(slots, i)| == |slots|
    ensures Entry(Touch(slots, i), key) == Entry(slots, key)
  {
    var t := Touch(slots, i);
    var r := Remove(slots, i);
    assert t[|t| - 1] == slots[i];
    assert forall x :: x in t <==> x in r || x == slots[i];
    assert forall j :: 0 <= j < |r| ==> r[j] in r && t[j] == r[j];
    assert Distinct(t) by {
      forall j, k | 0 <= j < k < |t| ensures t[j].key != t[k].key {
        if k == |t| - 1 {
          assert t[j] in r;
        }
      }
    }
    SameEntry(slots, t, key);
  }

  lemma DropFirst<V(!new)>(slots: seq<Slot<V>>)
    requires Distinct(slots) && slots != []
    ensures Distinct(slots[1..]) && forall x :: x in slots[1..] ==> x in slots
  {
  }

  lemma AppendNewKey<V(!new)>(kept: seq<Slot<V>>, newest: Slot<V>)
    requires Distinct(kept) && forall x :: x in kept ==> x.key != newest.key
    ensures Distinct(kept + [newest])
  {
    var s := kept + [newest];
    forall j, k | 0 <= j < k < |s| ensures s[j].key != s[k].key {
      assert s[j] == kept[j] && kept[j] in kept;
      if k < |kept| { assert s[k] == kept[k]; }
    }
  }

  lemma KeptSlots<V(!new)>(live: seq<Slot<V>>, key: string, maxSize: nat)
    requires maxSize > 0 && |live| <= maxSize && Distinct(live)
    ensures var kept := Kept(live, key, maxSize);
      Distinct(kept) && |kept| < maxSize && forall x :: x in kept ==> x in live && x.key != key
  {
    if Find(live, key).None? && |live| >= maxSize {
      DropFirst(live);
    }
  }

  /** A store keeps the size bound and the keys distinct, and makes the stored
      key the most recently used. */
  lemma StoredValid<V(!new)>(slots: seq<Slot<V>>, key: string, value: V, now: int, ttl: int, maxSize: nat)
    requires maxSize > 0 && |slots| <= maxSize && Distinct(slots)
    ensures var s := Stored(slots, key, value, now, ttl, maxSize);
      |s| <= maxSize && Distinct(s) && s[|s| - 1] == Slot(key, value, now)
  {
    var live := Expire(slots, ttl, now);
    KeptSlots(live, key, maxSize);
    AppendNewKey(Kept(live, key, maxSize), Slot(key, value, now));
  }

  /** After a store, the key holds the new value, and it is a hit exactly until
      `now + ttl`. */
  lemma StoredHit<V(!new)>(slots: seq<Slot<V>>, key: string, value: V, now: int, ttl: int, maxSize: nat, later: int)
    requires maxSize > 0 && |slots| <= maxSize && Distinct(slots)
    ensures Entry(Stored(slots, key, value, now, ttl, maxSize), key) == Some(Slot(key, value, now))
    ensures Hit(Stored(slots, key, value, now, ttl, maxSize), key, ttl, later) <==> later < now + ttl
  {
    var s := Stored(slots, key, value, now, ttl, maxSize);
    StoredValid(slots, key, value, now, ttl, maxSize);
    EntryIsMember(s, key, Slot(key, value, now));
  }

  /** A store changes no other entry: another key that is still held keeps its
      slot. */
  lemma StoredKeepsOthers<V(!new)>(slots: seq<Slot<V>>, key: string, value: V, now: int, ttl: int, maxSize: nat, other: string)
    requires maxSize > 0 && |slots| <= maxSize && Distinct(slots) && other != key
    ensures var s := Stored(slots, key, value, now, ttl, maxSize);
      Entry(s, other).Some? ==> Entry(s, other) == Entry(slots, other)
  {
    var s := Stored(slots, key, value, now, ttl, maxSize);
    KeptSlots(Expire(slots, ttl, now), key, maxSize);
    StoredValid(slots, key, value, now, ttl, maxSize);
    if Entry(s, other).Some? {
      var x := Entry(s, other).value;
      EntryIsMember(s, other, x);
      EntryIsMember(slots, other, x);
    }
  }

  /** A key that was a hit is gone after storing another key only when the cache
      was full, the stored key was new, and this key was the least recently used. */
  lemma StoredEvictsOnlyOldest<V(!new)>(slots: seq<Slot<V>>, key: string, value: V, now: int, ttl: int, maxSize: nat, other: string)
    requires maxSize > 0 && |slots| <= maxSize && Distinct(slots) && other != key
    ensures var s := Stored(slots, key, value, now, ttl, maxSize);
      var live := Expire(slots, ttl, now);
      Hit(slots, other, ttl, now) && Entry(s, other).None? ==>
        Find(live, key).None? && |live| >= maxSize && live[0].key == other
  {
    var s := Stored(slots, key, value, now, ttl, maxSize);
    var live := Expire(slots, ttl, now);
    var kept := Kept(live, key, maxSize);
    KeptSlots(live, key, maxSize);
    StoredValid(slots, key, value, now, ttl, maxSize);
    if Hit(slots, other, ttl, now) && !(Find(live, key).None? && |live| >= maxSize && live[0].key == other) {
      var x := Entry(slots, other).value;
      EntryIsMember(slots, other, x);
      assert x in live;
      assert x in kept by {
        if Find(live, key).None? && |live| >= maxSize {
          var j := Find(live, other).value;
          assert j > 0 && kept[j - 1] == x;
        }
      }
      assert s[Find(kept, other).value] == x;
      EntryIsMember(s, other, x);
    }
  }

  // ---------------------------------------------------------------------------
  // Several stores in a row

  /** The slots whose keys are in `keys` come after all the others. */
  predicate KeysLast<V(!new)>(slots: seq<Slot<V>>, keys: set<string>) {
    forall i, j :: 0 <= i < j < |slots| && slots[i].key in keys ==> slots[j].key in keys
  }

  /** Distinct slots whose keys all lie in `keys` are at most `|keys|` many. */
  lemma {:induction false} DistinctWithin<V(!new)>(slots: seq<Slot<V>>, keys: set<string>)
    requires Distinct(slots) && forall x :: x in slots ==> x.key in keys
    ensures |slots| <= |keys|
  {
    if slots != [] {
      var rest := slots[1..];
      forall x | x in rest ensures x.key in keys - {slots[0].key} {
        var j :| 0 <= j < |rest| && rest[j] == x;
        assert slots[j + 1] == x;
      }
      DistinctWithin(rest, keys - {slots[0].key});
    }
  }

  lemma {:induction false} ExpireKeepsKeysLast<V(!new)>(slots: seq<Slot<V>>, keys: set<string>, ttl: int, now: int)
    requires KeysLast(slots, keys)
    ensures KeysLast(Expire(slots, ttl, now), keys)
  {
    if slots != [] {
      var rest := Expire(slots[1..], ttl, now);
      ExpireKeepsKeysLast(slots[1..], keys, ttl, now);
      if Live(slots[0], ttl, now) && slots[0].key in keys {
        forall x | x in rest ensures x.key in keys {
          var j :| 0 <= j < |slots[1..]| && slots[1..][j] == x;
          assert slots[j + 1] == x;
        }
        var r := [slots[0]] + rest;
        forall i, j | 0 <= i < j < |r| && r[i].key in keys ensures r[j].key in keys {
          assert r[j] == rest[j - 1] && rest[j - 1] in rest;
        }
      }
    }
  }

  lemma KeptKeepsKeysLast<V(!new)>(live: seq<Slot<V>>, key: string, maxSize: nat, keys: set<string>)
    requires KeysLast(live, keys)
    ensures KeysLast(Kept(live, key, maxSize), keys)
  {
    var kept := Kept(live, key, maxSize);
    if Find(live, key).Some? {
      var k := Find(live, key).value;
      forall i, j | 0 <= i < j < |kept| && kept[i].key in keys ensures kept[j].key in keys {
        assert kept[i] == live[if i < k then i else i + 1];
        assert kept[j] == live[if j < k then j else j + 1];
      }
    } else if |live| >= maxSize && live != [] {
      forall i, j | 0 <= i < j < |kept| && kept[i].key in keys ensures kept[j].key in keys {
        assert kept[i] == live[i + 1] && kept[j] == live[j + 1];
      }
    }
  }

  /** Storing a key into a cache whose already-written keys (`keys`) are the most
      recent, fewer than `maxSize` and alive, keeps every one of them and keeps
      the written keys, now with the new one, the most recent. */
  lemma StoredKeepsWritten<V(!new)>(slots: seq<Slot<V>>, keys: set<string>, key: string, value: V, now: int, ttl: int, maxSize: nat, other: string)
    requires maxSize > 0 && |slots| <= maxSize && Distinct(slots)
    requires KeysLast(slots, keys) && |keys| < maxSize
    requires other in keys && other != key && Hit(slots, other, ttl, now)
    ensures Entry(Stored(slots, key, value, now, ttl, maxSize), other) == Entry(slots, other)
  {
    var live := Expire(slots, ttl, now);
    ExpireKeepsKeysLast(slots, keys, ttl, now);
    assert !(|live| >= maxSize && live != [] && live[0].key == other) by {
      if live != [] && live[0].key == other {
        forall x | x in live ensures x.key in keys {
          var j :| 0 <= j < |live| && live[j] == x;
          if j > 0 { assert live[0].key in keys; }
        }
        DistinctWithin(live, keys);
      }
    }
    StoredEvictsOnlyOldest(slots, key, value, now, ttl, maxSize, other);
    StoredKeepsOthers(slots, key, value, now, ttl, maxSize, other);
  }

  lemma StoredKeysLast<V(!new)>(slots: seq<Slot<V>>, keys: set<string>, key: string, value: V, now: int, ttl: int, maxSize: nat)
    requires maxSize > 0 && |slots| <= maxSize && Distinct(slots) && KeysLast(slots, keys)
    ensures KeysLast(Stored(slots, key, value, now, ttl, maxSize), keys + {key})
  {
    var live := Expire(slots, ttl, now);
    ExpireKeepsKeysLast(slots, keys, ttl, now);
    var kept := Kept(live, key, maxSize);
    KeptKeepsKeysLast(live, key, maxSize, keys);
    KeptSlots(live, key, maxSize);
    var w := kept + [Slot(key, value, now)];
    forall i, j | 0 <= i < j < |w| && w[i].key in keys + {key} ensures w[j].key in keys + {key} {
      if j < |kept| {
        assert w[i] == kept[i] && w[j] == kept[j] && kept[i] in kept;
      }
    }
  }

  // ---------------------------------------------------------------------------
  // The cache object

  class TtlCache<V(!new)> {
    const maxSize: nat
    const ttl: int
    var slots: seq<Slot<V>>

    ghost predicate Valid()
      reads this
    {
      maxSize > 0 && |slots| <= maxSize && Distinct(slots)
    }

    constructor(maxSize: nat, ttl: int)
      requires maxSize > 0
      ensures Valid() && slots == []
      ensures this.maxSize == maxSize && this.ttl == ttl
    {
      this.maxSize := maxSize;
      this.ttl := ttl;
      slots := [];
    }

    /** `key in cache`. */
    predicate Contains(key: string, now: int)
      reads this
      ensures Valid() ==> (Contains(key, now) <==> exists x :: x in slots && x.key == key && now < x.insertedAt + ttl)
    {
      HitIsLiveMember(slots, key, ttl, now);
      Hit(slots, key, ttl, now)
    }

    /** `cache[key]` for a key that is present. */
    method Get(key: string, now: int) returns (value: V)
      requires Valid() && Contains(key, now)
      modifies this
      ensures Valid()
      ensures Entry(old(slots), key) == Some(Slot(key, value, Entry(old(slots), key).value.insertedAt))
      ensures slots == Touch(old(slots), Find(old(slots), key).value)
      ensures forall k :: Entry(slots, k) == Entry(old(slots), k)
    {
      var i := Find(slots, key).value;
      value := slots[i].value;
      forall k { TouchKeepsEntries(slots, i, k); }
      slots := Touch(slots, i);
    }

    /** `cache[key] = value`. */
    method Set(key: string, value: V, now: int)
      requires Valid()
      modifies this
      ensures Valid()
      ensures slots == Stored(old(slots), key, value, now, ttl, maxSize)
    {
      StoredValid(slots, key, value, now, ttl, maxSize);
      slots := Stored(slots, key, value, now, ttl, maxSize);
    }
  }

  /** `TTLCache(maxsize=100, ttl=3600)` (web_search.py line 19). */
  method NewUrlCache<V(!new)>() returns (cache: TtlCache<V>)
    ensures fresh(cache) && cache.Valid()
    ensures cache.maxSize == 100 && cache.ttl == 3600 && cache.slots == []
  {
    cache := new TtlCache(100, 3600);
  }
}
