/** The two caches of src/components/util/cache.rs: `MonoCache`, a single
    slot, and `LRUCache`, a bounded vector of key/value pairs kept in
    least-recently-used order (front = oldest). The functions at the top
    describe what the vector operations of `LRUCache` do to the entries; the
    second copy of `LRUCache` in the font context is specified with the same
    functions. */
module Cache {
  import opened Common

  /** Entries whose keys are pairwise different. */
  ghost predicate DistinctKeys<K, V>(entries: seq<(K, V)>) {
    forall i, j :: 0 <= i < j < |entries| ==> entries[i].0 != entries[j].0
  }

  /** The index of the first entry whose key is `key`, as
      `entries.position(|&(k, _)| k == *key)` finds it. */
  function Position<K(==), V>(entries: seq<(K, V)>, key: K): (r: Option<nat>)
    ensures r.Some? ==> r.value < |entries| && entries[r.value].0 == key
    ensures r.Some? ==> forall j :: 0 <= j < r.value ==> entries[j].0 != key
    ensures r.None? <==> forall j :: 0 <= j < |entries| ==> entries[j].0 != key
  {
    if entries == [] then None
    else if entries[0].0 == key then Some(0)
    else
      match Position(entries[1..], key)
      case None => None
      case Some(p) => Some(p + 1)
  }

  /** The entries after `touch(pos)`: the entry at `pos` is removed and pushed
      again at the back. */
  function MoveToBack<K, V>(entries: seq<(K, V)>, pos: nat): (r: seq<(K, V)>)
    requires pos < |entries|
    ensures |r| == |entries| && multiset(r) == multiset(entries)
    ensures r[|r| - 1] == entries[pos]
    ensures r[..|r| - 1] == entries[..pos] + entries[pos + 1..]
  {
    var rest := entries[..pos] + entries[pos + 1..];
    assert entries == entries[..pos] + [entries[pos]] + entries[pos + 1..];
    rest + [entries[pos]]
  }

  /** The entries after `insert(key, val)` on a cache of capacity `size`: when
      the vector is full its front (oldest) entry is removed, and the new pair
      is pushed at the back. */
  function Inserted<K, V>(entries: seq<(K, V)>, size: nat, key: K, val: V): (r: seq<(K, V)>)
    requires 0 < size && |entries| <= size
    ensures 0 < |r| <= size && r[|r| - 1] == (key, val)
    ensures |entries| < size ==> r == entries + [(key, val)]
    ensures |entries| == size ==> r == entries[1..] + [(key, val)]
  {
    var kept := if |entries| == size then entries[1..] else entries;
    kept + [(key, val)]
  }

  /** The first entry with `key` is the one `Position` finds. */
  lemma PositionIs<K, V>(entries: seq<(K, V)>, key: K, p: nat)
    requires p < |entries| && entries[p].0 == key
    requires forall j :: 0 <= j < p ==> entries[j].0 != key
    ensures Position(entries, key) == Some(p)
  {
  }

  /** After a miss on `key`, inserting it makes it the one entry for `key`, so
      the next lookup finds the inserted value at the back. */
  lemma LookupAfterInsertMiss<K, V>(entries: seq<(K, V)>, size: nat, key: K, val: V)
    requires 0 < size && |entries| <= size && Position(entries, key).None?
    ensures var r := Inserted(entries, size, key, val);
      Position(r, key) == Some(|r| - 1) && r[|r| - 1].1 == val
  {
    var r := Inserted(entries, size, key, val);
    forall j | 0 <= j < |r| - 1
      ensures r[j].0 != key
    {
      if |entries| == size {
        assert r[j] == entries[j + 1];
      } else {
        assert r[j] == entries[j];
      }
    }
    PositionIs(r, key, |r| - 1);
  }

  /** `insert` does not replace an entry already held for `key`: while nothing
      is evicted, a later lookup still finds the older entry first. */
  lemma InsertDoesNotReplace<K, V>(entries: seq<(K, V)>, size: nat, key: K, val: V)
    requires |entries| < size && Position(entries, key).Some?
    ensures Position(Inserted(entries, size, key, val), key) == Position(entries, key)
  {
    var r := Inserted(entries, size, key, val);
    var p := Position(entries, key).value;
    assert r == entries + [(key, val)];
    forall j | 0 <= j <= p
      ensures r[j] == entries[j]
    {
    }
    PositionIs(r, key, p);
  }

  /** A hit moves exactly the entry found to the back: when keys are distinct
      the next lookup of the same key finds it there, with the same value. */
  lemma LookupAfterTouch<K, V>(entries: seq<(K, V)>, key: K)
    requires DistinctKeys(entries) && Position(entries, key).Some?
    ensures var p := Position(entries, key).value;
      Position(MoveToBack(entries, p), key) == Some(|entries| - 1)
      && MoveToBack(entries, p)[|entries| - 1] == entries[p]
  {
    var p := Position(entries, key).value;
    MovedIsFound(entries, p);
  }

  /** With distinct keys, the moved entry's key is found at the back. */
  lemma MovedIsFound<K, V>(entries: seq<(K, V)>, pos: nat)
    requires pos < |entries| && DistinctKeys(entries)
    ensures Position(MoveToBack(entries, pos), entries[pos].0) == Some(|entries| - 1)
  {
    var r := MoveToBack(entries, pos);
    forall j | 0 <= j < |r| - 1
      ensures r[j].0 != entries[pos].0
    {
      MoveToBackAt(entries, pos, j);
    }
    PositionIs(r, entries[pos].0, |r| - 1);
  }

  /** Where each entry of `MoveToBack(entries, pos)` comes from. */
  lemma MoveToBackAt<K, V>(entries: seq<(K, V)>, pos: nat, i: nat)
    requires pos < |entries| && i < |entries|
    ensures MoveToBack(entries, pos)[i] ==
      entries[if i == |entries| - 1 then pos else if i < pos then i else i + 1]
  {
    var r := MoveToBack(entries, pos);
    if i < |r| - 1 {
      assert r[i] == r[..|r| - 1][i];
    }
  }

  /** Moving an entry to the back keeps the keys distinct. */
  lemma MoveToBackKeepsKeysDistinct<K, V>(entries: seq<(K, V)>, pos: nat)
    requires pos < |entries| && DistinctKeys(entries)
    ensures DistinctKeys(MoveToBack(entries, pos))
  {
    var r := MoveToBack(entries, pos);
    forall i, j | 0 <= i < j < |r|
      ensures r[i].0 != r[j].0
    {
      MoveToBackAt(entries, pos, i);
      MoveToBackAt(entries, pos, j);
    }
  }

  /** Inserting a key after a miss keeps the keys distinct: this is how
      `find_or_create` and the font context use `insert`. */
  lemma InsertMissKeepsKeysDistinct<K, V>(entries: seq<(K, V)>, size: nat, key: K, val: V)
    requires 0 < size && |entries| <= size && DistinctKeys(entries) && Position(entries, key).None?
    ensures DistinctKeys(Inserted(entries, size, key, val))
  {
    var r := Inserted(entries, size, key, val);
    forall i | 0 <= i < |r| - 1
      ensures r[i] == entries[if |entries| == size then i + 1 else i]
    {
    }
  }

  /** `MonoCache`: remembers the one key/value pair inserted last. */
  class MonoCache<K(==), V> {
    var entry: Option<(K, V)>

    /** `MonoCache::new`; the size argument is ignored. */
    constructor (size: nat)
      ensures entry == None
    {
      entry := None;
    }

    method Insert(key: K, value: V)
      modifies this
      ensures entry == Some((key, value))
    {
      entry := Some((key, value));
    }

    /** A hit exactly when the slot holds `key`; nothing changes. */
    method Find(key: K) returns (r: Option<V>)
      ensures r.Some? <==> entry.Some? && entry.value.0 == key
      ensures r.Some? ==> r.value == entry.value.1
    {
      match entry {
        case None => r := None;
        case Some((k, v)) => r := if k == key then Some(v) else None;
      }
    }

    /** On a hit the stored value, the slot unchanged; on a miss `blk(key)`,
        which displaces the previous pair. */
    method FindOrCreate(key: K, blk: K -> V) returns (v: V)
      modifies this
      ensures old(entry).Some? && old(entry).value.0 == key ==>
        v == old(entry).value.1 && entry == old(entry)
      ensures !(old(entry).Some? && old(entry).value.0 == key) ==>
        v == blk(key) && entry == Some((key, v))
    {
      var found := Find(key);
      match found {
        case None =>
          v := blk(key);
          entry := Some((key, v));
        case Some(stored) =>
          v := stored;
      }
    }

    method EvictAll()
      modifies this
      ensures entry == None
    {
      entry := None;
    }
  }

  /** The unit test `test_monocache`: each result is what the test asserts. */
  method MonoCacheTest() returns (one: Option<string>, two: Option<string>, twoAfter: Option<string>, oneAfter: Option<string>)
    ensures one == Some("one") && two.None?
    ensures twoAfter == Some("two") && oneAfter.None?
  {
    var cache := new MonoCache<nat, string>(10);
    cache.Insert(1, "one");
    one := cache.Find(1);
    two := cache.Find(2);
    var _ := cache.FindOrCreate(2, _ => "two");
    twoAfter := cache.Find(2);
    oneAfter := cache.Find(1);
  }

  /** `LRUCache`: at most `cacheSize` entries, oldest at the front. */
  class LRUCache<K(==), V> {
    var entries: seq<(K, V)>
    var cacheSize: nat

    ghost predicate Valid()
      reads this
    {
      |entries| <= cacheSize
    }

    constructor (size: nat)
      ensures Valid() && entries == [] && cacheSize == size
    {
      entries := [];
      cacheSize := size;
    }

    /** Moves the entry at `pos` to the back and returns its value. The guard
        `pos != cacheSize` is always true here, since `pos < |entries| <=
        cacheSize`, so the move always happens. */
    method Touch(pos: nat) returns (v: V)
      requires Valid() && pos < |entries|
      modifies this
      ensures Valid() && cacheSize == old(cacheSize)
      ensures v == old(entries)[pos].1 && entries == MoveToBack(old(entries), pos)
    {
      var (key, val) := entries[pos];
      if pos != cacheSize {
        entries := entries[..pos] + entries[pos + 1..];
        entries := entries + [(key, val)];
      } else {
        assert false;
      }
      v := val;
    }

    /** Pushes `(key, val)` at the back, first removing the front entry when
        the cache is full. With a capacity of zero `remove(0)` runs on an empty
        vector and the task fails. */
    method Insert(key: K, val: V) returns (r: Outcome<()>)
      requires Valid()
      modifies this
      ensures Valid() && cacheSize == old(cacheSize)
      ensures old(cacheSize) == 0 ==> r.Fail? && entries == old(entries)
      ensures old(cacheSize) > 0 ==> r.Done? && entries == Inserted(old(entries), cacheSize, key, val)
    {
      if |entries| == cacheSize {
        if entries == [] {
          r := Fail("remove(0) on an empty vector");
          return;
        }
        entries := entries[1..];
      }
      entries := entries + [(key, val)];
      r := Done(());
    }

    /** A hit returns the value of the first entry for `key` and moves that
        entry to the back; a miss changes nothing. */
    method Find(key: K) returns (r: Option<V>)
      requires Valid()
      modifies this
      ensures Valid() && cacheSize == old(cacheSize)
      ensures match Position(old(entries), key)
        case Some(p) => r == Some(old(entries)[p].1) && entries == MoveToBack(old(entries), p)
        case None => r.None? && entries == old(entries)
    {
      match Position(entries, key) {
        case Some(pos) =>
          var v := Touch(pos);
          r := Some(v);
        case None =>
          r := None;
      }
    }

    /** A hit behaves as `Find`; a miss inserts `(key, blk(key))` and returns
        that value. */
    method FindOrCreate(key: K, blk: K -> V) returns (r: Outcome<V>)
      requires Valid()
      modifies this
      ensures Valid() && cacheSize == old(cacheSize)
      ensures match Position(old(entries), key)
        case Some(p) => r == Done(old(entries)[p].1) && entries == MoveToBack(old(entries), p)
        case None =>
          if old(cacheSize) == 0 then r.Fail? && entries == old(entries)
          else r == Done(blk(key)) && entries == Inserted(old(entries), cacheSize, key, blk(key))
    {
      match Position(entries, key) {
        case Some(pos) =>
          var v := Touch(pos);
          r := Done(v);
        case None =>
          var val := blk(key);
          var inserted := Insert(key, val);
          r := if inserted.Done? then Done(val) else Fail(inserted.reason);
      }
    }

    method EvictAll()
      requires Valid()
      modifies this
      ensures Valid() && cacheSize == old(cacheSize) && entries == []
    {
      entries := [];
    }
  }

  /** After `evict_all`, every lookup in either cache misses. */
  method EvictAllThenFind<K(==), V>(mono: MonoCache<K, V>, lru: LRUCache<K, V>, key: K)
    returns (monoFound: Option<V>, lruFound: Option<V>)
    requires lru.Valid()
    modifies mono, lru
    ensures monoFound.None? && lruFound.None?
  {
    mono.EvictAll();
    lru.EvictAll();
    monoFound := mono.Find(key);
    lruFound := lru.Find(key);
  }
}
