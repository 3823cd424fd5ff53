/** The byte-weighted LRU cache over normalized images (src/adapters/anthropic-image-normalize.ts). */
module ImageCache {
  import opened Prelude

  const CACHE_BYTE_CAP: nat := 64 * 1024 * 1024

  datatype Value = Picture(data: Str, media: Str) | Pass | Miss

  /** `${hash}:${mediaType}:${pos}` */
  datatype Key = Key(hash: Str, media: Str, pos: nat)

  /** One entry of the insertion-ordered map; the oldest comes first. */
  datatype Slot = Slot(key: Key, value: Value)

  function Weight(v: Value): nat {
    if v.Picture? then |v.data| else 0
  }

  function Bytes(slots: seq<Slot>): nat {
    if slots == [] then 0 else Weight(slots[0].value) + Bytes(slots[1..])
  }

  predicate UniqueKeys(slots: seq<Slot>) {
    forall i, j :: 0 <= i < j < |slots| ==> slots[i].key != slots[j].key
  }

  function Without(slots: seq<Slot>, key: Key): (r: seq<Slot>)
    ensures forall s :: s in r <==> s in slots && s.key != key
  {
    if slots == [] then []
    else if slots[0].key == key then Without(slots[1..], key)
    else [slots[0]] + Without(slots[1..], key)
  }

  function Find(slots: seq<Slot>, key: Key): (r: Option<Value>)
    ensures r.Some? ==> Slot(key, r.value) in slots
    ensures r.None? ==> forall s :: s in slots ==> s.key != key
  {
    if slots == [] then None
    else if slots[0].key == key then Some(slots[0].value)
    else Find(slots[1..], key)
  }

  /** The oldest entries go until the newcomer fits or nothing is left. */
  function Evict(slots: seq<Slot>, size: nat): (r: seq<Slot>)
    ensures Bytes(r) + size <= CACHE_BYTE_CAP || r == []
    ensures |r| <= |slots| && r == slots[|slots| - |r|..]
  {
    if slots != [] && Bytes(slots) + size > CACHE_BYTE_CAP then Evict(slots[1..], size) else slots
  }

  function Put(slots: seq<Slot>, key: Key, value: Value): seq<Slot> {
    Evict(Without(slots, key), Weight(value)) + [Slot(key, value)]
  }

  /** A hit moves its entry to the newest end. */
  function Touch(slots: seq<Slot>, key: Key): seq<Slot> {
    var hit := Find(slots, key);
    if hit.None? then slots else Without(slots, key) + [Slot(key, hit.value)]
  }

  lemma {:induction false} BytesAppend(a: seq<Slot>, b: seq<Slot>)
    ensures Bytes(a + b) == Bytes(a) + Bytes(b)
  {
    if a == [] {
      assert a + b == b;
    } else {
      assert (a + b)[1..] == a[1..] + b;
      BytesAppend(a[1..], b);
    }
  }

  lemma UniqueCons(x: Slot, rest: seq<Slot>)
    ensures UniqueKeys([x] + rest) <==> UniqueKeys(rest) && forall s :: s in rest ==> s.key != x.key
  {
    var all := [x] + rest;
    assert all[1..] == rest;
    if UniqueKeys(all) {
      forall s | s in rest ensures s.key != x.key {
        var i :| 0 <= i < |rest| && rest[i] == s;
        assert all[i + 1] == s && all[0] == x;
      }
      forall i, j | 0 <= i < j < |rest| ensures rest[i].key != rest[j].key {
        assert all[i + 1] == rest[i] && all[j + 1] == rest[j];
      }
    }
  }

  lemma UniqueSnoc(a: seq<Slot>, x: Slot)
    requires UniqueKeys(a) && forall s :: s in a ==> s.key != x.key
    ensures UniqueKeys(a + [x])
  {
  }

  lemma UniqueSuffix(slots: seq<Slot>, k: nat)
    requires UniqueKeys(slots) && k <= |slots|
    ensures UniqueKeys(slots[k..])
  {
  }

  lemma {:induction false} WithoutUnique(slots: seq<Slot>, key: Key)
    requires UniqueKeys(slots)
    ensures var r := Without(slots, key);
      && UniqueKeys(r)
      && (Find(slots, key).None? ==> r == slots)
      && Bytes(r) + (if Find(slots, key).Some? then Weight(Find(slots, key).value) else 0) == Bytes(slots)
  {
    if slots != [] {
      var rest := slots[1..];
      assert slots == [slots[0]] + rest;
      UniqueCons(slots[0], rest);
      hide UniqueKeys;
      WithoutUnique(rest, key);
      if slots[0].key == key {
        AbsentKey(rest, key);
        assert Without(slots, key) == rest;
      } else {
        UniqueCons(slots[0], Without(rest, key));
        assert Bytes([slots[0]] + Without(rest, key)) == Weight(slots[0].value) + Bytes(Without(rest, key)) by {
          assert ([slots[0]] + Without(rest, key))[1..] == Without(rest, key);
        }
      }
    }
  }

  lemma AbsentKey(slots: seq<Slot>, key: Key)
    requires forall s :: s in slots ==> s.key != key
    ensures Find(slots, key).None?
  {
  }

  /** Without the first `k` entries there is room, but not with the last of them. */
  predicate NeededRoom(slots: seq<Slot>, k: nat, size: nat)
    requires k <= |slots|
  {
    k > 0 ==> Bytes(slots[k - 1..]) + size > CACHE_BYTE_CAP
  }

  lemma {:induction false} EvictsNoMore(slots: seq<Slot>, size: nat)
    ensures NeededRoom(slots, |slots| - |Evict(slots, size)|, size)
  {
    if slots != [] && Bytes(slots) + size > CACHE_BYTE_CAP {
      EvictsNoMore(slots[1..], size);
      var k := |slots| - |Evict(slots, size)|;
      if k > 1 { assert slots[1..][k - 2..] == slots[k - 1..]; } else { assert slots[0..] == slots; }
    }
  }

  /**
   * After every put: the stored bytes fit the cap unless the new entry alone exceeds it, keys stay
   * unique, the new value is found, every other key keeps its value or is gone, and what is gone
   * is an oldest run, no longer than the newcomer needed.
   */
  lemma PutFits(slots: seq<Slot>, key: Key, value: Value)
    requires UniqueKeys(slots)
    ensures var r := Put(slots, key, value);
      && UniqueKeys(r)
      && (Bytes(r) <= CACHE_BYTE_CAP || r == [Slot(key, value)])
      && r[|r| - 1] == Slot(key, value)
      && (forall s :: s in r ==> s == Slot(key, value) || (s in slots && s.key != key))
      && (exists k :: 0 <= k <= |Without(slots, key)| && r == Without(slots, key)[k..] + [Slot(key, value)]
            && NeededRoom(Without(slots, key), k, Weight(value)))
  {
    var kept := Without(slots, key);
    WithoutUnique(slots, key);
    var left := Evict(kept, Weight(value));
    var k := |kept| - |left|;
    assert left == kept[k..];
    EvictsNoMore(kept, Weight(value));
    UniqueSuffix(kept, k);
    assert forall s :: s in left ==> s in kept;
    UniqueSnoc(left, Slot(key, value));
    BytesSnoc(left, Slot(key, value));
    if left == [] {
      assert Put(slots, key, value) == [Slot(key, value)];
    }
  }

  lemma BytesSnoc(a: seq<Slot>, x: Slot)
    ensures Bytes(a + [x]) == Bytes(a) + Weight(x.value)
  {
    BytesAppend(a, [x]);
    assert [x][1..] == [];
  }

  lemma TouchKeeps(slots: seq<Slot>, key: Key)
    requires UniqueKeys(slots)
    ensures var r := Touch(slots, key);
      UniqueKeys(r) && Bytes(r) == Bytes(slots) && forall s :: s in r <==> s in slots
  {
    var hit := Find(slots, key);
    if hit.Some? {
      WithoutUnique(slots, key);
      BytesSnoc(Without(slots, key), Slot(key, hit.value));
      forall s | s in slots && s.key == key ensures s == Slot(key, hit.value) {
        SameKeySameSlot(slots, s, Slot(key, hit.value));
      }
    }
  }

  lemma SameKeySameSlot(slots: seq<Slot>, s: Slot, t: Slot)
    requires UniqueKeys(slots) && s in slots && t in slots && s.key == t.key
    ensures s == t
  {
    var i :| 0 <= i < |slots| && slots[i] == s;
    var j :| 0 <= j < |slots| && slots[j] == t;
    assert i == j;
  }

  // ---------------------------------------------------------------------------
  // Least recently used, over whole runs
  // ---------------------------------------------------------------------------

  datatype Op = Store(key: Key, value: Value) | Lookup(key: Key)

  function Do(slots: seq<Slot>, op: Op): seq<Slot> {
    if op.Store? then Put(slots, op.key, op.value) else Touch(slots, op.key)
  }

  function DoAll(ops: seq<Op>): seq<Slot> {
    if ops == [] then [] else Do(DoAll(ops[..|ops| - 1]), ops[|ops| - 1])
  }

  /** When the key was last stored or looked up. */
  function LastUse(ops: seq<Op>, key: Key): int {
    if ops == [] then -1
    else if ops[|ops| - 1].key == key then |ops| - 1
    else LastUse(ops[..|ops| - 1], key)
  }

  /** The entries stand in the order of their last use. */
  predicate ByUse(ops: seq<Op>, slots: seq<Slot>) {
    forall i, j :: 0 <= i < j < |slots| ==> LastUse(ops, slots[i].key) < LastUse(ops, slots[j].key)
  }

  lemma {:induction false} WithoutByUse(ops: seq<Op>, slots: seq<Slot>, key: Key)
    requires ByUse(ops, slots)
    ensures ByUse(ops, Without(slots, key))
  {
    hide LastUse;
    if slots != [] {
      assert ByUse(ops, slots[1..]);
      WithoutByUse(ops, slots[1..], key);
      var rest := Without(slots[1..], key);
      forall s | s in rest ensures LastUse(ops, slots[0].key) < LastUse(ops, s.key) {
        var i :| 0 <= i < |slots[1..]| && slots[1..][i] == s;
        assert slots[i + 1] == s;
      }
    }
  }

  lemma UsedNow(ops: seq<Op>, op: Op, slots: seq<Slot>, value: Value)
    requires ByUse(ops, slots) && forall s :: s in slots ==> s.key != op.key
    ensures ByUse(ops + [op], slots + [Slot(op.key, value)])
  {
    assert (ops + [op])[..|ops|] == ops;
    forall s | s in slots ensures LastUse(ops + [op], s.key) == LastUse(ops, s.key) < |ops| { UsedBefore(ops, s.key); }
    hide LastUse;
  }

  lemma {:induction false} UsedBefore(ops: seq<Op>, key: Key)
    ensures LastUse(ops, key) < |ops|
  {
    if ops != [] { UsedBefore(ops[..|ops| - 1], key); }
  }

  /** A lookup that misses uses nothing that is stored. */
  lemma MissedUse(ops: seq<Op>, op: Op, slots: seq<Slot>)
    requires ByUse(ops, slots) && forall s :: s in slots ==> s.key != op.key
    ensures ByUse(ops + [op], slots)
  {
    assert (ops + [op])[..|ops|] == ops;
  }

  lemma SuffixByUse(ops: seq<Op>, slots: seq<Slot>, k: nat)
    requires ByUse(ops, slots) && k <= |slots|
    ensures ByUse(ops, slots[k..])
  {
  }

  lemma UseKeepsOrder(before: seq<Op>, slots: seq<Slot>, op: Op)
    requires ByUse(before, slots)
    ensures ByUse(before + [op], Do(slots, op))
  {
    WithoutByUse(before, slots, op.key);
    hide ByUse, LastUse, Bytes;
    var kept := Without(slots, op.key);
    if op.Store? {
      var left := Evict(kept, Weight(op.value));
      SuffixByUse(before, kept, |kept| - |left|);
      assert forall s :: s in left ==> s in kept;
      UsedNow(before, op, left, op.value);
    } else if Find(slots, op.key).Some? {
      UsedNow(before, op, kept, Find(slots, op.key).value);
    } else {
      MissedUse(before, op, slots);
    }
  }

  /** In every run the entries stand in the order of their last use; so what a put drops was used least recently. */
  lemma {:induction false} RecentUseStays(ops: seq<Op>)
    ensures ByUse(ops, DoAll(ops))
  {
    hide ByUse, Do;
    if ops == [] {
      NothingUsed();
    } else {
      var before, op := ops[..|ops| - 1], ops[|ops| - 1];
      RecentUseStays(before);
      UseKeepsOrder(before, DoAll(before), op);
      assert before + [op] == ops;
    }
  }

  lemma NothingUsed()
    ensures ByUse([], [])
  {
  }

  /** The module-level `cache` and `cacheBytes`. */
  class Lru {
    var slots: seq<Slot>
    var bytes: nat

    ghost predicate Valid()
      reads this
    {
      UniqueKeys(slots) && bytes == Bytes(slots)
    }

    constructor ()
      ensures Valid() && slots == []
    {
      slots, bytes := [], 0;
    }

    method CachePut(key: Key, value: Value)
      requires Valid()
      modifies this
      ensures Valid() && slots == Put(old(slots), key, value)
      ensures bytes <= CACHE_BYTE_CAP || |slots| == 1
    {
      PutFits(slots, key, value);
      WithoutUnique(slots, key);
      hide UniqueKeys, Without;
      var size := Weight(value);
      var existing := Find(slots, key);
      if existing.Some? {
        bytes := bytes - Weight(existing.value);
        slots := Without(slots, key);
      }
      hide Find;
      EvictOldest(size);
      BytesSnoc(slots, Slot(key, value));
      slots := slots + [Slot(key, value)];
      bytes := bytes + size;
    }

    /** The eviction loop. */
    method EvictOldest(size: nat)
      requires bytes == Bytes(slots)
      modifies this
      ensures slots == Evict(old(slots), size) && bytes == Bytes(slots)
    {
      while bytes + size > CACHE_BYTE_CAP && |slots| > 0
        invariant bytes == Bytes(slots)
        invariant Evict(slots, size) == Evict(old(slots), size)
        decreases |slots|
      {
        bytes := bytes - Weight(slots[0].value);
        slots := slots[1..];
      }
    }

    method CacheGet(key: Key) returns (hit: Option<Value>)
      requires Valid()
      modifies this
      ensures Valid() && hit == Find(old(slots), key) && slots == Touch(old(slots), key)
    {
      TouchKeeps(slots, key);
      hit := Find(slots, key);
      if hit.Some? {
        slots := Without(slots, key) + [Slot(key, hit.value)];
      }
    }
  }
}
