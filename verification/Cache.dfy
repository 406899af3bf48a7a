/**
 The gateway's in-memory cache: 256 independently locked shards chosen by a 32-bit
 FNV-1a hash (section 2 of draft-eastlake-fnv), items with an optional expiry.

 Each operation runs under its shard's lock, so the operations are taken one at a
 time, at non-decreasing clock readings.
 */
module Cache {
  import opened Prelude

  type Key = seq<bv8>  // Go strings are byte strings

  const OFFSET_BASIS: bv32 := 2166136261
  const SHARDS: nat := 256

  // ---- The hash ------------------------------------------------------------------

  /** Multiplication by the 32-bit FNV prime, modulo 2^32. */
  function TimesPrime(hash: bv32): bv32 {
    hash * 16777619
  }

  function Mix(hash: bv32, b: bv8): bv32 {
    TimesPrime(hash ^ (b as bv32))
  }

  /** The hash of `key` when the bytes before it have brought it to `start`. */
  function HashFrom(start: bv32, key: Key): bv32 {
    if key == [] then start else Mix(HashFrom(start, key[..|key| - 1]), key[|key| - 1])
  }

  lemma HashExtends(start: bv32, key: Key, i: nat)
    requires i < |key|
    ensures HashFrom(start, key[..i + 1]) == Mix(HashFrom(start, key[..i]), key[i])
  {
    assert key[..i + 1][..i] == key[..i];
  }

  /** The body of the hashing loop. */
  method MixIn(before: bv32, b: bv8) returns (hash: bv32)
    ensures hash == Mix(before, b)
  {
    hash := before ^ (b as bv32);
    hash := TimesPrime(hash);
  }

  method Fnv1a(key: Key) returns (hash: bv32)
    ensures hash == HashFrom(OFFSET_BASIS, key)
  {
    hash := OFFSET_BASIS;
    for i := 0 to |key|
      invariant hash == HashFrom(OFFSET_BASIS, key[..i])
    {
      HashExtends(OFFSET_BASIS, key, i);
      hash := MixIn(hash, key[i]);
    }
    assert key[..|key|] == key;
  }

  /** The shard index as the hash leaves it: the hash modulo 256. */
  function Slot(hash: bv32): bv8 {
    (hash % 256) as bv8
  }

  function ShardOf(key: Key): nat
    ensures ShardOf(key) < SHARDS
  {
    Slot(HashFrom(OFFSET_BASIS, key)) as nat
  }

  // The published 32-bit FNV-1a values of the empty string and of "a".
  lemma KnownHashes()
    ensures HashFrom(OFFSET_BASIS, []) == 0x811c9dc5
    ensures HashFrom(OFFSET_BASIS, [0x61]) == 0xe40c292c
    ensures ShardOf([]) == 0xc5 && ShardOf([0x61]) == 0x2c
  {
    assert [0x61 as bv8][..0] == [];
    assert TimesPrime(0x811c9da4) == 0xe40c292c;
  }

  /** And of "foobar", which fixes the order in which bytes are mixed in. */
  lemma KnownLongHash()
    ensures HashFrom(OFFSET_BASIS, [0x66, 0x6f, 0x6f, 0x62, 0x61, 0x72]) == 0xbf9cf968
  {
    var key: Key := [0x66, 0x6f, 0x6f, 0x62, 0x61, 0x72];
    assert key[..0] == [];
    assert TimesPrime(0x811c9da3) == 0xe30c2799;
    HashExtends(OFFSET_BASIS, key, 0);
    assert HashFrom(OFFSET_BASIS, key[..1]) == 0xe30c2799;
    assert TimesPrime(0xe30c27f6) == 0x6222e842;
    HashExtends(OFFSET_BASIS, key, 1);
    assert HashFrom(OFFSET_BASIS, key[..2]) == 0x6222e842;
    assert TimesPrime(0x6222e82d) == 0xa9f37ed7;
    HashExtends(OFFSET_BASIS, key, 2);
    assert HashFrom(OFFSET_BASIS, key[..3]) == 0xa9f37ed7;
    assert TimesPrime(0xa9f37eb5) == 0x3f5076ef;
    HashExtends(OFFSET_BASIS, key, 3);
    assert HashFrom(OFFSET_BASIS, key[..4]) == 0x3f5076ef;
    assert TimesPrime(0x3f50768e) == 0x39aaa18a;
    HashExtends(OFFSET_BASIS, key, 4);
    assert HashFrom(OFFSET_BASIS, key[..5]) == 0x39aaa18a;
    assert TimesPrime(0x39aaa1f8) == 0xbf9cf968;
    HashExtends(OFFSET_BASIS, key, 5);
    assert HashFrom(OFFSET_BASIS, key[..6]) == 0xbf9cf968;
    assert key[..6] == key;
  }

  /** The shard index evolves on its own, multiplied by the prime's low byte. */
  lemma SlotOfMix(hash: bv32, b: bv8)
    ensures Slot(Mix(hash, b)) == (Slot(hash) ^ b) * 0x93
  {
  }

  lemma ByteMixInvertible(v: bv8)
    ensures (v * 0x93) * 0x9b == v
  {
  }

  /** Mixing a byte in keeps different slots different, and different bytes into one slot make them so. */
  lemma MixSeparates(g: bv32, h: bv32, a: bv8, b: bv8)
    requires Slot(g) ^ a != Slot(h) ^ b
    ensures Slot(Mix(g, a)) != Slot(Mix(h, b))
  {
    SlotOfMix(g, a);
    SlotOfMix(h, b);
    ByteMixInvertible(Slot(g) ^ a);
    ByteMixInvertible(Slot(h) ^ b);
  }

  lemma XorSeparates(x: bv8, y: bv8, a: bv8)
    requires x != y
    ensures x ^ a != y ^ a && a ^ x != a ^ y
  {
  }

  /** Keys that differ in exactly one byte, anywhere, never share a shard. */
  lemma {:induction false} OneByteApart(front: Key, a: bv8, b: bv8, back: Key)
    requires a != b
    ensures ShardOf(front + [a] + back) != ShardOf(front + [b] + back)
  {
    SlotsApart(front, a, b, back);
    BytesAsNumbers(Slot(HashFrom(OFFSET_BASIS, front + [a] + back)), Slot(HashFrom(OFFSET_BASIS, front + [b] + back)));
  }

  lemma BytesAsNumbers(x: bv8, y: bv8)
    requires x != y
    ensures x as nat != y as nat
  {
    ByteRoundTrip(x);
    ByteRoundTrip(y);
  }

  lemma ByteRoundTrip(x: bv8)
    ensures (x as nat) as bv8 == x
  {
  }

  lemma {:induction false} SlotsApart(front: Key, a: bv8, b: bv8, back: Key)
    requires a != b
    ensures Slot(HashFrom(OFFSET_BASIS, front + [a] + back)) != Slot(HashFrom(OFFSET_BASIS, front + [b] + back))
    decreases |back|
  {
    var x, y := front + [a] + back, front + [b] + back;
    var n := |x| - 1;
    HashExtends(OFFSET_BASIS, x, n);
    HashExtends(OFFSET_BASIS, y, n);
    assert x[..n + 1] == x && y[..n + 1] == y;
    var g, h := HashFrom(OFFSET_BASIS, x[..n]), HashFrom(OFFSET_BASIS, y[..n]);
    if back == [] {
      assert x[..n] == front == y[..n];
      XorSeparates(a, b, Slot(g));
    } else {
      var rest := back[..|back| - 1];
      assert x[..n] == front + [a] + rest && y[..n] == front + [b] + rest;
      SlotsApart(front, a, b, rest);
      XorSeparates(Slot(g), Slot(h), x[n]);
    }
    MixSeparates(g, h, x[n], y[n]);
  }

  // ---- One flat map with expiry ---------------------------------------------------

  datatype Item<V> = Item(value: V, expiration: int)

  /** An item is served until its expiration has passed; expiration 0 means never. */
  predicate Live<V>(item: Item<V>, now: int) {
    !(item.expiration > 0 && now > item.expiration)
  }

  datatype Op<V> = Get(key: Key) | Set(key: Key, value: V, ttl: int) | Delete(key: Key)

  datatype Timed<V> = Timed(op: Op<V>, now: int)

  function FlatGet<V>(items: map<Key, Item<V>>, key: Key, now: int): Option<V> {
    if key in items && Live(items[key], now) then Some(items[key].value) else None
  }

  function Flat<V>(items: map<Key, Item<V>>, step: Timed<V>): map<Key, Item<V>> {
    match step.op
    case Get(_) => items
    case Set(key, value, ttl) => items[key := Item(value, if ttl > 0 then step.now + ttl else 0)]
    case Delete(key) => items - {key}
  }

  function FlatAfter<V>(steps: seq<Timed<V>>): map<Key, Item<V>> {
    if steps == [] then map[] else Flat(FlatAfter(steps[..|steps| - 1]), steps[|steps| - 1])
  }

  /**
   What a lookup answers after any history, said of the history alone: the value of
   the key's last `Set`, if no `Delete` of it came later and the set is younger than its
   lifetime; otherwise a miss. Here call `i` is that last `Set`.
   */
  lemma {:induction false} LookupAnswersLastSet<V>(steps: seq<Timed<V>>, i: nat, key: Key, now: int)
    requires i < |steps| && steps[i].op.Set? && steps[i].op.key == key
    requires forall j :: i < j < |steps| ==> !steps[j].op.Get? ==> steps[j].op.key != key
    requires steps[i].now >= 0
    ensures FlatGet(FlatAfter(steps), key, now)
         == if steps[i].op.ttl > 0 && now > steps[i].now + steps[i].op.ttl then None else Some(steps[i].op.value)
    decreases |steps|
  {
    if i < |steps| - 1 {
      LookupAnswersLastSet(steps[..|steps| - 1], i, key, now);
    }
  }

  /** A key not set since the start or since its last deletion is a miss. */
  lemma {:induction false} LookupMissesUnset<V>(steps: seq<Timed<V>>, i: nat, key: Key, now: int)
    requires i <= |steps|
    requires i == 0 || (steps[i - 1].op.Delete? && steps[i - 1].op.key == key)
    requires forall j :: i <= j < |steps| ==> steps[j].op.Set? ==> steps[j].op.key != key
    ensures key !in FlatAfter(steps)
    ensures FlatGet(FlatAfter(steps), key, now) == None
    decreases |steps|
  {
    if i < |steps| {
      LookupMissesUnset(steps[..|steps| - 1], i, key, now);
    }
  }

  /** Once a key is a miss it stays one, whatever else is done, until it is set again. */
  lemma {:induction false} MissPersists<V>(steps: seq<Timed<V>>, more: seq<Timed<V>>, key: Key, now: int, later: int)
    requires FlatGet(FlatAfter(steps), key, now) == None && now <= later
    requires forall step <- more :: step.op.Set? ==> step.op.key != key
    ensures FlatGet(FlatAfter(steps + more), key, later) == None
    decreases |more|
  {
    var all := steps + more;
    if more == [] {
      assert all == steps;
    } else {
      var n := |more| - 1;
      MissPersists(steps, more[..n], key, now, later);
      assert all[..|all| - 1] == steps + more[..n];
      assert all[|all| - 1] == more[n];
    }
  }

  // ---- The sharded cache ----------------------------------------------------------

  class ShardedCache<V> {
    const shards: array<map<Key, Item<V>>>

    ghost var steps: seq<Timed<V>>  // the operations performed so far

    /** Every key lives in the shard its hash names, and nowhere else. */
    ghost predicate Placed()
      reads this, shards
    {
      && shards.Length == SHARDS
      && (forall i, key :: 0 <= i < SHARDS && key in shards[i] ==> ShardOf(key) == i)
    }

    /** Taken together the shards are the flat map of the operations so far. */
    ghost predicate Valid()
      reads this, shards
    {
      && Placed()
      && forall key :: var items := shards[ShardOf(key)];
           (key in items <==> key in FlatAfter(steps)) && (key in items ==> items[key] == FlatAfter(steps)[key])
    }

    constructor ()
      ensures Valid() && steps == [] && fresh(shards)
    {
      shards := new map<Key, Item<V>>[SHARDS](_ => map[]);
      steps := [];
    }

    method GetShard(key: Key) returns (i: nat)
      ensures i == ShardOf(key) && i == (HashFrom(OFFSET_BASIS, key) % 256) as nat
    {
      var hash := Fnv1a(key);
      i := Slot(hash) as nat;
    }

    method Get(key: Key, now: int) returns (value: Option<V>)
      requires Valid()
      modifies this`steps
      ensures Valid() && steps == old(steps) + [Timed(Op.Get(key), now)]
      ensures value == FlatGet(FlatAfter(old(steps)), key, now)
    {
      var i := GetShard(key);
      value := None;
      if key in shards[i] {
        var item := shards[i][key];
        if !(item.expiration > 0 && now > item.expiration) {
          value := Some(item.value);
        }
      }
      ghost var before := steps;
      steps := steps + [Timed(Op.Get(key), now)];
      assert steps[..|steps| - 1] == before;
    }

    method Set(key: Key, value: V, ttl: int, now: int)
      requires Valid()
      modifies this`steps, shards
      ensures Valid() && steps == old(steps) + [Timed(Op.Set(key, value, ttl), now)]
    {
      var i := GetShard(key);
      var exp := 0;
      if ttl > 0 {
        exp := now + ttl;
      }
      shards[i] := shards[i][key := Item(value, exp)];
      ghost var before := steps;
      steps := steps + [Timed(Op.Set(key, value, ttl), now)];
      assert steps[..|steps| - 1] == before;
    }

    method Delete(key: Key, ghost now: int)
      requires Valid()
      modifies this`steps, shards
      ensures Valid() && steps == old(steps) + [Timed(Op.Delete(key), now)]
    {
      var i := GetShard(key);
      shards[i] := shards[i] - {key};
      ghost var before := steps;
      steps := steps + [Timed(Op.Delete(key), now)];
      assert steps[..|steps| - 1] == before;
    }
  }
}
