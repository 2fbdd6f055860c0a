/** The chained hash table that maps note names to MIDI numbers: 100
    buckets, each a chain of (key, value) entries, new keys appended at
    the end of their bucket's chain. A bucket's chain is kept as a
    sequence of entries that `Set` replaces. */
module Hash {

  const TABLE_SIZE: nat := 100

  /** `unsigned long` has 32 bits on the Windows target the project is built for. */
  const ULONG_RANGE: nat := 0x1_0000_0000

  /** The value a `char` of the key contributes: its low byte read as a
      signed `char`. */
  function SignedChar(c: char): int
  {
    var b := (c as int) % 256;
    if b < 128 then b else b - 256
  }

  /** The multiply-by-37 accumulation over `key`, wrapping like `unsigned long`. */
  function Accumulate(key: string): (v: nat)
    ensures v < ULONG_RANGE
  {
    if key == [] then 0
    else (Accumulate(key[..|key| - 1]) * 37 + SignedChar(key[|key| - 1])) % ULONG_RANGE
  }

  /** The bucket a key belongs to. */
  function Slot(key: string): (s: nat)
    ensures s < TABLE_SIZE
  {
    Accumulate(key) % TABLE_SIZE
  }

  /** `hash`: the loop over the key's characters, then the reduction to a bucket. */
  method HashKey(key: string) returns (slot: nat)
    ensures slot < TABLE_SIZE
    ensures slot == Slot(key)
  {
    var value: nat := 0;
    var i := 0;
    while i < |key|
      invariant 0 <= i <= |key|
      invariant value == Accumulate(key[..i])
    {
      assert key[..i + 1][..i] == key[..i];
      value := (value * 37 + SignedChar(key[i])) % ULONG_RANGE;
      i := i + 1;
    }
    assert key[..|key|] == key;
    slot := value % TABLE_SIZE;
  }

  datatype Entry = Entry(key: string, value: int)

  /** Position of the first entry with `key` in `chain`, or `|chain|`. */
  function Find(chain: seq<Entry>, key: string): (i: nat)
    ensures i <= |chain|
    ensures forall k :: 0 <= k < i ==> chain[k].key != key
    ensures i < |chain| ==> chain[i].key == key
  {
    if chain == [] then 0
    else if chain[0].key == key then 0
    else 1 + Find(chain[1..], key)
  }

  /** What a lookup in one chain answers: the first matching entry's value,
      and 0 (`NULL`) on a miss. */
  function ChainGet(chain: seq<Entry>, key: string): int
  {
    var i := Find(chain, key);
    if i < |chain| then chain[i].value else 0
  }

  /** What an insertion does to one chain: overwrite the matching entry in
      place, or append a new entry at the end. */
  function ChainSet(chain: seq<Entry>, key: string, value: int): seq<Entry>
  {
    var i := Find(chain, key);
    if i < |chain| then chain[i := Entry(key, value)] else chain + [Entry(key, value)]
  }

  ghost predicate UniqueKeys(chain: seq<Entry>)
  {
    forall a, b :: 0 <= a < b < |chain| ==> chain[a].key != chain[b].key
  }

  /** After an insertion the key reads back its new value, the chain
      grows by one entry exactly when the key was absent, every other
      entry stays where it was, and keys stay unique. */
  lemma {:induction false} ChainSetSelf(chain: seq<Entry>, key: string, value: int)
    ensures Find(ChainSet(chain, key, value), key) < |ChainSet(chain, key, value)|
    ensures ChainGet(ChainSet(chain, key, value), key) == value
    ensures |ChainSet(chain, key, value)| == |chain| + (if Find(chain, key) < |chain| then 0 else 1)
    ensures forall k :: 0 <= k < |ChainSet(chain, key, value)| ==>
      ChainSet(chain, key, value)[k].key == key || (k < |chain| && ChainSet(chain, key, value)[k] == chain[k])
    ensures UniqueKeys(chain) ==> UniqueKeys(ChainSet(chain, key, value))
  {
    var i := Find(chain, key);
    FindIsFirst(ChainSet(chain, key, value), key, i);
  }

  /** An insertion leaves every other key's lookup as it was. */
  lemma {:induction false} ChainSetOther(chain: seq<Entry>, key: string, value: int, other: string)
    requires other != key
    ensures ChainGet(ChainSet(chain, key, value), other) == ChainGet(chain, other)
    ensures (Find(ChainSet(chain, key, value), other) < |ChainSet(chain, key, value)|) == (Find(chain, other) < |chain|)
  {
    var i := Find(chain, key);
    var c' := ChainSet(chain, key, value);
    var j := Find(chain, other);
    if j < |chain| {
      assert j != i;
      FindIsFirst(c', other, j);
    } else {
      assert forall k :: 0 <= k < |c'| ==> c'[k].key != other;
      FindIsFirst(c', other, |c'|);
    }
  }

  /** `Find` returns the first index holding `key`. */
  lemma FindIsFirst(chain: seq<Entry>, key: string, i: nat)
    requires i <= |chain|
    requires forall k :: 0 <= k < i ==> chain[k].key != key
    requires i < |chain| ==> chain[i].key == key
    ensures Find(chain, key) == i
  {
  }

  /** Every entry sits in its key's bucket. */
  ghost predicate Placed(buckets: seq<seq<Entry>>)
  {
    forall b, k :: 0 <= b < |buckets| && 0 <= k < |buckets[b]| ==> Slot(buckets[b][k].key) == b
  }

  /** A key is in `m` exactly when its bucket holds it, with the value found there. */
  ghost predicate Agrees(buckets: seq<seq<Entry>>, m: map<string, int>)
    requires |buckets| == TABLE_SIZE
  {
    && (forall key {:trigger Find(buckets[Slot(key)], key)} :: key in m <==> Find(buckets[Slot(key)], key) < |buckets[Slot(key)]|)
    && (forall key {:trigger ChainGet(buckets[Slot(key)], key)} :: key in m ==> m[key] == ChainGet(buckets[Slot(key)], key))
  }

  /** The bucket array is consistent with the map `m`: every entry sits in
      its key's bucket, keys are unique in each chain, and a key is in `m`
      exactly when its bucket holds it, with the value found there. */
  ghost predicate Consistent(buckets: seq<seq<Entry>>, m: map<string, int>)
  {
    && |buckets| == TABLE_SIZE
    && Placed(buckets)
    && (forall b :: 0 <= b < TABLE_SIZE ==> UniqueKeys(buckets[b]))
    && Agrees(buckets, m)
  }

  /** One insertion keeps the bucket array consistent with the updated map. */
  lemma SetKeepsConsistent(before: seq<seq<Entry>>, m: map<string, int>, key: string, value: int)
    requires Consistent(before, m)
    ensures Consistent(before[Slot(key) := ChainSet(before[Slot(key)], key, value)], m[key := value])
  {
    var s := Slot(key);
    var after: seq<seq<Entry>> := before[s := ChainSet(before[s], key, value)];
    ChainSetSelf(before[s], key, value);
    SetKeepsPlaced(before, key, value);
    assert forall b :: 0 <= b < TABLE_SIZE ==> UniqueKeys(after[b]);
    SetKeepsAgreement(before, m, key, value);
  }

  lemma SetKeepsPlaced(before: seq<seq<Entry>>, key: string, value: int)
    requires |before| == TABLE_SIZE && Placed(before)
    ensures Placed(before[Slot(key) := ChainSet(before[Slot(key)], key, value)])
  {
    var s := Slot(key);
    var after: seq<seq<Entry>> := before[s := ChainSet(before[s], key, value)];
    ChainSetSelf(before[s], key, value);
    assert forall b: nat, k: nat :: b < TABLE_SIZE && k < |after[b]| ==> Slot(after[b][k].key) == b;
  }

  lemma SetKeepsAgreement(before: seq<seq<Entry>>, m: map<string, int>, key: string, value: int)
    requires |before| == TABLE_SIZE && Agrees(before, m)
    ensures Agrees(before[Slot(key) := ChainSet(before[Slot(key)], key, value)], m[key := value])
  {
    var s := Slot(key);
    var c: seq<Entry> := before[s];
    var after: seq<seq<Entry>> := before[s := ChainSet(c, key, value)];
    var m' := m[key := value];
    forall other
      ensures (other in m') <==> Find(after[Slot(other)], other) < |after[Slot(other)]|
      ensures other in m' ==> m'[other] == ChainGet(after[Slot(other)], other)
    {
      if other == key {
        ChainSetSelf(c, key, value);
      } else if Slot(other) == s {
        ChainSetOther(c, key, value, other);
      } else {
        assert after[Slot(other)] == before[Slot(other)];
      }
    }
  }

  class HashTable {
    const entries: array<seq<Entry>>

    /** The table's contents as a map from key to value. */
    ghost var M: map<string, int>

    ghost predicate Valid()
      reads this, entries
    {
      entries.Length == TABLE_SIZE && Consistent(entries[..], M)
    }

    /** `ht_create`: a table of 100 empty buckets. */
    constructor ()
      ensures Valid() && fresh(entries)
      ensures forall b :: 0 <= b < TABLE_SIZE ==> entries[b] == []
      ensures M == map[]
    {
      var a := new seq<Entry>[TABLE_SIZE];
      var i := 0;
      while i < TABLE_SIZE
        invariant 0 <= i <= TABLE_SIZE
        invariant forall b :: 0 <= b < i ==> a[b] == []
      {
        a[i] := [];
        i := i + 1;
      }
      entries := a;
      M := map[];
    }

    /** `ht_get`: the stored value, or 0 when the key's bucket is empty or
        holds no entry with that key. */
    method Get(key: string) returns (value: int)
      requires Valid()
      ensures value == (if key in M then M[key] else 0)
    {
      var slot := HashKey(key);
      var chain := entries[slot];
      if chain == [] {
        FindIsFirst(chain, key, 0);
        return 0;
      }
      var i := 0;
      while i < |chain|
        invariant 0 <= i <= |chain|
        invariant forall k :: 0 <= k < i ==> chain[k].key != key
      {
        if chain[i].key == key {
          FindIsFirst(chain, key, i);
          assert ChainGet(entries[Slot(key)], key) == chain[i].value;
          return chain[i].value;
        }
        i := i + 1;
      }
      FindIsFirst(chain, key, |chain|);
      return 0;
    }

    /** `ht_set`: overwrite the value of a key already in its bucket, or
        install a first entry in an empty bucket, or append to its chain. */
    method Set(key: string, value: int)
      requires Valid()
      modifies entries, this`M
      ensures Valid()
      ensures M == old(M)[key := value]
      ensures entries[Slot(key)] == ChainSet(old(entries[Slot(key)]), key, value)
      ensures forall b :: 0 <= b < TABLE_SIZE && b != Slot(key) ==> entries[b] == old(entries[b])
    {
      var slot := HashKey(key);
      var chain := entries[slot];
      if chain == [] {
        entries[slot] := [Entry(key, value)];
        assert chain + [Entry(key, value)] == [Entry(key, value)];
      } else {
        var i := 0;
        while i < |chain| && chain[i].key != key
          invariant 0 <= i <= |chain|
          invariant forall k :: 0 <= k < i ==> chain[k].key != key
        {
          i := i + 1;
        }
        FindIsFirst(chain, key, i);
        if i < |chain| {
          entries[slot] := chain[i := Entry(key, value)];
        } else {
          entries[slot] := chain + [Entry(key, value)];
        }
      }
      assert entries[slot] == ChainSet(chain, key, value);
      SetKeepsConsistent(old(entries[..]), M, key, value);
      M := M[key := value];
      assert entries[..] == old(entries[..])[slot := ChainSet(chain, key, value)];
    }
  }
}
