/** Insertion-ordered dictionaries with the semantics of a Ruby Hash: every key
    keeps the slot where it was first stored, storing an existing key replaces
    its value in that slot, and iteration follows the slots. */
module OrderedMap {
  import opened Wrappers

  datatype RawHash<K, V> = RawHash(keys: seq<K>, entries: map<K, V>)

  /** `keys` lists every key of `entries` exactly once. */
  ghost predicate WellFormed<K, V>(h: RawHash<K, V>) {
    && (forall i, j | 0 <= i < j < |h.keys| :: h.keys[i] != h.keys[j])
    && h.entries.Keys == (set k | k in h.keys)
  }

  type Hash<K, V> = h: RawHash<K, V> | WellFormed(h) witness RawHash([], map[])

  function Empty<K, V>(): (h: Hash<K, V>)
    ensures |h.keys| == 0 && |h.entries| == 0
  {
    RawHash([], map[])
  }

  /** `h[k]`: the value stored under `k`, or None (nil). */
  function Get<K, V>(h: Hash<K, V>, k: K): (r: Option<V>)
    ensures r.Some? <==> k in h.keys
  {
    if k in h.entries then Some(h.entries[k]) else None
  }

  /** `h[k] = v`: a new key goes to the end, an existing key keeps its slot. */
  function Put<K, V>(h: Hash<K, V>, k: K, v: V): (r: Hash<K, V>)
    ensures r.entries == h.entries[k := v]
    ensures k in h.keys ==> r.keys == h.keys
    ensures k !in h.keys ==> r.keys == h.keys + [k]
  {
    if k in h.entries then RawHash(h.keys, h.entries[k := v])
    else RawHash(h.keys + [k], h.entries[k := v])
  }

  /** The slot of a key never moves once it is stored. */
  lemma PutKeepsSlots<K, V>(h: Hash<K, V>, k: K, v: V, i: nat)
    requires i < |h.keys|
    ensures i < |Put(h, k, v).keys| && Put(h, k, v).keys[i] == h.keys[i]
  {
  }

  /** Every listed key is stored. */
  lemma KeyStored<K, V>(h: Hash<K, V>, i: nat)
    requires i < |h.keys|
    ensures h.keys[i] in h.entries
  {
  }

  /** A key occurs in the slots from `i` on iff it is in slot `i` or in the
      slots after it. */
  lemma SlotsFrom<K, V>(h: Hash<K, V>, i: nat, k: K)
    requires i < |h.keys|
    ensures k in h.keys[i..] <==> h.keys[i] == k || k in h.keys[i + 1..]
  {
    assert h.keys[i..] == [h.keys[i]] + h.keys[i + 1..];
  }

  /** A key occurs in one slot only. */
  lemma SlotUnique<K, V>(h: Hash<K, V>, i: nat)
    requires i < |h.keys|
    ensures h.keys[i] !in h.keys[i + 1..]
  {
    forall j | i + 1 <= j < |h.keys| ensures h.keys[j] != h.keys[i] {
    }
  }

  /** No key occurs in a slot before its own. */
  lemma SlotFirst<K, V>(h: Hash<K, V>, i: nat)
    requires i < |h.keys|
    ensures h.keys[i] !in h.keys[..i]
  {
    forall j | 0 <= j < i ensures h.keys[j] != h.keys[i] {
    }
  }

  /** Storing twice under one key is storing the second value. */
  lemma PutTwice<K, V>(h: Hash<K, V>, k: K, a: V, b: V)
    ensures Put(Put(h, k, a), k, b) == Put(h, k, b)
  {
  }

  /** Writing the entries of `ms[0]`, then `ms[1]`, ... into `out`, one
      `out[k] = v` at a time: a later write to a key replaces an earlier one. */
  function Overlay<K, V>(out: map<K, V>, ms: seq<map<K, V>>): map<K, V>
    decreases |ms|
  {
    if ms == [] then out else Overlay(out, ms[..|ms| - 1]) + ms[|ms| - 1]
  }

  /** A key is written iff it was already there or some map writes it. */
  lemma {:induction false} OverlayKeys<K, V>(out: map<K, V>, ms: seq<map<K, V>>, k: K)
    ensures k in Overlay(out, ms) <==> k in out || exists j | 0 <= j < |ms| :: k in ms[j]
    decreases |ms|
  {
    if ms != [] {
      var init := ms[..|ms| - 1];
      OverlayKeys(out, init, k);
      if exists j | 0 <= j < |ms| :: k in ms[j] {
        var j :| 0 <= j < |ms| && k in ms[j];
        if j < |ms| - 1 {
          assert init[j] == ms[j];
        }
      }
      if exists j | 0 <= j < |init| :: k in init[j] {
        var j :| 0 <= j < |init| && k in init[j];
        assert ms[j] == init[j];
      }
    }
  }

  /** The last map that writes a key decides its value. */
  lemma {:induction false} OverlayLastWriter<K, V>(out: map<K, V>, ms: seq<map<K, V>>, j: nat, k: K)
    requires j < |ms| && k in ms[j]
    requires forall i | j < i < |ms| :: k !in ms[i]
    ensures k in Overlay(out, ms) && Overlay(out, ms)[k] == ms[j][k]
    decreases |ms|
  {
    if j < |ms| - 1 {
      var init := ms[..|ms| - 1];
      assert init[j] == ms[j];
      OverlayLastWriter(out, init, j, k);
    }
  }

  /** A key that no map writes keeps its value. */
  lemma {:induction false} OverlayUntouched<K, V>(out: map<K, V>, ms: seq<map<K, V>>, k: K)
    requires k in out
    requires forall i | 0 <= i < |ms| :: k !in ms[i]
    ensures k in Overlay(out, ms) && Overlay(out, ms)[k] == out[k]
    decreases |ms|
  {
    if ms != [] {
      var init := ms[..|ms| - 1];
      assert forall i | 0 <= i < |init| :: init[i] == ms[i];
      OverlayUntouched(out, init, k);
    }
  }

  /** Writing into `out` is writing into an empty map and laying the result
      over `out`. */
  lemma {:induction false} OverlayOver<K, V>(out: map<K, V>, ms: seq<map<K, V>>)
    ensures Overlay(out, ms) == out + Overlay(map[], ms)
    decreases |ms|
  {
    if ms != [] {
      OverlayOver(out, ms[..|ms| - 1]);
    }
  }

  /** Storing the pairs of `kvs` into `h` in order, one `h[k] = v` at a time. */
  function PutAll<K, V>(h: Hash<K, V>, kvs: seq<(K, V)>): Hash<K, V>
    decreases |kvs|
  {
    if kvs == [] then h else Put(PutAll(h, kvs[..|kvs| - 1]), kvs[|kvs| - 1].0, kvs[|kvs| - 1].1)
  }

  /** The last pair that stores a key decides its value. */
  lemma {:induction false} PutAllLastWriter<K, V>(h: Hash<K, V>, kvs: seq<(K, V)>, j: nat)
    requires j < |kvs|
    requires forall i | j < i < |kvs| :: kvs[i].0 != kvs[j].0
    ensures kvs[j].0 in PutAll(h, kvs).entries && PutAll(h, kvs).entries[kvs[j].0] == kvs[j].1
    decreases |kvs|
  {
    if j < |kvs| - 1 {
      var init := kvs[..|kvs| - 1];
      assert init[j] == kvs[j];
      PutAllLastWriter(h, init, j);
    }
  }

  /** Stored into an empty hash, pairs with distinct keys take one slot each,
      in order. */
  lemma {:induction false} PutAllSlots<K, V>(kvs: seq<(K, V)>)
    requires forall a, b | 0 <= a < b < |kvs| :: kvs[a].0 != kvs[b].0
    ensures |PutAll(Empty(), kvs).keys| == |kvs|
    ensures forall j | 0 <= j < |kvs| :: PutAll(Empty(), kvs).keys[j] == kvs[j].0
    decreases |kvs|
  {
    if kvs != [] {
      var init := kvs[..|kvs| - 1];
      PutAllSlots(init);
      var prev := PutAll(Empty(), init);
      var k := kvs[|kvs| - 1].0;
      assert k !in prev.keys by {
        forall j | 0 <= j < |init| ensures prev.keys[j] != k {
          assert init[j] == kvs[j];
        }
      }
    }
  }

  /** A pair whose key is already stored takes no new slot. */
  lemma PutAllReuses<K, V>(h: Hash<K, V>, kvs: seq<(K, V)>)
    requires kvs != [] && kvs[|kvs| - 1].0 in PutAll(h, kvs[..|kvs| - 1]).keys
    ensures PutAll(h, kvs).keys == PutAll(h, kvs[..|kvs| - 1]).keys
  {
  }

  /** Storing a single pair is one `h[k] = v`. */
  lemma PutAllOne<K, V>(h: Hash<K, V>, kvs: seq<(K, V)>)
    requires |kvs| == 1
    ensures PutAll(h, kvs) == Put(h, kvs[0].0, kvs[0].1)
  {
    assert kvs[..0] == [];
  }

  /** The rest of a left-to-right pass that lays `ms[i..]` over `out`. */
  function OverlayFrom<K, V>(out: map<K, V>, ms: seq<map<K, V>>, i: nat): map<K, V>
    requires i <= |ms|
    decreases |ms| - i
  {
    if i == |ms| then out else OverlayFrom(out + ms[i], ms, i + 1)
  }

  /** A pass that has written `ms[..i]` and then writes the rest has written
      all of `ms`. */
  lemma {:induction false} OverlayFromAll<K, V>(out: map<K, V>, ms: seq<map<K, V>>, i: nat)
    requires i <= |ms|
    ensures OverlayFrom(Overlay(out, ms[..i]), ms, i) == Overlay(out, ms)
    decreases |ms| - i
  {
    if i == |ms| {
      assert ms[..i] == ms;
    } else {
      assert ms[..i + 1][..i] == ms[..i];
      OverlayFromAll(out, ms, i + 1);
    }
  }

  /** The rest of a left-to-right pass that stores `kvs[i..]` into `h`. */
  function PutFrom<K, V>(h: Hash<K, V>, kvs: seq<(K, V)>, i: nat): Hash<K, V>
    requires i <= |kvs|
    decreases |kvs| - i
  {
    if i == |kvs| then h else PutFrom(Put(h, kvs[i].0, kvs[i].1), kvs, i + 1)
  }

  /** A pass that has stored `kvs[..i]` and then stores the rest has stored
      all of `kvs`. */
  lemma {:induction false} PutFromAll<K, V>(h: Hash<K, V>, kvs: seq<(K, V)>, i: nat)
    requires i <= |kvs|
    ensures PutFrom(PutAll(h, kvs[..i]), kvs, i) == PutAll(h, kvs)
    decreases |kvs| - i
  {
    if i == |kvs| {
      assert kvs[..i] == kvs;
    } else {
      assert kvs[..i + 1][..i] == kvs[..i];
      PutFromAll(h, kvs, i + 1);
    }
  }

  /** A pass from the start writes all of `ms`. */
  lemma OverlayFromStart<K, V>(out: map<K, V>, ms: seq<map<K, V>>)
    ensures OverlayFrom(out, ms, 0) == Overlay(out, ms)
  {
    assert ms[..0] == [];
    OverlayFromAll(out, ms, 0);
  }

  /** A pass from the start stores all of `kvs`. */
  lemma PutFromStart<K, V>(h: Hash<K, V>, kvs: seq<(K, V)>)
    ensures PutFrom(h, kvs, 0) == PutAll(h, kvs)
  {
    assert kvs[..0] == [];
    PutFromAll(h, kvs, 0);
  }
}
