/** The counter table and ingestion: `emit` folds a batch record by record
    into a local `group_key => accumulator` table, and `summarize_counts`
    merges that table into `@counts[scope]`. */
module Tables {
  import opened Wrappers
  import opened OrderedMap
  import opened Stats
  import opened Settings
  import opened GroupKeys

  /** `group_key => accumulator`, for one scope. */
  type Scope = Hash<string, Acc>

  /** `scope => group_key => accumulator`: `@counts`. */
  type Table = Hash<string, Scope>

  /** One `(time, record)` pair of an event stream. */
  datatype Event = Event(time: int, record: Record)

  /** What the record gives for one configured statistic: nothing (option
      unset, field missing, nil or false), a number, or a value whose `to_f`
      raises. */
  datatype Reading = Absent | Number(x: real) | NotNumeric

  function ReadingOf(key: Option<string>, record: Record): Reading {
    if key.None? || key.value !in record || !Truthy(record[key.value]) then Absent
    else if record[key.value].number.Some? then Number(record[key.value].number.value)
    else NotNumeric
  }

  function AsStat(r: Reading): Option<real> {
    if r.Number? then Some(r.x) else None
  }

  function TrackedOf(cfg: Config): Tracked {
    Tracked(cfg.avgKey.Some?, cfg.maxKey.Some?, cfg.minKey.Some?)
  }

  /** The one-record accumulator `count` that `emit` builds; None when a
      `to_f` raises. */
  function Delta(cfg: Config, record: Record): (r: Option<Acc>)
    ensures r.None? <==> NotNumeric in {ReadingOf(cfg.avgKey, record), ReadingOf(cfg.maxKey, record), ReadingOf(cfg.minKey, record)}
    ensures r.Some? ==> r.value.count == 1 && Conforms(TrackedOf(cfg), r.value)
    ensures r.Some? ==> r.value.sum == AsStat(ReadingOf(cfg.avgKey, record))
    ensures r.Some? ==> r.value.max == AsStat(ReadingOf(cfg.maxKey, record))
    ensures r.Some? ==> r.value.min == AsStat(ReadingOf(cfg.minKey, record))
  {
    var sum := ReadingOf(cfg.avgKey, record);
    var max := ReadingOf(cfg.maxKey, record);
    var min := ReadingOf(cfg.minKey, record);
    if sum.NotNumeric? || max.NotNumeric? || min.NotNumeric? then None
    else Some(Acc(1, AsStat(sum), AsStat(max), AsStat(min)))
  }

  /** `h[k] ||= {}`: the stored accumulator, or a fresh one. */
  function Lookup(h: Scope, k: string): Acc {
    Get(h, k).GetOr(Fresh)
  }

  /** The local table that folding `batch` into `acc` builds; None when some
      record raises, which drops the whole batch. */
  function Tally(cfg: Config, env: Env, tag: string, batch: seq<Event>, acc: Scope): Option<Scope>
    decreases |batch|
  {
    if batch == [] then Some(acc)
    else
      var d := Delta(cfg, batch[0].record);
      var k := GroupKey(cfg, env, tag, batch[0].time, batch[0].record);
      if d.None? || k.None? then None
      else Tally(cfg, env, tag, batch[1..], Put(acc, k.value, CountUp(TrackedOf(cfg), Lookup(acc, k.value), d.value)))
  }

  /** The number of records of `batch` whose group key is `g`. */
  function Occurrences(cfg: Config, env: Env, tag: string, batch: seq<Event>, g: string): nat
    decreases |batch|
  {
    if batch == [] then 0
    else (if GroupKey(cfg, env, tag, batch[0].time, batch[0].record) == Some(g) then 1 else 0)
         + Occurrences(cfg, env, tag, batch[1..], g)
  }

  /** The `max_key` readings of the records of `batch` whose group key is
      `g`, folded into `m` with the `max` helper. */
  function MaxOfReadings(cfg: Config, env: Env, tag: string, batch: seq<Event>, g: string, m: Option<real>): Option<real>
    decreases |batch|
  {
    if batch == [] then m
    else
      var m' := if GroupKey(cfg, env, tag, batch[0].time, batch[0].record) == Some(g)
                then MaxOf(m, AsStat(ReadingOf(cfg.maxKey, batch[0].record))) else m;
      MaxOfReadings(cfg, env, tag, batch[1..], g, m')
  }

  /** The `min_key` readings of the records of `batch` whose group key is
      `g`, folded into `m` with the `min` helper. */
  function MinOfReadings(cfg: Config, env: Env, tag: string, batch: seq<Event>, g: string, m: Option<real>): Option<real>
    decreases |batch|
  {
    if batch == [] then m
    else
      var m' := if GroupKey(cfg, env, tag, batch[0].time, batch[0].record) == Some(g)
                then MinOf(m, AsStat(ReadingOf(cfg.minKey, batch[0].record))) else m;
      MinOfReadings(cfg, env, tag, batch[1..], g, m')
  }

  /** A reading added to a sum, nil counting as 0; no reading leaves the sum
      as it was. */
  function AddReading(s: Option<real>, x: Option<real>): Option<real> {
    if x.Some? then Some(SumOf(s, x)) else s
  }

  /** Merging a delta adds its sum reading, when it is configured. */
  lemma CountUpSum(t: Tracked, a: Acc, d: Acc)
    requires d.sum.Some? ==> t.avg
    ensures CountUp(t, a, d).sum == AddReading(a.sum, d.sum)
  {
  }

  /** The `avg_key` readings of the records of `batch` whose group key is
      `g`, added to `s`; None while no record has a reading. */
  function SumOfReadings(cfg: Config, env: Env, tag: string, batch: seq<Event>, g: string, s: Option<real>): Option<real>
    decreases |batch|
  {
    if batch == [] then s
    else
      var s' := if GroupKey(cfg, env, tag, batch[0].time, batch[0].record) == Some(g)
                then AddReading(s, AsStat(ReadingOf(cfg.avgKey, batch[0].record))) else s;
      SumOfReadings(cfg, env, tag, batch[1..], g, s')
  }

  /** A record of the batch whose statistics or group key raise. */
  predicate Raises(cfg: Config, env: Env, tag: string, e: Event) {
    Delta(cfg, e.record).None? || GroupKey(cfg, env, tag, e.time, e.record).None?
  }

  /** Some record of a non-empty batch raises iff its first record does or
      some record of the rest does. */
  lemma RaisesHeadOrTail(cfg: Config, env: Env, tag: string, batch: seq<Event>)
    requires batch != []
    ensures (exists i | 0 <= i < |batch| :: Raises(cfg, env, tag, batch[i]))
            <==> Raises(cfg, env, tag, batch[0]) || exists i | 0 <= i < |batch[1..]| :: Raises(cfg, env, tag, batch[1..][i])
  {
    if exists i | 0 <= i < |batch| :: Raises(cfg, env, tag, batch[i]) {
      var i :| 0 <= i < |batch| && Raises(cfg, env, tag, batch[i]);
      if i > 0 {
        assert batch[1..][i - 1] == batch[i];
      }
    }
    if exists i | 0 <= i < |batch[1..]| :: Raises(cfg, env, tag, batch[1..][i]) {
      var i :| 0 <= i < |batch[1..]| && Raises(cfg, env, tag, batch[1..][i]);
      assert batch[i + 1] == batch[1..][i];
    }
  }

  /** The batch is dropped exactly when one of its records raises. */
  lemma {:induction false} TallyDrops(cfg: Config, env: Env, tag: string, batch: seq<Event>, acc: Scope)
    ensures Tally(cfg, env, tag, batch, acc).None? <==> exists i | 0 <= i < |batch| :: Raises(cfg, env, tag, batch[i])
    decreases |batch|
  {
    if batch != [] {
      var d := Delta(cfg, batch[0].record);
      var k := GroupKey(cfg, env, tag, batch[0].time, batch[0].record);
      if d.Some? && k.Some? {
        var next := Put(acc, k.value, CountUp(TrackedOf(cfg), Lookup(acc, k.value), d.value));
        TallyDrops(cfg, env, tag, batch[1..], next);
      }
      RaisesHeadOrTail(cfg, env, tag, batch);
    }
  }

  /** Each record counts 1: folding a batch raises the count of group `g` by
      the number of its records with key `g`, and creates `g` only if such a
      record exists. */
  lemma {:induction false} TallyCounts(cfg: Config, env: Env, tag: string, batch: seq<Event>, acc: Scope, g: string)
    requires Tally(cfg, env, tag, batch, acc).Some?
    ensures var s := Tally(cfg, env, tag, batch, acc).value;
            && Lookup(s, g).count == Lookup(acc, g).count + Occurrences(cfg, env, tag, batch, g)
            && (g in s.keys <==> g in acc.keys || Occurrences(cfg, env, tag, batch, g) > 0)
    decreases |batch|
  {
    if batch != [] {
      var d := Delta(cfg, batch[0].record).value;
      var k := GroupKey(cfg, env, tag, batch[0].time, batch[0].record).value;
      var next := Put(acc, k, CountUp(TrackedOf(cfg), Lookup(acc, k), d));
      TallyCounts(cfg, env, tag, batch[1..], next, g);
    }
  }

  /** A nil operand of the `max` and `min` helpers changes nothing. */
  lemma NilLoses(a: Option<real>)
    ensures MaxOf(a, None) == a && MinOf(a, None) == a
  {
  }

  /** One step of the record loop, seen from group `g`: the first record's
      delta is merged into `g` when its key is `g`, and `g` is untouched
      otherwise. */
  lemma TallyHead(cfg: Config, env: Env, tag: string, batch: seq<Event>, acc: Scope, g: string)
      returns (d: Acc, next: Scope)
    requires batch != [] && Tally(cfg, env, tag, batch, acc).Some?
    ensures Delta(cfg, batch[0].record) == Some(d)
    ensures Tally(cfg, env, tag, batch, acc) == Tally(cfg, env, tag, batch[1..], next)
    ensures GroupKey(cfg, env, tag, batch[0].time, batch[0].record) == Some(g) ==>
              Lookup(next, g) == CountUp(TrackedOf(cfg), Lookup(acc, g), d)
    ensures GroupKey(cfg, env, tag, batch[0].time, batch[0].record) != Some(g) ==> Lookup(next, g) == Lookup(acc, g)
  {
    d := Delta(cfg, batch[0].record).value;
    var k := GroupKey(cfg, env, tag, batch[0].time, batch[0].record).value;
    next := Put(acc, k, CountUp(TrackedOf(cfg), Lookup(acc, k), d));
  }

  /** After a batch, group `g`'s sum is its records' `avg_key` readings added
      to what it held. */
  lemma {:induction false} TallySum(cfg: Config, env: Env, tag: string, batch: seq<Event>, acc: Scope, g: string)
    requires Tally(cfg, env, tag, batch, acc).Some?
    ensures Lookup(Tally(cfg, env, tag, batch, acc).value, g).sum == SumOfReadings(cfg, env, tag, batch, g, Lookup(acc, g).sum)
    decreases |batch|
  {
    if batch != [] {
      var d, next := TallyHead(cfg, env, tag, batch, acc, g);
      CountUpSum(TrackedOf(cfg), Lookup(acc, g), d);
      TallySum(cfg, env, tag, batch[1..], next, g);
    }
  }

  /** After a batch, group `g`'s max is the `max` helper folded over its
      records' `max_key` readings, from what it held. */
  lemma {:induction false} TallyMax(cfg: Config, env: Env, tag: string, batch: seq<Event>, acc: Scope, g: string)
    requires Tally(cfg, env, tag, batch, acc).Some?
    ensures Lookup(Tally(cfg, env, tag, batch, acc).value, g).max == MaxOfReadings(cfg, env, tag, batch, g, Lookup(acc, g).max)
    decreases |batch|
  {
    if batch != [] {
      var d, next := TallyHead(cfg, env, tag, batch, acc, g);
      NilLoses(Lookup(acc, g).max);
      TallyMax(cfg, env, tag, batch[1..], next, g);
    }
  }

  /** After a batch, group `g`'s min is the `min` helper folded over its
      records' `min_key` readings, from what it held. */
  lemma {:induction false} TallyMin(cfg: Config, env: Env, tag: string, batch: seq<Event>, acc: Scope, g: string)
    requires Tally(cfg, env, tag, batch, acc).Some?
    ensures Lookup(Tally(cfg, env, tag, batch, acc).value, g).min == MinOfReadings(cfg, env, tag, batch, g, Lookup(acc, g).min)
    decreases |batch|
  {
    if batch != [] {
      var d, next := TallyHead(cfg, env, tag, batch, acc, g);
      NilLoses(Lookup(acc, g).min);
      TallyMin(cfg, env, tag, batch[1..], next, g);
    }
  }

  /** Accumulators built from records carry only configured statistics. */
  lemma {:induction false} TallyConforms(cfg: Config, env: Env, tag: string, batch: seq<Event>, acc: Scope)
    requires Tally(cfg, env, tag, batch, acc).Some?
    requires forall k | k in acc.entries :: Conforms(TrackedOf(cfg), acc.entries[k])
    ensures var s := Tally(cfg, env, tag, batch, acc).value;
            forall k | k in s.entries :: Conforms(TrackedOf(cfg), s.entries[k])
    decreases |batch|
  {
    if batch != [] {
      var d := Delta(cfg, batch[0].record).value;
      var k := GroupKey(cfg, env, tag, batch[0].time, batch[0].record).value;
      var t := TrackedOf(cfg);
      CountUpConforms(t, Lookup(acc, k), d);
      var next := Put(acc, k, CountUp(t, Lookup(acc, k), d));
      TallyConforms(cfg, env, tag, batch[1..], next);
    }
  }

  /** The record loop of `emit`, building the local `group_counts`. */
  method BatchCounts(cfg: Config, env: Env, tag: string, batch: seq<Event>) returns (r: Option<Scope>)
    ensures r == Tally(cfg, env, tag, batch, Empty())
  {
    var groupCounts: Scope := Empty();
    var i := 0;
    while i < |batch|
      invariant 0 <= i <= |batch|
      invariant Tally(cfg, env, tag, batch[i..], groupCounts) == Tally(cfg, env, tag, batch, Empty())
    {
      var e := batch[i];
      assert batch[i..][0] == e && batch[i..][1..] == batch[i + 1..];
      var count := Delta(cfg, e.record);
      if count.None? {
        return None;
      }
      var groupKey := ComputeGroupKey(cfg, env, tag, e.time, e.record);
      if groupKey.None? {
        return None;
      }
      groupCounts := Put(groupCounts, groupKey.value, CountUp(TrackedOf(cfg), Lookup(groupCounts, groupKey.value), count.value));
      i := i + 1;
    }
    assert batch[i..] == [];
    return Some(groupCounts);
  }

  /** The scope a batch lands in: its tag, or `'all'` under aggregate all. */
  function ScopeOf(cfg: Config, tag: string): (s: string)
    ensures cfg.aggregate == All ==> s == "all"
    ensures cfg.aggregate == ByTag ==> s == tag
  {
    if cfg.aggregate == All then "all" else tag
  }

  /** The scope after the merge loop of `summarize_counts` has handled the
      groups from slot `i` on. */
  function MergeFrom(t: Tracked, cur: Scope, groups: Scope, i: nat): Scope
    requires i <= |groups.keys|
    decreases |groups.keys| - i
  {
    if i == |groups.keys| then cur
    else
      var g := groups.keys[i];
      KeyStored(groups, i);
      MergeFrom(t, Put(cur, g, CountUp(t, Lookup(cur, g), groups.entries[g])), groups, i + 1)
  }

  /** The scope that `summarize_counts` leaves, and the table holding it. */
  function Summarize(cfg: Config, table: Table, tag: string, groups: Scope): Table {
    var s := ScopeOf(cfg, tag);
    Put(table, s, MergeFrom(TrackedOf(cfg), Get(table, s).GetOr(Empty()), groups, 0))
  }

  /** The merge folds every batch group into the stored one and leaves the
      other groups alone. */
  lemma {:induction false} MergeFromEntry(t: Tracked, cur: Scope, groups: Scope, i: nat, g: string)
    requires i <= |groups.keys|
    ensures g in groups.keys[i..] ==> Get(MergeFrom(t, cur, groups, i), g) == Some(CountUp(t, Lookup(cur, g), groups.entries[g]))
    ensures g !in groups.keys[i..] ==> Get(MergeFrom(t, cur, groups, i), g) == Get(cur, g)
    decreases |groups.keys| - i
  {
    if i < |groups.keys| {
      var h := groups.keys[i];
      KeyStored(groups, i);
      var next := Put(cur, h, CountUp(t, Lookup(cur, h), groups.entries[h]));
      MergeFromEntry(t, next, groups, i + 1, g);
      SlotsFrom(groups, i, g);
      SlotUnique(groups, i);
    }
  }

  /** Merging into a scope that already holds exactly the groups before
      slot `i`, in their order, leaves the groups in the batch's order. */
  lemma {:induction false} MergeFromSlots(t: Tracked, cur: Scope, groups: Scope, i: nat)
    requires i <= |groups.keys|
    requires cur.keys == groups.keys[..i]
    ensures MergeFrom(t, cur, groups, i).keys == groups.keys
    decreases |groups.keys| - i
  {
    if i < |groups.keys| {
      var g := groups.keys[i];
      KeyStored(groups, i);
      SlotFirst(groups, i);
      var next := Put(cur, g, CountUp(t, Lookup(cur, g), groups.entries[g]));
      assert groups.keys[..i + 1] == groups.keys[..i] + [g];
      MergeFromSlots(t, next, groups, i + 1);
    } else {
      assert groups.keys[..i] == groups.keys;
    }
  }

  /** A batch whose accumulators carry only configured statistics, merged
      into a scope that does not exist yet, is stored as it is. */
  lemma MergeIntoEmpty(t: Tracked, groups: Scope)
    requires forall k | k in groups.entries :: Conforms(t, groups.entries[k])
    ensures MergeFrom(t, Empty(), groups, 0) == groups
  {
    var m := MergeFrom(t, Empty(), groups, 0);
    assert groups.keys[..0] == [];
    MergeFromSlots(t, Empty(), groups, 0);
    assert groups.keys[0..] == groups.keys;
    forall g | g in groups.entries
      ensures g in m.entries && m.entries[g] == groups.entries[g]
    {
      MergeFromEntry(t, Empty(), groups, 0, g);
      FreshIsNeutral(t, groups.entries[g]);
    }
    assert m.entries == groups.entries;
  }

  /** The count of group `g` in scope `s`; 0 when either is missing. */
  function CountIn(table: Table, s: string, g: string): int {
    if s in table.entries then Lookup(table.entries[s], g).count else 0
  }

  /** Ingesting a batch changes only its scope, and there only the groups
      that occur in the batch: each one's count grows by its number of
      records. */
  lemma IngestCounts(cfg: Config, env: Env, tag: string, batch: seq<Event>, table: Table, s: string, g: string)
    requires Tally(cfg, env, tag, batch, Empty()).Some?
    ensures var after := Summarize(cfg, table, tag, Tally(cfg, env, tag, batch, Empty()).value);
            && CountIn(after, s, g) == CountIn(table, s, g) + (if s == ScopeOf(cfg, tag) then Occurrences(cfg, env, tag, batch, g) else 0)
            && (s != ScopeOf(cfg, tag) ==> Get(after, s) == Get(table, s))
            && (s == ScopeOf(cfg, tag) && Occurrences(cfg, env, tag, batch, g) == 0 ==>
                  Get(after.entries[s], g) == Get(Get(table, s).GetOr(Empty()), g))
  {
    var groups := Tally(cfg, env, tag, batch, Empty()).value;
    TallyCounts(cfg, env, tag, batch, Empty(), g);
    var sc := ScopeOf(cfg, tag);
    var cur := Get(table, sc).GetOr(Empty());
    MergeFromEntry(TrackedOf(cfg), cur, groups, 0, g);
    assert groups.keys[0..] == groups.keys;
    if g in groups.keys {
      KeyStored(groups, 0);
      assert Lookup(groups, g) == groups.entries[g];
    }
  }

  /** Under aggregate all, two batches from different tags land in the one
      scope `'all'`, whose counts add up over both. */
  lemma AggregateAllAddsUp(cfg: Config, env: Env, tag1: string, batch1: seq<Event>, tag2: string, batch2: seq<Event>, table: Table, g: string)
    requires cfg.aggregate == All
    requires Tally(cfg, env, tag1, batch1, Empty()).Some? && Tally(cfg, env, tag2, batch2, Empty()).Some?
    ensures var mid := Summarize(cfg, table, tag1, Tally(cfg, env, tag1, batch1, Empty()).value);
            var after := Summarize(cfg, mid, tag2, Tally(cfg, env, tag2, batch2, Empty()).value);
            CountIn(after, "all", g) == CountIn(table, "all", g) + Occurrences(cfg, env, tag1, batch1, g) + Occurrences(cfg, env, tag2, batch2, g)
  {
    var mid := Summarize(cfg, table, tag1, Tally(cfg, env, tag1, batch1, Empty()).value);
    IngestCounts(cfg, env, tag1, batch1, table, "all", g);
    IngestCounts(cfg, env, tag2, batch2, mid, "all", g);
  }
}
