/** The request-log example the plugin's own tests use: four records grouped
    by `code,method,path`, counted without statistics or patterns. */
module Scenarios {
  import opened Wrappers
  import opened OrderedMap
  import opened Stats
  import opened Settings
  import opened GroupKeys
  import opened Tables
  import opened Output

  /** Grouped by code, method and path joined with `_`; no expression, no
      statistics, no patterns. */
  predicate SampleSettings(cfg: Config) {
    && cfg.groupByExpression.None?
    && cfg.groupByKeys == Some(["code", "method", "path"])
    && cfg.delimiter == "_"
    && cfg.avgKey.None? && cfg.maxKey.None? && cfg.minKey.None?
    && |cfg.patterns.keys| == 0
  }

  function Request(code: string, verb: string, path: string): Record {
    map["code" := Datum(code, None), "method" := Datum(verb, None), "path" := Datum(path, None)]
  }

  function SampleBatch(time: int): seq<Event> {
    [ Event(time, Request("200", "GET", "/ping")),
      Event(time, Request("200", "POST", "/auth")),
      Event(time, Request("200", "GET", "/ping")),
      Event(time, Request("400", "GET", "/ping")) ]
  }

  const One := Acc(1, None, None, None)

  /** A request's group key is its code, method and path joined with `_`. */
  lemma RequestKey(cfg: Config, env: Env, tag: string, time: int, code: string, verb: string, path: string)
    requires SampleSettings(cfg)
    ensures GroupKey(cfg, env, tag, time, Request(code, verb, path)) == Some(code + "_" + verb + "_" + path)
  {
    var vs := FieldValues(["code", "method", "path"], Request(code, verb, path));
    assert vs == [code, verb, path];
    assert vs[1..] == [verb, path] && vs[1..][1..] == [path];
    assert Text.Join(vs[1..], "_") == verb + "_" + path;
    var raw := FieldListKey(["code", "method", "path"], Request(code, verb, path), "_");
    assert raw == code + "_" + verb + "_" + path;
    assert Rewrite(env, cfg.patterns, raw) == raw;
  }

  /** A request counts one record with no statistics. */
  lemma RequestDelta(cfg: Config, code: string, verb: string, path: string)
    requires SampleSettings(cfg)
    ensures Delta(cfg, Request(code, verb, path)) == Some(One)
  {
    var r := Request(code, verb, path);
    assert ReadingOf(cfg.avgKey, r) == Absent;
    assert ReadingOf(cfg.maxKey, r) == Absent;
    assert ReadingOf(cfg.minKey, r) == Absent;
    assert AsStat(Absent) == None;
  }

  /** One step of the record loop of `emit` on a request of the sample. */
  lemma TallyStep(cfg: Config, env: Env, tag: string, b: seq<Event>, i: nat, acc: Scope, code: string, verb: string, path: string)
    requires SampleSettings(cfg)
    requires i < |b| && b[i].record == Request(code, verb, path)
    ensures var k := code + "_" + verb + "_" + path;
            Tally(cfg, env, tag, b[i..], acc) == Tally(cfg, env, tag, b[i + 1..], Put(acc, k, CountUp(TrackedOf(cfg), Lookup(acc, k), One)))
  {
    RequestKey(cfg, env, tag, b[i].time, code, verb, path);
    RequestDelta(cfg, code, verb, path);
    assert b[i..][0] == b[i] && b[i..][1..] == b[i + 1..];
  }

  const Ping := "200_GET_/ping"
  const Auth := "200_POST_/auth"
  const Bad := "400_GET_/ping"

  /** The local table after the first record of the sample. */
  function FirstOne(): Scope {
    Put(Empty(), Ping, One)
  }

  /** The local table after the first two records of the sample. */
  function FirstTwo(): Scope {
    Put(FirstOne(), Auth, One)
  }

  /** The local table after the first three records of the sample. */
  function FirstThree(): Scope {
    Put(FirstTwo(), Ping, Acc(2, None, None, None))
  }

  /** The local table the sample batch builds: `200_GET_/ping` seen twice,
      the other two keys once, in first-seen order. */
  function SampleTable(): Scope {
    Put(FirstThree(), Bad, One)
  }

  lemma PingKey()
    ensures Ping == "200" + "_" + "GET" + "_" + "/ping"
  {
  }

  lemma AuthKey()
    ensures Auth == "200" + "_" + "POST" + "_" + "/auth"
  {
  }

  lemma BadKey()
    ensures Bad == "400" + "_" + "GET" + "_" + "/ping"
  {
  }

  lemma SampleKeysDistinct()
    ensures Auth != Ping && Bad != Ping && Bad != Auth
  {
    assert |Auth| != |Ping| && |Auth| != |Bad| && Bad[0] != Ping[0];
  }

  /** The first record of the sample opens group `200_GET_/ping`. */
  lemma SampleTally0(cfg: Config, env: Env, tag: string, b: seq<Event>)
    requires SampleSettings(cfg)
    requires 0 < |b| && b[0].record == Request("200", "GET", "/ping")
    ensures Tally(cfg, env, tag, b[0..], Empty()) == Tally(cfg, env, tag, b[1..], FirstOne())
  {
    PingKey();
    TallyStep(cfg, env, tag, b, 0, Empty(), "200", "GET", "/ping");
    assert CountUp(TrackedOf(cfg), Fresh, One) == One;
  }

  /** The second record opens group `200_POST_/auth`. */
  lemma SampleTally1(cfg: Config, env: Env, tag: string, b: seq<Event>)
    requires SampleSettings(cfg)
    requires 1 < |b| && b[1].record == Request("200", "POST", "/auth")
    ensures Tally(cfg, env, tag, b[1..], FirstOne()) == Tally(cfg, env, tag, b[2..], FirstTwo())
  {
    AuthKey();
    SampleKeysDistinct();
    TallyStep(cfg, env, tag, b, 1, FirstOne(), "200", "POST", "/auth");
    assert Lookup(FirstOne(), Auth) == Fresh;
    assert CountUp(TrackedOf(cfg), Lookup(FirstOne(), Auth), One) == One;
  }

  /** The third record counts `200_GET_/ping` again. */
  lemma SampleTally2(cfg: Config, env: Env, tag: string, b: seq<Event>)
    requires SampleSettings(cfg)
    requires 2 < |b| && b[2].record == Request("200", "GET", "/ping")
    ensures Tally(cfg, env, tag, b[2..], FirstTwo()) == Tally(cfg, env, tag, b[3..], FirstThree())
  {
    PingKey();
    SampleKeysDistinct();
    TallyStep(cfg, env, tag, b, 2, FirstTwo(), "200", "GET", "/ping");
    assert Lookup(FirstTwo(), Ping) == One;
    assert CountUp(TrackedOf(cfg), One, One) == Acc(2, None, None, None);
  }

  /** The last record opens group `400_GET_/ping`, and the batch ends. */
  lemma SampleTally3(cfg: Config, env: Env, tag: string, b: seq<Event>)
    requires SampleSettings(cfg)
    requires |b| == 4 && b[3].record == Request("400", "GET", "/ping")
    ensures Tally(cfg, env, tag, b[3..], FirstThree()) == Some(SampleTable())
  {
    BadKey();
    SampleKeysDistinct();
    TallyStep(cfg, env, tag, b, 3, FirstThree(), "400", "GET", "/ping");
    assert Lookup(FirstThree(), Bad) == Fresh;
    assert CountUp(TrackedOf(cfg), Lookup(FirstThree(), Bad), One) == One;
    assert Tally(cfg, env, tag, b[4..], SampleTable()) == Some(SampleTable());
  }

  /** The sample batch tallies into the sample table. */
  lemma SampleTally(cfg: Config, env: Env, tag: string, time: int)
    requires SampleSettings(cfg)
    ensures Tally(cfg, env, tag, SampleBatch(time), Empty()) == Some(SampleTable())
  {
    var b := SampleBatch(time);
    assert b[0..] == b;
    SampleTally0(cfg, env, tag, b);
    SampleTally1(cfg, env, tag, b);
    SampleTally2(cfg, env, tag, b);
    SampleTally3(cfg, env, tag, b);
  }

  /** The sample table lists its keys in first-seen order. */
  lemma SampleTableKeys()
    ensures SampleTable().keys == [Ping, Auth, Bad]
  {
    SampleKeysDistinct();
    assert FirstOne().keys == [Ping];
    assert FirstTwo().keys == [Ping, Auth];
    assert FirstThree().keys == [Ping, Auth];
  }

  /** The sample table holds 2, 1 and 1 records. */
  lemma SampleTableEntries()
    ensures SampleTable().entries == map[Ping := Acc(2, None, None, None), Auth := One, Bad := One]
  {
    assert FirstTwo().entries == map[Ping := One, Auth := One];
    assert FirstThree().entries == map[Ping := Acc(2, None, None, None), Auth := One];
  }

  /** The sample table holds 2, 1 and 1 records, in first-seen order. */
  lemma SampleTableCounts()
    ensures SampleTable().keys == [Ping, Auth, Bad]
    ensures SampleTable().entries == map[Ping := Acc(2, None, None, None), Auth := One, Bad := One]
    ensures Lookup(SampleTable(), Ping).count == 2
    ensures Lookup(SampleTable(), Auth).count == 1
    ensures Lookup(SampleTable(), Bad).count == 1
  {
    SampleTableKeys();
    SampleTableEntries();
    SampleKeysDistinct();
  }

  /** Under the sample settings the batch groups into 2, 1 and 1 records,
      in first-seen order. */
  lemma SampleGroups(cfg: Config, env: Env, tag: string, time: int)
    requires SampleSettings(cfg)
    ensures var groups := Tally(cfg, env, tag, SampleBatch(time), Empty());
            && groups.Some?
            && groups.value.keys == [Ping, Auth, Bad]
            && Lookup(groups.value, Ping).count == 2
            && Lookup(groups.value, Auth).count == 1
            && Lookup(groups.value, Bad).count == 1
  {
    SampleTally(cfg, env, tag, time);
    SampleTableCounts();
  }

  /** Each key of the sample occurs in the batch as often as its count. */
  lemma SampleOccurrences(cfg: Config, env: Env, tag: string, time: int)
    requires SampleSettings(cfg)
    ensures Occurrences(cfg, env, tag, SampleBatch(time), Ping) == 2
    ensures Occurrences(cfg, env, tag, SampleBatch(time), Auth) == 1
    ensures Occurrences(cfg, env, tag, SampleBatch(time), Bad) == 1
  {
    SampleGroups(cfg, env, tag, time);
    TallyCounts(cfg, env, tag, SampleBatch(time), Empty(), Ping);
    TallyCounts(cfg, env, tag, SampleBatch(time), Empty(), Auth);
    TallyCounts(cfg, env, tag, SampleBatch(time), Empty(), Bad);
  }

  /** The table after the sample is sent once under `foo.bar` and once
      under `foo.bar2`, starting from an empty table. */
  function SentTwice(cfg: Config, env: Env, time: int): Table
    requires SampleSettings(cfg)
  {
    SampleGroups(cfg, env, "foo.bar", time);
    SampleGroups(cfg, env, "foo.bar2", time);
    var first := Tally(cfg, env, "foo.bar", SampleBatch(time), Empty()).value;
    var second := Tally(cfg, env, "foo.bar2", SampleBatch(time), Empty()).value;
    Summarize(cfg, Summarize(cfg, Empty(), "foo.bar", first), "foo.bar2", second)
  }

  /** Under aggregate all, a key's count in scope `all` after both sends is
      twice its count in one batch. */
  lemma SentTwiceCount(cfg: Config, env: Env, time: int, g: string)
    requires SampleSettings(cfg) && cfg.aggregate == All
    ensures CountIn(SentTwice(cfg, env, time), "all", g) == 2 * Occurrences(cfg, env, "test", SampleBatch(time), g)
  {
    var b := SampleBatch(time);
    SampleGroups(cfg, env, "foo.bar", time);
    SampleGroups(cfg, env, "foo.bar2", time);
    AggregateAllAddsUp(cfg, env, "foo.bar", b, "foo.bar2", b, Empty(), g);
    OccurrencesIgnoreTag(cfg, env, "foo.bar", "test", b, g);
    OccurrencesIgnoreTag(cfg, env, "foo.bar2", "test", b, g);
  }

  /** Without a group expression the tag plays no part in the group key. */
  lemma {:induction false} OccurrencesIgnoreTag(cfg: Config, env: Env, tag1: string, tag2: string, b: seq<Event>, g: string)
    requires SampleSettings(cfg)
    ensures Occurrences(cfg, env, tag1, b, g) == Occurrences(cfg, env, tag2, b, g)
    decreases |b|
  {
    if b != [] {
      OccurrencesIgnoreTag(cfg, env, tag1, tag2, b[1..], g);
    }
  }

  /** Under aggregate all, the sample sent once under `foo.bar` and once
      under `foo.bar2` counts 4, 2 and 2 in scope `all`. */
  lemma SampleAggregateAll(cfg: Config, env: Env, time: int)
    requires SampleSettings(cfg) && cfg.aggregate == All
    ensures CountIn(SentTwice(cfg, env, time), "all", Ping) == 4
    ensures CountIn(SentTwice(cfg, env, time), "all", Auth) == 2
    ensures CountIn(SentTwice(cfg, env, time), "all", Bad) == 2
  {
    SampleOccurrences(cfg, env, "test", time);
    SentTwiceCount(cfg, env, time, Ping);
    SentTwiceCount(cfg, env, time, Auth);
    SentTwiceCount(cfg, env, time, Bad);
  }

  /** The scope `all` after the sample is sent twice: every count doubled,
      the groups in first-seen order. */
  function DoubledTable(): Scope {
    Put(Put(Put(SampleTable(), Ping, Acc(4, None, None, None)), Auth, Acc(2, None, None, None)), Bad, Acc(2, None, None, None))
  }

  lemma DoubledTableCounts()
    ensures CountsOnly(DoubledTable(), 4, 2, 2)
  {
    DoubledTableKeys();
    DoubledTableEntries();
  }

  /** Storing under keys already present moves no slot. */
  lemma DoubledTableKeys()
    ensures DoubledTable().keys == [Ping, Auth, Bad]
  {
    SampleTableKeys();
    var h1 := Put(SampleTable(), Ping, Acc(4, None, None, None));
    assert h1.keys == [Ping, Auth, Bad];
    var h2 := Put(h1, Auth, Acc(2, None, None, None));
    assert h2.keys == [Ping, Auth, Bad];
  }

  lemma DoubledTableEntries()
    ensures DoubledTable().entries == map[Ping := Acc(4, None, None, None), Auth := Acc(2, None, None, None), Bad := Acc(2, None, None, None)]
  {
    var g := SampleTable();
    var h1 := Put(g, Ping, Acc(4, None, None, None));
    var h2 := Put(h1, Auth, Acc(2, None, None, None));
    assert DoubledTable().entries == g.entries[Ping := Acc(4, None, None, None)][Auth := Acc(2, None, None, None)][Bad := Acc(2, None, None, None)];
    SampleTableEntries();
    ReplaceThree(Ping, Auth, Bad, Acc(2, None, None, None), One, One, Acc(4, None, None, None), Acc(2, None, None, None), Acc(2, None, None, None));
  }

  /** Replacing every value of a three-key map gives the map of the new
      values. */
  lemma ReplaceThree<K, V>(a: K, b: K, c: K, x0: V, y0: V, z0: V, x: V, y: V, z: V)
    ensures map[a := x0, b := y0, c := z0][a := x][b := y][c := z] == map[a := x, b := y, c := z]
  {
  }

  /** One step of the merge loop of `summarize_counts`, for a known group
      and a known merged value. */
  lemma MergeStep(t: Tracked, cur: Scope, groups: Scope, i: nat, k: string, v: Acc)
    requires i < |groups.keys| && groups.keys[i] == k
    requires k in groups.entries && CountUp(t, Lookup(cur, k), groups.entries[k]) == v
    ensures MergeFrom(t, cur, groups, i) == MergeFrom(t, Put(cur, k, v), groups, i + 1)
  {
  }

  /** Merging the sample table into itself doubles every count. */
  lemma MergeSampleTwice(t: Tracked)
    ensures MergeFrom(t, SampleTable(), SampleTable(), 0) == DoubledTable()
  {
    var g := SampleTable();
    SampleTableKeys();
    SampleTableEntries();
    SampleKeysDistinct();
    var h1 := Put(g, Ping, Acc(4, None, None, None));
    var h2 := Put(h1, Auth, Acc(2, None, None, None));
    assert Lookup(g, Ping) == Acc(2, None, None, None);
    MergeStep(t, g, g, 0, Ping, Acc(4, None, None, None));
    assert Lookup(h1, Auth) == One;
    MergeStep(t, h1, g, 1, Auth, Acc(2, None, None, None));
    assert Lookup(h2, Bad) == One;
    MergeStep(t, h2, g, 2, Bad, Acc(2, None, None, None));
  }

  /** Under aggregate all, both sends of the sample land in scope `all`,
      which then holds the doubled table. */
  lemma SentTwiceAll(cfg: Config, env: Env, time: int)
    requires SampleSettings(cfg) && cfg.aggregate == All
    ensures Get(SentTwice(cfg, env, time), "all") == Some(DoubledTable())
  {
    var t := TrackedOf(cfg);
    var g := SampleTable();
    SampleTally(cfg, env, "foo.bar", time);
    SampleTally(cfg, env, "foo.bar2", time);
    var first := Summarize(cfg, Empty(), "foo.bar", g);
    SummarizeIntoAll(cfg, Empty(), "foo.bar", g);
    SampleConforms(t);
    MergeIntoEmpty(t, g);
    SummarizeIntoAll(cfg, first, "foo.bar2", g);
    MergeSampleTwice(t);
  }

  /** Under aggregate all a batch is merged into scope `all`, whatever its
      tag. */
  lemma SummarizeIntoAll(cfg: Config, table: Table, tag: string, groups: Scope)
    requires cfg.aggregate == All
    ensures Get(Summarize(cfg, table, tag, groups), "all") == Some(MergeFrom(TrackedOf(cfg), Get(table, "all").GetOr(Empty()), groups, 0))
  {
  }

  /** The sample table carries no statistic. */
  lemma SampleConforms(t: Tracked)
    ensures forall k | k in SampleTable().entries :: Conforms(t, SampleTable().entries[k])
  {
    SampleTableEntries();
  }

  lemma CountAllTag()
    ensures "count." + "all" == "count.all"
  {
  }

  /** The aggregate-all test: after the sample is sent under `foo.bar` and
      under `foo.bar2`, a flush emits one message under `count.all` with the
      unprefixed counts 4, 2 and 2. */
  lemma SampleAggregateAllEmission(cfg: Config, env: Env, time: int, now: int)
    requires SampleSettings(cfg) && cfg.aggregate == All && cfg.outputPerTag
    requires cfg.tagPrefixString == "count." && cfg.countSuffix == "_count"
    ensures var es := Emissions(cfg, OutputOf(cfg, SentTwice(cfg, env, time)), now);
            && |es| == 1 && es[0].tag == "count.all" && es[0].time == now
            && es[0].message.Keys == {"200_GET_/ping_count", "200_POST_/auth_count", "400_GET_/ping_count"}
            && es[0].message["200_GET_/ping_count"] == Int(4)
            && es[0].message["200_POST_/auth_count"] == Int(2)
            && es[0].message["400_GET_/ping_count"] == Int(2)
  {
    var counts := SentTwice(cfg, env, time);
    SentTwiceAll(cfg, env, time);
    var m := FieldsOf(cfg, Some(DoubledTable()), map[], "");
    AggregateAllOutput(cfg, counts);
    assert OutputOf(cfg, counts) == PerTag(Put(Empty(), "all", m));
    OneMessageEmission(cfg, "all", m, now);
    CountAllTag();
    DoubledTableCounts();
    CountFields(cfg, DoubledTable(), 4, 2, 2);
  }

  /** Summarizing the sample into an empty table stores it unchanged under
      its tag. */
  lemma SampleSummarized(cfg: Config, tag: string)
    requires SampleSettings(cfg) && cfg.aggregate == ByTag
    ensures Summarize(cfg, Empty(), tag, SampleTable()) == Put(Empty(), tag, SampleTable())
  {
    SampleTableCounts();
    MergeIntoEmpty(TrackedOf(cfg), SampleTable());
  }

  /** A group with a count and no statistics formats to its count field
      alone. */
  lemma CountOnly(cfg: Config, g: string, n: nat)
    ensures GroupFields(cfg, "", g, Acc(n, None, None, None)) == map[g + cfg.countSuffix := Int(n)]
  {
    assert "" + g + cfg.countSuffix == g + cfg.countSuffix;
  }

  lemma SampleFieldNames()
    ensures Ping + "_count" == "200_GET_/ping_count"
    ensures Auth + "_count" == "200_POST_/auth_count"
    ensures Bad + "_count" == "400_GET_/ping_count"
  {
  }

  /** A scope holding the three groups of the sample, in first-seen order,
      with counts `x`, `y` and `z` and no statistics. */
  predicate CountsOnly(h: Scope, x: nat, y: nat, z: nat) {
    && h.keys == [Ping, Auth, Bad]
    && h.entries == map[Ping := Acc(x, None, None, None), Auth := Acc(y, None, None, None), Bad := Acc(z, None, None, None)]
  }

  /** Each group of such a scope formats to its count field alone. */
  lemma CountGroupMaps(cfg: Config, h: Scope, x: nat, y: nat, z: nat)
    requires cfg.countSuffix == "_count" && CountsOnly(h, x, y, z)
    ensures var ms := GroupMaps(cfg, h, "");
            && |ms| == 3
            && ms[0] == map["200_GET_/ping_count" := Int(x)]
            && ms[1] == map["200_POST_/auth_count" := Int(y)]
            && ms[2] == map["400_GET_/ping_count" := Int(z)]
  {
    var ms := GroupMaps(cfg, h, "");
    SampleFieldNames();
    CountOnly(cfg, Ping, x);
    CountOnly(cfg, Auth, y);
    CountOnly(cfg, Bad, z);
    assert ms[0] == GroupFields(cfg, "", Ping, Acc(x, None, None, None));
    assert ms[1] == GroupFields(cfg, "", Auth, Acc(y, None, None, None));
    assert ms[2] == GroupFields(cfg, "", Bad, Acc(z, None, None, None));
  }

  /** Such a scope formats to its three count fields. */
  lemma CountFields(cfg: Config, h: Scope, x: nat, y: nat, z: nat)
    requires cfg.countSuffix == "_count" && CountsOnly(h, x, y, z)
    ensures var m := FieldsOf(cfg, Some(h), map[], "");
            && m.Keys == {"200_GET_/ping_count", "200_POST_/auth_count", "400_GET_/ping_count"}
            && m["200_GET_/ping_count"] == Int(x)
            && m["200_POST_/auth_count"] == Int(y)
            && m["400_GET_/ping_count"] == Int(z)
  {
    CountGroupMaps(cfg, h, x, y, z);
    OverlayOfThree(GroupMaps(cfg, h, ""));
    var a, b, c := "200_GET_/ping_count", "200_POST_/auth_count", "400_GET_/ping_count";
    assert a != b && a != c && b != c by {
      assert |a| != |b| && |b| != |c| && a[0] != c[0];
    }
    ThreeFields(a, b, c, Int(x), Int(y), Int(z));
  }

  /** The sample's groups format to their count fields: 2, 1 and 1. */
  lemma SampleFields(cfg: Config)
    requires cfg.countSuffix == "_count"
    ensures var m := FieldsOf(cfg, Some(SampleTable()), map[], "");
            && m.Keys == {"200_GET_/ping_count", "200_POST_/auth_count", "400_GET_/ping_count"}
            && m["200_GET_/ping_count"] == Int(2)
            && m["200_POST_/auth_count"] == Int(1)
            && m["400_GET_/ping_count"] == Int(1)
  {
    SampleTableCounts();
    CountFields(cfg, SampleTable(), 2, 1, 1);
  }

  lemma ThreeFields(a: string, b: string, c: string, x: Number, y: Number, z: Number)
    requires a != b && a != c && b != c
    ensures var m := map[a := x] + map[b := y] + map[c := z];
            m.Keys == {a, b, c} && m[a] == x && m[b] == y && m[c] == z
  {
  }

  lemma OverlayOfThree(ms: seq<Message>)
    requires |ms| == 3
    ensures Overlay(map[], ms) == ms[0] + ms[1] + ms[2]
  {
    assert ms[..2][..1] == ms[..1] && ms[..1][..0] == [];
    assert Overlay(map[], ms[..1]) == ms[0];
  }

  /** Per-tag output of a table with one scope is one message under the
      scope's stripped tag. */
  lemma OneScopeOutput(cfg: Config, tag: string, scope: Scope)
    requires cfg.aggregate == ByTag && cfg.outputPerTag
    ensures OutputOf(cfg, Put(Empty(), tag, scope)) == PerTag(Put(Empty(), StrippedTag(cfg, tag), FieldsOf(cfg, Some(scope), map[], "")))
  {
    var counts: Table := Put(Empty(), tag, scope);
    var kvs := TagPairs(cfg, counts);
    assert counts.keys == [tag] && counts.entries[tag] == scope;
    TagPairsAt(cfg, counts, 0);
    PutAllOne(Empty(), kvs);
  }

  /** A single per-tag message is emitted under the output prefix. */
  lemma OneMessageEmission(cfg: Config, tag: string, m: Message, now: int)
    ensures Emissions(cfg, PerTag(Put(Empty(), tag, m)), now) == [Emission(cfg.tagPrefixString + tag, now, m)]
  {
    var h: Hash<string, Message> := Put(Empty(), tag, m);
    assert h.keys == [tag];
  }

  lemma CountTestTag()
    ensures "count." + "test" == "count.test"
  {
  }

  /** The per-tag output after the sample is ingested under `test`. */
  lemma SamplePerTagOutput(cfg: Config, env: Env, time: int)
    requires SampleSettings(cfg) && cfg.aggregate == ByTag && cfg.outputPerTag && cfg.removeTagPrefix.None?
    ensures var groups := Tally(cfg, env, "test", SampleBatch(time), Empty());
            && groups == Some(SampleTable())
            && OutputOf(cfg, Summarize(cfg, Empty(), "test", groups.value))
               == PerTag(Put(Empty(), "test", FieldsOf(cfg, Some(SampleTable()), map[], "")))
  {
    SampleTally(cfg, env, "test", time);
    SampleSummarized(cfg, "test");
    OneScopeOutput(cfg, "test", SampleTable());
  }

  /** The per-tag test: after the sample is ingested under `test`, a flush
      emits one message under `count.test` with the counts 2, 1 and 1. */
  lemma SamplePerTagEmission(cfg: Config, env: Env, time: int, now: int)
    requires SampleSettings(cfg) && cfg.aggregate == ByTag && cfg.outputPerTag
    requires cfg.tagPrefixString == "count." && cfg.removeTagPrefix.None? && cfg.countSuffix == "_count"
    ensures var groups := Tally(cfg, env, "test", SampleBatch(time), Empty());
            && groups.Some?
            && var es := Emissions(cfg, OutputOf(cfg, Summarize(cfg, Empty(), "test", groups.value)), now);
               && |es| == 1 && es[0].tag == "count.test" && es[0].time == now
               && es[0].message.Keys == {"200_GET_/ping_count", "200_POST_/auth_count", "400_GET_/ping_count"}
               && es[0].message["200_GET_/ping_count"] == Int(2)
               && es[0].message["200_POST_/auth_count"] == Int(1)
               && es[0].message["400_GET_/ping_count"] == Int(1)
  {
    SamplePerTagOutput(cfg, env, time);
    SampleFields(cfg);
    OneMessageEmission(cfg, "test", FieldsOf(cfg, Some(SampleTable()), map[], ""), now);
    CountTestTag();
  }
}

/** The two configurations the plugin's own tests accept. */
module ConfigScenarios {
  import opened Wrappers
  import opened Settings

  /** Only `group_by_keys foo` set: every other option takes its default. */
  method LeastConfiguration() returns (r: Result<Config, ConfigError>)
    ensures r.Success?
    ensures r.value.countInterval == 60 && !r.value.outputPerTag && r.value.aggregate == ByTag
    ensures r.value.tag == "groupcount" && r.value.tagPrefixString == "" && r.value.removeTagPrefix.None?
    ensures r.value.groupByKeys == Some(["foo"])
  {
    Text.SplitJoin(["foo"], ',');
    PatternsFromNone(1, OrderedMap.Empty());
    r := Configure(Defaults(Some("foo")));
  }

  /** `count_interval 5s`, `output_per_tag true`, `tag_prefix count` and
      `group_by_keys code,method,path`; the misspelt `aggragate` option is not
      an option and changes nothing. */
  method TemplateConfiguration() returns (r: Result<Config, ConfigError>)
    ensures r.Success?
    ensures r.value.countInterval == 5 && r.value.outputPerTag && r.value.aggregate == ByTag
    ensures r.value.tag == "groupcount" && r.value.tagPrefixString == "count."
    ensures r.value.groupByKeys == Some(["code", "method", "path"])
  {
    var raw := RawConfig(Some(5.0), "minute", true, "tag", "groupcount", Some("count"), None, None, None,
                         Some("code,method,path"), None, None, None, None, "_", "_count", "_max", "_min", "_avg", map[]);
    TemplateKeys();
    assert IntervalOf(raw) == Success(5) by {
      assert Truncate(5.0) == 5;
    }
    PatternsFromNone(1, OrderedMap.Empty());
    r := Configure(raw);
  }

  /** `code,method,path` splits into its three keys. */
  lemma TemplateKeys()
    ensures Text.Split("code,method,path", ',') == ["code", "method", "path"]
  {
    var parts := ["code", "method", "path"];
    assert Text.Join(parts, [',']) == "code,method,path" by {
      assert parts[1..] == ["method", "path"] && parts[1..][1..] == ["path"];
    }
    Text.SplitJoin(parts, ',');
  }

  /** No option set at all: `configure` itself accepts the declared
      defaults, merged output with no grouping. */
  method EmptyConfiguration() returns (r: Result<Config, ConfigError>)
    ensures r.Success?
    ensures r.value.groupByKeys.None? && r.value.groupByExpression.None? && !r.value.outputPerTag
  {
    PatternsFromNone(1, OrderedMap.Empty());
    r := Configure(Defaults(None));
  }

  /** Without an added tag prefix, per-tag output is refused. */
  method PerTagNeedsPrefix() returns (r: Result<Config, ConfigError>)
    ensures r == Failure(TagPrefixRequired)
  {
    PatternsFromNone(1, OrderedMap.Empty());
    r := Configure(Defaults(Some("foo")).(outputPerTag := true));
  }
}
