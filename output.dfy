/** Output formatting and routing: `generate_fields`, `generate_output`,
    `stripped_tag` and the emissions of `flush_emit`. */
module Output {
  import opened Wrappers
  import opened OrderedMap
  import opened Stats
  import opened Settings
  import opened Tables

  /** An emitted value: the count is an Integer, the other statistics Floats. */
  datatype Number = Int(i: int) | Float(f: real)

  /** One emitted message: field name => value. */
  type Message = map<string, Number>

  /** `stripped_tag`: removes `remove_tag_prefix + '.'` when the tag starts
      with it and is strictly longer. */
  function StrippedTag(cfg: Config, tag: string): string {
    if cfg.removeTagPrefix.None? then tag
    else
      var p := cfg.removeTagPrefix.value + ".";
      if |tag| > |p| && tag[..|p|] == p then tag[|p|..] else tag
  }

  /** The result is the tag itself, or the non-empty rest after the prefix
      and its dot; the tag is stripped exactly when it strictly extends the
      prefix and its dot. */
  lemma StrippedTagSpec(cfg: Config, tag: string)
    ensures var r := StrippedTag(cfg, tag);
            && (r == tag || (cfg.removeTagPrefix.Some? && r != "" && cfg.removeTagPrefix.value + "." + r == tag))
            && (r != tag <==>
                  && cfg.removeTagPrefix.Some?
                  && var p := cfg.removeTagPrefix.value + ".";
                  && |tag| > |p| && tag[..|p|] == p)
  {
    if cfg.removeTagPrefix.Some? {
      var p := cfg.removeTagPrefix.value + ".";
      if |tag| > |p| && tag[..|p|] == p {
        assert tag == p + tag[|p|..];
      }
    }
  }

  /** The name of a group's count field. */
  function CountName(cfg: Config, prefix: string, g: string): string {
    prefix + g + cfg.countSuffix
  }

  /** The name of a group's min, max or avg field: the delimiter after the
      group key is left out when the key is empty. */
  function StatName(cfg: Config, prefix: string, g: string, key: Option<string>, suffix: string): string {
    prefix + (if g == "" then "" else g + cfg.delimiter) + key.GetOr("") + suffix
  }

  function MinName(cfg: Config, prefix: string, g: string): string {
    StatName(cfg, prefix, g, cfg.minKey, cfg.minSuffix)
  }

  function MaxName(cfg: Config, prefix: string, g: string): string {
    StatName(cfg, prefix, g, cfg.maxKey, cfg.maxSuffix)
  }

  function AvgName(cfg: Config, prefix: string, g: string): string {
    StatName(cfg, prefix, g, cfg.avgKey, cfg.avgSuffix)
  }

  /** The average is emitted only for a sum over a positive count. */
  predicate HasAvg(a: Acc) {
    a.sum.Some? && a.count > 0
  }

  /** The fields one group writes, in the order count, min, max, avg; a
      statistic the accumulator lacks writes nothing. */
  function GroupFields(cfg: Config, prefix: string, g: string, a: Acc): Message {
    var withCount := map[CountName(cfg, prefix, g) := Int(a.count)];
    var withMin := if a.min.Some? then withCount[MinName(cfg, prefix, g) := Float(a.min.value)] else withCount;
    var withMax := if a.max.Some? then withMin[MaxName(cfg, prefix, g) := Float(a.max.value)] else withMin;
    if HasAvg(a) then withMax[AvgName(cfg, prefix, g) := Float(a.sum.value / (a.count as real))] else withMax
  }

  /** Every group yields its count field; min, max and avg only when the
      accumulator has them (avg only over a positive count, as sum / count);
      a field keeps its value unless a later field of the group has the
      same name. */
  lemma GroupFieldsShape(cfg: Config, prefix: string, g: string, a: Acc)
    ensures var r := GroupFields(cfg, prefix, g, a);
            && r.Keys == {CountName(cfg, prefix, g)}
                         + (if a.min.Some? then {MinName(cfg, prefix, g)} else {})
                         + (if a.max.Some? then {MaxName(cfg, prefix, g)} else {})
                         + (if HasAvg(a) then {AvgName(cfg, prefix, g)} else {})
            && (HasAvg(a) ==> r[AvgName(cfg, prefix, g)] == Float(a.sum.value / (a.count as real)))
            && (a.max.Some? && !(HasAvg(a) && MaxName(cfg, prefix, g) == AvgName(cfg, prefix, g))
                ==> r[MaxName(cfg, prefix, g)] == Float(a.max.value))
            && (a.min.Some? && !(a.max.Some? && MinName(cfg, prefix, g) == MaxName(cfg, prefix, g))
                            && !(HasAvg(a) && MinName(cfg, prefix, g) == AvgName(cfg, prefix, g))
                ==> r[MinName(cfg, prefix, g)] == Float(a.min.value))
            && (!(a.min.Some? && CountName(cfg, prefix, g) == MinName(cfg, prefix, g))
                && !(a.max.Some? && CountName(cfg, prefix, g) == MaxName(cfg, prefix, g))
                && !(HasAvg(a) && CountName(cfg, prefix, g) == AvgName(cfg, prefix, g))
                ==> r[CountName(cfg, prefix, g)] == Int(a.count))
  {
  }

  /** The empty group key gets no delimiter before a statistic's name. */
  lemma EmptyGroupNames(cfg: Config, prefix: string)
    ensures CountName(cfg, prefix, "") == prefix + cfg.countSuffix
    ensures MinName(cfg, prefix, "") == prefix + cfg.minKey.GetOr("") + cfg.minSuffix
    ensures MaxName(cfg, prefix, "") == prefix + cfg.maxKey.GetOr("") + cfg.maxSuffix
    ensures AvgName(cfg, prefix, "") == prefix + cfg.avgKey.GetOr("") + cfg.avgSuffix
  {
  }

  /** The fields of every group of a scope, in slot order. */
  function GroupMaps(cfg: Config, scope: Scope, prefix: string): (r: seq<Message>)
    ensures |r| == |scope.keys|
    ensures forall j {:trigger r[j]} | 0 <= j < |r| :: scope.keys[j] in scope.entries
                                       && r[j] == GroupFields(cfg, prefix, scope.keys[j], scope.entries[scope.keys[j]])
  {
    seq(|scope.keys|, j requires 0 <= j < |scope.keys| =>
      KeyStored(scope, j);
      GroupFields(cfg, prefix, scope.keys[j], scope.entries[scope.keys[j]]))
  }

  /** `generate_fields(counts_per_tag, output, key_prefix)`: a nil table gives
      a new empty hash; otherwise every group's fields are written into
      `output`. */
  function FieldsOf(cfg: Config, countsPerTag: Option<Scope>, output: Message, prefix: string): Message {
    if countsPerTag.None? then map[] else Overlay(output, GroupMaps(cfg, countsPerTag.value, prefix))
  }

  /** Every group yields its count field, and its other fields as far as the
      accumulator has them; a name is decided by the last group that writes
      it; nothing else is written. */
  lemma FieldsOfGroups(cfg: Config, scope: Scope, output: Message, prefix: string, j: nat, n: string)
    requires j < |scope.keys|
    requires n in GroupFields(cfg, prefix, scope.keys[j], scope.entries[scope.keys[j]])
    requires forall i | j < i < |scope.keys| :: n !in GroupFields(cfg, prefix, scope.keys[i], scope.entries[scope.keys[i]])
    ensures var r := FieldsOf(cfg, Some(scope), output, prefix);
            n in r && r[n] == GroupFields(cfg, prefix, scope.keys[j], scope.entries[scope.keys[j]])[n]
  {
    OverlayLastWriter(output, GroupMaps(cfg, scope, prefix), j, n);
  }

  /** The names `generate_fields` writes are those already in `output` and
      those of the groups' fields. */
  lemma FieldsOfNames(cfg: Config, scope: Scope, output: Message, prefix: string, n: string)
    ensures n in FieldsOf(cfg, Some(scope), output, prefix) <==>
              n in output || exists j | 0 <= j < |scope.keys| :: n in GroupFields(cfg, prefix, scope.keys[j], scope.entries[scope.keys[j]])
  {
    var ms := GroupMaps(cfg, scope, prefix);
    OverlayKeys(output, ms, n);
    if exists j | 0 <= j < |ms| :: n in ms[j] {
      var j :| 0 <= j < |ms| && n in ms[j];
      assert n in GroupFields(cfg, prefix, scope.keys[j], scope.entries[scope.keys[j]]);
    }
    if exists j | 0 <= j < |scope.keys| :: n in GroupFields(cfg, prefix, scope.keys[j], scope.entries[scope.keys[j]]) {
      var j :| 0 <= j < |scope.keys| && n in GroupFields(cfg, prefix, scope.keys[j], scope.entries[scope.keys[j]]);
      assert n in ms[j];
    }
  }

  lemma UnionUpdate(a: Message, m: Message, k: string, v: Number)
    ensures a + m[k := v] == (a + m)[k := v]
  {
  }

  /** One pass of the group loop of `generate_fields`: writes the group's
      fields into `output` one at a time. */
  method WriteGroup(cfg: Config, output: Message, keyPrefix: string, groupKey: string, count: Acc) returns (r: Message)
    ensures r == output + GroupFields(cfg, keyPrefix, groupKey, count)
  {
    var groupKeyWith := if groupKey == "" then "" else groupKey + cfg.delimiter;
    ghost var written: Message := map[];
    assert output + written == output;
    r := output;
    UnionUpdate(output, written, keyPrefix + groupKey + cfg.countSuffix, Int(count.count));
    r := r[keyPrefix + groupKey + cfg.countSuffix := Int(count.count)];
    written := written[keyPrefix + groupKey + cfg.countSuffix := Int(count.count)];
    if count.min.Some? {
      UnionUpdate(output, written, keyPrefix + groupKeyWith + cfg.minKey.GetOr("") + cfg.minSuffix, Float(count.min.value));
      r := r[keyPrefix + groupKeyWith + cfg.minKey.GetOr("") + cfg.minSuffix := Float(count.min.value)];
      written := written[keyPrefix + groupKeyWith + cfg.minKey.GetOr("") + cfg.minSuffix := Float(count.min.value)];
    }
    if count.max.Some? {
      UnionUpdate(output, written, keyPrefix + groupKeyWith + cfg.maxKey.GetOr("") + cfg.maxSuffix, Float(count.max.value));
      r := r[keyPrefix + groupKeyWith + cfg.maxKey.GetOr("") + cfg.maxSuffix := Float(count.max.value)];
      written := written[keyPrefix + groupKeyWith + cfg.maxKey.GetOr("") + cfg.maxSuffix := Float(count.max.value)];
    }
    if count.sum.Some? && count.count > 0 {
      UnionUpdate(output, written, keyPrefix + groupKeyWith + cfg.avgKey.GetOr("") + cfg.avgSuffix, Float(count.sum.value / (count.count as real)));
      r := r[keyPrefix + groupKeyWith + cfg.avgKey.GetOr("") + cfg.avgSuffix := Float(count.sum.value / (count.count as real))];
      written := written[keyPrefix + groupKeyWith + cfg.avgKey.GetOr("") + cfg.avgSuffix := Float(count.sum.value / (count.count as real))];
    }
    assert written == GroupFields(cfg, keyPrefix, groupKey, count);
  }

  /** The group loop of `generate_fields`. */
  method GenerateFields(cfg: Config, countsPerTag: Option<Scope>, output: Message, keyPrefix: string) returns (r: Message)
    ensures r == FieldsOf(cfg, countsPerTag, output, keyPrefix)
  {
    if countsPerTag.None? {
      return map[];
    }
    var scope := countsPerTag.value;
    ghost var ms := GroupMaps(cfg, scope, keyPrefix);
    r := output;
    OverlayFromStart(output, ms);
    var i := 0;
    while i < |scope.keys|
      invariant 0 <= i <= |scope.keys|
      invariant OverlayFrom(r, ms, i) == Overlay(output, ms)
    {
      var groupKey := scope.keys[i];
      KeyStored(scope, i);
      r := WriteGroup(cfg, r, keyPrefix, groupKey, scope.entries[groupKey]);
      i := i + 1;
    }
  }

  /** What `generate_output` returns: one message per output tag, or one
      merged message. */
  datatype Output = PerTag(messages: Hash<string, Message>) | Merged(message: Message)

  /** The message of the scope in slot `j`, for per-tag output. */
  function TagMessage(cfg: Config, counts: Table, j: nat): Message
    requires j < |counts.keys|
  {
    KeyStored(counts, j);
    FieldsOf(cfg, Some(counts.entries[counts.keys[j]]), map[], "")
  }

  /** Every scope's stripped tag paired with its message, in slot order. */
  function TagPairs(cfg: Config, counts: Table): (r: seq<(string, Message)>)
    ensures |r| == |counts.keys|
  {
    seq(|counts.keys|, j requires 0 <= j < |counts.keys| => (StrippedTag(cfg, counts.keys[j]), TagMessage(cfg, counts, j)))
  }

  /** The pair of the scope in slot `j`: its stripped tag and its message. */
  lemma TagPairsAt(cfg: Config, counts: Table, j: nat)
    requires j < |counts.keys|
    ensures TagPairs(cfg, counts)[j] == (StrippedTag(cfg, counts.keys[j]), TagMessage(cfg, counts, j))
  {
  }

  /** The prefix of a scope's field names in a merged message. */
  function MergedPrefix(cfg: Config, tag: string): string {
    StrippedTag(cfg, tag) + cfg.delimiter
  }

  /** The fields of every scope, in slot order, named for a merged message. */
  function ScopeMaps(cfg: Config, counts: Table): (r: seq<Message>)
    ensures |r| == |counts.keys|
  {
    seq(|counts.keys|, j requires 0 <= j < |counts.keys| =>
      KeyStored(counts, j);
      FieldsOf(cfg, Some(counts.entries[counts.keys[j]]), map[], MergedPrefix(cfg, counts.keys[j])))
  }

  /** The entry of a scope in a merged message is the fields of its groups,
      named with the prefix `stripped tag + delimiter`. */
  lemma ScopeMapsAt(cfg: Config, counts: Table, j: nat)
    requires j < |counts.keys|
    ensures counts.keys[j] in counts.entries
    ensures ScopeMaps(cfg, counts)[j] == FieldsOf(cfg, Some(counts.entries[counts.keys[j]]), map[], MergedPrefix(cfg, counts.keys[j]))
  {
  }

  /** `generate_output(counts)`. Under aggregate all only scope `'all'` is
      read, and its name is used unstripped. */
  function OutputOf(cfg: Config, counts: Table): (r: Output)
    ensures r.PerTag? <==> cfg.outputPerTag
  {
    if cfg.outputPerTag then
      if cfg.aggregate == All then PerTag(Put(Empty(), "all", FieldsOf(cfg, Get(counts, "all"), map[], "")))
      else PerTag(PutAll(Empty(), TagPairs(cfg, counts)))
    else
      if cfg.aggregate == All then Merged(FieldsOf(cfg, Get(counts, "all"), map[], ""))
      else Merged(Overlay(map[], ScopeMaps(cfg, counts)))
  }

  /** Under aggregate all only scope `all` is formatted, its fields named
      without any prefix: per tag it is the one message, under the
      unstripped tag `all`; merged it is the message. */
  lemma AggregateAllOutput(cfg: Config, counts: Table)
    requires cfg.aggregate == All
    ensures cfg.outputPerTag ==>
              && OutputOf(cfg, counts).messages.keys == ["all"]
              && OutputOf(cfg, counts).messages.entries == map["all" := FieldsOf(cfg, Get(counts, "all"), map[], "")]
    ensures !cfg.outputPerTag ==> OutputOf(cfg, counts).message == FieldsOf(cfg, Get(counts, "all"), map[], "")
  {
  }

  /** Under aggregate all no scope but `all` plays a part in the output. */
  lemma AggregateAllReadsAll(cfg: Config, c1: Table, c2: Table)
    requires cfg.aggregate == All
    ensures Get(c1, "all") == Get(c2, "all") ==> OutputOf(cfg, c1) == OutputOf(cfg, c2)
  {
  }

  /** Per-tag output with no two scopes stripping to the same tag: one
      message slot per scope, in scope order. */
  lemma PerTagSlots(cfg: Config, counts: Table)
    requires forall a, b | 0 <= a < b < |counts.keys| :: StrippedTag(cfg, counts.keys[a]) != StrippedTag(cfg, counts.keys[b])
    ensures var h := PutAll(Empty(), TagPairs(cfg, counts));
            && |h.keys| == |counts.keys|
            && forall j | 0 <= j < |counts.keys| :: h.keys[j] == StrippedTag(cfg, counts.keys[j])
    // which is the output of `generate_output` when aggregating by tag
    ensures cfg.aggregate == ByTag && cfg.outputPerTag ==>
              var h := OutputOf(cfg, counts).messages;
              && |h.keys| == |counts.keys|
              && forall j | 0 <= j < |counts.keys| :: h.keys[j] == StrippedTag(cfg, counts.keys[j])
  {
    var kvs := TagPairs(cfg, counts);
    forall a, b | 0 <= a < b < |kvs| ensures kvs[a].0 != kvs[b].0 {
      TagPairsAt(cfg, counts, a);
      TagPairsAt(cfg, counts, b);
    }
    PutAllSlots(kvs);
    forall j | 0 <= j < |kvs| ensures PutAll(Empty(), kvs).keys[j] == StrippedTag(cfg, counts.keys[j]) {
      TagPairsAt(cfg, counts, j);
    }
  }

  /** The message under a stripped tag holds the fields of the last scope
      that strips to it: scopes whose tags collide share one slot, and the
      later one replaces the earlier one's fields. */
  lemma PerTagLastScope(cfg: Config, counts: Table, j: nat)
    requires j < |counts.keys|
    requires forall i | j < i < |counts.keys| :: StrippedTag(cfg, counts.keys[i]) != StrippedTag(cfg, counts.keys[j])
    ensures var h := PutAll(Empty(), TagPairs(cfg, counts));
            && StrippedTag(cfg, counts.keys[j]) in h.entries
            && h.entries[StrippedTag(cfg, counts.keys[j])] == TagMessage(cfg, counts, j)
    // which is the output of `generate_output` when aggregating by tag
    ensures cfg.aggregate == ByTag && cfg.outputPerTag ==>
              var h := OutputOf(cfg, counts).messages;
              && StrippedTag(cfg, counts.keys[j]) in h.entries
              && h.entries[StrippedTag(cfg, counts.keys[j])] == TagMessage(cfg, counts, j)
  {
    var kvs := TagPairs(cfg, counts);
    TagPairsAt(cfg, counts, j);
    forall i | j < i < |kvs| ensures kvs[i].0 != kvs[j].0 {
      TagPairsAt(cfg, counts, i);
    }
    PutAllLastWriter(Empty(), kvs, j);
  }

  /** A merged message holds, for every scope, the fields its groups write
      under the prefix `stripped_tag + delimiter`; the last scope that writes
      a name decides it. */
  lemma MergedMessage(cfg: Config, counts: Table, j: nat, n: string)
    requires j < |counts.keys|
    requires counts.keys[j] in counts.entries
    requires n in FieldsOf(cfg, Some(counts.entries[counts.keys[j]]), map[], MergedPrefix(cfg, counts.keys[j]))
    requires forall i | j < i < |counts.keys| && counts.keys[i] in counts.entries ::
               n !in FieldsOf(cfg, Some(counts.entries[counts.keys[i]]), map[], MergedPrefix(cfg, counts.keys[i]))
    ensures var m := Overlay(map[], ScopeMaps(cfg, counts));
            n in m && m[n] == FieldsOf(cfg, Some(counts.entries[counts.keys[j]]), map[], MergedPrefix(cfg, counts.keys[j]))[n]
    // which is the output of `generate_output` when aggregating by tag
    ensures cfg.aggregate == ByTag && !cfg.outputPerTag ==>
              var m := OutputOf(cfg, counts).message;
              n in m && m[n] == FieldsOf(cfg, Some(counts.entries[counts.keys[j]]), map[], MergedPrefix(cfg, counts.keys[j]))[n]
  {
    ScopeMapsAt(cfg, counts, j);
    forall i | j < i < |counts.keys| ensures n !in ScopeMaps(cfg, counts)[i] {
      ScopeMapsAt(cfg, counts, i);
    }
    OverlayLastWriter(map[], ScopeMaps(cfg, counts), j, n);
  }

  /** One pass of the scope loop of `generate_output` under
      `output_per_tag`: the output tag and message of the scope in slot `i`. */
  method TagEntry(cfg: Config, counts: Table, i: nat) returns (outTag: string, fields: Message)
    requires i < |counts.keys|
    ensures (outTag, fields) == TagPairs(cfg, counts)[i]
  {
    var tag := counts.keys[i];
    KeyStored(counts, i);
    fields := GenerateFields(cfg, Some(counts.entries[tag]), map[], "");
    outTag := StrippedTag(cfg, tag);
    TagPairsAt(cfg, counts, i);
  }

  /** The scope loop of `generate_output` under `output_per_tag`. */
  method PerTagOutput(cfg: Config, counts: Table) returns (outputPairs: Hash<string, Message>)
    ensures outputPairs == PutAll(Empty(), TagPairs(cfg, counts))
  {
    ghost var kvs := TagPairs(cfg, counts);
    outputPairs := Empty();
    PutFromStart(Empty(), kvs);
    var i := 0;
    while i < |counts.keys|
      invariant 0 <= i <= |counts.keys|
      invariant PutFrom(outputPairs, kvs, i) == PutAll(Empty(), kvs)
    {
      var outTag, fields := TagEntry(cfg, counts, i);
      outputPairs := Put(outputPairs, outTag, fields);
      i := i + 1;
    }
  }

  /** One pass of the scope loop of `generate_output` for a merged message:
      the fields of the scope in slot `i` written into `output`. */
  method WriteScope(cfg: Config, counts: Table, i: nat, output: Message) returns (r: Message)
    requires i < |counts.keys|
    ensures r == output + ScopeMaps(cfg, counts)[i]
  {
    var tag := counts.keys[i];
    KeyStored(counts, i);
    var scope := counts.entries[tag];
    r := GenerateFields(cfg, Some(scope), output, StrippedTag(cfg, tag) + cfg.delimiter);
    OverlayOver(output, GroupMaps(cfg, scope, MergedPrefix(cfg, tag)));
    ScopeMapsAt(cfg, counts, i);
  }

  /** The scope loop of `generate_output` for a merged message. */
  method MergedOutput(cfg: Config, counts: Table) returns (output: Message)
    ensures output == Overlay(map[], ScopeMaps(cfg, counts))
  {
    ghost var ms := ScopeMaps(cfg, counts);
    output := map[];
    OverlayFromStart(map[], ms);
    var i := 0;
    while i < |counts.keys|
      invariant 0 <= i <= |counts.keys| == |ms|
      invariant OverlayFrom(output, ms, i) == Overlay(map[], ms)
    {
      output := WriteScope(cfg, counts, i, output);
      i := i + 1;
    }
  }

  /** `generate_output(counts)`. */
  method GenerateOutput(cfg: Config, counts: Table) returns (r: Output)
    ensures r == OutputOf(cfg, counts)
  {
    if cfg.outputPerTag {
      if cfg.aggregate == All {
        var fields := GenerateFields(cfg, Get(counts, "all"), map[], "");
        return PerTag(Put(Empty(), "all", fields));
      }
      var outputPairs := PerTagOutput(cfg, counts);
      return PerTag(outputPairs);
    } else {
      if cfg.aggregate == All {
        var fields := GenerateFields(cfg, Get(counts, "all"), map[], "");
        return Merged(fields);
      }
      var output := MergedOutput(cfg, counts);
      return Merged(output);
    }
  }

  /** One call of the host's emit: output tag, time and message. */
  datatype Emission = Emission(tag: string, time: int, message: Message)

  /** The emissions of `flush_emit` for a formatted output. */
  function Emissions(cfg: Config, out: Output, time: int): (es: seq<Emission>)
    // per tag: one emission per message, in slot order, even an empty one
    ensures out.PerTag? ==>
              && |es| == |out.messages.keys|
              && forall i | 0 <= i < |es| ::
                   && out.messages.keys[i] in out.messages.entries
                   && es[i] == Emission(cfg.tagPrefixString + out.messages.keys[i], time, out.messages.entries[out.messages.keys[i]])
    // merged: one emission under `tag`, skipped when the message is empty
    ensures out.Merged? ==> (es == [] <==> |out.message| == 0)
    ensures out.Merged? && es != [] ==> es == [Emission(cfg.tag, time, out.message)]
  {
    match out
    case PerTag(messages) =>
      seq(|messages.keys|, i requires 0 <= i < |messages.keys| =>
        KeyStored(messages, i);
        Emission(cfg.tagPrefixString + messages.keys[i], time, messages.entries[messages.keys[i]]))
    case Merged(message) =>
      if |message| == 0 then [] else [Emission(cfg.tag, time, message)]
  }
}
