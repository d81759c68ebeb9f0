/** Configuration normalisation (`configure`): the aggregation interval, the
    aggregation mode, the tag prefixes, the group-by key list and the ordered
    rewrite patterns. */
module Settings {
  import opened Wrappers
  import opened OrderedMap
  import Text

  /** `PATTERN_MAX_NUM`: the options `pattern1` .. `pattern20` are read. */
  const PatternMaxNum := 20

  /** Option values as the host's configuration parser delivers them; None is
      an option left unset. `countInterval` is the parsed `:time` value in
      seconds; `patterns` maps N to the text of option `patternN`. */
  datatype RawConfig = RawConfig(
    countInterval: Option<real>,
    unit: string,
    outputPerTag: bool,
    aggregate: string,
    tag: string,
    tagPrefix: Option<string>,
    addTagPrefix: Option<string>,
    inputTagRemovePrefix: Option<string>,
    removeTagPrefix: Option<string>,
    groupByKeys: Option<string>,
    groupByExpression: Option<string>,
    maxKey: Option<string>,
    minKey: Option<string>,
    avgKey: Option<string>,
    delimiter: string,
    countSuffix: string,
    maxSuffix: string,
    minSuffix: string,
    avgSuffix: string,
    patterns: map<int, string>)

  /** The declared defaults of every option, with `group_by_keys` set. */
  function Defaults(groupByKeys: Option<string>): RawConfig {
    RawConfig(None, "minute", false, "tag", "groupcount", None, None, None, None,
              groupByKeys, None, None, None, None, "_", "_count", "_max", "_min", "_avg", map[])
  }

  datatype Aggregate = ByTag | All

  /** Why `configure` raises. `BadUnit` is a RuntimeError in the source, the
      others are configuration errors. */
  datatype ConfigError = BadUnit | BadAggregate | TagPrefixRequired | BadPattern(n: int)

  /** The normalised settings the plugin runs with. `patterns` maps each
      replacement string to the source of its regular expression, in the
      order the replacement strings first appeared. */
  datatype Config = Config(
    countInterval: int,
    outputPerTag: bool,
    aggregate: Aggregate,
    tag: string,
    tagPrefixString: string,
    removeTagPrefix: Option<string>,
    groupByKeys: Option<seq<string>>,
    groupByExpression: Option<string>,
    maxKey: Option<string>,
    minKey: Option<string>,
    avgKey: Option<string>,
    delimiter: string,
    countSuffix: string,
    maxSuffix: string,
    minSuffix: string,
    avgSuffix: string,
    patterns: Hash<string, string>)

  /** `Float#to_i`: truncation toward zero. */
  function Truncate(x: real): (r: int)
    ensures 0.0 <= x ==> r as real <= x < r as real + 1.0
    ensures x < 0.0 ==> r as real - 1.0 < x <= r as real
  {
    if x >= 0.0 then x.Floor else -((-x).Floor)
  }

  /** The aggregation interval in seconds: `count_interval` when given,
      otherwise the length of `unit`. */
  function IntervalOf(raw: RawConfig): (r: Result<int, ConfigError>)
    ensures raw.countInterval.Some? ==> r == Success(Truncate(raw.countInterval.value))
    ensures raw.countInterval.None? && raw.unit == "minute" ==> r == Success(60)
    ensures raw.countInterval.None? && raw.unit == "hour" ==> r == Success(3600)
    ensures raw.countInterval.None? && raw.unit == "day" ==> r == Success(86400)
    ensures r.Failure? <==> raw.countInterval.None? && raw.unit !in {"minute", "hour", "day"}
    ensures r.Failure? ==> r.error == BadUnit
  {
    if raw.countInterval.Some? then Success(Truncate(raw.countInterval.value))
    else if raw.unit == "minute" then Success(60)
    else if raw.unit == "hour" then Success(3600)
    else if raw.unit == "day" then Success(86400)
    else Failure(BadUnit)
  }

  function AggregateOf(s: string): (r: Result<Aggregate, ConfigError>)
    ensures r == Success(ByTag) <==> s == "tag"
    ensures r == Success(All) <==> s == "all"
    ensures r.Failure? ==> r.error == BadAggregate
  {
    if s == "tag" then Success(ByTag)
    else if s == "all" then Success(All)
    else Failure(BadAggregate)
  }

  /** `prefix + '.'` for a configured prefix, `''` otherwise. */
  function PrefixString(prefix: Option<string>): (r: string)
    ensures prefix.None? <==> r == ""
    ensures prefix.Some? ==> |r| == |prefix.value| + 1 && r[..|prefix.value|] == prefix.value && r[|r| - 1] == '.'
  {
    if prefix.Some? then prefix.value + "." else ""
  }

  /** `s` without its leading spaces. */
  function SkipSpaces(s: string): string {
    if s != "" && s[0] == ' ' then SkipSpaces(s[1..]) else s
  }

  /** Only spaces are skipped, and all of them. */
  lemma {:induction false} SkipSpacesShape(s: string)
    ensures var r := SkipSpaces(s);
            && |r| <= |s| && r == s[|s| - |r|..]
            && (forall k | 0 <= k < |s| - |r| :: s[k] == ' ')
            && (r == "" || r[0] != ' ')
    decreases |s|
  {
    if s != "" && s[0] == ' ' {
      var r := SkipSpaces(s[1..]);
      SkipSpacesShape(s[1..]);
      assert s[|s| - |r|..] == s[1..][|s| - 1 - |r|..];
      forall k | 0 < k < |s| - |r| ensures s[k] == ' ' {
        assert s[k] == s[1..][k - 1];
      }
    }
  }

  /** `s.split(/ +/, 2)` read as `replace, regexp`: the text before the
      first run of spaces and the text after it; None when there is no
      second part, which `configure` rejects. */
  function SplitPattern(s: string): (r: Option<(string, string)>)
    ensures r.None? <==> ' ' !in s
    decreases |s|
  {
    if s == "" then None
    else if s[0] == ' ' then Some(("", SkipSpaces(s[1..])))
    else
      var rest := SplitPattern(s[1..]);
      assert s == [s[0]] + s[1..];
      if rest.None? then None else Some(([s[0]] + rest.value.0, rest.value.1))
  }

  /** The two parts are the text before the first run of spaces and the text
      after it. */
  lemma {:induction false} SplitPatternShape(s: string)
    requires ' ' in s
    ensures var (rep, re) := SplitPattern(s).value;
            && ' ' !in rep
            && |rep| + |re| < |s|
            && s[..|rep|] == rep
            && s[|s| - |re|..] == re
            && (forall k | |rep| <= k < |s| - |re| :: s[k] == ' ')
            && (re == "" || re[0] != ' ')
    decreases |s|
  {
    if s[0] == ' ' {
      var re := SkipSpaces(s[1..]);
      SkipSpacesShape(s[1..]);
      assert s[|s| - |re|..] == s[1..][|s| - 1 - |re|..];
      forall k | 0 < k < |s| - |re| ensures s[k] == ' ' {
        assert s[k] == s[1..][k - 1];
      }
    } else {
      assert s == [s[0]] + s[1..];
      var (rep', re) := SplitPattern(s[1..]).value;
      SplitPatternShape(s[1..]);
      var rep := [s[0]] + rep';
      assert s[..|rep|] == [s[0]] + s[1..][..|rep'|];
      assert s[|s| - |re|..] == s[1..][|s| - 1 - |re|..];
      forall k | |rep| <= k < |s| - |re| ensures s[k] == ' ' {
        assert s[k] == s[1..][k - 1];
      }
    }
  }

  /** The pattern table that the loop over `pattern<i>` .. `pattern20` builds
      from `acc`. */
  function PatternsFrom(raw: map<int, string>, i: int, acc: Hash<string, string>): Result<Hash<string, string>, ConfigError>
    requires 1 <= i <= PatternMaxNum + 1
    decreases PatternMaxNum + 1 - i
  {
    if i > PatternMaxNum then Success(acc)
    else if i !in raw then PatternsFrom(raw, i + 1, acc)
    else match SplitPattern(raw[i])
      case None => Failure(BadPattern(i))
      case Some(parts) => PatternsFrom(raw, i + 1, Put(acc, parts.0, parts.1))
  }

  /** The `@pattern` table built by `configure`. */
  function Patterns(raw: map<int, string>): Result<Hash<string, string>, ConfigError> {
    PatternsFrom(raw, 1, Empty())
  }

  /** Option `patternN` is set and splits into its two parts. */
  predicate Splits(raw: map<int, string>, n: int) {
    n in raw && SplitPattern(raw[n]).Some?
  }

  /** The replacement string of option `patternN`. */
  function ReplacementOf(raw: map<int, string>, n: int): string
    requires Splits(raw, n)
  {
    SplitPattern(raw[n]).value.0
  }

  /** The regular expression source of option `patternN`. */
  function RegexpOf(raw: map<int, string>, n: int): string
    requires Splits(raw, n)
  {
    SplitPattern(raw[n]).value.1
  }

  /** One pass of the pattern loop, in terms of the option's parts. */
  lemma PatternsFromStep(raw: map<int, string>, i: int, acc: Hash<string, string>)
    requires 1 <= i <= PatternMaxNum
    ensures i !in raw ==> PatternsFrom(raw, i, acc) == PatternsFrom(raw, i + 1, acc)
    ensures i in raw && !Splits(raw, i) ==> PatternsFrom(raw, i, acc) == Failure(BadPattern(i))
    ensures Splits(raw, i) ==>
              PatternsFrom(raw, i, acc) == PatternsFrom(raw, i + 1, Put(acc, ReplacementOf(raw, i), RegexpOf(raw, i)))
  {
  }

  /** With no `patternN` option set the loop leaves the table as it was. */
  lemma {:induction false} PatternsFromNone(i: int, acc: Hash<string, string>)
    requires 1 <= i <= PatternMaxNum + 1
    ensures PatternsFrom(map[], i, acc) == Success(acc)
    decreases PatternMaxNum + 1 - i
  {
    if i <= PatternMaxNum {
      PatternsFromNone(i + 1, acc);
    }
  }

  /** The pattern loop fails exactly when some option among `pattern<i>` ..
      `pattern20` lacks its second part, and then names the first such. */
  lemma {:induction false} PatternsFromFails(raw: map<int, string>, i: int, acc: Hash<string, string>)
    requires 1 <= i <= PatternMaxNum + 1
    ensures PatternsFrom(raw, i, acc).Failure? <==> exists n | i <= n <= PatternMaxNum :: n in raw && !Splits(raw, n)
    ensures PatternsFrom(raw, i, acc).Failure? ==>
              && PatternsFrom(raw, i, acc).error.BadPattern?
              && var n := PatternsFrom(raw, i, acc).error.n;
              && i <= n <= PatternMaxNum && n in raw && !Splits(raw, n)
              && forall m | i <= m < n :: m in raw ==> Splits(raw, m)
    decreases PatternMaxNum + 1 - i
  {
    if i <= PatternMaxNum {
      PatternsFromStep(raw, i, acc);
      if i !in raw {
        PatternsFromFails(raw, i + 1, acc);
      } else if Splits(raw, i) {
        PatternsFromFails(raw, i + 1, Put(acc, ReplacementOf(raw, i), RegexpOf(raw, i)));
      }
    }
  }

  /** A stored replacement string keeps its value unless a later pattern
      reuses it. */
  lemma {:induction false} PatternsFromKeeps(raw: map<int, string>, i: int, acc: Hash<string, string>, rep: string)
    requires 1 <= i <= PatternMaxNum + 1
    requires PatternsFrom(raw, i, acc).Success?
    requires rep in acc.entries
    requires forall m | i <= m <= PatternMaxNum && Splits(raw, m) :: ReplacementOf(raw, m) != rep
    ensures rep in PatternsFrom(raw, i, acc).value.entries
    ensures PatternsFrom(raw, i, acc).value.entries[rep] == acc.entries[rep]
    decreases PatternMaxNum + 1 - i
  {
    if i <= PatternMaxNum {
      PatternsFromStep(raw, i, acc);
      if i !in raw {
        PatternsFromKeeps(raw, i + 1, acc, rep);
      } else {
        PatternsFromKeeps(raw, i + 1, Put(acc, ReplacementOf(raw, i), RegexpOf(raw, i)), rep);
      }
    }
  }

  /** The slots filled before the loop reaches `pattern<i>` stay first, in
      their order: a repeated replacement string does not move. */
  lemma {:induction false} PatternsFromExtends(raw: map<int, string>, i: int, acc: Hash<string, string>)
    requires 1 <= i <= PatternMaxNum + 1
    requires PatternsFrom(raw, i, acc).Success?
    ensures |acc.keys| <= |PatternsFrom(raw, i, acc).value.keys|
    ensures PatternsFrom(raw, i, acc).value.keys[..|acc.keys|] == acc.keys
    decreases PatternMaxNum + 1 - i
  {
    if i <= PatternMaxNum {
      PatternsFromStep(raw, i, acc);
      if i !in raw {
        PatternsFromExtends(raw, i + 1, acc);
      } else {
        var next := Put(acc, ReplacementOf(raw, i), RegexpOf(raw, i));
        PatternsFromExtends(raw, i + 1, next);
        assert next.keys[..|acc.keys|] == acc.keys;
      }
    }
  }

  /** Each replacement string maps to the regular expression of the LAST
      option that uses it: a repeated replacement string overwrites the
      earlier regular expression. */
  lemma {:induction false} PatternsFromLastWins(raw: map<int, string>, i: int, acc: Hash<string, string>, n: int)
    requires 1 <= i <= n <= PatternMaxNum
    requires Splits(raw, n)
    requires PatternsFrom(raw, i, acc).Success?
    requires forall m | n < m <= PatternMaxNum && Splits(raw, m) :: ReplacementOf(raw, m) != ReplacementOf(raw, n)
    ensures ReplacementOf(raw, n) in PatternsFrom(raw, i, acc).value.entries
    ensures PatternsFrom(raw, i, acc).value.entries[ReplacementOf(raw, n)] == RegexpOf(raw, n)
    decreases PatternMaxNum + 1 - i
  {
    PatternsFromStep(raw, i, acc);
    var res := PatternsFrom(raw, i, acc);
    if i < n {
      if i !in raw {
        assert res == PatternsFrom(raw, i + 1, acc);
        PatternsFromLastWins(raw, i + 1, acc, n);
      } else {
        assert Splits(raw, i);
        var next := Put(acc, ReplacementOf(raw, i), RegexpOf(raw, i));
        assert res == PatternsFrom(raw, i + 1, next);
        PatternsFromLastWins(raw, i + 1, next, n);
      }
    } else {
      var rep := ReplacementOf(raw, n);
      var next := Put(acc, rep, RegexpOf(raw, n));
      assert res == PatternsFrom(raw, n + 1, next);
      PatternsFromKeeps(raw, n + 1, next, rep);
    }
  }

  /** One pass of the pattern loop: stores `pattern<i>` when it is set, or
      raises when it lacks its second part. */
  method StorePattern(raw: map<int, string>, i: int, pattern: Hash<string, string>) returns (r: Result<Hash<string, string>, ConfigError>)
    requires 1 <= i <= PatternMaxNum
    ensures r.Failure? ==> r == PatternsFrom(raw, i, pattern)
    ensures r.Success? ==> PatternsFrom(raw, i + 1, r.value) == PatternsFrom(raw, i, pattern)
  {
    if i !in raw {
      return Success(pattern);
    }
    var parts := SplitPattern(raw[i]);
    if parts.None? {
      return Failure(BadPattern(i));
    }
    var replace := parts.value.0;
    var regexp := parts.value.1;
    r := Success(Put(pattern, replace, regexp));
  }

  /** `CompilePatterns`: the loop over `pattern1` .. `pattern20` that fills
      `@pattern`, raising on the first option without two parts. */
  method CompilePatterns(raw: map<int, string>) returns (r: Result<Hash<string, string>, ConfigError>)
    ensures r == Patterns(raw)
  {
    var pattern: Hash<string, string> := Empty();
    var i := 1;
    while i <= PatternMaxNum
      invariant 1 <= i <= PatternMaxNum + 1
      invariant PatternsFrom(raw, i, pattern) == Patterns(raw)
    {
      var step := StorePattern(raw, i, pattern);
      if step.Failure? {
        return step;
      }
      pattern := step.value;
      i := i + 1;
    }
    return Success(pattern);
  }

  /** `configure`: validates the options in the order the source does and
      computes the normalised settings. */
  method Configure(raw: RawConfig) returns (r: Result<Config, ConfigError>)
    ensures r.Success? <==>
              && IntervalOf(raw).Success?
              && AggregateOf(raw.aggregate).Success?
              && !(raw.outputPerTag && raw.addTagPrefix.None? && raw.tagPrefix.None?)
              && Patterns(raw.patterns).Success?
    ensures IntervalOf(raw).Failure? ==> r == Failure(BadUnit)
    ensures IntervalOf(raw).Success? && AggregateOf(raw.aggregate).Failure? ==> r == Failure(BadAggregate)
    ensures (&& IntervalOf(raw).Success? && AggregateOf(raw.aggregate).Success? && raw.outputPerTag
             && raw.addTagPrefix.None? && raw.tagPrefix.None?) ==> r == Failure(TagPrefixRequired)
    // then the first malformed `patternN`, as the pattern loop reports it
    ensures (&& IntervalOf(raw).Success? && AggregateOf(raw.aggregate).Success?
             && !(raw.outputPerTag && raw.addTagPrefix.None? && raw.tagPrefix.None?)
             && Patterns(raw.patterns).Failure?) ==> r == Failure(Patterns(raw.patterns).error)
    ensures r.Success? ==>
              var c := r.value;
              && c.countInterval == IntervalOf(raw).value
              && c.aggregate == AggregateOf(raw.aggregate).value
              && c.outputPerTag == raw.outputPerTag
              && c.tag == raw.tag
              // the obsolete spellings stand in for the new ones
              && c.tagPrefixString == PrefixString(if raw.addTagPrefix.Some? then raw.addTagPrefix else raw.tagPrefix)
              && c.removeTagPrefix == (if raw.removeTagPrefix.Some? then raw.removeTagPrefix else raw.inputTagRemovePrefix)
              && c.groupByKeys == (if raw.groupByKeys.Some? then Some(Text.Split(raw.groupByKeys.value, ',')) else None)
              && c.groupByExpression == raw.groupByExpression
              && c.maxKey == raw.maxKey && c.minKey == raw.minKey && c.avgKey == raw.avgKey
              && c.delimiter == raw.delimiter && c.countSuffix == raw.countSuffix
              && c.maxSuffix == raw.maxSuffix && c.minSuffix == raw.minSuffix && c.avgSuffix == raw.avgSuffix
              && c.patterns == Patterns(raw.patterns).value
  {
    var interval := IntervalOf(raw);
    if interval.Failure? {
      return Failure(interval.error);
    }
    var aggregate := AggregateOf(raw.aggregate);
    if aggregate.Failure? {
      return Failure(aggregate.error);
    }
    var addTagPrefix := if raw.addTagPrefix.Some? then raw.addTagPrefix else raw.tagPrefix;
    var removeTagPrefix := if raw.removeTagPrefix.Some? then raw.removeTagPrefix else raw.inputTagRemovePrefix;
    if raw.outputPerTag && addTagPrefix.None? {
      return Failure(TagPrefixRequired);
    }
    var groupByKeys := if raw.groupByKeys.Some? then Some(Text.Split(raw.groupByKeys.value, ',')) else None;
    var pattern := CompilePatterns(raw.patterns);
    if pattern.Failure? {
      return Failure(pattern.error);
    }
    r := Success(Config(interval.value, raw.outputPerTag, aggregate.value, raw.tag,
                        PrefixString(addTagPrefix), removeTagPrefix, groupByKeys, raw.groupByExpression,
                        raw.maxKey, raw.minKey, raw.avgKey, raw.delimiter, raw.countSuffix,
                        raw.maxSuffix, raw.minSuffix, raw.avgSuffix, pattern.value));
  }
}
