/** Group-key derivation (`group_key`): the raw key from the field list or
    the group-by expression, then the ordered "first matching pattern wins,
    then stop" rewrite. */
module GroupKeys {
  import opened Wrappers
  import opened OrderedMap
  import opened Settings
  import Text

  /** A record value as the plugin sees it: nil, false, or a value with its
      `to_s` text and its `to_f` number (None when the value has no `to_f`,
      so that calling it raises). */
  datatype Value = Nil | False | Datum(text: string, number: Option<real>)

  type Record = map<string, Value>

  /** Ruby truthiness: everything but nil and false. */
  predicate Truthy(v: Value) {
    v.Datum?
  }

  /** The library behaviour the plugin calls into, as parameters:
      `matches(re, s)` says whether regular expression `re` matches somewhere
      in `s`; `gsub(re, s, rep)` replaces every match of `re` in `s` by `rep`;
      `expand(expr, tag, time, record)` evaluates the `group_by_expression`
      template, None when the evaluation raises. */
  datatype Env = Env(
    matches: (string, string) -> bool,
    gsub: (string, string, string) -> string,
    expand: (string, string, int, Record) -> Option<string>)

  /** `record[key] || 'undef'`, as text. */
  function FieldValue(record: Record, key: string): string {
    if key in record && Truthy(record[key]) then record[key].text else "undef"
  }

  /** The configured fields' values, in configured order. */
  function FieldValues(keys: seq<string>, record: Record): (r: seq<string>)
    ensures |r| == |keys|
  {
    seq(|keys|, i requires 0 <= i < |keys| => FieldValue(record, keys[i]))
  }

  /** The raw key of field-list mode: the values joined with the delimiter. */
  function FieldListKey(keys: seq<string>, record: Record, delimiter: string): string {
    Text.Join(FieldValues(keys, record), delimiter)
  }

  /** With a one-character delimiter that no value contains, the key splits
      back into the configured fields' values, in configured order, with
      `undef` standing for each missing field. */
  lemma FieldListKeyParts(keys: seq<string>, record: Record, c: char)
    requires |keys| >= 1
    requires forall i | 0 <= i < |keys| :: c !in FieldValue(record, keys[i])
    ensures var parts := Text.SplitAll(FieldListKey(keys, record, [c]), c);
            && |parts| == |keys|
            && forall i | 0 <= i < |keys| ::
                 parts[i] == (if keys[i] in record && Truthy(record[keys[i]]) then record[keys[i]].text else "undef")
  {
    var vs := FieldValues(keys, record);
    assert forall i | 0 <= i < |vs| :: c !in vs[i] by {
      forall i | 0 <= i < |vs| ensures c !in vs[i] {
        assert vs[i] == FieldValue(record, keys[i]);
      }
    }
    Text.SplitAllJoin(vs, c);
  }

  /** The regular expression stored in slot `i` of the pattern table. */
  function RegexpAt(pats: Hash<string, string>, i: nat): string
    requires i < |pats.keys|
  {
    KeyStored(pats, i);
    pats.entries[pats.keys[i]]
  }

  /** The rewrite, starting at slot `i` of the pattern table. */
  function RewriteFrom(env: Env, pats: Hash<string, string>, i: nat, key: string): string
    requires i <= |pats.keys|
    decreases |pats.keys| - i
  {
    if i == |pats.keys| then key
    else if env.matches(RegexpAt(pats, i), key) then env.gsub(RegexpAt(pats, i), key, pats.keys[i])
    else RewriteFrom(env, pats, i + 1, key)
  }

  /** The ordered rewrite of a raw key by the pattern table. */
  function Rewrite(env: Env, pats: Hash<string, string>, key: string): string {
    RewriteFrom(env, pats, 0, key)
  }

  /** First match wins: when slot `i` holds the first regular expression that
      matches, the key is that pattern's substitution, and no later pattern
      is applied to its result. */
  lemma {:induction false} RewriteFirstMatch(env: Env, pats: Hash<string, string>, key: string, i: nat)
    requires i < |pats.keys|
    requires env.matches(RegexpAt(pats, i), key)
    requires forall j | 0 <= j < i :: !env.matches(RegexpAt(pats, j), key)
    ensures Rewrite(env, pats, key) == env.gsub(RegexpAt(pats, i), key, pats.keys[i])
  {
    RewriteFirstMatchFrom(env, pats, key, 0, i);
  }

  lemma {:induction false} RewriteFirstMatchFrom(env: Env, pats: Hash<string, string>, key: string, k: nat, i: nat)
    requires k <= i < |pats.keys|
    requires env.matches(RegexpAt(pats, i), key)
    requires forall j | k <= j < i :: !env.matches(RegexpAt(pats, j), key)
    ensures RewriteFrom(env, pats, k, key) == env.gsub(RegexpAt(pats, i), key, pats.keys[i])
    decreases i - k
  {
    if k < i {
      RewriteFirstMatchFrom(env, pats, key, k + 1, i);
    }
  }

  /** When no pattern matches, the key is unchanged. */
  lemma {:induction false} RewriteNoMatch(env: Env, pats: Hash<string, string>, key: string)
    requires forall j | 0 <= j < |pats.keys| :: !env.matches(RegexpAt(pats, j), key)
    ensures Rewrite(env, pats, key) == key
  {
    RewriteNoMatchFrom(env, pats, key, 0);
  }

  lemma {:induction false} RewriteNoMatchFrom(env: Env, pats: Hash<string, string>, key: string, k: nat)
    requires k <= |pats.keys|
    requires forall j | k <= j < |pats.keys| :: !env.matches(RegexpAt(pats, j), key)
    ensures RewriteFrom(env, pats, k, key) == key
    decreases |pats.keys| - k
  {
    if k < |pats.keys| {
      RewriteNoMatchFrom(env, pats, key, k + 1);
    }
  }

  /** The pattern loop of `group_key`: tries the patterns in slot order and
      stops at the first one whose substitution happened. */
  method RewriteKey(env: Env, pats: Hash<string, string>, key: string) returns (r: string)
    ensures r == Rewrite(env, pats, key)
  {
    r := key;
    var i := 0;
    while i < |pats.keys|
      invariant 0 <= i <= |pats.keys|
      invariant r == key
      invariant RewriteFrom(env, pats, i, key) == Rewrite(env, pats, key)
    {
      var replace := pats.keys[i];
      var regexp := RegexpAt(pats, i);
      if env.matches(regexp, r) {
        r := env.gsub(regexp, r, replace);
        break;
      }
      i := i + 1;
    }
  }

  /** `group_key(tag, time, record)`: None when evaluating the expression
      raises. */
  function GroupKey(cfg: Config, env: Env, tag: string, time: int, record: Record): (r: Option<string>)
    // no grouping: the empty key, before and without any rewrite
    ensures cfg.groupByExpression.None? && cfg.groupByKeys.None? ==> r == Some("")
    // field-list mode never raises
    ensures cfg.groupByExpression.None? && cfg.groupByKeys.Some? ==> r.Some?
    // the expression takes precedence over the field list
    ensures cfg.groupByExpression.Some? ==> (r.None? <==> env.expand(cfg.groupByExpression.value, tag, time, record).None?)
  {
    if cfg.groupByExpression.Some? then
      match env.expand(cfg.groupByExpression.value, tag, time, record)
      case None => None
      case Some(raw) => Some(Rewrite(env, cfg.patterns, raw))
    else if cfg.groupByKeys.Some? then
      Some(Rewrite(env, cfg.patterns, FieldListKey(cfg.groupByKeys.value, record, cfg.delimiter)))
    else
      Some("")
  }

  /** In field-list mode with no pattern matching the raw key, the group key
      is the joined field values. */
  lemma FieldListKeyUnrewritten(cfg: Config, env: Env, tag: string, time: int, record: Record)
    requires cfg.groupByExpression.None? && cfg.groupByKeys.Some?
    requires var raw := FieldListKey(cfg.groupByKeys.value, record, cfg.delimiter);
             forall j | 0 <= j < |cfg.patterns.keys| :: !env.matches(RegexpAt(cfg.patterns, j), raw)
    ensures GroupKey(cfg, env, tag, time, record) == Some(FieldListKey(cfg.groupByKeys.value, record, cfg.delimiter))
  {
    RewriteNoMatch(env, cfg.patterns, FieldListKey(cfg.groupByKeys.value, record, cfg.delimiter));
  }

  /** `group_key` as the source computes it, with the pattern loop. */
  method ComputeGroupKey(cfg: Config, env: Env, tag: string, time: int, record: Record) returns (r: Option<string>)
    ensures r == GroupKey(cfg, env, tag, time, record)
  {
    var raw: string;
    if cfg.groupByExpression.Some? {
      var expanded := env.expand(cfg.groupByExpression.value, tag, time, record);
      if expanded.None? {
        return None;
      }
      raw := expanded.value;
    } else if cfg.groupByKeys.Some? {
      raw := FieldListKey(cfg.groupByKeys.value, record, cfg.delimiter);
    } else {
      return Some("");
    }
    var key := RewriteKey(env, cfg.patterns, raw);
    r := Some(key);
  }
}
