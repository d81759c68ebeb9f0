# groupcounter, modelled in Dafny

A model of `Fluent::GroupCounterOutput` from `lib/fluent/plugin/out_groupcounter.rb`.
This Fluentd output plugin counts the records of incoming event streams per group.

- **Group key.** A record's group is either the configured fields joined with a delimiter, or a `group_by_expression` template.
- **Patterns.** The key is then rewritten by the first matching `patternN`.
- **Statistics.** Each group carries a count and, where configured, the sum (for the average), the maximum and the minimum of one field.
- **Scopes.** Counts live in scopes. A scope is the input tag, or the single scope `all` under `aggregate all`.
- **Flush.** Once per `count_interval` the table is flushed. It is formatted either as one message per (stripped) tag or as one merged message, then emitted.
- **Status file.** On shutdown the table can be stored. On start it is taken back when the settings match and no full interval has passed.

The project has these modules:

| Module | File | What it models |
|---|---|---|
| `OrderedMap` | `ordered_map.dfy` | Ruby's insertion-ordered `Hash`: a key keeps the slot where it was first stored. |
| `Text` | `text.dfy` | `Array#join` and `String#split` with a one-character separator. |
| `Stats` | `stats.dfy` | The accumulator and `countup` with the nil-aware `sum`, `max` and `min`. |
| `Settings` | `settings.dfy` | `configure`: defaults, validation order, obsolete option spellings, `patternN` parsing. |
| `GroupKeys` | `group_keys.dfy` | `group_key` and its first-match-wins pattern loop. |
| `Tables` | `tables.dfy` | The record loop of `emit` and the merge of `summarize_counts`. |
| `Output` | `output.dfy` | `generate_fields`, `generate_output`, `stripped_tag` and the emissions of `flush_emit`. |
| `Persistence` | `persistence.dfy` | The status snapshot of `save_status` and `load_status`. |
| `Plugin` | `plugin.dfy` | A class holding `@counts`, `@last_checked`, `@saved_at` and `@saved_duration`. Its methods update these fields in place, as the plugin's methods do. |
| `Scenarios`, `ConfigScenarios` | `scenarios.dfy` | The request-log example and the configurations of the plugin's test file, worked through the model. |

Each of the following loops is a `method`, proved equal to a specification function:

- the record loop of `emit`;
- the merge loop of `summarize_counts`;
- the group loop of `generate_fields`;
- both scope loops of `generate_output`;
- the pattern loops of `configure` and of `group_key`;
- the emit loop of `flush_emit`.

Properties are then proved about those functions.

Regular-expression matching, substitution and evaluation of `group_by_expression` are not modelled. They are parameters of the model: the `Env` datatype holds `matches`, `gsub` and `expand`. The clock is the parameter `now` of the methods that read it.

Where the code and its documentation differ, the model follows the code:

- `emit` drops a whole batch when any record fails. Its `rescue` covers the whole method, so a record whose statistic has no `to_f`, or whose group expression raises, discards the records before it as well (`Tables.TallyDrops`).
- `load_status` ignores a snapshot that is older than one interval, as well as one taken under a different `aggregate` or `group_by_keys`.
- Per-tag output under `aggregate all` reads only the scope `all`. Its output tag is `all`, unstripped.
- A `patternN` whose text begins with a space has the empty replacement string. One that ends with a space has the empty regular expression. Only a text with no space at all is rejected.

## Model

| member | source | states |
|---|---|---|
| OrderedMap.Put | lib/fluent/plugin/out_groupcounter.rb:206-207 | `h[k] = v` stores the value; a new key takes the last slot, a stored key keeps its slot. |
| OrderedMap.PutKeepsSlots | lib/fluent/plugin/out_groupcounter.rb:206-207 | A key's slot never moves once it is stored. |
| OrderedMap.PutAllLastWriter | lib/fluent/plugin/out_groupcounter.rb:138 | Of several stores under one key, the last decides its value. |
| OrderedMap.PutAllSlots | lib/fluent/plugin/out_groupcounter.rb:136-140 | Pairs with distinct keys stored into an empty hash take one slot each, in order. |
| OrderedMap.OverlayKeys | lib/fluent/plugin/out_groupcounter.rb:120-124 | A key is written into `output` exactly when it was there already or some written map holds it. |
| OrderedMap.OverlayLastWriter | lib/fluent/plugin/out_groupcounter.rb:120-124 | The last map that writes a key decides its value. |
| OrderedMap.OverlayUntouched | lib/fluent/plugin/out_groupcounter.rb:120-124 | A key that no written map holds keeps its value. |
| Stats.CountUp | lib/fluent/plugin/out_groupcounter.rb:232-237 | The count adds up, with nil counting as 0. The sum, max and min change only when configured and present in the delta. The sum then adds up through the `sum` helper (`Stats.SumOf`, lines 256-260), nil counting as 0, and the max (min) is the larger (smaller) of the two, one of the operands. |
| Stats.MaxOf | lib/fluent/plugin/out_groupcounter.rb:262-266 | nil only when both operands are nil; otherwise one of them, at least as large as each non-nil operand. |
| Stats.MinOf | lib/fluent/plugin/out_groupcounter.rb:268-272 | nil only when both operands are nil; otherwise one of them, at most as large as each non-nil operand. |
| Stats.CountUpConforms | lib/fluent/plugin/out_groupcounter.rb:232-237 | Merging never introduces a statistic that is not configured. |
| Stats.CountUpCommutes | lib/fluent/plugin/out_groupcounter.rb:232-237 | Merging accumulators that carry only configured statistics does not depend on their order. |
| Stats.CountUpNotCommutativeInGeneral | lib/fluent/plugin/out_groupcounter.rb:234 | Without that condition, order matters: an unconfigured sum stays on the left operand. |
| Stats.CountUpAssociates | lib/fluent/plugin/out_groupcounter.rb:232-237 | Merging is associative. |
| Stats.FreshIsNeutral | lib/fluent/plugin/out_groupcounter.rb:206-207 | The `{}` created by `\|\|= {}` is a neutral element of the merge. |
| Settings.Truncate | lib/fluent/plugin/out_groupcounter.rb:43 | `to_i` truncates toward zero. |
| Settings.IntervalOf | lib/fluent/plugin/out_groupcounter.rb:42-52 | The interval is the truncated `count_interval` when set; otherwise 60, 3600 or 86400 for minute, hour or day. Any other unit fails, and fails only then. |
| Settings.AggregateOf | lib/fluent/plugin/out_groupcounter.rb:54-59 | `tag` and `all` are accepted; anything else fails with the aggregate error. |
| Settings.PrefixString | lib/fluent/plugin/out_groupcounter.rb:66-70 | Empty exactly without a prefix; otherwise the prefix followed by one dot. |
| Settings.SplitPattern | lib/fluent/plugin/out_groupcounter.rb:81-82 | A pattern text splits into two parts exactly when it contains a space. |
| Settings.SplitPatternShape | lib/fluent/plugin/out_groupcounter.rb:81 | The text is the replacement, a run of spaces, then the regular expression; the replacement holds no space and the expression does not start with one. |
| Settings.SkipSpacesShape | lib/fluent/plugin/out_groupcounter.rb:81 | Skipping the leading spaces leaves a suffix that does not start with a space, and everything dropped is a space. |
| Settings.StorePattern | lib/fluent/plugin/out_groupcounter.rb:80-83 | One pass of the pattern loop either fails as the whole loop does, or stores a table from which the rest of the loop gives the same result. |
| Settings.PatternsFromNone | lib/fluent/plugin/out_groupcounter.rb:78-84 | With no `patternN` set the pattern table stays empty. |
| Settings.PatternsFromFails | lib/fluent/plugin/out_groupcounter.rb:79-82 | Configuration fails exactly when a set `patternN` lacks its second part, and the error names the first such N. |
| Settings.PatternsFromKeeps | lib/fluent/plugin/out_groupcounter.rb:83 | A stored replacement keeps its expression unless a later pattern reuses the replacement. |
| Settings.PatternsFromExtends | lib/fluent/plugin/out_groupcounter.rb:83 | The loop only appends slots: the slots already stored keep their order. |
| Settings.PatternsFromLastWins | lib/fluent/plugin/out_groupcounter.rb:83 | Among patterns with the same replacement, the last one's expression is stored. |
| Settings.CompilePatterns | lib/fluent/plugin/out_groupcounter.rb:78-84 | The pattern loop computes the pattern table, or the first malformed pattern's error. |
| Settings.Configure | lib/fluent/plugin/out_groupcounter.rb:39-84 | Succeeds exactly when the unit or interval, the aggregate, the prefix under `output_per_tag` and every pattern are valid. Errors come in source order: the unit, the aggregate, the missing prefix, then the first malformed `patternN`. The obsolete spellings stand in for unset new ones, and `group_by_keys` is split on commas. Every setting is stated. |
| Text.SplitJoin | lib/fluent/plugin/out_groupcounter.rb:76 | Splitting on commas undoes joining with commas when no part holds a comma and the last part is not empty. |
| Text.JoinSplitAll | lib/fluent/plugin/out_groupcounter.rb:76 | The fields of a split hold no separator, and joining them back gives the string. |
| Text.SplitAllJoin | lib/fluent/plugin/out_groupcounter.rb:246 | Joining parts without the separator and splitting again gives the parts back. |
| GroupKeys.GroupKey | lib/fluent/plugin/out_groupcounter.rb:240-254 | No grouping gives the empty key. Field-list mode never raises. The expression takes precedence and raises exactly when its evaluation does. |
| GroupKeys.FieldListKeyParts | lib/fluent/plugin/out_groupcounter.rb:245-246 | With a one-character delimiter that no value contains, the raw key splits back into the configured fields' values in order, with `undef` for each missing, nil or false field. |
| GroupKeys.RewriteFirstMatch | lib/fluent/plugin/out_groupcounter.rb:252 | The key is the substitution by the first pattern, in slot order, whose expression matches. No later pattern is applied. |
| GroupKeys.RewriteNoMatch | lib/fluent/plugin/out_groupcounter.rb:252 | When no pattern matches, the key is unchanged. |
| GroupKeys.FieldListKeyUnrewritten | lib/fluent/plugin/out_groupcounter.rb:244-253 | In field-list mode with no pattern matching, the group key is the joined field values. |
| GroupKeys.RewriteKey | lib/fluent/plugin/out_groupcounter.rb:252 | The pattern loop with its `break` computes the first-match rewrite. |
| GroupKeys.ComputeGroupKey | lib/fluent/plugin/out_groupcounter.rb:240-254 | `group_key` computes `GroupKey`. |
| Tables.Delta | lib/fluent/plugin/out_groupcounter.rb:198-202 | A record's delta counts 1 and carries only configured statistics. The sum, max and min are the numbers of the `avg_key`, `max_key` and `min_key` fields, each absent when its option is unset or its field is nil, false or missing. The delta fails exactly when a present field has no number. |
| Tables.TallyDrops | lib/fluent/plugin/out_groupcounter.rb:193-214 | The batch is dropped exactly when one of its records raises. |
| Tables.TallyCounts | lib/fluent/plugin/out_groupcounter.rb:197-208 | A group's count grows by the number of the batch's records with that key. A group is created only when such a record exists. |
| Tables.TallySum | lib/fluent/plugin/out_groupcounter.rb:197-208 | After a batch, a group's sum is its records' `avg_key` readings added to what it held, nil counting as 0; it stays nil while no record has a reading. |
| Tables.TallyMax | lib/fluent/plugin/out_groupcounter.rb:197-208 | After a batch, a group's max is the `max` helper folded over its records' `max_key` readings, starting from what it held. |
| Tables.TallyMin | lib/fluent/plugin/out_groupcounter.rb:197-208 | After a batch, a group's min is the `min` helper folded over its records' `min_key` readings, starting from what it held. |
| Tables.TallyConforms | lib/fluent/plugin/out_groupcounter.rb:197-208 | The batch's accumulators carry only configured statistics. |
| Tables.BatchCounts | lib/fluent/plugin/out_groupcounter.rb:194-208 | The record loop builds the batch table, or stops at the first record that raises. |
| Tables.ScopeOf | lib/fluent/plugin/out_groupcounter.rb:218 | The scope is `all` under aggregate all, else the tag. |
| Tables.MergeFromEntry | lib/fluent/plugin/out_groupcounter.rb:222-225 | Each batch group is merged into the stored group of the same key, created fresh when missing. Other groups are untouched. |
| Tables.MergeFromSlots | lib/fluent/plugin/out_groupcounter.rb:222-225 | Merged into a scope holding exactly the earlier batch groups, the groups keep the batch's order. |
| Tables.MergeIntoEmpty | lib/fluent/plugin/out_groupcounter.rb:219-225 | A batch merged into a scope that does not exist yet is stored as it is. |
| Tables.IngestCounts | lib/fluent/plugin/out_groupcounter.rb:193-230 | Ingesting a batch changes only its scope, and there only the groups that occur in it. Each such group's count grows by its number of records. |
| Tables.AggregateAllAddsUp | lib/fluent/plugin/out_groupcounter.rb:218 | Under aggregate all, two batches from different tags add their counts in scope `all`. |
| Output.StrippedTagSpec | lib/fluent/plugin/out_groupcounter.rb:274-278 | The tag is stripped exactly when it strictly extends the prefix and its dot, and only the non-empty rest remains. |
| Output.GroupFieldsShape | lib/fluent/plugin/out_groupcounter.rb:119-126 | A group writes its count field always. Min and max fields come only when present, and avg only for a sum over a positive count, as sum / count. Each field keeps its value unless a later field of the group has the same name. |
| Output.EmptyGroupNames | lib/fluent/plugin/out_groupcounter.rb:120 | The empty group key puts no delimiter before a statistic's name. |
| Output.FieldsOfGroups | lib/fluent/plugin/out_groupcounter.rb:115-130 | A name is decided by the last group that writes it. |
| Output.FieldsOfNames | lib/fluent/plugin/out_groupcounter.rb:115-130 | The names written are those already in `output` and those of the groups' fields, and no others. |
| Output.WriteGroup | lib/fluent/plugin/out_groupcounter.rb:120-124 | One group's assignments add its fields to `output`. |
| Output.GenerateFields | lib/fluent/plugin/out_groupcounter.rb:115-130 | A nil table gives an empty hash; otherwise every group's fields are written into `output` in slot order. |
| Output.OutputOf | lib/fluent/plugin/out_groupcounter.rb:132-150 | The output is per tag exactly when `output_per_tag` is set. |
| Output.AggregateAllOutput | lib/fluent/plugin/out_groupcounter.rb:133-142 | Under aggregate all, only scope `all` is formatted, and its fields carry no prefix. Per tag, the output is the single message under the unstripped tag `all`. Merged, it is the message. |
| Output.AggregateAllReadsAll | lib/fluent/plugin/out_groupcounter.rb:133-142 | Under aggregate all, two tables that agree on scope `all` give the same output. |
| Output.PerTagSlots | lib/fluent/plugin/out_groupcounter.rb:136-140 | Aggregating by tag with distinct stripped tags, the per-tag output of `generate_output` has one message per scope, in scope order. |
| Output.PerTagLastScope | lib/fluent/plugin/out_groupcounter.rb:138 | Aggregating by tag, scopes stripping to the same tag share one message of the per-tag output, and the last one decides it. |
| Output.MergedMessage | lib/fluent/plugin/out_groupcounter.rb:144-148 | Aggregating by tag, a field of the merged output comes from the last scope that writes its name, prefixed with its stripped tag and the delimiter. |
| Output.TagEntry | lib/fluent/plugin/out_groupcounter.rb:138 | One pass of the per-tag loop yields that scope's pair. |
| Output.PerTagOutput | lib/fluent/plugin/out_groupcounter.rb:136-140 | The per-tag loop stores every scope's pair in order. |
| Output.WriteScope | lib/fluent/plugin/out_groupcounter.rb:146 | One pass of the merged loop writes that scope's fields over the message. |
| Output.MergedOutput | lib/fluent/plugin/out_groupcounter.rb:144-148 | The merged loop lays every scope's fields over the message in order. |
| Output.GenerateOutput | lib/fluent/plugin/out_groupcounter.rb:132-150 | `generate_output` computes `OutputOf` in all four cases. |
| Output.Emissions | lib/fluent/plugin/out_groupcounter.rb:158-168 | Per tag: one emission per message, in slot order, under the prefixed tag, even an empty one. Merged: one emission under `tag`, skipped exactly when the message is empty. |
| Persistence.SnapshotOf | lib/fluent/plugin/out_groupcounter.rb:287-295 | A snapshot holds the counts, the save time, a duration reaching back to the window start, and the aggregate and group keys. |
| Persistence.SnapshotResumes | lib/fluent/plugin/out_groupcounter.rb:283-321 | A plugin takes its own snapshot back exactly when restarted within one interval of the save, and its window resumes with the elapsed time it had. |
| Plugin.GroupCounter.constructor | lib/fluent/plugin/out_groupcounter.rb:93 | A configured plugin starts with an empty table and no timer or saved state. |
| Plugin.GroupCounter.SummarizeCounts | lib/fluent/plugin/out_groupcounter.rb:217-230 | The table becomes the batch merged into its scope. Nothing else changes. |
| Plugin.GroupCounter.Emit | lib/fluent/plugin/out_groupcounter.rb:193-214 | A batch with a raising record leaves the table unchanged; otherwise its groups are merged in. |
| Plugin.GroupCounter.Flush | lib/fluent/plugin/out_groupcounter.rb:152-155 | Returns the formatted old table and leaves an empty one. |
| Plugin.GroupCounter.FlushEmit | lib/fluent/plugin/out_groupcounter.rb:158-168 | Emits the old table's output at `now` and empties the table. |
| Plugin.GroupCounter.BeginWatch | lib/fluent/plugin/out_groupcounter.rb:177 | A window start already set, by a loaded snapshot for instance, is kept. |
| Plugin.GroupCounter.Tick | lib/fluent/plugin/out_groupcounter.rb:180-185 | When a full interval has passed, the tick flushes, emits and restarts the window at `now`; otherwise it does nothing. Afterwards the window is either new or younger than one interval. |
| Plugin.GroupCounter.SaveStatus | lib/fluent/plugin/out_groupcounter.rb:283-300 | Sets the save time. With a window start it also sets the saved duration and stores the snapshot; without one it stores nothing. |
| Plugin.GroupCounter.LoadStatus | lib/fluent/plugin/out_groupcounter.rb:306-332 | An acceptable snapshot restores counts, save time and duration, and resumes the window. Anything else changes nothing. |
| Plugin.MergeGroups | lib/fluent/plugin/out_groupcounter.rb:222-225 | The merge loop computes the merged scope. |
| Plugin.EmitAll | lib/fluent/plugin/out_groupcounter.rb:160-167 | The emit loop produces exactly `Emissions`. |
| Plugin.Restart | spec/out_groupcounter_spec.rb:225-243 | A shutdown followed by a start within one interval restores the stopped plugin's counts, save time and saved duration. |
| Scenarios.RequestKey | spec/out_groupcounter_spec.rb:68-74 | A request's key is code, method and path joined with `_`. |
| Scenarios.SampleTally | spec/out_groupcounter_spec.rb:68-75 | The record loop turns the four requests into the sample table. |
| Scenarios.SampleTableCounts | spec/out_groupcounter_spec.rb:77-82 | The sample table holds `200_GET_/ping`, `200_POST_/auth` and `400_GET_/ping` with counts 2, 1 and 1, in that order. |
| Scenarios.SampleGroups | spec/out_groupcounter_spec.rb:68-82 | The four requests group into 2, 1 and 1 records, in first-seen order. |
| Scenarios.SampleOccurrences | spec/out_groupcounter_spec.rb:68-82 | Each group key occurs as often as its count. |
| Scenarios.OccurrencesIgnoreTag | lib/fluent/plugin/out_groupcounter.rb:244-246 | Without a group expression the tag plays no part in grouping. |
| Scenarios.SampleAggregateAll | spec/out_groupcounter_spec.rb:187-206 | Sent under two tags with aggregate all, scope `all` counts 4, 2 and 2. |
| Scenarios.SentTwiceAll | spec/out_groupcounter_spec.rb:188-191 | Both sends land in scope `all`, which then holds the three groups with every count doubled, in first-seen order. |
| Scenarios.SampleAggregateAllEmission | spec/out_groupcounter_spec.rb:187-206 | A flush then emits one message under `count.all`, holding exactly the unprefixed count fields 4, 2 and 2. |
| Scenarios.SampleSummarized | lib/fluent/plugin/out_groupcounter.rb:217-225 | The sample merged into an empty table is stored unchanged under its tag. |
| Scenarios.SampleFields | spec/out_groupcounter_spec.rb:77-82 | The sample formats to exactly the three count fields 2, 1 and 1. |
| Scenarios.SamplePerTagOutput | spec/out_groupcounter_spec.rb:87-94 | The sample under tag `test` formats to one per-tag message. |
| Scenarios.SamplePerTagEmission | spec/out_groupcounter_spec.rb:76-94 | A flush emits one message under `count.test`, holding the three count fields 2, 1 and 1. |
| ConfigScenarios.LeastConfiguration | spec/out_groupcounter_spec.rb:36-45 | With only `group_by_keys foo`: interval 60, merged output, aggregate by tag, tag `groupcount`, no prefixes, keys `[foo]`. |
| ConfigScenarios.TemplateConfiguration | spec/out_groupcounter_spec.rb:13-19 | The template configuration gives interval 5, per-tag output with prefix `count.` and keys `[code, method, path]`. |
| ConfigScenarios.EmptyConfiguration | lib/fluent/plugin/out_groupcounter.rb:11-84 | With every option at its default, `configure` succeeds: merged output, no grouping. |
| ConfigScenarios.PerTagNeedsPrefix | lib/fluent/plugin/out_groupcounter.rb:63-65 | `output_per_tag` without a tag prefix is refused. |

## Left out

**Host and runtime**
- Regular expressions are parameters (`Env.matches`, `Env.gsub`), not a regex engine. An invalid expression, which `Regexp.compile` would reject in `configure`, is not modelled.
- `group_by_expression` evaluation (`expand_placeholder`, `eval`, `UndefOpenStruct`, lines 336-350) is the parameter `Env.expand`. None stands for an evaluation that raises.
- The watcher thread, `sleep 0.5`, the mutex and the concurrency between `emit` and `watch` are not modelled. `Tick` is one loop pass, and passes and batches interleave one at a time.
- One `now` per tick: a tick reads the clock three times, at lines 181 and 182 and again inside `flush_emit` at line 159 for the emission time. The model uses one value for the comparison, the emission time and the new window start.
- One `now` per load: `load_status` reads the clock twice, at line 315 for the staleness test and at line 321 for the rewound window start. `Plugin.GroupCounter.LoadStatus` uses one value for both.
- `Fluent::Engine.now`, `Fluent::Engine.emit`, `chain.next`, `$log` warnings, `Socket.gethostname` and `Pathname` are left out. Time is a parameter, and emissions are returned as a sequence.
- The file I/O and `Marshal` of `save_status`/`load_status` are left out. The stored snapshot is a value, and None stands for a missing, empty or unreadable file.
- The `store_file` writability check of `configure` (lines 86-91) is left out.
- `start` and `shutdown` (lines 98-109) appear only through `Plugin.Restart`.
- Which warning `load_status` logs is not modelled. The inner `if` at line 315 is the last operand of the `and` chain, so an outdated snapshot can log the "configuration changed" warning as well. Either way the snapshot is ignored.

**Values and arithmetic**
- A message is a `map`, so the model loses the order of its fields. The Ruby hash keeps insertion order: count, min, max and avg per group, groups in slot order. Which names a message holds and their values are modelled. The order of the messages themselves (per-tag output, emissions) is kept.
- Floats are reals: no IEEE rounding, NaN or infinity. `count_interval` arrives as a real already parsed from its time string.
- A record value is abstracted to its `to_s` text and its `to_f` number. `Array#join` flattening of array-valued fields and the ASCII-8BIT re-encoding of the key are not modelled.
- The commented-out rate, percentage and total-count code (lines 117, 125-126, 227-228) is not modelled.
- The test at spec/out_groupcounter_spec.rb:26-28 expects an empty configuration to raise a configuration error. Every `config_param` at lines 11-31 has a default and nothing in `configure` (lines 39-98) raises for an empty configuration: `ConfigScenarios.EmptyConfiguration` shows the defaults are accepted. The code as written does not meet that expectation, and the model follows the code.

**Weaker or restructured contracts**
- Plugin.GroupCounter.SummarizeCounts: the merge loop runs in the module-level `Plugin.MergeGroups` on the scope value, which is stored back once. This is equivalent to the source's in-place update of the one scope hash, but it does not model aliasing.
- Plugin.GroupCounter.FlushEmit: the emit loop runs in the module-level `Plugin.EmitAll`.
- Stats.CountUp: `countup` (lines 232-237) updates the accumulator hash in place. The model returns the new accumulator as a value, which the callers store back under the same key, so aliasing of that hash is not modelled.
- Stats.CountUpCommutes: holds only for accumulators that carry only configured statistics. `Stats.CountUpNotCommutativeInGeneral` shows why.
- Plugin.Restart: the test's reset of the counts between shutdown and start is not needed. `LoadStatus` overwrites them.
