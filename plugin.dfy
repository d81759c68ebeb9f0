/** The plugin object: its table of counts, the flush timer and the status
    file, as the methods of `Fluent::GroupCounterOutput` update them. */
module Plugin {
  import opened Wrappers
  import opened OrderedMap
  import opened Stats
  import opened Settings
  import opened GroupKeys
  import opened Tables
  import opened Output
  import opened Persistence

  class GroupCounter {
    /** The configuration `configure` produced. */
    const cfg: Config
    /** The regular expressions and the expression evaluator. */
    const env: Env
    /** `@counts`: scope => group key => accumulator. */
    var counts: Table
    /** `@last_checked`: the start of the current window; nil before the
        watcher starts. */
    var lastChecked: Option<int>
    /** `@saved_at` */
    var savedAt: Option<int>
    /** `@saved_duration` */
    var savedDuration: Option<int>

    /** A configured plugin starts with no counts and no timer. */
    constructor (cfg: Config, env: Env)
      ensures this.cfg == cfg && this.env == env
      ensures counts == Empty() && lastChecked == None && savedAt == None && savedDuration == None
    {
      this.cfg := cfg;
      this.env := env;
      counts := Empty();
      lastChecked := None;
      savedAt := None;
      savedDuration := None;
    }

    /** `summarize_counts(tag, group_counts)`: folds the batch's groups into
        the batch's scope, creating the scope when it is missing. */
    method SummarizeCounts(tag: string, groups: Scope)
      modifies this
      ensures counts == Summarize(cfg, old(counts), tag, groups)
      ensures lastChecked == old(lastChecked) && savedAt == old(savedAt) && savedDuration == old(savedDuration)
    {
      var s := ScopeOf(cfg, tag);
      var scope := MergeGroups(TrackedOf(cfg), Get(counts, s).GetOr(Empty()), groups);
      counts := Put(counts, s, scope);
    }

    /** `emit(tag, es, chain)`: counts a batch; a record whose group key or
        statistic raises drops the whole batch. */
    method Emit(tag: string, batch: seq<Event>)
      modifies this
      ensures Tally(cfg, env, tag, batch, Empty()).None? ==> counts == old(counts)
      ensures Tally(cfg, env, tag, batch, Empty()).Some? ==>
                counts == Summarize(cfg, old(counts), tag, Tally(cfg, env, tag, batch, Empty()).value)
      ensures lastChecked == old(lastChecked) && savedAt == old(savedAt) && savedDuration == old(savedDuration)
    {
      var groupCounts := BatchCounts(cfg, env, tag, batch);
      if groupCounts.Some? {
        SummarizeCounts(tag, groupCounts.value);
      }
    }

    /** `flush`: hands out the formatted counts and starts a new table. */
    method Flush() returns (out: Output)
      modifies this
      ensures out == OutputOf(cfg, old(counts))
      ensures counts == Empty()
      ensures lastChecked == old(lastChecked) && savedAt == old(savedAt) && savedDuration == old(savedDuration)
    {
      var flushed := counts;
      counts := Empty();
      out := GenerateOutput(cfg, flushed);
    }

    /** `flush_emit`: flushes and emits the result at time `now`. */
    method FlushEmit(now: int) returns (es: seq<Emission>)
      modifies this
      ensures es == Emissions(cfg, OutputOf(cfg, old(counts)), now)
      ensures counts == Empty()
      ensures lastChecked == old(lastChecked) && savedAt == old(savedAt) && savedDuration == old(savedDuration)
    {
      var out := Flush();
      es := EmitAll(cfg, out, now);
    }

    /** The start of `watch`: `@last_checked ||= now`. */
    method BeginWatch(now: int)
      modifies this
      ensures lastChecked == if old(lastChecked).Some? then old(lastChecked) else Some(now)
      ensures counts == old(counts) && savedAt == old(savedAt) && savedDuration == old(savedDuration)
    {
      if lastChecked.None? {
        lastChecked := Some(now);
      }
    }

    /** Whether a tick at `now` closes the current window. */
    predicate Due(now: int)
      reads this
    {
      lastChecked.Some? && now - lastChecked.value >= cfg.countInterval
    }

    /** One pass of the `watch` loop at time `now`: once a full interval has
        passed since the window started, the counts are flushed and emitted
        and a new window starts at `now`. Without a window start the
        comparison raises and the pass does nothing. */
    method Tick(now: int) returns (es: seq<Emission>)
      modifies this
      ensures old(Due(now)) ==> es == Emissions(cfg, OutputOf(cfg, old(counts)), now) && counts == Empty() && lastChecked == Some(now)
      ensures !old(Due(now)) ==> es == [] && counts == old(counts) && lastChecked == old(lastChecked)
      ensures old(lastChecked).Some? ==> lastChecked.Some? && (lastChecked == Some(now) || now - lastChecked.value < cfg.countInterval)
      ensures savedAt == old(savedAt) && savedDuration == old(savedDuration)
    {
      if lastChecked.Some? && now - lastChecked.value >= cfg.countInterval {
        es := FlushEmit(now);
        lastChecked := Some(now);
      } else {
        es := [];
      }
    }

    /** `save_status` at time `now`: records the save time and, when the
        window has a start, stores the counts with the time the window has
        run. Without a window start the subtraction raises after the file
        was opened for writing, which leaves nothing to load. */
    method SaveStatus(now: int) returns (stored: Option<Snapshot>)
      modifies this
      ensures savedAt == Some(now)
      ensures old(lastChecked).None? ==> stored.None? && savedDuration == old(savedDuration)
      ensures old(lastChecked).Some? ==>
                && savedDuration == Some(now - old(lastChecked).value)
                && stored == Some(SnapshotOf(cfg, old(counts), old(lastChecked).value, now))
      ensures counts == old(counts) && lastChecked == old(lastChecked)
    {
      savedAt := Some(now);
      if lastChecked.None? {
        return None;
      }
      savedDuration := Some(now - lastChecked.value);
      stored := Some(Snapshot(counts, now, now - lastChecked.value, cfg.aggregate, cfg.groupByKeys));
    }

    /** `load_status` at time `now`: a missing or unreadable file, a snapshot
        taken under other settings and an outdated one are ignored;
        otherwise the stored counts replace the current ones and the window
        resumes with its saved duration. */
    method LoadStatus(stored: Option<Snapshot>, now: int)
      modifies this
      ensures stored.Some? && Accepts(cfg, stored.value, now) ==>
                && counts == stored.value.counts
                && savedAt == Some(stored.value.savedAt)
                && savedDuration == Some(stored.value.savedDuration)
                && lastChecked == Some(ResumedWindow(stored.value, now))
      ensures !(stored.Some? && Accepts(cfg, stored.value, now)) ==>
                && counts == old(counts) && savedAt == old(savedAt)
                && savedDuration == old(savedDuration) && lastChecked == old(lastChecked)
    {
      if stored.Some? {
        var s := stored.value;
        if s.aggregate == cfg.aggregate && s.groupByKeys == cfg.groupByKeys && now <= s.savedAt + cfg.countInterval {
          counts := s.counts;
          savedAt := Some(s.savedAt);
          savedDuration := Some(s.savedDuration);
          lastChecked := Some(now - s.savedDuration);
        }
      }
    }
  }

  /** The merge loop of `summarize_counts`: every batch group is folded
      into the scope's accumulator for its key, created when missing. The
      scope is one hash that the loop updates in place. */
  method MergeGroups(t: Tracked, start: Scope, groups: Scope) returns (scope: Scope)
    ensures scope == MergeFrom(t, start, groups, 0)
  {
    scope := start;
    var i := 0;
    while i < |groups.keys|
      invariant 0 <= i <= |groups.keys|
      invariant MergeFrom(t, scope, groups, i) == MergeFrom(t, start, groups, 0)
    {
      var groupKey := groups.keys[i];
      KeyStored(groups, i);
      var merged := Put(scope, groupKey, CountUp(t, Lookup(scope, groupKey), groups.entries[groupKey]));
      assert MergeFrom(t, scope, groups, i) == MergeFrom(t, merged, groups, i + 1);
      scope := merged;
      i := i + 1;
    }
  }

  /** The emitting part of `flush_emit`: one emission per per-tag message,
      or the merged message unless it is empty. */
  method EmitAll(cfg: Config, out: Output, now: int) returns (es: seq<Emission>)
    ensures es == Emissions(cfg, out, now)
  {
    if out.PerTag? {
      var messages := out.messages;
      ghost var all := Emissions(cfg, out, now);
      es := [];
      var i := 0;
      while i < |messages.keys|
        invariant 0 <= i <= |messages.keys|
        invariant es == all[..i]
      {
        var tag := messages.keys[i];
        KeyStored(messages, i);
        es := es + [Emission(cfg.tagPrefixString + tag, now, messages.entries[tag])];
        i := i + 1;
      }
      assert all[..i] == all;
    } else {
      var message := out.message;
      if |message| == 0 {
        es := [];
      } else {
        es := [Emission(cfg.tag, now, message)];
      }
    }
  }

  /** A shutdown at `saved` followed by a start at `restarted`, within one
      interval and under the same settings: the new plugin has the old
      counts, save time and saved duration, and its window has run exactly
      as long as the old one had. */
  method Restart(stopped: GroupCounter, started: GroupCounter, saved: int, restarted: int)
    requires stopped.lastChecked.Some?
    requires started.cfg.aggregate == stopped.cfg.aggregate && started.cfg.groupByKeys == stopped.cfg.groupByKeys
    requires restarted <= saved + started.cfg.countInterval
    modifies stopped, started
    ensures started.counts == old(stopped.counts)
    ensures started.savedAt == stopped.savedAt == Some(saved)
    ensures started.savedDuration == stopped.savedDuration == Some(saved - old(stopped.lastChecked).value)
    ensures started.lastChecked.Some? && restarted - started.lastChecked.value == saved - old(stopped.lastChecked).value
  {
    var stored := stopped.SaveStatus(saved);
    started.LoadStatus(stored, restarted);
  }
}
