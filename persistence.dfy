/** The status file of `save_status` and `load_status`: what a shutdown
    stores and when a restart takes it back. */
module Persistence {
  import opened Wrappers
  import opened Settings
  import opened Tables

  /** The hash `save_status` marshals. */
  datatype Snapshot = Snapshot(
    counts: Table,
    savedAt: int,
    savedDuration: int,
    aggregate: Aggregate,
    groupByKeys: Option<seq<string>>)

  /** The snapshot stored at time `now` by a plugin whose current window
      started at `lastChecked`. */
  function SnapshotOf(cfg: Config, counts: Table, lastChecked: int, now: int): (s: Snapshot)
    ensures s.counts == counts && s.savedAt == now
    ensures s.savedAt - s.savedDuration == lastChecked
    ensures s.aggregate == cfg.aggregate && s.groupByKeys == cfg.groupByKeys
  {
    Snapshot(counts, now, now - lastChecked, cfg.aggregate, cfg.groupByKeys)
  }

  /** A stored snapshot is taken back only under the same aggregation and
      group keys, and only while no full interval has passed since it was
      saved. */
  predicate Accepts(cfg: Config, s: Snapshot, now: int) {
    && s.aggregate == cfg.aggregate
    && s.groupByKeys == cfg.groupByKeys
    && now <= s.savedAt + cfg.countInterval
  }

  /** The start of the resumed window: the saved duration is skipped so that
      counting continues where it stopped. */
  function ResumedWindow(s: Snapshot, now: int): int {
    now - s.savedDuration
  }

  /** A plugin restarted under the same settings takes its own snapshot back
      exactly when the restart comes within one interval of the save, and
      the resumed window has run for as long as it had at the save. */
  lemma SnapshotResumes(cfg: Config, counts: Table, lastChecked: int, saved: int, restarted: int)
    ensures Accepts(cfg, SnapshotOf(cfg, counts, lastChecked, saved), restarted) <==> restarted <= saved + cfg.countInterval
    ensures restarted - ResumedWindow(SnapshotOf(cfg, counts, lastChecked, saved), restarted) == saved - lastChecked
  {
  }
}
