/** The snapshot list of src/components/DataHistory/DataHistoryManager.tsx:
    the search-and-period filter and the per-row actions. Timestamps are
    milliseconds since the epoch; the current time `now` is a parameter. */
module DataHistory {
  import opened Wrappers
  import opened Strings
  import opened Seqs

  datatype SnapshotKind = Automatic | Manual | Scheduled
  datatype SnapshotStatus = Completed | Processing | Failed

  /** A `DataSnapshot`; sizes are kept as whole numbers. */
  datatype Snapshot = Snapshot(
    id: string, timestamp: int, kind: SnapshotKind, size: int, events: int,
    users: int, status: SnapshotStatus, retention: string, description: Option<string>)

  const DayMs: int := 24 * 60 * 60 * 1000
  const WeekMs: int := 7 * DayMs
  const MonthMs: int := 30 * DayMs

  /** `matchesSearch`: `description?.toLowerCase().includes(...)` is undefined,
      hence falsy, when there is no description. */
  predicate MatchesSearch(s: Snapshot, searchTerm: string) {
    s.description.Some? && IncludesIgnoringCase(s.description.value, searchTerm)
  }

  /** `matchesPeriod`, with `Date.now()` as `now`. */
  predicate MatchesPeriod(s: Snapshot, period: string, now: int) {
    || period == "all"
    || (period == "week" && s.timestamp > now - WeekMs)
    || (period == "month" && s.timestamp > now - MonthMs)
  }

  predicate Shown(s: Snapshot, searchTerm: string, period: string, now: int) {
    MatchesSearch(s, searchTerm) && MatchesPeriod(s, period, now)
  }

  /** `filteredSnapshots`: the snapshots listed, in their original order. */
  function FilteredSnapshots(snapshots: seq<Snapshot>, searchTerm: string, period: string, now: int): (r: seq<Snapshot>)
    ensures IsSubsequence(r, snapshots)
    ensures forall s :: s in r <==> (s in snapshots && s.description.Some?
      && IncludesIgnoringCase(s.description.value, searchTerm)
      && (period == "all" || (period == "week" && s.timestamp > now - 604800000)
          || (period == "month" && s.timestamp > now - 2592000000)))
    ensures forall s :: multiset(r)[s] == if Shown(s, searchTerm, period, now) then multiset(snapshots)[s] else 0
  {
    var p := (s: Snapshot) => Shown(s, searchTerm, period, now);
    FilterIsSubsequence(snapshots, p);
    FilterMultiset(snapshots, p);
    Filter(snapshots, p)
  }

  /** A snapshot without a description is never listed, even for the empty search. */
  lemma UndescribedNeverShown(snapshots: seq<Snapshot>, s: Snapshot, searchTerm: string, period: string, now: int)
    requires s.description.None?
    ensures s !in FilteredSnapshots(snapshots, searchTerm, period, now)
  {
  }

  /** The empty search with "all" lists exactly the described snapshots. */
  lemma EmptySearchListsDescribed(snapshots: seq<Snapshot>, now: int)
    ensures forall s :: s in FilteredSnapshots(snapshots, "", "all", now) <==>
      s in snapshots && s.description.Some?
  {
    forall s | s in snapshots && s.description.Some?
      ensures s in FilteredSnapshots(snapshots, "", "all", now)
    {
      EmptySearchMatches(s.description.value);
    }
  }

  /** A period value other than "all", "week" and "month" lists nothing. */
  lemma UnknownPeriodListsNothing(snapshots: seq<Snapshot>, searchTerm: string, period: string, now: int)
    requires period != "all" && period != "week" && period != "month"
    ensures FilteredSnapshots(snapshots, searchTerm, period, now) == []
  {
    FilterKeepsNone(snapshots, (s: Snapshot) => Shown(s, searchTerm, period, now));
  }

  /** For one search and one `now`, the last week's list is an ordered
      selection of the last month's, which is one of the all-time list. */
  lemma {:induction false} PeriodsNested(snapshots: seq<Snapshot>, searchTerm: string, now: int)
    ensures IsSubsequence(FilteredSnapshots(snapshots, searchTerm, "week", now),
                          FilteredSnapshots(snapshots, searchTerm, "month", now))
    ensures IsSubsequence(FilteredSnapshots(snapshots, searchTerm, "month", now),
                          FilteredSnapshots(snapshots, searchTerm, "all", now))
  {
    var week := (s: Snapshot) => Shown(s, searchTerm, "week", now);
    var month := (s: Snapshot) => Shown(s, searchTerm, "month", now);
    var all := (s: Snapshot) => Shown(s, searchTerm, "all", now);
    FilterMonotone(snapshots, week, month);
    FilterMonotone(snapshots, month, all);
  }

  /** The enabled state of a row's Restore and Delete buttons. */
  datatype RowActions = RowActions(restoreEnabled: bool, deleteEnabled: bool)

  function ActionsFor(s: Snapshot): (r: RowActions)
    ensures r.restoreEnabled <==> s.status == Completed
    ensures r.deleteEnabled
  {
    RowActions(s.status == Completed, true)
  }
}
