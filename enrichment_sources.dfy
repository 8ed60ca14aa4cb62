/** The data-source panel of src/components/DataSources/EnrichmentSources.tsx:
    the add-source form, the statistics cards, the tabs and the status badge. */
module EnrichmentSources {
  import opened Wrappers
  import opened Strings
  import opened Seqs

  datatype SourceType = Database | Api | Webhook | File | Stream
  datatype Status = Connected | Disconnected | Error | Syncing

  function StatusName(s: Status): string {
    match s
    case Connected => "connected"
    case Disconnected => "disconnected"
    case Error => "error"
    case Syncing => "syncing"
  }

  /** A `DataSource`; `lastSync` is a millisecond timestamp and `config` keeps
      only string values. */
  datatype DataSource = DataSource(
    id: string, name: string, sourceType: SourceType, status: Status,
    lastSync: Option<int>, recordCount: Option<int>, description: string,
    config: map<string, string>)

  /** A `Partial<DataSource>`: the add form's draft and what `onAddSource` receives. */
  datatype PartialSource = PartialSource(
    id: Option<string>, name: Option<string>, sourceType: Option<SourceType>,
    status: Option<Status>, lastSync: Option<int>, recordCount: Option<int>,
    description: Option<string>, config: Option<map<string, string>>)

  const EmptyDraft := PartialSource(None, None, None, None, None, None, None, None)

  /** The guard of `handleAddSource`: a truthy name (present and non-empty) and a type. */
  predicate CanAdd(draft: PartialSource) {
    draft.name.Some? && draft.name.value != "" && draft.sourceType.Some?
  }

  /** The record `handleAddSource` passes to `onAddSource`: the draft spread
      first, then a fresh id, status disconnected, no records and an empty config. */
  function SubmittedSource(draft: PartialSource, newId: string): (r: PartialSource)
    ensures r.name == draft.name && r.sourceType == draft.sourceType
    ensures r.description == draft.description && r.lastSync == draft.lastSync
    ensures r.id == Some(newId) && r.status == Some(Disconnected)
    ensures r.recordCount == Some(0) && r.config == Some(map[])
  {
    draft.(id := Some(newId), status := Some(Disconnected), recordCount := Some(0), config := Some(map[]))
  }

  /** The complete `DataSource` a partial one describes, when every required field is present. */
  function Completed(p: PartialSource): Option<DataSource> {
    if p.id.Some? && p.name.Some? && p.sourceType.Some? && p.status.Some?
       && p.description.Some? && p.config.Some?
    then Some(DataSource(p.id.value, p.name.value, p.sourceType.value, p.status.value,
                         p.lastSync, p.recordCount, p.description.value, p.config.value))
    else None
  }

  /** Whatever the draft held for status, count or config, an accepted draft
      with a description yields a complete, disconnected, empty source of the
      chosen name and type. */
  lemma SubmittedSourceIsFresh(draft: PartialSource, newId: string)
    requires CanAdd(draft) && draft.description.Some?
    ensures var c := Completed(SubmittedSource(draft, newId));
      && c.Some? && c.value.id == newId
      && c.value.name == draft.name.value && c.value.name != ""
      && c.value.sourceType == draft.sourceType.value
      && c.value.status == Disconnected && c.value.recordCount == Some(0)
      && c.value.config == map[] && TotalRecords([c.value]) == 0
  {
    var c := Completed(SubmittedSource(draft, newId));
    TotalRecordsAppend([], c.value);
    assert [] + [c.value] == [c.value];
  }

  /** The add-source form's state, with the records passed to `onAddSource`. */
  class AddSourceForm {
    var isAddingSource: bool
    var newSource: PartialSource
    var submitted: seq<PartialSource>

    constructor ()
      ensures !isAddingSource && newSource == EmptyDraft && submitted == []
    {
      isAddingSource := false;
      newSource := EmptyDraft;
      submitted := [];
    }

    /** The "Add Source" header button. */
    method Open()
      modifies this
      ensures isAddingSource && newSource == old(newSource) && submitted == old(submitted)
    {
      isAddingSource := true;
    }

    /** "Cancel" closes the form and keeps the draft. */
    method Cancel()
      modifies this
      ensures !isAddingSource && newSource == old(newSource) && submitted == old(submitted)
    {
      isAddingSource := false;
    }

    method OnNameChange(text: string)
      modifies this
      ensures newSource == old(newSource).(name := Some(text))
      ensures isAddingSource == old(isAddingSource) && submitted == old(submitted)
    {
      newSource := newSource.(name := Some(text));
    }

    method OnTypeChange(t: SourceType)
      modifies this
      ensures newSource == old(newSource).(sourceType := Some(t))
      ensures isAddingSource == old(isAddingSource) && submitted == old(submitted)
    {
      newSource := newSource.(sourceType := Some(t));
    }

    method OnDescriptionChange(text: string)
      modifies this
      ensures newSource == old(newSource).(description := Some(text))
      ensures isAddingSource == old(isAddingSource) && submitted == old(submitted)
    {
      newSource := newSource.(description := Some(text));
    }

    /** `handleAddSource`, with the `Date.now()` id as a parameter: without a
        name and a type nothing happens; otherwise one record is emitted, the
        draft is emptied and the form closes. */
    method HandleAddSource(newId: string)
      modifies this
      ensures !CanAdd(old(newSource)) ==>
        && newSource == old(newSource) && isAddingSource == old(isAddingSource)
        && submitted == old(submitted)
      ensures CanAdd(old(newSource)) ==>
        && submitted == old(submitted) + [SubmittedSource(old(newSource), newId)]
        && newSource == EmptyDraft && !isAddingSource
    {
      if newSource.name.Some? && newSource.name.value != "" && newSource.sourceType.Some? {
        submitted := submitted + [SubmittedSource(newSource, newId)];
        newSource := EmptyDraft;
        isAddingSource := false;
      }
    }
  }

  // ---------------------------------------------------------------------
  // Statistics and tabs
  // ---------------------------------------------------------------------

  /** `s.recordCount || 0`. */
  function RecordsOrZero(s: DataSource): int {
    if s.recordCount.Some? then s.recordCount.value else 0
  }

  /** The Total Records card. */
  function TotalRecords(sources: seq<DataSource>): int {
    SumOf(sources, RecordsOrZero)
  }

  /** Each source adds its own count to the total, and one without a count adds nothing. */
  lemma TotalRecordsAppend(sources: seq<DataSource>, s: DataSource)
    ensures TotalRecords(sources + [s]) == TotalRecords(sources) + RecordsOrZero(s)
    ensures s.recordCount.None? ==> TotalRecords(sources + [s]) == TotalRecords(sources)
  {
    SumOfAppend(sources, [s], RecordsOrZero);
    assert SumOf([s], RecordsOrZero) == RecordsOrZero(s) + SumOf([], RecordsOrZero);
  }

  /** With no negative counts the total bounds every source's count. */
  lemma TotalRecordsBoundsEach(sources: seq<DataSource>)
    requires forall s :: s in sources ==> RecordsOrZero(s) >= 0
    ensures TotalRecords(sources) >= 0
    ensures forall s :: s in sources ==> RecordsOrZero(s) <= TotalRecords(sources)
  {
    SumOfNonNegative(sources, RecordsOrZero);
  }

  datatype Tab = AllTab | ConnectedTab | DatabaseTab | ApiTab

  predicate OnTab(tab: Tab, s: DataSource) {
    match tab
    case AllTab => true
    case ConnectedTab => s.status == Connected
    case DatabaseTab => s.sourceType == Database
    case ApiTab => s.sourceType == Api
  }

  /** The cards a tab lists; its trigger label shows the length of this list. */
  function TabSources(sources: seq<DataSource>, tab: Tab): (r: seq<DataSource>)
    ensures IsSubsequence(r, sources)
    ensures tab == AllTab ==> r == sources
    ensures tab == ConnectedTab ==> forall s :: s in r <==> s in sources && s.status == Connected
    ensures tab == DatabaseTab ==> forall s :: s in r <==> s in sources && s.sourceType == Database
    ensures tab == ApiTab ==> forall s :: s in r <==> s in sources && s.sourceType == Api
    ensures forall s :: multiset(r)[s] == if OnTab(tab, s) then multiset(sources)[s] else 0
  {
    var p := (s: DataSource) => OnTab(tab, s);
    FilterIsSubsequence(sources, p);
    FilterMultiset(sources, p);
    if tab == AllTab then FilterKeepsAll(sources, p); Filter(sources, p)
    else Filter(sources, p)
  }

  function TabCount(sources: seq<DataSource>, tab: Tab): (n: nat)
    ensures n <= |sources|
    ensures tab == AllTab ==> n == |sources|
  {
    |TabSources(sources, tab)|
  }

  /** The Sync Status card. */
  function SyncingCount(sources: seq<DataSource>): (n: nat)
    ensures n <= |sources|
  {
    |Filter(sources, (s: DataSource) => s.status == Syncing)|
  }

  /** The Connected and Sync Status cards count different sources, so
      together they never exceed Total Sources; the Databases and APIs tabs likewise. */
  lemma StatusCountsBounded(sources: seq<DataSource>)
    ensures TabCount(sources, ConnectedTab) + SyncingCount(sources) <= |sources|
    ensures TabCount(sources, DatabaseTab) + TabCount(sources, ApiTab) <= TabCount(sources, AllTab)
  {
    FilterDisjointBound(sources, (s: DataSource) => OnTab(ConnectedTab, s),
                        (s: DataSource) => s.status == Syncing);
    FilterDisjointBound(sources, (s: DataSource) => OnTab(DatabaseTab, s),
                        (s: DataSource) => OnTab(ApiTab, s));
  }

  /** `getStatusBadge`'s text: the status with its first letter upper-cased. */
  function StatusBadgeLabel(s: Status): (r: string)
    ensures |r| == |StatusName(s)| && r[0] == UpperChar(StatusName(s)[0])
    ensures r[1..] == StatusName(s)[1..]
  {
    Capitalize(StatusName(s))
  }

  lemma StatusBadgeLabels()
    ensures StatusBadgeLabel(Connected) == "Connected"
    ensures StatusBadgeLabel(Disconnected) == "Disconnected"
    ensures StatusBadgeLabel(Error) == "Error"
    ensures StatusBadgeLabel(Syncing) == "Syncing"
  {
  }
}
