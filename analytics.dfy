/** The in-memory event recorder of src/utils/analytics.ts: a list of events
    guarded by an enabled flag, and the convenience wrappers over its single
    shared instance. Timestamps and console output are not modelled. */
module EventRecorder {
  import opened Wrappers
  import Seqs

  /** A value in a `Record<string, any>` property bag. */
  datatype PropValue = Text(s: string) | Number(n: int) | Flag(b: bool)

  type Properties = map<string, PropValue>

  /** One recorded event: its name and the (possibly absent) properties. */
  datatype Event = Event(name: string, properties: Option<Properties>)

  const PageViewName: string := "Page View"

  /** `{ page: pageName, ...properties }`: the page name, unless the caller's
      own properties carry a `page` key, which is spread afterwards and wins. */
  function PageProperties(pageName: string, properties: Option<Properties>): (r: Properties)
    ensures "page" in r
    ensures properties.None? ==> r == map["page" := Text(pageName)]
    ensures properties.Some? && "page" in properties.value ==> r["page"] == properties.value["page"]
    ensures properties.Some? && "page" !in properties.value ==> r["page"] == Text(pageName)
    ensures properties.Some? ==> r.Keys == properties.value.Keys + {"page"}
    ensures properties.Some? ==> forall k :: k in properties.value ==> r[k] == properties.value[k]
  {
    match properties
    case None => map["page" := Text(pageName)]
    case Some(p) => map["page" := Text(pageName)] + p
  }

  /** The event `page(pageName, properties)` records. */
  function PageEvent(pageName: string, properties: Option<Properties>): Event {
    Event(PageViewName, Some(PageProperties(pageName, properties)))
  }

  /** The recorder's whole state, as a value. */
  datatype RecorderState = RecorderState(events: seq<Event>, enabled: bool)

  /** The public calls on the recorder. */
  datatype Call =
    | Track(name: string, properties: Option<Properties>)
    | Identify(userId: string, traits: Option<Properties>)
    | Page(pageName: string, pageProperties: Option<Properties>)
    | Clear
    | Enable
    | Disable

  /** The event a recording call produces. */
  function EventOf(c: Call): Event
    requires c.Track? || c.Page?
  {
    if c.Track? then Event(c.name, c.properties) else PageEvent(c.pageName, c.pageProperties)
  }

  /** The effect of one call on the recorder. */
  function Step(st: RecorderState, c: Call): (r: RecorderState)
    ensures r.enabled == (c.Enable? || (st.enabled && !c.Disable?))
    ensures c.Clear? ==> r.events == []
    ensures (c.Track? || c.Page?) && st.enabled ==> r.events == st.events + [EventOf(c)]
    ensures !c.Clear? && !(st.enabled && (c.Track? || c.Page?)) ==> r.events == st.events
  {
    match c
    case Track(n, p) => if st.enabled then st.(events := st.events + [Event(n, p)]) else st
    case Identify(_, _) => st
    case Page(n, p) => if st.enabled then st.(events := st.events + [PageEvent(n, p)]) else st
    case Clear => st.(events := [])
    case Enable => st.(enabled := true)
    case Disable => st.(enabled := false)
  }

  /** The state after a sequence of calls, in order. */
  function Replay(st: RecorderState, calls: seq<Call>): RecorderState
    decreases |calls|
  {
    if calls == [] then st else Replay(Step(st, calls[0]), calls[1..])
  }

  /** Replaying two runs one after the other is replaying their concatenation. */
  lemma {:induction false} ReplayConcat(st: RecorderState, a: seq<Call>, b: seq<Call>)
    ensures Replay(st, a + b) == Replay(Replay(st, a), b)
    decreases |a|
  {
    if a == [] {
      assert a + b == b;
    } else {
      assert (a + b)[1..] == a[1..] + b;
      ReplayConcat(Step(st, a[0]), a[1..], b);
    }
  }

  /** Without a clear, the list only grows at its end: earlier events stay, in order. */
  lemma {:induction false} ReplayAppendOnly(st: RecorderState, calls: seq<Call>)
    requires forall i :: 0 <= i < |calls| ==> !calls[i].Clear?
    ensures |st.events| <= |Replay(st, calls).events|
    ensures Replay(st, calls).events[..|st.events|] == st.events
    decreases |calls|
  {
    if calls != [] {
      var next := Step(st, calls[0]);
      ReplayAppendOnly(next, calls[1..]);
      assert next.events[..|st.events|] == st.events;
    }
  }

  /** While disabled, with no enable and no clear, nothing is recorded. */
  lemma {:induction false} DisabledRecordsNothing(st: RecorderState, calls: seq<Call>)
    requires !st.enabled
    requires forall i :: 0 <= i < |calls| ==> !calls[i].Enable? && !calls[i].Clear?
    ensures Replay(st, calls) == st
    decreases |calls|
  {
    if calls != [] {
      DisabledRecordsNothing(Step(st, calls[0]), calls[1..]);
    }
  }

  /** The events a run records when the recorder stays enabled: one per track or page call, in call order. */
  function Recorded(calls: seq<Call>): (r: seq<Event>)
    ensures |r| <= |calls|
  {
    var rec := Seqs.Filter(calls, (c: Call) => c.Track? || c.Page?);
    seq(|rec|, i requires 0 <= i < |rec| => assert rec[i] in rec; EventOf(rec[i]))
  }

  /** While enabled, with no disable and no clear, exactly the track and page calls are recorded, in order. */
  lemma {:induction false} EnabledRecordsEverything(st: RecorderState, calls: seq<Call>)
    requires st.enabled
    requires forall i :: 0 <= i < |calls| ==> !calls[i].Disable? && !calls[i].Clear?
    ensures Replay(st, calls) == RecorderState(st.events + Recorded(calls), true)
    decreases |calls|
  {
    if calls == [] {
      assert st.events + Recorded(calls) == st.events;
    } else {
      var c := calls[0];
      var next := Step(st, c);
      EnabledRecordsEverything(next, calls[1..]);
      if c.Track? || c.Page? {
        assert Recorded(calls) == [EventOf(c)] + Recorded(calls[1..]);
        assert st.events + Recorded(calls) == next.events + Recorded(calls[1..]);
      } else {
        assert Recorded(calls) == Recorded(calls[1..]);
      }
    }
  }

  /** After a clear, the list holds only what the calls after it recorded. */
  lemma ClearForgetsEarlierEvents(st: RecorderState, before: seq<Call>, after: seq<Call>)
    ensures Replay(st, before + [Clear] + after).events
         == Replay(RecorderState([], Replay(st, before).enabled), after).events
  {
    ReplayConcat(st, before + [Clear], after);
    ReplayConcat(st, before, [Clear]);
  }

  /** The recorder object: `events` is pushed in place, `isEnabled` flipped. */
  class Analytics {
    var events: seq<Event>
    var isEnabled: bool

    function State(): RecorderState
      reads this
    {
      RecorderState(events, isEnabled)
    }

    constructor ()
      ensures events == [] && isEnabled
    {
      events := [];
      isEnabled := true;
    }

    /** `track(eventName, properties)`. */
    method Track(eventName: string, properties: Option<Properties>)
      modifies this
      ensures isEnabled == old(isEnabled)
      ensures events == if old(isEnabled) then old(events) + [Event(eventName, properties)] else old(events)
      ensures State() == Step(old(State()), Call.Track(eventName, properties))
    {
      if !isEnabled {
        return;
      }
      var event := Event(eventName, properties);
      events := events + [event];
    }

    /** `identify(userId, traits)`: only logs, so the recorder is unchanged. */
    method Identify(userId: string, traits: Option<Properties>)
      ensures State() == Step(State(), Call.Identify(userId, traits))
    {
    }

    /** `page(pageName, properties)`: a "Page View" event through `track`. */
    method Page(pageName: string, properties: Option<Properties>)
      modifies this
      ensures isEnabled == old(isEnabled)
      ensures events == if old(isEnabled) then old(events) + [PageEvent(pageName, properties)] else old(events)
      ensures State() == Step(old(State()), Call.Page(pageName, properties))
    {
      if !isEnabled {
        return;
      }
      Track(PageViewName, Some(PageProperties(pageName, properties)));
    }

    /** `getEvents()`: the recorded events, in order. */
    method GetEvents() returns (es: seq<Event>)
      ensures es == events
    {
      es := events;
    }

    /** `clearEvents()`. */
    method ClearEvents()
      modifies this
      ensures events == [] && isEnabled == old(isEnabled)
      ensures State() == Step(old(State()), Call.Clear)
    {
      events := [];
    }

    /** `disable()`. */
    method Disable()
      modifies this
      ensures !isEnabled && events == old(events)
      ensures State() == Step(old(State()), Call.Disable)
    {
      isEnabled := false;
    }

    /** `enable()`. */
    method Enable()
      modifies this
      ensures isEnabled && events == old(events)
      ensures State() == Step(old(State()), Call.Enable)
    {
      isEnabled := true;
    }
  }

  /** `trackEvent`: `track` on the shared instance. */
  method TrackEvent(analytics: Analytics, name: string, properties: Option<Properties>)
    modifies analytics
    ensures analytics.State() == Step(old(analytics.State()), Track(name, properties))
  {
    analytics.Track(name, properties);
  }

  /** `trackPageView`: `page` on the shared instance. */
  method TrackPageView(analytics: Analytics, pageName: string, properties: Option<Properties>)
    modifies analytics
    ensures analytics.State() == Step(old(analytics.State()), Page(pageName, properties))
  {
    analytics.Page(pageName, properties);
  }

  /** `identifyUser`: `identify` on the shared instance. */
  method IdentifyUser(analytics: Analytics, userId: string, traits: Option<Properties>)
    ensures analytics.State() == Step(analytics.State(), Identify(userId, traits))
  {
    analytics.Identify(userId, traits);
  }
}
