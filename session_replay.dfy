/** The session-replay player of src/components/SessionReplay.tsx: the session
    list filter, the `m:ss` clock, and the playback controller driven by the
    one-second interval and the player buttons.

    Time is counted in half-seconds, so the four playback speeds 0.5x, 1x, 1.5x
    and 2x advance the clock by 1, 2, 3 and 4 units per tick. A JavaScript number
    that is not a number (what `parseFloat` returns for a duration without a
    leading numeral) is the value NaN of `Num`. */
module SessionReplay {
  import opened Wrappers
  import opened Strings
  import Seqs

  datatype Device = Desktop | Mobile | Tablet
  datatype Status = Completed | Active | Error

  function DeviceName(d: Device): string {
    match d
    case Desktop => "desktop"
    case Mobile => "mobile"
    case Tablet => "tablet"
  }

  function StatusName(s: Status): string {
    match s
    case Completed => "completed"
    case Active => "active"
    case Error => "error"
  }

  /** The fields of `SessionData` the modelled logic reads. */
  datatype Session = Session(
    id: string,
    userId: string,
    userEmail: string,
    duration: string,
    clicks: int,
    device: Device,
    status: Status)

  // ---------------------------------------------------------------------
  // The session list filter
  // ---------------------------------------------------------------------

  /** The test of `filteredSessions` for one session. */
  predicate SessionMatches(s: Session, searchTerm: string, deviceFilter: string, statusFilter: string) {
    && (IncludesIgnoringCase(s.userEmail, searchTerm) || IncludesIgnoringCase(s.userId, searchTerm))
    && (deviceFilter == "all" || DeviceName(s.device) == deviceFilter)
    && (statusFilter == "all" || StatusName(s.status) == statusFilter)
  }

  /** `filteredSessions`: the matching sessions, in list order. */
  function FilteredSessions(sessions: seq<Session>, searchTerm: string, deviceFilter: string, statusFilter: string)
    : (r: seq<Session>)
    ensures forall s :: s in r <==> s in sessions && SessionMatches(s, searchTerm, deviceFilter, statusFilter)
    ensures Seqs.IsSubsequence(r, sessions)
    ensures forall s ::
      multiset(r)[s] == if SessionMatches(s, searchTerm, deviceFilter, statusFilter) then multiset(sessions)[s] else 0
  {
    var p := (s: Session) => SessionMatches(s, searchTerm, deviceFilter, statusFilter);
    Seqs.FilterIsSubsequence(sessions, p);
    Seqs.FilterMultiset(sessions, p);
    Seqs.Filter(sessions, p)
  }

  /** With an empty search and both filters on "all", every session is listed. */
  lemma DefaultFiltersListEverything(sessions: seq<Session>)
    ensures FilteredSessions(sessions, "", "all", "all") == sessions
  {
    forall s | s in sessions
      ensures SessionMatches(s, "", "all", "all")
    {
      EmptySearchMatches(s.userEmail);
    }
    Seqs.FilterKeepsAll(sessions, (s: Session) => SessionMatches(s, "", "all", "all"));
  }

  /** The engagement card: "High" above 20 clicks, "Medium" otherwise. */
  function EngagementLabel(clicks: int): (r: string)
    ensures r == "High" <==> clicks > 20
    ensures r == "Medium" <==> clicks <= 20
  {
    if clicks > 20 then "High" else "Medium"
  }

  // ---------------------------------------------------------------------
  // Numbers, the clock and the duration
  // ---------------------------------------------------------------------

  /** A JavaScript number of half-seconds, or NaN. */
  datatype Num = Finite(v: int) | NaN

  /** JavaScript's `a >= b`: false whenever either side is NaN. */
  predicate AtOrPast(a: Num, b: Num) {
    a.Finite? && b.Finite? && a.v >= b.v
  }

  /** `formatTime(seconds)`: `Math.floor(seconds / 60)`, a colon, and
      `Math.floor(seconds % 60)` padded to two characters with zeros. */
  function FormatTime(t: Num): string {
    match t
    case NaN => "NaN:NaN"
    case Finite(h) =>
      var mins := h / 120;
      var secs := h / 2 - 60 * TruncDiv(h, 120);
      IntToString(mins) + ":" + PadStart(IntToString(secs), 2, '0')
  }

  /** Two zero-padded digits of a number below 60. */
  function TwoDigits(n: nat): (r: string)
    requires n < 60
    ensures |r| == 2 && AllDigits(r) && DigitsValue(r) == n
  {
    var r := [DigitChar(n / 10), DigitChar(n % 10)];
    assert r[..1][..0] == [];
    assert DigitsValue(r[..1]) == n / 10;
    r
  }

  /** For a time that is not negative, the clock reads "m:ss" with m the whole
      minutes and ss the two-digit seconds of the whole seconds elapsed. */
  lemma FormatTimeShape(h: nat)
    ensures FormatTime(Finite(h)) == NatToString(h / 2 / 60) + ":" + TwoDigits(h / 2 % 60)
  {
    var secs := h / 2 - 60 * TruncDiv(h, 120);
    assert h / 120 == h / 2 / 60;
    assert secs == h / 2 % 60;
    var str := NatToString(secs);
    if secs < 10 {
      assert PadStart(str, 2, '0') == ['0'] + str;
      assert TwoDigits(secs) == ['0', DigitChar(secs)];
    } else {
      assert str == NatToString(secs / 10) + [DigitChar(secs % 10)];
      assert NatToString(secs / 10) == [DigitChar(secs / 10)];
    }
  }

  /** The intended reading of an "m:ss" duration: whole minutes, a colon, and
      exactly two digits of seconds below 60, as m * 60 + ss seconds. */
  function ClockSeconds(s: string): Option<nat> {
    var i := IndexOf(s, ':');
    if 0 < i < |s| && AllDigits(s[..i]) && |s| == i + 3 && AllDigits(s[i + 1..]) && DigitsValue(s[i + 1..]) < 60
    then Some(DigitsValue(s[..i]) * 60 + DigitsValue(s[i + 1..]))
    else None
  }

  /** The intended reading of a well-formed "m:ss". */
  lemma ClockSecondsOf(m: nat, ss: nat)
    requires ss < 60
    ensures ClockSeconds(NatToString(m) + ":" + TwoDigits(ss)) == Some(m * 60 + ss)
  {
    var a, b := NatToString(m), TwoDigits(ss);
    var s := a + ":" + b;
    IndexOfAfterDigits(a, ':', b);
    assert s[..|a|] == a;
    assert s[|a| + 1..] == b;
    NatToStringRoundTrip(m);
  }

  /** Whole seconds written as minutes and two-digit seconds read back as themselves. */
  lemma WholeSecondsReadBack(q: nat)
    ensures ClockSeconds(NatToString(q / 60) + ":" + TwoDigits(q % 60)) == Some(q)
  {
    ClockSecondsOf(q / 60, q % 60);
  }

  /** The intended reading inverts the clock: reading what `formatTime` shows
      gives back the whole seconds it was given. */
  lemma ClockSecondsRoundTrip(h: nat)
    ensures ClockSeconds(FormatTime(Finite(h))) == Some(h / 2)
  {
    FormatTimeShape(h);
    WholeSecondsReadBack(h / 2);
  }

  // ---------------------------------------------------------------------
  // parseFloat on a duration
  // ---------------------------------------------------------------------

  /** The longest prefix of s made of decimal digits. */
  function LeadingDigits(s: string): (r: string)
    ensures IsPrefix(r, s) && AllDigits(r)
    ensures |r| < |s| ==> !IsDigit(s[|r|])
  {
    if s != [] && IsDigit(s[0]) then [s[0]] + LeadingDigits(s[1..]) else []
  }

  /** The leading digits of a numeral followed by a non-digit are the numeral. */
  lemma {:induction false} LeadingDigitsOf(a: string, b: string)
    requires AllDigits(a)
    requires b != [] ==> !IsDigit(b[0])
    ensures LeadingDigits(a + b) == a
  {
    if a != [] {
      assert (a + b)[1..] == a[1..] + b;
      LeadingDigitsOf(a[1..], b);
    } else {
      assert a + b == b;
    }
  }

  /** `parseFloat(s)` on strings that start with an optional sign and decimal
      digits: the signed integer those digits spell, or NaN when there are none. */
  function ParseLeadingInt(s: string): (r: Option<int>)
    ensures (s == [] || (!IsDigit(s[0]) && s[0] != '-' && s[0] != '+')) ==> r.None?
    ensures s != [] && IsDigit(s[0]) ==> r.Some? && r.value >= 0
    ensures s != [] && s[0] == '-' && r.Some? ==> r.value <= 0
  {
    var neg := s != [] && s[0] == '-';
    var rest := if s != [] && (s[0] == '-' || s[0] == '+') then s[1..] else s;
    var digits := LeadingDigits(rest);
    if digits == [] then None
    else if neg then Some(-(DigitsValue(digits) as int))
    else Some(DigitsValue(digits))
  }

  /** A numeral followed by anything that is not a digit parses as the numeral's value. */
  lemma ParseLeadingIntOf(a: string, b: string)
    requires a != [] && AllDigits(a)
    requires b != [] ==> !IsDigit(b[0])
    ensures ParseLeadingInt(a + b) == Some(DigitsValue(a) as int)
  {
    LeadingDigitsOf(a, b);
    assert (a + b)[0] == a[0];
  }

  /** After a minus sign, the same numeral parses as its negation. */
  lemma ParseLeadingIntOfNegative(a: string, b: string)
    requires a != [] && AllDigits(a)
    requires b != [] ==> !IsDigit(b[0])
    ensures ParseLeadingInt("-" + (a + b)) == Some(-(DigitsValue(a) as int))
  {
    LeadingDigitsOf(a, b);
    assert ("-" + (a + b))[1..] == a + b;
  }

  /** `parseFloat(duration) * 60` seconds, as the source computes it, in half-seconds. */
  function MaxTimeAsWritten(duration: string): (r: Num)
    ensures r.NaN? <==> ParseLeadingInt(duration).None?
    ensures r.Finite? ==> r.v == ParseLeadingInt(duration).value * 120
  {
    match ParseLeadingInt(duration)
    case Some(n) => Finite(n * 120)
    case None => NaN
  }

  /** As written, an "m:ss" duration yields m whole minutes: the seconds are dropped. */
  lemma MaxTimeAsWrittenDropsSeconds(m: nat, ss: nat)
    requires ss < 60
    ensures MaxTimeAsWritten(NatToString(m) + ":" + TwoDigits(ss)) == Finite(m * 120)
  {
    var a := NatToString(m);
    var s := a + ":" + TwoDigits(ss);
    assert s == a + (":" + TwoDigits(ss));
    LeadingDigitsOf(a, ":" + TwoDigits(ss));
    NatToStringRoundTrip(m);
  }

  /** The default first session's "5:23": the player stops at 5:00, 23 seconds early. */
  lemma SampleDurationEndsEarly()
    ensures MaxTimeAsWritten("5:23") == Finite(600)
    ensures ClockSeconds("5:23") == Some(323)
  {
    assert "5:23" == NatToString(5) + ":" + TwoDigits(23);
    MaxTimeAsWrittenDropsSeconds(5, 23);
    assert IndexOf("5:23", ':') == 1;
    assert "5:23"[..1] == "5" && "5:23"[2..] == "23";
  }

  /** The end of playback, in half-seconds: an "m:ss" duration is read as
      m * 60 + ss seconds; any other duration as the source reads it. */
  function MaxTime(duration: string): (r: Num)
    ensures ClockSeconds(duration).Some? ==> r == Finite(ClockSeconds(duration).value * 2)
    ensures ClockSeconds(duration).None? ==> r == MaxTimeAsWritten(duration)
  {
    match ClockSeconds(duration)
    case Some(secs) => Finite(secs * 2)
    case None => MaxTimeAsWritten(duration)
  }

  /** Playback of a session ends where its own clock says it ends. */
  lemma MaxTimeMatchesClock(h: nat)
    ensures MaxTime(FormatTime(Finite(h))) == Finite(h / 2 * 2)
  {
    ClockSecondsRoundTrip(h);
  }

  // ---------------------------------------------------------------------
  // The playback state machine
  // ---------------------------------------------------------------------

  /** Which end of playback the player stops at: `AsWritten` is the component
      as it ships (`parseFloat(duration) * 60`), `Intended` the corrected
      m * 60 + ss of `MaxTime`. */
  datatype EndRule = AsWritten | Intended

  /** The end of playback of a duration, in half-seconds, under a rule. */
  function EndOf(rule: EndRule, duration: string): Num {
    match rule
    case AsWritten => MaxTimeAsWritten(duration)
    case Intended => MaxTime(duration)
  }

  /** Half-seconds per tick: the speeds 0.5x, 1x, 1.5x and 2x of the speed menu. */
  type Speed = s: int | 1 <= s <= 4 witness 2

  /** The player's state: `selectedSession`, `isPlaying`, `currentTime`, `playbackSpeed`. */
  datatype Player = Player(selected: Option<Session>, playing: bool, time: Num, speed: Speed)

  /** The initial state: the first session if any, at 0, paused, at 1x. */
  function InitialPlayer(sessions: seq<Session>): (p: Player)
    ensures p.time == Finite(0) && !p.playing && p.speed == 2
    ensures p.selected.Some? <==> |sessions| > 0
    ensures |sessions| > 0 ==> p.selected.value == sessions[0]
  {
    Player(if |sessions| > 0 then Some(sessions[0]) else None, false, Finite(0), 2)
  }

  /** One firing of the one-second interval. The interval exists only while
      playing with a session selected; at or past the end it pins the time to
      the end and stops, otherwise it advances by the speed. */
  function Tick(p: Player, rule: EndRule): (r: Player)
    ensures r.selected == p.selected && r.speed == p.speed
    ensures !(p.playing && p.selected.Some?) ==> r == p
    ensures p.playing && p.selected.Some? && AtOrPast(p.time, EndOf(rule, p.selected.value.duration))
            ==> r.time == EndOf(rule, p.selected.value.duration) && !r.playing
    ensures p.playing && p.selected.Some? && !AtOrPast(p.time, EndOf(rule, p.selected.value.duration))
            ==> r.playing && r.time == (if p.time.NaN? then NaN else Finite(p.time.v + p.speed))
  {
    if !(p.playing && p.selected.Some?) then p
    else
      var maxTime := EndOf(rule, p.selected.value.duration);
      if AtOrPast(p.time, maxTime) then p.(time := maxTime, playing := false)
      else p.(time := if p.time.NaN? then NaN else Finite(p.time.v + p.speed))
  }

  /** The rewind button: `Math.max(0, currentTime - 10)`. */
  function Rewind(p: Player): (r: Player)
    ensures r.selected == p.selected && r.playing == p.playing && r.speed == p.speed
    ensures p.time.NaN? ==> r.time.NaN?
    ensures p.time.Finite? ==> r.time.Finite? && r.time.v >= 0 && r.time.v <= if p.time.v > 0 then p.time.v else 0
    ensures p.time.Finite? && p.time.v >= 20 ==> r.time.v == p.time.v - 20
    ensures p.time.Finite? && p.time.v < 20 ==> r.time.v == 0
  {
    match p.time
    case NaN => p
    case Finite(t) => p.(time := Finite(if t - 20 > 0 then t - 20 else 0))
  }

  /** The fast-forward button: `Math.min(maxTime, currentTime + 10)`. */
  function FastForward(p: Player, rule: EndRule): (r: Player)
    requires p.selected.Some?
    ensures r.selected == p.selected && r.playing == p.playing && r.speed == p.speed
    ensures var maxTime := EndOf(rule, p.selected.value.duration);
      (p.time.NaN? || maxTime.NaN? ==> r.time.NaN?)
      && (p.time.Finite? && maxTime.Finite? ==>
            && r.time.Finite? && r.time.v <= maxTime.v && r.time.v <= p.time.v + 20
            && (r.time.v == maxTime.v || r.time.v == p.time.v + 20))
  {
    var maxTime := EndOf(rule, p.selected.value.duration);
    if p.time.NaN? || maxTime.NaN? then p.(time := NaN)
    else p.(time := Finite(if maxTime.v < p.time.v + 20 then maxTime.v else p.time.v + 20))
  }

  /** The restart button. */
  function Reset(p: Player): (r: Player)
    ensures r == p.(time := Finite(0))
  {
    p.(time := Finite(0))
  }

  /** The play/pause buttons. */
  function TogglePlay(p: Player): (r: Player)
    ensures r.playing != p.playing && r.(playing := p.playing) == p
  {
    p.(playing := !p.playing)
  }

  /** `handleSessionSelect(session)`: selected, rewound to 0 and paused. */
  function SelectSession(p: Player, s: Session): (r: Player)
    ensures r.selected == Some(s) && r.time == Finite(0) && !r.playing && r.speed == p.speed
  {
    Player(Some(s), false, Finite(0), p.speed)
  }

  /** The speed menu. */
  function SetSpeed(p: Player, k: Speed): (r: Player)
    ensures r == p.(speed := k)
  {
    p.(speed := k)
  }

  // ---------------------------------------------------------------------
  // Properties of the state machine
  // ---------------------------------------------------------------------

  /** The first default session, "5:23", playing at 1x and reaching 5:00: the
      player as written stops there, 23 seconds before its own clock says the
      session ends; with the intended end it plays on. */
  lemma SampleSessionStopsEarly(s: Session)
    requires s.duration == "5:23"
    ensures Tick(Player(Some(s), true, Finite(600), 2), AsWritten) == Player(Some(s), false, Finite(600), 2)
    ensures Tick(Player(Some(s), true, Finite(600), 2), Intended) == Player(Some(s), true, Finite(602), 2)
    ensures FastForward(Player(Some(s), false, Finite(590), 2), AsWritten).time == Finite(600)
    ensures FastForward(Player(Some(s), false, Finite(590), 2), Intended).time == Finite(610)
  {
    SampleDurationEndsEarly();
  }

  /** Pressing play at or past the end: the next tick pins the time to the end and stops. */
  lemma PlayAtEndStopsAtOnce(p: Player, rule: EndRule)
    requires p.selected.Some? && !p.playing
    requires AtOrPast(p.time, EndOf(rule, p.selected.value.duration))
    ensures Tick(TogglePlay(p), rule) == p.(time := EndOf(rule, p.selected.value.duration))
  {
  }

  /** The end test comes before the step: a tick from just before the end may
      pass it by less than one step, and the next tick pulls it back and stops. */
  lemma TickOvershootsThenSettles(p: Player, rule: EndRule)
    requires p.playing && p.selected.Some?
    requires p.time.Finite? && EndOf(rule, p.selected.value.duration).Finite?
    requires EndOf(rule, p.selected.value.duration).v < p.time.v + p.speed
    requires p.time.v < EndOf(rule, p.selected.value.duration).v
    ensures var once := Tick(p, rule);
      && once.playing
      && EndOf(rule, p.selected.value.duration).v < once.time.v < EndOf(rule, p.selected.value.duration).v + p.speed
      && Tick(once, rule) == once.(time := EndOf(rule, p.selected.value.duration), playing := false)
  {
  }

  /** A session whose end is a finite, non-negative time. */
  predicate PlayableSession(s: Session, rule: EndRule) {
    var m := EndOf(rule, s.duration);
    m.Finite? && m.v >= 0
  }

  /** Every session whose duration is a well-formed "m:ss", as all the default
      sessions' are, is playable under either end. */
  lemma ClockDurationPlayable(s: Session, rule: EndRule)
    requires ClockSeconds(s.duration).Some?
    ensures PlayableSession(s, rule)
  {
    var d := s.duration;
    var i := IndexOf(d, ':');
    assert d == d[..i] + d[i..];
    LeadingDigitsOf(d[..i], d[i..]);
  }

  /** The player's invariant: the time is a number, never negative, and never
      more than one step (less than 4 half-seconds) past the selected session's end. */
  predicate PlayerInv(p: Player, rule: EndRule) {
    && p.time.Finite? && p.time.v >= 0
    && (p.selected.Some? ==>
          PlayableSession(p.selected.value, rule)
          && p.time.v < EndOf(rule, p.selected.value.duration).v + 4)
  }

  /** The user's and the interval's actions on the player. */
  datatype Action = TickAction | RewindAction | ForwardAction | ResetAction | ToggleAction
                  | SelectAction(session: Session) | SpeedAction(speed: Speed)

  /** The player controls are rendered only while a session is selected. */
  predicate Available(p: Player, a: Action) {
    (a.RewindAction? || a.ForwardAction? || a.ToggleAction?) ==> p.selected.Some?
  }

  function Apply(p: Player, a: Action, rule: EndRule): Player
    requires Available(p, a)
  {
    match a
    case TickAction => Tick(p, rule)
    case RewindAction => Rewind(p)
    case ForwardAction => FastForward(p, rule)
    case ResetAction => Reset(p)
    case ToggleAction => TogglePlay(p)
    case SelectAction(s) => SelectSession(p, s)
    case SpeedAction(k) => SetSpeed(p, k)
  }

  /** Every action keeps the invariant, as long as only playable sessions are selected. */
  lemma ActionPreservesInv(p: Player, a: Action, rule: EndRule)
    requires PlayerInv(p, rule) && Available(p, a)
    requires a.SelectAction? ==> PlayableSession(a.session, rule)
    ensures PlayerInv(Apply(p, a, rule), rule)
  {
    match a
    case TickAction =>
      if p.playing && p.selected.Some? {
        var m := EndOf(rule, p.selected.value.duration);
        if !AtOrPast(p.time, m) {
          assert p.time.v + p.speed < m.v + 4;
        }
      }
    case _ =>
  }

  /** `n` firings of the interval. */
  function Ticks(p: Player, n: nat, rule: EndRule): Player
    decreases n
  {
    if n == 0 then p else Ticks(Tick(p, rule), n - 1, rule)
  }

  /** How many firings it takes at most for playback to stop. */
  function TicksToStop(p: Player, rule: EndRule): nat
    requires PlayerInv(p, rule) && p.selected.Some?
  {
    var m := EndOf(rule, p.selected.value.duration).v;
    if !p.playing then 0 else if p.time.v >= m then 1 else m - p.time.v + 1
  }

  /** Playback of a playable session always stops on its own, at its end. */
  lemma {:induction false} PlaybackStops(p: Player, n: nat, rule: EndRule)
    requires PlayerInv(p, rule) && p.selected.Some?
    requires n >= TicksToStop(p, rule)
    ensures !Ticks(p, n, rule).playing
    ensures Ticks(p, n, rule).time == if p.playing then EndOf(rule, p.selected.value.duration) else p.time
    decreases n
  {
    if n > 0 {
      ActionPreservesInv(p, TickAction, rule);
      PlaybackStops(Tick(p, rule), n - 1, rule);
    }
  }

  // ---------------------------------------------------------------------
  // The component state
  // ---------------------------------------------------------------------

  /** The player's React state, with the ids it has reported to `onSessionSelect`.
      The component as it ships is the controller built with `AsWritten`. */
  class PlaybackController {
    const rule: EndRule
    var selectedSession: Option<Session>
    var isPlaying: bool
    var currentTime: Num
    var playbackSpeed: Speed
    var reportedIds: seq<string>

    function State(): Player
      reads this
    {
      Player(selectedSession, isPlaying, currentTime, playbackSpeed)
    }

    constructor (sessions: seq<Session>, rule: EndRule)
      ensures State() == InitialPlayer(sessions) && reportedIds == [] && this.rule == rule
    {
      this.rule := rule;
      selectedSession := if |sessions| > 0 then Some(sessions[0]) else None;
      isPlaying := false;
      currentTime := Finite(0);
      playbackSpeed := 2;
      reportedIds := [];
    }

    /** The interval callback. */
    method OnTick()
      modifies this
      ensures State() == Tick(old(State()), rule) && reportedIds == old(reportedIds)
    {
      if isPlaying && selectedSession.Some? {
        var maxTime := EndOf(rule, selectedSession.value.duration);
        if AtOrPast(currentTime, maxTime) {
          isPlaying := false;
          currentTime := maxTime;
        } else if currentTime.Finite? {
          currentTime := Finite(currentTime.v + playbackSpeed);
        }
      }
    }

    method OnRewind()
      modifies this
      ensures State() == Rewind(old(State())) && reportedIds == old(reportedIds)
    {
      if currentTime.Finite? {
        var t := currentTime.v - 20;
        currentTime := Finite(if t > 0 then t else 0);
      }
    }

    method OnFastForward()
      requires selectedSession.Some?
      modifies this
      ensures State() == FastForward(old(State()), rule) && reportedIds == old(reportedIds)
    {
      var maxTime := EndOf(rule, selectedSession.value.duration);
      if currentTime.NaN? || maxTime.NaN? {
        currentTime := NaN;
      } else {
        var t := currentTime.v + 20;
        currentTime := Finite(if maxTime.v < t then maxTime.v else t);
      }
    }

    method OnReset()
      modifies this
      ensures State() == Reset(old(State())) && reportedIds == old(reportedIds)
    {
      currentTime := Finite(0);
    }

    method OnTogglePlay()
      modifies this
      ensures State() == TogglePlay(old(State())) && reportedIds == old(reportedIds)
    {
      isPlaying := !isPlaying;
    }

    /** `handleSessionSelect`: also reports the session's id, once. */
    method OnSessionSelect(s: Session)
      modifies this
      ensures State() == SelectSession(old(State()), s)
      ensures reportedIds == old(reportedIds) + [s.id]
    {
      selectedSession := Some(s);
      currentTime := Finite(0);
      isPlaying := false;
      reportedIds := reportedIds + [s.id];
    }

    method OnSpeedChange(k: Speed)
      modifies this
      ensures State() == SetSpeed(old(State()), k) && reportedIds == old(reportedIds)
    {
      playbackSpeed := k;
    }
  }
}
