/** The metric cards of src/components/Analytics/CoreAnalyticsCharts.tsx: how
    a metric's name decides the format of its value, the `Nm Ss` duration
    text, the trend icon and the change line. Metric values and changes are
    whole numbers here. */
module CoreAnalyticsCharts {
  import opened Wrappers
  import opened Strings

  datatype Trend = Up | Down | Stable

  /** A `ChartData` entry. */
  datatype Metric = Metric(name: string, value: int, change: Option<int>, trend: Option<Trend>)

  // ---------------------------------------------------------------------
  // The displayed value
  // ---------------------------------------------------------------------

  /** `${Math.floor(v / 60)}m ${v % 60}s`: whole minutes, then the leftover
      seconds without padding. */
  function DurationText(v: int): string {
    IntToString(v / 60) + "m " + IntToString(JsRem(v, 60)) + "s"
  }

  /** `displayValue`, computed as `renderMetricCard` does: the plain numeral,
      overwritten in turn by the percentage, currency and duration formats
      whose name tests pass. The grouped `toLocaleString` text is a parameter. */
  function DisplayValue(m: Metric, localized: string): string {
    var isPercentage := Contains(m.name, "Rate") || Contains(m.name, "Bounce");
    var isCurrency := Contains(m.name, "Revenue");
    var isDuration := Contains(m.name, "Duration");
    var plain := IntToString(m.value);
    var afterPercentage := if isPercentage then IntToString(m.value) + "%" else plain;
    var afterCurrency := if isCurrency then "$" + localized else afterPercentage;
    if isDuration then DurationText(m.value) else afterCurrency
  }

  datatype Format = PlainFormat | PercentageFormat | CurrencyFormat | DurationFormat

  /** The format a name selects, by precedence: duration over currency over percentage. */
  function FormatOf(name: string): Format {
    if Contains(name, "Duration") then DurationFormat
    else if Contains(name, "Revenue") then CurrencyFormat
    else if Contains(name, "Rate") || Contains(name, "Bounce") then PercentageFormat
    else PlainFormat
  }

  function Render(f: Format, v: int, localized: string): string {
    match f
    case PlainFormat => IntToString(v)
    case PercentageFormat => IntToString(v) + "%"
    case CurrencyFormat => "$" + localized
    case DurationFormat => DurationText(v)
  }

  /** The overwriting assignments amount to a precedence order: a later test
      that passes wins over every earlier one. */
  lemma DisplayValueByPrecedence(m: Metric, localized: string)
    ensures DisplayValue(m, localized) == Render(FormatOf(m.name), m.value, localized)
    ensures Contains(m.name, "Duration") ==> DisplayValue(m, localized) == DurationText(m.value)
    ensures (!Contains(m.name, "Duration") && Contains(m.name, "Revenue")) ==>
      DisplayValue(m, localized) == "$" + localized
  {
  }

  /** A name mentioning both Revenue and Rate is shown as currency. */
  lemma RevenueRateIsCurrency(a: string, b: string, v: int, localized: string)
    requires !Contains(a + "Revenue Rate" + b, "Duration")
    ensures DisplayValue(Metric(a + "Revenue Rate" + b, v, None, None), localized) == "$" + localized
  {
    var name := a + "Revenue Rate" + b;
    assert name == a + "Revenue" + (" Rate" + b);
    ContainsInfix(a, "Revenue", " Rate" + b);
  }

  /** The duration text of a non-negative number of seconds. */
  lemma DurationTextShape(v: nat)
    ensures DurationText(v) == NatToString(v / 60) + "m " + NatToString(v % 60) + "s"
    ensures v % 60 < 60 && (v / 60) * 60 + v % 60 == v
  {
  }

  lemma SampleDuration()
    ensures DurationText(245) == "4m 5s"
  {
    assert NatToString(4) == "4" && NatToString(5) == "5";
  }

  /** Reads "Xm Ys" back as X * 60 + Y seconds, when Y is below 60. */
  function DurationSeconds(s: string): Option<nat> {
    var i := IndexOf(s, 'm');
    if 0 < i && i + 3 <= |s| && s[i + 1] == ' ' && s[|s| - 1] == 's'
       && AllDigits(s[..i]) && AllDigits(s[i + 2..|s| - 1])
       && DigitsValue(s[i + 2..|s| - 1]) < 60
    then Some(DigitsValue(s[..i]) * 60 + DigitsValue(s[i + 2..|s| - 1]))
    else None
  }

  /** A non-negative duration's text reads back as the same number of seconds. */
  lemma DurationTextRoundTrip(v: nat)
    ensures DurationSeconds(DurationText(v)) == Some(v)
  {
    var a, b := NatToString(v / 60), NatToString(v % 60);
    var s := DurationText(v);
    DurationTextShape(v);
    assert s == a + ['m'] + (" " + b + "s");
    IndexOfAfterDigits(a, 'm', " " + b + "s");
    assert s[..|a|] == a;
    assert s[|a| + 2..|s| - 1] == b;
    NatToStringRoundTrip(v / 60);
    NatToStringRoundTrip(v % 60);
  }

  // ---------------------------------------------------------------------
  // The trend icon and the change line
  // ---------------------------------------------------------------------

  datatype Icon = TrendingUpIcon | TrendingDownIcon | ActivityIcon

  function TrendIcon(trend: Option<Trend>): (r: Icon)
    ensures r == TrendingUpIcon <==> trend == Some(Up)
    ensures r == TrendingDownIcon <==> trend == Some(Down)
    ensures r == ActivityIcon <==> (trend == None || trend == Some(Stable))
  {
    match trend
    case Some(Up) => TrendingUpIcon
    case Some(Down) => TrendingDownIcon
    case _ => ActivityIcon
  }

  /** The text of the change line: a "+" before a positive change, the change
      (a negative one keeps its own minus sign), then "% from last period". */
  function ChangeText(change: int): (r: string)
    ensures |r| > 0 && (r[0] == '+' <==> change > 0) && (r[0] == '-' <==> change < 0)
  {
    var sign := if change > 0 then "+" else "";
    var n := IntToString(change);
    assert change >= 0 ==> n[0] != '-' by {
      if change >= 0 { assert IsDigit(n[0]); }
    }
    sign + n + "% from last period"
  }

  /** What `{metric.change && (...)}` renders, as written: nothing for an
      absent change, but React renders the falsy number 0 itself as the text "0". */
  function ChangeSlotAsWritten(change: Option<int>): (r: string)
    ensures r == "" <==> change.None?
    ensures change == Some(0) ==> r == "0"
    ensures change.Some? && change.value != 0 ==> r == ChangeText(change.value)
  {
    assert NatToString(0) == "0";
    if change.None? then ""
    else if change.value == 0 then IntToString(0)
    else ChangeText(change.value)
  }

  /** As written, a metric whose change is exactly zero shows a stray "0" under its value. */
  lemma ZeroChangeShowsStrayZero()
    ensures ChangeSlotAsWritten(Some(0)) == "0"
    ensures ChangeSlotAsWritten(Some(0)) != ChangeSlotAsWritten(None)
  {
  }

  /** The change line as intended: shown exactly for a defined, non-zero change. */
  function ChangeSlot(change: Option<int>): (r: string)
    ensures r != "" <==> change.Some? && change.value != 0
    ensures r != "" ==> r == ChangeText(change.value)
    ensures r != "" ==> (r[0] == '+' <==> change.value > 0)
  {
    if change.Some? && change.value != 0 then ChangeText(change.value) else ""
  }

  /** The two agree everywhere except on a zero change. */
  lemma ChangeSlotFixesOnlyZero(change: Option<int>)
    ensures change != Some(0) ==> ChangeSlot(change) == ChangeSlotAsWritten(change)
    ensures ChangeSlot(Some(0)) == "" && ChangeSlotAsWritten(Some(0)) != ""
  {
    ZeroChangeShowsStrayZero();
  }

  /** What `renderMetricCard` shows: the value text, the change line and the trend icon. */
  datatype Card = Card(valueText: string, changeLine: string, icon: Icon)

  /** The card as the component renders it, with the change line as written:
      nothing for an absent change, a stray "0" for a zero change, and the
      change text otherwise. */
  function MetricCard(m: Metric, localized: string): (c: Card)
    ensures m.change.None? ==> c.changeLine == ""
    ensures m.change == Some(0) ==> c.changeLine == "0"
    ensures m.change.Some? && m.change.value != 0 ==> c.changeLine == ChangeText(m.change.value)
    ensures c.icon == TrendingUpIcon <==> m.trend == Some(Up)
    ensures Contains(m.name, "Duration") ==> c.valueText == DurationText(m.value)
  {
    Card(DisplayValue(m, localized), ChangeSlotAsWritten(m.change), TrendIcon(m.trend))
  }

  /** The card with the intended change line: no line for a zero change, and
      otherwise exactly the card the component renders. */
  function CorrectedMetricCard(m: Metric, localized: string): (c: Card)
    ensures c.changeLine != "" <==> m.change.Some? && m.change.value != 0
    ensures m.change != Some(0) ==> c == MetricCard(m, localized)
    ensures m.change == Some(0) ==> c == MetricCard(m, localized).(changeLine := "")
  {
    ChangeSlotFixesOnlyZero(m.change);
    MetricCard(m, localized).(changeLine := ChangeSlot(m.change))
  }
}
