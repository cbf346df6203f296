/** The screen-time tab: duration text, label elision, the range selector,
    the merge of today's buffered foreground time into the stored totals,
    the totals and daily average, the table percentages and the pie chart's
    top-ten split. Durations are whole seconds per application. */
module ScreenTime {
  import opened Common
  import opened Text
  import opened Storage
  import Export

  // ---------------------------------------------------------------------------
  // format_duration
  // ---------------------------------------------------------------------------

  /** The whole seconds shown for a duration: `None` and negative values count as 0, and
      `int()` drops the fraction. */
  function WholeSeconds(seconds: Option<real>): (n: nat)
    ensures seconds.None? || seconds.value < 0.0 ==> n == 0
    ensures seconds.Some? && seconds.value >= 0.0 ==> n as real <= seconds.value < n as real + 1.0
  {
    if seconds.None? || seconds.value < 0.0 then 0 else seconds.value.Floor
  }

  /** `format_duration`: `"Hh Mm"` from an hour on, else `"Mm Ss"` from a minute on, else `"Ss"`. */
  function FormatDuration(seconds: Option<real>): (r: string)
    ensures var n := WholeSeconds(seconds);
      && (n >= 3600 ==> r == NatToString(n / 3600) + "h " + NatToString(n % 3600 / 60) + "m")
      && (60 <= n < 3600 ==> r == NatToString(n / 60) + "m " + NatToString(n % 60) + "s")
      && (n < 60 ==> r == NatToString(n) + "s")
  {
    var n := WholeSeconds(seconds);
    var p := Export.HmsParts(n);
    if p.0 > 0 then NatToString(p.0) + "h " + NatToString(p.1) + "m"
    else if p.1 > 0 then NatToString(p.1) + "m " + NatToString(p.2) + "s"
    else NatToString(p.2) + "s"
  }

  /** The minutes and seconds shown are always below 60, and the parts add up to the
      whole seconds (the "Hh Mm" form drops the seconds). */
  lemma FormatDurationParts(seconds: Option<real>)
    ensures var n := WholeSeconds(seconds);
      && n / 3600 * 3600 + n % 3600 / 60 * 60 + n % 60 == n
      && 0 <= n % 3600 / 60 < 60 && 0 <= n % 60 < 60
      && (60 <= n < 3600 ==> n / 60 == n % 3600 / 60)
  {
    var n := WholeSeconds(seconds);
    var p := Export.HmsParts(n);
  }

  // ---------------------------------------------------------------------------
  // ScreenTimeCard
  // ---------------------------------------------------------------------------

  const MaxLabel := 20

  /** `update_text`'s elision: the shown text and the tool tip. */
  function Elided(text: string): (r: (string, string))
    ensures |r.0| <= MaxLabel
    ensures |text| <= MaxLabel ==> r == (text, "")
    ensures |text| > MaxLabel ==>
      (|r.0| == MaxLabel && r.0[..MaxLabel - 1] == text[..MaxLabel - 1] && r.0[MaxLabel - 1] == '…' && r.1 == text)
  {
    if |text| > MaxLabel then (text[..MaxLabel - 1] + "…", text) else (text, "")
  }

  class ScreenTimeCard {
    var value: string
    var toolTip: string

    constructor()
      ensures value == "0h 0m" && toolTip == ""
    {
      value := "0h 0m";
      toolTip := "";
    }

    method UpdateValue(seconds: Option<real>)
      modifies this`value
      ensures value == FormatDuration(seconds)
    {
      value := FormatDuration(seconds);
    }

    method UpdateText(text: string)
      modifies this
      ensures (value, toolTip) == Elided(text)
    {
      if |text| > MaxLabel {
        value := text[..MaxLabel - 1] + "…";
        toolTip := text;
      } else {
        value := text;
        toolTip := "";
      }
    }
  }

  // ---------------------------------------------------------------------------
  // TimeRangeSelector
  // ---------------------------------------------------------------------------

  const RangeKeys := ["today", "week", "month", "year", "all"]

  /** 2000-01-01 as a day number. */
  const FirstDay: Date := 10957

  /** `get_date_range`: the presets end today; 'all' (and anything else) starts on 2000-01-01. */
  function SelectorDateRange(current: string, today: Date): (r: (Date, Date))
    ensures r.1 == today
    ensures current == "today" ==> r.0 == today
    ensures current == "week" ==> r.0 == today - 6
    ensures current == "month" ==> r.0 == today - 29
    ensures current == "year" ==> r.0 == today - 364
    ensures current !in {"today", "week", "month", "year"} ==> r.0 == FirstDay
  {
    if current == "today" then (today, today)
    else if current == "week" then (today - 6, today)
    else if current == "month" then (today - 29, today)
    else if current == "year" then (today - 364, today)
    else (FirstDay, today)
  }

  class TimeRangeSelector {
    var current: string
    /** Whether each range button is checked. */
    var checked: map<string, bool>

    constructor()
      ensures current == "today"
      ensures checked.Keys == {"today", "week", "month", "year", "all"}
      ensures forall k :: k in checked ==> checked[k] == (k == "today")
    {
      current := "today";
      checked := map["today" := true, "week" := false, "month" := false, "year" := false, "all" := false];
    }

    /** `on_range_selected`: every button is set to whether it is the chosen one. */
    method OnRangeSelected(key: string) returns (emitted: string)
      modifies this
      ensures current == key && emitted == key
      ensures checked.Keys == old(checked).Keys
      ensures forall k :: k in checked ==> checked[k] == (k == key)
    {
      var todo := checked.Keys;
      var next := checked;
      while todo != {}
        invariant todo <= checked.Keys && next.Keys == checked.Keys
        invariant forall k :: k in next && k !in todo ==> next[k] == (k == key)
        decreases todo
      {
        var k :| k in todo;
        next := next[k := (k == key)];
        todo := todo - {k};
      }
      checked := next;
      current := key;
      emitted := key;
    }
  }

  // ---------------------------------------------------------------------------
  // refresh_data: merging today's buffer
  // ---------------------------------------------------------------------------

  const UnknownApp := "Unknown"

  /** The stored seconds plus the buffered seconds of every application but "Unknown". */
  function WithBuffer(stored: map<string, int>, buffer: map<string, int>): (m: map<string, int>)
    ensures m.Keys == stored.Keys + (buffer.Keys - {UnknownApp})
  {
    map a | a in stored.Keys + (buffer.Keys - {UnknownApp}) ::
      Get(stored, a, 0) + (if a in buffer && a != UnknownApp then buffer[a] else 0)
  }

  /** The merge loop: each buffered application but "Unknown" adds its seconds. */
  method MergeBuffer(stored: map<string, int>, buffer: map<string, int>) returns (merged: map<string, int>)
    ensures merged == WithBuffer(stored, buffer)
  {
    merged := stored;
    var todo := buffer.Keys;
    while todo != {}
      invariant todo <= buffer.Keys
      invariant merged.Keys == stored.Keys + ((buffer.Keys - todo) - {UnknownApp})
      invariant forall a :: a in merged ==>
        merged[a] == Get(stored, a, 0) + (if a in buffer && a !in todo && a != UnknownApp then buffer[a] else 0)
      decreases todo
    {
      var a :| a in todo;
      if a != UnknownApp {
        merged := merged[a := Get(merged, a, 0) + buffer[a]];
      }
      todo := todo - {a};
    }
  }

  function BySecondsDesc(a: (string, int), b: (string, int)): bool {
    a.1 >= b.1
  }

  /** Today's list: the stored rows with the buffer merged in, by seconds descending. */
  method TodayAppData(rows: seq<(string, int)>, buffer: map<string, int>) returns (appData: seq<(string, int)>)
    ensures Listing(appData, WithBuffer(ToMap(rows), buffer))
    ensures (forall i, j :: 0 <= i < j < |appData| ==> appData[i].1 >= appData[j].1)
  {
    var merged := MergeBuffer(ToMap(rows), buffer);
    var items := Items(merged);
    SortedListing(items, merged, BySecondsDesc);
    appData := SortBy(items, BySecondsDesc);
  }

  function Seconds(p: (string, int)): int { p.1 }

  // ---------------------------------------------------------------------------
  // Totals, table and pie chart
  // ---------------------------------------------------------------------------

  /** `days = (end - start) + 1`, and `avg = total / days` when `days > 0`, else 0. */
  function DailyAverage(total: int, start: Date, end: Date): (avg: real)
    ensures start <= end ==> avg * ((end - start + 1) as real) == total as real
    ensures end < start ==> avg == 0.0
  {
    if start <= end then total as real / (end - start + 1) as real else 0.0
  }

  /** Every range the selector gives spans at least one day, so the average is defined. */
  lemma SelectorRangeNonEmpty(current: string, today: Date)
    requires today >= FirstDay
    ensures var r := SelectorDateRange(current, today); r.0 <= r.1
  {
  }

  /** With a clock before 2000-01-01 the 'all' range is empty, and the average shown is 0. */
  lemma EarlyClockAverageZero(current: string, today: Date, total: int)
    requires today < FirstDay && current !in {"today", "week", "month", "year"}
    ensures var r := SelectorDateRange(current, today); r.1 < r.0 && DailyAverage(total, r.0, r.1) == 0.0
  {
  }

  /** The table's share: `seconds / total * 100`, or 0 without a total. */
  function Percentage(seconds: int, total: int): (pct: real)
    ensures total <= 0 ==> pct == 0.0
    ensures total > 0 && 0 <= seconds <= total ==> 0.0 <= pct <= 100.0
  {
    if total > 0 then
      PercentageBounded(seconds, total);
      seconds as real / total as real * 100.0
    else 0.0
  }

  lemma PercentageBounded(seconds: int, total: int)
    requires total > 0
    ensures 0 <= seconds <= total ==> 0.0 <= seconds as real / total as real * 100.0 <= 100.0
  {
    if 0 <= seconds <= total {
      UnitFraction(seconds as real, total as real);
    }
  }

  function PercentSum(rows: seq<(string, int)>, total: int): real {
    if rows == [] then 0.0 else Percentage(rows[0].1, total) + PercentSum(rows[1..], total)
  }

  /** The percentages of a list are its seconds over the total. */
  lemma {:induction false} PercentSumIsShare(rows: seq<(string, int)>, total: int)
    requires total > 0
    ensures PercentSum(rows, total) == SeqSum(rows, Seconds) as real / total as real * 100.0
  {
    if rows != [] {
      PercentSumIsShare(rows[1..], total);
      ShareAdd(rows[0].1 as real, SeqSum(rows[1..], Seconds) as real, total as real);
    }
  }

  lemma ShareAdd(a: real, b: real, t: real)
    requires t > 0.0
    ensures a / t * 100.0 + b / t * 100.0 == (a + b) / t * 100.0
  {
    assert a / t + b / t == (a + b) / t;
  }

  /** With the total computed from the list, the table's percentages add up to 100. */
  lemma PercentagesAddUp(rows: seq<(string, int)>)
    requires SeqSum(rows, Seconds) > 0
    ensures PercentSum(rows, SeqSum(rows, Seconds)) == 100.0
  {
    PercentSumIsShare(rows, SeqSum(rows, Seconds));
    WholeShare(SeqSum(rows, Seconds) as real);
  }

  lemma WholeShare(t: real)
    requires t > 0.0
    ensures t / t * 100.0 == 100.0
  {
  }

  /** The name shown for an application: its friendly name, else the name without ".exe". */
  function Shown(app: string, meta: map<string, Metadata>): string {
    DisplayName(app, FriendlyOf(meta, app))
  }

  const PieTop := 10
  const OthersLabel := "Others"

  /** The slice of one application: none when its seconds are not positive. */
  function Slice(app: (string, int), meta: map<string, Metadata>): seq<(string, int)> {
    if app.1 > 0 then [(Shown(app.0, meta), app.1)] else []
  }

  /** The slices for a list of applications: one per application with positive seconds. */
  function AppSlices(apps: seq<(string, int)>, meta: map<string, Metadata>): seq<(string, int)>
  {
    if apps == [] then [] else Slice(apps[0], meta) + AppSlices(apps[1..], meta)
  }

  /** The loop's view: one more application appends its slice. */
  lemma {:induction false} AppSlicesAppend(apps: seq<(string, int)>, app: (string, int), meta: map<string, Metadata>)
    ensures AppSlices(apps + [app], meta) == AppSlices(apps, meta) + Slice(app, meta)
  {
    if apps == [] {
      assert [app][1..] == [];
      assert apps + [app] == [app];
    } else {
      assert (apps + [app])[1..] == apps[1..] + [app];
      AppSlicesAppend(apps[1..], app, meta);
    }
  }

  /** The pie: slices of the first ten applications, then "Others" holding the sum of the
      rest when that sum is positive. */
  function PieSlices(appData: seq<(string, int)>, meta: map<string, Metadata>): seq<(string, int)> {
    var n := if |appData| < PieTop then |appData| else PieTop;
    var others := if |appData| > PieTop then SeqSum(appData[PieTop..], Seconds) else 0;
    AppSlices(appData[..n], meta) + (if others > 0 then [(OthersLabel, others)] else [])
  }

  /** `AppTimePieChart.update_data`: skips non-positive applications among the first ten. */
  method UpdatePie(appData: seq<(string, int)>, meta: map<string, Metadata>) returns (slices: seq<(string, int)>)
    ensures slices == PieSlices(appData, meta)
  {
    var top := if |appData| < PieTop then appData else appData[..PieTop];
    var others := if |appData| > PieTop then SeqSum(appData[PieTop..], Seconds) else 0;
    slices := [];
    for i := 0 to |top|
      invariant slices == AppSlices(top[..i], meta)
    {
      assert top[..i + 1] == top[..i] + [top[i]];
      AppSlicesAppend(top[..i], top[i], meta);
      if top[i].1 > 0 {
        slices := slices + [(Shown(top[i].0, meta), top[i].1)];
      }
    }
    assert top[..|top|] == top;
    assert appData[..|appData|] == appData;
    if others > 0 {
      slices := slices + [(OthersLabel, others)];
    }
  }

  /** Without negative durations, skipping zero slices loses nothing. */
  lemma {:induction false} AppSlicesSum(apps: seq<(string, int)>, meta: map<string, Metadata>)
    requires forall i :: 0 <= i < |apps| ==> apps[i].1 >= 0
    ensures SeqSum(AppSlices(apps, meta), Seconds) == SeqSum(apps, Seconds)
  {
    if apps != [] {
      AppSlicesSum(apps[1..], meta);
      SeqSumAppend(Slice(apps[0], meta), AppSlices(apps[1..], meta), Seconds);
    }
  }

  /** Without negative durations the pie holds the whole total: the first ten slices
      plus "Others". */
  lemma PieKeepsTotal(appData: seq<(string, int)>, meta: map<string, Metadata>)
    requires forall i :: 0 <= i < |appData| ==> appData[i].1 >= 0
    ensures SeqSum(PieSlices(appData, meta), Seconds) == SeqSum(appData, Seconds)
  {
    var n := if |appData| < PieTop then |appData| else PieTop;
    var others := if |appData| > PieTop then SeqSum(appData[PieTop..], Seconds) else 0;
    AppSlicesSum(appData[..n], meta);
    if |appData| <= PieTop {
      assert appData[n..] == [];
    }
    PieTotal(appData, n, AppSlices(appData[..n], meta), others);
  }

  /** Slices worth the first `n` applications plus a slice for the rest, when positive,
      are worth the whole list. */
  lemma PieTotal(appData: seq<(string, int)>, n: nat, slices: seq<(string, int)>, others: int)
    requires n <= |appData|
    requires forall i :: 0 <= i < |appData| ==> appData[i].1 >= 0
    requires SeqSum(slices, Seconds) == SeqSum(appData[..n], Seconds)
    requires others == SeqSum(appData[n..], Seconds)
    ensures SeqSum(slices + (if others > 0 then [(OthersLabel, others)] else []), Seconds) == SeqSum(appData, Seconds)
  {
    SeqSumAppend(slices, if others > 0 then [(OthersLabel, others)] else [], Seconds);
    assert appData == appData[..n] + appData[n..];
    SeqSumAppend(appData[..n], appData[n..], Seconds);
    SeqSumNonNegative(appData[n..]);
  }

  lemma {:induction false} SeqSumNonNegative(s: seq<(string, int)>)
    requires forall i :: 0 <= i < |s| ==> s[i].1 >= 0
    ensures SeqSum(s, Seconds) >= 0
  {
    if s != [] {
      SeqSumNonNegative(s[1..]);
    }
  }

  /** What `refresh_data` shows. */
  datatype View = View(appData: seq<(string, int)>, total: int, average: real, topApp: string, slices: seq<(string, int)>)

  /** `refresh_data`: for 'today' the buffer (when a tracker is attached) is merged in and the
      list re-sorted; other ranges show the stored rows as fetched. */
  method RefreshData(current: string, today: Date, rows: seq<(string, int)>, buffer: Option<map<string, int>>,
                     meta: map<string, Metadata>) returns (view: View)
    ensures current != "today" || buffer.None? ==> view.appData == rows
    ensures current == "today" && buffer.Some? ==>
      && Listing(view.appData, WithBuffer(ToMap(rows), buffer.value))
      && forall i, j :: 0 <= i < j < |view.appData| ==> view.appData[i].1 >= view.appData[j].1
    ensures view.total == SeqSum(view.appData, Seconds)
    ensures var r := SelectorDateRange(current, today); view.average == DailyAverage(view.total, r.0, r.1)
    ensures view.topApp == if view.appData == [] then "No data" else Shown(view.appData[0].0, meta)
    ensures view.slices == PieSlices(view.appData, meta)
  {
    var range := SelectorDateRange(current, today);
    var appData := rows;
    if current == "today" && buffer.Some? {
      appData := TodayAppData(rows, buffer.value);
    }
    var total := SeqSum(appData, Seconds);
    var average := DailyAverage(total, range.0, range.1);
    var top := if appData == [] then "No data" else Shown(appData[0].0, meta);
    var slices := UpdatePie(appData, meta);
    view := View(appData, total, average, top, slices);
  }
}
