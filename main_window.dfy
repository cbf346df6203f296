/** The dashboard window (src/ui/main_window.py): the time-range selector, the
    counters the dashboard cards show, the application table's merge of the
    live buffer into today's rows, the heatmap merges and the heatmap's
    application filter. Qt widgets, styling, translations and the timer are
    not modelled; what the database and the tracker return arrives as
    parameters, tied to the query and snapshot functions by lemmas. */
module Dashboard {
  import opened Common
  import opened Text
  import opened Storage
  import Tracker
  import Export
  import ScreenTime

  // ---------------------------------------------------------------------------
  // TimeRangeSelector
  // ---------------------------------------------------------------------------

  const ButtonKeys: seq<string> := ["today", "yesterday", "week", "month"]
  const DropdownKeys: seq<string> := ["year", "all"]
  const ButtonSet: set<string> := {"today", "yesterday", "week", "month"}

  /** `get_date_range`: today, yesterday, or the last 7, 30 or 365 days ending today;
      anything else ('all') is unbounded. */
  function DashboardDateRange(current: string, today: Date): (r: Export.DateRange)
    ensures r.start.Some? <==> r.end.Some?
    ensures r.start.Some? <==> current in {"today", "yesterday", "week", "month", "year"}
    ensures r.start.Some? ==> r.start.value <= r.end.value <= today
    ensures r.end.Some? ==> (r.end.value == today <==> current != "yesterday")
  {
    if current == "today" then Export.DateRange(Some(today), Some(today))
    else if current == "yesterday" then Export.DateRange(Some(today - 1), Some(today - 1))
    else if current == "week" then Export.DateRange(Some(today - 6), Some(today))
    else if current == "month" then Export.DateRange(Some(today - 29), Some(today))
    else if current == "year" then Export.DateRange(Some(today - 364), Some(today))
    else Export.DateRange(None, None)
  }

  /** Apart from 'yesterday', the dashboard's ranges are the exporter's. */
  lemma DashboardRangesAreExportRanges(current: string, today: Date)
    ensures current != "yesterday" ==> DashboardDateRange(current, today) == Export.GetDateRange(current, today)
    ensures current == "yesterday" ==> DashboardDateRange(current, today) == Export.GetDateRange("today", today - 1)
  {
  }

  class RangeSelector {
    var current: string
    /** Whether each range button is checked. */
    var checked: map<string, bool>
    /** Whether the year/all dropdown is styled as the active choice. */
    var comboActive: bool

    /** Exactly the button of the current range is checked, and the dropdown is
        active exactly when the current range is one of its entries. */
    ghost predicate Valid()
      reads this
    {
      && checked.Keys == ButtonSet
      && (current in ButtonSet || current in DropdownKeys)
      && (comboActive <==> current in DropdownKeys)
      && forall k :: k in checked ==> checked[k] == (k == current)
    }

    constructor()
      ensures Valid() && current == "today" && !comboActive
    {
      current := "today";
      checked := map["today" := true, "yesterday" := false, "week" := false, "month" := false];
      comboActive := false;
    }

    /** `on_range_selected`: every button is set to whether it is the chosen one,
        the dropdown is deactivated and the range is emitted. */
    method OnRangeSelected(key: string) returns (emitted: string)
      requires Valid()
      modifies this
      ensures current == key && emitted == key && !comboActive
      ensures checked.Keys == old(checked).Keys
      ensures forall k :: k in checked ==> checked[k] == (k == key)
      ensures key in ButtonSet ==> Valid()
    {
      var todo := checked.Keys;
      var next := checked;
      while todo != {}
        invariant todo <= checked.Keys && next.Keys == checked.Keys
        invariant forall k :: k in next && k !in todo ==> next[k] == (k == key)
        decreases todo
      {
        var k :| k in todo;
        next := next[k := (k == key)];
        todo := todo - {k};
      }
      checked := next;
      comboActive := false;
      current := key;
      emitted := key;
    }

    /** `on_combo_selected`: an index with an entry unchecks every button,
        activates the dropdown and selects that entry's range; an index without
        one (`itemData` is `None`) changes nothing. */
    method OnComboSelected(index: int) returns (emitted: Option<string>)
      requires Valid()
      modifies this
      ensures Valid()
      ensures 0 <= index < |DropdownKeys| ==>
        emitted == Some(DropdownKeys[index]) && current == DropdownKeys[index] && comboActive
      ensures 0 <= index < |DropdownKeys| ==> forall k :: k in checked ==> !checked[k]
      ensures !(0 <= index < |DropdownKeys|) ==>
        emitted == None && current == old(current) && checked == old(checked) && comboActive == old(comboActive)
    {
      if 0 <= index < |DropdownKeys| {
        var key := DropdownKeys[index];
        var todo := checked.Keys;
        var next := checked;
        while todo != {}
          invariant todo <= checked.Keys && next.Keys == checked.Keys
          invariant forall k :: k in next && k !in todo ==> !next[k]
          decreases todo
        {
          var k :| k in todo;
          next := next[k := false];
          todo := todo - {k};
        }
        checked := next;
        comboActive := true;
        current := key;
        emitted := Some(key);
      } else {
        emitted := None;
      }
    }
  }

  // ---------------------------------------------------------------------------
  // update_stats: the dashboard cards
  // ---------------------------------------------------------------------------

  /** The database's answer for a range: all-time sums when unbounded, else the range sums. */
  ghost function StoredStats(daily: map<Date, DailyRow>, r: Export.DateRange): (stats: Option<DailyRow>)
    ensures r.start.None? || r.end.None? ==> (stats.None? <==> daily.Keys == {})
    ensures r.start.Some? && r.end.Some? ==>
      (stats.None? <==> forall d :: d in daily ==> !(r.start.value <= d <= r.end.value))
  {
    if r.start.None? || r.end.None? then AllTime(daily).totals else StatsRange(daily, r.start.value, r.end.value)
  }

  /** The snapshot's buffered counters as a row. */
  function BufferRow(snap: Tracker.Snapshot): DailyRow {
    DailyRow(snap.bufferKeys, snap.bufferClicks, snap.bufferDistance, snap.bufferScroll)
  }

  /** The counters the cards show: the stored sums (`or 0` when there are none),
      plus the buffered counters when the range is today. */
  function CardTotals(stored: Option<DailyRow>, current: string, snap: Tracker.Snapshot): (c: DailyRow)
    ensures current != "today" ==> c == if stored.Some? then stored.value else NoActivity
    ensures current == "today" && stored.None? ==> c == BufferRow(snap)
    ensures current == "today" && stored.Some? ==>
      c.keys == stored.value.keys + snap.bufferKeys && c.clicks == stored.value.clicks + snap.bufferClicks
      && c.distance == stored.value.distance + snap.bufferDistance && c.scroll == stored.value.scroll + snap.bufferScroll
  {
    var base := OrNoActivity(stored);
    if current == "today" then AddDaily(base, BufferRow(snap)) else base
  }

  /** One day's range sums are that day's row. */
  lemma StatsRangeOneDay(daily: map<Date, DailyRow>, d: Date)
    ensures StatsRange(daily, d, d) == if d in daily then Some(daily[d]) else None
  {
    if d in daily {
      var v := daily[d];
      assert DaySlice(daily, d, d) == map[d := v];
      Tracker.SingletonSums(d, v, RowKeys, RowDistance);
      Tracker.SingletonSums(d, v, RowClicks, RowScroll);
    }
  }

  /** On the today range the cards show what `get_stats_snapshot` reports: the
      day's stored row plus the buffers. */
  lemma TodayCardsMatchSnapshot(daily: map<Date, DailyRow>, today: Date, snap: Tracker.Snapshot)
    requires snap.keys == Get(daily, today, NoActivity).keys + snap.bufferKeys
    requires snap.clicks == Get(daily, today, NoActivity).clicks + snap.bufferClicks
    requires snap.distance == Get(daily, today, NoActivity).distance + snap.bufferDistance
    requires snap.scroll == Get(daily, today, NoActivity).scroll + snap.bufferScroll
    ensures CardTotals(StoredStats(daily, DashboardDateRange("today", today)), "today", snap)
      == DailyRow(snap.keys, snap.clicks, snap.distance, snap.scroll)
  {
    StatsRangeOneDay(daily, today);
  }

  /** Any other range shows the stored sums alone, even one that includes today. */
  lemma OtherCardsIgnoreBuffer(daily: map<Date, DailyRow>, current: string, today: Date, snap: Tracker.Snapshot)
    requires current != "today"
    ensures CardTotals(StoredStats(daily, DashboardDateRange(current, today)), current, snap)
      == OrNoActivity(StoredStats(daily, DashboardDateRange(current, today)))
  {
  }

  /** `_app_list_refresh_counter`: counted up on every `update_stats`, reset to 0
      (and the application list refreshed) when it reaches 10. */
  function Tick(counter: nat): (r: (nat, bool))
    ensures r.0 < 10 || r.0 == counter + 1
    ensures r.1 <==> counter >= 9
  {
    if counter + 1 >= 10 then (0, true) else (counter + 1, false)
  }

  /** The counter and the number of list refreshes after `n` updates from a fresh window. */
  function Updates(n: nat): (nat, nat) {
    if n == 0 then (0, 0)
    else
      var before := Updates(n - 1);
      var after := Tick(before.0);
      (after.0, before.1 + if after.1 then 1 else 0)
  }

  /** The list is refreshed on every tenth update, and only then. */
  lemma {:induction false} EveryTenthUpdateRefreshes(n: nat)
    ensures Updates(n) == (n % 10, n / 10)
  {
    if n > 0 {
      EveryTenthUpdateRefreshes(n - 1);
      TickCounts(n - 1, Updates(n - 1).0, Updates(n - 1).1);
    }
  }

  /** One more update after `m`: the counter becomes `(m + 1) % 10` and the list is
      refreshed exactly when `m + 1` completes another ten. */
  lemma TickCounts(m: nat, counter: nat, refreshes: nat)
    requires counter == m % 10 && refreshes == m / 10
    ensures Tick(counter).0 == (m + 1) % 10
    ensures refreshes + (if Tick(counter).1 then 1 else 0) == (m + 1) / 10
  {
    if counter == 9 {
      DivModTen(m + 1, refreshes + 1, 0);
    } else {
      DivModTen(m + 1, refreshes, counter + 1);
    }
  }

  /** `n = 10q + r` with `0 <= r < 10` fixes `n % 10` and `n / 10`. */
  lemma DivModTen(n: int, q: int, r: int)
    requires 0 <= r < 10 && n == 10 * q + r
    ensures n % 10 == r && n / 10 == q
  {
  }

  // ---------------------------------------------------------------------------
  // update_apps: the application table
  // ---------------------------------------------------------------------------

  /** `get_app_stats_summary` rows as `(app, counters)` tuples. */
  function Pairs(rows: seq<AppSummaryRow>): (p: seq<(string, AppCounts)>)
    ensures |p| == |rows|
    ensures forall i :: 0 <= i < |p| ==> p[i] == (rows[i].app, rows[i].totals)
  {
    seq(|rows|, i requires 0 <= i < |rows| => (rows[i].app, rows[i].totals))
  }

  /** `stats_dict[app][n] += data[...]` for every buffered application. */
  method MergeAppBuffer(stored: map<string, AppCounts>, buffer: map<string, AppCounts>)
    returns (merged: map<string, AppCounts>)
    ensures merged == MergedBy(stored, buffer, AddApp)
  {
    merged := stored;
    var todo := buffer.Keys;
    while todo != {}
      invariant todo <= buffer.Keys
      invariant merged.Keys == stored.Keys + (buffer.Keys - todo)
      invariant forall a :: a in merged ==> merged[a] == (if a in buffer.Keys - todo then Combine(stored, buffer, a, AddApp) else stored[a])
      decreases todo
    {
      var a :| a in todo;
      merged := merged[a := if a in merged then AddApp(merged[a], buffer[a]) else buffer[a]];
      todo := todo - {a};
    }
  }

  function ByKeysDescPair(x: (string, AppCounts), y: (string, AppCounts)): bool {
    x.1.keys >= y.1.keys
  }

  /** `update_apps`' rows: as stored, except today, where the buffer is merged in
      and the rows are re-sorted by keys descending. */
  method UpdateApps(rows: seq<AppSummaryRow>, current: string, buffer: map<string, AppCounts>)
    returns (stats: seq<(string, AppCounts)>)
    ensures current != "today" ==> stats == Pairs(rows)
    ensures current == "today" ==> Listing(stats, MergedBy(ToMap(Pairs(rows)), buffer, AddApp))
    ensures current == "today" ==> forall i, j :: 0 <= i < j < |stats| ==> stats[i].1.keys >= stats[j].1.keys
  {
    stats := Pairs(rows);
    if current == "today" {
      var merged := MergeAppBuffer(ToMap(stats), buffer);
      var items := Items(merged);
      SortedListing(items, merged, ByKeysDescPair);
      stats := SortBy(items, ByKeysDescPair);
    }
  }

  /** One application's sums over a one-day selection are its row of that day. */
  lemma OneDayAppTotals(t: map<(Date, string), AppCounts>, d: Date, a: string)
    requires (d, a) in t
    ensures AppTotals(Selected(t, Some(d), Some(d)), a) == t[(d, a)]
  {
    var f := Selected(t, Some(d), Some(d));
    var v := t[(d, a)];
    assert (map p | p in f && p.1 == a :: f[p]) == map[(d, a) := v];
    Tracker.SingletonSums((d, a), v, CountKeys, CountDistance);
    Tracker.SingletonSums((d, a), v, CountClicks, CountDistance);
    Tracker.SingletonSums((d, a), v, CountScrolls, CountDistance);
  }

  /** With at most `limit` applications selected, the summary lists all of them. */
  lemma SummaryUncut(f: map<(Date, string), AppCounts>, limit: int)
    requires |AppNames(f)| <= limit
    ensures TopRows(f, limit) == SortBy(SummaryRows(f), ByKeysDesc)
  {
    PermutedRowsFacts(f, SortBy(SummaryRows(f), ByKeysDesc));
  }

  /** The applications with a row on day `d` are those of the one-day selection. */
  lemma OneDayNames(t: map<(Date, string), AppCounts>, d: Date, a: string)
    ensures a in AppNames(Selected(t, Some(d), Some(d))) <==> (d, a) in t
  {
    var f := Selected(t, Some(d), Some(d));
    if (d, a) in t {
      assert (d, a) in f;
    }
    if a in AppNames(f) {
      var q :| q in f && q.1 == a;
    }
  }

  /** With at most 100 applications active today, today's summary rows hold
      exactly the day's per-application rows. */
  lemma TodaySummaryIsDayView(t: map<(Date, string), AppCounts>, d: Date)
    requires |AppNames(Selected(t, Some(d), Some(d)))| <= 100
    ensures ToMap(Pairs(AppStatsSummary(t, 100, Some(d), Some(d)))) == DayView(t, d)
  {
    var f := Selected(t, Some(d), Some(d));
    var sorted := SortBy(SummaryRows(f), ByKeysDesc);
    SummaryUncut(f, 100);
    PermutedRowsFacts(f, sorted);
    PairsFacts(sorted, AppNames(f), a => AppTotals(f, a));
    DayRowsMap(t, d, Pairs(sorted));
  }

  /** The (name, sums) pairs of summary rows listing each application of `names` once
      list them once too. */
  lemma PairsFacts(rows: seq<AppSummaryRow>, names: set<string>, totals: string -> AppCounts)
    requires forall i :: 0 <= i < |rows| ==> rows[i].app in names && rows[i].totals == totals(rows[i].app)
    requires forall a :: a in names ==> exists i :: 0 <= i < |rows| && rows[i].app == a
    requires forall i, j :: 0 <= i < j < |rows| ==> rows[i].app != rows[j].app
    ensures var p := Pairs(rows);
      && (forall i :: 0 <= i < |p| ==> p[i].0 in names && p[i].1 == totals(p[i].0))
      && (forall a :: a in names ==> exists i :: 0 <= i < |p| && p[i].0 == a)
      && (forall i, j :: 0 <= i < j < |p| ==> p[i].0 != p[j].0)
  {
    var p := Pairs(rows);
    forall a | a in names ensures exists i :: 0 <= i < |p| && p[i].0 == a {
      var i :| 0 <= i < |rows| && rows[i].app == a;
      assert p[i].0 == a;
    }
  }

  /** Rows listing each application of a one-day selection once, with its sums,
      build that day's per-application rows. */
  lemma DayRowsMap(t: map<(Date, string), AppCounts>, d: Date, p: seq<(string, AppCounts)>)
    requires forall i :: 0 <= i < |p| ==>
      p[i].0 in AppNames(Selected(t, Some(d), Some(d))) && p[i].1 == AppTotals(Selected(t, Some(d), Some(d)), p[i].0)
    requires forall a :: a in AppNames(Selected(t, Some(d), Some(d))) ==> exists i :: 0 <= i < |p| && p[i].0 == a
    requires forall i, j :: 0 <= i < j < |p| ==> p[i].0 != p[j].0
    ensures ToMap(p) == DayView(t, d)
  {
    var v := DayView(t, d);
    forall i | 0 <= i < |p| ensures p[i].0 in v && p[i].1 == v[p[i].0] {
      OneDayNames(t, d, p[i].0);
      OneDayAppTotals(t, d, p[i].0);
    }
    forall a | a in v ensures exists i :: 0 <= i < |p| && p[i].0 == a {
      OneDayNames(t, d, a);
    }
    ListingToMap(p, v);
  }

  /** Today's table shows the tracker's day: stored rows plus buffer, as `Combined(today).apps`. */
  lemma TodayAppsAreCombined(t: map<(Date, string), AppCounts>, today: Date, buffer: map<string, AppCounts>)
    requires |AppNames(Selected(t, Some(today), Some(today)))| <= 100
    ensures var r := DashboardDateRange("today", today);
      MergedBy(ToMap(Pairs(AppStatsSummary(t, 100, r.start, r.end))), buffer, AddApp)
        == Tracker.AddTotals(Tracker.Totals(NoActivity, map[], map[], DayView(t, today)),
                             Tracker.Totals(NoActivity, map[], map[], buffer)).apps
  {
    TodaySummaryIsDayView(t, today);
  }

  // ---------------------------------------------------------------------------
  // update_heatmap
  // ---------------------------------------------------------------------------

  /** The days the heatmap reads: all time reads from 2000-01-01 to today. */
  function HeatmapDays(r: Export.DateRange, today: Date): (d: (Date, Date))
    ensures r.start.Some? && r.end.Some? ==> d == (r.start.value, r.end.value)
    ensures r.start.None? ==> d == (ScreenTime.FirstDay, today)
  {
    if r.start.None? || r.end.None? then (ScreenTime.FirstDay, today) else (r.start.value, r.end.value)
  }

  /** `if app_filter:` — `None` and the empty name select all applications. */
  predicate Filtering(filter: Option<string>) {
    filter.Some? && filter.value != ""
  }

  /** The parameters `get_heatmap_range` and `get_mouse_heatmap_range` declare
      besides `self` (src/database.py:190, 211). */
  const RangeQueryParameters: set<string> := {"start_date", "end_date"}

  /** A Python call succeeds in binding its keyword arguments only when the
      signature declares every one of them; otherwise it raises `TypeError`. */
  predicate Binds(parameters: set<string>, keywords: set<string>) {
    keywords <= parameters
  }

  /** The keyboard query as written: the call passes `app_filter=`. */
  ghost function KeyQueryAsWritten(heat: map<(Date, int), int>, s: Date, e: Date): Option<map<int, int>> {
    if Binds(RangeQueryParameters, {"app_filter"}) then Some(RangeTotals(heat, s, e)) else None
  }

  /** The call raises whatever the range and the filter: the heatmap is never updated. */
  lemma KeyQueryAlwaysRaises(heat: map<(Date, int), int>, s: Date, e: Date)
    ensures KeyQueryAsWritten(heat, s, e) == None
  {
    assert "app_filter" !in RangeQueryParameters;
  }

  /** The corrected query: the range sums (the heatmap tables carry no application column). */
  ghost function KeyQuery(heat: map<(Date, int), int>, s: Date, e: Date): Option<map<int, int>> {
    if Binds(RangeQueryParameters, {}) then Some(RangeTotals(heat, s, e)) else None
  }

  lemma KeyQueryAnswers(heat: map<(Date, int), int>, s: Date, e: Date)
    ensures KeyQuery(heat, s, e) == Some(RangeTotals(heat, s, e))
  {
  }

  /** The keyboard half of `update_heatmap` as written: the query, then the merge;
      `None` when the query raises and the widget keeps its old data. */
  ghost function KeyboardHeatmapAsWritten(heat: map<(Date, int), int>, r: Export.DateRange, today: Date,
                                          current: string, filter: Option<string>, snap: Tracker.Snapshot)
    : Option<map<int, int>>
  {
    var d := HeatmapDays(r, today);
    match KeyQueryAsWritten(heat, d.0, d.1)
    case None => None
    case Some(stored) => Some(KeyboardMergeAsWritten(stored, current, filter, snap))
  }

  /** The corrected keyboard half: the corrected query, then the corrected merge. */
  ghost function KeyboardHeatmap(heat: map<(Date, int), int>, r: Export.DateRange, today: Date,
                                 current: string, filter: Option<string>, snap: Tracker.Snapshot)
    : Option<map<int, int>>
  {
    var d := HeatmapDays(r, today);
    match KeyQuery(heat, d.0, d.1)
    case None => None
    case Some(stored) => Some(KeyboardMerge(stored, current, filter, snap))
  }

  /** As written, no range, filter or snapshot ever gets a keyboard heatmap shown. */
  lemma KeyboardHeatmapNeverShown(heat: map<(Date, int), int>, r: Export.DateRange, today: Date,
                                  current: string, filter: Option<string>, snap: Tracker.Snapshot)
    ensures KeyboardHeatmapAsWritten(heat, r, today, current, filter, snap).None?
  {
    var d := HeatmapDays(r, today);
    KeyQueryAlwaysRaises(heat, d.0, d.1);
  }

  /** Corrected, every update shows the merge of the range totals. */
  lemma KeyboardHeatmapShown(heat: map<(Date, int), int>, r: Export.DateRange, today: Date,
                             current: string, filter: Option<string>, snap: Tracker.Snapshot)
    ensures var d := HeatmapDays(r, today);
      KeyboardHeatmap(heat, r, today, current, filter, snap) == Some(KeyboardMerge(RangeTotals(heat, d.0, d.1), current, filter, snap))
  {
    var d := HeatmapDays(r, today);
    KeyQueryAnswers(heat, d.0, d.1);
  }

  /** The keyboard merge as written: for today without a filter it adds the
      snapshot's `heatmap`, which already holds today's stored counts. */
  function KeyboardMergeAsWritten(stored: map<int, int>, current: string, filter: Option<string>, snap: Tracker.Snapshot): map<int, int> {
    if current == "today" && !Filtering(filter) then Merged(stored, snap.heatmap) else stored
  }

  /** The corrected merge adds only the buffered presses. With a filter nothing is
      added: the snapshot has no per-application heatmap buffer. */
  function KeyboardMerge(stored: map<int, int>, current: string, filter: Option<string>, snap: Tracker.Snapshot)
    : (m: map<int, int>)
    ensures current != "today" || Filtering(filter) ==> m == stored
    ensures current == "today" && !Filtering(filter) ==>
      && (forall k :: k in m <==> k in stored || k in snap.bufferHeatmap)
      && (forall k :: k in m ==> m[k] == Get(stored, k, 0) + Get(snap.bufferHeatmap, k, 0))
  {
    if current == "today" && !Filtering(filter) then Merged(stored, snap.bufferHeatmap) else stored
  }

  /** The click merge: the snapshot's `mouse_heatmap` is the buffer alone. */
  function MouseMerge(stored: map<(int, int), int>, current: string, filter: Option<string>, snap: Tracker.Snapshot)
    : (m: map<(int, int), int>)
    ensures current != "today" || Filtering(filter) ==> m == stored
    ensures current == "today" && !Filtering(filter) ==>
      && (forall b :: b in m <==> b in stored || b in snap.mouseHeatmap)
      && (forall b :: b in m ==> m[b] == Get(stored, b, 0) + Get(snap.mouseHeatmap, b, 0))
  {
    if current == "today" && !Filtering(filter) then Merged(stored, snap.mouseHeatmap) else stored
  }

  /** The keyboard half of `update_heatmap`, given the database's answer. */
  method UpdateKeyboardHeatmap(stored: map<int, int>, current: string, filter: Option<string>, snap: Tracker.Snapshot)
    returns (data: map<int, int>)
    ensures data == KeyboardMerge(stored, current, filter, snap)
  {
    data := stored;
    if current == "today" && !Filtering(filter) {
      data := MergeCounts(stored, snap.bufferHeatmap);
    }
  }

  /** The mouse half of `update_heatmap`, given the database's answer. */
  method UpdateMouseHeatmap(stored: map<(int, int), int>, current: string, filter: Option<string>, snap: Tracker.Snapshot)
    returns (data: map<(int, int), int>)
    ensures data == MouseMerge(stored, current, filter, snap)
  {
    data := stored;
    if current == "today" && !Filtering(filter) {
      data := MergeCounts(stored, snap.mouseHeatmap);
    }
  }

  /** For today without a filter, the corrected keyboard heatmap is the snapshot's
      combined heatmap: each key's stored count plus its buffered count. */
  lemma TodayKeyboardIsCombined(heat: map<(Date, int), int>, today: Date, snap: Tracker.Snapshot)
    requires snap.heatmap == Merged(DayView(heat, today), snap.bufferHeatmap)
    ensures var d := HeatmapDays(DashboardDateRange("today", today), today);
      KeyboardMerge(RangeTotals(heat, d.0, d.1), "today", None, snap) == snap.heatmap
  {
    DayViewIsOneDayRange(heat, today);
  }

  /** For today without a filter, the click heatmap is the day's stored cells plus the buffered ones. */
  lemma TodayMouseIsCombined(mouse: map<(Date, (int, int)), int>, today: Date, snap: Tracker.Snapshot)
    ensures var d := HeatmapDays(DashboardDateRange("today", today), today);
      MouseMerge(RangeTotals(mouse, d.0, d.1), "today", None, snap) == Merged(DayView(mouse, today), snap.mouseHeatmap)
  {
    DayViewIsOneDayRange(mouse, today);
  }

  /** As written, a key pressed 5 times today, all flushed, shows 10. */
  lemma KeyboardMergeDoubleCounts(today: Date)
    ensures var heat := map[(today, 30) := 5];
      var snap := Tracker.Snapshot(5, 0, 0.0, 0.0, map[30 := 5], map[], 0, 0, 0.0, 0.0, map[]);
      && snap.heatmap == Merged(DayView(heat, today), snap.bufferHeatmap)
      && KeyboardMergeAsWritten(RangeTotals(heat, today, today), "today", None, snap)[30] == 10
      && KeyboardMerge(RangeTotals(heat, today, today), "today", None, snap)[30] == 5
  {
    var heat := map[(today, 30) := 5];
    assert DayView(heat, today) == map[30 := 5];
    DayViewIsOneDayRange(heat, today);
  }

  // ---------------------------------------------------------------------------
  // The heatmap's application filter
  // ---------------------------------------------------------------------------

  /** `refresh_heatmap_app_list`'s entries: "all applications", then each
      application's display name with its raw name as data. */
  function AppFilterItems(allLabel: string, apps: seq<string>, meta: map<string, Metadata>): (items: seq<(string, Option<string>)>)
    ensures |items| == |apps| + 1 && items[0] == (allLabel, None)
    ensures forall i :: 0 <= i < |apps| ==> items[i + 1] == (DisplayName(apps[i], FriendlyOf(meta, apps[i])), Some(apps[i]))
  {
    [(allLabel, None)] + seq(|apps|, i requires 0 <= i < |apps| => (DisplayName(apps[i], FriendlyOf(meta, apps[i])), Some(apps[i])))
  }

  /** The loop of `refresh_heatmap_app_list` that adds one entry per application. */
  method FilterEntries(allLabel: string, apps: seq<string>, meta: map<string, Metadata>)
    returns (items: seq<(string, Option<string>)>)
    ensures items == AppFilterItems(allLabel, apps, meta)
  {
    items := [(allLabel, None)];
    for i := 0 to |apps|
      invariant |items| == i + 1 && items[0] == (allLabel, None)
      invariant forall j :: 0 <= j < i ==> items[j + 1] == (DisplayName(apps[j], FriendlyOf(meta, apps[j])), Some(apps[j]))
    {
      items := items + [(DisplayName(apps[i], FriendlyOf(meta, apps[i])), Some(apps[i]))];
    }
  }

  /** `findText`: the first entry with this text, or -1. */
  function FindText(items: seq<(string, Option<string>)>, text: string): (idx: int)
    ensures -1 <= idx < |items|
    ensures idx == -1 <==> forall i :: 0 <= i < |items| ==> items[i].0 != text
    ensures idx >= 0 ==> items[idx].0 == text && forall i :: 0 <= i < idx ==> items[i].0 != text
  {
    if items == [] then -1
    else if items[0].0 == text then 0
    else
      var rest := FindText(items[1..], text);
      assert forall i :: 1 <= i < |items| ==> items[i] == items[1..][i - 1];
      if rest == -1 then -1 else rest + 1
  }

  class MainWindow {
    var appListRefreshCounter: nat
    /** The heatmap filter's entries and its current index. */
    var filterItems: seq<(string, Option<string>)>
    var filterIndex: int

    constructor(allLabel: string, apps: seq<string>, meta: map<string, Metadata>)
      ensures appListRefreshCounter == 0
      ensures filterItems == AppFilterItems(allLabel, apps, meta) && filterIndex == 0
    {
      appListRefreshCounter := 0;
      filterItems := AppFilterItems(allLabel, apps, meta);
      filterIndex := 0;
    }

    /** `refresh_heatmap_app_list`: rebuilds the entries and keeps the previous
        entry's text selected when some entry still has it; otherwise the first
        entry added (all applications) is current. */
    method RefreshHeatmapAppList(allLabel: string, apps: seq<string>, meta: map<string, Metadata>)
      modifies this`filterItems, this`filterIndex
      ensures filterItems == AppFilterItems(allLabel, apps, meta)
      ensures var previous := if 0 <= old(filterIndex) < |old(filterItems)| then old(filterItems)[old(filterIndex)].0 else "";
        filterIndex == (if FindText(filterItems, previous) >= 0 then FindText(filterItems, previous) else 0)
    {
      var previous := if 0 <= filterIndex < |filterItems| then filterItems[filterIndex].0 else "";
      var items := FilterEntries(allLabel, apps, meta);
      filterItems := items;
      filterIndex := 0;
      var idx := FindText(items, previous);
      if idx >= 0 {
        filterIndex := idx;
      }
    }

    /** `get_selected_heatmap_app`: `None` for all applications, else the raw name. */
    function SelectedHeatmapApp(): (app: Option<string>)
      reads this
      ensures filterIndex == 0 || !(0 <= filterIndex < |filterItems|) ==> app.None?
      ensures app.Some? ==> 0 < filterIndex < |filterItems| && app == filterItems[filterIndex].1
    {
      if filterIndex == 0 then None
      else if 0 <= filterIndex < |filterItems| then filterItems[filterIndex].1
      else None
    }

    /** The counter part of `update_stats`; on the tenth update the list is rebuilt. */
    method CountUpdate(allLabel: string, apps: seq<string>, meta: map<string, Metadata>) returns (refreshed: bool)
      modifies this`appListRefreshCounter, this`filterItems, this`filterIndex
      ensures (appListRefreshCounter, refreshed) == Tick(old(appListRefreshCounter))
      ensures refreshed ==> filterItems == AppFilterItems(allLabel, apps, meta)
      ensures refreshed ==>
        var previous := if 0 <= old(filterIndex) < |old(filterItems)| then old(filterItems)[old(filterIndex)].0 else "";
        filterIndex == (if FindText(filterItems, previous) >= 0 then FindText(filterItems, previous) else 0)
      ensures !refreshed ==> filterItems == old(filterItems) && filterIndex == old(filterIndex)
    {
      appListRefreshCounter := appListRefreshCounter + 1;
      refreshed := false;
      if appListRefreshCounter >= 10 {
        appListRefreshCounter := 0;
        refreshed := true;
        RefreshHeatmapAppList(allLabel, apps, meta);
      }
    }
  }

  /** Every listed application can be selected, and selecting it filters on its raw name. */
  lemma SelectingAnApp(allLabel: string, apps: seq<string>, meta: map<string, Metadata>, i: int)
    requires 0 <= i < |apps|
    ensures var items := AppFilterItems(allLabel, apps, meta);
      items[i + 1].1 == Some(apps[i]) && items[0].1 == None
  {
  }

  /** After a refresh the previously shown text is still shown when some entry has it. */
  lemma RefreshKeepsText(items: seq<(string, Option<string>)>, text: string, i: int)
    requires 0 <= i < |items| && items[i].0 == text
    ensures 0 <= FindText(items, text) <= i && items[FindText(items, text)].0 == text
  {
  }
}
