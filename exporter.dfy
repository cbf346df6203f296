/** Data export: the preset date ranges, the rows written to the four CSV
    files and to the JSON document, and the `HH:MM:SS` rendering of screen
    time. Query results are the rows the database returns; the files
    themselves are modelled as sequences of rows. */
module Export {
  import opened Common
  import opened Text
  import opened Storage

  // ---------------------------------------------------------------------------
  // Date ranges
  // ---------------------------------------------------------------------------

  /** `(start_date, end_date)`; `(None, None)` means all time. */
  datatype DateRange = DateRange(start: Option<Date>, end: Option<Date>)

  /** `_get_date_range`: the preset ranges end today and span 1, 7, 30 or 365 days. */
  function GetDateRange(rangeType: string, today: Date): (r: DateRange)
    ensures r.start.Some? <==> r.end.Some?
    ensures r.end.Some? ==> r.end.value == today
    ensures r.start.Some? <==> rangeType in {"today", "week", "month", "year"}
  {
    if rangeType == "today" then DateRange(Some(today), Some(today))
    else if rangeType == "week" then DateRange(Some(today - 6), Some(today))
    else if rangeType == "month" then DateRange(Some(today - 29), Some(today))
    else if rangeType == "year" then DateRange(Some(today - 364), Some(today))
    else DateRange(None, None)
  }

  /** The number of days each preset covers, both ends included. */
  lemma DateRangeDays(rangeType: string, today: Date)
    requires rangeType in {"today", "week", "month", "year"}
    ensures var r := GetDateRange(rangeType, today);
      r.end.value - r.start.value + 1 ==
        if rangeType == "today" then 1 else if rangeType == "week" then 7 else if rangeType == "month" then 30 else 365
  {
  }

  /** The date filter applies only when both bounds are given. */
  predicate InRange(r: DateRange, d: Date) {
    r.start.Some? && r.end.Some? ==> r.start.value <= d <= r.end.value
  }

  // ---------------------------------------------------------------------------
  // The daily query: `SELECT ... FROM daily_stats [WHERE date BETWEEN ? AND ?] ORDER BY date ASC`
  // ---------------------------------------------------------------------------

  /** The dates of `s` in ascending order. */
  ghost function AscendingDates(s: set<Date>): (r: seq<Date>)
    ensures forall d :: d in r <==> d in s
    ensures forall i, j :: 0 <= i < j < |r| ==> r[i] < r[j]
    decreases s
  {
    if s == {} then []
    else
      var m := Least(s, Identity);
      var rest := AscendingDates(s - {m});
      [m] + rest
  }

  /** The stored dates the filter keeps. */
  ghost function DatesIn(t: map<Date, DailyRow>, r: DateRange): set<Date> {
    set d | d in t && InRange(r, d)
  }

  ghost function DailyQuery(t: map<Date, DailyRow>, r: DateRange): (rows: seq<(Date, DailyRow)>)
  {
    var s := DatesIn(t, r);
    var dates := AscendingDates(s);
    assert forall i :: 0 <= i < |dates| ==> dates[i] in dates && dates[i] in s;
    seq(|dates|, i requires 0 <= i < |dates| => (dates[i], t[dates[i]]))
  }

  /** One row per stored date in the range, each with that date's counters, in ascending
      date order. */
  lemma DailyQueryRows(t: map<Date, DailyRow>, r: DateRange)
    ensures var rows := DailyQuery(t, r);
      && (forall i :: 0 <= i < |rows| ==> rows[i].0 in t && InRange(r, rows[i].0) && rows[i].1 == t[rows[i].0])
      && (forall i, j :: 0 <= i < j < |rows| ==> rows[i].0 < rows[j].0)
      && (forall d :: d in t && InRange(r, d) ==> exists i :: 0 <= i < |rows| && rows[i].0 == d)
  {
    var s := DatesIn(t, r);
    var dates := AscendingDates(s);
    var rows := DailyQuery(t, r);
    assert |rows| == |dates|;
    forall i | 0 <= i < |rows| ensures dates[i] in t && rows[i] == (dates[i], t[dates[i]]) {
      assert dates[i] in dates;
    }
    RowsOfDates(t, s, dates, rows);
    assert forall d :: d in s <==> d in t && InRange(r, d);
  }

  /** Rows built from the ascending listing of a set of stored dates: each row is a stored
      date with its counters, the dates ascend, and every date of the set has a row. */
  lemma RowsOfDates(t: map<Date, DailyRow>, s: set<Date>, dates: seq<Date>, rows: seq<(Date, DailyRow)>)
    requires s <= t.Keys
    requires forall d :: d in dates <==> d in s
    requires forall i, j :: 0 <= i < j < |dates| ==> dates[i] < dates[j]
    requires |rows| == |dates|
    requires forall i :: 0 <= i < |rows| ==> dates[i] in t && rows[i] == (dates[i], t[dates[i]])
    ensures forall i :: 0 <= i < |rows| ==> rows[i].0 in s && rows[i].1 == t[rows[i].0]
    ensures forall i, j :: 0 <= i < j < |rows| ==> rows[i].0 < rows[j].0
    ensures forall d :: d in s ==> exists i :: 0 <= i < |rows| && rows[i].0 == d
  {
    forall i | 0 <= i < |rows| ensures rows[i].0 in s {
      assert dates[i] in dates;
    }
    forall d | d in s ensures exists i :: 0 <= i < |rows| && rows[i].0 == d {
      var i :| 0 <= i < |dates| && dates[i] == d;
      assert rows[i].0 == d;
    }
  }

  /** An empty database yields no rows for either query. */
  lemma EmptyDatabaseQueries(r: DateRange)
    ensures DailyQuery(map[], r) == []
    ensures AppStatsSummary(map[], -1, r.start, r.end) == []
  {
    var none: map<(Date, string), AppCounts> := map[];
    assert AppNames(Selected(none, r.start, r.end)) == {};
    TopRowsFacts(Selected(none, r.start, r.end), -1);
  }

  // ---------------------------------------------------------------------------
  // Cells and `or 0`
  // ---------------------------------------------------------------------------

  /** A CSV cell or a JSON scalar. */
  datatype Cell = Str(s: string) | Int(i: int) | Real(r: real) | Null

  type Row = seq<Cell>

  /** `x or 0` on a stored distance: a zero distance is written as the integer 0. */
  function RealOrZero(x: real): (c: Cell)
    ensures x != 0.0 ==> c == Real(x)
    ensures x == 0.0 ==> c == Int(0)
  {
    if x != 0.0 then Real(x) else Int(0)
  }

  /** `row[1] or 0` on a screen-time sum, which is NULL when the column holds no value. */
  function SecondsOrZero(x: Option<int>): (n: int)
    ensures x.Some? ==> n == x.value
    ensures x.None? ==> n == 0
  {
    if x.Some? then x.value else 0
  }

  /** `meta.get('exe_path', '')`: "" without metadata, JSON null for a stored NULL path. */
  function ExePathOf(m: map<string, Metadata>, app: string): Cell {
    if app !in m then Str("")
    else if m[app].exePath.Some? then Str(m[app].exePath.value)
    else Null
  }

  // ---------------------------------------------------------------------------
  // HH:MM:SS
  // ---------------------------------------------------------------------------

  /** `f"{n:02d}"` for any integer: a negative number keeps its sign and is not padded further. */
  function Pad2Int(n: int): (r: string)
    ensures n >= 0 ==> r == Pad2(n)
    ensures n < 0 ==> r == "-" + NatToString(-n)
  {
    if n >= 0 then Pad2(n) else "-" + NatToString(-n)
  }

  /** Hours, minutes and seconds of a duration, with floor division as in the source. */
  function HmsParts(total: int): (p: (int, int, int))
    ensures p.0 * 3600 + p.1 * 60 + p.2 == total
    ensures 0 <= p.1 < 60 && 0 <= p.2 < 60
    ensures total >= 0 ==> p.0 >= 0
  {
    (total / 3600, (total % 3600) / 60, total % 60)
  }

  /** The screen-time export's `HH:MM:SS`. */
  function FormatHms(total: int): (r: string)
    ensures total >= 0 ==> |r| >= 8 && r[|r| - 3] == ':' && r[|r| - 6] == ':'
    ensures total < 0 ==> |r| > 0 && r[0] == '-'
  {
    var p := HmsParts(total);
    Pad2Int(p.0) + ":" + Pad2(p.1) + ":" + Pad2(p.2)
  }

  /** Reading the three fields back gives the duration: the last two characters are the
      seconds, the two before the second colon the minutes, the rest the hours. */
  lemma FormatHmsRoundTrip(total: nat)
    ensures var f := FormatHms(total);
      && |f| >= 8 && f[|f| - 3] == ':' && f[|f| - 6] == ':'
      && (forall i :: 0 <= i < |f| && i != |f| - 3 && i != |f| - 6 ==> IsDigit(f[i]))
      && ParseNat(f[..|f| - 6]) * 3600 + ParseNat(f[|f| - 5..|f| - 3]) * 60 + ParseNat(f[|f| - 2..]) == total
  {
    var p := HmsParts(total);
    var h, m, s := Pad2(p.0), Pad2(p.1), Pad2(p.2);
    var f := FormatHms(total);
    assert f == h + ":" + m + ":" + s;
    assert f[..|f| - 6] == h;
    assert f[|f| - 5..|f| - 3] == m;
    assert f[|f| - 2..] == s;
  }

  /** Two hours are written as `02:00:00`. */
  lemma FormatHmsTwoHours()
    ensures FormatHms(7200) == "02:00:00"
  {
    assert HmsParts(7200) == (2, 0, 0);
    assert NatToString(2) == "2" && NatToString(0) == "0";
  }

  // ---------------------------------------------------------------------------
  // Rows
  // ---------------------------------------------------------------------------

  const DailyHeader: Row := [Str("Date"), Str("Keystrokes"), Str("Mouse Clicks"), Str("Mouse Distance (m)"), Str("Scroll Distance")]
  const AppHeader: Row := [Str("Application"), Str("Friendly Name"), Str("Keystrokes"), Str("Clicks"), Str("Scrolls"), Str("Distance (m)")]
  const HeatmapHeader: Row := [Str("Key Code (Scan Code)"), Str("Press Count")]
  const ScreenTimeHeader: Row := [Str("Application"), Str("Friendly Name"), Str("Total Seconds"), Str("Formatted Time")]

  /** A row of `app_foreground_time` summed per application (that table is not part of this model). */
  datatype ScreenTimeRow = ScreenTimeRow(app: string, seconds: Option<int>)

  /** `iso` renders a day number as `YYYY-MM-DD`. */
  function DailyCsvRow(row: (Date, DailyRow), iso: Date -> string): (r: Row)
    ensures |r| == |DailyHeader| && r[0] == Str(iso(row.0))
  {
    [Str(iso(row.0)), Int(row.1.keys), Int(row.1.clicks), Real(row.1.distance), Real(row.1.scroll)]
  }

  function AppCsvRow(row: AppSummaryRow, meta: map<string, Metadata>): (r: Row)
    ensures |r| == |AppHeader| && r[0] == Str(row.app)
    ensures r[1] == Str(if row.app in meta then meta[row.app].friendlyName else "")
  {
    [Str(row.app), Str(FriendlyOf(meta, row.app)), Int(row.totals.keys), Int(row.totals.clicks),
     Int(row.totals.scrolls), RealOrZero(row.totals.distance)]
  }

  function HeatmapCsvRow(row: (int, int)): (r: Row)
    ensures |r| == |HeatmapHeader|
  {
    [Int(row.0), Int(row.1)]
  }

  function ScreenTimeCsvRow(row: ScreenTimeRow, meta: map<string, Metadata>): (r: Row)
    ensures |r| == |ScreenTimeHeader| && r[0] == Str(row.app)
    ensures r[1] == Str(if row.app in meta then meta[row.app].friendlyName else "")
    ensures row.seconds.None? ==> r[2] == Int(0)
  {
    var total := SecondsOrZero(row.seconds);
    [Str(row.app), Str(FriendlyOf(meta, row.app)), Int(total), Str(FormatHms(total))]
  }

  /** A JSON object. */
  type Object = map<string, Cell>

  function DailyJson(row: (Date, DailyRow), iso: Date -> string): (r: Object)
    ensures r.Keys == {"date", "keystrokes", "mouse_clicks", "mouse_distance", "scroll_distance"}
  {
    map["date" := Str(iso(row.0)), "keystrokes" := Int(row.1.keys), "mouse_clicks" := Int(row.1.clicks),
        "mouse_distance" := RealOrZero(row.1.distance), "scroll_distance" := RealOrZero(row.1.scroll)]
  }

  function AppJson(row: AppSummaryRow, meta: map<string, Metadata>): (r: Object)
    ensures r.Keys == {"app_name", "friendly_name", "exe_path", "keystrokes", "clicks", "scrolls", "distance"}
    ensures row.app !in meta ==> r["friendly_name"] == Str("") && r["exe_path"] == Str("")
    ensures row.app in meta ==> r["exe_path"] == if meta[row.app].exePath.Some? then Str(meta[row.app].exePath.value) else Null
  {
    map["app_name" := Str(row.app), "friendly_name" := Str(FriendlyOf(meta, row.app)),
        "exe_path" := ExePathOf(meta, row.app), "keystrokes" := Int(row.totals.keys),
        "clicks" := Int(row.totals.clicks), "scrolls" := Int(row.totals.scrolls),
        "distance" := RealOrZero(row.totals.distance)]
  }

  function HeatmapJson(row: (int, int)): (r: Object)
    ensures r.Keys == {"key_code", "count"}
  {
    map["key_code" := Int(row.0), "count" := Int(row.1)]
  }

  function ScreenTimeJson(row: ScreenTimeRow, meta: map<string, Metadata>): (r: Object)
    ensures r.Keys == {"app_name", "friendly_name", "total_seconds"}
    ensures row.seconds.None? ==> r["total_seconds"] == Int(0)
  {
    map["app_name" := Str(row.app), "friendly_name" := Str(FriendlyOf(meta, row.app)),
        "total_seconds" := Int(SecondsOrZero(row.seconds))]
  }

  /** An application without metadata is exported with an empty friendly name and path. */
  lemma MissingMetadataExportsEmpty(row: AppSummaryRow, meta: map<string, Metadata>)
    requires row.app !in meta
    ensures AppCsvRow(row, meta)[1] == Str("")
    ensures AppJson(row, meta)["friendly_name"] == Str("") && AppJson(row, meta)["exe_path"] == Str("")
  {
  }

  // ---------------------------------------------------------------------------
  // The exports
  // ---------------------------------------------------------------------------

  /** `export_daily_stats_csv`: the header, then one row per fetched date in fetch order.
      `fails` stands for any exception (database or file), which makes the export return false. */
  method ExportDailyCsv(rows: seq<(Date, DailyRow)>, iso: Date -> string, fails: bool) returns (ok: bool, csv: seq<Row>)
    ensures ok == !fails
    ensures ok ==> (|csv| == |rows| + 1 && csv[0] == DailyHeader
      && forall i :: 0 <= i < |rows| ==> csv[i + 1] == DailyCsvRow(rows[i], iso))
  {
    if fails {
      return false, [];
    }
    csv := [DailyHeader];
    for i := 0 to |rows|
      invariant |csv| == i + 1 && csv[0] == DailyHeader
      invariant forall k :: 0 <= k < i ==> csv[k + 1] == DailyCsvRow(rows[k], iso)
    {
      csv := csv + [DailyCsvRow(rows[i], iso)];
    }
    ok := true;
  }

  /** `export_app_stats_csv` */
  method ExportAppCsv(rows: seq<AppSummaryRow>, meta: map<string, Metadata>, fails: bool) returns (ok: bool, csv: seq<Row>)
    ensures ok == !fails
    ensures ok ==> (|csv| == |rows| + 1 && csv[0] == AppHeader
      && forall i :: 0 <= i < |rows| ==> csv[i + 1] == AppCsvRow(rows[i], meta))
  {
    if fails {
      return false, [];
    }
    csv := [AppHeader];
    for i := 0 to |rows|
      invariant |csv| == i + 1 && csv[0] == AppHeader
      invariant forall k :: 0 <= k < i ==> csv[k + 1] == AppCsvRow(rows[k], meta)
    {
      csv := csv + [AppCsvRow(rows[i], meta)];
    }
    ok := true;
  }

  /** `export_heatmap_csv`: `(key_code, total_count)` rows written as fetched. */
  method ExportHeatmapCsv(rows: seq<(int, int)>, fails: bool) returns (ok: bool, csv: seq<Row>)
    ensures ok == !fails
    ensures ok ==> (|csv| == |rows| + 1 && csv[0] == HeatmapHeader
      && forall i :: 0 <= i < |rows| ==> csv[i + 1] == HeatmapCsvRow(rows[i]))
  {
    if fails {
      return false, [];
    }
    csv := [HeatmapHeader];
    for i := 0 to |rows|
      invariant |csv| == i + 1 && csv[0] == HeatmapHeader
      invariant forall k :: 0 <= k < i ==> csv[k + 1] == HeatmapCsvRow(rows[k])
    {
      csv := csv + [HeatmapCsvRow(rows[i])];
    }
    ok := true;
  }

  /** `export_screen_time_csv` */
  method ExportScreenTimeCsv(rows: seq<ScreenTimeRow>, meta: map<string, Metadata>, fails: bool) returns (ok: bool, csv: seq<Row>)
    ensures ok == !fails
    ensures ok ==> (|csv| == |rows| + 1 && csv[0] == ScreenTimeHeader
      && forall i :: 0 <= i < |rows| ==> csv[i + 1] == ScreenTimeCsvRow(rows[i], meta))
  {
    if fails {
      return false, [];
    }
    csv := [ScreenTimeHeader];
    for i := 0 to |rows|
      invariant |csv| == i + 1 && csv[0] == ScreenTimeHeader
      invariant forall k :: 0 <= k < i ==> csv[k + 1] == ScreenTimeCsvRow(rows[k], meta)
    {
      csv := csv + [ScreenTimeCsvRow(rows[i], meta)];
    }
    ok := true;
  }

  /** The fetched results of the four queries, for one date range. */
  datatype Fetched = Fetched(
    daily: seq<(Date, DailyRow)>,
    apps: seq<AppSummaryRow>,
    heatmap: seq<(int, int)>,
    screenTime: seq<ScreenTimeRow>,
    meta: map<string, Metadata>)

  /** `export_all_csv`: one result per export, under exactly these four names; `failing`
      names the exports that raise. */
  method ExportAllCsv(data: Fetched, iso: Date -> string, failing: set<string>) returns (results: map<string, bool>)
    ensures results.Keys == {"daily_stats", "app_stats", "heatmap", "screen_time"}
    ensures forall name :: name in results ==> results[name] == (name !in failing)
  {
    var ok, csv;
    ok, csv := ExportDailyCsv(data.daily, iso, "daily_stats" in failing);
    results := map["daily_stats" := ok];
    ok, csv := ExportAppCsv(data.apps, data.meta, "app_stats" in failing);
    results := results["app_stats" := ok];
    ok, csv := ExportHeatmapCsv(data.heatmap, "heatmap" in failing);
    results := results["heatmap" := ok];
    ok, csv := ExportScreenTimeCsv(data.screenTime, data.meta, "screen_time" in failing);
    results := results["screen_time" := ok];
  }

  /** The JSON document: `export_info` and the four arrays. */
  datatype Document = Document(info: Object, daily: seq<Object>, apps: seq<Object>, heatmap: seq<Object>, screenTime: seq<Object>)

  /** `export_info`: the export time, the range (null when not given) and version 1.0. */
  function ExportInfo(now: string, range: DateRange, iso: Date -> string): (info: Object)
    ensures info.Keys == {"exported_at", "start_date", "end_date", "version"}
    ensures info["version"] == Str("1.0")
    ensures range.start.None? ==> info["start_date"] == Null
    ensures range.end.None? ==> info["end_date"] == Null
  {
    map["exported_at" := Str(now),
        "start_date" := if range.start.Some? then Str(iso(range.start.value)) else Null,
        "end_date" := if range.end.Some? then Str(iso(range.end.value)) else Null,
        "version" := Str("1.0")]
  }

  /** `export_json`: the info block and one object per fetched row, array by array in fetch
      order; any exception (`fails`) makes it return false. */
  method ExportJson(data: Fetched, range: DateRange, now: string, iso: Date -> string, fails: bool)
    returns (ok: bool, doc: Document)
    ensures ok == !fails
    ensures ok ==> doc.info == ExportInfo(now, range, iso)
    ensures ok ==> (|doc.daily| == |data.daily| && forall i :: 0 <= i < |data.daily| ==> doc.daily[i] == DailyJson(data.daily[i], iso))
    ensures ok ==> (|doc.apps| == |data.apps| && forall i :: 0 <= i < |data.apps| ==> doc.apps[i] == AppJson(data.apps[i], data.meta))
    ensures ok ==> (|doc.heatmap| == |data.heatmap| && forall i :: 0 <= i < |data.heatmap| ==> doc.heatmap[i] == HeatmapJson(data.heatmap[i]))
    ensures ok ==> (|doc.screenTime| == |data.screenTime|
      && forall i :: 0 <= i < |data.screenTime| ==> doc.screenTime[i] == ScreenTimeJson(data.screenTime[i], data.meta))
  {
    doc := Document(ExportInfo(now, range, iso), [], [], [], []);
    if fails {
      return false, doc;
    }
    var daily := [];
    for i := 0 to |data.daily|
      invariant |daily| == i && forall k :: 0 <= k < i ==> daily[k] == DailyJson(data.daily[k], iso)
    {
      daily := daily + [DailyJson(data.daily[i], iso)];
    }
    var apps := [];
    for i := 0 to |data.apps|
      invariant |apps| == i && forall k :: 0 <= k < i ==> apps[k] == AppJson(data.apps[k], data.meta)
    {
      apps := apps + [AppJson(data.apps[i], data.meta)];
    }
    var heat := [];
    for i := 0 to |data.heatmap|
      invariant |heat| == i && forall k :: 0 <= k < i ==> heat[k] == HeatmapJson(data.heatmap[k])
    {
      heat := heat + [HeatmapJson(data.heatmap[i])];
    }
    var screen := [];
    for i := 0 to |data.screenTime|
      invariant |screen| == i && forall k :: 0 <= k < i ==> screen[k] == ScreenTimeJson(data.screenTime[k], data.meta)
    {
      screen := screen + [ScreenTimeJson(data.screenTime[i], data.meta)];
    }
    doc := Document(doc.info, daily, apps, heat, screen);
    ok := true;
  }
}
