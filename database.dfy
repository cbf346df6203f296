/** The SQLite store of the tracker (src/database.py). Every table is a map
    keyed by its primary key; every `update_*` call is an insert-or-increment
    upsert; the aggregating queries are sums over the rows a date range
    selects. */
module Storage {
  import opened Common
  import opened Text

  /** Calendar dates as day numbers; 0 is 1970-01-01. */
  type Date = int

  /** A `daily_stats` row: key presses, clicks, metres moved, wheel notches. */
  datatype DailyRow = DailyRow(keys: int, clicks: int, distance: real, scroll: real)

  /** The per-application counters of `app_stats` and `hourly_app_stats`, and of
      the tracker's per-application buffer. */
  datatype AppCounts = AppCounts(keys: int, clicks: int, scrolls: int, distance: real)

  /** An `app_metadata` row. */
  datatype Metadata = Metadata(friendlyName: string, exePath: Option<string>)

  const NoActivity := DailyRow(0, 0, 0.0, 0.0)
  const NoAppActivity := AppCounts(0, 0, 0, 0.0)

  function AddDaily(a: DailyRow, b: DailyRow): DailyRow {
    DailyRow(a.keys + b.keys, a.clicks + b.clicks, a.distance + b.distance, a.scroll + b.scroll)
  }

  function AddApp(a: AppCounts, b: AppCounts): AppCounts {
    AppCounts(a.keys + b.keys, a.clicks + b.clicks, a.scrolls + b.scrolls, a.distance + b.distance)
  }

  function Plus(a: int, b: int): int { a + b }

  // ---------------------------------------------------------------------------
  // Upserts
  // ---------------------------------------------------------------------------

  /** `INSERT ... ON CONFLICT(key) DO UPDATE SET col = col + excluded.col`:
      a new key stores the deltas, an existing key adds them. */
  function Upsert<K, V>(t: map<K, V>, k: K, delta: V, add: (V, V) -> V): map<K, V> {
    if k in t then t[k := add(t[k], delta)] else t[k := delta]
  }

  function UpsertDaily(t: map<Date, DailyRow>, d: Date, delta: DailyRow): map<Date, DailyRow> {
    Upsert(t, d, delta, AddDaily)
  }

  function UpsertApp<K>(t: map<K, AppCounts>, k: K, delta: AppCounts): map<K, AppCounts> {
    Upsert(t, k, delta, AddApp)
  }

  function UpsertCount<K>(t: map<K, int>, k: K, n: int): map<K, int> {
    Upsert(t, k, n, Plus)
  }

  /** Inserting is adding to an all-zero row: the upsert stores old-or-zero plus the deltas. */
  lemma UpsertDailyAdds(t: map<Date, DailyRow>, d: Date, delta: DailyRow)
    ensures UpsertDaily(t, d, delta) == t[d := AddDaily(Get(t, d, NoActivity), delta)]
  {
    assert AddDaily(NoActivity, delta) == delta;
  }

  lemma UpsertAppAdds<K>(t: map<K, AppCounts>, k: K, delta: AppCounts)
    ensures UpsertApp(t, k, delta) == t[k := AddApp(Get(t, k, NoAppActivity), delta)]
  {
    assert AddApp(NoAppActivity, delta) == delta;
  }

  /** A counter upsert is the dictionary increment `d[k] = d.get(k, 0) + n`. */
  lemma UpsertCountIsIncrement<K>(t: map<K, int>, k: K, n: int)
    ensures UpsertCount(t, k, n) == Increment(t, k, n)
  {
  }

  /** Two upserts of one key equal one upsert of the summed deltas. */
  lemma UpsertDailyTwice(t: map<Date, DailyRow>, d: Date, a: DailyRow, b: DailyRow)
    ensures UpsertDaily(UpsertDaily(t, d, a), d, b) == UpsertDaily(t, d, AddDaily(a, b))
  {
    var once := UpsertDaily(t, d, a);
    assert once[d := AddDaily(once[d], b)] == t[d := AddDaily(once[d], b)];
  }

  lemma UpsertAppTwice<K>(t: map<K, AppCounts>, k: K, a: AppCounts, b: AppCounts)
    ensures UpsertApp(UpsertApp(t, k, a), k, b) == UpsertApp(t, k, AddApp(a, b))
  {
    var once := UpsertApp(t, k, a);
    assert once[k := AddApp(once[k], b)] == t[k := AddApp(once[k], b)];
  }

  lemma UpsertCountTwice<K>(t: map<K, int>, k: K, a: int, b: int)
    ensures UpsertCount(UpsertCount(t, k, a), k, b) == UpsertCount(t, k, a + b)
  {
    var once := UpsertCount(t, k, a);
    assert once[k := once[k] + b] == t[k := once[k] + b];
  }

  /** `update_app_metadata`: overwrite, never accumulate. */
  function SetMetadata(m: map<string, Metadata>, app: string, friendly: string, exe: Option<string>): (r: map<string, Metadata>)
    ensures app in r && r[app] == Metadata(friendly, exe)
    ensures forall a :: a in m && a != app ==> a in r && r[a] == m[a]
  {
    m[app := Metadata(friendly, exe)]
  }

  /** The last metadata write wins. */
  lemma SetMetadataLastWins(m: map<string, Metadata>, app: string, f1: string, e1: Option<string>, f2: string, e2: Option<string>)
    ensures SetMetadata(SetMetadata(m, app, f1, e1), app, f2, e2) == SetMetadata(m, app, f2, e2)
  {
  }

  /** `metadata.get(app, {}).get('friendly_name', '')` */
  function FriendlyOf(m: map<string, Metadata>, app: string): string {
    if app in m then m[app].friendlyName else ""
  }

  /** The table after one upsert per entry of `buf`, all dated `d` (in any order, since
      the upserts of distinct keys commute). */
  function Drain<K, V>(t: map<(Date, K), V>, d: Date, buf: map<K, V>, add: (V, V) -> V): map<(Date, K), V> {
    var added := set k | k in buf.Keys :: (d, k);
    assert forall p :: p in added ==> p.0 == d && p.1 in buf;
    map p | p in t.Keys + added ::
      if p.0 == d && p.1 in buf then (if p in t then add(t[p], buf[p.1]) else buf[p.1]) else t[p]
  }

  /** Draining a buffer with one more entry is one more upsert. */
  lemma DrainInsert<K, V>(t: map<(Date, K), V>, d: Date, b: map<K, V>, k: K, v: V, add: (V, V) -> V)
    requires k !in b
    ensures Drain(t, d, b[k := v], add) == Upsert(Drain(t, d, b, add), (d, k), v, add)
  {
    var lhs := Drain(t, d, b[k := v], add);
    var rhs := Upsert(Drain(t, d, b, add), (d, k), v, add);
    assert (d, k) in lhs;
    forall p | p in rhs ensures p in lhs {
      if p != (d, k) && p !in t {
        var j :| j in b && p == (d, j);
      }
    }
    assert lhs.Keys == rhs.Keys;
    forall p | p in lhs ensures lhs[p] == rhs[p] {
    }
  }

  /** Draining one more entry of the buffer is one more upsert. */
  lemma DrainStep<K, V>(t: map<(Date, K), V>, d: Date, buf: map<K, V>, done: set<K>, k: K, add: (V, V) -> V)
    requires k in buf && k !in done
    ensures Drain(t, d, Restrict(buf, done + {k}), add) == Upsert(Drain(t, d, Restrict(buf, done), add), (d, k), buf[k], add)
  {
    assert Restrict(buf, done + {k}) == Restrict(buf, done)[k := buf[k]];
    DrainInsert(t, d, Restrict(buf, done), k, buf[k], add);
  }

  /** The same step, as a loop over the keys still pending sees it. */
  lemma DrainNext<K, V>(t: map<(Date, K), V>, d: Date, buf: map<K, V>, pending: set<K>, k: K, add: (V, V) -> V)
    requires k in pending && pending <= buf.Keys
    ensures Drain(t, d, Restrict(buf, buf.Keys - (pending - {k})), add)
      == Upsert(Drain(t, d, Restrict(buf, buf.Keys - pending), add), (d, k), buf[k], add)
  {
    assert buf.Keys - (pending - {k}) == (buf.Keys - pending) + {k};
    DrainStep(t, d, buf, buf.Keys - pending, k, add);
  }

  lemma DrainAll<K, V>(t: map<(Date, K), V>, d: Date, buf: map<K, V>, add: (V, V) -> V)
    ensures Drain(t, d, Restrict(buf, buf.Keys - buf.Keys), add) == t
    ensures Drain(t, d, Restrict(buf, buf.Keys - {}), add) == Drain(t, d, buf, add)
  {
    assert Restrict(buf, buf.Keys - {}) == buf;
    assert Restrict(buf, buf.Keys - buf.Keys) == map[];
  }

  /** After draining, the day's view is the old view merged with the buffer. */
  lemma DrainDayView<K, V>(t: map<(Date, K), V>, d: Date, buf: map<K, V>, add: (V, V) -> V)
    ensures DayView(Drain(t, d, buf, add), d) == MergedBy(DayView(t, d), buf, add)
  {
    var lhs, rhs := DayView(Drain(t, d, buf, add), d), MergedBy(DayView(t, d), buf, add);
    forall k | k in lhs ensures k in rhs {
      var p :| p in Drain(t, d, buf, add) && p.0 == d && p.1 == k;
      assert p == (d, k);
    }
    forall k | k in rhs ensures k in lhs {
      assert (d, k) in Drain(t, d, buf, add);
    }
    assert lhs.Keys == rhs.Keys;
  }

  /** Draining into day `d` leaves every other day's view alone. */
  lemma DrainOtherDay<K, V>(t: map<(Date, K), V>, d: Date, buf: map<K, V>, add: (V, V) -> V, e: Date)
    requires e != d
    ensures DayView(Drain(t, d, buf, add), e) == DayView(t, e)
  {
    var lhs, rhs := DayView(Drain(t, d, buf, add), e), DayView(t, e);
    forall k | k in lhs ensures k in rhs {
      var p :| p in Drain(t, d, buf, add) && p.0 == e && p.1 == k;
      assert p == (e, k);
    }
  }

  /** Merging counters with `Plus` is `Merged`. */
  lemma MergedByPlus<K>(a: map<K, int>, b: map<K, int>)
    ensures MergedBy(a, b, Plus) == Merged(a, b)
  {
  }

  // ---------------------------------------------------------------------------
  // The tables
  // ---------------------------------------------------------------------------

  class Database {
    var daily: map<Date, DailyRow>
    var appStats: map<(Date, string), AppCounts>
    var hourlyAppStats: map<(Date, int, string), AppCounts>
    var heatmap: map<(Date, int), int>
    var mouseHeatmap: map<(Date, (int, int)), int>
    var metadata: map<string, Metadata>

    constructor()
      ensures daily == map[] && appStats == map[] && hourlyAppStats == map[]
      ensures heatmap == map[] && mouseHeatmap == map[] && metadata == map[]
    {
      daily, appStats, hourlyAppStats := map[], map[], map[];
      heatmap, mouseHeatmap, metadata := map[], map[], map[];
    }

    method UpdateStats(date: Date, keys: int, clicks: int, distance: real, scroll: real)
      modifies this`daily
      ensures daily == UpsertDaily(old(daily), date, DailyRow(keys, clicks, distance, scroll))
    {
      daily := UpsertDaily(daily, date, DailyRow(keys, clicks, distance, scroll));
    }

    method UpdateAppStats(date: Date, app: string, keys: int, clicks: int, scrolls: int, distance: real)
      modifies this`appStats
      ensures appStats == UpsertApp(old(appStats), (date, app), AppCounts(keys, clicks, scrolls, distance))
    {
      appStats := UpsertApp(appStats, (date, app), AppCounts(keys, clicks, scrolls, distance));
    }

    method UpdateHourlyAppStats(date: Date, hour: int, app: string, keys: int, clicks: int, scrolls: int, distance: real)
      modifies this`hourlyAppStats
      ensures hourlyAppStats == UpsertApp(old(hourlyAppStats), (date, hour, app), AppCounts(keys, clicks, scrolls, distance))
    {
      hourlyAppStats := UpsertApp(hourlyAppStats, (date, hour, app), AppCounts(keys, clicks, scrolls, distance));
    }

    method UpdateHeatmap(date: Date, keyCode: int, count: int)
      modifies this`heatmap
      ensures heatmap == UpsertCount(old(heatmap), (date, keyCode), count)
    {
      heatmap := UpsertCount(heatmap, (date, keyCode), count);
    }

    method UpdateMouseHeatmap(date: Date, x: int, y: int, count: int)
      modifies this`mouseHeatmap
      ensures mouseHeatmap == UpsertCount(old(mouseHeatmap), (date, (x, y)), count)
    {
      mouseHeatmap := UpsertCount(mouseHeatmap, (date, (x, y)), count);
    }

    method UpdateAppMetadata(app: string, friendly: string, exe: Option<string>)
      modifies this`metadata
      ensures metadata == SetMetadata(old(metadata), app, friendly, exe)
    {
      metadata := SetMetadata(metadata, app, friendly, exe);
    }

    /** `get_today_stats`: the row of `today`, if any. */
    function GetTodayStats(today: Date): (r: Option<DailyRow>)
      reads this
      ensures r.Some? <==> today in daily
      ensures r.Some? ==> r.value == daily[today]
    {
      if today in daily then Some(daily[today]) else None
    }

    /** `get_today_heatmap`: `{key_code: count}` of today's rows. */
    function GetTodayHeatmap(today: Date): (r: map<int, int>)
      reads this
      ensures forall k :: k in r <==> (today, k) in heatmap
      ensures forall k :: k in r ==> r[k] == heatmap[(today, k)]
    {
      DayView(heatmap, today)
    }
  }

  // ---------------------------------------------------------------------------
  // Aggregating queries
  // ---------------------------------------------------------------------------

  /** `{k: row for (date, k, row) in rows if date == d}` */
  function DayView<K, V>(t: map<(Date, K), V>, d: Date): map<K, V> {
    map k | k in (set p | p in t.Keys && p.0 == d :: p.1) :: t[(d, k)]
  }

  /** The rows of a date-keyed table whose key part is `k` and whose date is in `[s, e]`. */
  ghost function Slice<K, V>(t: map<(Date, K), V>, k: K, s: Date, e: Date): map<(Date, K), V> {
    map p | p in t && p.1 == k && s <= p.0 <= e :: t[p]
  }

  /** The key parts that have a row dated in `[s, e]`. */
  ghost function CodesIn<K, V>(t: map<(Date, K), V>, s: Date, e: Date): set<K> {
    set p | p in t && s <= p.0 <= e :: p.1
  }

  lemma CodesInIff<K, V>(t: map<(Date, K), V>, s: Date, e: Date, k: K)
    ensures k in CodesIn(t, s, e) <==> exists d :: s <= d <= e && (d, k) in t
  {
    if d :| s <= d <= e && (d, k) in t {
      var p := (d, k);
      assert p in t && s <= p.0 <= e;
    }
  }

  /** `SELECT k, SUM(count) FROM t WHERE date BETWEEN s AND e GROUP BY k`
      (`get_heatmap_range`, `get_mouse_heatmap_range`). */
  ghost function RangeTotals<K(!new)>(t: map<(Date, K), int>, s: Date, e: Date): (r: map<K, int>)
    ensures forall k :: k in r <==> exists d :: s <= d <= e && (d, k) in t
  {
    CodesInAll(t, s, e);
    map k | k in CodesIn(t, s, e) :: MapSum(Slice(t, k, s, e))
  }

  /** A code is reported exactly when some row of it lies in the range. */
  lemma CodesInAll<K>(t: map<(Date, K), int>, s: Date, e: Date)
    ensures forall k :: k in CodesIn(t, s, e) <==> exists d :: s <= d <= e && (d, k) in t
  {
    forall k ensures k in CodesIn(t, s, e) <==> exists d :: s <= d <= e && (d, k) in t {
      CodesInIff(t, s, e, k);
    }
  }

  /** Today's view is the one-day range. */
  lemma DayViewIsOneDayRange<K(!new)>(t: map<(Date, K), int>, d: Date)
    ensures DayView(t, d) == RangeTotals(t, d, d)
  {
    var v, r := DayView(t, d), RangeTotals(t, d, d);
    forall k | k in v ensures k in r && r[k] == v[k] {
      var sl := Slice(t, k, d, d);
      assert sl == map[(d, k) := t[(d, k)]];
      SumOfRemove(sl, Identity, (d, k));
      assert (sl - {(d, k)}).Keys == {};
      CodesInIff(t, d, d, k);
    }
    forall k | k in r ensures k in v {
      var p :| p in t && d <= p.0 <= d && p.1 == k;
      assert p == (d, k);
    }
  }

  lemma SliceUpsert<K>(t: map<(Date, K), int>, d: Date, k: K, n: int, j: K, s: Date, e: Date)
    ensures Slice(UpsertCount(t, (d, k), n), j, s, e) ==
            if j == k && s <= d <= e then UpsertCount(Slice(t, j, s, e), (d, k), n) else Slice(t, j, s, e)
  {
  }

  lemma CodesInUpsert<K>(t: map<(Date, K), int>, d: Date, k: K, n: int, s: Date, e: Date)
    ensures CodesIn(UpsertCount(t, (d, k), n), s, e) == CodesIn(t, s, e) + (if s <= d <= e then {k} else {})
  {
    var t' := UpsertCount(t, (d, k), n);
    forall j | j in CodesIn(t', s, e) ensures j in CodesIn(t, s, e) + (if s <= d <= e then {k} else {}) {
      CodesInIff(t', s, e, j);
      CodesInIff(t, s, e, j);
    }
    forall j | j in CodesIn(t, s, e) + (if s <= d <= e then {k} else {}) ensures j in CodesIn(t', s, e) {
      CodesInIff(t', s, e, j);
      CodesInIff(t, s, e, j);
      if j == k && s <= d <= e {
        assert (d, k) in t';
      }
    }
  }

  /** An upsert inside the range raises that code's range total by the delta;
      one outside the range leaves the totals alone. */
  lemma RangeTotalsUpsert<K(!new)>(t: map<(Date, K), int>, d: Date, k: K, n: int, s: Date, e: Date)
    ensures RangeTotals(UpsertCount(t, (d, k), n), s, e) ==
            if s <= d <= e then Increment(RangeTotals(t, s, e), k, n) else RangeTotals(t, s, e)
  {
    var t' := UpsertCount(t, (d, k), n);
    var before, after := RangeTotals(t, s, e), RangeTotals(t', s, e);
    CodesInUpsert(t, d, k, n, s, e);
    forall j ensures Get(after, j, 0) == Get(before, j, 0) + (if j == k && s <= d <= e then n else 0) {
      SliceSumUpsert(t, d, k, n, s, e, j);
      SliceSumIsTotal(t, s, e, j);
      SliceSumIsTotal(t', s, e, j);
    }
    IncrementFromGets(before, after, k, n, s <= d <= e);
  }

  /** A dictionary that gains `k` (when `raised`) and differs from `before` only by `n` at `k`
      is `before` incremented at `k`. */
  lemma IncrementFromGets<K>(before: map<K, int>, after: map<K, int>, k: K, n: int, raised: bool)
    requires after.Keys == before.Keys + (if raised then {k} else {})
    requires forall j :: Get(after, j, 0) == Get(before, j, 0) + (if j == k && raised then n else 0)
    ensures after == if raised then Increment(before, k, n) else before
  {
    var want := if raised then Increment(before, k, n) else before;
    forall j | j in after ensures after[j] == want[j] {
      assert Get(after, j, 0) == Get(before, j, 0) + (if j == k && raised then n else 0);
    }
  }

  /** One code's range sum after an upsert: raised by the delta for the upserted code
      inside the range, unchanged otherwise. */
  lemma SliceSumUpsert<K>(t: map<(Date, K), int>, d: Date, k: K, n: int, s: Date, e: Date, j: K)
    ensures MapSum(Slice(UpsertCount(t, (d, k), n), j, s, e)) ==
            MapSum(Slice(t, j, s, e)) + (if j == k && s <= d <= e then n else 0)
  {
    SliceUpsert(t, d, k, n, j, s, e);
    if j == k && s <= d <= e {
      UpsertCountIsIncrement(Slice(t, j, s, e), (d, k), n);
      IncrementSum(Slice(t, j, s, e), (d, k), n);
    }
  }

  /** A code's range sum is its reported total, or 0 when it is not reported. */
  lemma SliceSumIsTotal<K(!new)>(t: map<(Date, K), int>, s: Date, e: Date, j: K)
    ensures MapSum(Slice(t, j, s, e)) == Get(RangeTotals(t, s, e), j, 0)
  {
    if j !in CodesIn(t, s, e) {
      CodesInIff(t, s, e, j);
      assert Slice(t, j, s, e).Keys == {};
    }
  }

  lemma RangeTotalsEmpty<K(!new)>(t: map<(Date, K), int>, s: Date, e: Date)
    requires t == map[]
    ensures RangeTotals(t, s, e) == map[]
  {
  }

  /** A key pressed 100 times one day and 90 times the next is reported 190 times over both days. */
  lemma HeatmapRangeTwoDays(d: Date, code: int)
    ensures RangeTotals(UpsertCount(UpsertCount(map[], (d, code), 100), (d + 1, code), 90), d, d + 1) == map[code := 190]
  {
    var empty: map<(Date, int), int> := map[];
    RangeTotalsEmpty(empty, d, d + 1);
    RangeTotalsUpsert(empty, d, code, 100, d, d + 1);
    RangeTotalsUpsert(UpsertCount(empty, (d, code), 100), d + 1, code, 90, d, d + 1);
  }

  // --- daily_stats ---

  function RowKeys(r: DailyRow): int { r.keys }
  function RowClicks(r: DailyRow): int { r.clicks }
  function RowDistance(r: DailyRow): real { r.distance }
  function RowScroll(r: DailyRow): real { r.scroll }

  ghost function SumRows<K>(m: map<K, DailyRow>): DailyRow {
    DailyRow(SumOf(m, RowKeys), SumOf(m, RowClicks), RealSumOf(m, RowDistance), RealSumOf(m, RowScroll))
  }

  lemma SumRowsUpsert<K>(m: map<K, DailyRow>, k: K, delta: DailyRow)
    ensures SumRows(Upsert(m, k, delta, AddDaily)) == AddDaily(SumRows(m), delta)
  {
    var v := if k in m then AddDaily(m[k], delta) else delta;
    assert Upsert(m, k, delta, AddDaily) == m[k := v];
    SumOfUpdate(m, RowKeys, k, v);
    SumOfUpdate(m, RowClicks, k, v);
    RealSumOfUpdate(m, RowDistance, k, v);
    RealSumOfUpdate(m, RowScroll, k, v);
  }

  ghost function DaySlice(t: map<Date, DailyRow>, s: Date, e: Date): map<Date, DailyRow> {
    map d | d in t && s <= d <= e :: t[d]
  }

  /** `get_stats_range`: the four sums over `[s, e]`; SQL's SUM of no rows is NULL. */
  ghost function StatsRange(t: map<Date, DailyRow>, s: Date, e: Date): (r: Option<DailyRow>)
    ensures r.None? <==> forall d :: d in t ==> !(s <= d <= e)
  {
    var sl := DaySlice(t, s, e);
    assert forall d :: d in t && s <= d <= e ==> d in sl;
    if sl.Keys == {} then None else Some(SumRows(sl))
  }

  function OrNoActivity(r: Option<DailyRow>): DailyRow {
    if r.Some? then r.value else NoActivity
  }

  /** `update_stats` on a day inside the range adds its deltas to the range's sums. */
  lemma StatsRangeUpsert(t: map<Date, DailyRow>, d: Date, delta: DailyRow, s: Date, e: Date)
    ensures StatsRange(UpsertDaily(t, d, delta), s, e) ==
            if s <= d <= e then Some(AddDaily(OrNoActivity(StatsRange(t, s, e)), delta)) else StatsRange(t, s, e)
  {
    var t' := UpsertDaily(t, d, delta);
    if s <= d <= e {
      assert DaySlice(t', s, e) == Upsert(DaySlice(t, s, e), d, delta, AddDaily);
      SumRowsUpsert(DaySlice(t, s, e), d, delta);
      if DaySlice(t, s, e).Keys == {} {
        assert SumRows(DaySlice(t, s, e)) == NoActivity;
      }
      assert d in DaySlice(t', s, e);
    } else {
      assert DaySlice(t', s, e) == DaySlice(t, s, e);
    }
  }

  datatype AllTimeStats = AllTimeStats(totals: Option<DailyRow>, firstDate: Option<Date>, lastDate: Option<Date>, daysTracked: nat)

  /** `get_all_time_stats`: sums over every row, first and last date, number of distinct dates. */
  ghost function AllTime(t: map<Date, DailyRow>): (r: AllTimeStats)
    ensures r.daysTracked == |t.Keys|
    ensures r.totals.Some? <==> t.Keys != {}
    ensures r.firstDate.Some? <==> t.Keys != {}
    ensures r.firstDate.Some? ==> r.firstDate.value in t && forall d :: d in t ==> r.firstDate.value <= d
    ensures r.lastDate.Some? <==> t.Keys != {}
    ensures r.lastDate.Some? ==> r.lastDate.value in t && forall d :: d in t ==> d <= r.lastDate.value
  {
    if t.Keys == {} then AllTimeStats(None, None, None, 0)
    else AllTimeStats(Some(SumRows(t)), Some(Least(t.Keys, Identity)), Some(Greatest(t.Keys, Identity)), |t.Keys|)
  }

  /** The all-time sums are the range sums between the first and the last tracked date. */
  lemma AllTimeIsWidestRange(t: map<Date, DailyRow>)
    requires t.Keys != {}
    ensures AllTime(t).totals == StatsRange(t, AllTime(t).firstDate.value, AllTime(t).lastDate.value)
  {
    var a := AllTime(t);
    assert DaySlice(t, a.firstDate.value, a.lastDate.value) == t;
  }

  // --- app_stats ---

  function CountKeys(c: AppCounts): int { c.keys }
  function CountClicks(c: AppCounts): int { c.clicks }
  function CountScrolls(c: AppCounts): int { c.scrolls }
  function CountDistance(c: AppCounts): real { c.distance }

  ghost function SumCounts<K>(m: map<K, AppCounts>): AppCounts {
    AppCounts(SumOf(m, CountKeys), SumOf(m, CountClicks), SumOf(m, CountScrolls), RealSumOf(m, CountDistance))
  }

  lemma SumCountsUpdate<K>(m: map<K, AppCounts>, k: K, v: AppCounts)
    ensures k !in m ==> SumCounts(m[k := v]) == AddApp(SumCounts(m), v)
    ensures k in m ==> AddApp(SumCounts(m[k := v]), m[k]) == AddApp(SumCounts(m), v)
  {
    SumOfUpdate(m, CountKeys, k, v);
    SumOfUpdate(m, CountClicks, k, v);
    SumOfUpdate(m, CountScrolls, k, v);
    RealSumOfUpdate(m, CountDistance, k, v);
  }

  /** The application names that have a row. */
  ghost function AppNames(t: map<(Date, string), AppCounts>): set<string> {
    set p | p in t :: p.1
  }

  /** Some listing of a finite set, each element once. */
  ghost function Enumerate(s: set<string>): (r: seq<string>)
    ensures |r| == |s| && NoDuplicates(r)
    ensures forall x :: x in r <==> x in s
    decreases s
  {
    if s == {} then []
    else
      var x :| x in s;
      var rest := Enumerate(s - {x});
      [x] + rest
  }

  lemma StrLeTotalOn(s: seq<string>)
    ensures TotalOn(s, StrLe)
  {
    forall i, j | 0 <= i < |s| && 0 <= j < |s| ensures StrLe(s[i], s[j]) || StrLe(s[j], s[i]) {
      StrLeTotal(s[i], s[j]);
    }
    forall i, j, k | 0 <= i < |s| && 0 <= j < |s| && 0 <= k < |s| && StrLe(s[i], s[j]) && StrLe(s[j], s[k])
      ensures StrLe(s[i], s[k])
    {
      StrLeTransitive(s[i], s[j], s[k]);
    }
  }

  /** `get_all_apps`: `SELECT DISTINCT app_name FROM app_stats ORDER BY app_name`. */
  ghost function AllApps(t: map<(Date, string), AppCounts>): (r: seq<string>)
    ensures |r| == |AppNames(t)|
    ensures forall a :: a in r <==> a in AppNames(t)
    ensures SortedBy(r, StrLe) && NoDuplicates(r)
  {
    var names := Enumerate(AppNames(t));
    AllAppsFacts(names);
    SortBy(names, StrLe)
  }

  lemma AllAppsFacts(names: seq<string>)
    requires NoDuplicates(names)
    ensures var r := SortBy(names, StrLe);
      |r| == |names| && (forall a :: a in r <==> a in names) && SortedBy(r, StrLe) && NoDuplicates(r)
  {
    var r := SortBy(names, StrLe);
    StrLeTotalOn(names);
    SortBySorted(names, StrLe);
    PermutationNoDuplicates(names, r);
    assert |r| == |multiset(r)| == |multiset(names)| == |names|;
    forall a ensures a in r <==> a in names {
      assert a in r <==> a in multiset(r);
      assert a in names <==> a in multiset(names);
    }
  }

  datatype AppSummaryRow = AppSummaryRow(app: string, totals: AppCounts)

  /** The rows a call selects: a date range applies only when both bounds are given. */
  ghost function Selected(t: map<(Date, string), AppCounts>, start: Option<Date>, end: Option<Date>): map<(Date, string), AppCounts> {
    if start.Some? && end.Some? then map p | p in t && start.value <= p.0 <= end.value :: t[p] else t
  }

  /** `SUM(...) ... GROUP BY app_name` for one application. */
  ghost function AppTotals(t: map<(Date, string), AppCounts>, app: string): AppCounts {
    SumCounts(map p | p in t && p.1 == app :: t[p])
  }

  function ByKeysDesc(a: AppSummaryRow, b: AppSummaryRow): bool {
    a.totals.keys >= b.totals.keys
  }

  lemma ByKeysDescTotal(rows: seq<AppSummaryRow>)
    ensures TotalOn(rows, ByKeysDesc)
  {
  }

  /** One row per name, in the order of `names`. */
  function RowsFor(names: seq<string>, totals: string -> AppCounts): (rows: seq<AppSummaryRow>)
    ensures |rows| == |names|
    ensures forall i :: 0 <= i < |rows| ==> rows[i] == AppSummaryRow(names[i], totals(names[i]))
  {
    seq(|names|, i requires 0 <= i < |names| => AppSummaryRow(names[i], totals(names[i])))
  }

  ghost function SummaryRows(f: map<(Date, string), AppCounts>): seq<AppSummaryRow> {
    RowsFor(AllApps(f), a => AppTotals(f, a))
  }

  /** One row per selected application, with its sums. */
  lemma SummaryRowsFacts(f: map<(Date, string), AppCounts>)
    ensures var rows := SummaryRows(f);
      && |rows| == |AppNames(f)|
      && (forall i :: 0 <= i < |rows| ==> rows[i].app in AppNames(f) && rows[i].totals == AppTotals(f, rows[i].app))
      && (forall a :: a in AppNames(f) ==> exists i :: 0 <= i < |rows| && rows[i].app == a)
      && NoDuplicates(rows)
  {
    var names := AllApps(f);
    var rows := SummaryRows(f);
    forall a | a in AppNames(f) ensures exists i :: 0 <= i < |rows| && rows[i].app == a {
      var i :| 0 <= i < |names| && names[i] == a;
      assert rows[i].app == a;
    }
    forall i, j | 0 <= i < j < |rows| ensures rows[i] != rows[j] {
      assert rows[i].app == names[i] && rows[j].app == names[j];
    }
  }

  /** A reordering of the summary rows keeps their facts. */
  lemma PermutedRowsFacts(f: map<(Date, string), AppCounts>, sorted: seq<AppSummaryRow>)
    requires multiset(sorted) == multiset(SummaryRows(f))
    ensures |sorted| == |AppNames(f)|
    ensures forall i :: 0 <= i < |sorted| ==> sorted[i].app in AppNames(f) && sorted[i].totals == AppTotals(f, sorted[i].app)
    ensures forall a :: a in AppNames(f) ==> exists i :: 0 <= i < |sorted| && sorted[i].app == a
    ensures forall i, j :: 0 <= i < j < |sorted| ==> sorted[i].app != sorted[j].app
  {
    var rows := SummaryRows(f);
    SummaryRowsFacts(f);
    PermutationNoDuplicates(rows, sorted);
    assert |sorted| == |multiset(sorted)| == |multiset(rows)| == |rows|;
    forall i | 0 <= i < |sorted| ensures sorted[i].app in AppNames(f) && sorted[i].totals == AppTotals(f, sorted[i].app) {
      assert sorted[i] in multiset(rows);
    }
    forall a | a in AppNames(f) ensures exists i :: 0 <= i < |sorted| && sorted[i].app == a {
      var k :| 0 <= k < |rows| && rows[k].app == a;
      assert rows[k] in multiset(sorted);
      var i :| 0 <= i < |sorted| && sorted[i] == rows[k];
    }
  }

  /** The first `limit` per-application rows ordered by keys descending (all when `limit` is negative). */
  ghost function TopRows(f: map<(Date, string), AppCounts>, limit: int): seq<AppSummaryRow> {
    var sorted := SortBy(SummaryRows(f), ByKeysDesc);
    if 0 <= limit < |sorted| then sorted[..limit] else sorted
  }

  /** `get_app_stats_summary`: per-application sums, `ORDER BY keys DESC LIMIT limit`
      (a negative limit is no limit in SQLite; the order of ties is not stated). */
  ghost function AppStatsSummary(t: map<(Date, string), AppCounts>, limit: int, start: Option<Date>, end: Option<Date>)
    : (r: seq<AppSummaryRow>)
    ensures var f := Selected(t, start, end);
      && |r| == (if 0 <= limit < |AppNames(f)| then limit else |AppNames(f)|)
      && (forall i, j :: 0 <= i < j < |r| ==> r[i].totals.keys >= r[j].totals.keys)
      && (forall i :: 0 <= i < |r| ==> r[i].app in AppNames(f) && r[i].totals == AppTotals(f, r[i].app))
      && (forall i, j :: 0 <= i < j < |r| ==> r[i].app != r[j].app)
  {
    TopRowsFacts(Selected(t, start, end), limit);
    TopRows(Selected(t, start, end), limit)
  }

  lemma SortedSummaryFacts(f: map<(Date, string), AppCounts>)
    ensures var sorted := SortBy(SummaryRows(f), ByKeysDesc);
      && multiset(sorted) == multiset(SummaryRows(f))
      && forall i, j :: 0 <= i < j < |sorted| ==> sorted[i].totals.keys >= sorted[j].totals.keys
  {
    ByKeysDescTotal(SummaryRows(f));
    SortBySorted(SummaryRows(f), ByKeysDesc);
  }

  /** The summary lists each selected application once, with its sums, ordered by keys
      descending, and cut at `limit`. */
  lemma TopRowsFacts(f: map<(Date, string), AppCounts>, limit: int)
    ensures var r := TopRows(f, limit);
      && |r| == (if 0 <= limit < |AppNames(f)| then limit else |AppNames(f)|)
      && (forall i, j :: 0 <= i < j < |r| ==> r[i].totals.keys >= r[j].totals.keys)
      && (forall i :: 0 <= i < |r| ==> r[i].app in AppNames(f) && r[i].totals == AppTotals(f, r[i].app))
      && (forall i, j :: 0 <= i < j < |r| ==> r[i].app != r[j].app)
  {
    var sorted := SortBy(SummaryRows(f), ByKeysDesc);
    SortedSummaryFacts(f);
    PermutedRowsFacts(f, sorted);
    PrefixFacts(sorted, TopRows(f, limit), AppNames(f), a => AppTotals(f, a), limit);
  }

  /** A `LIMIT` cut of a descending, duplicate-free summary keeps those properties. */
  lemma PrefixFacts(sorted: seq<AppSummaryRow>, r: seq<AppSummaryRow>, names: set<string>, totals: string -> AppCounts, limit: int)
    requires r == if 0 <= limit < |sorted| then sorted[..limit] else sorted
    requires |sorted| == |names|
    requires forall i, j :: 0 <= i < j < |sorted| ==> sorted[i].totals.keys >= sorted[j].totals.keys
    requires forall i :: 0 <= i < |sorted| ==> sorted[i].app in names && sorted[i].totals == totals(sorted[i].app)
    requires forall i, j :: 0 <= i < j < |sorted| ==> sorted[i].app != sorted[j].app
    ensures |r| == (if 0 <= limit < |names| then limit else |names|)
    ensures forall i, j :: 0 <= i < j < |r| ==> r[i].totals.keys >= r[j].totals.keys
    ensures forall i :: 0 <= i < |r| ==> r[i].app in names && r[i].totals == totals(r[i].app)
    ensures forall i, j :: 0 <= i < j < |r| ==> r[i].app != r[j].app
  {
    forall i | 0 <= i < |r| ensures r[i] == sorted[i] {
    }
  }

  /** In a list ordered by keys descending, an application missing from a prefix
      has no more keys than any row of the prefix. */
  lemma LeftOutRanksLower(sorted: seq<AppSummaryRow>, top: seq<AppSummaryRow>, a: string, keys: int)
    requires top <= sorted
    requires forall i, k :: 0 <= i < k < |sorted| ==> sorted[i].totals.keys >= sorted[k].totals.keys
    requires exists j :: 0 <= j < |sorted| && sorted[j].app == a && sorted[j].totals.keys == keys
    requires forall i :: 0 <= i < |top| ==> top[i].app != a
    ensures forall i :: 0 <= i < |top| ==> keys <= top[i].totals.keys
  {
    var j :| 0 <= j < |sorted| && sorted[j].app == a && sorted[j].totals.keys == keys;
    assert |top| <= j;
    forall i | 0 <= i < |top| ensures keys <= top[i].totals.keys {
      assert top[i] == sorted[i];
    }
  }

  /** Every selected application has a row, with its sums, in any reordering of the summary. */
  lemma RowOf(f: map<(Date, string), AppCounts>, sorted: seq<AppSummaryRow>, a: string)
    requires multiset(sorted) == multiset(SummaryRows(f)) && a in AppNames(f)
    ensures exists j :: 0 <= j < |sorted| && sorted[j].app == a && sorted[j].totals.keys == AppTotals(f, a).keys
  {
    PermutedRowsFacts(f, sorted);
    var j :| 0 <= j < |sorted| && sorted[j].app == a;
    assert sorted[j].totals == AppTotals(f, a);
  }

  /** `LIMIT` keeps the top rows: an application left out has no more keys than any listed one. */
  lemma TopRowsKeepTop(f: map<(Date, string), AppCounts>, limit: int, a: string)
    requires a in AppNames(f)
    requires forall i :: 0 <= i < |TopRows(f, limit)| ==> TopRows(f, limit)[i].app != a
    ensures forall i :: 0 <= i < |TopRows(f, limit)| ==> AppTotals(f, a).keys <= TopRows(f, limit)[i].totals.keys
  {
    var sorted := SortBy(SummaryRows(f), ByKeysDesc);
    SortedSummaryFacts(f);
    RowOf(f, sorted, a);
    LeftOutRanksLower(sorted, TopRows(f, limit), a, AppTotals(f, a).keys);
  }
}
