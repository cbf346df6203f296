/** The input tracker (src/tracker.py): the low-level keyboard and mouse hooks
    feed in-memory buffers, and a periodic flush moves the buffers into the
    day's database rows. The hooks' Win32 plumbing, the threads and the lock
    are not modelled; what the operating system reports (the foreground
    process, the mouse travel distance, the clock) arrives as parameters. */
module Tracker {
  import opened Common
  import opened Text
  import opened Storage

  // ---------------------------------------------------------------------------
  // Hook messages
  // ---------------------------------------------------------------------------

  const WmKeyDown: int := 0x0100
  const WmKeyUp: int := 0x0101
  const WmSysKeyDown: int := 0x0104
  const WmSysKeyUp: int := 0x0105
  const WmMouseMove: int := 0x0200
  const WmLButtonDown: int := 0x0201
  const WmRButtonDown: int := 0x0204
  const WmMButtonDown: int := 0x0207
  const WmMouseWheel: int := 0x020A

  /** `LLKHF_INJECTED`: the event was synthesised by software. */
  const InjectedFlag: bv32 := 0x10

  /** The keyboard hook counts a press when the hook code is non-negative, the
      message is a (system) key-down and the event was not injected. */
  predicate CountsKeyPress(nCode: int, wParam: int, flags: bv32): (counted: bool)
    ensures counted ==> nCode >= 0 && (wParam == WmKeyDown || wParam == WmSysKeyDown) && flags & InjectedFlag == 0
    ensures nCode >= 0 && (wParam == WmKeyDown || wParam == WmSysKeyDown) && flags & InjectedFlag == 0 ==> counted
  {
    nCode >= 0 && (wParam == WmKeyDown || wParam == WmSysKeyDown) && flags & InjectedFlag == 0
  }

  /** Releases (plain or system), any other message and injected key-downs
      are never counted. */
  lemma ReleasesAndInjectedIgnored(nCode: int, wParam: int, flags: bv32)
    ensures !CountsKeyPress(nCode, WmKeyUp, flags)
    ensures !CountsKeyPress(nCode, WmSysKeyUp, flags)
    ensures wParam != WmKeyDown && wParam != WmSysKeyDown ==> !CountsKeyPress(nCode, wParam, flags)
    ensures !CountsKeyPress(nCode, WmKeyDown, flags | InjectedFlag)
    ensures !CountsKeyPress(nCode, WmSysKeyDown, flags | InjectedFlag)
  {
  }

  /** Where the mouse hook sends an event. */
  datatype MouseAction = Move(x: int, y: int) | Click(x: int, y: int) | Wheel(delta: int) | Pass

  /** A Win32 `DWORD`. */
  type Dword = n: int | 0 <= n < 0x1_0000_0000

  /** The signed 16-bit high word of `mouseData`: `c_short((mouseData >> 16) & 0xFFFF)`
      (for a `DWORD`, the shift and mask are the quotient by 2^16). */
  function WheelDelta(mouseData: Dword): (d: int)
    ensures -0x8000 <= d < 0x8000
  {
    var hi := mouseData / 0x10000;
    if hi < 0x8000 then hi else hi - 0x10000
  }

  /** How the system packs a wheel delta into the high word of `mouseData`. */
  function WheelData(delta: int, low: int): Dword
    requires -0x8000 <= delta < 0x8000 && 0 <= low < 0x10000
  {
    (delta % 0x10000) * 0x10000 + low
  }

  /** Decoding recovers every delta a wheel message can carry, whatever the low word. */
  lemma WheelDeltaRoundTrip(delta: int, low: int)
    requires -0x8000 <= delta < 0x8000 && 0 <= low < 0x10000
    ensures WheelDelta(WheelData(delta, low)) == delta
  {
    var w := delta % 0x10000;
    assert WheelData(delta, low) / 0x10000 == w;
  }

  /** The mouse hook's dispatch on the message identifier. */
  function RouteMouse(nCode: int, wParam: int, x: int, y: int, mouseData: Dword): (a: MouseAction)
    ensures nCode < 0 ==> a == Pass
    ensures a.Wheel? ==> -0x8000 <= a.delta < 0x8000 && a.delta == WheelDelta(mouseData)
    ensures a.Move? ==> wParam == WmMouseMove && a == Move(x, y)
    ensures a.Click? ==> wParam in {WmLButtonDown, WmRButtonDown, WmMButtonDown} && a == Click(x, y)
    ensures a.Pass? ==> nCode < 0 || wParam !in {WmMouseMove, WmLButtonDown, WmRButtonDown, WmMButtonDown, WmMouseWheel}
  {
    if nCode < 0 then Pass
    else if wParam == WmMouseMove then Move(x, y)
    else if wParam in {WmLButtonDown, WmRButtonDown, WmMButtonDown} then Click(x, y)
    else if wParam == WmMouseWheel then Wheel(WheelDelta(mouseData))
    else Pass
  }

  // ---------------------------------------------------------------------------
  // Units and bins
  // ---------------------------------------------------------------------------

  /** `(v // 5) * 5`: the 5-pixel bin holding `v` (floor division, also for
      negative coordinates on monitors left of or above the primary one). */
  function Bin5(v: int): (b: int)
    ensures b % 5 == 0 && b <= v < b + 5
  {
    (v / 5) * 5
  }

  /** The bin is the only multiple of 5 within 5 pixels below `v`. */
  lemma Bin5Unique(v: int, b: int)
    requires b % 5 == 0 && b <= v < b + 5
    ensures b == Bin5(v)
  {
    var q := b / 5;
    assert b == 5 * q;
    assert 5 * q <= v < 5 * q + 5;
    assert v / 5 == q;
  }

  /** What the screen's device context reports, or that it could not be queried. */
  datatype ScreenMetrics = Measured(widthMm: int, widthPx: int) | Unavailable

  /** Pixels per millimetre: measured when both widths are positive, 96 DPI
      when a width is not, a 1920-pixel, 344-millimetre panel when the query fails. */
  function PxPerMm(m: ScreenMetrics): (r: real)
    ensures r > 0.0
  {
    match m
    case Measured(mm, px) =>
      if mm > 0 && px > 0 then px as real / mm as real else 96.0 / 25.4
    case Unavailable => 1920.0 / 344.0
  }

  /** Mouse travel in metres for a travel of `distPx` pixels. */
  function Metres(distPx: real, pxPerMm: real): (m: real)
    requires distPx >= 0.0 && pxPerMm > 0.0
    ensures m >= 0.0
  {
    distPx / pxPerMm / 1000.0
  }

  /** A measured screen's scale turns its width in millimetres into its width in pixels. */
  lemma PxPerMmMeasured(mm: int, px: int)
    requires mm > 0 && px > 0
    ensures PxPerMm(Measured(mm, px)) * mm as real == px as real
  {
  }

  /** Metres back to pixels: the conversion loses nothing. */
  lemma MetresToPixels(distPx: real, pxPerMm: real)
    requires distPx >= 0.0 && pxPerMm > 0.0
    ensures Metres(distPx, pxPerMm) * pxPerMm * 1000.0 == distPx
  {
  }

  function Abs(n: int): nat {
    if n < 0 then -n else n
  }

  // ---------------------------------------------------------------------------
  // Friendly names
  // ---------------------------------------------------------------------------

  /** The name stored in `app_metadata`: the executable's file description, or
      (when there is none, or it equals the process name) the process name
      with a trailing ".exe" in any case dropped and the rest capitalized. */
  function FriendlyName(app: string, description: string): (r: string)
    ensures description != "" && description != app ==> r == description
    ensures (description == "" || description == app) && !EndsWithExe(app) ==> r == app
    ensures (description == "" || description == app) && EndsWithExe(app) ==>
      r == Capitalize(app[..|app| - 4]) && |r| == |app| - 4 && Lower(r) == Lower(app[..|app| - 4])
  {
    var friendly := if description == "" then app else description;
    if friendly == app && EndsWithExe(friendly) then
      LowerCapitalize(friendly[..|friendly| - 4]);
      Capitalize(friendly[..|friendly| - 4])
    else friendly
  }

  /** Without a file description, the stored name and the name the views fall
      back to (when they find no stored name) differ at most in letter case. */
  lemma StoredNameMatchesFallback(app: string)
    ensures Lower(FriendlyName(app, "")) == Lower(DisplayName(app, ""))
  {
  }

  // ---------------------------------------------------------------------------
  // Buffers
  // ---------------------------------------------------------------------------

  /** `buf.setdefault(app, zeros)` followed by adding `delta` field by field. */
  function BumpApp(apps: map<string, AppCounts>, app: string, delta: AppCounts): (r: map<string, AppCounts>)
    ensures r.Keys == apps.Keys + {app}
    ensures forall a :: a in apps && a != app ==> r[a] == apps[a]
  {
    apps[app := if app in apps then AddApp(apps[app], delta) else delta]
  }

  /** One day's activity as the dashboard sees it: the daily counters, the key
      heatmap, the click heatmap and the per-application counters. */
  datatype Totals = Totals(
    row: DailyRow,
    keyHeatmap: map<int, int>,
    clickHeatmap: map<(int, int), int>,
    apps: map<string, AppCounts>)

  /** Every view of the day counts the same key presses, clicks and distance. */
  ghost predicate Consistent(t: Totals) {
    && t.row.keys == MapSum(t.keyHeatmap)
    && t.row.keys == SumOf(t.apps, CountKeys)
    && t.row.clicks == MapSum(t.clickHeatmap)
    && t.row.clicks == SumOf(t.apps, CountClicks)
    && t.row.distance == RealSumOf(t.apps, CountDistance)
  }

  function AddTotals(a: Totals, b: Totals): Totals {
    Totals(
      AddDaily(a.row, b.row),
      Merged(a.keyHeatmap, b.keyHeatmap),
      Merged(a.clickHeatmap, b.clickHeatmap),
      MergedBy(a.apps, b.apps, AddApp))
  }

  /** Adding two consistent views of a day gives a consistent view. */
  lemma AddTotalsConsistent(a: Totals, b: Totals)
    requires Consistent(a) && Consistent(b)
    ensures Consistent(AddTotals(a, b))
  {
    MergedSum(a.keyHeatmap, b.keyHeatmap);
    MergedSum(a.clickHeatmap, b.clickHeatmap);
    MergedBySum(a.apps, b.apps, AddApp, CountKeys);
    MergedBySum(a.apps, b.apps, AddApp, CountClicks);
    RealMergedBySum(a.apps, b.apps, AddApp, CountDistance);
  }

  const NoTotals := Totals(NoActivity, map[], map[], map[])

  lemma AddNoTotals(a: Totals)
    ensures AddTotals(a, NoTotals) == a
  {
    MergedEmpty(a.keyHeatmap);
    MergedEmpty(a.clickHeatmap);
    MergedByEmpty(a.apps, AddApp);
  }

  /** Empty buffers are well formed. */
  lemma NoTotalsWellFormed()
    ensures WellFormed(NoTotals)
  {
    var none: map<string, AppCounts> := map[];
    assert SumOf(none, CountKeys) == 0 && SumOf(none, CountClicks) == 0;
  }

  /** Consistent, with positive heatmap entries, click bins on the 5-pixel grid
      and non-negative distance and scroll totals: what the buffers always are. */
  ghost predicate WellFormed(t: Totals) {
    && Consistent(t)
    && t.row.distance >= 0.0 && t.row.scroll >= 0.0
    && (forall k :: k in t.keyHeatmap ==> t.keyHeatmap[k] > 0)
    && (forall b :: b in t.clickHeatmap ==> t.clickHeatmap[b] > 0 && b.0 % 5 == 0 && b.1 % 5 == 0)
  }

  lemma AddTotalsWellFormed(a: Totals, b: Totals)
    requires WellFormed(a) && WellFormed(b)
    ensures WellFormed(AddTotals(a, b))
  {
    AddTotalsConsistent(a, b);
  }

  /** With no key press or click counted, both heatmaps are empty. */
  lemma NoPressesNoHeatmaps(t: Totals)
    requires WellFormed(t) && t.row.keys == 0 && t.row.clicks == 0
    ensures t.keyHeatmap == map[] && t.clickHeatmap == map[]
  {
    assert forall k :: k in t.keyHeatmap ==> Identity(t.keyHeatmap[k]) > 0;
    assert forall b :: b in t.clickHeatmap ==> Identity(t.clickHeatmap[b]) > 0;
    SumOfNonNegative(t.keyHeatmap, Identity);
    SumOfNonNegative(t.clickHeatmap, Identity);
    assert t.keyHeatmap.Keys == {} && t.clickHeatmap.Keys == {};
  }

  // One input event, as the activity it adds to the buffers.

  function KeyPress(scan: int, app: string): Totals {
    Totals(DailyRow(1, 0, 0.0, 0.0), map[scan := 1], map[], map[app := AppCounts(1, 0, 0, 0.0)])
  }

  function ButtonPress(x: int, y: int, app: string): Totals {
    Totals(DailyRow(0, 1, 0.0, 0.0), map[], map[(Bin5(x), Bin5(y)) := 1], map[app := AppCounts(0, 1, 0, 0.0)])
  }

  function Travel(metres: real, app: string): Totals {
    Totals(DailyRow(0, 0, metres, 0.0), map[], map[], map[app := AppCounts(0, 0, 0, metres)])
  }

  function WheelTurn(delta: int, app: string): Totals {
    Totals(DailyRow(0, 0, 0.0, Abs(delta) as real / 120.0), map[], map[], map[app := AppCounts(0, 0, 1, 0.0)])
  }

  lemma SingletonSums<K, V>(k: K, v: V, f: V -> int, g: V -> real)
    ensures SumOf(map[k := v], f) == f(v) && RealSumOf(map[k := v], g) == g(v)
  {
    SumOfRemove(map[k := v], f, k);
    RealSumOfRemove(map[k := v], g, k);
    assert map[k := v] - {k} == map[];
  }

  /** Adding one application's counters by `MergedBy` is `BumpApp`. */
  lemma MergedOneApp(apps: map<string, AppCounts>, app: string, delta: AppCounts)
    ensures MergedBy(apps, map[app := delta], AddApp) == BumpApp(apps, app, delta)
  {
  }

  lemma MergedOneCount<K>(m: map<K, int>, k: K)
    ensures Merged(m, map[k := 1]) == Increment(m, k, 1)
  {
  }

  // The buffers after one event, field by field: each stays well formed, and
  // each is the old buffers plus the event.

  function Pressed(p: Totals, scan: int, app: string): Totals {
    Totals(DailyRow(p.row.keys + 1, p.row.clicks, p.row.distance, p.row.scroll),
      Increment(p.keyHeatmap, scan, 1), p.clickHeatmap, BumpApp(p.apps, app, AppCounts(1, 0, 0, 0.0)))
  }

  function Clicked(p: Totals, x: int, y: int, app: string): Totals {
    Totals(DailyRow(p.row.keys, p.row.clicks + 1, p.row.distance, p.row.scroll),
      p.keyHeatmap, Increment(p.clickHeatmap, (Bin5(x), Bin5(y)), 1), BumpApp(p.apps, app, AppCounts(0, 1, 0, 0.0)))
  }

  function Moved(p: Totals, metres: real, app: string): Totals {
    Totals(DailyRow(p.row.keys, p.row.clicks, p.row.distance + metres, p.row.scroll),
      p.keyHeatmap, p.clickHeatmap, BumpApp(p.apps, app, AppCounts(0, 0, 0, metres)))
  }

  function Scrolled(p: Totals, delta: int, app: string): Totals {
    Totals(DailyRow(p.row.keys, p.row.clicks, p.row.distance, p.row.scroll + Abs(delta) as real / 120.0),
      p.keyHeatmap, p.clickHeatmap, BumpApp(p.apps, app, AppCounts(0, 0, 1, 0.0)))
  }

  lemma PressedIsKeyPress(p: Totals, scan: int, app: string)
    ensures Pressed(p, scan, app) == AddTotals(p, KeyPress(scan, app))
  {
    MergedOneApp(p.apps, app, AppCounts(1, 0, 0, 0.0));
    MergedOneCount(p.keyHeatmap, scan);
    MergedEmpty(p.clickHeatmap);
  }

  lemma ClickedIsButtonPress(p: Totals, x: int, y: int, app: string)
    ensures Clicked(p, x, y, app) == AddTotals(p, ButtonPress(x, y, app))
  {
    MergedOneApp(p.apps, app, AppCounts(0, 1, 0, 0.0));
    MergedOneCount(p.clickHeatmap, (Bin5(x), Bin5(y)));
    MergedEmpty(p.keyHeatmap);
  }

  lemma MovedIsTravel(p: Totals, metres: real, app: string)
    ensures Moved(p, metres, app) == AddTotals(p, Travel(metres, app))
  {
    MergedOneApp(p.apps, app, AppCounts(0, 0, 0, metres));
    MergedEmpty(p.keyHeatmap);
    MergedEmpty(p.clickHeatmap);
  }

  lemma ScrolledIsWheelTurn(p: Totals, delta: int, app: string)
    ensures Scrolled(p, delta, app) == AddTotals(p, WheelTurn(delta, app))
  {
    MergedOneApp(p.apps, app, AppCounts(0, 0, 1, 0.0));
    MergedEmpty(p.keyHeatmap);
    MergedEmpty(p.clickHeatmap);
  }

  lemma PressStep(p: Totals, scan: int, app: string)
    requires WellFormed(p)
    ensures WellFormed(Pressed(p, scan, app))
  {
    SingletonSums(scan, 1, Identity, _ => 0.0);
    SingletonSums(app, AppCounts(1, 0, 0, 0.0), CountKeys, CountDistance);
    SingletonSums(app, AppCounts(1, 0, 0, 0.0), CountClicks, CountDistance);
    AddTotalsWellFormed(p, KeyPress(scan, app));
    PressedIsKeyPress(p, scan, app);
  }

  lemma ClickStep(p: Totals, x: int, y: int, app: string)
    requires WellFormed(p)
    ensures WellFormed(Clicked(p, x, y, app))
  {
    SingletonSums((Bin5(x), Bin5(y)), 1, Identity, _ => 0.0);
    SingletonSums(app, AppCounts(0, 1, 0, 0.0), CountKeys, CountDistance);
    SingletonSums(app, AppCounts(0, 1, 0, 0.0), CountClicks, CountDistance);
    AddTotalsWellFormed(p, ButtonPress(x, y, app));
    ClickedIsButtonPress(p, x, y, app);
  }

  lemma MoveStep(p: Totals, metres: real, app: string)
    requires WellFormed(p) && metres >= 0.0
    ensures WellFormed(Moved(p, metres, app))
  {
    SingletonSums(app, AppCounts(0, 0, 0, metres), CountKeys, CountDistance);
    SingletonSums(app, AppCounts(0, 0, 0, metres), CountClicks, CountDistance);
    AddTotalsWellFormed(p, Travel(metres, app));
    MovedIsTravel(p, metres, app);
  }

  lemma ScrollStep(p: Totals, delta: int, app: string)
    requires WellFormed(p)
    ensures WellFormed(Scrolled(p, delta, app))
  {
    SingletonSums(app, AppCounts(0, 0, 1, 0.0), CountKeys, CountDistance);
    SingletonSums(app, AppCounts(0, 0, 1, 0.0), CountClicks, CountDistance);
    AddTotalsWellFormed(p, WheelTurn(delta, app));
    ScrolledIsWheelTurn(p, delta, app);
  }

  /** The foreground process as `get_active_app_info` reports it: its name, its
      executable's path (`None` when `process.exe()` raises), the description its
      version resource holds ("" when none), and whether the metadata write succeeds. */
  datatype Foreground = Foreground(name: string, exePath: Option<string>, description: string, writeOk: bool)

  /** `get_file_description`: nothing without a path, else the version resource's text. */
  function FileDescription(exePath: Option<string>, found: string): string {
    if exePath.None? then "" else found
  }

  /** `_check_update_metadata` for the foreground application `fg` took the
      metadata table and its cache from `meta`, `cache` to `meta'`, `cache'`:
      a named application not yet cached gets its friendly name written and is
      cached when the write succeeds; otherwise nothing changes. */
  ghost predicate MetadataNoted(meta: map<string, Metadata>, cache: set<string>,
                                meta': map<string, Metadata>, cache': set<string>, fg: Foreground)
  {
    if fg.name == "Unknown" || fg.name in cache || !fg.writeOk then
      meta' == meta && cache' == cache
    else
      meta' == SetMetadata(meta, fg.name, FriendlyName(fg.name, FileDescription(fg.exePath, fg.description)), fg.exePath)
      && cache' == cache + {fg.name}
  }

  /** Seeing the same foreground application again right away writes nothing:
      the metadata of an application is written at most once. */
  lemma NotedOnce(m0: map<string, Metadata>, c0: set<string>, m1: map<string, Metadata>, c1: set<string>,
                  m2: map<string, Metadata>, c2: set<string>, fg: Foreground)
    requires MetadataNoted(m0, c0, m1, c1, fg) && MetadataNoted(m1, c1, m2, c2, fg)
    ensures m2 == m1 && c2 == c1
  {
  }

  /** `get_stats_snapshot`'s dictionary. */
  datatype Snapshot = Snapshot(
    keys: int, clicks: int, distance: real, scroll: real,
    heatmap: map<int, int>, mouseHeatmap: map<(int, int), int>,
    bufferKeys: int, bufferClicks: int, bufferDistance: real, bufferScroll: real,
    bufferHeatmap: map<int, int>)

  class InputTracker {
    var db: Database
    var keyBuffer: int
    var clickBuffer: int
    var distanceBuffer: real
    var scrollBuffer: real
    var appStatsBuffer: map<string, AppCounts>
    var heatmapBuffer: map<int, int>
    var mouseHeatmapBuffer: map<(int, int), int>
    var lastMousePos: Option<(int, int)>
    var cachedAppName: string
    var lastAppCheck: real
    var pxPerMm: real
    var metadataCache: set<string>

    /** The buffers as a day's worth of not yet persisted activity. */
    function Pending(): Totals
      reads this`keyBuffer, this`clickBuffer, this`distanceBuffer, this`scrollBuffer
      reads this`appStatsBuffer, this`heatmapBuffer, this`mouseHeatmapBuffer
    {
      Totals(DailyRow(keyBuffer, clickBuffer, distanceBuffer, scrollBuffer),
        heatmapBuffer, mouseHeatmapBuffer, appStatsBuffer)
    }

    /** What the database holds for day `d`. */
    ghost function Persisted(d: Date): Totals
      reads this`db, db
    {
      DayTotals(db.daily, db.heatmap, db.mouseHeatmap, db.appStats, d)
    }

    /** Persisted plus pending activity of day `d`. */
    ghost function Combined(d: Date): Totals
      reads this`db, db, this`keyBuffer, this`clickBuffer, this`distanceBuffer, this`scrollBuffer
      reads this`appStatsBuffer, this`heatmapBuffer, this`mouseHeatmapBuffer
    {
      AddTotals(Persisted(d), Pending())
    }

    /** The key counter is the total of the key heatmap and of the per-application
        key counts, the click counter likewise for clicks, the distance counter
        the total of the per-application distances; heatmap entries are positive
        and click bins are multiples of 5. */
    ghost predicate BuffersValid()
      reads this`keyBuffer, this`clickBuffer, this`distanceBuffer, this`scrollBuffer
      reads this`appStatsBuffer, this`heatmapBuffer, this`mouseHeatmapBuffer, this`pxPerMm
    {
      pxPerMm > 0.0 && WellFormed(Pending())
    }

    /** Every application in the metadata cache has a metadata row. */
    ghost predicate CacheValid()
      reads this`metadataCache, this`db, db`metadata
    {
      "Unknown" !in metadataCache && metadataCache <= db.metadata.Keys
    }

    ghost predicate Valid()
      reads this, db
    {
      BuffersValid() && CacheValid()
    }

    /** Nothing is waiting to be written: the flush returns early. */
    predicate Idle()
      reads this
    {
      keyBuffer == 0 && clickBuffer == 0 && distanceBuffer == 0.0 && scrollBuffer == 0.0
    }

    /** With no key press or click pending, the heatmap buffers are empty. */
    lemma IdleHeatmapsEmpty()
      requires Valid() && keyBuffer == 0 && clickBuffer == 0
      ensures heatmapBuffer == map[] && mouseHeatmapBuffer == map[]
    {
      NoPressesNoHeatmaps(Pending());
    }

    constructor(metrics: ScreenMetrics)
      ensures Valid() && fresh(db)
      ensures db.daily == map[] && db.appStats == map[] && db.hourlyAppStats == map[]
      ensures db.heatmap == map[] && db.mouseHeatmap == map[] && db.metadata == map[]
      ensures Pending() == NoTotals && Idle()
      ensures lastMousePos == None && cachedAppName == "Unknown" && lastAppCheck == 0.0
      ensures pxPerMm == PxPerMm(metrics) && metadataCache == {}
    {
      db := new Database();
      keyBuffer, clickBuffer, distanceBuffer, scrollBuffer := 0, 0, 0.0, 0.0;
      appStatsBuffer, heatmapBuffer, mouseHeatmapBuffer := map[], map[], map[];
      lastMousePos := None;
      cachedAppName := "Unknown";
      lastAppCheck := 0.0;
      pxPerMm := PxPerMm(metrics);
      metadataCache := {};
    }

    /** `_check_update_metadata`: the first time a named application is seen
        its friendly name is written; the cache is updated only when the write
        succeeds. */
    method CheckUpdateMetadata(app: string, exePath: Option<string>, description: string, writeOk: bool)
      requires CacheValid()
      modifies this`metadataCache, db`metadata
      ensures CacheValid()
      ensures app == "Unknown" || app in old(metadataCache) || !writeOk ==>
        db.metadata == old(db.metadata) && metadataCache == old(metadataCache)
      ensures app != "Unknown" && app !in old(metadataCache) && writeOk ==>
        db.metadata == SetMetadata(old(db.metadata), app, FriendlyName(app, FileDescription(exePath, description)), exePath)
        && metadataCache == old(metadataCache) + {app}
    {
      if app == "Unknown" || app in metadataCache {
        return;
      }
      if writeOk {
        db.UpdateAppMetadata(app, FriendlyName(app, FileDescription(exePath, description)), exePath);
        metadataCache := metadataCache + {app};
      }
    }

    /** `get_active_app_name`: the foreground process name, recording its
        metadata on first sight. */
    method ActiveAppName(fg: Foreground) returns (name: string)
      requires CacheValid()
      modifies this`metadataCache, db`metadata
      ensures CacheValid() && name == fg.name
      ensures name == "Unknown" || name in old(metadataCache) || !fg.writeOk ==>
        db.metadata == old(db.metadata) && metadataCache == old(metadataCache)
      ensures name != "Unknown" && name !in old(metadataCache) && fg.writeOk ==>
        db.metadata == SetMetadata(old(db.metadata), name, FriendlyName(name, FileDescription(fg.exePath, fg.description)), fg.exePath)
        && metadataCache == old(metadataCache) + {name}
      ensures name != "Unknown" && fg.writeOk ==> name in metadataCache && name in db.metadata
    {
      name := fg.name;
      if name != "Unknown" {
        CheckUpdateMetadata(name, fg.exePath, fg.description, fg.writeOk);
      }
    }

    /** `on_press`: one key press for the foreground application and its scan code. */
    method OnPress(vk: int, scan: int, fg: Foreground)
      requires Valid()
      modifies this`keyBuffer, this`appStatsBuffer, this`heatmapBuffer, this`metadataCache, db`metadata
      ensures Valid()
      ensures Pending() == Pressed(old(Pending()), scan, fg.name)
      ensures MetadataNoted(old(db.metadata), old(metadataCache), db.metadata, metadataCache, fg)
    {
      var app := ActiveAppName(fg);
      CountPress(scan, app);
    }

    /** The buffer updates of `on_press`. */
    method CountPress(scan: int, app: string)
      requires BuffersValid()
      modifies this`keyBuffer, this`appStatsBuffer, this`heatmapBuffer
      ensures BuffersValid()
      ensures Pending() == Pressed(old(Pending()), scan, app)
    {
      PressStep(Pending(), scan, app);
      keyBuffer := keyBuffer + 1;
      appStatsBuffer := BumpApp(appStatsBuffer, app, AppCounts(1, 0, 0, 0.0));
      heatmapBuffer := Increment(heatmapBuffer, scan, 1);
    }

    /** `on_move`: from the second position on, the travelled distance in metres
        is added to the total and to the application cached by the throttled
        foreground check; the position is always recorded. */
    method OnMove(x: int, y: int, distPx: real, now: real, fg: Foreground)
      requires Valid() && distPx >= 0.0
      modifies this`distanceBuffer, this`appStatsBuffer, this`cachedAppName, this`lastAppCheck
      modifies this`lastMousePos, this`metadataCache, db`metadata
      ensures Valid()
      ensures lastMousePos == Some((x, y))
      ensures old(lastMousePos).None? ==>
        Pending() == old(Pending()) && cachedAppName == old(cachedAppName) && lastAppCheck == old(lastAppCheck)
      ensures old(lastMousePos).Some? ==>
        && (if now - old(lastAppCheck) > 0.5 then cachedAppName == fg.name && lastAppCheck == now
            else cachedAppName == old(cachedAppName) && lastAppCheck == old(lastAppCheck))
        && Pending() == Moved(old(Pending()), Metres(distPx, pxPerMm), cachedAppName)
      ensures if old(lastMousePos).Some? && now - old(lastAppCheck) > 0.5 then MetadataNoted(old(db.metadata), old(metadataCache), db.metadata, metadataCache, fg)
        else db.metadata == old(db.metadata) && metadataCache == old(metadataCache)
    {
      if lastMousePos.Some? {
        var m := Metres(distPx, pxPerMm);
        RefreshCachedApp(now, fg);
        CountMove(m, cachedAppName);
      }
      lastMousePos := Some((x, y));
    }

    /** The foreground check of `on_move`, at most once every half second. */
    method RefreshCachedApp(now: real, fg: Foreground)
      requires CacheValid()
      modifies this`cachedAppName, this`lastAppCheck, this`metadataCache, db`metadata
      ensures CacheValid()
      ensures if now - old(lastAppCheck) > 0.5 then cachedAppName == fg.name && lastAppCheck == now
        else cachedAppName == old(cachedAppName) && lastAppCheck == old(lastAppCheck)
      ensures if now - old(lastAppCheck) > 0.5 then MetadataNoted(old(db.metadata), old(metadataCache), db.metadata, metadataCache, fg)
        else db.metadata == old(db.metadata) && metadataCache == old(metadataCache)
    {
      if now - lastAppCheck > 0.5 {
        cachedAppName := ActiveAppName(fg);
        lastAppCheck := now;
      }
    }

    /** The buffer updates of `on_move`. */
    method CountMove(metres: real, app: string)
      requires BuffersValid() && metres >= 0.0
      modifies this`distanceBuffer, this`appStatsBuffer
      ensures BuffersValid()
      ensures Pending() == Moved(old(Pending()), metres, app)
    {
      MoveStep(Pending(), metres, app);
      distanceBuffer := distanceBuffer + metres;
      appStatsBuffer := BumpApp(appStatsBuffer, app, AppCounts(0, 0, 0, metres));
    }

    /** `on_click`: one click for the foreground application and its 5-pixel bin. */
    method OnClick(x: int, y: int, fg: Foreground)
      requires Valid()
      modifies this`clickBuffer, this`appStatsBuffer, this`mouseHeatmapBuffer, this`metadataCache, db`metadata
      ensures Valid()
      ensures Pending() == Clicked(old(Pending()), x, y, fg.name)
      ensures MetadataNoted(old(db.metadata), old(metadataCache), db.metadata, metadataCache, fg)
    {
      var app := ActiveAppName(fg);
      CountClick(x, y, app);
    }

    /** The buffer updates of `on_click`. */
    method CountClick(x: int, y: int, app: string)
      requires BuffersValid()
      modifies this`clickBuffer, this`appStatsBuffer, this`mouseHeatmapBuffer
      ensures BuffersValid()
      ensures Pending() == Clicked(old(Pending()), x, y, app)
    {
      ClickStep(Pending(), x, y, app);
      var bin := (Bin5(x), Bin5(y));
      clickBuffer := clickBuffer + 1;
      appStatsBuffer := BumpApp(appStatsBuffer, app, AppCounts(0, 1, 0, 0.0));
      mouseHeatmapBuffer := Increment(mouseHeatmapBuffer, bin, 1);
    }

    /** `on_scroll`: the total grows by notches (120 units of wheel delta, either
        direction), the application's count by one event. */
    method OnScroll(delta: int, fg: Foreground)
      requires Valid()
      modifies this`scrollBuffer, this`appStatsBuffer, this`metadataCache, db`metadata
      ensures Valid()
      ensures Pending() == Scrolled(old(Pending()), delta, fg.name)
      ensures MetadataNoted(old(db.metadata), old(metadataCache), db.metadata, metadataCache, fg)
    {
      var app := ActiveAppName(fg);
      CountScroll(delta, app);
    }

    /** The buffer updates of `on_scroll`. */
    method CountScroll(delta: int, app: string)
      requires BuffersValid()
      modifies this`scrollBuffer, this`appStatsBuffer
      ensures BuffersValid()
      ensures Pending() == Scrolled(old(Pending()), delta, app)
    {
      ScrollStep(Pending(), delta, app);
      scrollBuffer := scrollBuffer + Abs(delta) as real / 120.0;
      appStatsBuffer := BumpApp(appStatsBuffer, app, AppCounts(0, 0, 1, 0.0));
    }

    /** `low_level_keyboard_proc`: passes the event on (`next` is what the next
        hook returned) and counts physical key-downs. */
    method KeyboardProc(nCode: int, wParam: int, vk: int, scan: int, flags: bv32, next: int, fg: Foreground)
      returns (result: int)
      requires Valid()
      modifies this`keyBuffer, this`appStatsBuffer, this`heatmapBuffer, this`metadataCache, db`metadata
      ensures Valid() && result == next
      ensures CountsKeyPress(nCode, wParam, flags) ==>
        Pending() == Pressed(old(Pending()), scan, fg.name)
        && MetadataNoted(old(db.metadata), old(metadataCache), db.metadata, metadataCache, fg)
      ensures !CountsKeyPress(nCode, wParam, flags) ==> unchanged(this) && unchanged(db)
    {
      result := next;
      if CountsKeyPress(nCode, wParam, flags) {
        OnPress(vk, scan, fg);
      }
    }

    /** `low_level_mouse_proc`: passes the event on and dispatches moves, button
        presses and wheel turns; injected mouse events are counted too. */
    method MouseProc(nCode: int, wParam: int, x: int, y: int, mouseData: Dword, distPx: real, now: real,
                     next: int, fg: Foreground)
      returns (result: int)
      requires Valid() && distPx >= 0.0
      modifies this`distanceBuffer, this`clickBuffer, this`scrollBuffer, this`appStatsBuffer
      modifies this`mouseHeatmapBuffer, this`lastMousePos, this`cachedAppName, this`lastAppCheck
      modifies this`metadataCache, db`metadata
      ensures Valid() && result == next
      ensures RouteMouse(nCode, wParam, x, y, mouseData).Pass? ==> unchanged(this) && unchanged(db)
      ensures RouteMouse(nCode, wParam, x, y, mouseData).Move? ==>
        && lastMousePos == Some((x, y))
        && (old(lastMousePos).None? ==>
              Pending() == old(Pending()) && cachedAppName == old(cachedAppName) && lastAppCheck == old(lastAppCheck))
        && (old(lastMousePos).Some? ==>
              && (if now - old(lastAppCheck) > 0.5 then cachedAppName == fg.name && lastAppCheck == now
                  else cachedAppName == old(cachedAppName) && lastAppCheck == old(lastAppCheck))
              && Pending() == Moved(old(Pending()), Metres(distPx, pxPerMm), cachedAppName))
        && (if old(lastMousePos).Some? && now - old(lastAppCheck) > 0.5 then MetadataNoted(old(db.metadata), old(metadataCache), db.metadata, metadataCache, fg)
            else db.metadata == old(db.metadata) && metadataCache == old(metadataCache))
      ensures RouteMouse(nCode, wParam, x, y, mouseData).Click? ==>
        && Pending() == Clicked(old(Pending()), x, y, fg.name)
        && MetadataNoted(old(db.metadata), old(metadataCache), db.metadata, metadataCache, fg)
        && lastMousePos == old(lastMousePos) && cachedAppName == old(cachedAppName) && lastAppCheck == old(lastAppCheck)
      ensures RouteMouse(nCode, wParam, x, y, mouseData).Wheel? ==>
        && Pending() == Scrolled(old(Pending()), WheelDelta(mouseData), fg.name)
        && MetadataNoted(old(db.metadata), old(metadataCache), db.metadata, metadataCache, fg)
        && lastMousePos == old(lastMousePos) && cachedAppName == old(cachedAppName) && lastAppCheck == old(lastAppCheck)
    {
      result := next;
      match RouteMouse(nCode, wParam, x, y, mouseData)
      case Move(mx, my) => OnMove(mx, my, distPx, now, fg);
      case Click(cx, cy) => OnClick(cx, cy, fg);
      case Wheel(delta) => OnScroll(delta, fg);
      case Pass =>
    }

    /** `for app, stats in app_stats_buffer.items(): update_app_stats(...)` */
    method FlushAppStats(today: Date)
      modifies db`appStats
      ensures db.appStats == Drain(old(db.appStats), today, appStatsBuffer, AddApp)
    {
      ghost var t := db.appStats;
      var buf := appStatsBuffer;
      DrainAll(t, today, buf, AddApp);
      var pending := buf.Keys;
      while pending != {}
        modifies db`appStats
        invariant pending <= buf.Keys
        invariant db.appStats == Drain(t, today, Restrict(buf, buf.Keys - pending), AddApp)
        decreases pending
      {
        var app := Pick(pending);
        var c := buf[app];
        DrainNext(t, today, buf, pending, app, AddApp);
        db.UpdateAppStats(today, app, c.keys, c.clicks, c.scrolls, c.distance);
        pending := pending - {app};
      }
    }

    /** `for key_code, count in heatmap_buffer.items(): update_heatmap(...)` */
    method FlushHeatmap(today: Date)
      modifies db`heatmap
      ensures db.heatmap == Drain(old(db.heatmap), today, heatmapBuffer, Plus)
    {
      ghost var t := db.heatmap;
      var buf := heatmapBuffer;
      DrainAll(t, today, buf, Plus);
      var codes := buf.Keys;
      while codes != {}
        modifies db`heatmap
        invariant codes <= buf.Keys
        invariant db.heatmap == Drain(t, today, Restrict(buf, buf.Keys - codes), Plus)
        decreases codes
      {
        var code := Pick(codes);
        DrainNext(t, today, buf, codes, code, Plus);
        db.UpdateHeatmap(today, code, buf[code]);
        codes := codes - {code};
      }
    }

    /** `for (x, y), count in mouse_heatmap_buffer.items(): update_mouse_heatmap(...)` */
    method FlushMouseHeatmap(today: Date)
      modifies db`mouseHeatmap
      ensures db.mouseHeatmap == Drain(old(db.mouseHeatmap), today, mouseHeatmapBuffer, Plus)
    {
      ghost var t := db.mouseHeatmap;
      var buf := mouseHeatmapBuffer;
      DrainAll(t, today, buf, Plus);
      var bins := buf.Keys;
      while bins != {}
        modifies db`mouseHeatmap
        invariant bins <= buf.Keys
        invariant db.mouseHeatmap == Drain(t, today, Restrict(buf, buf.Keys - bins), Plus)
        decreases bins
      {
        var bin := Pick(bins);
        DrainNext(t, today, buf, bins, bin, Plus);
        db.UpdateMouseHeatmap(today, bin.0, bin.1, buf[bin]);
        bins := bins - {bin};
      }
    }

    /** `flush_stats`: unless nothing is pending, add the counters to `today`'s
        row, each buffered application, key and click count to `today`'s row of
        its table, and empty the buffers. `FlushedDayTotals` shows that this
        adds the pending activity to `today` and leaves every other day alone. */
    method FlushStats(today: Date)
      requires Valid()
      modifies this`keyBuffer, this`clickBuffer, this`distanceBuffer, this`scrollBuffer
      modifies this`appStatsBuffer, this`heatmapBuffer, this`mouseHeatmapBuffer
      modifies db`daily, db`appStats, db`heatmap, db`mouseHeatmap
      ensures Valid()
      ensures old(Idle()) ==> unchanged(this) && unchanged(db)
      ensures !old(Idle()) ==>
        && Pending() == NoTotals
        && db.daily == UpsertDaily(old(db.daily), today, old(Pending()).row)
        && db.appStats == Drain(old(db.appStats), today, old(appStatsBuffer), AddApp)
        && db.heatmap == Drain(old(db.heatmap), today, old(heatmapBuffer), Plus)
        && db.mouseHeatmap == Drain(old(db.mouseHeatmap), today, old(mouseHeatmapBuffer), Plus)
    {
      if Idle() {
        return;
      }
      WriteBuffers(today);
      ClearBuffers();
    }

    /** The writes of `flush_stats`: the counters, then the per-application, key
        and click buffers entry by entry. */
    method WriteBuffers(today: Date)
      modifies db`daily, db`appStats, db`heatmap, db`mouseHeatmap
      ensures db.daily == UpsertDaily(old(db.daily), today, Pending().row)
      ensures db.appStats == Drain(old(db.appStats), today, appStatsBuffer, AddApp)
      ensures db.heatmap == Drain(old(db.heatmap), today, heatmapBuffer, Plus)
      ensures db.mouseHeatmap == Drain(old(db.mouseHeatmap), today, mouseHeatmapBuffer, Plus)
    {
      db.UpdateStats(today, keyBuffer, clickBuffer, distanceBuffer, scrollBuffer);
      FlushAppStats(today);
      FlushHeatmap(today);
      FlushMouseHeatmap(today);
    }

    /** The buffer reset at the end of `flush_stats`. */
    method ClearBuffers()
      requires pxPerMm > 0.0
      modifies this`keyBuffer, this`clickBuffer, this`distanceBuffer, this`scrollBuffer
      modifies this`appStatsBuffer, this`heatmapBuffer, this`mouseHeatmapBuffer
      ensures Pending() == NoTotals && BuffersValid()
    {
      keyBuffer, clickBuffer, distanceBuffer, scrollBuffer := 0, 0, 0.0, 0.0;
      appStatsBuffer, heatmapBuffer, mouseHeatmapBuffer := map[], map[], map[];
      NoTotalsWellFormed();
    }

    /** A consistent database plus valid buffers: the snapshot's key count is the
        total of its key heatmap, and the per-application counts add up to the
        day's counters. */
    lemma CombinedConsistent(today: Date)
      requires Valid() && Consistent(Persisted(today))
      ensures Consistent(Combined(today))
    {
      AddTotalsConsistent(Persisted(today), Pending());
    }

    /** `get_stats_snapshot`: today's counters and key heatmap as persisted plus
        pending, the click heatmap and the raw buffers as pending only. */
    method GetStatsSnapshot(today: Date) returns (s: Snapshot)
      ensures s.keys == Combined(today).row.keys && s.clicks == Combined(today).row.clicks
      ensures s.distance == Combined(today).row.distance && s.scroll == Combined(today).row.scroll
      ensures s.heatmap == Combined(today).keyHeatmap
      ensures s.mouseHeatmap == mouseHeatmapBuffer
      ensures s.bufferKeys == keyBuffer && s.bufferClicks == clickBuffer
      ensures s.bufferDistance == distanceBuffer && s.bufferScroll == scrollBuffer
      ensures s.bufferHeatmap == heatmapBuffer
    {
      var row := db.GetTodayStats(today);
      var keys, clicks, distance, scroll;
      if row.Some? {
        keys, clicks := row.value.keys + keyBuffer, row.value.clicks + clickBuffer;
        distance, scroll := row.value.distance + distanceBuffer, row.value.scroll + scrollBuffer;
      } else {
        keys, clicks, distance, scroll := keyBuffer, clickBuffer, distanceBuffer, scrollBuffer;
      }
      var merged := MergeCounts(db.GetTodayHeatmap(today), heatmapBuffer);
      s := Snapshot(keys, clicks, distance, scroll, merged, mouseHeatmapBuffer,
        keyBuffer, clickBuffer, distanceBuffer, scrollBuffer, heatmapBuffer);
    }
  }

  /** One day of the database: its counters row (zero when it has none) and
      its key, click and per-application rows. */
  ghost function DayTotals(
    daily: map<Date, DailyRow>, heat: map<(Date, int), int>, mouse: map<(Date, (int, int)), int>,
    apps: map<(Date, string), AppCounts>, d: Date): Totals
  {
    Totals(Get(daily, d, NoActivity), DayView(heat, d), DayView(mouse, d), DayView(apps, d))
  }

  /** Writing a day's buffers adds them to that day and leaves every other day as it was. */
  lemma FlushedDayTotals(
    daily: map<Date, DailyRow>, heat: map<(Date, int), int>, mouse: map<(Date, (int, int)), int>,
    apps: map<(Date, string), AppCounts>, today: Date, p: Totals, e: Date)
    ensures DayTotals(UpsertDaily(daily, today, p.row), Drain(heat, today, p.keyHeatmap, Plus),
        Drain(mouse, today, p.clickHeatmap, Plus), Drain(apps, today, p.apps, AddApp), e)
      == if e == today then AddTotals(DayTotals(daily, heat, mouse, apps, e), p) else DayTotals(daily, heat, mouse, apps, e)
  {
    UpsertDailyAdds(daily, today, p.row);
    if e == today {
      DrainDayView(heat, today, p.keyHeatmap, Plus);
      MergedByPlus(DayView(heat, today), p.keyHeatmap);
      DrainDayView(mouse, today, p.clickHeatmap, Plus);
      MergedByPlus(DayView(mouse, today), p.clickHeatmap);
      DrainDayView(apps, today, p.apps, AddApp);
    } else {
      DrainOtherDay(heat, today, p.keyHeatmap, Plus, e);
      DrainOtherDay(mouse, today, p.clickHeatmap, Plus, e);
      DrainOtherDay(apps, today, p.apps, AddApp, e);
    }
  }

  /** A flush moves the pending activity into the database: persisted plus
      pending activity of the day is the same before and after. */
  lemma FlushKeepsCombined(
    daily: map<Date, DailyRow>, heat: map<(Date, int), int>, mouse: map<(Date, (int, int)), int>,
    apps: map<(Date, string), AppCounts>, today: Date, p: Totals)
    ensures AddTotals(DayTotals(UpsertDaily(daily, today, p.row), Drain(heat, today, p.keyHeatmap, Plus),
        Drain(mouse, today, p.clickHeatmap, Plus), Drain(apps, today, p.apps, AddApp), today), NoTotals)
      == AddTotals(DayTotals(daily, heat, mouse, apps, today), p)
  {
    FlushedDayTotals(daily, heat, mouse, apps, today, p, today);
    AddNoTotals(AddTotals(DayTotals(daily, heat, mouse, apps, today), p));
  }
}
