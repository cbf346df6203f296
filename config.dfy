/** Persistent settings: the defaults table, the overlay of the saved file on
    the defaults, the clamping setters, the autostart revert rule, the app
    groups and the heat-map colour themes. */
module Settings {
  import opened Common

  // ---------------------------------------------------------------------------
  // Values and defaults
  // ---------------------------------------------------------------------------

  /** A JSON value as it appears in the settings file. */
  datatype Value =
    | Flag(b: bool)
    | Num(n: int)
    | Text(s: string)
    | Groups(lists: map<string, seq<string>>)
    | Other

  const Productivity := "productivity"
  const OtherGroup := "other"

  const EmptyGroups: map<string, seq<string>> := map[Productivity := [], OtherGroup := []]

  /** The settings used when the file does not name a key. */
  const DefaultConfig: map<string, Value> := map[
    "autostart" := Flag(false),
    "data_retention_days" := Num(365),
    "heatmap_theme" := Text("default"),
    "keyboard_layout" := Text("tkl"),
    "minimize_to_tray" := Flag(true),
    "show_notifications" := Flag(true),
    "language" := Text("en"),
    "idle_timeout_seconds" := Num(300),
    "break_reminder_enabled" := Flag(true),
    "break_reminder_interval_minutes" := Num(45),
    "break_reminder_duration_minutes" := Num(5),
    "app_groups" := Groups(EmptyGroups),
    "screen_time_group_display" := Flag(false)
  ]

  /** `base.update(saved)`: every saved key replaces its value, every other key keeps it. */
  function Overlay(base: map<string, Value>, saved: map<string, Value>): (r: map<string, Value>)
    ensures r.Keys == base.Keys + saved.Keys
    ensures forall k :: k in saved ==> r[k] == saved[k]
    ensures forall k :: k in base && k !in saved ==> r[k] == base[k]
  {
    base + saved
  }

  /** `max(lo, v)`: the stored value is never below `lo` and is `v` whenever `v` is allowed. */
  function AtLeast(lo: int, v: int): (r: int)
    ensures r >= lo
    ensures v >= lo ==> r == v
    ensures v < lo ==> r == lo
  {
    if v < lo then lo else v
  }

  // ---------------------------------------------------------------------------
  // Autostart registry update
  // ---------------------------------------------------------------------------

  const NotPackagedError :=
    "Autostart is only available in the packaged version (.exe). Please build the application first."

  /** `(success, error_message)` of a registry update. */
  datatype RegistryResult = RegistryResult(success: bool, error: Option<string>)

  /** The registry update: enabling outside the packaged executable always fails with
      `NotPackagedError`; otherwise the outcome is the registry's, given as `registry`
      (`None` when the write or delete succeeded, the error message otherwise). */
  function UpdateRegistry(enable: bool, frozen: bool, registry: Option<string>): (r: RegistryResult)
    ensures r.success <==> r.error.None?
    ensures enable && !frozen ==> r == RegistryResult(false, Some(NotPackagedError))
    ensures frozen || !enable ==> (r.success <==> registry.None?)
  {
    if enable && !frozen then RegistryResult(false, Some(NotPackagedError))
    else if registry.None? then RegistryResult(true, None)
    else RegistryResult(false, registry)
  }

  // ---------------------------------------------------------------------------
  // App groups
  // ---------------------------------------------------------------------------

  /** `get_app_group`: productivity wins when an app is listed in both groups. */
  function AppGroupOf(groups: map<string, seq<string>>, app: string): (r: Option<string>)
    ensures r == Some(Productivity) <==> app in Get(groups, Productivity, [])
    ensures r == Some(OtherGroup) <==> app !in Get(groups, Productivity, []) && app in Get(groups, OtherGroup, [])
    ensures r.None? <==> app !in Get(groups, Productivity, []) && app !in Get(groups, OtherGroup, [])
  {
    if app in Get(groups, Productivity, []) then Some(Productivity)
    else if app in Get(groups, OtherGroup, []) then Some(OtherGroup)
    else None
  }

  /** The groups `set_app_group(app, group)` stores: fresh copies of the two lists with
      `app` removed from both, then appended to the named one (`None` or any other name
      leaves it unassigned). Keys other than the two groups are not kept. */
  function Regrouped(groups: map<string, seq<string>>, app: string, group: Option<string>): map<string, seq<string>> {
    var p := RemoveFirst(Get(groups, Productivity, []), app);
    var o := RemoveFirst(Get(groups, OtherGroup, []), app);
    map[Productivity := if group == Some(Productivity) then p + [app] else p,
        OtherGroup := if group == Some(OtherGroup) then o + [app] else o]
  }

  ghost predicate GroupsDuplicateFree(groups: map<string, seq<string>>) {
    NoDuplicates(Get(groups, Productivity, [])) && NoDuplicates(Get(groups, OtherGroup, []))
  }

  /** Given duplicate-free lists, `app` ends as the last element of the named group and
      nowhere else, or in neither list when no group is named; the lists stay duplicate-free. */
  lemma SetAppGroupPlaces(groups: map<string, seq<string>>, app: string, group: Option<string>)
    requires GroupsDuplicateFree(groups)
    ensures var r := Regrouped(groups, app, group);
      && GroupsDuplicateFree(r)
      && (group == Some(Productivity) ==>
            r[Productivity][|r[Productivity]| - 1] == app && app !in r[OtherGroup]
            && AppGroupOf(r, app) == Some(Productivity))
      && (group == Some(OtherGroup) ==>
            r[OtherGroup][|r[OtherGroup]| - 1] == app && app !in r[Productivity]
            && AppGroupOf(r, app) == Some(OtherGroup))
      && (group != Some(Productivity) && group != Some(OtherGroup) ==>
            app !in r[Productivity] && app !in r[OtherGroup] && AppGroupOf(r, app).None?)
  {
    var p := RemoveFirst(Get(groups, Productivity, []), app);
    var o := RemoveFirst(Get(groups, OtherGroup, []), app);
    RemoveFirstNoDuplicates(Get(groups, Productivity, []), app);
    RemoveFirstNoDuplicates(Get(groups, OtherGroup, []), app);
    AppendAbsentNoDuplicates(p, app);
    AppendAbsentNoDuplicates(o, app);
  }

  /** Every other app keeps its group membership and its place relative to the others. */
  lemma SetAppGroupKeepsOthers(groups: map<string, seq<string>>, app: string, group: Option<string>, g: string)
    requires g == Productivity || g == OtherGroup
    ensures Without(Regrouped(groups, app, group)[g], app) == Without(Get(groups, g, []), app)
  {
    var s := RemoveFirst(Get(groups, g, []), app);
    RemoveFirstKeepsOthers(Get(groups, g, []), app);
    WithoutAppend(s, app);
  }

  // ---------------------------------------------------------------------------
  // The settings object
  // ---------------------------------------------------------------------------

  class Config {
    /** The settings in memory. */
    var config: map<string, Value>
    /** The content of the settings file, as last written by `save`. */
    var saved: map<string, Value>
    /** The outcome of the last autostart change, if any. */
    var lastAutostartResult: Option<RegistryResult>

    /** Starts from the defaults and overlays the file; `file` is `None` when the file is
        missing or cannot be parsed, in which case the defaults stand. */
    constructor(file: Option<map<string, Value>>)
      ensures config == if file.Some? then Overlay(DefaultConfig, file.value) else DefaultConfig
      ensures saved == if file.Some? then file.value else map[]
      ensures lastAutostartResult.None?
    {
      config := DefaultConfig;
      saved := if file.Some? then file.value else map[];
      lastAutostartResult := None;
      new;
      Load(file);
    }

    /** `load`: overlays the saved settings on the ones in memory. */
    method Load(file: Option<map<string, Value>>)
      modifies this`config
      ensures config == if file.Some? then Overlay(old(config), file.value) else old(config)
    {
      if file.Some? {
        config := config + file.value;
      }
    }

    /** `save`: the file now holds the settings in memory. */
    method Save()
      modifies this`saved
      ensures saved == config
    {
      saved := config;
    }

    /** `get(key, default)` */
    function Lookup(key: string, default: Value): (r: Value)
      reads this
      ensures key in config ==> r == config[key]
      ensures key !in config ==> r == default
    {
      Get(config, key, default)
    }

    /** `set(key, value)`, and every property setter that stores its value unchanged
        (data retention, theme, keyboard layout, tray, notifications, language). */
    method Set(key: string, value: Value)
      modifies this`config, this`saved
      ensures config == old(config)[key := value] && saved == config
    {
      config := config[key := value];
      Save();
    }

    method SetIdleTimeoutSeconds(value: int)
      modifies this`config, this`saved
      ensures config == old(config)["idle_timeout_seconds" := Num(AtLeast(0, value))] && saved == config
    {
      Set("idle_timeout_seconds", Num(AtLeast(0, value)));
    }

    method SetBreakReminderIntervalMinutes(value: int)
      modifies this`config, this`saved
      ensures config == old(config)["break_reminder_interval_minutes" := Num(AtLeast(0, value))] && saved == config
    {
      Set("break_reminder_interval_minutes", Num(AtLeast(0, value)));
    }

    method SetBreakReminderDurationMinutes(value: int)
      modifies this`config, this`saved
      ensures config == old(config)["break_reminder_duration_minutes" := Num(AtLeast(1, value))] && saved == config
    {
      Set("break_reminder_duration_minutes", Num(AtLeast(1, value)));
    }

    method SetBreakReminderEnabled(value: bool)
      modifies this`config, this`saved
      ensures config == old(config)["break_reminder_enabled" := Flag(value)] && saved == config
    {
      Set("break_reminder_enabled", Flag(value));
    }

    method SetScreenTimeGroupDisplay(value: bool)
      modifies this`config, this`saved
      ensures config == old(config)["screen_time_group_display" := Flag(value)] && saved == config
    {
      Set("screen_time_group_display", Flag(value));
    }

    /** The `autostart` setter: stores the requested value, updates the registry and, when
        that fails, stores the state the registry actually has (`actual`, the answer of
        `is_autostart_enabled`). */
    method SetAutostart(value: bool, frozen: bool, registry: Option<string>, actual: bool)
      returns (result: RegistryResult)
      modifies this
      ensures result == UpdateRegistry(value, frozen, registry)
      ensures lastAutostartResult == Some(result)
      ensures config == old(config)["autostart" := Flag(if result.success then value else actual)]
      ensures saved == config
    {
      Set("autostart", Flag(value));
      result := UpdateRegistry(value, frozen, registry);
      lastAutostartResult := Some(result);
      if !result.success {
        Set("autostart", Flag(actual));
      }
    }

    /** `sync_autostart_state`: afterwards the stored flag reads as the registry state. */
    method SyncAutostart(actual: bool) returns (state: bool)
      modifies this`config, this`saved
      ensures state == actual
      ensures Lookup("autostart", Flag(false)) == Flag(actual)
      ensures old(Lookup("autostart", Flag(false))) == Flag(actual) ==> config == old(config) && saved == old(saved)
      ensures old(Lookup("autostart", Flag(false))) != Flag(actual) ==>
        config == old(config)["autostart" := Flag(actual)] && saved == config
    {
      if Lookup("autostart", Flag(false)) != Flag(actual) {
        Set("autostart", Flag(actual));
      }
      state := actual;
    }

    /** The stored `app_groups` is an object (the source fails on anything else). */
    predicate AppGroupsReadable()
      reads this
    {
      "app_groups" !in config || config["app_groups"].Groups?
    }

    /** The `app_groups` property. */
    function AppGroups(): map<string, seq<string>>
      reads this
      requires AppGroupsReadable()
    {
      if "app_groups" in config then config["app_groups"].lists else EmptyGroups
    }

    /** `get_app_group`: the first of the two groups listing the application. */
    function GetAppGroup(app: string): (r: Option<string>)
      reads this
      requires AppGroupsReadable()
      ensures r.Some? ==> r.value in AppGroups() && app in AppGroups()[r.value]
      ensures r.None? <==> app !in Get(AppGroups(), Productivity, []) && app !in Get(AppGroups(), OtherGroup, [])
      ensures "app_groups" !in config ==> r.None?
    {
      AppGroupOf(AppGroups(), app)
    }

    /** `set_app_group`: removes the app from copies of both lists, appends it to the named
        group and stores the new groups. */
    method SetAppGroup(app: string, group: Option<string>)
      requires AppGroupsReadable()
      modifies this`config, this`saved
      ensures config == old(config)["app_groups" := Groups(Regrouped(old(AppGroups()), app, group))]
      ensures saved == config
    {
      var groups := AppGroups();
      var p := Get(groups, Productivity, []);
      var o := Get(groups, OtherGroup, []);
      if app in p {
        p := RemoveFirst(p, app);
      }
      if app in o {
        o := RemoveFirst(o, app);
      }
      if group == Some(Productivity) {
        p := p + [app];
      } else if group == Some(OtherGroup) {
        o := o + [app];
      }
      Set("app_groups", Groups(map[Productivity := p, OtherGroup := o]));
    }
  }

  // ---------------------------------------------------------------------------
  // Heat-map colour themes
  // ---------------------------------------------------------------------------

  datatype RGB = RGB(r: int, g: int, b: int)

  /** A colour stop: a position in [0, 1] and the colour at that position. */
  datatype Stop = Stop(pos: real, color: RGB)

  datatype Theme = Theme(name: string, colors: seq<Stop>)

  const DefaultStops := [
    Stop(0.00, RGB(74, 111, 165)), Stop(0.25, RGB(74, 143, 143)), Stop(0.50, RGB(107, 175, 107)),
    Stop(0.75, RGB(212, 184, 90)), Stop(1.00, RGB(212, 115, 107))]
  const FireStops := [
    Stop(0.00, RGB(20, 20, 20)), Stop(0.33, RGB(180, 30, 30)), Stop(0.66, RGB(255, 160, 50)),
    Stop(1.00, RGB(255, 255, 200))]
  const OceanStops := [
    Stop(0.00, RGB(10, 30, 80)), Stop(0.33, RGB(20, 80, 140)), Stop(0.66, RGB(60, 180, 200)),
    Stop(1.00, RGB(200, 240, 255))]
  const MonochromeStops := [
    Stop(0.00, RGB(40, 40, 40)), Stop(0.50, RGB(120, 120, 120)), Stop(1.00, RGB(220, 220, 220))]
  const ViridisStops := [
    Stop(0.00, RGB(68, 1, 84)), Stop(0.25, RGB(59, 82, 139)), Stop(0.50, RGB(33, 144, 140)),
    Stop(0.75, RGB(93, 201, 99)), Stop(1.00, RGB(253, 231, 37))]
  const PlasmaStops := [
    Stop(0.00, RGB(13, 8, 135)), Stop(0.25, RGB(126, 3, 168)), Stop(0.50, RGB(204, 71, 120)),
    Stop(0.75, RGB(248, 149, 64)), Stop(1.00, RGB(240, 249, 33))]

  const HeatmapThemes: map<string, Theme> := map[
    "default" := Theme("Default (Blue → Green → Yellow → Orange)", DefaultStops),
    "fire" := Theme("Fire (Black → Red → Yellow → White)", FireStops),
    "ocean" := Theme("Ocean (Deep Blue → Cyan → White)", OceanStops),
    "monochrome" := Theme("Monochrome (Dark → Light Gray)", MonochromeStops),
    "viridis" := Theme("Viridis (Purple → Blue → Green → Yellow)", ViridisStops),
    "plasma" := Theme("Plasma (Blue → Purple → Orange → Yellow)", PlasmaStops)
  ]

  predicate ChannelsInRange(c: RGB) {
    0 <= c.r <= 255 && 0 <= c.g <= 255 && 0 <= c.b <= 255
  }

  /** Stops run from 0 to 1 at strictly increasing positions, with 8-bit channels. */
  predicate StopsWellFormed(stops: seq<Stop>) {
    && |stops| >= 2
    && stops[0].pos == 0.0
    && stops[|stops| - 1].pos == 1.0
    && (forall i :: 0 <= i < |stops| ==> 0.0 <= stops[i].pos <= 1.0 && ChannelsInRange(stops[i].color))
    && (forall i :: 0 <= i < |stops| - 1 ==> stops[i].pos < stops[i + 1].pos)
  }

  /** Well-formedness of a five-stop list, checked stop by stop. */
  lemma FiveStopsWellFormed(stops: seq<Stop>)
    requires |stops| == 5 && stops[0].pos == 0.0 && stops[4].pos == 1.0
    requires stops[0].pos < stops[1].pos < stops[2].pos < stops[3].pos < stops[4].pos
    requires ChannelsInRange(stops[0].color) && ChannelsInRange(stops[1].color) && ChannelsInRange(stops[2].color)
    requires ChannelsInRange(stops[3].color) && ChannelsInRange(stops[4].color)
    ensures StopsWellFormed(stops)
  {
  }

  lemma FourStopsWellFormed(stops: seq<Stop>)
    requires |stops| == 4 && stops[0].pos == 0.0 && stops[3].pos == 1.0
    requires stops[0].pos < stops[1].pos < stops[2].pos < stops[3].pos
    requires ChannelsInRange(stops[0].color) && ChannelsInRange(stops[1].color) && ChannelsInRange(stops[2].color)
    requires ChannelsInRange(stops[3].color)
    ensures StopsWellFormed(stops)
  {
  }

  /** Every theme is well formed. */
  lemma ThemesWellFormed()
    ensures forall name :: name in HeatmapThemes ==> StopsWellFormed(HeatmapThemes[name].colors)
  {
    DefaultStopsWellFormed();
    FireStopsWellFormed();
    OceanStopsWellFormed();
    MonochromeStopsWellFormed();
    ViridisStopsWellFormed();
    PlasmaStopsWellFormed();
    forall name | name in HeatmapThemes ensures StopsWellFormed(HeatmapThemes[name].colors) {
      var colors := HeatmapThemes[name].colors;
      assert colors in {DefaultStops, FireStops, OceanStops, MonochromeStops, ViridisStops, PlasmaStops};
    }
  }

  lemma DefaultStopsWellFormed() ensures StopsWellFormed(DefaultStops) { FiveStopsWellFormed(DefaultStops); }
  lemma FireStopsWellFormed() ensures StopsWellFormed(FireStops) { FourStopsWellFormed(FireStops); }
  lemma OceanStopsWellFormed() ensures StopsWellFormed(OceanStops) { FourStopsWellFormed(OceanStops); }
  lemma MonochromeStopsWellFormed() ensures StopsWellFormed(MonochromeStops) { }
  lemma ViridisStopsWellFormed() ensures StopsWellFormed(ViridisStops) { FiveStopsWellFormed(ViridisStops); }
  lemma PlasmaStopsWellFormed() ensures StopsWellFormed(PlasmaStops) { FiveStopsWellFormed(PlasmaStops); }

  /** An unknown theme name falls back to the default theme. */
  function ThemeFor(name: string): (t: Theme)
    ensures name in HeatmapThemes ==> t == HeatmapThemes[name]
    ensures name !in HeatmapThemes ==> t == HeatmapThemes["default"]
    ensures StopsWellFormed(t.colors)
  {
    ThemesWellFormed();
    if name in HeatmapThemes then HeatmapThemes[name] else HeatmapThemes["default"]
  }

  /** Python's `int(x)`: truncation toward zero. */
  function Trunc(x: real): int {
    if x >= 0.0 then x.Floor else -((-x).Floor)
  }

  /** `(c2 - c1) * t`: how far the channel moves from `c1` towards `c2`. */
  function Shift(c1: int, c2: int, t: real): real {
    (c2 - c1) as real * t
  }

  /** `int(c1 + (c2 - c1) * t)` */
  function Blend(c1: int, c2: int, t: real): int {
    Trunc(c1 as real + Shift(c1, c2, t))
  }

  /** The colour between two stops at `ratio` (weight 0 when the stops coincide). */
  function Interpolate(s1: Stop, s2: Stop, ratio: real): RGB {
    var t := if s2.pos != s1.pos then (ratio - s1.pos) / (s2.pos - s1.pos) else 0.0;
    RGB(Blend(s1.color.r, s2.color.r, t), Blend(s1.color.g, s2.color.g, t), Blend(s1.color.b, s2.color.b, t))
  }

  /** The colour the search yields from segment `i` on: the first segment holding `ratio`,
      or the last stop's colour when none does. */
  function ColorFrom(stops: seq<Stop>, ratio: real, i: nat): RGB
    requires i < |stops|
    decreases |stops| - i
  {
    if i == |stops| - 1 then stops[|stops| - 1].color
    else if stops[i].pos <= ratio <= stops[i + 1].pos then Interpolate(stops[i], stops[i + 1], ratio)
    else ColorFrom(stops, ratio, i + 1)
  }

  /** `get_theme_color`: scans the segments in order and returns at the first one holding `ratio`. */
  method ThemeColor(themeName: string, ratio: real) returns (c: RGB)
    ensures c == ColorFrom(ThemeFor(themeName).colors, ratio, 0)
  {
    var colors := ThemeFor(themeName).colors;
    var i := 0;
    while i < |colors| - 1
      invariant 0 <= i <= |colors| - 1
      invariant ColorFrom(colors, ratio, i) == ColorFrom(colors, ratio, 0)
    {
      if colors[i].pos <= ratio <= colors[i + 1].pos {
        return Interpolate(colors[i], colors[i + 1], ratio);
      }
      i := i + 1;
    }
    return colors[|colors| - 1].color;
  }

  predicate Between(x: int, a: int, b: int) {
    (a <= x <= b) || (b <= x <= a)
  }

  /** A blend with weight in [0, 1] lies between the two channels. */
  lemma BlendBetween(c1: int, c2: int, t: real)
    requires 0.0 <= t <= 1.0
    ensures Between(Blend(c1, c2, t), c1, c2)
  {
    ScaledBetween(c1, c2, t);
    OffsetBetween(c1, c2, Shift(c1, c2, t));
  }

  /** Moving from `c1` by at most the distance to `c2`, towards `c2`, and truncating stays
      between the two. */
  lemma OffsetBetween(c1: int, c2: int, p: real)
    requires c1 <= c2 ==> 0.0 <= p <= (c2 - c1) as real
    requires c2 < c1 ==> (c2 - c1) as real <= p <= 0.0
    ensures Between(Trunc(c1 as real + p), c1, c2)
  {
    if c1 <= c2 {
      TruncBetween(c1 as real + p, c1, c2);
    } else {
      TruncBetween(c1 as real + p, c2, c1);
    }
  }

  /** The weighted distance `(c2 - c1) * t` goes from 0 towards `c2 - c1`, no further. */
  lemma ScaledBetween(c1: int, c2: int, t: real)
    requires 0.0 <= t <= 1.0
    ensures c1 <= c2 ==> 0.0 <= Shift(c1, c2, t) <= (c2 - c1) as real
    ensures c2 < c1 ==> (c2 - c1) as real <= Shift(c1, c2, t) <= 0.0
  {
    var d := (c2 - c1) as real;
    assert Shift(c1, c2, t) == d * t;
    if c1 <= c2 {
      NonNegativeProduct(d, t);
      NonNegativeProduct(d, 1.0 - t);
    } else {
      NonNegativeProduct(-d, t);
      NonNegativeProduct(-d, 1.0 - t);
    }
  }

  lemma NonNegativeProduct(x: real, y: real)
    requires x >= 0.0 && y >= 0.0
    ensures x * y >= 0.0
  {
  }

  /** Truncating a real that lies between two integers stays between them. */
  lemma TruncBetween(x: real, a: int, b: int)
    requires a as real <= x <= b as real
    ensures a <= Trunc(x) <= b
  {
  }

  /** Inside a segment every channel lies between the two stops' channels. */
  lemma InterpolateBetween(s1: Stop, s2: Stop, ratio: real)
    requires s1.pos < s2.pos && s1.pos <= ratio <= s2.pos
    ensures var c := Interpolate(s1, s2, ratio);
      Between(c.r, s1.color.r, s2.color.r) && Between(c.g, s1.color.g, s2.color.g)
      && Between(c.b, s1.color.b, s2.color.b)
  {
    var t := (ratio - s1.pos) / (s2.pos - s1.pos);
    UnitFraction(ratio - s1.pos, s2.pos - s1.pos);
    BlendBetween(s1.color.r, s2.color.r, t);
    BlendBetween(s1.color.g, s2.color.g, t);
    BlendBetween(s1.color.b, s2.color.b, t);
  }

  /** A ratio in [0, 1] is found in some segment, and the colour is that segment's blend. */
  lemma {:induction false} ColorFromFindsSegment(stops: seq<Stop>, ratio: real, i: nat)
    requires StopsWellFormed(stops) && i < |stops| - 1 && stops[i].pos <= ratio <= 1.0
    ensures exists j ::
      && i <= j < |stops| - 1 && stops[j].pos <= ratio <= stops[j + 1].pos
      && ColorFrom(stops, ratio, i) == Interpolate(stops[j], stops[j + 1], ratio)
    decreases |stops| - i
  {
    if ratio > stops[i + 1].pos {
      ColorFromFindsSegment(stops, ratio, i + 1);
    }
  }

  /** A ratio outside [0, 1] matches no segment: the last stop's colour is returned. */
  lemma {:induction false} ColorFromOutOfRange(stops: seq<Stop>, ratio: real, i: nat)
    requires StopsWellFormed(stops) && i < |stops|
    requires ratio < 0.0 || ratio > 1.0
    ensures ColorFrom(stops, ratio, i) == stops[|stops| - 1].color
    decreases |stops| - i
  {
    if i < |stops| - 1 {
      ColorFromOutOfRange(stops, ratio, i + 1);
    }
  }

  /** For any theme name: a ratio in [0, 1] gives channels between the two stops of the
      segment holding it; any other ratio gives the last stop's colour; every channel is
      in [0, 255]. */
  lemma ThemeColorMeaning(themeName: string, ratio: real)
    ensures var stops := ThemeFor(themeName).colors;
      var c := ColorFrom(stops, ratio, 0);
      && ChannelsInRange(c)
      && (0.0 <= ratio <= 1.0 ==>
            exists j ::
              && 0 <= j < |stops| - 1 && stops[j].pos <= ratio <= stops[j + 1].pos
              && Between(c.r, stops[j].color.r, stops[j + 1].color.r)
              && Between(c.g, stops[j].color.g, stops[j + 1].color.g)
              && Between(c.b, stops[j].color.b, stops[j + 1].color.b))
      && (ratio < 0.0 || ratio > 1.0 ==> c == stops[|stops| - 1].color)
  {
    var stops := ThemeFor(themeName).colors;
    var c := ColorFrom(stops, ratio, 0);
    if 0.0 <= ratio <= 1.0 {
      ColorFromFindsSegment(stops, ratio, 0);
      var j :| 0 <= j < |stops| - 1 && stops[j].pos <= ratio <= stops[j + 1].pos
        && c == Interpolate(stops[j], stops[j + 1], ratio);
      InterpolateBetween(stops[j], stops[j + 1], ratio);
      assert ChannelsInRange(stops[j].color) && ChannelsInRange(stops[j + 1].color);
    } else {
      ColorFromOutOfRange(stops, ratio, 0);
    }
  }
}
