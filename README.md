# KMTracker core, modelled in Dafny

KMTracker (ActivityTrack) is a Windows desktop tool. It counts keystrokes, mouse
clicks, mouse travel and wheel scrolling, attributes each event to the foreground
application and keeps per-key and per-screen-position heatmaps. It buffers those
counts in memory, flushes them to an SQLite database, and shows them in a Qt
dashboard: cards, an application table and pie chart, keyboard and mouse heatmaps,
and a screen-time view. It can also export the data as CSV or JSON.

This project models that core and proves what it promises. The modules are:

- `Tracker` (tracker.dfy): the input tracker.
  - The hook routing, the wheel-delta decoding and the 5-pixel click binning.
  - The per-event buffers and `flush_stats`.
  - The invariant that every total equals the sum of its heatmap and of its per-application counts, kept by every event and by the flush.
  - The fact that a flush does not change what the dashboard sees for today.
- `Storage` (database.dfy): the database as maps keyed by date.
  - Its upserts and its range queries, including the all-time summary and the top-N application summary.
- `Settings` (config.dfy): the configuration.
  - Defaults overlaid by the saved file, clamping setters and the autostart registry outcome.
  - Application groups and the heatmap colour themes with their interpolation.
- `Localization` (i18n.dfy): translation lookup with English fallback, and the language-change callbacks.
- `Export` (exporter.py's `DataExporter`, in exporter.dfy): the date ranges, the CSV rows and the JSON document.
- `ScreenTime` (screen_time.dfy): the screen-time tab.
  - Duration formatting, the range selector, merging the live buffer and the averages.
  - Percentages and the pie chart.
- `Dashboard` (main_window.dfy): the main window.
  - The range selector and the cards.
  - The merge of the application buffer into today's rows.
  - The heatmap queries and merges, and the heatmap application filter.
- `Grouping` (grouping.dfy): the application-grouping dialog as a class with its three lists.
- `Widgets` (widgets.dfy): the keyboard heat ratio, the packed multi-monitor layout, and the 4-pixel binning of click counts into a per-screen grid.
- `Common` and `Text` (common.dfy, text.dfy): shared map and sequence sums, the stable sort the Python `sorted`/`sortItems` calls stand for, and string helpers.

State that the source mutates is modelled as classes:
- `InputTracker`, `Database`, `Config`, `I18n`;
- the range selectors, `ScreenTimeCard`, `MainWindow`, `AppGroupingDialog`, `MouseHeatmapWidget`.

Their methods carry `modifies` clauses, and their `ensures` give the new value of every field they change. The rest is written as functions with lemmas.

Things outside the model arrive as parameters:
- the clock (`today`, `now`);
- the foreground window (`Foreground`, whose executable path is `None` when the process cannot be queried);
- file and registry outcomes (`fails`, `writeOk`, `registry`);
- the rows the database returns.

## Model

| member | source | states |
|---|---|---|
| Tracker.ReleasesAndInjectedIgnored | src/tracker.py:304-316 | a key release (WM_KEYUP or WM_SYSKEYUP), any message other than WM_KEYDOWN and WM_SYSKEYDOWN, and a key-down whose LLKHF_INJECTED bit is set are never counted |
| Tracker.CountsKeyPress | src/tracker.py:309-313 | a counted event has a non-negative hook code, is WM_KEYDOWN or WM_SYSKEYDOWN and is not injected; every non-injected key-down or system key-down with a non-negative code is counted |
| Tracker.WheelDelta | src/tracker.py:318-334 | the wheel delta is the signed high word of mouseData, always in [-32768, 32767] |
| Tracker.WheelDeltaRoundTrip | src/tracker.py:330 | decoding the high word gives back any signed 16-bit delta, whatever the low word holds |
| Tracker.RouteMouse | src/tracker.py:318-334 | negative nCode passes through; moves, the three button-downs and the wheel are told apart by wParam; everything else passes |
| Tracker.Bin5 | src/tracker.py:423-425 | a click coordinate is rounded down to a multiple of 5 that lies within 5 pixels below it |
| Tracker.Bin5Unique | src/tracker.py:423-425 | that multiple of 5 is the only one with this property, so the binning is well defined |
| Tracker.PxPerMm | src/tracker.py:91-130 | pixels per millimetre are always positive, whether measured or from the DPI fallback |
| Tracker.PxPerMmMeasured | src/tracker.py:116-121 | the measured density times the physical width gives back the pixel width |
| Tracker.Metres | src/tracker.py:385-390 | a non-negative pixel distance gives a non-negative distance in metres |
| Tracker.MetresToPixels | src/tracker.py:385-390 | converting metres back with the same density recovers the pixel distance |
| Tracker.FriendlyName | src/tracker.py:265-273 | the file description wins when present and different; otherwise the app name with a trailing `.exe` (any case) dropped and the rest `capitalize()`d (so case-insensitively equal and 4 shorter), or the app name itself |
| Tracker.StoredNameMatchesFallback | src/tracker.py:265-273 | the capitalised name stored as metadata equals, up to case, the name the views show when metadata is missing |
| Tracker.BumpApp | src/tracker.py:363-372 | an application's buffer entry is added to; every other application's entry is unchanged |
| Tracker.AddTotalsConsistent | src/tracker.py:163-170 | adding two consistent totals (counters equal to the heatmap and per-app sums) keeps them consistent |
| Tracker.AddNoTotals | src/tracker.py:471-482 | the empty totals are a unit for addition |
| Tracker.NoTotalsWellFormed | src/tracker.py:63-89 | the freshly reset buffers satisfy the tracker invariant |
| Tracker.AddTotalsWellFormed | src/tracker.py:163-170 | the tracker invariant (consistency, positive heatmap counts, bins on the 5-pixel grid) is closed under addition |
| Tracker.NoPressesNoHeatmaps | src/tracker.py:444-445 | with no key and no click counted, both heatmap buffers are empty |
| Tracker.SingletonSums | src/tracker.py:363-372 | the sum over a one-entry map is that entry |
| Tracker.MergedOneApp | src/tracker.py:363-372 | merging a one-application buffer is the same as bumping that application |
| Tracker.MergedOneCount | src/tracker.py:363-372 | merging a one-key count map is the same as incrementing that key |
| Tracker.PressedIsKeyPress | src/tracker.py:361-378 | a key press changes the buffers exactly by adding one keystroke for that scan code and application |
| Tracker.ClickedIsButtonPress | src/tracker.py:407-425 | a click changes the buffers exactly by adding one click at its 5-pixel bin for that application |
| Tracker.MovedIsTravel | src/tracker.py:380-405 | a move changes the buffers exactly by adding its distance in metres for that application |
| Tracker.ScrolledIsWheelTurn | src/tracker.py:427-435 | a wheel turn adds the absolute delta divided by 120 notches to the total and one scroll to the application |
| Tracker.PressStep | src/tracker.py:361-378 | a key press keeps the tracker invariant |
| Tracker.ClickStep | src/tracker.py:407-425 | a click keeps the tracker invariant |
| Tracker.MoveStep | src/tracker.py:380-405 | a move of non-negative length keeps the tracker invariant |
| Tracker.ScrollStep | src/tracker.py:427-435 | a wheel turn keeps the tracker invariant |
| Tracker.InputTracker.IdleHeatmapsEmpty | src/tracker.py:444-445 | when the key and click buffers are zero, the heatmap buffers are empty too, so skipping the flush loses nothing |
| Tracker.InputTracker.constructor | src/tracker.py:63-89 | a new tracker has empty buffers, an empty database, no last mouse position, "Unknown" as cached app and the measured screen density |
| Tracker.InputTracker.CheckUpdateMetadata | src/tracker.py:254-279 | metadata is written once per new application, never for "Unknown", and the cache grows only when the write succeeds; the friendly name falls back to the process name when there is no executable path or no description, and the path is stored as given, possibly NULL |
| Tracker.NotedOnce | src/tracker.py:254-279 | seeing the same foreground application twice in a row writes its metadata at most once: the second check changes nothing |
| Tracker.InputTracker.ActiveAppName | src/tracker.py:281-302 | returns the foreground name; for a new named application whose write succeeds, its `FriendlyName` and exe path are written and it is cached; for "Unknown", a cached application or a failed write, the metadata table and the cache are unchanged |
| Tracker.InputTracker.OnPress | src/tracker.py:361-378 | the pending totals grow by exactly one key press and the invariant holds; the metadata table and cache change as the foreground check prescribes and in no other way |
| Tracker.InputTracker.CountPress | src/tracker.py:363-372 | the buffer update of a key press, as above, under the lock |
| Tracker.InputTracker.OnMove | src/tracker.py:380-405 | the first move only records the position; later moves add their metres to the app cached within the last 0.5 s; metadata is recorded only when that re-read happens, and is unchanged otherwise |
| Tracker.InputTracker.RefreshCachedApp | src/tracker.py:396-399 | the foreground app is re-read, and its metadata recorded, only when more than 0.5 s have passed; otherwise the cached name, the check time, the metadata table and the cache are unchanged |
| Tracker.InputTracker.CountMove | src/tracker.py:401-404 | the buffer update of a move, as above |
| Tracker.InputTracker.OnClick | src/tracker.py:407-425 | the pending totals grow by exactly one click in its bin and the invariant holds; the metadata table and cache change as the foreground check prescribes and in no other way |
| Tracker.InputTracker.CountClick | src/tracker.py:407-425 | the buffer update of a click, as above |
| Tracker.InputTracker.OnScroll | src/tracker.py:427-435 | the pending totals grow by exactly one wheel turn and the invariant holds; the metadata table and cache change as the foreground check prescribes and in no other way |
| Tracker.InputTracker.CountScroll | src/tracker.py:427-435 | the buffer update of a wheel turn, as above |
| Tracker.InputTracker.KeyboardProc | src/tracker.py:304-316 | the hook always chains to the next hook; a counted key-down adds one key press and records the foreground metadata; any other event changes nothing |
| Tracker.InputTracker.MouseProc | src/tracker.py:318-334 | the hook always chains; passes change nothing; a move records the position and, from the second one on, adds only travel (to the throttled cached app); clicks and wheel turns add exactly one event and leave the position and cached app alone; each records the foreground metadata as `on_move`, `on_click` or `on_scroll` does |
| Tracker.InputTracker.FlushAppStats | src/tracker.py:457-463 | every buffered application's counts are added into today's rows |
| Tracker.InputTracker.FlushHeatmap | src/tracker.py:465-466 | every buffered key count is added into today's key heatmap rows |
| Tracker.InputTracker.FlushMouseHeatmap | src/tracker.py:468-469 | every buffered click bin is added into today's mouse heatmap rows |
| Tracker.InputTracker.FlushStats | src/tracker.py:442-482 | an idle flush changes nothing; otherwise today's row and the three tables absorb the buffers and the buffers are reset |
| Tracker.InputTracker.WriteBuffers | src/tracker.py:449-469 | the database writes of a flush, as above |
| Tracker.InputTracker.ClearBuffers | src/tracker.py:471-482 | after the reset the pending totals are empty and the invariant holds |
| Tracker.InputTracker.CombinedConsistent | src/tracker.py:147-196 | stored plus pending totals for today are consistent when the stored ones are |
| Tracker.InputTracker.GetStatsSnapshot | src/tracker.py:147-196 | the snapshot's totals are stored plus buffered; its heatmap is the merged one; its buffer fields are the raw buffers |
| Tracker.FlushedDayTotals | src/tracker.py:442-482 | after a flush, today's stored totals grow by the pending ones and every other day is unchanged |
| Tracker.FlushKeepsCombined | src/tracker.py:442-482 | stored plus pending for today is the same before and after a flush |
| Storage.UpsertDailyAdds | src/database.py:101-113 | the daily upsert adds to an existing row or inserts a new one |
| Storage.UpsertAppAdds | src/database.py:115-127 | the per-application upsert adds to an existing row or inserts one |
| Storage.UpsertCountIsIncrement | src/database.py:143-153 | the heatmap upsert increments that key's count |
| Storage.UpsertDailyTwice | src/database.py:101-113 | two upserts of the same day equal one upsert of their sum |
| Storage.UpsertAppTwice | src/database.py:115-141 | two per-application upserts of one key equal one upsert of their sum |
| Storage.UpsertCountTwice | src/database.py:143-164 | two heatmap upserts of one key equal one upsert of their sum |
| Storage.SetMetadata | src/database.py:467-491 | the application's metadata is replaced and every other application's is kept |
| Storage.SetMetadataLastWins | src/database.py:467-491 | the last write of an application's metadata wins |
| Storage.DrainInsert | src/tracker.py:457-469 | flushing one more buffered key is one more upsert |
| Storage.DrainStep | src/tracker.py:457-469 | one loop step of a flush is one upsert of that key |
| Storage.DrainNext | src/tracker.py:457-469 | the flush loop's remaining-keys form of the step above |
| Storage.DrainAll | src/tracker.py:457-469 | flushing nothing changes nothing, and flushing every key is the whole drain |
| Storage.DrainDayView | src/database.py:181-188 | after a flush, today's rows are the old rows merged with the buffer |
| Storage.DrainOtherDay | src/database.py:181-188 | a flush leaves every other day's rows unchanged |
| Storage.MergedByPlus | src/database.py:143-164 | merging with `+` is the count merge |
| Storage.Database.constructor | src/database.py:13-80 | a new database has all tables empty |
| Storage.Database.UpdateStats | src/database.py:101-113 | `daily_stats` becomes the upsert of that day's counters |
| Storage.Database.UpdateAppStats | src/database.py:115-127 | `app_stats` becomes the upsert of that (day, app) row |
| Storage.Database.UpdateHourlyAppStats | src/database.py:129-141 | `hourly_app_stats` becomes the upsert of that (day, hour, app) row |
| Storage.Database.UpdateHeatmap | src/database.py:143-153 | `heatmap` becomes the upsert of that (day, key) count |
| Storage.Database.UpdateMouseHeatmap | src/database.py:155-164 | `mouse_heatmap` becomes the upsert of that (day, x, y) count |
| Storage.Database.UpdateAppMetadata | src/database.py:467-491 | `app_metadata` gets that application's names |
| Storage.Database.GetTodayStats | src/database.py:166-171 | there is a row exactly when today has been stored, and it is that row |
| Storage.Database.GetTodayHeatmap | src/database.py:181-188 | today's heatmap has exactly the keys stored for today, each with its stored count |
| Storage.CodesInIff | src/database.py:190-201 | a key appears in a range query exactly when some day in the range has it |
| Storage.RangeTotals | src/database.py:190-201 | the keys of a range heatmap are exactly the keys stored on some day in range |
| Storage.DayViewIsOneDayRange | src/database.py:181-201 | today's heatmap is the range query from today to today |
| Storage.SliceUpsert | src/database.py:190-201 | an upsert touches only the slice of its own key |
| Storage.CodesInUpsert | src/database.py:190-201 | an upsert inside the range adds its key to the range's keys; outside it adds nothing |
| Storage.RangeTotalsUpsert | src/database.py:190-201 | an upsert inside the range adds its count to that key's range total |
| Storage.SliceSumUpsert | src/database.py:190-201 | one code's sum over the range grows by the upsert's delta exactly when the upsert is that code's and inside the range |
| Storage.RangeTotalsEmpty | src/database.py:190-201 | an empty table gives an empty range heatmap |
| Storage.HeatmapRangeTwoDays | src/database.py:190-201 | 100 presses on one day and 90 the next sum to 190 over the two days |
| Storage.SumRowsUpsert | src/database.py:223-236 | the sum of the daily rows grows by exactly the upserted amount |
| Storage.StatsRange | src/database.py:223-236 | the range sum is NULL exactly when no stored day falls in the range |
| Storage.StatsRangeUpsert | src/database.py:223-236 | an upsert inside the range adds to the range sum; outside it leaves the sum unchanged |
| Storage.AllTime | src/database.py:250-265 | counts the tracked days; totals and first and last dates exist exactly when something is stored; first and last are the extreme stored days |
| Storage.AllTimeIsWidestRange | src/database.py:250-265 | the all-time totals equal the range sum from the first to the last stored day |
| Storage.SumCountsUpdate | src/database.py:290-322 | a per-application sum changes by exactly the updated entry |
| Storage.Enumerate | src/database.py:445-453 | lists a set's members once each |
| Storage.StrLeTotalOn | src/database.py:445-453 | string order is total, so the name sort is well defined |
| Storage.AllApps | src/database.py:445-453 | `get_all_apps` lists every application ever stored, once, in ascending order |
| Storage.AllAppsFacts | src/database.py:445-453 | sorting distinct names keeps them distinct, the same members, in order |
| Storage.ByKeysDescTotal | src/database.py:290-322 | ordering by keystrokes descending is total |
| Storage.RowsFor | src/database.py:290-322 | one summary row per application, carrying that application's totals |
| Storage.SummaryRowsFacts | src/database.py:290-322 | the summary rows are one per stored application, with its summed counts |
| Storage.PermutedRowsFacts | src/database.py:290-322 | any reordering of the summary rows still has one row per application, with its totals |
| Storage.SortedSummaryFacts | src/database.py:290-322 | the sorted summary is in descending keystroke order and has the same rows |
| Storage.TopRowsFacts | src/database.py:290-322 | the LIMIT cut keeps at most `limit` rows, the first ones of the sorted summary |
| Storage.AppStatsSummary | src/database.py:290-322 | the summary lists each application of the selected range once with its summed counts, ordered by keys descending, and holds `limit` rows (all of them when fewer or when the limit is negative) |
| Storage.LeftOutRanksLower | src/database.py:290-322 | in a list in descending keystroke order, an application missing from a prefix has no more keystrokes than any row of the prefix |
| Storage.RowOf | src/database.py:290-322 | every selected application has a row carrying its sums, however the summary is ordered |
| Storage.PrefixFacts | src/database.py:290-322 | cutting a descending, duplicate-free summary at the limit keeps it descending, duplicate-free and one row per application, with limit rows or all of them |
| Storage.TopRowsKeepTop | src/database.py:290-322 | an application left out by the LIMIT has no more keystrokes than any application kept |
| Settings.Overlay | src/config.py:63-72 | saved keys override the defaults; defaults survive where nothing is saved |
| Settings.AtLeast | src/config.py:174-204 | a clamping setter stores the value, or the lower bound when the value is below it |
| Settings.UpdateRegistry | src/config.py:279-326 | success exactly when there is no error; enabling outside a packaged build fails; otherwise success is the registry call's outcome |
| Settings.AppGroupOf | src/config.py:228-235 | productivity wins over other; an app in neither group has none |
| Settings.Config.GetAppGroup | src/config.py:228-235 | a group is returned only when the stored groups list the app under it; none when neither list has it, and always none before any groups are stored |
| Settings.SetAppGroupPlaces | src/config.py:237-259 | after regrouping, the app is last in its new group and absent from the other |
| Settings.SetAppGroupKeepsOthers | src/config.py:237-259 | regrouping one app leaves every other app's group membership unchanged |
| Settings.Config.constructor | src/config.py:43-61 | the configuration is the defaults overlaid by the saved file, or the defaults when there is none |
| Settings.Config.Load | src/config.py:63-72 | loading overlays the file on the current values, or keeps them when there is no readable file |
| Settings.Config.Save | src/config.py:74-80 | the saved file equals the configuration |
| Settings.Config.Lookup | src/config.py:82-84 | a stored key gives its value; a missing key gives the default |
| Settings.Config.Set | src/config.py:86-89 | one key is changed and the configuration is saved |
| Settings.Config.SetIdleTimeoutSeconds | src/config.py:174-177 | stores the value clamped at 0 and saves |
| Settings.Config.SetBreakReminderIntervalMinutes | src/config.py:192-195 | stores the value clamped at 0 and saves |
| Settings.Config.SetBreakReminderDurationMinutes | src/config.py:201-204 | stores the value clamped at 1 and saves |
| Settings.Config.SetBreakReminderEnabled | src/config.py:183-186 | stores the flag and saves |
| Settings.Config.SetScreenTimeGroupDisplay | src/config.py:222-226 | stores the flag and saves |
| Settings.Config.SetAutostart | src/config.py:96-114 | stores the requested state when the registry update succeeds, the actual state otherwise, and records the outcome |
| Settings.Config.SyncAutostart | src/config.py:347-353 | the stored flag ends equal to the registry's actual state; when it differed, only `autostart` changes and the configuration is saved; otherwise nothing changes |
| Settings.Config.SetAppGroup | src/config.py:237-259 | the groups become the regrouped map and are saved |
| Settings.FiveStopsWellFormed | src/config.py:357-414 | five stops from 0.0 to 1.0 in increasing order with 8-bit channels form a valid gradient |
| Settings.FourStopsWellFormed | src/config.py:386-393 | the same for four stops |
| Settings.ThemesWellFormed | src/config.py:357-414 | every built-in theme is a valid gradient |
| Settings.ThemeFor | src/config.py:427 | an unknown theme name falls back to `default`; the result is always valid |
| Settings.ThemeColor | src/config.py:417-444 | the colour is the first matching segment's interpolation, or the last stop |
| Settings.BlendBetween | src/config.py:437-440 | a blended channel lies between the two stop channels |
| Settings.TruncBetween | src/config.py:438-440 | `int()` of a value lying between two integers lies between them too |
| Settings.InterpolateBetween | src/config.py:435-441 | an interpolated colour lies channel-wise between its two stops |
| Settings.ColorFromFindsSegment | src/config.py:432-441 | every ratio in [0, 1] falls in some segment, so the fallback is never reached |
| Settings.ColorFromOutOfRange | src/config.py:443-444 | a ratio outside [0, 1] gets the last stop's colour |
| Settings.ThemeColorMeaning | src/config.py:417-444 | every theme colour is an interpolation between two adjacent stops, or the last stop |
| Localization.GetSupportedLanguages | src/i18n.py:574 | exactly English and Chinese, English included |
| Localization.Found | src/i18n.py:464-488 | the current language's entry, else English's, else nothing |
| Localization.Lookup | src/i18n.py:464-488 | a missing key is returned as itself |
| Localization.Translate | src/i18n.py:464-488 | format arguments apply only to text entries; a failing format keeps the template |
| Localization.I18n.Get | src/i18n.py:464-488 | without arguments: the current language's entry, else the English entry, else the key itself |
| Localization.GetList | src/i18n.py:490-505 | a list entry, with English fallback; anything else gives the empty list |
| Localization.Failing | src/i18n.py:517-528 | the callbacks reported as failing are exactly the registered ones that raise |
| Localization.I18n.constructor | src/i18n.py:445-451 | starts in English with no callbacks |
| Localization.I18n.SetCurrentLanguage | src/i18n.py:458-462 | a supported, different language is set, signalled and every callback is called; anything else changes nothing |
| Localization.I18n.RegisterCallback | src/i18n.py:507-510 | a callback is appended once; registering it again changes nothing |
| Localization.I18n.UnregisterCallback | src/i18n.py:512-515 | the callback is removed, all others keep their order |
| Localization.I18n.NotifyCallbacks | src/i18n.py:517-528 | every callback is called in order; a raising callback does not stop the rest |
| Localization.FailingAppend | src/i18n.py:517-528 | the failure list of one more callback grows by it exactly when it raises |
| Export.GetDateRange | src/exporter.py:24-43 | both bounds or neither; a bounded range ends today; only the four named ranges are bounded |
| Export.DateRangeDays | src/exporter.py:24-43 | today, week, month and year span 1, 7, 30 and 365 days |
| Export.AscendingDates | src/exporter.py:45-92 | the stored dates in strictly ascending order, each once |
| Export.DailyQueryRows | src/exporter.py:45-92 | the daily export lists every stored day in the range, once, ascending, with its counters |
| Export.EmptyDatabaseQueries | src/exporter.py:45-152 | an empty database exports no daily and no application rows |
| Export.RealOrZero | src/exporter.py:341-344 | a zero value (`row[3] or 0` on 0.0) is exported as integer 0, any other as the real itself |
| Export.DailyCsvRow | src/exporter.py:79-87 | a daily CSV row has one cell per header column and starts with the ISO date |
| Export.AppCsvRow | src/exporter.py:143-147 | an application CSV row has one cell per header column, starts with the app name and carries the stored friendly name or "" |
| Export.HeatmapCsvRow | src/exporter.py:190-192 | a heatmap CSV row has one cell per header column |
| Export.ScreenTimeCsvRow | src/exporter.py:238-250 | a screen-time CSV row has one cell per header column, the stored friendly name or "", and 0 seconds for a NULL sum |
| Export.DailyJson | src/exporter.py:339-345 | a daily JSON object has exactly the keys date, keystrokes, mouse_clicks, mouse_distance and scroll_distance |
| Export.AppJson | src/exporter.py:376-388 | an application JSON object has exactly its seven keys; without metadata the friendly name and exe path are ""; a stored path is written as itself and a stored NULL path as null |
| Export.HeatmapJson | src/exporter.py:407-410 | a heatmap JSON object has exactly the keys key_code and count |
| Export.ScreenTimeJson | src/exporter.py:430-437 | a screen-time JSON object has exactly its three keys and 0 seconds for a NULL sum |
| Export.SecondsOrZero | src/exporter.py:241 | missing seconds are exported as 0 |
| Export.Pad2Int | src/exporter.py:248 | `:02d` zero-pads non-negative numbers and prefixes negatives with a minus |
| Export.HmsParts | src/exporter.py:245-247 | hours, minutes and seconds recompose the total, with minutes and seconds below 60 |
| Export.FormatHmsRoundTrip | src/exporter.py:245-248 | the HH:MM:SS text parses back to the original number of seconds |
| Export.FormatHms | src/exporter.py:243-248 | a non-negative duration is written as hours, minutes and seconds separated by two colons, at least 8 characters long; a negative one starts with a minus sign |
| Export.FormatHmsTwoHours | src/exporter.py:245-248 | 7200 seconds export as "02:00:00" |
| Export.MissingMetadataExportsEmpty | src/exporter.py:146 | an application without metadata exports empty friendly name and path |
| Export.ExportDailyCsv | src/exporter.py:45-92 | on success: a header then one row per query row, in order; on failure: false |
| Export.ExportAppCsv | src/exporter.py:94-152 | on success: a header then one row per summary row, in order |
| Export.ExportHeatmapCsv | src/exporter.py:154-197 | on success: a header then one row per key count, in order |
| Export.ExportScreenTimeCsv | src/exporter.py:199-255 | on success: a header then one row per application with its HH:MM:SS time |
| Export.ExportAllCsv | src/exporter.py:257-292 | reports the four files by name, each successful exactly when its own export succeeded |
| Export.ExportInfo | src/exporter.py:308-313 | the header has the four fields, version "1.0", and null bounds for an unbounded range |
| Export.ExportJson | src/exporter.py:294-446 | on success: the header and each section with one object per query row, in order |
| ScreenTime.WholeSeconds | src/ui/screen_time_widget.py:16-18 | missing or negative time counts as 0; otherwise the value truncated to whole seconds |
| ScreenTime.FormatDuration | src/ui/screen_time_widget.py:14-29 | hours and minutes when there is an hour, else minutes and seconds when there is a minute, else seconds |
| ScreenTime.FormatDurationParts | src/ui/screen_time_widget.py:19-21 | the displayed parts recompose the whole seconds |
| ScreenTime.Elided | src/ui/screen_time_widget.py:142-153 | text longer than 20 is cut to 19 plus an ellipsis with the full text as tooltip; shorter text is shown whole |
| ScreenTime.ScreenTimeCard.constructor | src/ui/screen_time_widget.py:105-137 | a new card shows "0h 0m" |
| ScreenTime.ScreenTimeCard.UpdateValue | src/ui/screen_time_widget.py:139-140 | the card shows the formatted duration |
| ScreenTime.ScreenTimeCard.UpdateText | src/ui/screen_time_widget.py:142-153 | the card shows the elided text and its tooltip |
| ScreenTime.SelectorDateRange | src/ui/screen_time_widget.py:88-101 | ends today; starts 0, 6, 29 or 364 days back; `all` starts at 2000-01-01 |
| ScreenTime.TimeRangeSelector.constructor | src/ui/screen_time_widget.py:35-80 | starts on `today`, with only its button checked |
| ScreenTime.TimeRangeSelector.OnRangeSelected | src/ui/screen_time_widget.py:82-86 | exactly the chosen button is checked, and the key is emitted |
| ScreenTime.WithBuffer | src/ui/screen_time_widget.py:393-397 | today's apps are the stored ones plus the buffered ones; a buffered "Unknown" is skipped, while a stored "Unknown" row is kept |
| ScreenTime.MergeBuffer | src/ui/screen_time_widget.py:393-397 | the merge loop computes that map |
| ScreenTime.TodayAppData | src/ui/screen_time_widget.py:389-400 | today's list has one entry per merged app with its seconds, in descending order |
| ScreenTime.DailyAverage | src/ui/screen_time_widget.py:407-412 | for a non-empty range, the average times the number of days is the total; for an empty range (`days <= 0`) the average is 0 |
| ScreenTime.SelectorRangeNonEmpty | src/ui/screen_time_widget.py:88-101 | for a clock on or after 2000-01-01, every selectable range is non-empty, so the day count is positive |
| ScreenTime.EarlyClockAverageZero | src/ui/screen_time_widget.py:100-101 | for a clock before 2000-01-01, the 'all' range is empty and the average shown is 0 (the `else 0` of line 412) |
| ScreenTime.Percentage | src/ui/screen_time_widget.py:233 | 0 when the total is not positive; otherwise a share between 0 and 100 |
| ScreenTime.PercentageBounded | src/ui/screen_time_widget.py:233 | a part of a positive total is between 0 and 100 percent |
| ScreenTime.PercentSumIsShare | src/ui/screen_time_widget.py:208-237 | the table's percentages add up to the listed seconds' share of the total |
| ScreenTime.PercentagesAddUp | src/ui/screen_time_widget.py:208-237 | against their own total, the percentages add up to exactly 100 |
| ScreenTime.UpdatePie | src/ui/screen_time_widget.py:271-304 | the slices are the top ten non-empty apps plus "Others" for the rest |
| ScreenTime.AppSlicesAppend | src/ui/screen_time_widget.py:284-296 | each application the loop visits adds its own slice after the earlier ones, or none |
| ScreenTime.AppSlicesSum | src/ui/screen_time_widget.py:283-295 | dropping empty apps does not change the total |
| ScreenTime.PieKeepsTotal | src/ui/screen_time_widget.py:271-304 | the pie's slices add up to the listed total |
| ScreenTime.PieTotal | src/ui/screen_time_widget.py:281-301 | slices worth the first applications plus a positive "Others" remainder are worth the whole list |
| ScreenTime.SeqSumNonNegative | src/ui/screen_time_widget.py:405 | a total of non-negative seconds is non-negative |
| ScreenTime.RefreshData | src/ui/screen_time_widget.py:376-430 | for today with a buffer, the listed data is exactly the stored rows merged with the buffer, sorted by seconds descending; other ranges list the stored rows; the total, average (0 for the empty range of a clock before 2000-01-01), top app and pie agree with the listed data |
| Text.LowerCapitalize | src/tracker.py:269-272 | capitalising does not change a name up to case |
| Text.StripExe | src/ui/screen_time_widget.py:292 | a `.exe` suffix (any case) is removed and nothing else |
| Text.DisplayName | src/ui/main_window.py:750-756 | the friendly name when present, else the name without `.exe` |
| Text.ContainsIff | src/ui/app_grouping.py:339 | substring search succeeds exactly when the needle occurs at some position |
| Text.EmptyContained | src/ui/app_grouping.py:330-339 | the empty search text occurs in every name |
| Text.NatToString | src/exporter.py:248 | decimal digits only, at least one |
| Text.ParseNatToString | src/exporter.py:248 | printing a number and parsing it back gives the number |
| Text.ParseNatLeadingZero | src/exporter.py:248 | a leading zero does not change the value |
| Text.Pad2 | src/exporter.py:248 | at least two digits, exactly two below 100, and the value is kept |
| Text.StrLeTotal | src/ui/app_grouping.py:295-297 | any two names are ordered one way or the other |
| Text.StrLeTransitive | src/ui/app_grouping.py:295-297 | the name order is transitive |
| Text.StrLeAntisymmetric | src/ui/app_grouping.py:295-297 | two names ordered both ways are equal |
| Common.MergeCounts | src/ui/main_window.py:850-852 | the buffer-merge loop yields every key of either map, with the counts added where both have it |
| Common.Items | src/ui/main_window.py:690 | `dict.items()` lists every entry of the map exactly once |
| Common.ToMap | src/ui/main_window.py:678 | the dict built from rows has exactly the rows' first components as keys |
| Common.ToMapDistinct | src/ui/screen_time_widget.py:394 | rows with distinct names and the dict built from them list the same entries |
| Common.ListingToMap | src/ui/main_window.py:678 | a dict built from rows that list every entry of a map exactly once is that map |
| Common.SortBy | src/ui/screen_time_widget.py:400 | sorting keeps exactly the same elements |
| Common.SortBySorted | src/ui/main_window.py:692 | under a total order, the sorted list is in order and a permutation of its input |
| Common.SortedListing | src/ui/screen_time_widget.py:400 | sorting the items of a map still lists that map, now in order |
| Common.PermutedListing | src/ui/main_window.py:690-692 | any reordering of a map's items still lists the map |
| Dashboard.DashboardDateRange | src/ui/main_window.py:181-196 | both bounds or neither; only the five named ranges are bounded; a bounded range ends today except `yesterday` |
| Dashboard.DashboardRangesAreExportRanges | src/ui/main_window.py:181-196 | apart from `yesterday`, the dashboard's ranges are the exporter's; `yesterday` is the exporter's `today` shifted back one day |
| Dashboard.RangeSelector.constructor | src/ui/main_window.py:22-80 | starts on `today` with the dropdown inactive |
| Dashboard.RangeSelector.OnRangeSelected | src/ui/main_window.py:155-165 | exactly the chosen button is checked, the dropdown is inactive, and the key is emitted |
| Dashboard.RangeSelector.OnComboSelected | src/ui/main_window.py:167-179 | a dropdown entry unchecks all buttons, activates the dropdown and emits the key; an index with no entry changes nothing |
| Dashboard.StatsRangeOneDay | src/database.py:223-236 | a one-day range sum is that day's row, or NULL when the day is not stored |
| Dashboard.TodayCardsMatchSnapshot | src/ui/main_window.py:773-797 | for `today`, the cards show stored plus buffered counters, the same as the tracker's snapshot |
| Dashboard.OtherCardsIgnoreBuffer | src/ui/main_window.py:773-797 | for any other range, the cards show the stored range sum only |
| Dashboard.StoredStats | src/ui/main_window.py:776-789 | the stored answer is empty exactly when no day is stored (all time) or no stored day lies in the range |
| Dashboard.CardTotals | src/ui/main_window.py:776-797 | the cards show the stored sums (0 when there are none), with each buffered counter added for `today` only |
| Dashboard.Tick | src/ui/main_window.py:806-811 | the counter stays below 10, and the app list is refreshed exactly when the counter reaches 10 |
| Dashboard.EveryTenthUpdateRefreshes | src/ui/main_window.py:806-811 | after n updates the list has been refreshed n / 10 times and the counter is n mod 10 |
| Dashboard.TickCounts | src/ui/main_window.py:806-811 | one more update moves the counter to the next count mod 10 and refreshes the list exactly when a new ten is completed |
| Dashboard.Pairs | src/ui/main_window.py:657-665 | one (app, counts) pair per summary row, in order |
| Dashboard.MergeAppBuffer | src/ui/main_window.py:676-686 | the buffer merge adds each buffered app's counts to its stored row, or inserts it |
| Dashboard.UpdateApps | src/ui/main_window.py:643-708 | for `today`, one row per merged app, in descending keystroke order; otherwise the database rows unchanged |
| Dashboard.OneDayAppTotals | src/database.py:290-322 | a one-day summary's totals for an app are that day's row |
| Dashboard.SummaryUncut | src/database.py:290-322 | with no more apps than the limit, the summary is the whole sorted list |
| Dashboard.OneDayNames | src/database.py:290-322 | an app is in a one-day summary exactly when it has a row that day |
| Dashboard.TodaySummaryIsDayView | src/ui/main_window.py:650 | with at most 100 apps, today's summary holds exactly today's stored rows |
| Dashboard.DayRowsMap | src/ui/main_window.py:678 | a row list with one row per app of the day is, as a map, the day's rows |
| Dashboard.TodayAppsAreCombined | src/ui/main_window.py:643-708 | with at most 100 apps, today's table is the stored rows merged with the live buffer |
| Dashboard.HeatmapDays | src/ui/main_window.py:830-838 | a bounded range is queried as is; `all` from 2000-01-01 to today |
| Dashboard.KeyQueryAlwaysRaises | src/ui/main_window.py:830-838 | as written, the keyboard query passes a keyword the database function lacks, so it never returns |
| Dashboard.KeyQueryAnswers | src/database.py:190-201 | without that keyword the query returns the range totals |
| Dashboard.KeyboardHeatmapNeverShown | src/ui/main_window.py:824-854 | as written, the keyboard half of `update_heatmap` raises before its merge for every range, filter and snapshot, so no keyboard heatmap is ever shown |
| Dashboard.KeyboardHeatmapShown | src/ui/main_window.py:824-854 | corrected, every update shows the corrected merge of the range totals |
| Dashboard.UpdateKeyboardHeatmap | src/ui/main_window.py:840-852 | the keyboard data is the corrected merge of the stored range and the buffer |
| Dashboard.UpdateMouseHeatmap | src/ui/main_window.py:855-883 | the mouse data is the stored range merged with the click buffer for `today` without a filter |
| Dashboard.TodayKeyboardIsCombined | src/ui/main_window.py:840-852 | with the corrected merge, today's keyboard heatmap is stored plus buffered, each press counted once |
| Dashboard.KeyboardMerge | src/ui/main_window.py:840-852 | with the corrected merge (see Findings), for today without a filter, every key stored or buffered is shown with stored plus buffered count; otherwise the stored answer unchanged |
| Dashboard.MouseMerge | src/ui/main_window.py:871-883 | for today without a filter, every bin stored or buffered is shown with stored plus buffered count; otherwise the stored answer unchanged |
| Dashboard.TodayMouseIsCombined | src/ui/main_window.py:869-883 | today's mouse heatmap is stored plus buffered clicks, each counted once |
| Dashboard.KeyboardMergeDoubleCounts | src/ui/main_window.py:849-852 | as written, 5 flushed presses of one key show as 10 |
| Dashboard.AppFilterItems | src/ui/main_window.py:738-757 | "All" first, then one entry per stored app, with its display name and raw name |
| Dashboard.FindText | src/ui/main_window.py:759-761 | the first entry with that text, or -1 when there is none |
| Dashboard.MainWindow.constructor | src/ui/main_window.py:499 | the filter list is built and "All" is selected; the refresh counter is 0 |
| Dashboard.FilterEntries | src/ui/main_window.py:743-756 | the loop builds "All Applications" first, then one entry per application in order, showing its display name and carrying its raw name |
| Dashboard.MainWindow.RefreshHeatmapAppList | src/ui/main_window.py:738-763 | the list is rebuilt; the previous selection is restored by text when it still exists, else the selection falls back to index 0 ("All Applications"), as Qt leaves it after `clear()` |
| Dashboard.MainWindow.SelectedHeatmapApp | src/ui/main_window.py:765-771 | index 0 or an index outside the list selects all applications (`None`); otherwise the selected item's raw application name |
| Dashboard.MainWindow.CountUpdate | src/ui/main_window.py:806-811 | the list is rebuilt exactly on every tenth update, with the previous selection restored by its text (else index 0); otherwise list and selection are left alone |
| Dashboard.SelectingAnApp | src/ui/main_window.py:765-771 | selecting entry i + 1 filters by the i-th stored app's raw name |
| Dashboard.RefreshKeepsText | src/ui/main_window.py:759-761 | a still-present text is found at or before its position |
| Grouping.AppOf | src/ui/app_grouping.py:324 | an item stores the raw application name |
| Grouping.ItemNames | src/ui/app_grouping.py:302-328 | an item shows the friendly name when there is one, else the app name; its real name is the app's except when the app name is empty and a friendly name exists |
| Grouping.ByTextTotalOn | src/ui/app_grouping.py:295-297 | ordering items by displayed text is total |
| Grouping.SortedByText | src/ui/app_grouping.py:295-297 | `sortItems` orders by text and keeps the same items and apps |
| Grouping.AddedStep | src/ui/app_grouping.py:302-328 | adding an item appends that app and keeps every item as built from metadata |
| Grouping.SortKeepsAsAdded | src/ui/app_grouping.py:295-297 | sorting keeps the items as built and the same apps |
| Grouping.Categorized | src/ui/app_grouping.py:277-284 | a stored app is placed in exactly the list its group names |
| Grouping.CategorizedStep | src/ui/app_grouping.py:277-284 | one loop step appends the app to its own list only |
| Grouping.CategorizedSizes | src/ui/app_grouping.py:277-284 | the three lists together hold every stored app |
| Grouping.LoadedMembers | src/ui/app_grouping.py:263-300 | productivity holds every productivity app; other holds other-group apps unless they are stored productivity apps; unassigned holds stored ungrouped apps |
| Grouping.StoredAppInOneList | src/ui/app_grouping.py:277-284 | a stored app appears in exactly one list, its category's |
| Grouping.LoadSaveKeepsGroups | src/ui/app_grouping.py:393-415 | loading and then saving unchanged lists gives every app the same group as before |
| Grouping.KeptMovedSizes | src/ui/app_grouping.py:341-376 | a move neither loses nor adds items |
| Grouping.MovedApps | src/ui/app_grouping.py:341-376 | an app is moved exactly when one of its items was selected |
| Grouping.MoveSelected | src/ui/app_grouping.py:341-376 | the selected items leave the source, keeping order, and are appended to the target, rebuilt from metadata |
| Grouping.Filtered | src/ui/app_grouping.py:330-339 | filtering hides or shows items but keeps them all, unchanged |
| Grouping.FilterList | src/ui/app_grouping.py:333-339 | the loop over one list computes that filter |
| Grouping.FilterShowsMatches | src/ui/app_grouping.py:330-339 | an item stays visible exactly when the lowered text occurs in its lowered display or real name |
| Grouping.EmptyFilterShowsAll | src/ui/app_grouping.py:330-339 | an empty search shows every item |
| Grouping.AppGroupingDialog.Stats | src/ui/app_grouping.py:378-391 | the total is the sum of the three list sizes |
| Grouping.AppGroupingDialog.constructor | src/ui/app_grouping.py:24-34 | the dialog starts loaded from the stored apps and the configured groups |
| Grouping.AppGroupingDialog.LoadData | src/ui/app_grouping.py:263-300 | each list holds exactly the apps its group gets, built from metadata and sorted by text |
| Grouping.AppGroupingDialog.LoadLists | src/ui/app_grouping.py:276-298 | the three sorted lists hold exactly the loaded apps of their group |
| Grouping.AppGroupingDialog.Categorize | src/ui/app_grouping.py:277-284 | the categorising loop puts each stored app, in order, into its own list |
| Grouping.AppGroupingDialog.AddMissing | src/ui/app_grouping.py:286-293 | the apps of a group that are not stored are added once each |
| Grouping.AppGroupingDialog.MoveToProductivity | src/ui/app_grouping.py:341-349 | the selected unassigned apps move to productivity, which stays sorted; the total is unchanged |
| Grouping.AppGroupingDialog.MoveToOther | src/ui/app_grouping.py:351-359 | the selected unassigned apps move to other, which stays sorted; the total is unchanged |
| Grouping.AppGroupingDialog.SortedMerge | src/ui/app_grouping.py:375 | re-sorting the unassigned list keeps the same items, as many of them, and orders them by text |
| Grouping.AppGroupingDialog.MoveToUnassigned | src/ui/app_grouping.py:361-376 | the selected grouped apps move back to unassigned, which stays sorted; the total is unchanged |
| Grouping.AppGroupingDialog.FilterApps | src/ui/app_grouping.py:330-339 | all three lists get the same case-insensitive filter |
| Grouping.AppGroupingDialog.SaveAndClose | src/ui/app_grouping.py:393-415 | the configuration's groups become the real names of the productivity and other lists, in list order, and are saved; nothing else of the configuration object changes |
| Grouping.AppGroupingDialog.Names | src/ui/app_grouping.py:396-406 | the collected names are the items' real names, in order |
| Grouping.RealNamesAreApps | src/ui/app_grouping.py:396-406 | for items built from metadata, the saved real names are exactly the apps |
| Widgets.ScreenOf | src/ui/utils.py:179-210 | a placement remembers its screen |
| Widgets.MinY | src/ui/utils.py:188-189 | the smallest top edge of all screens, reached by one of them |
| Widgets.SideBySideSeparated | src/ui/utils.py:191-208 | packed screens never overlap: each ends at least 20 pixels before any later one starts |
| Widgets.PlacedNext | src/ui/utils.py:195-208 | a screen placed at the running x, one gap after the previous screen's right edge, keeps the layout side by side |
| Widgets.SortedAboveMin | src/ui/utils.py:185-202 | sorting keeps every screen at or below the minimum top edge |
| Widgets.ByXTotalOn | src/ui/utils.py:186 | ordering screens by left edge is total |
| Widgets.PackingOrder | src/ui/utils.py:185-186 | the screens are packed left to right by left edge, and all of them are packed |
| Widgets.GridHeight | src/ui/utils.py:221-226 | `int(h * 0.25) + 1` with truncation toward zero: for a non-negative height, at least one row, and the rows are the 4-pixel bands covering the height; for a negative height, the truncated quarter plus one |
| Widgets.GridWidth | src/ui/utils.py:221-226 | `int(w * 0.25) + 1` with truncation toward zero: for a non-negative width, at least one column, and the columns are the 4-pixel bands covering the width; for a negative width, the truncated quarter plus one |
| Widgets.CellInRange | src/ui/utils.py:232-239 | a point on the screen bins into a cell inside the grid |
| Widgets.CellTotalAdd | src/ui/utils.py:232-239 | adding a new point raises exactly its own cell's total by its count |
| Widgets.UnbinnedCellEmpty | src/ui/utils.py:232-239 | a cell no point falls in has total 0 |
| Widgets.BinnedAdd | src/ui/utils.py:232-239 | adding an on-screen point increments its cell in the binned map |
| Widgets.BinnedSkip | src/ui/utils.py:233 | an off-screen point does not change the binned map |
| Widgets.BinnedTotal | src/ui/utils.py:232-239 | binning keeps the number of clicks: the grid adds up to the on-screen counts |
| Widgets.HeatRatio | src/ui/utils.py:137-143 | a key is coloured exactly when both counts are positive, with a ratio in (0, 1] |
| Widgets.KeyHeat | src/ui/utils.py:129-143 | with the maximum count as scale, a key is coloured exactly when it has presses, with ratio count / maximum |
| Widgets.MouseHeatmapWidget.constructor | src/ui/utils.py:167-172 | the widget starts with the data given, or empty when none is given |
| Widgets.MouseHeatmapWidget.UpdateData | src/ui/utils.py:174-177 | the widget holds the new data |
| Widgets.MouseHeatmapWidget.PackedLayout | src/ui/utils.py:179-210 | screens sorted by left edge, side by side 20 pixels apart from x = 0, shifted up by the minimum top edge, with their sizes and real geometry kept |
| Widgets.MouseHeatmapWidget.ScreenGrid | src/ui/utils.py:212-242 | no grid when no click lies on the screen; otherwise each cell holds the clicks of its 4-pixel square |
| Widgets.Accumulate | src/ui/utils.py:228-239 | the loop fills every cell with its total and reports whether any click was on the screen |
| Widgets.AddClick | src/ui/utils.py:232-239 | one click is added to its cell when it lies on the screen |
| Widgets.AddToCell | src/ui/utils.py:236-239 | exactly one cell grows by the count |

## Left out

- The Win32 hooks, the hook thread, the message pump and the lock are left out. Events arrive as method calls in some order, and the lock is treated as atomic.
- The foreground window lookup, process-name resolution and version-file descriptions are left out, because they are foreign calls. They arrive as a `Foreground` value.
- The trace file `app_trace.txt` is left out.
- SQLite, file I/O, JSON and CSV serialisation, `os.makedirs`, timestamps in file names and the Windows registry are left out. They are maps, rows and outcome parameters (`fails`, `writeOk`, `registry`).
- Floating point is modelled as `real`. This covers metres, scroll notches, averages and percentages. The float32 grid is modelled as `int` counts, and rounding is not modelled.
- Number formatting for the cards (thousands separators, two decimals) is left out. The number shown is modelled, not its text.
- `str.lower` and `capitalize` are modelled for ASCII letters only.
- Qt's locale-aware `sortItems` and SQLite's `ORDER BY` are modelled as code-point order. Their tie order for equal keys is not modelled.
- `Common.SortBy`: Python's `sorted` is stable, so equal keys keep their input order. The model's sort promises a sorted permutation only and does not fix that tie order.
- Rendering is left out:
  - Qt layout, styles, icons and tooltips other than the card's;
  - the Gaussian blur, normalisation and colouring of the mouse heatmap, and its cache;
  - the keyboard geometry table;
  - chart colours.
- List selection is modelled as a set of row indices.
- The break reminder, the settings dialog, the tray icon, theme persistence and other tabs outside the named views are not part of this model.
- `get_foreground_time_by_app` and `get_foreground_time_snapshot` do not exist in src/database.py or src/tracker.py. src/database.py:13-80 creates no `app_foreground_time` table either. The screen-time view (src/ui/screen_time_widget.py:387-391) and the exporter's screen-time queries call code that is absent, so the model takes their answers as given rows and buffers.
- `Dashboard.UpdateApps` does not model the `row[i] or 0` cleaning. The model's rows have no NULLs, because summed rows always exist for listed apps.
- `Widgets.MouseHeatmapWidget.ScreenGrid` requires non-negative screen sizes. Qt never reports a negative size, and `np.zeros` would raise on one.
- `Dashboard.KeyboardMerge` adds nothing for an application filter. The snapshot has no `app_heatmap_buffer`, so the source's `.get(..., {})` is always empty.
- `Tracker.InputTracker.OnPress` does not call `on_key_press_callback` (src/tracker.py:374-378). main.py:39-41 never sets it, so it is always `None`, and its exceptions are swallowed anyway.
- The clamping setters of `Settings.Config` take integers. The source's `int(v)` conversion of a float or string argument (src/config.py:174-204) is not modelled.
- `Export.ScreenTimeCsvRow`, `Export.ScreenTimeJson` and `Export.FormatHms` take whole seconds. The source's sums may be fractional, and then `int(total // 3600)` and friends truncate them (src/exporter.py:245-248); the fractional part is not modelled.
- Week and month ranges exclude the unflushed buffer. The source adds the buffer only for `today`, and the model does the same.
- With more than 100 stored apps, an app outside the top 100 appears in today's table with buffer-only counts. `Dashboard.TodayAppsAreCombined` is stated for at most 100 apps.

## Findings

| source | as written | input that shows it | evidently intended | confidence | as-written member | corrected member |
|---|---|---|---|---|---|---|
| src/ui/main_window.py:830-865 | `get_heatmap_range` and `get_mouse_heatmap_range` are called with `app_filter=`, but src/database.py:190 and 211 take no such parameter, so every heatmap update raises `TypeError` (and with it `update_stats` and the window constructor) | any call of `update_heatmap`, e.g. the first timer tick | query the range without the keyword (or add the parameter) and return the range totals | high for the src/database.py on hand, which may be another revision than main_window.py was written against (it also lacks `get_foreground_time_by_app`); not executed | Dashboard.KeyboardHeatmapNeverShown | Dashboard.KeyboardHeatmapShown |
| src/ui/main_window.py:849-852 | for `today` without a filter, the snapshot's `heatmap` (already stored today plus buffer) is added to the stored range again | 5 presses of one key, flushed; the keyboard heatmap then shows 10 | add only the unflushed key buffer, so each press counts once | high; not executed | Dashboard.KeyboardMergeDoubleCounts | Dashboard.TodayKeyboardIsCombined |
