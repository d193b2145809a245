# Atmosphère 3D — a verified model of its core

Atmosphère 3D shows air-quality and weather layers on a 3-D globe of the
Earth, with a dashboard and an email service for the city of Djibouti. This
project models in Dafny the parts of it that decide things:

- **the layer catalog** (`Catalog`): the two categories, the fifteen WMS layers
  and the service address table;
- **the globe component** (`LayerResolver`, `Globe`). It turns the active
  layer and the requested time into one WMS overlay request. The NASA and
  EUMETSAT time rules are part of that. It keeps at most one "Active
  Pollutant" overlay on the layer stack, whose 100 ms add is debounced. It
  also handles resizing, rotation, camera moves and snapshots. The component
  is a class whose methods update its fields in place;
- **the application shell** (`App`):
  - the time sent to the globe;
  - the play loop's step;
  - category selection;
  - the export header title;
  - the map export: the capture flag, the composite image and the file name;
- **the Djibouti dashboard** (`Dashboard`):
  - the AQI, UV and dust classifiers;
  - the wind-direction rose;
  - the 24-hour bar series;
  - the weather-code fallbacks;
  - the forecast range bar;
- **the API server's notification service** (`Notifier`):
  - the dust and AQI labels;
  - the half-hourly step that decides which alert and daily emails go out, and
    what it remembers;
  - the email guard and subject;
  - the subscription store, deduplicated;
- **the scheduled daily report job** (`DailyReport`): subscriber extraction
  from the sheet, the send results and their count, and the job's early exits;
- **agreement between the three copies** of the classifiers (`Consistency`).

Shared support:

- `Clock` models `Date` on UTC milliseconds. It covers the civil calendar, the
  setters with JavaScript's roll-over, `toISOString` and the parse of the
  `YYYY-MM-DDTHH:mm:ssZ` form back to an instant.
- `Text` holds decimal rendering and padding, `split(c)[0]`, `replace`, and
  `toUpperCase` as a one-for-one character mapping over ASCII, the accented
  Latin letters and µ.
- `Wrappers` holds `Option`.

Notes on the model:

- Wall-clock time, the network, timers, the canvas and the mail server are
  parameters. For example, `now`, a reading that is `None` when the fetch
  fails, and a `delivers` predicate for the mail server.
- Timers are explicit steps: `FireTimeout`, `AnimationFrame`, `CaptureTimer`
  and one `Tick` per loop iteration.
- A catalog layer's `legend_url` is kept as the parts its address is built
  from (a `Legend`). `Catalog.LegendUrl` writes the address back out.

The code behaves as follows where a reader might expect otherwise:

- Changing the opacity remounts the overlay, because opacity is one of the
  layer effect's dependencies.
- An email alert fires whenever the level is CRITIQUE or ELEVE and differs from
  the level remembered. This includes a fall from CRITIQUE to ELEVE
  (`Notifier.FallingLevelAlerts`), not only a rise.
- A negative wind direction can give no direction at all.
- With a non-zero offset, the time is cut to three hours even for the one-hour
  near-real-time steps.

## Model

| member | source | states |
|---|---|---|
| Catalog.LayerIdsDistinct | frontend/src/config/layers.js:6-175 | The fifteen catalog layers have pairwise distinct ids. |
| Catalog.LayerCategoriesDeclared | frontend/src/config/layers.js:1-175 | Every layer belongs to one of the two declared categories. |
| Catalog.LayerServicesKnown | frontend/src/config/layers.js:6-182 | Every layer's service has a non-empty address in the service table. |
| Catalog.CategoryDeterminesService | frontend/src/config/layers.js:6-175 | Air-quality layers are served by ECMWF and near-real-time weather layers by EUMETSAT. |
| Catalog.EveryCategoryHasLayer | frontend/src/config/layers.js:1-175 | Each category has a layer. The catalog opens with eight air-quality layers, and the ninth is the first weather layer. |
| Text.UpperIdempotent | frontend/src/App.jsx:57 | Upper-casing a title a second time changes nothing. |
| Text.BeforeFirstOfJoin | frontend/src/components/WorldWindMap.jsx:142 | `split(c)[0]` gives back exactly the part written before the first separator. |
| Text.ReplaceAll | frontend/src/App.jsx:249 | Each character in the class is replaced by the substitute; every other character and the length are kept. |
| Text.DecimalValue | frontend/src/components/DjiboutiDashboard.jsx:126 | A rendered number reads back as itself. |
| Clock.DaysFromCivilInverse | frontend/src/components/WorldWindMap.jsx:140-142 | Converting a day number to a civil date and back is the identity. |
| Clock.PreviousDate | frontend/src/components/WorldWindMap.jsx:140-141 | `setDate(getDate() - 1)` moves exactly one day back, across month and year ends too. |
| Clock.IsoSecondsShape | frontend/src/App.jsx:194 | For years 0000–9999 the second-precision ISO text is `YYYY-MM-DDTHH:mm:ssZ`. Its digit groups read back as the date and clock fields. |
| Clock.ParseIsoSecondsInverse | frontend/src/components/WorldWindMap.jsx:146-148 | Parsing the second-precision ISO text of an instant gives that instant truncated to the second. |
| LayerResolver.ServiceAddress | frontend/src/components/WorldWindMap.jsx:134 | The address is always one of the table's URLs. An unknown service falls back to ECMWF's. |
| LayerResolver.DisplayTime | frontend/src/components/WorldWindMap.jsx:136-150 | Services other than NASA and EUMETSAT get the requested time unchanged. |
| LayerResolver.NasaUsesYesterday | frontend/src/components/WorldWindMap.jsx:139-142 | NASA gets yesterday's date as `YYYY-MM-DD`, whatever time was asked for. |
| LayerResolver.EumetsatNeverFuture | frontend/src/components/WorldWindMap.jsx:143-149 | A time sent to EUMETSAT is never after now. A requested time after now becomes exactly the ISO text of now to the second. Any other time, parseable or not, is sent unchanged. |
| LayerResolver.Resolve | frontend/src/components/WorldWindMap.jsx:131-170 | There is a request exactly when a layer is active. Its tiling is always the fixed one: 5 levels, 256 px, 90° tiles, PNG, EPSG:4326, transparent. |
| LayerResolver.ResolveCatalogLayer | frontend/src/components/WorldWindMap.jsx:131-166 | For a catalog layer, the URL comes from the service table and the layer and style names from its record. Air-quality layers keep the requested time; a weather layer's time is never in the future. |
| Globe.TaggedMembers | frontend/src/components/WorldWindMap.jsx:128 | The filter keeps exactly the layers named "Active Pollutant". |
| Globe.WithoutTagged | frontend/src/components/WorldWindMap.jsx:128-129 | Removing the filtered layers from the stack leaves exactly the other layers, in order. |
| Globe.RemoveStep | frontend/src/components/WorldWindMap.jsx:129 | One `removeLayer` call takes exactly that layer out of what remains. |
| Globe.RemoveEach | frontend/src/components/WorldWindMap.jsx:129 | The removal loop leaves the stack minus every removed layer. |
| Globe.WorldWindMap.constructor | frontend/src/components/WorldWindMap.jsx:5-9 | Before mounting, there is no window, no layers, no overlay and no rotation. |
| Globe.WorldWindMap.Initialize | frontend/src/components/WorldWindMap.jsx:28-99 | With a canvas and a window, Blue Marble and the atmosphere are added and the camera is at 20N 0E from 15000 km. Otherwise nothing changes. |
| Globe.WorldWindMap.UpdateLayer | frontend/src/components/WorldWindMap.jsx:123-185 | The previous timer is cancelled. When the window is ready, all overlays are removed and the active layer's overlay waits for its timer. At most one overlay is kept, on the stack or pending. |
| Globe.WorldWindMap.RemoveOverlays | frontend/src/components/WorldWindMap.jsx:127-129 | The stack becomes its untagged layers, in order, with no overlay left. |
| Globe.WorldWindMap.Schedule | frontend/src/components/WorldWindMap.jsx:168-181 | A fresh "Active Pollutant" layer with a new identity waits for its timer. The stack is unchanged, and with no overlay on it the at-most-one-overlay invariant holds. |
| Globe.WorldWindMap.FireTimeout | frontend/src/components/WorldWindMap.jsx:178-181 | The pending overlay is added on top and the globe is redrawn once. |
| Globe.WorldWindMap.SyncCanvasSize | frontend/src/components/WorldWindMap.jsx:60-78 | The canvas takes the container's size and the globe is redrawn only when the size changed. Nothing happens without a canvas or a window. |
| Globe.WorldWindMap.SetAutoRotate | frontend/src/components/WorldWindMap.jsx:102-120 | Turning rotation on turns the globe by 0.1° at once and schedules frames. Turning it off cancels them. |
| Globe.WorldWindMap.AnimationFrame | frontend/src/components/WorldWindMap.jsx:106-112 | A frame turns the globe by 0.1° only while rotating. |
| Globe.WorldWindMap.GoToLocation | frontend/src/components/WorldWindMap.jsx:13-21 | The camera ends at the location, at the given range or 5000 km by default. Nothing happens without a window. |
| Globe.WorldWindMap.CanvasDataUrl | frontend/src/components/WorldWindMap.jsx:22-24 | There is a snapshot exactly when a canvas exists, at the canvas's size. |
| Globe.SwitchTwice | frontend/src/components/WorldWindMap.jsx:123-185 | After two layer switches, each with its timer fired, exactly one overlay is on the globe: the second one. |
| Globe.RapidSwitch | frontend/src/components/WorldWindMap.jsx:177-183 | Two switches within one timer window add only the second overlay. |
| Globe.StopRotation | frontend/src/components/WorldWindMap.jsx:102-119 | Rotation on then off turns the globe by exactly one step, and a later frame does not turn it further. |
| App.CurrentTimeGrid | frontend/src/App.jsx:180-193 | At offset 0 on EUMETSAT, the time is the quarter hour at or just before an hour ago. Otherwise it is the multiple of three hours at or just before now plus the offset. Smaller fields are zero. |
| App.CurrentTimeIsoParses | frontend/src/App.jsx:180-195 | The time string sent to the globe reads back as exactly the derived instant. |
| App.LiveTimeNeverClamped | frontend/src/App.jsx:183-186 | The live EUMETSAT time is never rewritten by the globe's future-time clamp. |
| App.PlayStep | frontend/src/App.jsx:153-157 | An offset never exceeds +48h. A tick adds exactly the increment (1h for near-real-time imagery, 3h otherwise) whenever the sum is at most +48h, and wraps to −24h past it. |
| App.PlayClimb | frontend/src/App.jsx:150-158 | From −24h, the offset climbs by 1h per tick for near-real-time imagery and by 3h otherwise, until it wraps. |
| App.PlayTop | frontend/src/App.jsx:150-158 | The last tick of a period reaches +48h, and the next one wraps to −24h. |
| App.PlayAbove | frontend/src/App.jsx:150-158 | Every tick inside a period is above −24h. |
| App.PlayCycle | frontend/src/App.jsx:150-158 | Playing returns to −24h after exactly one period, and never earlier. |
| App.FirstOfCategory | frontend/src/App.jsx:146 | The first catalog layer of the category, if it has one; `None` exactly when it has none. |
| App.CategoryChange | frontend/src/App.jsx:144-148 | The category is taken. Its first layer, as `find` gives it, becomes active if there is one, else the active layer is kept. |
| App.InitialSelection | frontend/src/App.jsx:130-134 | After loading, the first category is selected and its first layer becomes active. No categories means no selection. |
| App.CatalogSelection | frontend/src/App.jsx:130-148 | Over the catalog, any declared category activates one of its layers, and the application opens on the first air-quality layer. |
| App.DynamicTitle | frontend/src/App.jsx:29-58 | Without a layer, the default titles. Otherwise the subtitle is the layer's label upper-cased. The title is the table title for the layer's id when it has a non-empty one, else the title of its category, upper-cased. |
| App.TitlesCoverCatalog | frontend/src/App.jsx:33-54 | Every catalog layer has its own non-empty title, so the category fallback is never used for the catalog. |
| App.CatalogHeading | frontend/src/App.jsx:29-58 | For every catalog layer the heading is its own table title over its label, both upper-cased. |
| App.TitledHeading | frontend/src/App.jsx:29-58 | A layer with a non-empty table title is headed by that title over its label, both upper-cased. |
| App.ExportFilenameShape | frontend/src/App.jsx:249-251 | The export is named `djibouti-map-export-YYYY-MM-DDTHH-mm-ss.png`, with no ':' or '.' in the stamp. |
| App.Compose | frontend/src/App.jsx:220-244 | The export canvas has the overlay's size. It is filled with the background, the globe is stretched over it if there is a snapshot, and the overlay is drawn last. |
| App.Exporter.Click | frontend/src/App.jsx:197-199 | Capture mode is entered and nothing is downloaded yet. |
| App.Exporter.CaptureTimer | frontend/src/App.jsx:202-260 | One file is downloaded only if the overlay was shown and rasterised and any globe snapshot loaded. Capture mode always ends. |
| App.CaptureOnce | frontend/src/App.jsx:197-260 | The overlay is shown during a capture and hidden after it, and exactly one correctly named file of the overlay's size is saved. |
| App.DoubleClick | frontend/src/App.jsx:197-260 | A second timer after the first capture ended saves nothing. |
| Dashboard.ExceededMonotone | frontend/src/components/DjiboutiDashboard.jsx:27-41 | A higher reading passes at least as many band thresholds. |
| Dashboard.AqiColorByThresholds | frontend/src/components/DjiboutiDashboard.jsx:27-33 | The AQI band is the one indexed by the number of the 50/100/150/200 thresholds exceeded, so a higher AQI never gets a milder band. |
| Dashboard.UvLevelByThresholds | frontend/src/components/DjiboutiDashboard.jsx:35-41 | The UV level is the one indexed by the number of the 2/5/7/10 thresholds exceeded, so a higher index never gets a milder level. |
| Dashboard.DustAlertLevels | frontend/src/components/DjiboutiDashboard.jsx:48-53 | Each dust level holds exactly under its PM10 and wind condition, with the first match winning. |
| Dashboard.DustAlertMonotone | frontend/src/components/DjiboutiDashboard.jsx:48-53 | More dust and more wind never give a milder alert. |
| Dashboard.WindDirSector | frontend/src/components/DjiboutiDashboard.jsx:43-46 | From −22.5° on, the direction is the sector whose centre lies within 22.5° of the angle. |
| Dashboard.WindDirUndefined | frontend/src/components/DjiboutiDashboard.jsx:43-46 | No direction is given exactly for angles below −22.5° whose rounded sector number is not a multiple of 8. |
| Dashboard.WindDirTurns | frontend/src/components/DjiboutiDashboard.jsx:43-46 | The rose repeats every 360°: 0° and 360° are N, and each sector centre gets its name. |
| Dashboard.MarineNorthShownMissing | frontend/src/components/DjiboutiDashboard.jsx:303 | As written, a wave direction of exactly 0° shows "—", though the rose names it N. |
| Dashboard.MarineDirection | frontend/src/components/DjiboutiDashboard.jsx:303 | Corrected: "—" exactly when the direction is missing, and the rose's name for any direction from 0° up. |
| Dashboard.HourlySeries | frontend/src/components/DjiboutiDashboard.jsx:125-131 | The first 24 hourly values become bars, a missing value counting 0. No series gives no bars. |
| Dashboard.HourlySeriesHighlight | frontend/src/components/DjiboutiDashboard.jsx:125-131 | Bar i is highlighted exactly when i is the current hour (`i === getHours()`), so at most one is, and one is exactly when the current hour has a bar. Bar i is labelled i followed by 'h'. |
| Dashboard.HourlySeriesLabels | frontend/src/components/DjiboutiDashboard.jsx:126 | Bar i's label is `ih`, and its number reads back as i. |
| Dashboard.CurrentWeather | frontend/src/components/DjiboutiDashboard.jsx:118 | A known weather code gets its own label and icon. |
| Dashboard.UnknownWeatherIsNA | frontend/src/components/DjiboutiDashboard.jsx:118 | "N/A" and "❓" appear exactly when the code is missing or unknown. |
| Dashboard.ForecastIcon | frontend/src/components/DjiboutiDashboard.jsx:136 | "❓" appears exactly for an unknown forecast code. |
| Dashboard.RangeBarWidth | frontend/src/components/DjiboutiDashboard.jsx:337 | The width is proportional to the temperature range up to 15°, and full at 15° and beyond. |
| Notifier.GetDustAlert | backend/main.py:122-126 | Exactly the four levels, each under its PM10 and wind condition, with the first match winning. |
| Notifier.GetAqiLabel | backend/main.py:128-133 | "Bon" exactly up to 50 and "Dangereux" exactly above 200. |
| Notifier.WeatherLabel | backend/main.py:188 | "Ciel Dégagé" exactly for code 0, and "Nuageux" for every other code. |
| Notifier.DashboardEmail | backend/main.py:135-163 | No message without both an SMTP user and password. Otherwise a message from that user to the subscriber, whose subject marks an alert exactly when it is one and ends in the report title. |
| Notifier.StepRules | backend/main.py:195-208 | Every subscriber is alerted exactly when the level is CRITIQUE or ELEVE and new; the level is remembered, except that MODERE keeps the old one. The daily report goes to everyone exactly when today's has not gone out, and today is remembered. |
| Notifier.TickRules | backend/main.py:166-213 | A failed fetch sends nothing and saves nothing. Otherwise the step rules apply. |
| Notifier.DailyOncePerDate | backend/main.py:165-216 | Over any number of runs on one date, each subscriber gets the daily report once if it was due and some fetch succeeded, and never otherwise. |
| Notifier.SteadyLevelAlertsOnce | backend/main.py:165-216 | While the level holds steady, each subscriber is alerted at most once, and only if the level is CRITIQUE or ELEVE and not the one remembered. |
| Notifier.FallingLevelAlerts | backend/main.py:196-199 | A fall from CRITIQUE to ELEVE alerts again. |
| Notifier.SubscriptionStore.constructor | backend/main.py:113-117 | The store starts from the saved list, with no background tasks scheduled. |
| Notifier.SubscriptionStore.Subscribe | backend/main.py:232-245 | A new address is appended, saved and gets its background tasks; a known one changes nothing. The list stays free of duplicates and the answer is always "ok". |
| Notifier.SubscribeTwice | backend/main.py:232-245 | Subscribing twice stores the address once and schedules its welcome once. |
| DailyReport.GetDustAlert | backend/send_reports.py:101-108 | One of the four levels; NORMAL exactly when PM10 is at most 50. |
| DailyReport.FirstCells | backend/send_reports.py:197 | Exactly the non-empty first cells of the rows, never more than there are rows. |
| DailyReport.FirstCellsAppend | backend/send_reports.py:197 | The first cells of two blocks of rows are those of the first block followed by those of the second: sheet order, one entry per listed row. |
| DailyReport.FirstCellsSingle | backend/send_reports.py:197 | One row gives its first cell when it is non-empty, and nothing otherwise. |
| DailyReport.Subscribers | backend/send_reports.py:197 | Exactly the non-empty first cells of the rows after the header, no empty address, at most one per row. |
| DailyReport.SubscribersBelowHeader | backend/send_reports.py:197 | The header row is skipped: the subscribers are the first cells of the rows below it, in sheet order. |
| DailyReport.SendEmail | backend/send_reports.py:110-148 | Never a success without SMTP credentials. With them, success is the server's answer. |
| DailyReport.ReportSubjectDate | backend/send_reports.py:131 | The subject ends in `dd/mm/YYYY`, whose fields read back as the sending date. |
| DailyReport.CountSentBounds | backend/send_reports.py:219 | The success count is at most the number of sends. It equals that number exactly when all succeeded and is 0 exactly when none did. |
| DailyReport.NoCredentialsNoneSent | backend/send_reports.py:117-119 | Without credentials, no delivery is counted. |
| DailyReport.SendAll | backend/send_reports.py:216-219 | The loop's count is the number of successful sends. |
| DailyReport.ExitCode | backend/send_reports.py:190-213 | Status 0 exactly for "no subscribers" and for a completed report. |
| DailyReport.RunReport | backend/send_reports.py:182-220 | Missing configuration, an unreadable sheet and a failed fetch stop the job. With no subscribers it stops before fetching. Otherwise every subscriber is sent the report and the count is at most the total. |
| Consistency.AqiLabelsAgree | backend/main.py:128-133 | The dashboard's AQI band and the emailed AQI label agree on name and colour for every AQI. |
| Consistency.DustAlertsAgree | backend/main.py:122-126 | The server's dust alert is the dashboard's, with the level written without accents. |
| Consistency.ReportDustAlertAgrees | backend/send_reports.py:101-108 | The daily job's dust classifier is the server's. |
| Consistency.CredentialGuardsAgree | backend/send_reports.py:117-119 | The daily job reports a delivery only where the server would build a message. |

## Left out

- Time zones: local time is taken to be UTC, so `getHours`, `setHours` and `strftime` use UTC fields.
- Clock.ParseIsoSeconds: only the `YYYY-MM-DDTHH:mm:ssZ` form is parsed. Other strings that JavaScript's `Date` would accept are treated as unparseable and passed through.
- Clock.IsoSecondsShape: the text for years outside 0000–9999 (expanded years) is rendered but not proved to parse back.
- Timers, `setInterval`, `requestAnimationFrame` and the `ResizeObserver` are explicit method calls. Their timing and ordering with React renders are not modelled.
- Globe.WorldWindMap.GoToLocation: only the final camera position is modelled, not the animation towards it.
- WebGL rendering, the WMS tile URLs, html2canvas rasterisation and image decoding are inputs (`Snapshot`, `rasterised`, `mapLoads`), not computed.
- The export header's date line and SOURCE line, the legend and the `MiniBarChart` SVG geometry are presentation only.
- The network fetches (Open-Meteo, the layer API), SMTP, Google Sheets and the JSON files are parameters. The email HTML templates are not rendered.
- The Google Sheets logging and the welcome report are recorded as scheduled background tasks (`scheduled`), not executed.
- Notifier.Run: each run uses the same subscriber list and date, and a failed iteration is modelled as a failed fetch. The 30-minute sleep is not modelled.
- DailyReport.RunReport: all sends of one run share one date. Concurrent sends are modelled in list order.
- Text.UpperChar: upper-casing maps one character to one character and covers ASCII, the accented Latin letters and µ, the characters the catalog and titles use. 'ß' is left unchanged, while `toUpperCase` turns it into the two characters "SS", so `Text.Upper`'s length-preserving contract does not hold for it in JavaScript. No catalog label or title contains 'ß'. Other Unicode case mappings, including other multi-character ones, are not modelled.
- Floating point: readings are reals. NaN, infinities and rounding are not modelled.
- App.Exporter.CaptureTimer: a capture is one atomic step. In the page, the timer's callback awaits the rasterisation and the snapshot's load. Two captures can then overlap: the second timer finds the overlay still shown and saves a second file, and the first capture's `finally` clears `isCapturing` while the second runs. Overlapping captures are not modelled, and App.DoubleClick covers only the order in which the first capture has finished.
- App.DynamicTitle: the lookup by layer id ignores inherited JavaScript object keys (such as `constructor`), which no catalog id uses.
- The category chosen at play start is modelled as the play step's parameter. The interval's stale capture of that category is not modelled.

## Findings

| source | as written | input that shows it | evidently intended | confidence | as-written member | corrected member |
|---|---|---|---|---|---|---|
| frontend/src/components/DjiboutiDashboard.jsx:303 | `wave_direction ? getWindDir(wave_direction) : '—'` treats 0 as missing | a wave direction of exactly 0° (due north) shows "—" | "—" only when the direction is missing, and "N" for 0° | not executed | Dashboard.MarineNorthShownMissing | Dashboard.MarineDirection |
