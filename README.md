# Smart water quality dashboard — verified model of its core

This project models the small amount of logic in the browser dashboard of the
smart water quality monitoring system: the `WaterMonitoringSystem` class of
`app.js` and three helpers of `charts.js`.

- **Incoming telemetry** (`handleIncomingData`): a notification's text is split
  on `,`; with three or more pieces, pieces 0, 1 and 2 are shown as pH,
  temperature and turbidity and the "last updated" clock is stamped; with fewer,
  nothing happens. Only the page changes: the sensor table is never written by
  incoming data, and the TDS display is never touched.
- **Display formatting** (`updateSensorUI`): a reading is shown with the
  precision and unit of its sensor's table entry, or with one digit and no unit
  for a sensor without an entry; a page without the sensor's element is left
  alone.
- **Simulation** (`updateAllSensorsSimulated`): each sensor in turn has its
  value moved by its own random variation in [-0.1, 0.1), clamped at zero, and
  is shown; then the clock is stamped.
- **Languages** (`toggleLanguage`, `updateUI`): English and Afaan Oromo swap;
  every `data-i18n` element whose key the current table translates gets that
  text and the others keep theirs.
- **Charts** (`getColorForValue`, `createGaugeChart`, `exportData`): the three
  colour bands of a gauge, its two slices, and the CSV export.

Files: `strings.dfy` (JavaScript `split`/`join` on one character),
`jsvalues.dfy` (text-or-number values, `Option`), `tables.dfy` (the sensor table
and both translation tables, copied from `app.js`), `monitor.dfy` (the class and
the functions that specify it), `charts.dfy`.

The page is stood in for by a map from element id to content and a sequence of
`data-i18n` elements. Numbers are `real`s. The text that
`parseFloat(raw).toFixed(precision) + unit` produces is kept symbolic as
`Formatted(raw, precision, unit)`; JavaScript's number-to-text conversion in the
CSV export is a parameter `show`. The clock's text and the random variations are
parameters too.

Incoming values are never checked against a sensor's `min`/`max`, are not
rounded, and never reach the sensor table; they are only displayed.

Two behaviours of the code the model makes explicit:

- `getColorForValue` with a maximum of zero divides by zero; the model
  gives JavaScript's infinities and NaN. A negative value then
  gives Good, and zero or a positive value gives Danger.
- `exportData` writes `new Date().toLocaleString()` as a bare CSV cell. In
  locales whose date text holds a comma, the data line then splits into six
  cells under a five-column header (`Charts.ExportCommaInTimestamp`).

## Model

| member | source | states |
|---|---|---|
| `Strings.Split` | app.js:165 | `split(',')` gives one more piece than there are commas, and no piece contains a comma |
| `Strings.JoinSplit` | app.js:165 | joining the pieces of a split with the separator gives back the frame |
| `Strings.Join` | charts.js:120 | `join` starts with the first piece, followed by the separator when there is a second |
| `Strings.SplitJoin` | charts.js:120 | splitting a join of separator-free pieces gives the pieces back |
| `Monitor.ElementIdInjective` | app.js:175 | different sensors are shown in different `<sensor>-value` elements |
| `Monitor.DisplayFormat` | app.js:179-180 | the precision and unit of the sensor's table entry, or 1 and no unit without an entry |
| `Monitor.ShowReading` | app.js:174-183 | `updateSensorUI` changes at most the sensor's own element and keeps the set of elements |
| `Monitor.ShowKnownSensor` | app.js:179-181 | a sensor with a table entry is shown with that entry's precision and unit |
| `Monitor.ShowUnknownSensor` | app.js:179-181 | a sensor without an entry is shown with precision 1 and an empty unit |
| `Monitor.ShowMissingElement` | app.js:175-176 | without the sensor's element nothing on the page changes |
| `Monitor.InstalledFormats` | app.js:207-212 | the installed table shows pH, temperature and turbidity with one digit and TDS with none, each with its unit |
| `Monitor.StampTime` | app.js:252-255 | stamping the clock makes the `update-time` element, when there is one, show the time, and changes no other element |
| `Monitor.StampDate` | app.js:246-249 | writing the date changes at most the `currentDate` element, which then shows the date |
| `Monitor.DecodeFrame` | app.js:165-169 | a frame yields fields exactly when it has at least two commas; the fields are the comma-free texts before the first, second and third comma (or the end) |
| `Monitor.DecodeFrameOf` | app.js:165-169 | any three comma-free fields are read back from a frame that starts with them, whatever follows the third comma |
| `Monitor.ApplyFrame` | app.js:165-171 | incoming data keeps the set of elements, changes nothing for a short frame, and writes nothing but the pH, temperature, turbidity and clock elements |
| `Monitor.ShortFrameIgnored` | app.js:166-171 | a frame with fewer than three fields changes nothing, not even the clock |
| `Monitor.ShowFrame` | app.js:167-170 | showing a frame keeps the set of elements and writes nothing but the pH, temperature, turbidity and clock elements |
| `Monitor.FrameWrites` | app.js:166-170 | a complete frame writes pH, temperature and turbidity from fields 0, 1 and 2 in their formats, stamps the clock, and leaves every other element alone |
| `Monitor.FrameKeepsTds` | app.js:166-170 | incoming data never changes the TDS element |
| `Monitor.ExtraFieldsIgnored` | app.js:165-169 | fields after the third do not affect the page |
| `Monitor.ClampAtZero` | app.js:229 | `Math.max(0, x)`: not negative, not below `x`, and either `x` or 0 |
| `Monitor.Simulate` | app.js:226-230 | a tick keeps the set of sensors, leaves every value at least 0, changes each value by exactly its variation unless that would go below 0 (then 0), and changes nothing else in an entry |
| `Monitor.SimulateRunDrift` | app.js:219-229 | over n ticks from non-negative values, every value stays non-negative and within 0.1·n of where it started |
| `Monitor.ShowAll` | app.js:226-231 | showing the sensors one after another keeps the set of elements |
| `Monitor.ShowAllShows` | app.js:226-231 | after showing a list of sensors, each one's element shows its value in its own format, and elements of other sensors are untouched |
| `Monitor.SimulatedDisplay` | app.js:225-233 | after a tick every sensor element shows its new value in its format, the clock shows the time, and every other element is unchanged |
| `Monitor.InitialLanguage` | app.js:18 | the stored language when one is stored and non-empty, otherwise `en`; never empty |
| `Monitor.NextLanguage` | app.js:187 | `en` becomes `om` and every other language becomes `en`; so the result is `en` or `om`, and differs from the input when that was `en` or `om` |
| `Monitor.ToggleTwice` | app.js:187 | toggling twice restores the language exactly when it was `en` or `om` |
| `Monitor.ToggleCaption` | app.js:198 | the language button offers the language a toggle would switch to: "Afaan Oromo" when that is `om`, "English" when it is `en` |
| `Monitor.LangButton` | app.js:196-199 | `updateUI` sets the language button, when there is one, to `ToggleCaption` of the language, and changes no other id element |
| `Monitor.Translate` | app.js:200-203 | every `data-i18n` element whose key the table translates (present, non-empty) gets that text; all others stay as they were; keys and count are kept |
| `Monitor.TranslateOverrides` | app.js:200-203 | translating with a table that covers every key of an earlier one leaves no trace of the earlier one |
| `Tables.InitialSensorData` | app.js:207-212 | the installed table has exactly the four sensors, each starting within its own `min`/`max` |
| `Tables.English` | app.js:21-52 | the English table, entry for entry; no text in it is empty |
| `Tables.Oromo` | app.js:53-84 | the Oromo table, entry for entry; no text in it is empty |
| `Monitor.TableKeys` | app.js:21-84 | the English and Oromo tables have exactly the same keys |
| `Monitor.TablesAgree` | app.js:20-85 | the English and Oromo tables translate the same keys, and no text in them is empty |
| `Monitor.ToggleTwiceRestoresText` | app.js:186-203 | after two toggles from `en` or `om`, every `data-i18n` element reads as after a single `updateUI` in the original language |
| `Monitor.WaterMonitoringSystem.constructor` | app.js:8-101 | installs the sensor table and both translation tables, takes the stored language or `en` when none or an empty one is stored, writes the date, and runs `updateUI` |
| `Monitor.WaterMonitoringSystem.UpdateCurrentTime` | app.js:246-249 | the page becomes the old page with the date written; the sensor table and language are unchanged |
| `Monitor.WaterMonitoringSystem.UpdateSensorUI` | app.js:174-183 | the page becomes `ShowReading` of the old page; the sensor table and language are unchanged |
| `Monitor.WaterMonitoringSystem.UpdateLastUpdatedTime` | app.js:252-255 | the page becomes the old page with the clock stamped |
| `Monitor.WaterMonitoringSystem.HandleIncomingData` | app.js:160-172 | the page becomes `ApplyFrame` of the old page; the sensor table is never written |
| `Monitor.WaterMonitoringSystem.UpdateAllSensorsSimulated` | app.js:225-233 | the sensor table becomes `Simulate` of the old one (same sensors), and the page shows every sensor in order, then the clock |
| `Monitor.WaterMonitoringSystem.SimulateSensor` | app.js:226-230 | one pass of the loop: the next sensor in order is ticked in the table and shown on the page, so the table and page extend the part done so far by that sensor |
| `Monitor.WaterMonitoringSystem.UpdateUI` | app.js:194-204 | relabels the language button and translates every `data-i18n` element; it throws exactly when the language has no table and there is a `data-i18n` element, and then changes no `data-i18n` element (the button is already relabelled) |
| `Monitor.WaterMonitoringSystem.ToggleLanguage` | app.js:186-192 | switches the language by `NextLanguage` and translates the page into it; it cannot throw |
| `Charts.GetColorForValue` | charts.js:105-110 | Good exactly when value/max < 0.4, Warning exactly when 0.4 ≤ value/max < 0.8, Danger exactly when value/max ≥ 0.8; with a zero maximum, Good for a negative value and Danger otherwise |
| `Charts.BoundariesGoToWorseBand` | charts.js:107-109 | a ratio of exactly 0.4 is Warning and one of exactly 0.8 is Danger |
| `Charts.BandMonotone` | charts.js:106-109 | a larger quotient (minus infinity below every ratio, plus infinity above) never has a better band, and NaN has the worst band |
| `Charts.ColorMonotone` | charts.js:105-110 | for a non-negative maximum, zero included, a larger value never has a better colour |
| `Charts.Gauge` | charts.js:66-72 | the gauge's two slices are the value and the rest, and always add up to the maximum; the first is in the band colour, the second grey |
| `Charts.ExportTable` | charts.js:114-117 | two rows: the header, then the timestamp and four numbers, one cell per header column |
| `Charts.ToCsv` | charts.js:119-120 | the CSV starts with the first row's line, followed by a newline when there is another row |
| `Charts.ExportData` | charts.js:113-122 | `"csv"`, and no format at all, give the CSV of the export table; any other format gives the table itself for JSON |
| `Charts.CsvSplitsIntoLines` | charts.js:119-120 | when no cell has a newline, the CSV splits back into one line per row |
| `Charts.CsvLineSplitsIntoCells` | charts.js:119-120 | when no cell has a comma or newline, each line splits back into its row's cells |
| `Charts.ExportStartsWithHeader` | charts.js:114-120 | the first line of the export is `Timestamp,pH,Temperature,Turbidity,TDS` |
| `Charts.ExportShape` | charts.js:114-120 | with a comma-free timestamp, the export is two lines of five cells: the header names, then the timestamp and the four readings |
| `Charts.ExportCommaInTimestamp` | charts.js:116-120 | a timestamp holding a comma makes the data line split into six cells |

## Left out

- `connectToBluetooth` (app.js:127-158), GATT notifications and `TextDecoder`: browser APIs and asynchronous I/O. `HandleIncomingData` takes the decoded text.
- `showNotification`, `injectDynamicStyles`, `initMobileMenu`, `initEventListeners`, `setupAutoTimeUpdate` and the empty `initDataTable`, `initSystemStatus` and `initNotifications`: DOM plumbing with nothing to state.
- `handleRefresh`, bound to the refresh button, is not defined in app.js and is not part of this model.
- Timers (`setInterval`, `setTimeout`, `clearInterval`) and `startAutoRefresh`: the host calls `UpdateAllSensorsSimulated` as the timer would.
- `Math.random`: each sensor's variation is a parameter in [-0.1, 0.1).
- `Date` and its formatting: the clock's text, the date's text and the export timestamp are parameters.
- `localStorage`: the stored language is a constructor parameter; writing it back on a toggle is not modelled.
- `parseFloat`, `toFixed`, number-to-text conversion, IEEE rounding and negative zero: the shown text stays symbolic, and numbers are reals.
- Chart.js rendering, the gauge's drawn label, `initHistoricalChart` and its fixed series, the `Blob`/URL download and its file name, `JSON.stringify`: foreign libraries and I/O.
- The page is split into elements found by id and `data-i18n` elements, as if no element were both. An id element that also carries `data-i18n` (say the language button or a `*-value` element) would in the page have its text from `updateSensorUI` or the button caption overwritten by `updateUI`; the model keeps the two apart.
- Lookups through inherited JavaScript object properties (a sensor or `data-i18n` key such as `constructor`) are modelled as plain map lookups.
- Monitor.WaterMonitoringSystem.constructor: when `updateUI` throws during start-up (a stored language other than `en` or `om`, and at least one `data-i18n` element), the JavaScript constructor throws. The model's constructor discards that outcome and returns the object as it stands.
