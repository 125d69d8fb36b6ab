/** The `WaterMonitoringSystem` class of app.js: how a telemetry frame, a
    simulated tick and a language switch change what the page shows.

    The page is stood in for by two collections: `elements`, the text of the
    elements looked up by id, and `labels`, the elements that carry a
    `data-i18n` key. A number shown on the page is kept symbolic:
    `Formatted(raw, precision, unit)` stands for the text
    `parseFloat(raw).toFixed(precision) + unit`. */
module Monitor {
  import opened JsValues
  import opened Strings
  import opened Tables

  /** What an element shows. */
  datatype Content = Text(text: string) | Formatted(raw: Value, precision: nat, unit: string)

  /** An element carrying a `data-i18n` key, with its current inner HTML. */
  datatype Label = Label(key: string, html: string)

  /** How a sensor's reading is shown. */
  datatype Format = Format(precision: nat, unit: string)

  /** The three positional fields of a telemetry frame. */
  datatype Frame = Frame(ph: string, temperature: string, turbidity: string)

  const UpdateTimeId: string := "update-time"
  const LangToggleId: string := "lang-toggle"
  const CurrentDateId: string := "currentDate"

  /** The id of the element that shows a sensor's reading. */
  function ElementId(sensor: string): string
  {
    sensor + "-value"
  }

  /** Different sensors are shown in different elements. */
  lemma ElementIdInjective(a: string, b: string)
    requires ElementId(a) == ElementId(b)
    ensures a == b
  {
    assert a == ElementId(a)[..|a|];
    assert b == ElementId(b)[..|b|];
  }

  /** Neither the clock element nor the language button is a sensor element. */
  lemma ElementIdNotFixed(sensor: string)
    ensures ElementId(sensor) != UpdateTimeId
    ensures ElementId(sensor) != LangToggleId
  {
    var id := ElementId(sensor);
    assert id[|id| - 2] == 'u';
    assert UpdateTimeId[|UpdateTimeId| - 2] == 'm';
    assert LangToggleId[|LangToggleId| - 2] == 'l';
  }

  // ---------------------------------------------------------------------
  // updateSensorUI

  /** The precision and unit `updateSensorUI` uses for a sensor: the table's
      when the sensor has an entry, one digit and no unit otherwise. */
  function DisplayFormat(data: map<string, SensorEntry>, sensor: string): (f: Format)
    ensures sensor in data ==> f.precision == data[sensor].precision && f.unit == data[sensor].unit
    ensures sensor !in data ==> f.precision == 1 && f.unit == ""
  {
    if sensor in data then Format(data[sensor].precision, data[sensor].unit)
    else Format(1, "")
  }

  /** The page after `updateSensorUI(sensor, raw)`: the sensor's element, if
      the page has one, shows `raw` in the sensor's format; nothing else
      changes. */
  function ShowReading(elements: map<string, Content>, data: map<string, SensorEntry>,
                       sensor: string, raw: Value): (r: map<string, Content>)
    ensures r.Keys == elements.Keys
    ensures forall k :: k in elements && k != ElementId(sensor) ==> r[k] == elements[k]
  {
    var id := ElementId(sensor);
    if id in elements then
      var f := DisplayFormat(data, sensor);
      elements[id := Formatted(raw, f.precision, f.unit)]
    else elements
  }

  /** A sensor with a table entry is shown with that entry's precision and
      unit. */
  lemma ShowKnownSensor(elements: map<string, Content>, data: map<string, SensorEntry>,
                        sensor: string, raw: Value)
    requires sensor in data && ElementId(sensor) in elements
    ensures ShowReading(elements, data, sensor, raw)[ElementId(sensor)]
         == Formatted(raw, data[sensor].precision, data[sensor].unit)
  {
  }

  /** A sensor without a table entry is shown with one digit and no unit. */
  lemma ShowUnknownSensor(elements: map<string, Content>, data: map<string, SensorEntry>,
                          sensor: string, raw: Value)
    requires sensor !in data && ElementId(sensor) in elements
    ensures ShowReading(elements, data, sensor, raw)[ElementId(sensor)] == Formatted(raw, 1, "")
  {
  }

  /** Without an element for the sensor, nothing on the page changes. */
  lemma ShowMissingElement(elements: map<string, Content>, data: map<string, SensorEntry>,
                           sensor: string, raw: Value)
    requires ElementId(sensor) !in elements
    ensures ShowReading(elements, data, sensor, raw) == elements
  {
  }

  /** The formats of the installed table: one digit for pH, temperature and
      turbidity, none for TDS, with their units. */
  lemma InstalledFormats()
    ensures DisplayFormat(InitialSensorData(), "ph") == Format(1, "")
    ensures DisplayFormat(InitialSensorData(), "temperature") == Format(1, "\U{00B0}C")
    ensures DisplayFormat(InitialSensorData(), "turbidity") == Format(1, " NTU")
    ensures DisplayFormat(InitialSensorData(), "tds") == Format(0, " ppm")
  {
  }

  /** The page after `updateLastUpdatedTime`, `now` being the clock's text. */
  function StampTime(elements: map<string, Content>, now: string): (r: map<string, Content>)
    ensures r.Keys == elements.Keys
    ensures UpdateTimeId in elements ==> r[UpdateTimeId] == Text(now)
    ensures forall k :: k in elements && k != UpdateTimeId ==> r[k] == elements[k]
  {
    if UpdateTimeId in elements then elements[UpdateTimeId := Text(now)] else elements
  }

  /** The page after `updateCurrentTime`, `today` being the date's text. */
  function StampDate(elements: map<string, Content>, today: string): (r: map<string, Content>)
    ensures r.Keys == elements.Keys
    ensures CurrentDateId in elements ==> r[CurrentDateId] == Text(today)
    ensures forall k :: k in elements && k != CurrentDateId ==> r[k] == elements[k]
  {
    if CurrentDateId in elements then elements[CurrentDateId := Text(today)] else elements
  }

  // ---------------------------------------------------------------------
  // handleIncomingData

  /** The fields `handleIncomingData` takes from a frame: the first three
      comma-separated pieces, or nothing when there are fewer than three.
      The fields are exactly the text before the first, between the first
      and second, and between the second and third comma (or the end). */
  function DecodeFrame(text: string): (r: Option<Frame>)
    ensures r.None? <==> Count(text, ',') < 2
    ensures r.Some? ==>
      var f := r.value;
      var n := |f.ph| + |f.temperature| + |f.turbidity| + 2;
      ',' !in f.ph && ',' !in f.temperature && ',' !in f.turbidity &&
      n <= |text| && text[..n] == f.ph + "," + f.temperature + "," + f.turbidity &&
      (n == |text| || text[n] == ',')
  {
    var parts := Split(text, ',');
    if |parts| >= 3 then
      FramePrefix(parts);
      JoinSplit(text, ',');
      Some(Frame(parts[0], parts[1], parts[2]))
    else None
  }

  /** The join of three or more pieces begins with the first three, followed
      by the end of the text or another comma. */
  lemma FramePrefix(parts: seq<string>)
    requires |parts| >= 3
    ensures var n := |parts[0]| + |parts[1]| + |parts[2]| + 2;
      var s := Join(parts, ',');
      n <= |s| && s[..n] == parts[0] + "," + parts[1] + "," + parts[2] &&
      (n == |s| || s[n] == ',')
  {
    var head := parts[0] + "," + parts[1] + "," + parts[2];
    var tail := if |parts| == 3 then [] else "," + Join(parts[3..], ',');
    assert parts[1..][1..] == parts[2..];
    assert Join(parts[2..], ',') == parts[2] + tail by {
      if |parts| > 3 {
        assert parts[2..][1..] == parts[3..];
      }
    }
    assert Join(parts[1..], ',') == parts[1] + "," + (parts[2] + tail);
    assert Join(parts, ',') == parts[0] + "," + (parts[1] + "," + (parts[2] + tail));
    assert Join(parts, ',') == head + tail;
  }

  /** Any three comma-free fields are read back from a frame that starts
      with them, whatever follows the third comma. */
  lemma DecodeFrameOf(ph: string, temperature: string, turbidity: string, rest: string)
    requires ',' !in ph && ',' !in temperature && ',' !in turbidity
    requires rest == [] || rest[0] == ','
    ensures DecodeFrame(ph + "," + temperature + "," + turbidity + rest)
         == Some(Frame(ph, temperature, turbidity))
  {
    FirstThreePieces(ph, temperature, turbidity, rest, ',');
  }

  /** The page after the three fields of a frame are shown, at clock time
      `now`: pH, temperature and turbidity, then the clock. */
  function ShowFrame(elements: map<string, Content>, data: map<string, SensorEntry>,
                     f: Frame, now: string): (r: map<string, Content>)
    ensures r.Keys == elements.Keys
    ensures forall k :: k in elements && k !in FrameIds() ==> r[k] == elements[k]
  {
    var e1 := ShowReading(elements, data, "ph", Str(f.ph));
    var e2 := ShowReading(e1, data, "temperature", Str(f.temperature));
    var e3 := ShowReading(e2, data, "turbidity", Str(f.turbidity));
    StampTime(e3, now)
  }

  /** The elements a frame may write: the three sensor elements and the
      clock. */
  function FrameIds(): set<string>
  {
    {ElementId("ph"), ElementId("temperature"), ElementId("turbidity"), UpdateTimeId}
  }

  /** The page after `handleIncomingData` receives `text` at clock time
      `now`: the frame's fields shown, or no change at all for a frame with
      fewer than three fields. */
  function ApplyFrame(elements: map<string, Content>, data: map<string, SensorEntry>,
                      text: string, now: string): (r: map<string, Content>)
    ensures r.Keys == elements.Keys
    ensures DecodeFrame(text).None? ==> r == elements
    ensures forall k :: k in elements && k !in FrameIds() ==> r[k] == elements[k]
  {
    match DecodeFrame(text)
    case None => elements
    case Some(f) => ShowFrame(elements, data, f, now)
  }

  /** A frame with fewer than two commas (fewer than three fields) changes
      nothing, not even the clock. */
  lemma ShortFrameIgnored(elements: map<string, Content>, data: map<string, SensorEntry>,
                          text: string, now: string)
    requires Count(text, ',') < 2
    ensures ApplyFrame(elements, data, text, now) == elements
  {
  }

  /** Showing a frame writes exactly the pH, temperature and turbidity
      elements (from fields 0, 1 and 2, in each sensor's format) and the
      clock; the TDS element and every other element keep their text. */
  lemma FrameWrites(elements: map<string, Content>, data: map<string, SensorEntry>,
                    f: Frame, now: string)
    ensures var r := ShowFrame(elements, data, f, now);
      r.Keys == elements.Keys &&
      ("ph-value" in elements ==>
         r["ph-value"] == Formatted(Str(f.ph), DisplayFormat(data, "ph").precision, DisplayFormat(data, "ph").unit)) &&
      ("temperature-value" in elements ==>
         r["temperature-value"] == Formatted(Str(f.temperature), DisplayFormat(data, "temperature").precision, DisplayFormat(data, "temperature").unit)) &&
      ("turbidity-value" in elements ==>
         r["turbidity-value"] == Formatted(Str(f.turbidity), DisplayFormat(data, "turbidity").precision, DisplayFormat(data, "turbidity").unit)) &&
      (UpdateTimeId in elements ==> r[UpdateTimeId] == Text(now)) &&
      (forall k :: k in elements && k !in {"ph-value", "temperature-value", "turbidity-value", UpdateTimeId} ==> r[k] == elements[k])
  {
    var e1 := ShowReading(elements, data, "ph", Str(f.ph));
    var e2 := ShowReading(e1, data, "temperature", Str(f.temperature));
    assert ElementId("ph") == "ph-value";
    assert ElementId("temperature") == "temperature-value";
    assert ElementId("turbidity") == "turbidity-value";
    assert "ph-value" in elements ==> e2["ph-value"] == e1["ph-value"];
  }

  /** The TDS element is never written by incoming data. */
  lemma FrameKeepsTds(elements: map<string, Content>, data: map<string, SensorEntry>,
                      text: string, now: string)
    requires "tds-value" in elements
    ensures var r := ApplyFrame(elements, data, text, now);
      "tds-value" in r && r["tds-value"] == elements["tds-value"]
  {
    if DecodeFrame(text).Some? {
      FrameWrites(elements, data, DecodeFrame(text).value, now);
    }
  }

  /** Text after the third field never matters. */
  lemma ExtraFieldsIgnored(elements: map<string, Content>, data: map<string, SensorEntry>,
                           ph: string, temperature: string, turbidity: string, rest: string, now: string)
    requires ',' !in ph && ',' !in temperature && ',' !in turbidity
    requires rest == [] || rest[0] == ','
    ensures ApplyFrame(elements, data, ph + "," + temperature + "," + turbidity + rest, now)
         == ApplyFrame(elements, data, ph + "," + temperature + "," + turbidity, now)
  {
    DecodeFrameOf(ph, temperature, turbidity, rest);
    DecodeFrameOf(ph, temperature, turbidity, []);
    assert ph + "," + temperature + "," + turbidity + [] == ph + "," + temperature + "," + turbidity;
  }

  // ---------------------------------------------------------------------
  // updateAllSensorsSimulated

  /** `Math.max(0, x)`. */
  function ClampAtZero(x: real): (r: real)
    ensures r >= 0.0 && r >= x
    ensures r == x || r == 0.0
  {
    if x > 0.0 then x else 0.0
  }

  /** One simulated tick for every sensor: the value moves by the sensor's
      variation and is clamped at zero; nothing else in the entry changes. */
  function Simulate(data: map<string, SensorEntry>, variation: map<string, real>): (r: map<string, SensorEntry>)
    requires data.Keys <= variation.Keys
    ensures r.Keys == data.Keys
    ensures forall s :: s in r ==> r[s].value >= 0.0
    ensures forall s :: s in r ==> r[s].(value := data[s].value) == data[s]
    ensures forall s :: s in r ==>
      if data[s].value + variation[s] >= 0.0 then r[s].value == data[s].value + variation[s]
      else r[s].value == 0.0
  {
    map s | s in data :: Tick(data[s], variation[s])
  }

  /** One sensor's entry after a simulated tick. */
  function Tick(entry: SensorEntry, variation: real): SensorEntry
  {
    entry.(value := ClampAtZero(entry.value + variation))
  }

  /** A tick applied only to the sensors in `keys`: the state of the table
      part-way through `updateAllSensorsSimulated`. */
  function SimulateOnly(data: map<string, SensorEntry>, variation: map<string, real>, keys: seq<string>): map<string, SensorEntry>
    requires data.Keys <= variation.Keys
  {
    map s | s in data :: if s in keys then Tick(data[s], variation[s]) else data[s]
  }

  /** Ticking the next sensor in order extends the part done so far. */
  lemma SimulateOnlyStep(data: map<string, SensorEntry>, variation: map<string, real>, i: nat)
    requires data.Keys <= variation.Keys
    requires i < |SensorOrder| && SensorOrder[i] in data
    ensures var sensor := SensorOrder[i];
      var done := SimulateOnly(data, variation, SensorOrder[..i]);
      sensor in done && done[sensor] == data[sensor] &&
      done[sensor := Tick(done[sensor], variation[sensor])] == SimulateOnly(data, variation, SensorOrder[..i + 1])
  {
    var sensor := SensorOrder[i];
    SensorOrderDistinct();
    assert sensor !in SensorOrder[..i];
    assert SensorOrder[..i + 1] == SensorOrder[..i] + [sensor];
  }

  /** Before the loop nothing is ticked; after it, every sensor is. */
  lemma SimulateOnlyAll(data: map<string, SensorEntry>, variation: map<string, real>)
    requires data.Keys <= variation.Keys
    requires forall s :: s in data ==> s in SensorOrder
    ensures SimulateOnly(data, variation, []) == data
    ensures SimulateOnly(data, variation, SensorOrder) == Simulate(data, variation)
  {
  }

  /** Each variation of `Math.random` lies in [-0.1, 0.1). */
  ghost predicate SmallVariations(variation: map<string, real>)
  {
    forall s :: s in variation ==> -0.1 <= variation[s] < 0.1
  }

  /** Sensor values are not negative. */
  ghost predicate NonNegative(data: map<string, SensorEntry>)
  {
    forall s :: s in data ==> data[s].value >= 0.0
  }

  /** A run of simulated ticks. */
  function SimulateRun(data: map<string, SensorEntry>, ticks: seq<map<string, real>>): map<string, SensorEntry>
    requires forall i :: 0 <= i < |ticks| ==> data.Keys <= ticks[i].Keys
    decreases |ticks|
  {
    if |ticks| == 0 then data else SimulateRun(Simulate(data, ticks[0]), ticks[1..])
  }

  /** Over `n` ticks from non-negative values, each value stays non-negative
      and moves by less than 0.1 per tick. */
  lemma {:induction false} SimulateRunDrift(data: map<string, SensorEntry>, ticks: seq<map<string, real>>)
    requires forall i :: 0 <= i < |ticks| ==> data.Keys <= ticks[i].Keys && SmallVariations(ticks[i])
    requires NonNegative(data)
    ensures var r := SimulateRun(data, ticks);
      r.Keys == data.Keys && NonNegative(r) &&
      forall s :: s in r ==>
        data[s].value - 0.1 * |ticks| as real <= r[s].value <= data[s].value + 0.1 * |ticks| as real
    decreases |ticks|
  {
    if |ticks| > 0 {
      var next := Simulate(data, ticks[0]);
      assert forall s :: s in next ==> data[s].value - 0.1 <= next[s].value < data[s].value + 0.1;
      SimulateRunDrift(next, ticks[1..]);
    }
  }

  /** The page after every sensor element is shown with the given table's
      values, sensor by sensor in the order of `keys`. */
  function ShowAll(elements: map<string, Content>, data: map<string, SensorEntry>, keys: seq<string>): (r: map<string, Content>)
    requires forall i :: 0 <= i < |keys| ==> keys[i] in data
    ensures r.Keys == elements.Keys
    decreases |keys|
  {
    if |keys| == 0 then elements
    else
      var last := keys[|keys| - 1];
      ShowReading(ShowAll(elements, data, keys[..|keys| - 1]), data, last, Num(data[last].value))
  }

  /** The sensor order lists each sensor once. */
  lemma SensorOrderDistinct()
    ensures forall a, b :: 0 <= a < b < |SensorOrder| ==> SensorOrder[a] != SensorOrder[b]
  {
  }

  /** Showing a sensor depends only on that sensor's own table entry. */
  lemma ShowReadingLocal(elements: map<string, Content>, data1: map<string, SensorEntry>,
                         data2: map<string, SensorEntry>, sensor: string, raw: Value)
    requires sensor in data1 && sensor in data2 && data1[sensor] == data2[sensor]
    ensures ShowReading(elements, data1, sensor, raw) == ShowReading(elements, data2, sensor, raw)
  {
  }

  /** `ShowAll` over one more key shows that key last. */
  lemma ShowAllStep(elements: map<string, Content>, data: map<string, SensorEntry>, keys: seq<string>, i: nat)
    requires forall j :: 0 <= j < |keys| ==> keys[j] in data
    requires i < |keys|
    ensures ShowAll(elements, data, keys[..i + 1])
         == ShowReading(ShowAll(elements, data, keys[..i]), data, keys[i], Num(data[keys[i]].value))
  {
    assert keys[..i + 1][..i] == keys[..i];
  }

  /** After `ShowAll`, every listed sensor that has an element shows its value
      in its own format, and elements of unlisted sensors are untouched. */
  lemma {:induction false} ShowAllShows(elements: map<string, Content>, data: map<string, SensorEntry>, keys: seq<string>)
    requires forall i :: 0 <= i < |keys| ==> keys[i] in data
    ensures var r := ShowAll(elements, data, keys);
      r.Keys == elements.Keys &&
      (forall s :: s in keys && ElementId(s) in elements ==>
         r[ElementId(s)] == Formatted(Num(data[s].value), data[s].precision, data[s].unit)) &&
      (forall k :: k in elements && (forall s :: s in keys ==> k != ElementId(s)) ==> r[k] == elements[k])
    decreases |keys|
  {
    if |keys| > 0 {
      var init := keys[..|keys| - 1];
      var last := keys[|keys| - 1];
      ShowAllShows(elements, data, init);
      forall s | s in keys && ElementId(s) != ElementId(last)
        ensures s in init
      {
        var i :| 0 <= i < |keys| && keys[i] == s;
        if i == |keys| - 1 { assert false; }
        assert init[i] == s;
      }
      forall s | s in keys && ElementId(s) == ElementId(last)
        ensures s == last
      {
        ElementIdInjective(s, last);
      }
    }
  }

  /** The page after a simulated tick: every sensor element shows its new
      value in its sensor's format, the clock shows `now`, and every other
      element keeps its text. */
  lemma SimulatedDisplay(elements: map<string, Content>, data: map<string, SensorEntry>,
                         variation: map<string, real>, now: string)
    requires forall s :: s in data <==> s in SensorOrder
    requires data.Keys <= variation.Keys
    ensures var d := Simulate(data, variation);
      var r := StampTime(ShowAll(elements, d, SensorOrder), now);
      r.Keys == elements.Keys &&
      (forall s :: s in SensorOrder && ElementId(s) in elements ==>
         r[ElementId(s)] == Formatted(Num(d[s].value), d[s].precision, d[s].unit)) &&
      (UpdateTimeId in elements ==> r[UpdateTimeId] == Text(now)) &&
      (forall k :: k in elements && k != UpdateTimeId && (forall s :: s in SensorOrder ==> k != ElementId(s)) ==>
         r[k] == elements[k])
  {
    var d := Simulate(data, variation);
    ShowAllShows(elements, d, SensorOrder);
    forall s | s in SensorOrder
      ensures ElementId(s) != UpdateTimeId
    {
      ElementIdNotFixed(s);
    }
  }

  // ---------------------------------------------------------------------
  // toggleLanguage and updateUI

  /** The language `localStorage` yields at start-up: the stored one, or
      English when none (or an empty one) is stored. */
  function InitialLanguage(stored: Option<string>): (lang: string)
    ensures lang != ""
    ensures stored.Some? && stored.value != "" ==> lang == stored.value
    ensures stored.None? || stored.value == "" ==> lang == "en"
  {
    if stored.Some? && stored.value != "" then stored.value else "en"
  }

  /** `toggleLanguage`: English becomes Afaan Oromo; anything else becomes
      English. */
  function NextLanguage(lang: string): (r: string)
    ensures r == "en" || r == "om"
    ensures r != lang || lang !in {"en", "om"}
    ensures lang == "en" ==> r == "om"
    ensures lang != "en" ==> r == "en"
  {
    if lang == "en" then "om" else "en"
  }

  /** Toggling twice restores exactly the two known languages. */
  lemma ToggleTwice(lang: string)
    ensures NextLanguage(NextLanguage(lang)) == lang <==> lang == "en" || lang == "om"
  {
  }

  /** The caption of the language button: it offers the other language. */
  function ToggleCaption(lang: string): (caption: string)
    ensures NextLanguage(lang) == "om" ==> caption == LanguageIcon + "Afaan Oromo"
    ensures NextLanguage(lang) == "en" ==> caption == LanguageIcon + "English"
  {
    if lang == "en" then "<i class=\"fas fa-language\"></i> Afaan Oromo"
    else "<i class=\"fas fa-language\"></i> English"
  }

  /** The icon in front of the language button's caption. */
  const LanguageIcon: string := "<i class=\"fas fa-language\"></i> "

  /** The page's id elements after `updateUI`: only the language button. */
  function LangButton(elements: map<string, Content>, lang: string): (r: map<string, Content>)
    ensures r.Keys == elements.Keys
    ensures LangToggleId in elements ==> r[LangToggleId] == Text(ToggleCaption(lang))
    ensures forall k :: k in elements && k != LangToggleId ==> r[k] == elements[k]
  {
    if LangToggleId in elements then elements[LangToggleId := Text(ToggleCaption(lang))] else elements
  }

  /** `langData[key]` is truthy: the key is in the table with non-empty text. */
  predicate Translates(table: map<string, string>, key: string)
  {
    key in table && table[key] != ""
  }

  /** One `data-i18n` element after `updateUI` with the given table. */
  function Relabel(element: Label, table: map<string, string>): Label
  {
    if Translates(table, element.key) then element.(html := table[element.key]) else element
  }

  /** All `data-i18n` elements after `updateUI` with the given table: the ones
      whose key the table translates get that text, the others keep theirs. */
  function Translate(labels: seq<Label>, table: map<string, string>): (r: seq<Label>)
    ensures |r| == |labels|
    ensures forall i :: 0 <= i < |labels| ==> r[i].key == labels[i].key
    ensures forall i :: 0 <= i < |labels| && Translates(table, labels[i].key) ==> r[i].html == table[labels[i].key]
    ensures forall i :: 0 <= i < |labels| && !Translates(table, labels[i].key) ==> r[i] == labels[i]
  {
    seq(|labels|, i requires 0 <= i < |labels| => Relabel(labels[i], table))
  }

  /** Translating with a table that covers every key the first one
      translated erases all trace of the first. */
  lemma TranslateOverrides(labels: seq<Label>, first: map<string, string>, second: map<string, string>)
    requires forall k :: Translates(first, k) ==> Translates(second, k)
    ensures Translate(Translate(labels, first), second) == Translate(labels, second)
  {
    var a := Translate(Translate(labels, first), second);
    var b := Translate(labels, second);
    forall i | 0 <= i < |labels|
      ensures a[i] == b[i]
    {
      if Translates(second, labels[i].key) {
      } else {
        assert !Translates(first, labels[i].key);
      }
    }
  }

  /** Two tables translate the same keys. */
  ghost predicate SameKeys(a: map<string, string>, b: map<string, string>)
  {
    forall k :: Translates(a, k) <==> Translates(b, k)
  }

  /** The English and Oromo tables translate the same keys, and every text
      in them is non-empty. */
  lemma TablesAgree()
    ensures SameKeys(English(), Oromo())
    ensures forall k :: k in English() ==> Translates(English(), k)
  {
    TableKeys();
  }

  /** Both tables have the same keys. */
  lemma TableKeys()
    ensures English().Keys == Oromo().Keys
  {
  }

  /** Toggling the language twice from English or Oromo leaves every
      `data-i18n` element as a single `updateUI` in that language would. */
  lemma ToggleTwiceRestoresText(lang: string, labels: seq<Label>)
    requires lang == "en" || lang == "om"
    ensures var other := Translations()[NextLanguage(lang)];
      var mine := Translations()[NextLanguage(NextLanguage(lang))];
      Translate(Translate(labels, other), mine) == Translate(labels, Translations()[lang])
  {
    TablesAgree();
    TranslateOverrides(labels, Translations()[NextLanguage(lang)], Translations()[lang]);
  }

  // ---------------------------------------------------------------------
  // The class

  class WaterMonitoringSystem {
    /** `this.sensorData`. */
    var sensorData: map<string, SensorEntry>
    /** `this.currentLang`. */
    var currentLang: string
    /** Text of the page's elements, by id. */
    var elements: map<string, Content>
    /** The page's `data-i18n` elements, in document order. */
    var labels: seq<Label>
    /** `this.translations`. */
    const translations: map<string, map<string, string>>

    /** The sensor table always has the installed sensors, and both
        languages have tables. */
    ghost predicate Valid()
      reads this
    {
      (forall s :: s in sensorData <==> s in SensorOrder) &&
      "en" in translations && "om" in translations
    }

    /** `new WaterMonitoringSystem()` on a page with the given elements and
        `data-i18n` elements, `stored` being the language `localStorage`
        holds and `today` the date's text: installs the sensor table, picks
        the language, writes the date (`updateCurrentTime`), and runs
        `updateUI`. */
    constructor (stored: Option<string>, page: map<string, Content>, i18n: seq<Label>, today: string)
      ensures Valid()
      ensures translations == Translations()
      ensures sensorData == InitialSensorData()
      ensures currentLang == InitialLanguage(stored)
      ensures elements == LangButton(StampDate(page, today), currentLang)
      ensures labels == if currentLang in translations then Translate(i18n, translations[currentLang]) else i18n
    {
      sensorData := InitialSensorData();
      currentLang := InitialLanguage(stored);
      elements := page;
      labels := i18n;
      translations := Translations();
      new;
      UpdateCurrentTime(today);
      var _ := UpdateUI();
    }

    /** `updateCurrentTime`. */
    method UpdateCurrentTime(today: string)
      modifies this
      ensures elements == StampDate(old(elements), today)
      ensures sensorData == old(sensorData) && currentLang == old(currentLang) && labels == old(labels)
    {
      if CurrentDateId in elements {
        elements := elements[CurrentDateId := Text(today)];
      }
    }

    /** `updateSensorUI(sensor, raw)`. */
    method UpdateSensorUI(sensor: string, raw: Value)
      modifies this
      ensures elements == ShowReading(old(elements), sensorData, sensor, raw)
      ensures sensorData == old(sensorData) && currentLang == old(currentLang) && labels == old(labels)
    {
      var id := ElementId(sensor);
      if id in elements {
        var precision := if sensor in sensorData then sensorData[sensor].precision else 1;
        var unit := if sensor in sensorData then sensorData[sensor].unit else "";
        elements := elements[id := Formatted(raw, precision, unit)];
      }
    }

    /** `updateLastUpdatedTime`, `now` being the clock's text. */
    method UpdateLastUpdatedTime(now: string)
      modifies this
      ensures elements == StampTime(old(elements), now)
      ensures sensorData == old(sensorData) && currentLang == old(currentLang) && labels == old(labels)
    {
      if UpdateTimeId in elements {
        elements := elements[UpdateTimeId := Text(now)];
      }
    }

    /** `handleIncomingData` on the decoded text of one notification. Only
        the page changes: the sensor table is never written. */
    method HandleIncomingData(text: string, now: string)
      modifies this
      ensures elements == ApplyFrame(old(elements), sensorData, text, now)
      ensures sensorData == old(sensorData) && currentLang == old(currentLang) && labels == old(labels)
    {
      var parts := Split(text, ',');
      if |parts| >= 3 {
        UpdateSensorUI("ph", Str(parts[0]));
        UpdateSensorUI("temperature", Str(parts[1]));
        UpdateSensorUI("turbidity", Str(parts[2]));
        UpdateLastUpdatedTime(now);
      }
    }

    /** `updateAllSensorsSimulated`, `variation[s]` being the draw of
        `(Math.random() - 0.5) * 0.2` for sensor `s`. */
    method UpdateAllSensorsSimulated(variation: map<string, real>, now: string)
      requires Valid()
      requires sensorData.Keys <= variation.Keys && SmallVariations(variation)
      modifies this
      ensures Valid()
      ensures sensorData == Simulate(old(sensorData), variation)
      ensures elements == StampTime(ShowAll(old(elements), sensorData, SensorOrder), now)
      ensures currentLang == old(currentLang) && labels == old(labels)
    {
      ghost var data0 := sensorData;
      ghost var elements0 := elements;
      ghost var target := Simulate(data0, variation);
      var i := 0;
      while i < |SensorOrder|
        invariant 0 <= i <= |SensorOrder|
        invariant sensorData == SimulateOnly(data0, variation, SensorOrder[..i])
        invariant elements == ShowAll(elements0, target, SensorOrder[..i])
        invariant currentLang == old(currentLang) && labels == old(labels)
      {
        SimulateSensor(i, data0, variation, elements0);
        i := i + 1;
      }
      SimulateOnlyAll(data0, variation);
      assert SensorOrder[..i] == SensorOrder;
      UpdateLastUpdatedTime(now);
    }

    /** One pass of the loop in `updateAllSensorsSimulated`: the `i`-th
        sensor's value moves by its variation, clamped at zero, and is
        shown. */
    method SimulateSensor(i: nat, ghost data0: map<string, SensorEntry>, variation: map<string, real>,
                          ghost elements0: map<string, Content>)
      requires i < |SensorOrder| && data0.Keys <= variation.Keys
      requires forall s :: s in data0 <==> s in SensorOrder
      requires sensorData == SimulateOnly(data0, variation, SensorOrder[..i])
      requires elements == ShowAll(elements0, Simulate(data0, variation), SensorOrder[..i])
      modifies this
      ensures sensorData == SimulateOnly(data0, variation, SensorOrder[..i + 1])
      ensures elements == ShowAll(elements0, Simulate(data0, variation), SensorOrder[..i + 1])
      ensures currentLang == old(currentLang) && labels == old(labels)
    {
      ghost var target := Simulate(data0, variation);
      var sensor := SensorOrder[i];
      SimulateOnlyStep(data0, variation, i);
      var entry := sensorData[sensor];
      sensorData := sensorData[sensor := entry.(value := ClampAtZero(entry.value + variation[sensor]))];
      ShowReadingLocal(elements, sensorData, target, sensor, Num(target[sensor].value));
      ShowAllStep(elements0, target, SensorOrder, i);
      UpdateSensorUI(sensor, Num(sensorData[sensor].value));
    }

    /** `updateUI`. When the current language has no table (a stored
        language other than `en` or `om`), reading the first `data-i18n`
        element's key throws a `TypeError`; `thrown` reports that. */
    method UpdateUI() returns (thrown: bool)
      modifies this
      ensures elements == LangButton(old(elements), currentLang)
      ensures thrown <==> currentLang !in translations && |old(labels)| > 0
      ensures labels == if currentLang in translations then Translate(old(labels), translations[currentLang]) else old(labels)
      ensures sensorData == old(sensorData) && currentLang == old(currentLang)
    {
      if LangToggleId in elements {
        elements := elements[LangToggleId := Text(ToggleCaption(currentLang))];
      }
      if currentLang !in translations {
        return |labels| > 0;
      }
      var table := translations[currentLang];
      var i := 0;
      while i < |labels|
        invariant 0 <= i <= |labels| && |labels| == |old(labels)|
        invariant forall j :: 0 <= j < i ==> labels[j] == Relabel(old(labels)[j], table)
        invariant forall j :: i <= j < |labels| ==> labels[j] == old(labels)[j]
        invariant elements == LangButton(old(elements), currentLang)
        invariant sensorData == old(sensorData) && currentLang == old(currentLang)
      {
        var key := labels[i].key;
        if key in table && table[key] != "" {
          labels := labels[i := labels[i].(html := table[key])];
        }
        i := i + 1;
      }
      thrown := false;
    }

    /** `toggleLanguage`: switches the language and re-runs `updateUI`, which
        cannot throw afterwards since both languages have a table. */
    method ToggleLanguage()
      requires Valid()
      modifies this
      ensures Valid()
      ensures currentLang == NextLanguage(old(currentLang))
      ensures elements == LangButton(old(elements), currentLang)
      ensures labels == Translate(old(labels), translations[currentLang])
      ensures sensorData == old(sensorData)
    {
      currentLang := if currentLang == "en" then "om" else "en";
      var _ := UpdateUI();
    }
  }
}
