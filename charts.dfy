/** The pure helpers of charts.js: the colour band of a gauge, the two
    slices a gauge is drawn from, and the CSV export of the reading table. */
module Charts {
  import opened JsValues
  import opened Strings

  // ---------------------------------------------------------------------
  // getColorForValue

  /** The three colour bands of a gauge, from best to worst. */
  datatype Color = Good | Warning | Danger

  /** The CSS colour of a band. */
  function Hex(c: Color): string
  {
    match c
    case Good => "#4CAF50"
    case Warning => "#FF9800"
    case Danger => "#F44336"
  }

  /** Bands ordered from best (0) to worst (2). */
  function Severity(c: Color): nat
  {
    match c
    case Good => 0
    case Warning => 1
    case Danger => 2
  }

  /** The result of JavaScript's `value / maxValue`: a real quotient, or
      one of the special values a zero divisor produces. */
  datatype Quotient = Finite(ratio: real) | PlusInfinity | MinusInfinity | NotANumber

  /** `value / maxValue`; rounding is not modelled. */
  function Divide(value: real, maxValue: real): Quotient
  {
    if maxValue != 0.0 then Finite(value / maxValue)
    else if value > 0.0 then PlusInfinity
    else if value < 0.0 then MinusInfinity
    else NotANumber
  }

  /** JavaScript's `q < bound`: false for NaN, whatever the bound. */
  predicate Below(q: Quotient, bound: real)
  {
    match q
    case Finite(r) => r < bound
    case PlusInfinity => false
    case MinusInfinity => true
    case NotANumber => false
  }

  /** The band of a ratio: below 0.4 is good, below 0.8 a warning, anything
      else (NaN included) danger. */
  function BandOf(q: Quotient): Color
  {
    if Below(q, 0.4) then Good
    else if Below(q, 0.8) then Warning
    else Danger
  }

  /** `getColorForValue(value, maxValue)`. Good exactly when the ratio is
      below 0.4, a warning exactly when it is in [0.4, 0.8), danger exactly
      when it is 0.8 or more; a zero maximum gives good for a negative value
      and danger otherwise. */
  function GetColorForValue(value: real, maxValue: real): (c: Color)
    ensures c == Good <==>
      (maxValue != 0.0 && value / maxValue < 0.4) || (maxValue == 0.0 && value < 0.0)
    ensures c == Warning <==>
      maxValue != 0.0 && 0.4 <= value / maxValue < 0.8
    ensures c == Danger <==>
      (maxValue != 0.0 && value / maxValue >= 0.8) || (maxValue == 0.0 && value >= 0.0)
  {
    BandOf(Divide(value, maxValue))
  }

  /** The band boundaries belong to the worse band: a ratio of exactly 0.4
      is a warning and one of exactly 0.8 is danger. */
  lemma BoundariesGoToWorseBand(maxValue: real)
    requires maxValue != 0.0
    ensures GetColorForValue(0.4 * maxValue, maxValue) == Warning
    ensures GetColorForValue(0.8 * maxValue, maxValue) == Danger
  {
  }

  /** `q1 <= q2` on the extended reals: minus infinity lies below every
      ratio and plus infinity above; NaN is below or above nothing. */
  predicate AtMost(q1: Quotient, q2: Quotient)
  {
    match q1
    case MinusInfinity => !q2.NotANumber?
    case Finite(r1) => q2.PlusInfinity? || (q2.Finite? && r1 <= q2.ratio)
    case PlusInfinity => q2.PlusInfinity?
    case NotANumber => false
  }

  /** A larger quotient never has a better band, and NaN has the worst. */
  lemma BandMonotone(q1: Quotient, q2: Quotient)
    requires AtMost(q1, q2) || q2.NotANumber?
    ensures Severity(BandOf(q1)) <= Severity(BandOf(q2))
  {
  }

  /** For a non-negative maximum, a larger value never has a better
      colour. */
  lemma ColorMonotone(v1: real, v2: real, maxValue: real)
    requires maxValue >= 0.0 && v1 <= v2
    ensures Severity(GetColorForValue(v1, maxValue)) <= Severity(GetColorForValue(v2, maxValue))
  {
    if maxValue > 0.0 {
      DivideMonotone(v1, v2, maxValue);
      BandMonotone(Finite(v1 / maxValue), Finite(v2 / maxValue));
    }
  }

  /** Dividing by a positive number keeps the order. */
  lemma DivideMonotone(v1: real, v2: real, maxValue: real)
    requires maxValue > 0.0 && v1 <= v2
    ensures v1 / maxValue <= v2 / maxValue
  {
    assert v2 / maxValue - v1 / maxValue == (v2 - v1) / maxValue;
  }

  // ---------------------------------------------------------------------
  // createGaugeChart

  /** The dataset of a gauge doughnut: its two slices and their colours. */
  datatype GaugeDataset = GaugeDataset(data: seq<real>, backgroundColor: seq<string>)

  /** The dataset `createGaugeChart(canvasId, value, maxValue, label)` draws:
      the value's slice in its band colour, then the rest up to the maximum
      in grey. The slices always add up to the maximum. */
  function Gauge(value: real, maxValue: real): (g: GaugeDataset)
    ensures |g.data| == 2 && |g.backgroundColor| == 2
    ensures g.data[0] == value && g.data[0] + g.data[1] == maxValue
    ensures g.backgroundColor[0] == Hex(GetColorForValue(value, maxValue))
    ensures g.backgroundColor[1] == "#e0e0e0"
  {
    GaugeDataset([value, maxValue - value], [Hex(GetColorForValue(value, maxValue)), "#e0e0e0"])
  }

  // ---------------------------------------------------------------------
  // exportData

  /** The names of the export's columns. */
  const HeaderNames: seq<string> := ["Timestamp", "pH", "Temperature", "Turbidity", "TDS"]

  /** A row of text cells. */
  function TextCells(texts: seq<string>): (cells: seq<Value>)
    ensures |cells| == |texts| && forall i :: 0 <= i < |texts| ==> cells[i] == Str(texts[i])
  {
    seq(|texts|, i requires 0 <= i < |texts| => Str(texts[i]))
  }

  /** The header row of the export: its names, as text cells. */
  const Header: seq<Value> := TextCells(HeaderNames)

  /** The table `exportData` writes: the header and one row of fixed
      readings, `timestamp` being the text of `new Date().toLocaleString()`. */
  function ExportTable(timestamp: string): (t: seq<seq<Value>>)
    ensures |t| == 2 && t[0] == Header && |t[1]| == |Header|
    ensures t[1][0] == Str(timestamp) && forall j :: 1 <= j < |t[1]| ==> t[1][j].Num?
  {
    [Header, [Str(timestamp), Num(7.2), Num(24.3), Num(4.2), Num(180.0)]]
  }

  /** The text `join` gives a cell; `show` is JavaScript's number-to-text
      conversion, which is not modelled. */
  function CellText(cell: Value, show: real -> string): string
  {
    match cell
    case Str(s) => s
    case Num(n) => show(n)
  }

  /** The texts of a row's cells. */
  function CellTexts(row: seq<Value>, show: real -> string): (texts: seq<string>)
    ensures |texts| == |row|
  {
    seq(|row|, i requires 0 <= i < |row| => CellText(row[i], show))
  }

  /** `row.join(",")`. */
  function RowLine(row: seq<Value>, show: real -> string): string
  {
    Join(CellTexts(row, show), ',')
  }

  /** The lines of the CSV, one per row. */
  function CsvLines(rows: seq<seq<Value>>, show: real -> string): (lines: seq<string>)
    ensures |lines| == |rows|
  {
    seq(|rows|, i requires 0 <= i < |rows| => RowLine(rows[i], show))
  }

  /** `rows.map(e => e.join(",")).join("\n")`. */
  function ToCsv(rows: seq<seq<Value>>, show: real -> string): (csv: string)
    ensures |rows| > 0 ==> RowLine(rows[0], show) <= csv
    ensures |rows| > 1 ==> |csv| > |RowLine(rows[0], show)| && csv[|RowLine(rows[0], show)|] == '\n'
  {
    Join(CsvLines(rows, show), '\n')
  }

  /** No cell of the table shows the character `c`. */
  predicate CellsAvoid(rows: seq<seq<Value>>, show: real -> string, c: char)
  {
    forall i, j :: 0 <= i < |rows| && 0 <= j < |rows[i]| ==> c !in CellText(rows[i][j], show)
  }

  /** What `exportData(format)` hands to the download: CSV text, or the
      table itself for `JSON.stringify`, which is not modelled. */
  datatype ExportContent = CsvText(text: string) | JsonOf(table: seq<seq<Value>>)

  /** `exportData(format)`: CSV for `"csv"`, JSON for any other format;
      without a format, CSV. */
  function ExportData(timestamp: string, show: real -> string, format: string := "csv"): (e: ExportContent)
    ensures e.CsvText? <==> format == "csv"
    ensures e.CsvText? ==> e.text == ToCsv(ExportTable(timestamp), show)
    ensures e.JsonOf? ==> e.table == ExportTable(timestamp)
  {
    if format == "csv" then CsvText(ToCsv(ExportTable(timestamp), show))
    else JsonOf(ExportTable(timestamp))
  }

  /** When no cell contains a newline, the CSV splits back into exactly one
      line per row. */
  lemma {:induction false} CsvSplitsIntoLines(rows: seq<seq<Value>>, show: real -> string)
    requires |rows| > 0
    requires CellsAvoid(rows, show, '\n')
    ensures Split(ToCsv(rows, show), '\n') == CsvLines(rows, show)
  {
    var lines := CsvLines(rows, show);
    forall i | 0 <= i < |lines|
      ensures '\n' !in lines[i]
    {
      JoinAvoids(CellTexts(rows[i], show), ',', '\n');
    }
    SplitJoin(lines, '\n');
  }

  /** When no cell contains a comma or a newline, each line of the CSV
      splits back into the texts of its row's cells. */
  lemma {:induction false} CsvLineSplitsIntoCells(rows: seq<seq<Value>>, show: real -> string, i: nat)
    requires |rows| > 0 && i < |rows| && |rows[i]| > 0
    requires CellsAvoid(rows, show, '\n') && CellsAvoid(rows, show, ',')
    ensures var lines := Split(ToCsv(rows, show), '\n');
      i < |lines| && Split(lines[i], ',') == CellTexts(rows[i], show)
  {
    CsvSplitsIntoLines(rows, show);
    SplitJoin(CellTexts(rows[i], show), ',');
  }

  /** The header row's cells show its names. */
  lemma HeaderTexts(show: real -> string)
    ensures CellTexts(Header, show) == HeaderNames
  {
  }

  /** No header name holds a comma or a newline. */
  lemma HeaderNamesPlain()
    ensures forall i :: 0 <= i < |HeaderNames| ==> ',' !in HeaderNames[i] && '\n' !in HeaderNames[i]
  {
  }

  /** The header names join into the header line. */
  lemma HeaderLine()
    ensures Join(HeaderNames, ',') == "Timestamp,pH,Temperature,Turbidity,TDS"
  {
    JoinFive("Timestamp", "pH", "Temperature", "Turbidity", "TDS", ',');
    assert "Timestamp" + "," + ("pH" + "," + ("Temperature" + "," + ("Turbidity" + "," + "TDS"))) == "Timestamp,pH,Temperature,Turbidity,TDS";
  }

  /** The export's cells avoid a comma or newline when the timestamp and the
      number texts do. */
  lemma ExportCellsAvoid(timestamp: string, show: real -> string, c: char)
    requires c == ',' || c == '\n'
    requires c !in timestamp
    requires forall x :: c !in show(x)
    ensures CellsAvoid(ExportTable(timestamp), show, c)
  {
    var rows := ExportTable(timestamp);
    HeaderNamesPlain();
    forall i, j | 0 <= i < |rows| && 0 <= j < |rows[i]|
      ensures c !in CellText(rows[i][j], show)
    {
      if i == 0 {
        assert CellText(rows[i][j], show) == HeaderNames[j];
      }
    }
  }

  /** The first line of the export is the header, whatever the timestamp
      and the number texts. */
  lemma ExportStartsWithHeader(timestamp: string, show: real -> string)
    ensures var lines := Split(ToCsv(ExportTable(timestamp), show), '\n');
      lines[0] == "Timestamp,pH,Temperature,Turbidity,TDS"
  {
    var lines := CsvLines(ExportTable(timestamp), show);
    var head := Join(HeaderNames, ',');
    HeaderTexts(show);
    HeaderLine();
    HeaderNamesPlain();
    JoinAvoids(HeaderNames, ',', '\n');
    assert lines[0] == head;
    assert |lines| == 2;
    assert Join(lines[1..], '\n') == lines[1];
    assert ToCsv(ExportTable(timestamp), show) == head + "\n" + lines[1];
    SplitAtSeparator(head, '\n', lines[1]);
  }

  /** With a timestamp and number texts free of commas and newlines, the
      export has two lines of five cells each: the header names, then the
      timestamp and the four readings. */
  lemma ExportShape(timestamp: string, show: real -> string)
    requires ',' !in timestamp && '\n' !in timestamp
    requires forall x :: ',' !in show(x) && '\n' !in show(x)
    ensures var lines := Split(ToCsv(ExportTable(timestamp), show), '\n');
      |lines| == 2 &&
      Split(lines[0], ',') == HeaderNames &&
      Split(lines[1], ',') == [timestamp, show(7.2), show(24.3), show(4.2), show(180.0)]
  {
    var rows := ExportTable(timestamp);
    HeaderTexts(show);
    assert CellTexts(rows[1], show) == [timestamp, show(7.2), show(24.3), show(4.2), show(180.0)];
    ExportCellsAvoid(timestamp, show, ',');
    ExportCellsAvoid(timestamp, show, '\n');
    CsvSplitsIntoLines(rows, show);
    CsvLineSplitsIntoCells(rows, show, 0);
    CsvLineSplitsIntoCells(rows, show, 1);
  }

  /** A timestamp holding one comma (as `toLocaleString` gives in many
      locales, e.g. "10/15/2026, 7:04:00 AM") splits the data line into six
      cells under a five-column header. */
  lemma ExportCommaInTimestamp(date: string, time: string, show: real -> string)
    requires ',' !in date && '\n' !in date && ',' !in time && '\n' !in time
    requires forall x :: ',' !in show(x) && '\n' !in show(x)
    ensures var lines := Split(ToCsv(ExportTable(date + "," + time), show), '\n');
      |lines| == 2 &&
      Split(lines[1], ',') == [date, time, show(7.2), show(24.3), show(4.2), show(180.0)]
  {
    var timestamp := date + "," + time;
    var rows := ExportTable(timestamp);
    ExportCellsAvoid(timestamp, show, '\n');
    CsvSplitsIntoLines(rows, show);
    var readings := [show(7.2), show(24.3), show(4.2), show(180.0)];
    var cells := [date, time] + readings;
    assert CellTexts(rows[1], show) == [timestamp] + readings;
    JoinMergedFirst(date, time, readings, ',');
    SplitJoin(cells, ',');
  }
}
