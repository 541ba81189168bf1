/** ExportManager: the export page. It writes the sample devices and
    readings it holds as CSV text, one file per chosen data set, with either
    the field names or Spanish labels as the header line. */
module ExportPage {
  import opened Common
  import Js
  import Json

  datatype DataType = Devices | Readings | Both
  datatype Format = Csv | Xlsx
  datatype DateRange = All | Last30 | Last90 | ThisYear

  datatype ExportConfig = ExportConfig(
    dataType: DataType,
    format: Format,
    dateRange: DateRange,
    includeHeaders: bool,
    includeMetadata: bool)

  /** The configuration the page starts with. */
  const DEFAULT_CONFIG: ExportConfig := ExportConfig(Both, Csv, Last30, true, false)

  function FormatText(f: Format): string
  {
    match f
    case Csv => "csv"
    case Xlsx => "xlsx"
  }

  /** One edit of handleConfigChange: a field and its new value. */
  datatype ConfigChange =
    | SetDataType(dataType: DataType)
    | SetFormat(format: Format)
    | SetDateRange(range: DateRange)
    | SetIncludeHeaders(headers: bool)
    | SetIncludeMetadata(metadata: bool)

  /** The configuration with the one field the change names replaced. */
  function Apply(c: ExportConfig, ch: ConfigChange): (r: ExportConfig)
    ensures r.dataType == if ch.SetDataType? then ch.dataType else c.dataType
    ensures r.format == if ch.SetFormat? then ch.format else c.format
    ensures r.dateRange == if ch.SetDateRange? then ch.range else c.dateRange
    ensures r.includeHeaders == if ch.SetIncludeHeaders? then ch.headers else c.includeHeaders
    ensures r.includeMetadata == if ch.SetIncludeMetadata? then ch.metadata else c.includeMetadata
  {
    match ch
    case SetDataType(d) => c.(dataType := d)
    case SetFormat(f) => c.(format := f)
    case SetDateRange(d) => c.(dateRange := d)
    case SetIncludeHeaders(b) => c.(includeHeaders := b)
    case SetIncludeMetadata(b) => c.(includeMetadata := b)
  }

  /** Text without a line feed: a header, or the numeral of a number. */
  type SingleLine = s: string | '\n' !in s

  /** A field of a record: a string, a number with the numeral
      JSON.stringify writes for it, or nothing. */
  datatype Cell = Text(s: string) | Num(value: real, numeral: SingleLine) | Missing

  /** A record: field names to values. */
  type Row = map<string, Cell>

  const EMPTY_QUOTES: string := "\"\""

  /** JSON.stringify(row[header] || ''): a missing field, an empty string
      and a zero are falsy and written as an empty string literal; a string
      is quoted; a number is its numeral. */
  function CellText(c: Cell): (t: string)
    ensures (c.Missing? || c == Text("") || (c.Num? && c.value == 0.0)) ==> t == EMPTY_QUOTES
    ensures c.Text? && c.s != "" ==> t == Json.Quote(c.s)
    ensures c.Num? && c.value != 0.0 ==> t == c.numeral
    ensures '\n' !in t
  {
    match c
    case Text(s) => Json.Quote(s)
    case Num(v, numeral) => if v == 0.0 then EMPTY_QUOTES else numeral
    case Missing => EMPTY_QUOTES
  }

  function Field(row: Row, h: string): Cell
  {
    if h in row then row[h] else Missing
  }

  /** One record as a line: its fields, in header order, joined by commas. */
  function Line(row: Row, headers: seq<SingleLine>): (line: string)
    ensures '\n' !in line
  {
    var cells := seq(|headers|, i requires 0 <= i < |headers| => CellText(Field(row, headers[i])));
    Js.JoinAvoids(cells, ",", '\n');
    Js.Join(cells, ",")
  }

  function Lines(data: seq<Row>, headers: seq<SingleLine>): (lines: seq<string>)
    ensures |lines| == |data|
    ensures forall i :: 0 <= i < |data| ==> lines[i] == Line(data[i], headers) && '\n' !in lines[i]
  {
    seq(|data|, i requires 0 <= i < |data| => Line(data[i], headers))
  }

  /** generateCSV: the header line, then one line per record, joined by
      line feeds. */
  function GenerateCsv(data: seq<Row>, headers: seq<SingleLine>): string
  {
    Js.Join([Js.Join(headers, ",")] + Lines(data, headers), "\n")
  }

  /** The text of a file: with headers on, the generated header line is
      replaced by the labels (by splitting at line feeds, dropping the first
      line and joining again); with headers off, the CSV as generated. */
  function Content(data: seq<Row>, fields: seq<SingleLine>, labels: seq<SingleLine>, includeHeaders: bool): string
  {
    var csv := GenerateCsv(data, fields);
    if includeHeaders then Js.Join(labels, ",") + "\n" + Js.Join(Js.Split(csv, '\n')[1..], "\n")
    else csv
  }

  predicate NoLineFeeds(ss: seq<string>)
  {
    forall i :: 0 <= i < |ss| ==> '\n' !in ss[i]
  }

  /** The generated CSV splits back into its header line and one line per
      record. */
  lemma CsvLines(data: seq<Row>, headers: seq<SingleLine>)
    ensures Js.Split(GenerateCsv(data, headers), '\n') == [Js.Join(headers, ",")] + Lines(data, headers)
  {
    var parts := [Js.Join(headers, ",")] + Lines(data, headers);
    Js.JoinAvoids(headers, ",", '\n');
    assert NoLineFeeds(parts);
    Js.SplitJoin(parts, '\n');
  }

  /** With headers on, only the header line changes: the labels, then the
      record lines exactly as generated. */
  lemma LabelledContent(data: seq<Row>, fields: seq<SingleLine>, labels: seq<SingleLine>)
    ensures Content(data, fields, labels, true) == Js.Join(labels, ",") + "\n" + Js.Join(Lines(data, fields), "\n")
  {
    CsvLines(data, fields);
    assert ([Js.Join(fields, ",")] + Lines(data, fields))[1..] == Lines(data, fields);
  }

  /** A file read back line by line: the header line, then one line per
      record. */
  lemma ContentLines(data: seq<Row>, fields: seq<SingleLine>, labels: seq<SingleLine>, includeHeaders: bool)
    requires data != []
    ensures Js.Split(Content(data, fields, labels, includeHeaders), '\n') ==
            [Js.Join(if includeHeaders then labels else fields, ",")] + Lines(data, fields)
  {
    if includeHeaders {
      LabelledContent(data, fields, labels);
      var lines := Lines(data, fields);
      Js.JoinCons(Js.Join(labels, ","), lines, "\n");
      Js.JoinAvoids(labels, ",", '\n');
      assert NoLineFeeds([Js.Join(labels, ",")] + lines);
      Js.SplitJoin([Js.Join(labels, ",")] + lines, '\n');
    } else {
      CsvLines(data, fields);
    }
  }

  /** Without records, headers on leave a trailing empty line. */
  lemma LabelsOnlyEndWithLineFeed(fields: seq<SingleLine>, labels: seq<SingleLine>)
    ensures Content([], fields, labels, true) == Js.Join(labels, ",") + "\n"
  {
    LabelledContent([], fields, labels);
  }

  /** A string field written to the file reads back, through JSON string
      decoding, as the string itself. */
  lemma TextCellRoundTrip(s: string)
    ensures var t := CellText(Text(s));
            |t| >= 2 && Json.Unescape(t[1..|t| - 1]) == Some(s)
  {
    var t := CellText(Text(s));
    assert t[1..|t| - 1] == Json.Escape(s);
    Json.UnescapeEscape(s);
  }

  const DEVICE_FIELDS: seq<SingleLine> := ["id", "name", "type", "power", "location", "status"]
  const DEVICE_LABELS: seq<SingleLine> := ["ID", "Nombre", "Tipo", "Potencia (W)", "Ubicación", "Estado"]
  const READING_FIELDS: seq<SingleLine> := ["id", "deviceId", "deviceName", "value", "timestamp", "date", "time"]
  const READING_LABELS: seq<SingleLine> :=
    ["ID", "ID Dispositivo", "Nombre Dispositivo", "Valor (kWh)", "Fecha y Hora", "Fecha", "Hora"]

  function DeviceRow(id: string, name: string, kind: string, power: real, numeral: SingleLine, location: string): Row
  {
    map["id" := Text(id), "name" := Text(name), "type" := Text(kind), "power" := Num(power, numeral),
        "location" := Text(location), "status" := Text("active")]
  }

  function ReadingRow(id: string, deviceId: string, deviceName: string, value: real, numeral: SingleLine,
                      date: string, time: string): Row
  {
    map["id" := Text(id), "deviceId" := Text(deviceId), "deviceName" := Text(deviceName),
        "value" := Num(value, numeral), "timestamp" := Text(date + "T" + time), "date" := Text(date),
        "time" := Text(time)]
  }

  /** The sample devices the page exports. */
  const DEVICES_DATA: seq<Row> := [
    DeviceRow("1", "Aire Acondicionado Sala", "Climatización", 2500.0, "2500", "Sala Principal"),
    DeviceRow("2", "Refrigerador Cocina", "Electrodoméstico", 150.0, "150", "Cocina"),
    DeviceRow("3", "Sistema Iluminación LED", "Iluminación", 45.0, "45", "Toda la casa")]

  /** The sample readings the page exports. */
  const READINGS_DATA: seq<Row> := [
    ReadingRow("1", "1", "Aire Acondicionado Sala", 12.5, "12.5", "2024-01-15", "14:30:00"),
    ReadingRow("2", "2", "Refrigerador Cocina", 3.2, "3.2", "2024-01-15", "14:30:00"),
    ReadingRow("3", "1", "Aire Acondicionado Sala", 15.8, "15.8", "2024-01-14", "16:45:00")]

  /** A file handed to the browser for download. */
  datatype Download = Download(content: string, filename: string, mimeType: string)

  const CSV_MIME: string := "text/csv"

  /** The date part of an ISO timestamp: what comes before the 'T'. */
  function CurrentDate(iso: string): (date: string)
    ensures 'T' !in date
  {
    Js.Split(iso, 'T')[0]
  }

  function ExportsDevices(t: DataType): bool
  {
    t == Devices || t == Both
  }

  function ExportsReadings(t: DataType): bool
  {
    t == Readings || t == Both
  }

  /** The devices file: the sample devices, named after the date and the
      chosen format. */
  function DevicesFile(config: ExportConfig, date: string): (f: Download)
    ensures f.mimeType == CSV_MIME
  {
    Download(Content(DEVICES_DATA, DEVICE_FIELDS, DEVICE_LABELS, config.includeHeaders),
             "luminav-dispositivos-" + date + "." + FormatText(config.format), CSV_MIME)
  }

  /** The readings file: the sample readings, named after the date and the
      chosen format. */
  function ReadingsFile(config: ExportConfig, date: string): (f: Download)
    ensures f.mimeType == CSV_MIME
  {
    Download(Content(READINGS_DATA, READING_FIELDS, READING_LABELS, config.includeHeaders),
             "luminav-lecturas-" + date + "." + FormatText(config.format), CSV_MIME)
  }

  /** The files handleExport hands over, in order: the devices file when
      devices are chosen, then the readings file when readings are. Both are
      CSV text whatever the chosen format, which only names the file. */
  function Downloads(config: ExportConfig, isoNow: string): (ds: seq<Download>)
    ensures |ds| == (if ExportsDevices(config.dataType) then 1 else 0) + (if ExportsReadings(config.dataType) then 1 else 0)
    ensures forall i :: 0 <= i < |ds| ==> ds[i].mimeType == CSV_MIME
    ensures ExportsDevices(config.dataType) ==> ds[0] == DevicesFile(config, CurrentDate(isoNow))
    ensures ExportsReadings(config.dataType) ==> ds[|ds| - 1] == ReadingsFile(config, CurrentDate(isoNow))
  {
    var date := CurrentDate(isoNow);
    Chosen(config.dataType, DevicesFile(config, date), ReadingsFile(config, date))
  }

  /** The files of the chosen data types, devices first. */
  function Chosen(t: DataType, devices: Download, readings: Download): (ds: seq<Download>)
    ensures |ds| == (if ExportsDevices(t) then 1 else 0) + (if ExportsReadings(t) then 1 else 0)
    ensures forall i :: 0 <= i < |ds| ==> ds[i] == devices || ds[i] == readings
    ensures ExportsDevices(t) ==> ds[0] == devices
    ensures ExportsReadings(t) ==> ds[|ds| - 1] == readings
  {
    match t
    case Devices => [devices]
    case Readings => [readings]
    case Both => [devices, readings]
  }

  /** Each exported file reads back as its header line and one line per
      sample record: four lines for the three devices and four for the
      three readings. */
  lemma FilesHoldOneLinePerRecord(config: ExportConfig, date: string)
    ensures Js.Split(DevicesFile(config, date).content, '\n') ==
            [Js.Join(if config.includeHeaders then DEVICE_LABELS else DEVICE_FIELDS, ",")] + Lines(DEVICES_DATA, DEVICE_FIELDS)
    ensures Js.Split(ReadingsFile(config, date).content, '\n') ==
            [Js.Join(if config.includeHeaders then READING_LABELS else READING_FIELDS, ",")] + Lines(READINGS_DATA, READING_FIELDS)
  {
    ContentLines(DEVICES_DATA, DEVICE_FIELDS, DEVICE_LABELS, config.includeHeaders);
    ContentLines(READINGS_DATA, READING_FIELDS, READING_LABELS, config.includeHeaders);
  }

  /** The record count the summary card shows for a data type. */
  function RecordCount(t: DataType): string
  {
    match t
    case Devices => "3"
    case Readings => "3"
    case Both => "6"
  }

  /** The count on the card is the number of records the export writes. */
  lemma RecordCountIsExported(t: DataType)
    ensures RecordCount(t) == Js.DecimalText((if ExportsDevices(t) then |DEVICES_DATA| else 0) +
                                             (if ExportsReadings(t) then |READINGS_DATA| else 0))
  {
    assert Js.DecimalText(3) == "3" && Js.DecimalText(6) == "6";
  }

  /** Neither the date range nor the metadata option changes what is
      exported. */
  lemma ExportIgnoresRangeAndMetadata(config: ExportConfig, range: DateRange, metadata: bool, isoNow: string)
    ensures Downloads(config.(dateRange := range, includeMetadata := metadata), isoNow) == Downloads(config, isoNow)
  {
  }

  class ExportManager {
    var config: ExportConfig
    var isExporting: bool

    constructor ()
      ensures config == DEFAULT_CONFIG && !isExporting
    {
      config := DEFAULT_CONFIG;
      isExporting := false;
    }

    /** handleConfigChange. */
    method Change(ch: ConfigChange)
      modifies this
      ensures config == Apply(old(config), ch) && isExporting == old(isExporting)
    {
      config := Apply(config, ch);
    }

    /** handleExport at the instant whose ISO text is `isoNow`: the files
        for the configuration, and the page no longer exporting. */
    method Export(isoNow: string) returns (ds: seq<Download>)
      modifies this
      ensures ds == Downloads(config, isoNow)
      ensures config == old(config) && !isExporting
    {
      isExporting := true;
      ds := Downloads(config, isoNow);
      isExporting := false;
    }
  }
}
