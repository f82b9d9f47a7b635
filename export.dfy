/**
 * The structured content of the two export formats: the JSON document's
 * `colors` records and the CSV table's rows. File bytes, indentation and
 * quoting are not modelled; the parsers below are the partners that read
 * the structures back.
 */
module Export {
  import opened Wrappers
  import opened Colors

  /** One entry of the JSON `colors` array: `{"hex": "#RRGGBB", "rgb": [r, g, b]}`. */
  datatype JsonRecord = JsonRecord(hex: string, rgb: seq<int>)

  /** The JSON document `{"colors": [...]}`. */
  datatype JsonDocument = JsonDocument(colors: seq<JsonRecord>)

  function JsonRecordOf(c: Color): (rec: JsonRecord)
  {
    JsonRecord(HexName(c), [c.red, c.green, c.blue])
  }

  /** The list comprehension that builds the records, one per palette entry, in palette order. */
  function JsonColors(palette: seq<Color>): (records: seq<JsonRecord>)
    ensures |records| == |palette|
  {
    seq(|palette|, i requires 0 <= i < |palette| => JsonRecordOf(palette[i]))
  }

  /** Reads one record back: its hex code must decode and agree with its rgb triple. */
  function ParseJsonRecord(rec: JsonRecord): (r: Option<Color>)
    ensures r.Some? ==> rec == JsonRecordOf(r.value)
  {
    match ParseHex(rec.hex)
    case None => None
    case Some(c) =>
      ParseHexCanonical(rec.hex, c);
      if rec.rgb == [c.red, c.green, c.blue] then Some(c) else None
  }

  /** Reads a whole `colors` array back; one unreadable record rejects the array. */
  function ParseJsonColors(records: seq<JsonRecord>): (r: Option<seq<Color>>)
    ensures r.Some? ==> |r.value| == |records|
    ensures r.Some? ==> records == JsonColors(r.value)
  {
    if records == [] then Some([])
    else
      match (ParseJsonRecord(records[0]), ParseJsonColors(records[1..]))
      case (Some(c), Some(rest)) => Some([c] + rest)
      case _ => None
  }

  /** A record reads back as the colour it was made from. */
  lemma JsonRecordRoundTrip(c: Color)
    ensures ParseJsonRecord(JsonRecordOf(c)) == Some(c)
  {
    HexRoundTrip(c);
  }

  /** Re-reading the JSON export yields the palette, same colours in the same order. */
  lemma {:induction false} JsonRoundTrip(palette: seq<Color>)
    ensures ParseJsonColors(JsonColors(palette)) == Some(palette)
  {
    if palette != [] {
      var records := JsonColors(palette);
      assert records[1..] == JsonColors(palette[1..]);
      JsonRecordRoundTrip(palette[0]);
      JsonRoundTrip(palette[1..]);
      assert palette == [palette[0]] + palette[1..];
    }
  }

  /** A CSV cell: `csv.writer` writes strings as they are and integers in decimal. */
  datatype Cell = Text(text: string) | Number(value: int)

  type Row = seq<Cell>

  /** The header row `HEX,R,G,B`. */
  const Header: Row := [Text("HEX"), Text("R"), Text("G"), Text("B")]

  /** The row written for one colour: hex code, then red, green and blue. */
  function CsvRow(c: Color): (row: Row)
  {
    [Text(HexName(c)), Number(c.red), Number(c.green), Number(c.blue)]
  }

  /** The whole table: the header, then one row per palette entry in palette order. */
  function CsvTable(palette: seq<Color>): (rows: seq<Row>)
    ensures |rows| == |palette| + 1 && rows[0] == Header
  {
    [Header] + seq(|palette|, i requires 0 <= i < |palette| => CsvRow(palette[i]))
  }

  /** Reads one data row back: a hex cell that decodes and three numbers that agree with it. */
  function ParseCsvRow(row: Row): (r: Option<Color>)
    ensures r.Some? ==> row == CsvRow(r.value)
  {
    if |row| == 4 && row[0].Text? then
      match ParseHex(row[0].text)
      case None => None
      case Some(c) =>
        ParseHexCanonical(row[0].text, c);
        if row[1..] == [Number(c.red), Number(c.green), Number(c.blue)] then Some(c) else None
    else
      None
  }

  function ParseCsvRows(rows: seq<Row>): (r: Option<seq<Color>>)
    ensures r.Some? ==> |r.value| == |rows|
    ensures r.Some? ==> rows == CsvTable(r.value)[1..]
  {
    if rows == [] then Some([])
    else
      match (ParseCsvRow(rows[0]), ParseCsvRows(rows[1..]))
      case (Some(c), Some(rest)) => Some([c] + rest)
      case _ => None
  }

  /** Reads a table back: it must start with the header row. */
  function ParseCsv(rows: seq<Row>): (r: Option<seq<Color>>)
    ensures r.Some? ==> |rows| == |r.value| + 1 && rows[0] == Header
    ensures r.Some? ==> rows == CsvTable(r.value)
  {
    if rows == [] || rows[0] != Header then None else ParseCsvRows(rows[1..])
  }

  lemma {:induction false} CsvRowsRoundTrip(palette: seq<Color>)
    ensures ParseCsvRows(CsvTable(palette)[1..]) == Some(palette)
  {
    if palette != [] {
      var rows := CsvTable(palette)[1..];
      assert rows[1..] == CsvTable(palette[1..])[1..];
      HexRoundTrip(palette[0]);
      CsvRowsRoundTrip(palette[1..]);
      assert palette == [palette[0]] + palette[1..];
    }
  }

  /** Re-reading the CSV export yields the palette, same colours in the same order. */
  lemma CsvRoundTrip(palette: seq<Color>)
    ensures ParseCsv(CsvTable(palette)) == Some(palette)
  {
    CsvRowsRoundTrip(palette);
  }
}
