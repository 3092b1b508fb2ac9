/** The chart exports: any list of objects written as CSV under the first
    object's keys, or as a one-sheet workbook, with a timestamped file
    name. */
module ChartExport {
  import opened Wrappers
  import opened Strings
  import opened Records
  import opened CsvText

  /** `${filename}_${timestamp}` and the extension. */
  function FileName(filename: string, timestamp: string, extension: string): string
  {
    filename + "_" + timestamp + extension
  }

  /** Each object's values under the first object's keys; a missing key
      reads as `undefined`. */
  function ChartLines(data: seq<Row>, headers: seq<string>): seq<string>
  {
    seq(|data|, i requires 0 <= i < |data| =>
      CsvLine(seq(|headers|, j requires 0 <= j < |headers| => Lookup(data[i], headers[j]))))
  }

  /** `csvContent`, or nothing for absent or empty data. */
  function ChartCsv(data: Option<seq<Row>>): Option<string>
  {
    if data.None? || |data.value| == 0 then None
    else
      var headers := Keys(data.value[0]);
      Some(CsvContent(Join(headers, ","), ChartLines(data.value, headers)))
  }

  datatype CsvFile = CsvFile(filename: string, content: string)
  datatype ExcelFile = ExcelFile(filename: string, sheetName: string, rows: seq<Row>)

  /** `exportChartToCSV`. */
  function ExportChartToCsv(data: Option<seq<Row>>, filename: string, timestamp: string): (r: Option<CsvFile>)
    ensures r.None? <==> data.None? || data.value == []
    ensures r.Some? ==> r.value.content == ChartCsv(data).value && r.value.filename == FileName(filename, timestamp, ".csv")
  {
    match ChartCsv(data)
    case None => None
    case Some(content) => Some(CsvFile(FileName(filename, timestamp, ".csv"), content))
  }

  /** `exportChartToExcel`; an omitted sheet name is `Dados`. */
  function ExportChartToExcel(data: Option<seq<Row>>, filename: string, sheetName: Option<string>, timestamp: string): (r: Option<ExcelFile>)
    ensures r.None? <==> data.None? || data.value == []
    ensures r.Some? ==> r.value.rows == data.value && r.value.filename == FileName(filename, timestamp, ".xlsx")
    ensures r.Some? ==> r.value.sheetName == if sheetName.Some? then sheetName.value else "Dados"
  {
    if data.None? || |data.value| == 0 then None
    else Some(ExcelFile(FileName(filename, timestamp, ".xlsx"), sheetName.GetOr("Dados"), data.value))
  }

  /** Every value of the objects under the first object's keys holds no
      comma and no newline, nor does any key. */
  predicate PlainData(data: seq<Row>)
  {
    && |data| > 0
    && (forall k :: 0 <= k < |Keys(data[0])| ==> ',' !in Keys(data[0])[k] && '\n' !in Keys(data[0])[k])
    && forall i, k :: 0 <= i < |data| && 0 <= k < |Keys(data[0])| ==> PlainText(Lookup(data[i], Keys(data[0])[k]))
  }

  /** The content is the header line of the first object's keys and one line
      per object; each line reads back as one quoted cell per header, the
      object's value under that key, falsy values as `""`. */
  lemma ChartCsvShape(data: seq<Row>)
    requires PlainData(data) && |data[0]| > 0
    ensures var headers := Keys(data[0]);
      var lines := Split(ChartCsv(Some(data)).value, '\n');
      |lines| == |data| + 1 && lines[0] == Join(headers, ",") &&
      forall i :: 1 <= i < |lines| ==>
        (|Split(lines[i], ',')| == |headers| &&
         forall k :: 0 <= k < |headers| ==> Split(lines[i], ',')[k] == Quote(Lookup(data[i - 1], headers[k])))
  {
    var headers := Keys(data[0]);
    var ls := ChartLines(data, headers);
    forall i | 0 <= i < |data|
      ensures '\n' !in ls[i]
      ensures Split(ls[i], ',') == QuotedCells(seq(|headers|, j requires 0 <= j < |headers| => Lookup(data[i], headers[j])))
    {
      CsvLineCells(seq(|headers|, j requires 0 <= j < |headers| => Lookup(data[i], headers[j])));
    }
    JoinAvoids(headers, ",", '\n');
    CsvContentLines(Join(headers, ","), ls);
  }
}
