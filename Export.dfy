/** The table export: the filtered records written as a CSV file or as a
    one-sheet workbook with twelve fixed columns, and the flag the export
    buttons watch. */
module Export {
  import opened Wrappers
  import opened Strings
  import opened Seqs
  import opened Records
  import opened ChartData
  import opened CsvText

  /** `getFilteredData`: the table's date, situação and collaborator
      filters. */
  function GetFilteredData(ocorrencias: Option<seq<Occurrence>>, filters: Filters): (r: seq<Occurrence>)
    ensures ocorrencias.None? ==> r == []
    ensures ocorrencias.Some? ==> Subseq(r, ocorrencias.value)
    ensures forall x :: x in r <==> ocorrencias.Some? && x in ocorrencias.value && TableKeeps(filters, x)
  {
    TableFilteredFacts(ocorrencias, filters);
    TableFilteredData(ocorrencias, filters)
  }

  /** The CSV header line's columns, also the workbook's keys. */
  const Headers: seq<string> := [
    "ID Registro", "ID Colaborador", "Nome", "Data", "Escala", "Código Horário",
    "Descrição Horário", "Início", "Término", "Total Horas", "Situação",
    "Total Horas Ocorrência"]

  /** The twelve exported values of a record, in header order. */
  function ExportCells(r: Occurrence): seq<Value>
  {
    [r.idRegistro, r.idColaborador, TextValue(r.nome), Str(r.data), TextValue(r.escala),
     TextValue(r.codigoHorario), TextValue(r.descricaoHorario), TextValue(r.inicio),
     TextValue(r.termino), TextValue(r.totalHoras), TextValue(r.situacao),
     DurationValue(r.totalHorasOcorrencia)]
  }

  function RecordLines(data: seq<Occurrence>): seq<string>
  {
    seq(|data|, i requires 0 <= i < |data| => CsvLine(ExportCells(data[i])))
  }

  /** `csvContent`. */
  function OcorrenciasCsv(data: seq<Occurrence>): string
  {
    CsvContent(Join(Headers, ","), RecordLines(data))
  }

  /** A record's text fields hold no comma and no newline. */
  predicate PlainRecord(r: Occurrence)
  {
    forall k :: 0 <= k < |ExportCells(r)| ==> PlainText(ExportCells(r)[k])
  }

  lemma HeadersPlain()
    ensures forall k :: 0 <= k < |Headers| ==> ',' !in Headers[k] && '\n' !in Headers[k]
  {
  }

  /** The file has one line for the header and one per record; each record
      line reads back as twelve quoted cells, the record's values in header
      order. */
  lemma OcorrenciasCsvShape(data: seq<Occurrence>)
    requires forall i :: 0 <= i < |data| ==> PlainRecord(data[i])
    ensures var lines := Split(OcorrenciasCsv(data), '\n');
      |lines| == |data| + 1 && lines[0] == Join(Headers, ",") &&
      forall i :: 1 <= i < |lines| ==>
        (Split(lines[i], ',') == QuotedCells(ExportCells(data[i - 1])) && |Split(lines[i], ',')| == |Headers|)
  {
    var ls := RecordLines(data);
    forall k | 0 <= k < |data| ensures '\n' !in ls[k] && Split(ls[k], ',') == QuotedCells(ExportCells(data[k])) {
      CsvLineCells(ExportCells(data[k]));
    }
    HeadersPlain();
    JoinAvoids(Headers, ",", '\n');
    CsvContentLines(Join(Headers, ","), ls);
  }

  /** A workbook row: the twelve values keyed by the headers. */
  function ExcelRow(r: Occurrence): Row
  {
    seq(|Headers|, i requires 0 <= i < |Headers| => (Headers[i], ExportCells(r)[i]))
  }

  function RowValues(row: Row): seq<Value>
  {
    seq(|row|, i requires 0 <= i < |row| => row[i].1)
  }

  /** The workbook row has exactly the CSV's columns, in the same order,
      with the values the CSV line quotes. */
  lemma ExcelRowMatchesCsv(r: Occurrence)
    ensures Keys(ExcelRow(r)) == Headers
    ensures CsvLine(RowValues(ExcelRow(r))) == CsvLine(ExportCells(r))
  {
    assert RowValues(ExcelRow(r)) == ExportCells(r);
  }

  /** The sheet the workbook export writes. */
  const SheetName := "Ocorrências"

  datatype CsvFile = CsvFile(filename: string, content: string)
  datatype ExcelFile = ExcelFile(filename: string, sheetName: string, rows: seq<Row>)

  class Exporter {
    var isExporting: bool

    constructor()
      ensures !isExporting
    {
      isExporting := false;
    }

    /** `exportToCSV`: nothing when no record passes the filters. */
    method ExportToCsv(ocorrencias: Option<seq<Occurrence>>, filters: Filters, timestamp: string) returns (file: Option<CsvFile>)
      modifies this
      ensures !isExporting
      ensures file.None? <==> GetFilteredData(ocorrencias, filters) == []
      ensures file.Some? ==> file.value == CsvFile("ocorrencias_ponto_" + timestamp + ".csv", OcorrenciasCsv(GetFilteredData(ocorrencias, filters)))
    {
      isExporting := true;
      var data := GetFilteredData(ocorrencias, filters);
      if |data| == 0 {
        isExporting := false;
        return None;
      }
      var lines := seq(|data|, i requires 0 <= i < |data| => CsvLine(ExportCells(data[i])));
      var content := CsvContent(Join(Headers, ","), lines);
      file := Some(CsvFile("ocorrencias_ponto_" + timestamp + ".csv", content));
      isExporting := false;
    }

    /** `exportToExcel`: nothing when no record passes the filters. */
    method ExportToExcel(ocorrencias: Option<seq<Occurrence>>, filters: Filters, timestamp: string) returns (file: Option<ExcelFile>)
      modifies this
      ensures !isExporting
      ensures file.None? <==> GetFilteredData(ocorrencias, filters) == []
      ensures file.Some? ==> var data := GetFilteredData(ocorrencias, filters);
        file.value.filename == "ocorrencias_ponto_" + timestamp + ".xlsx" && file.value.sheetName == SheetName &&
        |file.value.rows| == |data| && forall i :: 0 <= i < |data| ==> file.value.rows[i] == ExcelRow(data[i])
    {
      isExporting := true;
      var data := GetFilteredData(ocorrencias, filters);
      if |data| == 0 {
        isExporting := false;
        return None;
      }
      var rows := seq(|data|, i requires 0 <= i < |data| => ExcelRow(data[i]));
      file := Some(ExcelFile("ocorrencias_ponto_" + timestamp + ".xlsx", SheetName, rows));
      isExporting := false;
    }
  }
}
