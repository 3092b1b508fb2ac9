/** The CSV text both exporters build: each cell in double quotes, cells
    joined by commas, lines joined by newlines. Quotes inside a cell are
    copied as they are. */
module CsvText {
  import opened Strings
  import opened Records

  /** `"${cell || ''}"`. */
  function Quote(v: Value): string
  {
    "\"" + ShowOrEmpty(v) + "\""
  }

  function QuotedCells(cells: seq<Value>): seq<string>
  {
    seq(|cells|, i requires 0 <= i < |cells| => Quote(cells[i]))
  }

  /** `cells.map(quote).join(',')`. */
  function CsvLine(cells: seq<Value>): string
  {
    Join(QuotedCells(cells), ",")
  }

  /** `[header, ...lines].join('\n')`. */
  function CsvContent(header: string, lines: seq<string>): string
  {
    Join([header] + lines, "\n")
  }

  /** A cell's text holds neither separator. */
  predicate PlainText(v: Value)
  {
    ',' !in ShowOrEmpty(v) && '\n' !in ShowOrEmpty(v)
  }

  /** A falsy cell is written as `""`, any other as its text between quotes,
      with the text's own quotes neither doubled nor escaped. */
  lemma QuoteFacts(v: Value)
    ensures !Truthy(v) ==> Quote(v) == "\"\""
    ensures |Quote(v)| == |ShowOrEmpty(v)| + 2 && Quote(v)[0] == '"' && Quote(v)[|Quote(v)| - 1] == '"'
    ensures Quote(v)[1..|Quote(v)| - 1] == ShowOrEmpty(v)
    ensures multiset(Quote(v))['"'] == multiset(ShowOrEmpty(v))['"'] + 2
  {
    var t := ShowOrEmpty(v);
    assert Quote(v) == ['"'] + t + ['"'];
    assert multiset(Quote(v)) == multiset{'"'} + multiset(t) + multiset{'"'};
  }

  lemma QuoteAvoids(v: Value, c: char)
    requires c != '"' && c !in ShowOrEmpty(v)
    ensures c !in Quote(v)
  {
    assert Quote(v) == ['"'] + ShowOrEmpty(v) + ['"'];
  }

  /** A character in neither the parts nor the separator is not in the
      joined text. */
  lemma {:induction false} JoinAvoids(parts: seq<string>, sep: string, c: char)
    requires c !in sep && forall k :: 0 <= k < |parts| ==> c !in parts[k]
    ensures c !in Join(parts, sep)
  {
    if |parts| > 1 {
      JoinAvoids(parts[1..], sep, c);
    }
  }

  /** Reading a line back by splitting at commas gives one quoted cell per
      value written, when no text holds a comma. */
  lemma CsvLineCells(cells: seq<Value>)
    requires |cells| >= 1 && forall k :: 0 <= k < |cells| ==> PlainText(cells[k])
    ensures Split(CsvLine(cells), ',') == QuotedCells(cells)
    ensures |Split(CsvLine(cells), ',')| == |cells|
    ensures '\n' !in CsvLine(cells)
  {
    var q := QuotedCells(cells);
    forall k | 0 <= k < |q| ensures ',' !in q[k] && '\n' !in q[k] {
      QuoteAvoids(cells[k], ',');
      QuoteAvoids(cells[k], '\n');
    }
    assert "," == [','];
    SplitJoin(q, ',');
    JoinAvoids(q, ",", '\n');
  }

  /** Splitting the content at newlines gives the header line and then every
      line, when none of them holds a newline. */
  lemma CsvContentLines(header: string, lines: seq<string>)
    requires '\n' !in header && forall k :: 0 <= k < |lines| ==> '\n' !in lines[k]
    ensures Split(CsvContent(header, lines), '\n') == [header] + lines
    ensures |Split(CsvContent(header, lines), '\n')| == |lines| + 1
  {
    assert "\n" == ['\n'];
    SplitJoin([header] + lines, '\n');
  }
}
