/** The occurrences table: its sort state and the sort of the visible page,
    the page navigation, and the guards on the pagination controls and the
    export button. */
module OccurrencesTable {
  import opened Wrappers
  import opened Strings
  import opened Sorting
  import opened Records
  import opened TableData
  import W = Workbook

  datatype Direction = Asc | Desc

  datatype SortConfig = SortConfig(key: Option<string>, direction: Direction)

  const InitialSort := SortConfig(None, Asc)

  /** `handleSort(key)`: descending exactly when the same key is sorted
      ascending, ascending otherwise. */
  function NextSort(config: SortConfig, key: string): (c: SortConfig)
    ensures c.key == Some(key)
    ensures c.direction == Desc <==> config.key == Some(key) && config.direction == Asc
  {
    SortConfig(Some(key), if config.key == Some(key) && config.direction == Asc then Desc else Asc)
  }

  /** Clicking the same column header again alternates the direction;
      clicking another column starts ascending. */
  lemma NextSortCycle(config: SortConfig, key: string, other: string)
    requires other != key
    ensures NextSort(NextSort(NextSort(config, key), key), key) == NextSort(config, key)
    ensures NextSort(NextSort(config, key), key).direction != NextSort(config, key).direction
    ensures NextSort(NextSort(config, key), other).direction == Asc
  {
  }

  /** `row[key]` of the record; an absent column reads as `undefined`. */
  function Cell(r: Occurrence, key: string): Value
  {
    Lookup(ToRow(r), key)
  }

  /** `a.localeCompare(b)`, the collation taken as code-point order. */
  function LocaleCompare(a: string, b: string): (c: int)
    ensures c == 0 <==> a == b
    ensures c < 0 <==> StrLe(a, b) && a != b
  {
    if a == b then 0 else if StrLe(a, b) then -1 else 1
  }

  /** The comparator as the component writes it. A number `aVal` against a
      string `bVal` gives −1, where JavaScript would convert the string to a
      number. In descending order a string `aVal` against a number `bVal`
      makes the code call `localeCompare` on the number, which throws a
      `TypeError`; the model compares the number's text instead. None of the
      four sortable columns (`data`, `nome`, `situacao`,
      `total_horas_ocorrencia`) holds numbers, so that case does not arise. */
  function Compare(a: Value, b: Value, d: Direction): (c: int)
    ensures a.Null? ==> c == 1
    ensures !a.Null? && b.Null? ==> c == -1
    ensures c != 0 ==> c == 1 || c == -1
  {
    if a.Null? then 1
    else if b.Null? then -1
    else if a.Str? then (if d == Asc then LocaleCompare(a.s, Show(b)) else LocaleCompare(Show(b), a.s))
    else if b.Num? then (if d == Asc then (if a.n > b.n then 1 else -1) else (if a.n < b.n then 1 else -1))
    else -1
  }

  /** The ascending order on non-empty cells: numbers by value, strings by
      code point, numbers before strings. */
  predicate Ascending(x: Value, y: Value)
  {
    match (x, y)
    case (Str(s), Str(t)) => StrLe(s, t)
    case (Num(m), Num(n)) => m <= n
    case (Num(_), Str(_)) => true
    case _ => false
  }

  /** The order the comparator means: empty cells last in either direction,
      the rest ascending or descending. */
  predicate ValueLe(x: Value, y: Value, d: Direction)
  {
    if x.Null? then y.Null?
    else if y.Null? then true
    else if d == Asc then Ascending(x, y) else Ascending(y, x)
  }

  function CellLe(key: string, d: Direction): (Occurrence, Occurrence) -> bool
  {
    (a: Occurrence, b: Occurrence) => ValueLe(Cell(a, key), Cell(b, key), d)
  }

  /** Values of one kind, or an empty one. */
  predicate Comparable(x: Value, y: Value)
  {
    x.Null? || y.Null? || (x.Str? && y.Str?) || (x.Num? && y.Num?)
  }

  /** Wherever the comparator is consistent -- not on two empty cells, which
      it calls greater than each other, not on two equal numbers, which it
      calls less than each other, and not on a number against a string -- it
      places `a` first exactly when the intended order does. */
  lemma CompareAgrees(a: Value, b: Value, d: Direction)
    requires !(a.Null? && b.Null?) && Comparable(a, b)
    ensures Compare(a, b, d) <= 0 <==> ValueLe(a, b, d)
  {
    if a.Str? && b.Str? {
      StrLeTotal(a.s, b.s);
      if StrLe(a.s, b.s) && StrLe(b.s, a.s) { StrLeAntisymmetric(a.s, b.s); }
    }
  }

  /** The comparator is not an order on two empty cells (each sorts after
      the other) or on two equal numbers (each sorts before the other). */
  lemma CompareInconsistent(n: int, d: Direction)
    ensures Compare(Null, Null, d) > 0
    ensures Compare(Num(n), Num(n), d) < 0
  {
  }

  lemma ValueLeTotal(x: Value, y: Value, d: Direction)
    ensures ValueLe(x, y, d) || ValueLe(y, x, d)
  {
    if x.Str? && y.Str? { StrLeTotal(x.s, y.s); }
  }

  lemma ValueLeTransitive(x: Value, y: Value, z: Value, d: Direction)
    requires ValueLe(x, y, d) && ValueLe(y, z, d)
    ensures ValueLe(x, z, d)
  {
    if x.Str? && y.Str? && z.Str? {
      if d == Asc { StrLeTransitive(x.s, y.s, z.s); } else { StrLeTransitive(z.s, y.s, x.s); }
    }
  }

  lemma ValueLePreorder(key: string, d: Direction)
    ensures TotalPreorder(CellLe(key, d))
  {
    forall a: Occurrence, b: Occurrence ensures CellLe(key, d)(a, b) || CellLe(key, d)(b, a) {
      ValueLeTotal(Cell(a, key), Cell(b, key), d);
    }
    forall a: Occurrence, b: Occurrence, c: Occurrence | CellLe(key, d)(a, b) && CellLe(key, d)(b, c)
      ensures CellLe(key, d)(a, c)
    {
      ValueLeTransitive(Cell(a, key), Cell(b, key), Cell(c, key), d);
    }
  }

  /** `!sortConfig.key`. */
  predicate Unsorted(config: SortConfig)
  {
    config.key.None? || config.key.value == ""
  }

  /** `sortedData`: the page itself when no column is chosen, otherwise a
      sorted copy of it. */
  function SortedData(page: seq<Occurrence>, config: SortConfig): seq<Occurrence>
  {
    if Unsorted(config) then page else Sort(page, CellLe(config.key.value, config.direction))
  }

  /** The sort rearranges the visible page and nothing else: the same
      records, in column order, the empty cells last. */
  lemma SortedDataFacts(page: seq<Occurrence>, config: SortConfig)
    ensures multiset(SortedData(page, config)) == multiset(page)
    ensures Unsorted(config) ==> SortedData(page, config) == page
    ensures !Unsorted(config) ==> SortedBy(SortedData(page, config), CellLe(config.key.value, config.direction))
    ensures !Unsorted(config) ==> var r := SortedData(page, config);
      forall i, j :: 0 <= i < j < |r| && Cell(r[i], config.key.value).Null? ==> Cell(r[j], config.key.value).Null?
  {
    if !Unsorted(config) {
      var key := config.key.value;
      ValueLePreorder(key, config.direction);
      SortSorted(page, CellLe(key, config.direction));
      var r := SortedData(page, config);
      forall i, j | 0 <= i < j < |r| && Cell(r[i], key).Null? ensures Cell(r[j], key).Null? {
        assert CellLe(key, config.direction)(r[i], r[j]);
      }
    }
  }

  // ---------------------------------------------------------------------------
  // Navigation

  function Max(a: int, b: int): int { if a >= b then a else b }
  function Min(a: int, b: int): int { if a <= b then a else b }

  /** From any page of a table with pages, each button lands on a page of
      the table; Next and Previous undo each other away from the ends. */
  lemma NavigationInRange(p: int, totalPages: nat)
    requires 1 <= p <= totalPages
    ensures 1 <= Max(1, p - 1) <= totalPages && 1 <= Min(totalPages, p + 1) <= totalPages
    ensures p < totalPages ==> Max(1, Min(totalPages, p + 1) - 1) == p
    ensures p > 1 ==> Min(totalPages, Max(1, p - 1) + 1) == p
    ensures p == 1 ==> Max(1, p - 1) == p
    ensures p == totalPages ==> Min(totalPages, p + 1) == p
  {
  }

  /** The pagination controls appear when the records fill more than one
      page. */
  predicate ShowPagination(totalPages: nat) { totalPages > 1 }

  predicate ExportDisabled(totalRecords: nat) { totalRecords == 0 }

  /** The controls appear exactly when there are more than 25 records, and
      the export button is disabled exactly when the workbook would be
      empty. */
  lemma GuardsFacts(tableData: seq<Occurrence>)
    ensures ShowPagination(TotalPages(|tableData|)) <==> |tableData| > PageSize
    ensures ExportDisabled(|tableData|) <==> W.WorkbookOf(tableData).None?
  {
    W.WorkbookShape(tableData);
  }

  class OccurrencesTableState {
    var sortConfig: SortConfig

    constructor()
      ensures sortConfig == InitialSort
    {
      sortConfig := InitialSort;
    }

    method HandleSort(key: string)
      modifies this
      ensures sortConfig == NextSort(old(sortConfig), key)
    {
      var direction := Asc;
      if sortConfig.key == Some(key) && sortConfig.direction == Asc {
        direction := Desc;
      }
      sortConfig := SortConfig(Some(key), direction);
    }

    function Sorted(paginatedData: seq<Occurrence>): seq<Occurrence>
      reads this
    {
      SortedData(paginatedData, sortConfig)
    }

    /** The four navigation buttons. */
    method GoFirst(pages: TablePagination)
      modifies pages
      ensures pages.currentPage == 1
    {
      pages.SetCurrentPage(1);
    }

    method GoPrevious(pages: TablePagination)
      modifies pages
      ensures pages.currentPage == Max(1, old(pages.currentPage) - 1)
    {
      pages.SetCurrentPage(Max(1, pages.currentPage - 1));
    }

    method GoNext(pages: TablePagination, totalPages: nat)
      modifies pages
      ensures pages.currentPage == Min(totalPages, old(pages.currentPage) + 1)
    {
      pages.SetCurrentPage(Min(totalPages, pages.currentPage + 1));
    }

    method GoLast(pages: TablePagination, totalPages: nat)
      modifies pages
      ensures pages.currentPage == totalPages
    {
      pages.SetCurrentPage(totalPages);
    }

    /** `handleExport`: the workbook of the filtered records. */
    method HandleExport(tableData: seq<Occurrence>, timestamp: string) returns (workbook: Option<seq<W.Sheet>>, filename: Option<string>)
      ensures workbook == W.WorkbookOf(tableData)
      ensures filename.Some? <==> !ExportDisabled(|tableData|)
    {
      workbook, filename := W.ExportTableToExcel(tableData, timestamp);
    }
  }
}
