/** The occurrence workbook: the records sheet, one sheet per non-empty
    category, the roll-ups per collaborator and per base, and the summary.
    The workbook is the sequence of (sheet name, rows) pairs that the
    spreadsheet library receives. */
module Workbook {
  import opened Wrappers
  import opened Strings
  import opened Seqs
  import opened Sorting
  import opened Records
  import opened Workday
  import opened Categories

  // ---------------------------------------------------------------------------
  // Column order

  /** The columns that lead every records sheet, `base` in fourth place. */
  const ColumnOrder: seq<string> := [
    "data", "id_colaborador", "nome", "base", "situacao", "descricao_horario",
    "total_horas_ocorrencia", "justificativa"]

  /** `item.hasOwnProperty(key)`. */
  predicate HasKey(row: Row, k: string) { k in Keys(row) }

  function HasKeyIn(row: Row): string -> bool { (k: string) => HasKey(row, k) }

  predicate IsOtherKey(k: string) { k !in ColumnOrder }

  predicate IsOtherColumn(kv: (string, Value)) { IsOtherKey(kv.0) }

  /** The columns of `cols` that the row has, with their values, in the order
      of `cols`. */
  function PresentColumns(row: Row, cols: seq<string>): Row
  {
    if cols == [] then []
    else
      var c := cols[|cols| - 1];
      PresentColumns(row, cols[..|cols| - 1]) + (if HasKey(row, c) then [(c, Lookup(row, c))] else [])
  }

  /** A row as `reorderColumns` rebuilds it. */
  function ReorderedRow(row: Row): Row
  {
    PresentColumns(row, ColumnOrder) + Filter(row, IsOtherColumn)
  }

  lemma KeysAppend(a: Row, b: Row)
    ensures Keys(a + b) == Keys(a) + Keys(b)
  {
  }

  lemma {:induction false} PresentColumnsKeys(row: Row, cols: seq<string>)
    ensures Keys(PresentColumns(row, cols)) == Filter(cols, HasKeyIn(row))
  {
    if cols != [] {
      var p, c := cols[..|cols| - 1], cols[|cols| - 1];
      PresentColumnsKeys(row, p);
      assert cols == p + [c];
      FilterSnoc(p, c, HasKeyIn(row));
      KeysAppend(PresentColumns(row, p), if HasKey(row, c) then [(c, Lookup(row, c))] else []);
    }
  }

  lemma {:induction false} OtherColumnsKeys(row: Row)
    ensures Keys(Filter(row, IsOtherColumn)) == Filter(Keys(row), IsOtherKey)
  {
    if row != [] {
      OtherColumnsKeys(row[1..]);
      assert Keys(row) == [row[0].0] + Keys(row[1..]);
      KeysAppend(if IsOtherColumn(row[0]) then [row[0]] else [], Filter(row[1..], IsOtherColumn));
    }
  }

  /** `reorderColumns` puts the priority columns the row has first, in their
      fixed order, and the remaining keys after them in their original order. */
  lemma ReorderedKeys(row: Row)
    ensures Keys(ReorderedRow(row)) == Filter(ColumnOrder, HasKeyIn(row)) + Filter(Keys(row), IsOtherKey)
  {
    PresentColumnsKeys(row, ColumnOrder);
    OtherColumnsKeys(row);
    KeysAppend(PresentColumns(row, ColumnOrder), Filter(row, IsOtherColumn));
  }

  lemma {:induction false} LookupPresent(row: Row, k: string)
    requires HasKey(row, k)
    ensures (k, Lookup(row, k)) in row
  {
    if row[0].0 != k {
      assert Keys(row) == [row[0].0] + Keys(row[1..]);
      LookupPresent(row[1..], k);
    }
  }

  lemma {:induction false} LookupEntry(row: Row, k: string, v: Value)
    requires WellFormedRow(row) && (k, v) in row
    ensures Lookup(row, k) == v
  {
    if row[0].0 != k {
      LookupEntry(row[1..], k, v);
    }
  }

  lemma {:induction false} PresentColumnsEntries(row: Row, cols: seq<string>, kv: (string, Value))
    requires WellFormedRow(row)
    ensures kv in PresentColumns(row, cols) <==> kv in row && kv.0 in cols
  {
    if cols != [] {
      var p, c := cols[..|cols| - 1], cols[|cols| - 1];
      PresentColumnsEntries(row, p, kv);
      assert cols == p + [c];
      if kv in row && kv.0 == c {
        LookupEntry(row, kv.0, kv.1);
        assert kv.0 in Keys(row);
      }
      if HasKey(row, c) { LookupPresent(row, c); }
    }
  }

  /** Reordering keeps every key/value pair of the row and adds none. */
  lemma ReorderedEntries(row: Row, kv: (string, Value))
    requires WellFormedRow(row)
    ensures kv in ReorderedRow(row) <==> kv in row
  {
    PresentColumnsEntries(row, ColumnOrder, kv);
  }

  /** The first loop of `reorderColumns`: copy the columns of `cols` that
      the row has, in the order of `cols`. */
  method CopyColumns(item: Row, cols: seq<string>) returns (ordered: Row)
    ensures ordered == PresentColumns(item, cols)
  {
    ordered := [];
    for i := 0 to |cols|
      invariant ordered == PresentColumns(item, cols[..i])
    {
      assert cols[..i + 1][..i] == cols[..i];
      var col := cols[i];
      if col in Keys(item) {
        ordered := ordered + [(col, Lookup(item, col))];
      }
    }
    assert cols[..|cols|] == cols;
  }

  /** One row of `reorderColumns`: the priority columns, then the rest. */
  method ReorderRow(item: Row) returns (ordered: Row)
    ensures ordered == ReorderedRow(item)
  {
    ordered := CopyColumns(item, ColumnOrder);
    ghost var front := ordered;
    for i := 0 to |item|
      invariant ordered == front + Filter(item[..i], IsOtherColumn)
    {
      FilterStep(item, i, IsOtherColumn);
      if IsOtherColumn(item[i]) {
        ordered := ordered + [item[i]];
      }
    }
    assert item[..|item|] == item;
  }

  function ReorderedRows(data: seq<Row>): (r: seq<Row>)
    ensures |r| == |data|
  {
    seq(|data|, i requires 0 <= i < |data| => ReorderedRow(data[i]))
  }

  /** `reorderColumns`. */
  method ReorderColumns(data: seq<Row>) returns (result: seq<Row>)
    ensures result == ReorderedRows(data)
  {
    result := [];
    for i := 0 to |data|
      invariant |result| == i && forall j :: 0 <= j < i ==> result[j] == ReorderedRow(data[j])
    {
      var ordered := ReorderRow(data[i]);
      result := result + [ordered];
    }
  }

  function ToRows(xs: seq<Occurrence>): (r: seq<Row>)
    ensures |r| == |xs|
  {
    seq(|xs|, i requires 0 <= i < |xs| => ToRow(xs[i]))
  }

  // ---------------------------------------------------------------------------
  // Hours as text

  /** The hundredths in `(a / 60).toFixed(2)`: `5a/3` rounded to the nearest
      integer (it is never halfway). */
  function Cents(a: nat): nat
  {
    (10 * a + 3) / 6
  }

  /** `Cents(a) / 100` is the two-decimal number nearest to `a / 60`, and no
      other two-decimal number is as near. */
  lemma CentsNearest(a: nat)
    ensures 10 * a - 3 <= 6 * Cents(a) <= 10 * a + 3
    ensures forall n: int :: 10 * a - 3 <= 6 * n <= 10 * a + 3 ==> n == Cents(a)
  {
    // With a = 3k + t, 10a + 3 is 6 * 5k plus 3, 13 or 23: the rounded
    // hundredths are 5k, 5k + 2 or 5k + 3, and a remainder of 3, 1 or 5
    // leaves no other multiple of 6 within 3 of 10a.
    var k, t := a / 3, a % 3;
    assert a == 3 * k + t;
    var c := Cents(a);
    if t == 0 {
      assert 10 * a + 3 == 6 * (5 * k) + 3;
      assert c == 5 * k;
    } else if t == 1 {
      assert 10 * a + 3 == 6 * (5 * k + 2) + 1;
      assert c == 5 * k + 2;
    } else {
      assert 10 * a + 3 == 6 * (5 * k + 3) + 5;
      assert c == 5 * k + 3;
    }
  }

  function TwoDigits(c: nat): (s: string)
    requires c < 100
    ensures |s| == 2 && AllDigits(s) && DigitsValue(s) == c
  {
    var s := [DigitChar(c / 10), DigitChar(c % 10)];
    assert s[..1] == [DigitChar(c / 10)] && s[..1][..0] == [];
    assert DigitsValue(s[..1]) == c / 10;
    assert DigitsValue(s) == 10 * (c / 10) + c % 10;
    s
  }

  function Fixed2Nat(a: nat): string
  {
    var c := Cents(a);
    NatToString(c / 100) + "." + TwoDigits(c % 100)
  }

  /** `(m / 60).toFixed(2)` for a whole number of minutes. */
  function HoursFixed2(m: int): string
  {
    if m < 0 then "-" + Fixed2Nat(-m) else Fixed2Nat(m)
  }

  /** The text reads back as the rounded hours: integer digits, a point, and
      two decimals whose value together is `Cents(a)`. */
  lemma Fixed2Digits(a: nat)
    ensures var t := Fixed2Nat(a);
      && |t| >= 4 && t[|t| - 3] == '.'
      && AllDigits(t[..|t| - 3]) && AllDigits(t[|t| - 2..])
      && DigitsValue(t[..|t| - 3]) * 100 + DigitsValue(t[|t| - 2..]) == Cents(a)
  {
    var c := Cents(a);
    var t := Fixed2Nat(a);
    var whole := NatToString(c / 100);
    assert t[..|t| - 3] == whole;
    assert t[|t| - 2..] == TwoDigits(c % 100);
    NatToStringValue(c / 100);
  }

  /** `minutes !== null ? (minutes / 60).toFixed(2) : 'N/A'`. */
  function HoursText(o: Option<int>): string
  {
    if o.Some? then HoursFixed2(o.value) else "N/A"
  }

  /** An incompatible record with the two computed columns appended. */
  function EnrichRow(r: Occurrence): Row
  {
    ToRow(r) + [
      ("horas_calculadas_escala", Str(HoursText(ParseEscalaHours(r.escala)))),
      ("horas_calculadas_descricao", Str(HoursText(ParseDescricaoHorarioHours(r.descricaoHorario))))]
  }

  function EnrichRows(xs: seq<Occurrence>): (r: seq<Row>)
    ensures |r| == |xs|
  {
    seq(|xs|, i requires 0 <= i < |xs| => EnrichRow(xs[i]))
  }

  // ---------------------------------------------------------------------------
  // De-duplication of the incompatibilities

  /** The `seen` filter: the first incompatible record of every
      collaborator-day. */
  method DedupIncompatibilidades(xs: seq<Occurrence>) returns (unique: seq<Occurrence>)
    ensures unique == FirstBy(xs, KeyOf)
  {
    var seen: set<DayKey> := {};
    unique := [];
    for i := 0 to |xs|
      invariant seen == KeySet(xs[..i], KeyOf)
      invariant unique == FirstBy(xs[..i], KeyOf)
    {
      FirstByStep(xs, i, KeyOf);
      var key := KeyOf(xs[i]);
      if key !in seen {
        seen := seen + {key};
        unique := unique + [xs[i]];
      }
    }
    assert xs[..|xs|] == xs;
  }

  /** The de-duplicated list keeps exactly the first record of every
      collaborator-day: a subsequence, with pairwise distinct days, covering
      every day, each kept record the first of its day. */
  lemma DedupFacts(xs: seq<Occurrence>)
    ensures Subseq(FirstBy(xs, KeyOf), xs)
    ensures var u := FirstBy(xs, KeyOf); forall i, j :: 0 <= i < j < |u| ==> KeyOf(u[i]) != KeyOf(u[j])
    ensures KeySet(FirstBy(xs, KeyOf), KeyOf) == KeySet(xs, KeyOf)
    ensures forall i :: 0 <= i < |FirstBy(xs, KeyOf)| ==>
      exists j :: 0 <= j < |xs| && xs[j] == FirstBy(xs, KeyOf)[i] && forall l :: 0 <= l < j ==> KeyOf(xs[l]) != KeyOf(xs[j])
  {
    FirstBySubseq(xs, KeyOf);
    FirstByDistinct(xs, KeyOf);
    FirstByKeys(xs, KeyOf);
    FirstByFirst(xs, KeyOf);
  }

  // ---------------------------------------------------------------------------
  // Counting

  /** `contagem[key] || 0`. */
  function Get(m: map<string, nat>, k: string): nat
  {
    if k in m then m[k] else 0
  }

  /** The number of records of `xs` whose key is `k`. */
  function CountKey(xs: seq<Occurrence>, key: Occurrence -> string, k: string): nat
  {
    if xs == [] then 0
    else CountKey(xs[..|xs| - 1], key, k) + (if key(xs[|xs| - 1]) == k then 1 else 0)
  }

  /** `contarPorColaborador` / `contarPorBase`: a key is present exactly when
      some record has it, with the number of records that have it. */
  method ContarPor(data: seq<Occurrence>, key: Occurrence -> string) returns (contagem: map<string, nat>)
    ensures forall k :: k in contagem <==> CountKey(data, key, k) > 0
    ensures forall k :: Get(contagem, k) == CountKey(data, key, k)
  {
    contagem := map[];
    for i := 0 to |data|
      invariant forall k :: k in contagem <==> CountKey(data[..i], key, k) > 0
      invariant forall k :: Get(contagem, k) == CountKey(data[..i], key, k)
    {
      assert data[..i + 1][..i] == data[..i];
      var k := key(data[i]);
      contagem := contagem[k := Get(contagem, k) + 1];
    }
    assert data[..|data|] == data;
  }

  lemma {:induction false} CountKeyPositive(xs: seq<Occurrence>, key: Occurrence -> string, k: string)
    ensures CountKey(xs, key, k) > 0 <==> exists r :: r in xs && key(r) == k
  {
    if xs != [] {
      var p := xs[..|xs| - 1];
      CountKeyPositive(p, key, k);
      assert xs == p + [xs[|xs| - 1]];
      if CountKey(p, key, k) > 0 {
        var r :| r in p && key(r) == k;
        assert r in xs;
      }
    }
  }

  /** A collaborator's counts are keyed by `String(id_colaborador)`. */
  function ColabKey(r: Occurrence): string { Show(r.idColaborador) }

  /** `base || 'Sem Base'`. */
  function BaseOrSemBase(b: string): string
  {
    if b == "" then "Sem Base" else b
  }

  function BaseKey(r: Occurrence): string { BaseOrSemBase(r.base) }

  // ---------------------------------------------------------------------------
  // Collaborators and bases

  datatype Colaborador = Colaborador(idColaborador: Value, nome: Option<string>, base: string)

  /** `colaboradoresMap` is keyed by the id value itself. */
  function IdOf(r: Occurrence): Value { r.idColaborador }

  function ColaboradorOf(r: Occurrence): Colaborador
  {
    Colaborador(r.idColaborador, r.nome, BaseOrSemBase(r.base))
  }

  /** `colaboradoresMap.values()`: one entry per distinct id, taken from its
      first record. */
  function Colaboradores(all: seq<Occurrence>): (cs: seq<Colaborador>)
    ensures |cs| == |FirstBy(all, IdOf)|
  {
    var f := FirstBy(all, IdOf);
    seq(|f|, i requires 0 <= i < |f| => ColaboradorOf(f[i]))
  }

  /** The options of the first records, one record more. */
  lemma ColabsSnoc(f: seq<Occurrence>, x: Occurrence)
    ensures seq(|f + [x]|, j requires 0 <= j < |f + [x]| => ColaboradorOf((f + [x])[j]))
      == seq(|f|, j requires 0 <= j < |f| => ColaboradorOf(f[j])) + [ColaboradorOf(x)]
  {
  }

  method CollectColaboradores(all: seq<Occurrence>) returns (cs: seq<Colaborador>)
    ensures cs == Colaboradores(all)
  {
    var seen: set<Value> := {};
    ghost var firsts: seq<Occurrence> := [];
    cs := [];
    for i := 0 to |all|
      invariant seen == KeySet(all[..i], IdOf)
      invariant firsts == FirstBy(all[..i], IdOf)
      invariant cs == seq(|firsts|, j requires 0 <= j < |firsts| => ColaboradorOf(firsts[j]))
    {
      FirstByStep(all, i, IdOf);
      var id := IdOf(all[i]);
      if id !in seen {
        seen := seen + {id};
        ColabsSnoc(firsts, all[i]);
        firsts := firsts + [all[i]];
        cs := cs + [ColaboradorOf(all[i])];
      }
    }
    assert all[..|all|] == all;
  }

  /** `basesSet`: every `base || 'Sem Base'`, once, in order of appearance. */
  function Bases(all: seq<Occurrence>): (bs: seq<string>)
    ensures |bs| == |FirstBy(all, BaseKey)|
  {
    var f := FirstBy(all, BaseKey);
    seq(|f|, i requires 0 <= i < |f| => BaseKey(f[i]))
  }

  method CollectBases(all: seq<Occurrence>) returns (bs: seq<string>)
    ensures bs == Bases(all)
  {
    var basesSet: set<string> := {};
    ghost var firsts: seq<Occurrence> := [];
    bs := [];
    for i := 0 to |all|
      invariant basesSet == KeySet(all[..i], BaseKey)
      invariant firsts == FirstBy(all[..i], BaseKey)
      invariant |bs| == |firsts| && forall j :: 0 <= j < |bs| ==> bs[j] == BaseKey(firsts[j])
    {
      FirstByStep(all, i, BaseKey);
      var base := BaseOrSemBase(all[i].base);
      if base !in basesSet {
        basesSet := basesSet + {base};
        firsts := firsts + [all[i]];
        bs := bs + [base];
      }
    }
    assert all[..|all|] == all;
  }

  // ---------------------------------------------------------------------------
  // Roll-ups

  /** The six category lists, incompatibilities before de-duplication. */
  datatype Lists = Lists(
    marcacoes: seq<Occurrence>,
    debitoCredito: seq<Occurrence>,
    horasExtras: seq<Occurrence>,
    folgas: seq<Occurrence>,
    debitoBH: seq<Occurrence>,
    incompatibilidades: seq<Occurrence>)

  function ListsOf(all: seq<Occurrence>): Lists
  {
    Lists(Filter(all, IsMarcacaoInvalida), DebitoCredito(all), Filter(all, IsHorasExtras6h),
      Filter(all, IsFolgaTrabalhada), Filter(all, IsDebitoBH), Filter(all, IsIncompatibleWorkday))
  }

  datatype Counts = Counts(marcacoes: nat, debitoCredito: nat, horasExtras: nat, folgas: nat, debitoBH: nat, incompatibilidade: nat)

  function Total(c: Counts): nat
  {
    c.marcacoes + c.debitoCredito + c.horasExtras + c.folgas + c.debitoBH + c.incompatibilidade
  }

  /** The six counts of key `k`. */
  function CountsOf(ls: Lists, key: Occurrence -> string, k: string): Counts
  {
    Counts(CountKey(ls.marcacoes, key, k), CountKey(ls.debitoCredito, key, k), CountKey(ls.horasExtras, key, k),
      CountKey(ls.folgas, key, k), CountKey(ls.debitoBH, key, k), CountKey(ls.incompatibilidades, key, k))
  }

  /** The six `contagem` dictionaries of one roll-up. */
  datatype Contagens = Contagens(
    marcacoes: map<string, nat>, debitoCredito: map<string, nat>, horasExtras: map<string, nat>,
    folgas: map<string, nat>, debitoBH: map<string, nat>, incompatibilidades: map<string, nat>)

  function CountsIn(m: Contagens, k: string): Counts
  {
    Counts(Get(m.marcacoes, k), Get(m.debitoCredito, k), Get(m.horasExtras, k),
      Get(m.folgas, k), Get(m.debitoBH, k), Get(m.incompatibilidades, k))
  }

  method ContarTodas(ls: Lists, key: Occurrence -> string) returns (m: Contagens)
    ensures forall k :: CountsIn(m, k) == CountsOf(ls, key, k)
  {
    var m1 := ContarPor(ls.marcacoes, key);
    var m2 := ContarPor(ls.debitoCredito, key);
    var m3 := ContarPor(ls.horasExtras, key);
    var m4 := ContarPor(ls.folgas, key);
    var m5 := ContarPor(ls.debitoBH, key);
    var m6 := ContarPor(ls.incompatibilidades, key);
    m := Contagens(m1, m2, m3, m4, m5, m6);
  }

  datatype ColabRollup = ColabRollup(idColaborador: Value, nome: Option<string>, base: string, counts: Counts, total: nat)

  function ColabRollupOf(c: Colaborador, ls: Lists): ColabRollup
  {
    var n := CountsOf(ls, ColabKey, Show(c.idColaborador));
    ColabRollup(c.idColaborador, c.nome, c.base, n, Total(n))
  }

  /** `(a, b) => b.Total - a.Total`: `a` may precede `b`. */
  function ColabByTotal(a: ColabRollup, b: ColabRollup): bool { a.total >= b.total }

  function ColabRows(all: seq<Occurrence>, ls: Lists): seq<ColabRollup>
  {
    var cs := Colaboradores(all);
    Sort(seq(|cs|, i requires 0 <= i < |cs| => ColabRollupOf(cs[i], ls)), ColabByTotal)
  }

  /** `ocorrenciasPorColaborador`, sorted by total. */
  method OcorrenciasPorColaborador(all: seq<Occurrence>, ls: Lists) returns (rows: seq<ColabRollup>)
    ensures rows == ColabRows(all, ls)
  {
    var colabs := CollectColaboradores(all);
    var contagem := ContarTodas(ls, ColabKey);
    var unsorted := [];
    for i := 0 to |colabs|
      invariant |unsorted| == i && forall j :: 0 <= j < i ==> unsorted[j] == ColabRollupOf(colabs[j], ls)
    {
      var c := colabs[i];
      var n := CountsIn(contagem, Show(c.idColaborador));
      assert n == CountsOf(ls, ColabKey, Show(c.idColaborador));
      unsorted := unsorted + [ColabRollup(c.idColaborador, c.nome, c.base, n, Total(n))];
    }
    assert unsorted == seq(|colabs|, i requires 0 <= i < |colabs| => ColabRollupOf(colabs[i], ls));
    rows := Sort(unsorted, ColabByTotal);
  }

  datatype BaseRollup = BaseRollup(base: string, counts: Counts, total: nat)

  function BaseRollupOf(b: string, ls: Lists): BaseRollup
  {
    var n := CountsOf(ls, BaseKey, b);
    BaseRollup(b, n, Total(n))
  }

  function BaseByTotal(a: BaseRollup, b: BaseRollup): bool { a.total >= b.total }

  function BaseRows(all: seq<Occurrence>, ls: Lists): seq<BaseRollup>
  {
    var bs := Bases(all);
    Sort(seq(|bs|, i requires 0 <= i < |bs| => BaseRollupOf(bs[i], ls)), BaseByTotal)
  }

  /** `ocorrenciasPorBase`, sorted by total. */
  method OcorrenciasPorBase(all: seq<Occurrence>, ls: Lists) returns (rows: seq<BaseRollup>)
    ensures rows == BaseRows(all, ls)
  {
    var bases := CollectBases(all);
    var contagem := ContarTodas(ls, BaseKey);
    var unsorted := [];
    for i := 0 to |bases|
      invariant |unsorted| == i && forall j :: 0 <= j < i ==> unsorted[j] == BaseRollupOf(bases[j], ls)
    {
      var n := CountsIn(contagem, bases[i]);
      assert n == CountsOf(ls, BaseKey, bases[i]);
      unsorted := unsorted + [BaseRollup(bases[i], n, Total(n))];
    }
    assert unsorted == seq(|bases|, i requires 0 <= i < |bases| => BaseRollupOf(bases[i], ls));
    rows := Sort(unsorted, BaseByTotal);
  }

  function RowId(row: ColabRollup): Value { row.idColaborador }

  function RowBase(row: BaseRollup): string { row.base }

  /** The ids of the first records are the ids of all records, once each. */
  lemma ColaboradoresIds(all: seq<Occurrence>, ls: Lists)
    ensures var cs := Colaboradores(all);
      var unsorted := seq(|cs|, i requires 0 <= i < |cs| => ColabRollupOf(cs[i], ls));
      KeySet(unsorted, RowId) == KeySet(all, IdOf) && DistinctBy(unsorted, RowId)
  {
    var cs := Colaboradores(all);
    var f := FirstBy(all, IdOf);
    var unsorted := seq(|cs|, i requires 0 <= i < |cs| => ColabRollupOf(cs[i], ls));
    FirstByDistinct(all, IdOf);
    FirstByKeys(all, IdOf);
    forall v ensures v in KeySet(unsorted, RowId) <==> v in KeySet(f, IdOf) {
      if v in KeySet(f, IdOf) {
        var x :| x in f && IdOf(x) == v;
        var i :| 0 <= i < |f| && f[i] == x;
        assert RowId(unsorted[i]) == v;
      }
      if v in KeySet(unsorted, RowId) {
        var row :| row in unsorted && RowId(row) == v;
        var i :| 0 <= i < |unsorted| && unsorted[i] == row;
        assert f[i] in f;
      }
    }
  }

  /** One roll-up row per distinct collaborator id, each with the six counts
      of its printed id and their sum, in non-increasing order of total. */
  lemma ColabRowsFacts(all: seq<Occurrence>, ls: Lists)
    ensures var rows := ColabRows(all, ls);
      && (forall i, j :: 0 <= i < j < |rows| ==> rows[i].total >= rows[j].total)
      && DistinctBy(rows, RowId)
      && KeySet(rows, RowId) == KeySet(all, IdOf)
      && (forall row :: row in rows ==>
            row.counts == CountsOf(ls, ColabKey, Show(row.idColaborador)) && row.total == Total(row.counts))
  {
    var cs := Colaboradores(all);
    var unsorted := seq(|cs|, i requires 0 <= i < |cs| => ColabRollupOf(cs[i], ls));
    assert TotalPreorder(ColabByTotal);
    SortSorted(unsorted, ColabByTotal);
    ColaboradoresIds(all, ls);
    SortDistinct(unsorted, ColabByTotal, RowId);
    SortMembers(unsorted, ColabByTotal);
    KeySetSameMembers(Sort(unsorted, ColabByTotal), unsorted, RowId);
  }

  lemma BasesKeys(all: seq<Occurrence>, ls: Lists)
    ensures var bs := Bases(all);
      var unsorted := seq(|bs|, i requires 0 <= i < |bs| => BaseRollupOf(bs[i], ls));
      KeySet(unsorted, RowBase) == KeySet(all, BaseKey) && DistinctBy(unsorted, RowBase)
  {
    var bs := Bases(all);
    var f := FirstBy(all, BaseKey);
    var unsorted := seq(|bs|, i requires 0 <= i < |bs| => BaseRollupOf(bs[i], ls));
    FirstByDistinct(all, BaseKey);
    FirstByKeys(all, BaseKey);
    forall b ensures b in KeySet(unsorted, RowBase) <==> b in KeySet(f, BaseKey) {
      if b in KeySet(f, BaseKey) {
        var x :| x in f && BaseKey(x) == b;
        var i :| 0 <= i < |f| && f[i] == x;
        assert RowBase(unsorted[i]) == b;
      }
      if b in KeySet(unsorted, RowBase) {
        var row :| row in unsorted && RowBase(row) == b;
        var i :| 0 <= i < |unsorted| && unsorted[i] == row;
        assert f[i] in f;
      }
    }
  }

  /** One roll-up row per distinct base (a missing base shown as `Sem Base`),
      each with the six counts of that base and their sum, in non-increasing
      order of total. */
  lemma BaseRowsFacts(all: seq<Occurrence>, ls: Lists)
    ensures var rows := BaseRows(all, ls);
      && (forall i, j :: 0 <= i < j < |rows| ==> rows[i].total >= rows[j].total)
      && DistinctBy(rows, RowBase)
      && KeySet(rows, RowBase) == KeySet(all, BaseKey)
      && (forall row :: row in rows ==> row.counts == CountsOf(ls, BaseKey, row.base) && row.total == Total(row.counts))
  {
    var bs := Bases(all);
    var unsorted := seq(|bs|, i requires 0 <= i < |bs| => BaseRollupOf(bs[i], ls));
    assert TotalPreorder(BaseByTotal);
    SortSorted(unsorted, BaseByTotal);
    BasesKeys(all, ls);
    SortDistinct(unsorted, BaseByTotal, RowBase);
    SortMembers(unsorted, BaseByTotal);
    KeySetSameMembers(Sort(unsorted, BaseByTotal), unsorted, RowBase);
  }

  // ---------------------------------------------------------------------------
  // Sheets and summary

  datatype Category = MarcacoesInvalidas | DebitoECredito | HorasExtras6h | FolgasTrabalhadas | DebitoBH | IncompatibilidadeJornada

  /** The category sheets in the order the workbook adds them. */
  const SheetCategories: seq<Category> := [MarcacoesInvalidas, DebitoECredito, HorasExtras6h, FolgasTrabalhadas, DebitoBH, IncompatibilidadeJornada]

  function SheetName(c: Category): string
  {
    match c
    case MarcacoesInvalidas => "Marcações Inválidas"
    case DebitoECredito => "Débito e Crédito"
    case HorasExtras6h => "Horas Extras +6h"
    case FolgasTrabalhadas => "Folgas Trabalhadas"
    case DebitoBH => "Débito BH"
    case IncompatibilidadeJornada => "Incompatibilidade Jornada"
  }

  /** The list whose length decides whether the category gets a sheet. */
  function Items(ls: Lists, c: Category): seq<Occurrence>
  {
    match c
    case MarcacoesInvalidas => ls.marcacoes
    case DebitoECredito => ls.debitoCredito
    case HorasExtras6h => ls.horasExtras
    case FolgasTrabalhadas => ls.folgas
    case DebitoBH => ls.debitoBH
    case IncompatibilidadeJornada => ls.incompatibilidades
  }

  /** The records the sheet shows and the summary counts: the
      incompatibilities once per collaborator-day. */
  function SheetItems(ls: Lists, c: Category): seq<Occurrence>
  {
    if c == IncompatibilidadeJornada then FirstBy(ls.incompatibilidades, KeyOf) else Items(ls, c)
  }

  function SheetRows(ls: Lists, c: Category): seq<Row>
  {
    if c == IncompatibilidadeJornada then ReorderedRows(EnrichRows(SheetItems(ls, c)))
    else ReorderedRows(ToRows(SheetItems(ls, c)))
  }

  /** A summary row: the sheet, its number of records and the sum of their
      decimal hours. */
  datatype ResumoEntry = ResumoEntry(aba: string, totalOcorrencias: nat, totalHoras: real)

  datatype Content =
    | RecordRows(rows: seq<Row>)
    | PorColaborador(colabs: seq<ColabRollup>)
    | PorBase(bases: seq<BaseRollup>)
    | Resumo(entries: seq<ResumoEntry>)

  datatype Sheet = Sheet(name: string, content: Content)

  function SheetFor(ls: Lists, c: Category): Sheet
  {
    Sheet(SheetName(c), RecordRows(SheetRows(ls, c)))
  }

  function EntryFor(ls: Lists, c: Category): ResumoEntry
  {
    ResumoEntry(SheetName(c), |SheetItems(ls, c)|, SumHours(SheetItems(ls, c)))
  }

  predicate NonEmpty(ls: Lists, c: Category) { |Items(ls, c)| > 0 }

  function SheetIf(ls: Lists, c: Category): seq<Sheet>
  {
    if NonEmpty(ls, c) then [SheetFor(ls, c)] else []
  }

  function EntryIf(ls: Lists, c: Category): seq<ResumoEntry>
  {
    if NonEmpty(ls, c) then [EntryFor(ls, c)] else []
  }

  function CategorySheets(ls: Lists): seq<Sheet>
  {
    SheetIf(ls, MarcacoesInvalidas) + SheetIf(ls, DebitoECredito) + SheetIf(ls, HorasExtras6h)
    + SheetIf(ls, FolgasTrabalhadas) + SheetIf(ls, DebitoBH) + SheetIf(ls, IncompatibilidadeJornada)
  }

  function CategoryEntries(ls: Lists): seq<ResumoEntry>
  {
    EntryIf(ls, MarcacoesInvalidas) + EntryIf(ls, DebitoECredito) + EntryIf(ls, HorasExtras6h)
    + EntryIf(ls, FolgasTrabalhadas) + EntryIf(ls, DebitoBH) + EntryIf(ls, IncompatibilidadeJornada)
  }

  const DadosName := "Dados"
  const PorColaboradorName := "Ocorrências por Colaborador"
  const PorBaseName := "Ocorrências por Base"
  const ResumoName := "Resumo"

  /** The sheets in the order the export adds them: the reordered records,
      the non-empty categories, the two roll-ups when non-empty and the
      summary, which starts with the records' own totals. */
  function Assemble(all: seq<Occurrence>, ls: Lists, colabs: seq<ColabRollup>, bases: seq<BaseRollup>): seq<Sheet>
  {
    [Sheet(DadosName, RecordRows(ReorderedRows(ToRows(all))))]
    + CategorySheets(ls)
    + (if |colabs| > 0 then [Sheet(PorColaboradorName, PorColaborador(colabs))] else [])
    + (if |bases| > 0 then [Sheet(PorBaseName, PorBase(bases))] else [])
    + [Sheet(ResumoName, Resumo([ResumoEntry(DadosName, |all|, SumHours(all))] + CategoryEntries(ls)))]
  }

  /** The workbook `exportTableToExcel` writes; nothing for an empty list. */
  function WorkbookOf(all: seq<Occurrence>): Option<seq<Sheet>>
  {
    if |all| == 0 then None
    else
      var ls := ListsOf(all);
      Some(Assemble(all, ls, ColabRows(all, ls), BaseRows(all, ls)))
  }

  /** One category block of `exportTableToExcel`: when the category's list
      is non-empty, a sheet of its records with the columns reordered, and a
      summary row from `calcularTotais`; the incompatibilities are first
      reduced to one per collaborator-day and enriched with the computed
      hours. */
  method AddCategory(sheets: seq<Sheet>, resumo: seq<ResumoEntry>, ls: Lists, c: Category)
    returns (sheets': seq<Sheet>, resumo': seq<ResumoEntry>)
    ensures sheets' == sheets + SheetIf(ls, c)
    ensures resumo' == resumo + EntryIf(ls, c)
  {
    sheets', resumo' := sheets, resumo;
    var items := Items(ls, c);
    if |items| > 0 {
      var counted := items;
      var rows;
      if c == IncompatibilidadeJornada {
        counted := DedupIncompatibilidades(items);
        rows := EnrichRows(counted);
      } else {
        rows := ToRows(counted);
      }
      var worksheet := ReorderColumns(rows);
      sheets' := sheets' + [Sheet(SheetName(c), RecordRows(worksheet))];
      var total, horas := CalcularTotais(counted);
      resumo' := resumo' + [ResumoEntry(SheetName(c), total, horas)];
    }
  }

  /** The six lists of `exportTableToExcel`, computed as the export
      computes them. */
  method ComputeLists(all: seq<Occurrence>) returns (ls: Lists)
    ensures ls == ListsOf(all)
  {
    var marcacoes := Filter(all, IsMarcacaoInvalida);
    var groups := GroupByDay(all);
    var debitoCredito := CollectFlagged(groups);
    var horasExtras := Filter(all, IsHorasExtras6h);
    var folgas := Filter(all, IsFolgaTrabalhada);
    var debitosBH := Filter(all, IsDebitoBH);
    var incompatibilidades := Filter(all, IsIncompatibleWorkday);
    ls := Lists(marcacoes, debitoCredito, horasExtras, folgas, debitosBH, incompatibilidades);
  }

  /** The six category blocks, in the export's order. */
  method CategoryBlocks(ls: Lists) returns (sheets: seq<Sheet>, resumo: seq<ResumoEntry>)
    ensures sheets == CategorySheets(ls)
    ensures resumo == CategoryEntries(ls)
  {
    sheets, resumo := AddCategory([], [], ls, MarcacoesInvalidas);
    assert sheets == SheetIf(ls, MarcacoesInvalidas) && resumo == EntryIf(ls, MarcacoesInvalidas);
    sheets, resumo := AddCategory(sheets, resumo, ls, DebitoECredito);
    sheets, resumo := AddCategory(sheets, resumo, ls, HorasExtras6h);
    sheets, resumo := AddCategory(sheets, resumo, ls, FolgasTrabalhadas);
    sheets, resumo := AddCategory(sheets, resumo, ls, DebitoBH);
    sheets, resumo := AddCategory(sheets, resumo, ls, IncompatibilidadeJornada);
  }

  /** `exportTableToExcel`: the workbook and its file name. */
  method ExportTableToExcel(all: seq<Occurrence>, timestamp: string) returns (workbook: Option<seq<Sheet>>, filename: Option<string>)
    ensures workbook == WorkbookOf(all)
    ensures filename == if |all| == 0 then None else Some("tabela_ocorrencias_" + timestamp + ".xlsx")
  {
    if |all| == 0 {
      return None, None;
    }
    var dados := ReorderColumns(ToRows(all));
    var total, horas := CalcularTotais(all);
    var ls := ComputeLists(all);
    var categorySheets, categoryEntries := CategoryBlocks(ls);
    var sheets := [Sheet(DadosName, RecordRows(dados))] + categorySheets;
    var resumo := [ResumoEntry(DadosName, total, horas)] + categoryEntries;
    var porColaborador := OcorrenciasPorColaborador(all, ls);
    ghost var withColabs := sheets + (if |porColaborador| > 0 then [Sheet(PorColaboradorName, PorColaborador(porColaborador))] else []);
    if |porColaborador| > 0 {
      sheets := sheets + [Sheet(PorColaboradorName, PorColaborador(porColaborador))];
    } else {
      assert sheets + [] == sheets;
    }
    assert sheets == withColabs;
    var porBase := OcorrenciasPorBase(all, ls);
    ghost var withBases := sheets + (if |porBase| > 0 then [Sheet(PorBaseName, PorBase(porBase))] else []);
    if |porBase| > 0 {
      sheets := sheets + [Sheet(PorBaseName, PorBase(porBase))];
    } else {
      assert sheets + [] == sheets;
    }
    assert sheets == withBases;
    sheets := sheets + [Sheet(ResumoName, Resumo(resumo))];
    assert sheets == Assemble(all, ls, porColaborador, porBase);
    workbook := Some(sheets);
    filename := Some("tabela_ocorrencias_" + timestamp + ".xlsx");
  }

  // ---------------------------------------------------------------------------
  // What the workbook promises

  /** Each list holds the records of its rule: the debit/credit list the whole
      collaborator-days with both a credit and a debit. */
  lemma ListsMembers(all: seq<Occurrence>, x: Occurrence)
    ensures x in ListsOf(all).marcacoes <==> x in all && IsMarcacaoInvalida(x)
    ensures x in ListsOf(all).debitoCredito <==> x in all && InFlaggedDay(all, x)
    ensures x in ListsOf(all).horasExtras <==> x in all && IsHorasExtras6h(x)
    ensures x in ListsOf(all).folgas <==> x in all && IsFolgaTrabalhada(x)
    ensures x in ListsOf(all).debitoBH <==> x in all && IsDebitoBH(x)
    ensures x in ListsOf(all).incompatibilidades <==> x in all && IsIncompatibleWorkday(x)
  {
    DebitoCreditoMembers(all, x);
  }

  /** A summary row describes a sheet: same name, and it counts the records
      the sheet shows. */
  predicate Describes(e: ResumoEntry, sh: Sheet)
  {
    e.aba == sh.name && sh.content.RecordRows? && e.totalOcorrencias == |sh.content.rows|
  }

  predicate Aligned(entries: seq<ResumoEntry>, sheets: seq<Sheet>)
  {
    |entries| == |sheets| && forall i :: 0 <= i < |sheets| ==> Describes(entries[i], sheets[i])
  }

  lemma AlignedAppend(e1: seq<ResumoEntry>, s1: seq<Sheet>, e2: seq<ResumoEntry>, s2: seq<Sheet>)
    requires Aligned(e1, s1) && Aligned(e2, s2)
    ensures Aligned(e1 + e2, s1 + s2)
  {
    forall i | 0 <= i < |s1 + s2| ensures Describes((e1 + e2)[i], (s1 + s2)[i]) {
      if i < |s1| {
        assert (e1 + e2)[i] == e1[i] && (s1 + s2)[i] == s1[i];
      } else {
        assert (e1 + e2)[i] == e2[i - |s1|] && (s1 + s2)[i] == s2[i - |s1|];
      }
    }
  }

  lemma EntryDescribesSheet(ls: Lists, c: Category)
    ensures Aligned(EntryIf(ls, c), SheetIf(ls, c))
  {
    if NonEmpty(ls, c) {
      assert |SheetRows(ls, c)| == |SheetItems(ls, c)|;
    }
  }

  /** The summary has one row per category sheet, in the same order, each
      counting exactly the records its sheet shows (the incompatibilities
      after their reduction to one per collaborator-day). */
  lemma ResumoDescribesSheets(ls: Lists)
    ensures Aligned(CategoryEntries(ls), CategorySheets(ls))
  {
    EntryDescribesSheet(ls, MarcacoesInvalidas);
    EntryDescribesSheet(ls, DebitoECredito);
    EntryDescribesSheet(ls, HorasExtras6h);
    EntryDescribesSheet(ls, FolgasTrabalhadas);
    EntryDescribesSheet(ls, DebitoBH);
    EntryDescribesSheet(ls, IncompatibilidadeJornada);
    AlignedAppend(EntryIf(ls, MarcacoesInvalidas), SheetIf(ls, MarcacoesInvalidas),
      EntryIf(ls, DebitoECredito), SheetIf(ls, DebitoECredito));
    AlignedAppend(EntryIf(ls, MarcacoesInvalidas) + EntryIf(ls, DebitoECredito),
      SheetIf(ls, MarcacoesInvalidas) + SheetIf(ls, DebitoECredito),
      EntryIf(ls, HorasExtras6h), SheetIf(ls, HorasExtras6h));
    AlignedAppend(EntryIf(ls, MarcacoesInvalidas) + EntryIf(ls, DebitoECredito) + EntryIf(ls, HorasExtras6h),
      SheetIf(ls, MarcacoesInvalidas) + SheetIf(ls, DebitoECredito) + SheetIf(ls, HorasExtras6h),
      EntryIf(ls, FolgasTrabalhadas), SheetIf(ls, FolgasTrabalhadas));
    AlignedAppend(EntryIf(ls, MarcacoesInvalidas) + EntryIf(ls, DebitoECredito) + EntryIf(ls, HorasExtras6h)
      + EntryIf(ls, FolgasTrabalhadas),
      SheetIf(ls, MarcacoesInvalidas) + SheetIf(ls, DebitoECredito) + SheetIf(ls, HorasExtras6h)
      + SheetIf(ls, FolgasTrabalhadas),
      EntryIf(ls, DebitoBH), SheetIf(ls, DebitoBH));
    AlignedAppend(EntryIf(ls, MarcacoesInvalidas) + EntryIf(ls, DebitoECredito) + EntryIf(ls, HorasExtras6h)
      + EntryIf(ls, FolgasTrabalhadas) + EntryIf(ls, DebitoBH),
      SheetIf(ls, MarcacoesInvalidas) + SheetIf(ls, DebitoECredito) + SheetIf(ls, HorasExtras6h)
      + SheetIf(ls, FolgasTrabalhadas) + SheetIf(ls, DebitoBH),
      EntryIf(ls, IncompatibilidadeJornada), SheetIf(ls, IncompatibilidadeJornada));
  }

  /** Every summary row is the row of one category with a sheet. */
  lemma EntryOf(ls: Lists, e: ResumoEntry)
    requires e in CategoryEntries(ls)
    ensures exists d :: NonEmpty(ls, d) && e == EntryFor(ls, d)
  {
    if e in EntryIf(ls, MarcacoesInvalidas) { assert NonEmpty(ls, MarcacoesInvalidas); }
    else if e in EntryIf(ls, DebitoECredito) { assert NonEmpty(ls, DebitoECredito); }
    else if e in EntryIf(ls, HorasExtras6h) { assert NonEmpty(ls, HorasExtras6h); }
    else if e in EntryIf(ls, FolgasTrabalhadas) { assert NonEmpty(ls, FolgasTrabalhadas); }
    else if e in EntryIf(ls, DebitoBH) { assert NonEmpty(ls, DebitoBH); }
    else { assert e in EntryIf(ls, IncompatibilidadeJornada); }
  }

  /** A category has a summary row exactly when its list is non-empty, and
      that row's `Total de Horas` is the hour sum (`calcularTotais`) of the
      records its sheet shows: for the incompatibilities, the first record
      of each collaborator-day. */
  lemma ResumoHours(ls: Lists, c: Category)
    ensures NonEmpty(ls, c) ==> exists e :: e in CategoryEntries(ls) && e.aba == SheetName(c)
    ensures forall e :: e in CategoryEntries(ls) && e.aba == SheetName(c) ==>
      var shown := if c == IncompatibilidadeJornada then FirstBy(ls.incompatibilidades, KeyOf) else Items(ls, c);
      NonEmpty(ls, c) && e.totalOcorrencias == |shown| && e.totalHoras == SumHours(shown)
  {
    forall e | e in CategoryEntries(ls) && e.aba == SheetName(c)
      ensures NonEmpty(ls, c) && e == EntryFor(ls, c)
    {
      EntryOf(ls, e);
      var d :| NonEmpty(ls, d) && e == EntryFor(ls, d);
      SheetNameInjective(c, d);
    }
    if NonEmpty(ls, c) {
      var e := EntryFor(ls, c);
      assert e in EntryIf(ls, c);
      var a, b, c3, d4, f5, g6 := EntryIf(ls, MarcacoesInvalidas), EntryIf(ls, DebitoECredito), EntryIf(ls, HorasExtras6h),
        EntryIf(ls, FolgasTrabalhadas), EntryIf(ls, DebitoBH), EntryIf(ls, IncompatibilidadeJornada);
      assert CategoryEntries(ls) == a + b + c3 + d4 + f5 + g6;
      assert e in CategoryEntries(ls);
    }
  }

  function Names(sheets: seq<Sheet>): seq<string>
  {
    seq(|sheets|, i requires 0 <= i < |sheets| => sheets[i].name)
  }

  /** The six sheet names are distinct. */
  lemma SheetNameInjective(c: Category, d: Category)
    requires SheetName(c) == SheetName(d)
    ensures c == d
  {
    assert SheetName(c)[0] == SheetName(d)[0] && |SheetName(c)| == |SheetName(d)|;
  }

  lemma NamesAppend(a: seq<Sheet>, b: seq<Sheet>)
    ensures Names(a + b) == Names(a) + Names(b)
  {
    assert forall i :: 0 <= i < |a + b| ==> Names(a + b)[i] == (Names(a) + Names(b))[i];
  }

  function NameIf(ls: Lists, d: Category): seq<string>
  {
    if NonEmpty(ls, d) then [SheetName(d)] else []
  }

  lemma NameIfMember(ls: Lists, c: Category, d: Category)
    ensures SheetName(c) in NameIf(ls, d) <==> NonEmpty(ls, d) && c == d
  {
    if NonEmpty(ls, d) && SheetName(c) == SheetName(d) {
      SheetNameInjective(c, d);
    }
  }

  lemma CategoryNames(ls: Lists)
    ensures Names(CategorySheets(ls)) == NameIf(ls, MarcacoesInvalidas) + NameIf(ls, DebitoECredito)
      + NameIf(ls, HorasExtras6h) + NameIf(ls, FolgasTrabalhadas) + NameIf(ls, DebitoBH) + NameIf(ls, IncompatibilidadeJornada)
  {
    var a, b, d, e, f, g := SheetIf(ls, MarcacoesInvalidas), SheetIf(ls, DebitoECredito), SheetIf(ls, HorasExtras6h),
      SheetIf(ls, FolgasTrabalhadas), SheetIf(ls, DebitoBH), SheetIf(ls, IncompatibilidadeJornada);
    NamesAppend(a, b);
    NamesAppend(a + b, d);
    NamesAppend(a + b + d, e);
    NamesAppend(a + b + d + e, f);
    NamesAppend(a + b + d + e + f, g);
    forall x: Category ensures Names(SheetIf(ls, x)) == NameIf(ls, x) {
      if NonEmpty(ls, x) {
        assert Names(SheetIf(ls, x))[0] == SheetName(x);
      }
    }
  }

  /** A category has a sheet exactly when its list is non-empty. */
  lemma CategorySheetPresent(ls: Lists, c: Category)
    ensures SheetName(c) in Names(CategorySheets(ls)) <==> NonEmpty(ls, c)
  {
    CategoryNames(ls);
    NameIfMember(ls, c, MarcacoesInvalidas);
    NameIfMember(ls, c, DebitoECredito);
    NameIfMember(ls, c, HorasExtras6h);
    NameIfMember(ls, c, FolgasTrabalhadas);
    NameIfMember(ls, c, DebitoBH);
    NameIfMember(ls, c, IncompatibilidadeJornada);
  }

  /** Records always give both roll-ups some row. */
  lemma RollupsNonEmpty(all: seq<Occurrence>, ls: Lists)
    requires |all| > 0
    ensures |ColabRows(all, ls)| > 0 && |BaseRows(all, ls)| > 0
  {
    ColabRowsFacts(all, ls);
    BaseRowsFacts(all, ls);
    assert IdOf(all[0]) in KeySet(all, IdOf);
    assert BaseKey(all[0]) in KeySet(all, BaseKey);
  }

  /** For records, the workbook is: the records, the non-empty categories,
      both roll-ups and the summary, whose first row totals all the records;
      for no records there is no workbook. */
  lemma WorkbookShape(all: seq<Occurrence>)
    ensures WorkbookOf(all).None? <==> |all| == 0
    ensures |all| > 0 ==>
      var ls := ListsOf(all);
      WorkbookOf(all) == Some([Sheet(DadosName, RecordRows(ReorderedRows(ToRows(all))))]
        + CategorySheets(ls)
        + [Sheet(PorColaboradorName, PorColaborador(ColabRows(all, ls)))]
        + [Sheet(PorBaseName, PorBase(BaseRows(all, ls)))]
        + [Sheet(ResumoName, Resumo([ResumoEntry(DadosName, |all|, SumHours(all))] + CategoryEntries(ls)))])
  {
    if |all| > 0 {
      RollupsNonEmpty(all, ListsOf(all));
    }
  }

  /** The incompatibility sheet holds each collaborator-day of the
      incompatible records once, by its first record, while the roll-ups
      count every incompatible record. */
  lemma IncompatibilidadeSheet(all: seq<Occurrence>)
    ensures var ls := ListsOf(all);
      var u := SheetItems(ls, IncompatibilidadeJornada);
      && Subseq(u, ls.incompatibilidades)
      && KeySet(u, KeyOf) == KeySet(ls.incompatibilidades, KeyOf)
      && (forall i, j :: 0 <= i < j < |u| ==> KeyOf(u[i]) != KeyOf(u[j]))
  {
    DedupFacts(ListsOf(all).incompatibilidades);
  }
}
