/** The sidebar: the option lists it extracts from the records, its search
    box and date inputs, and the toggles it applies to the filter state. */
module Sidebar {
  import opened Wrappers
  import opened Strings
  import opened Seqs
  import opened Sorting
  import opened Records
  import opened ChartData
  import opened FilterState

  /** `ocorrencias.map(item => item.situacao).filter(Boolean)`. */
  function SituacaoValues(os: seq<Occurrence>): (r: seq<string>)
    ensures forall s :: s in r ==> s != ""
  {
    if os == [] then []
    else (if TextTruthy(os[0].situacao) then [os[0].situacao.value] else []) + SituacaoValues(os[1..])
  }

  lemma {:induction false} SituacaoValuesMembers(os: seq<Occurrence>, s: string)
    ensures s in SituacaoValues(os) <==> s != "" && exists r :: r in os && r.situacao == Some(s)
  {
    if os != [] {
      SituacaoValuesMembers(os[1..], s);
      assert forall r :: r in os <==> r == os[0] || r in os[1..];
    }
  }

  function Itself<T>(x: T): T { x }

  /** `[...new Set(values)].sort()`: the default sort orders by UTF-16 code
      units. */
  function SituacoesList(os: seq<Occurrence>): seq<string>
  {
    Sort(FirstBy(SituacaoValues(os), Itself), Utf16Le)
  }

  lemma Utf16LePreorder()
    ensures TotalPreorder(Utf16Le)
  {
    forall a, b ensures Utf16Le(a, b) || Utf16Le(b, a) { Utf16LeOrder(a, b, a); }
    forall a, b, c | Utf16Le(a, b) && Utf16Le(b, c) ensures Utf16Le(a, c) { Utf16LeOrder(a, b, c); }
  }

  /** The situação options: each non-empty situação of the records once, in
      ascending UTF-16 code-unit order. */
  lemma SituacoesListFacts(os: seq<Occurrence>)
    ensures forall s :: s in SituacoesList(os) <==> s != "" && exists r :: r in os && r.situacao == Some(s)
    ensures NoDup(SituacoesList(os))
    ensures SortedBy(SituacoesList(os), Utf16Le)
  {
    var vs := SituacaoValues(os);
    var d := FirstBy(vs, Itself);
    FirstByKeys(vs, Itself);
    FirstByDistinct(vs, Itself);
    SortDistinct(d, Utf16Le, Itself);
    SortMembers(d, Utf16Le);
    Utf16LePreorder();
    SortSorted(d, Utf16Le);
    forall s ensures s in SituacoesList(os) <==> s != "" && exists r :: r in os && r.situacao == Some(s) {
      SituacaoValuesMembers(os, s);
      assert s in d <==> Itself(s) in KeySet(d, Itself);
      assert s in vs <==> Itself(s) in KeySet(vs, Itself);
    }
  }

  /** A collaborator option, `{ id, nome }`. */
  datatype Colaborador = Colaborador(id: Value, nome: string)

  /** The records' `{ id, nome }` pairs with both truthy. */
  function ColaboradorPairs(os: seq<Occurrence>): seq<Colaborador>
  {
    if os == [] then []
    else
      var r := os[0];
      (if Truthy(r.idColaborador) && TextTruthy(r.nome) then [Colaborador(r.idColaborador, r.nome.value)] else [])
      + ColaboradorPairs(os[1..])
  }

  lemma {:induction false} ColaboradorPairsMembers(os: seq<Occurrence>, c: Colaborador)
    ensures c in ColaboradorPairs(os) <==>
      Truthy(c.id) && c.nome != "" && exists r :: r in os && r.idColaborador == c.id && r.nome == Some(c.nome)
  {
    if os != [] {
      ColaboradorPairsMembers(os[1..], c);
      assert forall r :: r in os <==> r == os[0] || r in os[1..];
    }
  }

  /** `a.nome.localeCompare(b.nome)`, the collation taken as code-point order. */
  predicate ByNome(a: Colaborador, b: Colaborador) { StrLe(a.nome, b.nome) }

  lemma ByNomePreorder()
    ensures TotalPreorder(ByNome)
  {
    forall a: Colaborador, b: Colaborador ensures ByNome(a, b) || ByNome(b, a) { StrLeTotal(a.nome, b.nome); }
    forall a: Colaborador, b: Colaborador, c: Colaborador | ByNome(a, b) && ByNome(b, c) ensures ByNome(a, c) {
      StrLeTransitive(a.nome, b.nome, c.nome);
    }
  }

  /** The pairs made distinct through their JSON text, which tells two pairs
      apart exactly when they differ, then sorted by name. */
  function ColaboradoresList(os: seq<Occurrence>): seq<Colaborador>
  {
    Sort(FirstBy(ColaboradorPairs(os), Itself), ByNome)
  }

  /** The collaborator options: each pair of a truthy id and a non-empty
      name found on a record, once, ordered by name. */
  lemma ColaboradoresListFacts(os: seq<Occurrence>)
    ensures forall c :: c in ColaboradoresList(os) <==>
      Truthy(c.id) && c.nome != "" && exists r :: r in os && r.idColaborador == c.id && r.nome == Some(c.nome)
    ensures NoDup(ColaboradoresList(os))
    ensures SortedBy(ColaboradoresList(os), ByNome)
  {
    var ps := ColaboradorPairs(os);
    var d := FirstBy(ps, Itself);
    FirstByKeys(ps, Itself);
    FirstByDistinct(ps, Itself);
    SortDistinct(d, ByNome, Itself);
    SortMembers(d, ByNome);
    ByNomePreorder();
    SortSorted(d, ByNome);
    forall c ensures c in ColaboradoresList(os) <==>
      Truthy(c.id) && c.nome != "" && exists r :: r in os && r.idColaborador == c.id && r.nome == Some(c.nome)
    {
      ColaboradorPairsMembers(os, c);
      assert c in d <==> Itself(c) in KeySet(d, Itself);
      assert c in ps <==> Itself(c) in KeySet(ps, Itself);
    }
  }

  function NameMatches(search: string): Colaborador -> bool
  {
    (c: Colaborador) => Contains(ToLower(c.nome), ToLower(search))
  }

  /** The search box: case-insensitive substring search on the name. */
  function FilteredColaboradores(list: seq<Colaborador>, search: string): seq<Colaborador>
  {
    Filter(list, NameMatches(search))
  }

  /** The search keeps, in order, the options whose lowercased name contains
      the lowercased query; an empty query keeps them all. */
  lemma SearchFacts(list: seq<Colaborador>, search: string)
    ensures Subseq(FilteredColaboradores(list, search), list)
    ensures forall c :: c in FilteredColaboradores(list, search) <==> c in list && Contains(ToLower(c.nome), ToLower(search))
    ensures search == "" ==> FilteredColaboradores(list, search) == list
  {
    FilterSubseq(list, NameMatches(search));
    if search == "" {
      forall c | c in list ensures NameMatches(search)(c) { ContainsEmpty(ToLower(c.nome)); }
      FilterAll(list, NameMatches(search));
    }
  }

  /** `value || null` for an input's text. */
  function EmptyToNull(s: string): (r: Option<string>)
    ensures r.None? <==> s == ""
    ensures r.Some? ==> r.value == s
  {
    if s == "" then None else Some(s)
  }

  class SidebarState {
    var startDate: string
    var endDate: string
    var situacoesList: seq<string>
    var colaboradoresList: seq<Colaborador>
    var searchColaborador: string

    constructor()
      ensures startDate == "" && endDate == "" && searchColaborador == ""
      ensures situacoesList == [] && colaboradoresList == []
    {
      startDate := "";
      endDate := "";
      situacoesList := [];
      colaboradoresList := [];
      searchColaborador := "";
    }

    /** The effect on new records: the option lists are rebuilt from a
        non-empty set and left as they were otherwise. */
    method LoadOptions(ocorrencias: Option<seq<Occurrence>>)
      modifies this
      ensures ocorrencias.Some? && |ocorrencias.value| > 0 ==>
        situacoesList == SituacoesList(ocorrencias.value) && colaboradoresList == ColaboradoresList(ocorrencias.value)
      ensures !(ocorrencias.Some? && |ocorrencias.value| > 0) ==>
        situacoesList == old(situacoesList) && colaboradoresList == old(colaboradoresList)
      ensures startDate == old(startDate) && endDate == old(endDate) && searchColaborador == old(searchColaborador)
    {
      if ocorrencias.Some? && |ocorrencias.value| > 0 {
        situacoesList := SituacoesList(ocorrencias.value);
        colaboradoresList := ColaboradoresList(ocorrencias.value);
      }
    }

    method SetStartDate(v: string)
      modifies this
      ensures startDate == v
      ensures endDate == old(endDate) && situacoesList == old(situacoesList)
      ensures colaboradoresList == old(colaboradoresList) && searchColaborador == old(searchColaborador)
    {
      startDate := v;
    }

    method SetEndDate(v: string)
      modifies this
      ensures endDate == v
      ensures startDate == old(startDate) && situacoesList == old(situacoesList)
      ensures colaboradoresList == old(colaboradoresList) && searchColaborador == old(searchColaborador)
    {
      endDate := v;
    }

    method SetSearchColaborador(v: string)
      modifies this
      ensures searchColaborador == v
      ensures startDate == old(startDate) && endDate == old(endDate)
      ensures situacoesList == old(situacoesList) && colaboradoresList == old(colaboradoresList)
    {
      searchColaborador := v;
    }

    /** The collaborator options the search box leaves. */
    function Shown(): seq<Colaborador>
      reads this
    {
      FilteredColaboradores(colaboradoresList, searchColaborador)
    }

    /** `handleDateChange`: the inputs' texts, empty ones as no bound. */
    method HandleDateChange(fc: FilterContext)
      modifies fc
      ensures fc.dateRange == DateRange(EmptyToNull(startDate), EmptyToNull(endDate))
      ensures fc.situacoes == old(fc.situacoes) && fc.colaboradores == old(fc.colaboradores)
    {
      fc.UpdateDateRange(EmptyToNull(startDate), EmptyToNull(endDate));
    }

    method ToggleSituacao(fc: FilterContext, situacao: string)
      modifies fc
      ensures fc.situacoes == Toggle(old(fc.situacoes), situacao)
      ensures fc.dateRange == old(fc.dateRange) && fc.colaboradores == old(fc.colaboradores)
    {
      fc.UpdateSituacoes(Toggle(fc.situacoes, situacao));
    }

    method ToggleColaborador(fc: FilterContext, colaboradorId: Value)
      modifies fc
      ensures fc.colaboradores == Toggle(old(fc.colaboradores), colaboradorId)
      ensures fc.dateRange == old(fc.dateRange) && fc.situacoes == old(fc.situacoes)
    {
      fc.UpdateColaboradores(Toggle(fc.colaboradores, colaboradorId));
    }
  }
}
