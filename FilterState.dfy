/** The dashboard-wide filter state: a date range, the selected situações
    and the selected collaborators, each replaced on its own. */
module FilterState {
  import opened Wrappers
  import opened Records
  import opened ChartData

  /** No date bounds. */
  const NoDates := DateRange(None, None)

  class FilterContext {
    var dateRange: DateRange
    var situacoes: seq<string>
    var colaboradores: seq<Value>

    /** The state the provider starts in and `clearFilters` restores. */
    predicate IsCleared()
      reads this
    {
      dateRange == NoDates && situacoes == [] && colaboradores == []
    }

    /** The filters the consumers see: this state has no registration-number
        query and no base selection. */
    function Current(): (f: Filters)
      reads this
      ensures f.dateRange == dateRange && f.situacoes == situacoes && f.colaboradores == colaboradores
      ensures f.matriculas == None && f.bases == None
    {
      Filters(dateRange, situacoes, colaboradores, None, None)
    }

    constructor()
      ensures IsCleared()
    {
      dateRange := NoDates;
      situacoes := [];
      colaboradores := [];
    }

    method UpdateDateRange(start: Option<string>, end: Option<string>)
      modifies this
      ensures dateRange == DateRange(start, end)
      ensures situacoes == old(situacoes) && colaboradores == old(colaboradores)
    {
      dateRange := DateRange(start, end);
    }

    method UpdateSituacoes(s: seq<string>)
      modifies this
      ensures situacoes == s
      ensures dateRange == old(dateRange) && colaboradores == old(colaboradores)
    {
      situacoes := s;
    }

    method UpdateColaboradores(c: seq<Value>)
      modifies this
      ensures colaboradores == c
      ensures dateRange == old(dateRange) && situacoes == old(situacoes)
    {
      colaboradores := c;
    }

    /** `clearFilters`; clearing a cleared state changes nothing. */
    method ClearFilters()
      modifies this
      ensures IsCleared()
      ensures old(IsCleared()) ==> dateRange == old(dateRange) && situacoes == old(situacoes) && colaboradores == old(colaboradores)
    {
      dateRange := NoDates;
      situacoes := [];
      colaboradores := [];
    }
  }

  /** Whatever the state, the chart's five-part filter and the table's
      three-part filter keep the same records. */
  lemma ContextFiltersAgree(fc: FilterContext, ocorrencias: Option<seq<Occurrence>>)
    ensures ChartFilteredData(ocorrencias, fc.Current()) == TableFilteredData(ocorrencias, fc.Current())
  {
    ChartAgreesWithTable(ocorrencias, fc.Current());
  }

  /** A cleared state keeps every record. */
  lemma ClearedKeepsAll(fc: FilterContext, xs: seq<Occurrence>)
    requires fc.IsCleared()
    ensures ChartFilteredData(Some(xs), fc.Current()) == xs
    ensures TableFilteredData(Some(xs), fc.Current()) == xs
  {
    InactiveFiltersKeepAll(xs, fc.Current());
  }
}
