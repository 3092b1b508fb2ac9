/** The dashboard applies the day-off, overtime and same-day debit/credit
    rules in three places: the table's tag map, the workbook's category
    sheets and the pie chart. Given the same records, the three agree. */
module Agreement {
  import opened Records
  import opened Categories
  import T = TableData
  import P = PieChart
  import W = Workbook

  /** A record of the set carries a tag in the table exactly when it is on
      that category's workbook list and in that category's pie slice. */
  lemma CopiesAgree(all: seq<Occurrence>, r: Occurrence)
    requires T.UniqueIds(all) && r in all
    ensures T.HasTag(T.TagMapOf(all), T.FolgasTrabalhadas, r) <==> r in W.ListsOf(all).folgas
    ensures r in W.ListsOf(all).folgas <==> r in P.CategoryItems(all, P.FolgasTrabalhadas)
    ensures T.HasTag(T.TagMapOf(all), T.HorasExtras6h, r) <==> r in W.ListsOf(all).horasExtras
    ensures r in W.ListsOf(all).horasExtras <==> r in P.CategoryItems(all, P.HorasExtras)
    ensures T.HasTag(T.TagMapOf(all), T.DebitoCreditoMesmoDia, r) <==> r in W.ListsOf(all).debitoCredito
    ensures r in W.ListsOf(all).debitoCredito <==> r in P.CategoryItems(all, P.DebitoCreditoMesmoDia)
  {
    T.TaggedAgrees(all, r, T.FolgasTrabalhadas);
    T.TaggedAgrees(all, r, T.HorasExtras6h);
    T.TaggedAgrees(all, r, T.DebitoCreditoMesmoDia);
    W.ListsMembers(all, r);
    P.CategoryMembers(all, r);
  }
}
