/** The special-occurrence pie chart's data: three categories of the
    filtered records with their counts and hour sums, the empty ones
    dropped. */
module PieChart {
  import opened Seqs
  import opened Records
  import opened Categories

  datatype PieCategory = FolgasTrabalhadas | HorasExtras | DebitoCreditoMesmoDia

  function Name(c: PieCategory): string
  {
    match c
    case FolgasTrabalhadas => "Folgas Trabalhadas"
    case HorasExtras => "Horas Extras > 6h"
    case DebitoCreditoMesmoDia => "Débito e Crédito Mesmo Dia"
  }

  function Color(c: PieCategory): string
  {
    match c
    case FolgasTrabalhadas => "#3b82f6"
    case HorasExtras => "#f59e0b"
    case DebitoCreditoMesmoDia => "#ef4444"
  }

  /** The records of a category; the debit/credit days are found among the
      filtered records only. */
  function CategoryItems(filtered: seq<Occurrence>, c: PieCategory): seq<Occurrence>
  {
    match c
    case FolgasTrabalhadas => Filter(filtered, IsFolgaTrabalhada)
    case HorasExtras => Filter(filtered, IsHorasExtras6h)
    case DebitoCreditoMesmoDia => DebitoCredito(filtered)
  }

  datatype PieSlice = PieSlice(categoria: string, totalOcorrencias: nat, somaHoras: real, color: string)

  function SliceOf(filtered: seq<Occurrence>, c: PieCategory): PieSlice
  {
    var items := CategoryItems(filtered, c);
    PieSlice(Name(c), |items|, SumHours(items), Color(c))
  }

  predicate HasOccurrences(s: PieSlice) { s.totalOcorrencias > 0 }

  function AllSlices(filtered: seq<Occurrence>): seq<PieSlice>
  {
    [SliceOf(filtered, FolgasTrabalhadas), SliceOf(filtered, HorasExtras), SliceOf(filtered, DebitoCreditoMesmoDia)]
  }

  /** `processedData`. */
  function PieData(filtered: seq<Occurrence>): seq<PieSlice>
  {
    if |filtered| == 0 then [] else Filter(AllSlices(filtered), HasOccurrences)
  }

  /** One category's slice as the component computes it: the category's
      filter (or the day grouping), then `calcularTotais`. */
  method ComputeSlice(filtered: seq<Occurrence>, c: PieCategory) returns (slice: PieSlice)
    ensures slice == SliceOf(filtered, c)
  {
    var items: seq<Occurrence>;
    match c {
      case FolgasTrabalhadas => items := Filter(filtered, IsFolgaTrabalhada);
      case HorasExtras => items := Filter(filtered, IsHorasExtras6h);
      case DebitoCreditoMesmoDia =>
        var groups := GroupByDay(filtered);
        items := CollectFlagged(groups);
    }
    var n, h := CalcularTotais(items);
    slice := PieSlice(Name(c), n, h, Color(c));
  }

  /** The computation as the component runs it: the three slices, then the
      empty ones dropped. */
  method ProcessedData(filtered: seq<Occurrence>) returns (result: seq<PieSlice>)
    ensures result == PieData(filtered)
  {
    if |filtered| == 0 {
      return [];
    }
    var s1 := ComputeSlice(filtered, FolgasTrabalhadas);
    var s2 := ComputeSlice(filtered, HorasExtras);
    var s3 := ComputeSlice(filtered, DebitoCreditoMesmoDia);
    assert [s1, s2, s3] == AllSlices(filtered);
    result := Filter([s1, s2, s3], HasOccurrences);
  }

  /** What each category holds: the day-off and overtime rules applied to
      the filtered records, and the whole collaborator-days of the filtered
      records with both a credit and a debit. */
  lemma CategoryMembers(filtered: seq<Occurrence>, x: Occurrence)
    ensures x in CategoryItems(filtered, FolgasTrabalhadas) <==> x in filtered && IsFolgaTrabalhada(x)
    ensures x in CategoryItems(filtered, HorasExtras) <==> x in filtered && IsHorasExtras6h(x)
    ensures x in CategoryItems(filtered, DebitoCreditoMesmoDia) <==> x in filtered && InFlaggedDay(filtered, x)
  {
    DebitoCreditoMembers(filtered, x);
  }

  /** The chart lists the categories in their fixed order, each slice
      non-empty. */
  lemma PieDataOrder(filtered: seq<Occurrence>)
    ensures Subseq(PieData(filtered), AllSlices(filtered))
    ensures forall i :: 0 <= i < |PieData(filtered)| ==> PieData(filtered)[i].totalOcorrencias > 0
  {
    if |filtered| == 0 {
      SubseqPrepend([], [], AllSlices(filtered));
      assert AllSlices(filtered) == [] + AllSlices(filtered);
    } else {
      FilterSubseq(AllSlices(filtered), HasOccurrences);
    }
  }

  /** The three category names are distinct. */
  lemma NameInjective(c: PieCategory, d: PieCategory)
    requires Name(c) == Name(d)
    ensures c == d
  {
    assert Name(c)[0] == Name(d)[0];
  }

  lemma SliceFor(filtered: seq<Occurrence>, c: PieCategory, s: PieSlice)
    requires s in AllSlices(filtered) && s.categoria == Name(c)
    ensures s == SliceOf(filtered, c)
  {
    var d: PieCategory :| s == SliceOf(filtered, d);
    NameInjective(c, d);
  }

  lemma PieDataEmpty(filtered: seq<Occurrence>, c: PieCategory)
    requires |filtered| == 0
    ensures PieData(filtered) == [] && CategoryItems(filtered, c) == []
  {
    assert DayGroups(filtered) == [];
  }

  /** A category appears exactly when it holds some record, and then with its
      count and its hour sum. */
  lemma PieDataSlice(filtered: seq<Occurrence>, c: PieCategory)
    ensures (exists s :: s in PieData(filtered) && s.categoria == Name(c)) <==> CategoryItems(filtered, c) != []
    ensures forall s :: s in PieData(filtered) && s.categoria == Name(c) ==>
      s.totalOcorrencias == |CategoryItems(filtered, c)| && s.somaHoras == SumHours(CategoryItems(filtered, c))
  {
    if |filtered| == 0 {
      PieDataEmpty(filtered, c);
    } else {
      var all := AllSlices(filtered);
      var data := PieData(filtered);
      assert data == Filter(all, HasOccurrences);
      forall s | s in data && s.categoria == Name(c) ensures s == SliceOf(filtered, c) {
        assert s in all;
        SliceFor(filtered, c, s);
      }
      var sl := SliceOf(filtered, c);
      if CategoryItems(filtered, c) != [] {
        assert sl in all by {
          match c
          case FolgasTrabalhadas => assert all[0] == sl;
          case HorasExtras => assert all[1] == sl;
          case DebitoCreditoMesmoDia => assert all[2] == sl;
        }
        assert HasOccurrences(sl);
        assert sl in data;
      }
    }
  }
}
