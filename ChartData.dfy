/** The record filter that the charts, the table and the export apply, and
    the two groupings of the filtered records that feed the charts: by
    situação, and by date and situação. */
module ChartData {
  import opened Wrappers
  import opened Strings
  import opened Seqs
  import opened Sorting
  import opened Records

  // ---------------------------------------------------------------------------
  // The filter

  /** A bound is set when it is a non-empty string. */
  datatype DateRange = DateRange(start: Option<string>, end: Option<string>)

  /** The filter object the charts read. The filter context holds the first
      three fields; `matriculas` and `bases` are read too but never set there
      (`None` is `undefined`). */
  datatype Filters = Filters(
    dateRange: DateRange,
    situacoes: seq<string>,
    colaboradores: seq<Value>,
    matriculas: Option<string>,
    bases: Option<seq<string>>)

  /** ISO dates compared as the parsed dates compare. */
  predicate DateLt(a: string, b: string) { StrLe(a, b) && a != b }

  /** A record is dropped when it is dated before a set start or after a set
      end. */
  predicate InDateRange(dr: DateRange, r: Occurrence)
  {
    (TextTruthy(dr.start) || TextTruthy(dr.end)) ==>
      && (TextTruthy(dr.start) ==> !DateLt(r.data, dr.start.value))
      && (TextTruthy(dr.end) ==> !DateLt(dr.end.value, r.data))
  }

  /** `situacoes.includes(item.situacao)` when the list is non-empty; a
      record without a situação matches no selected one. */
  predicate MatchesSituacoes(situacoes: seq<string>, r: Occurrence)
  {
    |situacoes| > 0 ==> r.situacao.Some? && r.situacao.value in situacoes
  }

  predicate MatchesColaboradores(colaboradores: seq<Value>, r: Occurrence)
  {
    |colaboradores| > 0 ==> r.idColaborador in colaboradores
  }

  predicate NonBlank(t: string) { t != "" }

  function Trimmed(parts: seq<string>): (r: seq<string>)
    ensures |r| == |parts|
  {
    seq(|parts|, i requires 0 <= i < |parts| => Trim(parts[i]))
  }

  /** The query split on commas, each piece trimmed, the empty ones dropped. */
  function MatriculaTokens(q: string): seq<string>
  {
    Filter(Trimmed(Split(q, ',')), NonBlank)
  }

  /** The registration-number filter: active for a query that is not blank
      and has some token, and then a record is kept when some lowercased
      token occurs in its lowercased collaborator id. */
  predicate MatchesMatriculas(matriculas: Option<string>, r: Occurrence)
  {
    (TextTruthy(matriculas) && Trim(matriculas.value) != "" && |MatriculaTokens(matriculas.value)| > 0) ==>
      exists t :: t in MatriculaTokens(matriculas.value) && Contains(ToLower(ShowOrEmpty(r.idColaborador)), ToLower(t))
  }

  predicate MatchesBases(bases: Option<seq<string>>, r: Occurrence)
  {
    (bases.Some? && |bases.value| > 0) ==> r.base in bases.value
  }

  /** The five-part predicate of the charts. */
  predicate ChartKeeps(f: Filters, r: Occurrence)
  {
    && InDateRange(f.dateRange, r)
    && MatchesSituacoes(f.situacoes, r)
    && MatchesColaboradores(f.colaboradores, r)
    && MatchesMatriculas(f.matriculas, r)
    && MatchesBases(f.bases, r)
  }

  /** The three-part predicate of the table and of the export. */
  predicate TableKeeps(f: Filters, r: Occurrence)
  {
    && InDateRange(f.dateRange, r)
    && MatchesSituacoes(f.situacoes, r)
    && MatchesColaboradores(f.colaboradores, r)
  }

  function ChartRule(f: Filters): Occurrence -> bool { (r: Occurrence) => ChartKeeps(f, r) }
  function TableRule(f: Filters): Occurrence -> bool { (r: Occurrence) => TableKeeps(f, r) }

  /** `filteredData` of the charts; no data gives no records. */
  function ChartFilteredData(ocorrencias: Option<seq<Occurrence>>, f: Filters): seq<Occurrence>
  {
    if ocorrencias.None? then [] else Filter(ocorrencias.value, ChartRule(f))
  }

  /** `filteredData` of the table and `getFilteredData` of the export. */
  function TableFilteredData(ocorrencias: Option<seq<Occurrence>>, f: Filters): seq<Occurrence>
  {
    if ocorrencias.None? then [] else Filter(ocorrencias.value, TableRule(f))
  }

  /** The chart data is the subsequence of the records that pass every
      active predicate, and filtering it again changes nothing. */
  lemma ChartFilteredFacts(ocorrencias: Option<seq<Occurrence>>, f: Filters)
    ensures ocorrencias.Some? ==> Subseq(ChartFilteredData(ocorrencias, f), ocorrencias.value)
    ensures forall r :: r in ChartFilteredData(ocorrencias, f) <==> ocorrencias.Some? && r in ocorrencias.value && ChartKeeps(f, r)
    ensures ChartFilteredData(Some(ChartFilteredData(ocorrencias, f)), f) == ChartFilteredData(ocorrencias, f)
  {
    if ocorrencias.Some? {
      FilterSubseq(ocorrencias.value, ChartRule(f));
      FilterIdempotent(ocorrencias.value, ChartRule(f));
    }
  }

  /** The same for the table and the export. */
  lemma TableFilteredFacts(ocorrencias: Option<seq<Occurrence>>, f: Filters)
    ensures ocorrencias.Some? ==> Subseq(TableFilteredData(ocorrencias, f), ocorrencias.value)
    ensures forall r :: r in TableFilteredData(ocorrencias, f) <==> ocorrencias.Some? && r in ocorrencias.value && TableKeeps(f, r)
    ensures TableFilteredData(Some(TableFilteredData(ocorrencias, f)), f) == TableFilteredData(ocorrencias, f)
  {
    if ocorrencias.Some? {
      FilterSubseq(ocorrencias.value, TableRule(f));
      FilterIdempotent(ocorrencias.value, TableRule(f));
    }
  }

  /** The date bounds are inclusive: with both set, a record is kept exactly
      when its date lies between them. */
  lemma DateBoundsInclusive(start: string, end: string, r: Occurrence)
    requires start != "" && end != ""
    ensures InDateRange(DateRange(Some(start), Some(end)), r) <==> StrLe(start, r.data) && StrLe(r.data, end)
  {
    StrLeTotal(start, r.data);
    StrLeTotal(r.data, end);
    if StrLe(start, r.data) && StrLe(r.data, start) { StrLeAntisymmetric(start, r.data); }
    if StrLe(end, r.data) && StrLe(r.data, end) { StrLeAntisymmetric(end, r.data); }
  }

  lemma TrimmedMembers(parts: seq<string>, t: string)
    ensures t in Trimmed(parts) <==> exists p :: p in parts && Trim(p) == t
  {
    if exists p :: p in parts && Trim(p) == t {
      var p :| p in parts && Trim(p) == t;
      var i :| 0 <= i < |parts| && parts[i] == p;
      assert Trimmed(parts)[i] == t;
    }
  }

  /** Every token is a non-empty trimmed piece of the query between commas,
      and every such piece is a token. */
  lemma MatriculaTokensFacts(q: string, t: string)
    ensures t in MatriculaTokens(q) <==> t != "" && exists p :: p in Split(q, ',') && Trim(p) == t
  {
    TrimmedMembers(Split(q, ','), t);
  }

  /** A query without commas is one token: its trim. */
  lemma SingleMatricula(q: string, r: Occurrence)
    requires ',' !in q && Trim(q) != ""
    ensures MatchesMatriculas(Some(q), r) <==> Contains(ToLower(ShowOrEmpty(r.idColaborador)), ToLower(Trim(q)))
  {
    SplitNoSep(q, ',');
    assert Trimmed([q]) == [Trim(q)];
    assert MatriculaTokens(q) == [Trim(q)];
  }

  /** Unset or empty lists, unset bounds and a blank or missing query keep
      every record. */
  lemma InactiveFiltersKeepAll(xs: seq<Occurrence>, f: Filters)
    requires !TextTruthy(f.dateRange.start) && !TextTruthy(f.dateRange.end)
    requires f.situacoes == [] && f.colaboradores == []
    requires f.matriculas.None? || Trim(f.matriculas.value) == ""
    requires f.bases.None? || f.bases.value == []
    ensures ChartFilteredData(Some(xs), f) == xs
    ensures TableFilteredData(Some(xs), f) == xs
  {
    FilterAll(xs, ChartRule(f));
    FilterAll(xs, TableRule(f));
  }

  /** The chart's five predicates are the table's three when no
      registration-number query and no base list is active. */
  lemma ChartAgreesWithTable(ocorrencias: Option<seq<Occurrence>>, f: Filters)
    requires f.matriculas.None? || Trim(f.matriculas.value) == ""
    requires f.bases.None? || f.bases.value == []
    ensures ChartFilteredData(ocorrencias, f) == TableFilteredData(ocorrencias, f)
  {
    if ocorrencias.Some? {
      FilterExt(ocorrencias.value, ChartRule(f), TableRule(f));
    }
  }

  // ---------------------------------------------------------------------------
  // Grouping

  /** One entry of a `grouped` object: the key, the record count and the
      decimal hours of the records with a duration. */
  datatype Bucket<K> = Bucket(key: K, totalOcorrencias: nat, somaHoras: real)

  function BucketKey<K>(b: Bucket<K>): K { b.key }

  /** `grouped[key]`: the position of the key's entry, or -1. */
  function Find<K(==)>(bs: seq<Bucket<K>>, k: K): (j: int)
    ensures -1 <= j < |bs|
    ensures j >= 0 ==> bs[j].key == k
    ensures j < 0 ==> forall i :: 0 <= i < |bs| ==> bs[i].key != k
  {
    if bs == [] then -1
    else if bs[0].key == k then 0
    else
      var r := Find(bs[1..], k);
      if r < 0 then -1 else r + 1
  }

  /** One record counted into its key's entry, which is created (last, with
      nothing counted) when missing. */
  function Bump<K(==)>(bs: seq<Bucket<K>>, k: K, h: real): seq<Bucket<K>>
  {
    var j := Find(bs, k);
    if j < 0 then bs + [Bucket(k, 1, h)]
    else bs[j := Bucket(k, bs[j].totalOcorrencias + 1, bs[j].somaHoras + h)]
  }

  /** The entries of `grouped` in insertion order after the `forEach`. */
  function Tally<K(==)>(xs: seq<Occurrence>, key: Occurrence -> K): seq<Bucket<K>>
  {
    if xs == [] then []
    else Bump(Tally(xs[..|xs| - 1], key), key(xs[|xs| - 1]), RecordHours(xs[|xs| - 1]))
  }

  function KeyIs<K(==)>(key: Occurrence -> K, k: K): Occurrence -> bool
  {
    (r: Occurrence) => key(r) == k
  }

  /** One iteration of the `forEach`: lookup-or-create, the count increment
      and the hours added for a record with a duration. */
  method CountRecord<K(==)>(grouped: seq<Bucket<K>>, k: K, r: Occurrence) returns (grouped': seq<Bucket<K>>)
    ensures grouped' == Bump(grouped, k, RecordHours(r))
  {
    grouped' := grouped;
    var j := Find(grouped', k);
    if j < 0 {
      grouped' := grouped' + [Bucket(k, 0, 0.0)];
      j := |grouped'| - 1;
    }
    grouped' := grouped'[j := grouped'[j].(totalOcorrencias := grouped'[j].totalOcorrencias + 1)];
    if r.totalHorasOcorrencia.Some? {
      grouped' := grouped'[j := grouped'[j].(somaHoras := grouped'[j].somaHoras + DecimalHours(r.totalHorasOcorrencia.value))];
    }
  }

  /** The `forEach` over the records. */
  method GroupBy<K(==)>(xs: seq<Occurrence>, key: Occurrence -> K) returns (grouped: seq<Bucket<K>>)
    ensures grouped == Tally(xs, key)
  {
    grouped := [];
    for i := 0 to |xs|
      invariant grouped == Tally(xs[..i], key)
    {
      grouped := CountRecord(grouped, key(xs[i]), xs[i]);
      assert xs[..i + 1][..i] == xs[..i];
    }
    assert xs[..|xs|] == xs;
  }

  /** One entry per distinct key, each key once. */
  lemma {:induction false} TallyKeys<K(!new)>(xs: seq<Occurrence>, key: Occurrence -> K)
    ensures DistinctBy(Tally(xs, key), BucketKey)
    ensures KeySet(Tally(xs, key), BucketKey) == KeySet(xs, key)
  {
    if xs != [] {
      var init, x := xs[..|xs| - 1], xs[|xs| - 1];
      assert xs == init + [x];
      TallyKeys(init, key);
      KeySetSnoc(init, x, key);
      var bs := Tally(init, key);
      var j := Find(bs, key(x));
      if j < 0 {
        KeySetSnoc(bs, Bucket(key(x), 1, RecordHours(x)), BucketKey);
      } else {
        var bs' := Bump(bs, key(x), RecordHours(x));
        assert forall i :: 0 <= i < |bs| ==> BucketKey(bs'[i]) == BucketKey(bs[i]);
        assert key(x) in KeySet(bs, BucketKey);
        assert KeySet(bs', BucketKey) == KeySet(bs, BucketKey) by {
          forall v ensures v in KeySet(bs', BucketKey) <==> v in KeySet(bs, BucketKey) {
            if v in KeySet(bs, BucketKey) {
              var b :| b in bs && BucketKey(b) == v;
              var i :| 0 <= i < |bs| && bs[i] == b;
              assert bs'[i] in bs';
            }
            if v in KeySet(bs', BucketKey) {
              var b :| b in bs' && BucketKey(b) == v;
              var i :| 0 <= i < |bs'| && bs'[i] == b;
              assert bs[i] in bs;
            }
          }
        }
      }
    }
  }

  lemma NoRecordOfAbsentKey<K(!new)>(xs: seq<Occurrence>, key: Occurrence -> K, k: K)
    requires k !in KeySet(xs, key)
    ensures Filter(xs, KeyIs(key, k)) == []
  {
  }

  /** An entry counts the records of its key and sums their hours. */
  ghost predicate Describes<K(!new)>(b: Bucket<K>, xs: seq<Occurrence>, key: Occurrence -> K)
  {
    b.totalOcorrencias == |Filter(xs, KeyIs(key, b.key))| && b.somaHoras == SumHours(Filter(xs, KeyIs(key, b.key)))
  }

  lemma OtherBucket<K(!new)>(init: seq<Occurrence>, x: Occurrence, key: Occurrence -> K, b: Bucket<K>)
    requires b.key != key(x) && Describes(b, init, key)
    ensures Describes(b, init + [x], key)
  {
    var p := KeyIs(key, b.key);
    FilterSnoc(init, x, p);
    assert !p(x);
    assert Filter(init + [x], p) == Filter(init, p);
  }

  lemma BumpedBucket<K(!new)>(init: seq<Occurrence>, x: Occurrence, key: Occurrence -> K, b: Bucket<K>)
    requires b.key == key(x) && Describes(b, init, key)
    ensures Describes(Bucket(b.key, b.totalOcorrencias + 1, b.somaHoras + RecordHours(x)), init + [x], key)
  {
    var f := Filter(init, KeyIs(key, b.key));
    FilterSnoc(init, x, KeyIs(key, b.key));
    SumHoursAppend(f, [x]);
    assert SumHours([x]) == SumHours([]) + RecordHours(x);
  }

  /** Each entry counts the records of its key and sums their hours. */
  lemma {:induction false} TallyBuckets<K(!new)>(xs: seq<Occurrence>, key: Occurrence -> K)
    ensures var bs := Tally(xs, key); forall i :: 0 <= i < |bs| ==> Describes(bs[i], xs, key)
  {
    if xs != [] {
      var init, x := xs[..|xs| - 1], xs[|xs| - 1];
      assert xs == init + [x];
      TallyBuckets(init, key);
      TallyKeys(init, key);
      var bs := Tally(init, key);
      var bs' := Tally(xs, key);
      var j := Find(bs, key(x));
      forall i | 0 <= i < |bs'| ensures Describes(bs'[i], xs, key) {
        if i < |bs| && i != j {
          assert bs'[i] == bs[i];
          OtherBucket(init, x, key, bs[i]);
        } else if j < 0 {
          assert key(x) !in KeySet(bs, BucketKey);
          NoRecordOfAbsentKey(init, key, key(x));
          BumpedBucket(init, x, key, Bucket(key(x), 0, 0.0));
        } else {
          BumpedBucket(init, x, key, bs[j]);
        }
      }
    }
  }

  /** The sum of the counts. */
  function TotalCount<K>(bs: seq<Bucket<K>>): nat
  {
    if bs == [] then 0 else bs[0].totalOcorrencias + TotalCount(bs[1..])
  }

  lemma {:induction false} TotalCountSnoc<K>(bs: seq<Bucket<K>>, b: Bucket<K>)
    ensures TotalCount(bs + [b]) == TotalCount(bs) + b.totalOcorrencias
  {
    if bs != [] {
      assert (bs + [b])[1..] == bs[1..] + [b];
      TotalCountSnoc(bs[1..], b);
    }
  }

  lemma {:induction false} TotalCountUpdate<K>(bs: seq<Bucket<K>>, j: nat, b: Bucket<K>)
    requires j < |bs|
    ensures TotalCount(bs[j := b]) == TotalCount(bs) - bs[j].totalOcorrencias + b.totalOcorrencias
  {
    if j > 0 {
      assert bs[j := b][1..] == bs[1..][j - 1 := b];
      TotalCountUpdate(bs[1..], j - 1, b);
    }
  }

  /** The counts add up to the number of records. */
  lemma {:induction false} TallyTotal<K(!new)>(xs: seq<Occurrence>, key: Occurrence -> K)
    ensures TotalCount(Tally(xs, key)) == |xs|
  {
    if xs != [] {
      var init, x := xs[..|xs| - 1], xs[|xs| - 1];
      TallyTotal(init, key);
      var bs := Tally(init, key);
      var j := Find(bs, key(x));
      if j < 0 {
        TotalCountSnoc(bs, Bucket(key(x), 1, RecordHours(x)));
      } else {
        TotalCountUpdate(bs, j, Bucket(key(x), bs[j].totalOcorrencias + 1, bs[j].somaHoras + RecordHours(x)));
      }
    }
  }

  lemma {:induction false} TotalCountInsert<K>(b: Bucket<K>, bs: seq<Bucket<K>>, le: (Bucket<K>, Bucket<K>) -> bool)
    ensures TotalCount(Insert(b, bs, le)) == b.totalOcorrencias + TotalCount(bs)
  {
    if bs != [] && !le(b, bs[0]) {
      TotalCountInsert(b, bs[1..], le);
    }
  }

  lemma {:induction false} TotalCountSort<K>(bs: seq<Bucket<K>>, le: (Bucket<K>, Bucket<K>) -> bool)
    ensures TotalCount(Sort(bs, le)) == TotalCount(bs)
  {
    if bs != [] {
      TotalCountSort(bs[1..], le);
      TotalCountInsert(bs[0], Sort(bs[1..], le), le);
    }
  }

  /** What a sorted grouping holds: one entry per distinct key, each counting
      the records of its key and summing their hours, the counts adding up
      to the number of records. */
  ghost predicate GroupingOf<K(!new)>(result: seq<Bucket<K>>, xs: seq<Occurrence>, key: Occurrence -> K)
  {
    && DistinctBy(result, BucketKey)
    && KeySet(result, BucketKey) == KeySet(xs, key)
    && (forall b :: b in result ==> Describes(b, xs, key))
    && TotalCount(result) == |xs|
  }

  lemma SortKeySet<K(!new)>(bs: seq<Bucket<K>>, le: (Bucket<K>, Bucket<K>) -> bool)
    ensures KeySet(Sort(bs, le), BucketKey) == KeySet(bs, BucketKey)
  {
    SortMembers(bs, le);
    KeySetSameMembers(Sort(bs, le), bs, BucketKey);
  }

  /** Sorting keeps what a grouping holds. */
  lemma SortGrouping<K(!new)>(bs: seq<Bucket<K>>, xs: seq<Occurrence>, key: Occurrence -> K, le: (Bucket<K>, Bucket<K>) -> bool)
    requires DistinctBy(bs, BucketKey) && KeySet(bs, BucketKey) == KeySet(xs, key)
    requires forall i :: 0 <= i < |bs| ==> Describes(bs[i], xs, key)
    requires TotalCount(bs) == |xs|
    ensures GroupingOf(Sort(bs, le), xs, key)
  {
    SortDistinct(bs, le, BucketKey);
    SortKeySet(bs, le);
    SortMembers(bs, le);
    TotalCountSort(bs, le);
  }

  lemma SortedTally<K(!new)>(xs: seq<Occurrence>, key: Occurrence -> K, le: (Bucket<K>, Bucket<K>) -> bool)
    ensures GroupingOf(Sort(Tally(xs, key), le), xs, key)
  {
    TallyKeys(xs, key);
    TallyBuckets(xs, key);
    TallyTotal(xs, key);
    SortGrouping(Tally(xs, key), xs, key, le);
  }

  // ---------------------------------------------------------------------------
  // By situação

  const SemSituacao := "Sem Situação"

  function SituacaoKey(r: Occurrence): string
  {
    if TextTruthy(r.situacao) then r.situacao.value else SemSituacao
  }

  predicate ByCountDesc(a: Bucket<string>, b: Bucket<string>)
  {
    a.totalOcorrencias >= b.totalOcorrencias
  }

  /** `dataGroupedBySituacao`. */
  function GroupedBySituacao(filtered: seq<Occurrence>): seq<Bucket<string>>
  {
    if |filtered| == 0 then [] else Sort(Tally(filtered, SituacaoKey), ByCountDesc)
  }

  method DataGroupedBySituacao(filtered: seq<Occurrence>) returns (result: seq<Bucket<string>>)
    ensures result == GroupedBySituacao(filtered)
  {
    if |filtered| == 0 {
      return [];
    }
    var grouped := GroupBy(filtered, SituacaoKey);
    result := Sort(grouped, ByCountDesc);
  }

  /** One bucket per distinct situação (a missing one shown as 'Sem
      Situação'), counts adding up to the number of records, in
      non-increasing order of count. */
  lemma GroupedBySituacaoFacts(filtered: seq<Occurrence>)
    ensures GroupingOf(GroupedBySituacao(filtered), filtered, SituacaoKey)
    ensures SortedBy(GroupedBySituacao(filtered), ByCountDesc)
    ensures |filtered| == 0 ==> GroupedBySituacao(filtered) == []
  {
    if |filtered| > 0 {
      SortedTally(filtered, SituacaoKey, ByCountDesc);
      assert TotalPreorder(ByCountDesc);
      SortSorted(Tally(filtered, SituacaoKey), ByCountDesc);
    } else {
      assert KeySet(filtered, SituacaoKey) == {};
    }
  }

  // ---------------------------------------------------------------------------
  // By date and situação

  function DateSituacaoKey(r: Occurrence): (string, string)
  {
    (r.data, SituacaoKey(r))
  }

  predicate ByDate(a: Bucket<(string, string)>, b: Bucket<(string, string)>)
  {
    StrLe(a.key.0, b.key.0)
  }

  lemma ByDatePreorder()
    ensures TotalPreorder(ByDate)
  {
    forall a, b ensures ByDate(a, b) || ByDate(b, a) {
      StrLeTotal(a.key.0, b.key.0);
    }
    forall a, b, c | ByDate(a, b) && ByDate(b, c) ensures ByDate(a, c) {
      StrLeTransitive(a.key.0, b.key.0, c.key.0);
    }
  }

  /** `dataGroupedByDateAndSituacao`. */
  function GroupedByDateAndSituacao(filtered: seq<Occurrence>): seq<Bucket<(string, string)>>
  {
    if |filtered| == 0 then [] else Sort(Tally(filtered, DateSituacaoKey), ByDate)
  }

  method DataGroupedByDateAndSituacao(filtered: seq<Occurrence>) returns (result: seq<Bucket<(string, string)>>)
    ensures result == GroupedByDateAndSituacao(filtered)
  {
    if |filtered| == 0 {
      return [];
    }
    var grouped := GroupBy(filtered, DateSituacaoKey);
    result := Sort(grouped, ByDate);
  }

  /** One bucket per distinct (date, situação) pair, counts adding up to the
      number of records, in ascending order of date. */
  lemma GroupedByDateFacts(filtered: seq<Occurrence>)
    ensures GroupingOf(GroupedByDateAndSituacao(filtered), filtered, DateSituacaoKey)
    ensures SortedBy(GroupedByDateAndSituacao(filtered), ByDate)
    ensures |filtered| == 0 ==> GroupedByDateAndSituacao(filtered) == []
  {
    if |filtered| > 0 {
      SortedTally(filtered, DateSituacaoKey, ByDate);
      ByDatePreorder();
      SortSorted(Tally(filtered, DateSituacaoKey), ByDate);
    } else {
      assert KeySet(filtered, DateSituacaoKey) == {};
    }
  }
}
