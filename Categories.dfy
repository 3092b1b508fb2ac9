/** The special-occurrence rules shared by the spreadsheet export, the table
    tags and the pie chart: the substring rules on `situacao` and
    `descricao_horario`, the per-record hour totals, and the cross-record
    rule "debit and credit on the same day", which groups records by
    collaborator and date. */
module Categories {
  import opened Wrappers
  import opened Strings
  import opened Seqs
  import opened Records

  // ---------------------------------------------------------------------------
  // Substring rules

  predicate IsCredito(r: Occurrence) { Contains(LowerSituacao(r), "crédito") }

  predicate IsDebito(r: Occurrence) { Contains(LowerSituacao(r), "débito") }

  /** "Marcações Inválidas": the situation names an invalid marking, in the
      plural or the singular. */
  predicate IsMarcacaoInvalida(r: Occurrence)
  {
    Contains(LowerSituacao(r), "marcações inválidas") || Contains(LowerSituacao(r), "marcação inválida")
  }

  /** "Horas Extras +6h": a credit whose duration is present and above six
      hours. */
  predicate IsHorasExtras6h(r: Occurrence)
  {
    IsCredito(r) && r.totalHorasOcorrencia.Some? && DecimalHours(r.totalHorasOcorrencia.value) > 6.0
  }

  /** "Folgas Trabalhadas": the schedule description names a day off. */
  predicate IsFolgaTrabalhada(r: Occurrence)
  {
    Contains(LowerDescricao(r), "dsr") || Contains(LowerDescricao(r), "folga")
  }

  /** "Débito BH": an hour-bank debit with neither clock-in nor clock-out. */
  predicate IsDebitoBH(r: Occurrence)
  {
    IsDebito(r) && Contains(LowerSituacao(r), "bh") && !TextTruthy(r.inicio) && !TextTruthy(r.termino)
  }

  /** The six-hour threshold is exact: it compares whole seconds. */
  lemma HorasExtrasInSeconds(r: Occurrence)
    ensures IsHorasExtras6h(r) <==>
      IsCredito(r) && r.totalHorasOcorrencia.Some? && TotalSeconds(r.totalHorasOcorrencia.value) > 21600
  {
    if r.totalHorasOcorrencia.Some? { AboveSixHours(r.totalHorasOcorrencia.value); }
  }

  /** A record without a duration is never overtime. */
  lemma HorasExtrasNeedsDuration(r: Occurrence)
    requires r.totalHorasOcorrencia.None?
    ensures !IsHorasExtras6h(r) && RecordHours(r) == 0.0
  {
  }

  // ---------------------------------------------------------------------------
  // Totals

  /** `calcularTotais`: the number of records and the sum of their decimal
      hours, counting only records whose duration is present. */
  method CalcularTotais(data: seq<Occurrence>) returns (totalOcorrencias: nat, somaHoras: real)
    ensures totalOcorrencias == |data|
    ensures somaHoras == SumHours(data)
  {
    totalOcorrencias := |data|;
    somaHoras := 0.0;
    for i := 0 to |data|
      invariant somaHoras == SumHours(data[..i])
    {
      assert data[..i + 1][..i] == data[..i];
      if data[i].totalHorasOcorrencia.Some? {
        var d := data[i].totalHorasOcorrencia.value;
        somaHoras := somaHoras + (Hours(d) as real + (Minutes(d) as real) / 60.0 + (SecondsPart(d) as real) / 3600.0);
      }
    }
    assert data[..|data|] == data;
  }

  /** The hours of a list are never negative and a list of records without
      durations sums to zero. */
  lemma {:induction false} SumHoursNoDurations(xs: seq<Occurrence>)
    requires forall k :: 0 <= k < |xs| ==> xs[k].totalHorasOcorrencia.None?
    ensures SumHours(xs) == 0.0
  {
    if xs != [] { SumHoursNoDurations(xs[..|xs| - 1]); }
  }

  // ---------------------------------------------------------------------------
  // Grouping by collaborator and day

  /** The grouping key `${id_colaborador}|${data}`, kept as a pair. */
  type DayKey = (string, string)

  function KeyOf(r: Occurrence): DayKey { (Show(r.idColaborador), r.data) }

  /** One entry of `ocorrenciasPorDiaColaborador`. */
  datatype DayGroup = DayGroup(key: DayKey, temCredito: bool, temDebito: bool, items: seq<Occurrence>)

  predicate Flagged(g: DayGroup) { g.temCredito && g.temDebito }

  /** Adds one record to its group: flags raised, record appended. */
  function Absorb(g: DayGroup, r: Occurrence): DayGroup
  {
    g.(temCredito := g.temCredito || IsCredito(r),
       temDebito := g.temDebito || IsDebito(r),
       items := g.items + [r])
  }

  /** The position of the group with key `k`, if any. */
  function FindGroup(gs: seq<DayGroup>, k: DayKey): (r: Option<nat>)
    ensures r.Some? ==> r.value < |gs| && gs[r.value].key == k
    ensures r.None? ==> forall j :: 0 <= j < |gs| ==> gs[j].key != k
  {
    if gs == [] then None
    else if gs[|gs| - 1].key == k then Some(|gs| - 1)
    else FindGroup(gs[..|gs| - 1], k)
  }

  /** One step of the `forEach`: create the group if it is missing, then
      absorb the record. */
  function AddToGroups(gs: seq<DayGroup>, r: Occurrence): seq<DayGroup>
  {
    match FindGroup(gs, KeyOf(r))
    case None => gs + [Absorb(DayGroup(KeyOf(r), false, false, []), r)]
    case Some(j) => gs[j := Absorb(gs[j], r)]
  }

  /** The groups in order of first appearance (`Object.values` order; the
      keys contain `|`, so none is an array index). */
  function DayGroups(xs: seq<Occurrence>): seq<DayGroup>
  {
    if xs == [] then [] else AddToGroups(DayGroups(xs[..|xs| - 1]), xs[|xs| - 1])
  }

  /** The records of `xs` with key `k`, in order. */
  function DayItems(xs: seq<Occurrence>, k: DayKey): (r: seq<Occurrence>)
    ensures forall x :: x in r <==> x in xs && KeyOf(x) == k
  {
    if xs == [] then []
    else DayItems(xs[..|xs| - 1], k) + (if KeyOf(xs[|xs| - 1]) == k then [xs[|xs| - 1]] else [])
  }

  predicate HasCredito(xs: seq<Occurrence>, k: DayKey)
  {
    exists x :: x in xs && KeyOf(x) == k && IsCredito(x)
  }

  predicate HasDebito(xs: seq<Occurrence>, k: DayKey)
  {
    exists x :: x in xs && KeyOf(x) == k && IsDebito(x)
  }

  /** The record's collaborator has both a credit and a debit on its day. */
  predicate InFlaggedDay(xs: seq<Occurrence>, r: Occurrence)
  {
    HasCredito(xs, KeyOf(r)) && HasDebito(xs, KeyOf(r))
  }

  predicate DistinctKeys(gs: seq<DayGroup>)
  {
    forall i, j :: 0 <= i < j < |gs| ==> gs[i].key != gs[j].key
  }

  /** What a group says about the records it was built from. */
  predicate Describes(xs: seq<Occurrence>, g: DayGroup)
  {
    g.items == DayItems(xs, g.key) && g.temCredito == HasCredito(xs, g.key) && g.temDebito == HasDebito(xs, g.key)
  }

  predicate GroupsOf(xs: seq<Occurrence>, gs: seq<DayGroup>)
  {
    && DistinctKeys(gs)
    && (forall j :: 0 <= j < |gs| ==> Describes(xs, gs[j]))
    && (forall x :: x in xs ==> FindGroup(gs, KeyOf(x)).Some?)
  }

  lemma FindGroupSnoc(gs: seq<DayGroup>, g: DayGroup, k: DayKey)
    ensures FindGroup(gs + [g], k) == if g.key == k then Some(|gs|) else FindGroup(gs, k)
  {
    assert (gs + [g])[..|gs|] == gs;
  }

  /** `FindGroup` looks at the keys only. */
  lemma {:induction false} FindGroupSameKeys(gs: seq<DayGroup>, hs: seq<DayGroup>, k: DayKey)
    requires |gs| == |hs| && forall j :: 0 <= j < |gs| ==> gs[j].key == hs[j].key
    ensures FindGroup(gs, k) == FindGroup(hs, k)
  {
    if gs != [] {
      FindGroupSameKeys(gs[..|gs| - 1], hs[..|hs| - 1], k);
    }
  }

  lemma DayItemsSnoc(xs: seq<Occurrence>, x: Occurrence, k: DayKey)
    ensures DayItems(xs + [x], k) == DayItems(xs, k) + (if KeyOf(x) == k then [x] else [])
  {
    assert (xs + [x])[..|xs|] == xs;
  }

  lemma HasFlagsSnoc(xs: seq<Occurrence>, x: Occurrence, k: DayKey)
    ensures HasCredito(xs + [x], k) == (HasCredito(xs, k) || (KeyOf(x) == k && IsCredito(x)))
    ensures HasDebito(xs + [x], k) == (HasDebito(xs, k) || (KeyOf(x) == k && IsDebito(x)))
  {
    if HasCredito(xs + [x], k) {
      var y :| y in xs + [x] && KeyOf(y) == k && IsCredito(y);
    }
    if HasDebito(xs + [x], k) {
      var y :| y in xs + [x] && KeyOf(y) == k && IsDebito(y);
    }
  }

  /** A group of another key is unaffected by a new record. */
  lemma DescribesOther(xs: seq<Occurrence>, g: DayGroup, x: Occurrence)
    requires Describes(xs, g) && g.key != KeyOf(x)
    ensures Describes(xs + [x], g)
  {
    DayItemsSnoc(xs, x, g.key);
    HasFlagsSnoc(xs, x, g.key);
  }

  /** The group of the record's key absorbs it. */
  lemma DescribesAbsorb(xs: seq<Occurrence>, g: DayGroup, x: Occurrence)
    requires Describes(xs, g) && g.key == KeyOf(x)
    ensures Describes(xs + [x], Absorb(g, x))
  {
    DayItemsSnoc(xs, x, g.key);
    HasFlagsSnoc(xs, x, g.key);
  }

  /** An empty, unflagged group describes a key no record has. */
  lemma {:induction false} DescribesEmpty(xs: seq<Occurrence>, k: DayKey)
    requires forall y :: y in xs ==> KeyOf(y) != k
    ensures Describes(xs, DayGroup(k, false, false, []))
  {
    if xs != [] {
      assert xs[..|xs| - 1] + [xs[|xs| - 1]] == xs;
      DescribesEmpty(xs[..|xs| - 1], k);
    }
  }

  lemma CoversAfterNew(xs: seq<Occurrence>, gs: seq<DayGroup>, g: DayGroup, x: Occurrence)
    requires forall y :: y in xs ==> FindGroup(gs, KeyOf(y)).Some?
    requires g.key == KeyOf(x)
    ensures forall y :: y in xs + [x] ==> FindGroup(gs + [g], KeyOf(y)).Some?
  {
    forall y | y in xs + [x] ensures FindGroup(gs + [g], KeyOf(y)).Some? {
      FindGroupSnoc(gs, g, KeyOf(y));
      if y != x { assert y in xs; }
    }
  }

  lemma DistinctAfterNew(gs: seq<DayGroup>, g: DayGroup)
    requires DistinctKeys(gs) && FindGroup(gs, g.key).None?
    ensures DistinctKeys(gs + [g])
  {
    var hs := gs + [g];
    forall i, j | 0 <= i < j < |hs| ensures hs[i].key != hs[j].key {
      if j == |gs| { assert hs[i] == gs[i]; } else { assert hs[i] == gs[i] && hs[j] == gs[j]; }
    }
  }

  /** Adding a record new to `xs` keeps the groups a faithful description. */
  lemma AddNewGroup(xs: seq<Occurrence>, gs: seq<DayGroup>, x: Occurrence)
    requires GroupsOf(xs, gs) && FindGroup(gs, KeyOf(x)).None?
    ensures GroupsOf(xs + [x], AddToGroups(gs, x))
  {
    var k := KeyOf(x);
    var g := Absorb(DayGroup(k, false, false, []), x);
    var hs := gs + [g];
    assert AddToGroups(gs, x) == hs;
    assert forall y :: y in xs ==> KeyOf(y) != k;
    DescribesEmpty(xs, k);
    DescribesAbsorb(xs, DayGroup(k, false, false, []), x);
    forall j | 0 <= j < |gs| ensures Describes(xs + [x], hs[j]) {
      assert hs[j] == gs[j] && Describes(xs, gs[j]);
      DescribesOther(xs, gs[j], x);
    }
    CoversAfterNew(xs, gs, g, x);
    DistinctAfterNew(gs, g);
  }

  /** Adding a record to its existing group keeps the description faithful. */
  lemma AddExistingGroup(xs: seq<Occurrence>, gs: seq<DayGroup>, x: Occurrence, j: nat)
    requires GroupsOf(xs, gs) && FindGroup(gs, KeyOf(x)) == Some(j)
    ensures GroupsOf(xs + [x], AddToGroups(gs, x))
  {
    var hs := gs[j := Absorb(gs[j], x)];
    assert AddToGroups(gs, x) == hs;
    assert |hs| == |gs| && forall i :: 0 <= i < |hs| ==> hs[i].key == gs[i].key;
    assert DistinctKeys(hs);
    forall i | 0 <= i < |hs| ensures Describes(xs + [x], hs[i]) {
      assert Describes(xs, gs[i]);
      if i == j {
        assert hs[i] == Absorb(gs[i], x);
        DescribesAbsorb(xs, gs[i], x);
      } else {
        assert hs[i] == gs[i];
        DescribesOther(xs, gs[i], x);
      }
    }
    forall y | y in xs + [x] ensures FindGroup(hs, KeyOf(y)).Some? {
      FindGroupSameKeys(gs, hs, KeyOf(y));
      if y != x { assert y in xs; }
    }
  }

  /** The groups have distinct keys, each holds exactly the records of its
      key in order with the flags those records raise, and every record has
      its group. */
  lemma {:induction false} DayGroupsFacts(xs: seq<Occurrence>)
    ensures GroupsOf(xs, DayGroups(xs))
  {
    if xs != [] {
      var p, x := xs[..|xs| - 1], xs[|xs| - 1];
      assert p + [x] == xs;
      DayGroupsFacts(p);
      match FindGroup(DayGroups(p), KeyOf(x))
      case None => AddNewGroup(p, DayGroups(p), x);
      case Some(j) => AddExistingGroup(p, DayGroups(p), x, j);
    }
  }

  /** `index` maps each key to the position of its group, as the
      dictionary's key lookup does. */
  ghost predicate Indexes(groups: seq<DayGroup>, index: map<DayKey, nat>)
  {
    forall k :: FindGroup(groups, k) == if k in index then Some(index[k]) else None
  }

  lemma IndexCreate(groups: seq<DayGroup>, index: map<DayKey, nat>, k: DayKey)
    requires Indexes(groups, index) && k !in index
    ensures Indexes(groups + [DayGroup(k, false, false, [])], index[k := |groups|])
  {
    forall k' ensures FindGroup(groups + [DayGroup(k, false, false, [])], k') == if k' in index[k := |groups|] then Some(index[k := |groups|][k']) else None {
      FindGroupSnoc(groups, DayGroup(k, false, false, []), k');
    }
  }

  lemma IndexAbsorb(groups: seq<DayGroup>, index: map<DayKey, nat>, j: nat, x: Occurrence)
    requires Indexes(groups, index) && j < |groups|
    ensures Indexes(groups[j := Absorb(groups[j], x)], index)
  {
    forall k' ensures FindGroup(groups[j := Absorb(groups[j], x)], k') == FindGroup(groups, k') {
      FindGroupSameKeys(groups, groups[j := Absorb(groups[j], x)], k');
    }
  }

  /** The `forEach` that fills the `ocorrenciasPorDiaColaborador`
      dictionary, with the dictionary's key-to-entry lookup as `index`. */
  method GroupByDay(xs: seq<Occurrence>) returns (groups: seq<DayGroup>)
    ensures groups == DayGroups(xs)
  {
    groups := [];
    var index: map<DayKey, nat> := map[];
    for i := 0 to |xs|
      invariant groups == DayGroups(xs[..i])
      invariant Indexes(groups, index)
    {
      assert xs[..i + 1][..i] == xs[..i];
      var x := xs[i];
      var k := KeyOf(x);
      ghost var before := groups;
      if k !in index {
        IndexCreate(groups, index, k);
        index := index[k := |groups|];
        groups := groups + [DayGroup(k, false, false, [])];
      }
      var j := index[k];
      assert FindGroup(groups, k) == Some(j);
      IndexAbsorb(groups, index, j, x);
      groups := groups[j := Absorb(groups[j], x)];
      assert groups == AddToGroups(before, x);
    }
    assert xs[..|xs|] == xs;
  }

  // ---------------------------------------------------------------------------
  // Debit and credit on the same day

  /** The items of the flagged groups, group after group. */
  function FlaggedItems(gs: seq<DayGroup>): seq<Occurrence>
  {
    if gs == [] then []
    else FlaggedItems(gs[..|gs| - 1]) + (if Flagged(gs[|gs| - 1]) then gs[|gs| - 1].items else [])
  }

  /** The "Débito e Crédito" list of a set of records. */
  function DebitoCredito(xs: seq<Occurrence>): seq<Occurrence>
  {
    FlaggedItems(DayGroups(xs))
  }

  /** The loop that pushes the items of every flagged group. */
  method CollectFlagged(groups: seq<DayGroup>) returns (result: seq<Occurrence>)
    ensures result == FlaggedItems(groups)
  {
    result := [];
    for i := 0 to |groups|
      invariant result == FlaggedItems(groups[..i])
    {
      assert groups[..i + 1][..i] == groups[..i];
      if groups[i].temCredito && groups[i].temDebito {
        result := result + groups[i].items;
      }
    }
    assert groups[..|groups|] == groups;
  }

  lemma {:induction false} FlaggedItemsMembers(gs: seq<DayGroup>, x: Occurrence)
    ensures x in FlaggedItems(gs) <==> exists j :: 0 <= j < |gs| && Flagged(gs[j]) && x in gs[j].items
  {
    if gs != [] {
      var p := gs[..|gs| - 1];
      FlaggedItemsMembers(p, x);
      if x in FlaggedItems(p) {
        var j :| 0 <= j < |p| && Flagged(p[j]) && x in p[j].items;
        assert gs[j] == p[j];
      }
      if exists j :: 0 <= j < |gs| && Flagged(gs[j]) && x in gs[j].items {
        var j :| 0 <= j < |gs| && Flagged(gs[j]) && x in gs[j].items;
        if j < |p| { assert p[j] == gs[j]; }
      }
    }
  }

  /** The "Débito e Crédito" list holds every record of each collaborator-day
      with both a credit and a debit, and no record of any other day. */
  lemma DebitoCreditoMembers(xs: seq<Occurrence>, x: Occurrence)
    ensures x in DebitoCredito(xs) <==> x in xs && InFlaggedDay(xs, x)
  {
    var gs := DayGroups(xs);
    DayGroupsFacts(xs);
    FlaggedItemsMembers(gs, x);
    if x in xs && InFlaggedDay(xs, x) {
      var j := FindGroup(gs, KeyOf(x)).value;
      assert Describes(xs, gs[j]);
      assert Flagged(gs[j]) && x in gs[j].items;
    }
    if x in DebitoCredito(xs) {
      var j :| 0 <= j < |gs| && Flagged(gs[j]) && x in gs[j].items;
      assert Describes(xs, gs[j]);
    }
  }

  /** Every record lands in exactly one group: the groups' items, put
      together, are the records. */
  function AllItems(gs: seq<DayGroup>): seq<Occurrence>
  {
    if gs == [] then [] else AllItems(gs[..|gs| - 1]) + gs[|gs| - 1].items
  }

  lemma {:induction false} AllItemsAppend(a: seq<DayGroup>, b: seq<DayGroup>)
    ensures AllItems(a + b) == AllItems(a) + AllItems(b)
  {
    if b == [] {
      assert a + b == a;
    } else {
      var c := a + b;
      var b', y := b[..|b| - 1], b[|b| - 1];
      assert c[..|c| - 1] == a + b' && c[|c| - 1] == y;
      AllItemsAppend(a, b');
    }
  }

  /** Replacing a group by one holding one more record adds that record. */
  lemma AllItemsUpdate(gs: seq<DayGroup>, j: nat, g: DayGroup, x: Occurrence)
    requires j < |gs| && g.items == gs[j].items + [x]
    ensures multiset(AllItems(gs[j := g])) == multiset(AllItems(gs)) + multiset{x}
  {
    var front, back := gs[..j], gs[j + 1..];
    assert gs == front + [gs[j]] + back;
    assert gs[j := g] == front + [g] + back;
    AllItemsAppend(front + [gs[j]], back);
    AllItemsAppend(front, [gs[j]]);
    AllItemsAppend(front + [g], back);
    AllItemsAppend(front, [g]);
    assert AllItems([g]) == g.items && AllItems([gs[j]]) == gs[j].items by {
      assert [g][..0] == [] && [gs[j]][..0] == [];
    }
  }

  lemma {:induction false} DayGroupsPartition(xs: seq<Occurrence>)
    ensures multiset(AllItems(DayGroups(xs))) == multiset(xs)
  {
    if xs != [] {
      var p, x := xs[..|xs| - 1], xs[|xs| - 1];
      assert p + [x] == xs;
      DayGroupsPartition(p);
      var gs := DayGroups(p);
      match FindGroup(gs, KeyOf(x))
      case None =>
        var g := Absorb(DayGroup(KeyOf(x), false, false, []), x);
        assert (gs + [g])[..|gs|] == gs;
      case Some(j) =>
        AllItemsUpdate(gs, j, Absorb(gs[j], x), x);
    }
  }

  lemma {:induction false} FlaggedWithinAll(gs: seq<DayGroup>)
    ensures multiset(FlaggedItems(gs)) <= multiset(AllItems(gs))
  {
    if gs != [] { FlaggedWithinAll(gs[..|gs| - 1]); }
  }

  /** No record appears in the "Débito e Crédito" list more often than in
      the input. */
  lemma DebitoCreditoWithin(xs: seq<Occurrence>)
    ensures multiset(DebitoCredito(xs)) <= multiset(xs)
  {
    FlaggedWithinAll(DayGroups(xs));
    DayGroupsPartition(xs);
  }
}
