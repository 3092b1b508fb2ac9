/** The occurrence table's data: special-category tags computed over all
    records, the per-category lists of the filtered records, and pages of 25
    rows with the current page reset whenever the filters change. */
module TableData {
  import opened Wrappers
  import opened Seqs
  import opened Records
  import opened Categories

  datatype Tag = FolgasTrabalhadas | HorasExtras6h | DebitoCreditoMesmoDia

  /** The tag map, keyed by `${item.id}`. */
  type TagMap = map<string, seq<Tag>>

  /** `map.get(key) || []`. */
  function TagsOf(m: TagMap, k: string): seq<Tag>
  {
    if k in m then m[k] else []
  }

  function Repeat(t: Tag, n: nat): (r: seq<Tag>)
    ensures |r| == n && forall i :: 0 <= i < n ==> r[i] == t
  {
    seq(n, _ => t)
  }

  lemma RepeatSnoc(t: Tag, n: nat)
    ensures Repeat(t, n + 1) == Repeat(t, n) + [t]
  {
  }

  /** The number of records of `xs` whose id prints as `k`. */
  function CountId(xs: seq<Occurrence>, k: string): nat
  {
    if xs == [] then 0
    else CountId(xs[..|xs| - 1], k) + (if Show(xs[|xs| - 1].id) == k then 1 else 0)
  }

  lemma CountIdSnoc(xs: seq<Occurrence>, x: Occurrence, k: string)
    ensures CountId(xs + [x], k) == CountId(xs, k) + (if Show(x.id) == k then 1 else 0)
  {
    assert (xs + [x])[..|xs|] == xs;
  }

  lemma {:induction false} CountIdPositive(xs: seq<Occurrence>, k: string)
    ensures CountId(xs, k) > 0 <==> exists r :: r in xs && Show(r.id) == k
  {
    if xs != [] {
      var p := xs[..|xs| - 1];
      CountIdPositive(p, k);
      assert xs == p + [xs[|xs| - 1]];
      if CountId(p, k) > 0 {
        var r :| r in p && Show(r.id) == k;
        assert r in xs;
      }
    }
  }

  /** The tags the three passes push for key `k`: one per matching record, in
      pass order. */
  function ExpectedTags(all: seq<Occurrence>, k: string): seq<Tag>
  {
    Repeat(FolgasTrabalhadas, CountId(Filter(all, IsFolgaTrabalhada), k))
    + Repeat(HorasExtras6h, CountId(Filter(all, IsHorasExtras6h), k))
    + Repeat(DebitoCreditoMesmoDia, CountId(DebitoCredito(all), k))
  }

  /** `if (!map.has(key)) map.set(key, []); map.get(key).push(tag)`. */
  function Push(m: TagMap, r: Occurrence, t: Tag): TagMap
  {
    var key := Show(r.id);
    m[key := TagsOf(m, key) + [t]]
  }

  /** Pushing `t` for every record of `ys`, in order. */
  function PushAll(m: TagMap, ys: seq<Occurrence>, t: Tag): (r: TagMap)
    ensures (forall k :: k in m ==> m[k] != []) ==> forall k :: k in r ==> r[k] != []
  {
    if ys == [] then m else Push(PushAll(m, ys[..|ys| - 1], t), ys[|ys| - 1], t)
  }

  lemma PushAllSnoc(m: TagMap, ys: seq<Occurrence>, y: Occurrence, t: Tag)
    ensures PushAll(m, ys + [y], t) == Push(PushAll(m, ys, t), y, t)
  {
    assert (ys + [y])[..|ys|] == ys;
  }

  /** After the pushes, a key holds its old tags followed by one `t` per record
      of `ys` with that id. */
  lemma {:induction false} PushAllTags(m: TagMap, ys: seq<Occurrence>, t: Tag, k: string)
    ensures TagsOf(PushAll(m, ys, t), k) == TagsOf(m, k) + Repeat(t, CountId(ys, k))
  {
    if ys != [] {
      var p, y := ys[..|ys| - 1], ys[|ys| - 1];
      var before := PushAll(m, p, t);
      var c := CountId(p, k);
      PushAllTags(m, p, t, k);
      assert TagsOf(before, k) == TagsOf(m, k) + Repeat(t, c);
      assert PushAll(m, ys, t) == Push(before, y, t);
      assert CountId(ys, k) == c + (if Show(y.id) == k then 1 else 0);
      if Show(y.id) == k {
        assert TagsOf(Push(before, y, t), k) == TagsOf(before, k) + [t];
        RepeatSnoc(t, c);
        assert TagsOf(m, k) + Repeat(t, c) + [t] == TagsOf(m, k) + Repeat(t, c + 1);
      } else {
        assert TagsOf(Push(before, y, t), k) == TagsOf(before, k);
      }
    }
  }

  /** The map `categorizarEspeciais` builds: the three passes in order (on
      an empty list they push nothing). */
  function TagMapOf(all: seq<Occurrence>): (m: TagMap)
    ensures forall k :: k in m ==> m[k] != []
  {
    var folgas := PushAll(map[], Filter(all, IsFolgaTrabalhada), FolgasTrabalhadas);
    var extras := PushAll(folgas, Filter(all, IsHorasExtras6h), HorasExtras6h);
    PushAll(extras, DebitoCredito(all), DebitoCreditoMesmoDia)
  }

  /** Every key of the map holds one tag per matching record, in pass order. */
  lemma TagMapTags(all: seq<Occurrence>, k: string)
    ensures TagsOf(TagMapOf(all), k) == ExpectedTags(all, k)
  {
    var folgas := PushAll(map[], Filter(all, IsFolgaTrabalhada), FolgasTrabalhadas);
    var extras := PushAll(folgas, Filter(all, IsHorasExtras6h), HorasExtras6h);
    var a := Repeat(FolgasTrabalhadas, CountId(Filter(all, IsFolgaTrabalhada), k));
    var b := Repeat(HorasExtras6h, CountId(Filter(all, IsHorasExtras6h), k));
    var c := Repeat(DebitoCreditoMesmoDia, CountId(DebitoCredito(all), k));
    PushAllTags(map[], Filter(all, IsFolgaTrabalhada), FolgasTrabalhadas, k);
    assert TagsOf(folgas, k) == a;
    PushAllTags(folgas, Filter(all, IsHorasExtras6h), HorasExtras6h, k);
    assert TagsOf(extras, k) == a + b;
    PushAllTags(extras, DebitoCredito(all), DebitoCreditoMesmoDia, k);
  }

  /** One pass: push `t` for every record of `xs` with the rule `p`. */
  method TagPass(xs: seq<Occurrence>, p: Occurrence -> bool, t: Tag, m0: TagMap) returns (m: TagMap)
    ensures m == PushAll(m0, Filter(xs, p), t)
  {
    m := m0;
    for i := 0 to |xs|
      invariant m == PushAll(m0, Filter(xs[..i], p), t)
    {
      ghost var before := Filter(xs[..i], p);
      FilterStep(xs, i, p);
      if p(xs[i]) {
        PushAllSnoc(m0, before, xs[i], t);
        m := Push(m, xs[i], t);
      } else {
        assert Filter(xs[..i + 1], p) == before;
      }
    }
    assert xs[..|xs|] == xs;
  }

  lemma {:induction false} PushAllAppend(m: TagMap, ys: seq<Occurrence>, zs: seq<Occurrence>, t: Tag)
    ensures PushAll(m, ys + zs, t) == PushAll(PushAll(m, ys, t), zs, t)
    decreases |zs|
  {
    if zs == [] {
      assert ys + zs == ys;
    } else {
      var z := zs[|zs| - 1];
      assert ys + zs == (ys + zs[..|zs| - 1]) + [z];
      PushAllSnoc(m, ys + zs[..|zs| - 1], z, t);
      PushAllAppend(m, ys, zs[..|zs| - 1], t);
    }
  }

  /** The inner loop: push `t` for every item of one group. */
  method TagGroupItems(items: seq<Occurrence>, t: Tag, m0: TagMap) returns (m: TagMap)
    ensures m == PushAll(m0, items, t)
  {
    m := m0;
    for j := 0 to |items|
      invariant m == PushAll(m0, items[..j], t)
    {
      assert items[..j + 1] == items[..j] + [items[j]];
      PushAllSnoc(m0, items[..j], items[j], t);
      m := Push(m, items[j], t);
    }
    assert items[..|items|] == items;
  }

  /** The debit/credit pass: every item of every flagged group. */
  method TagFlaggedGroups(groups: seq<DayGroup>, m0: TagMap) returns (m: TagMap)
    ensures m == PushAll(m0, FlaggedItems(groups), DebitoCreditoMesmoDia)
  {
    m := m0;
    for i := 0 to |groups|
      invariant m == PushAll(m0, FlaggedItems(groups[..i]), DebitoCreditoMesmoDia)
    {
      assert groups[..i + 1][..i] == groups[..i];
      ghost var done := FlaggedItems(groups[..i]);
      if groups[i].temCredito && groups[i].temDebito {
        PushAllAppend(m0, done, groups[i].items, DebitoCreditoMesmoDia);
        m := TagGroupItems(groups[i].items, DebitoCreditoMesmoDia, m);
        assert FlaggedItems(groups[..i + 1]) == done + groups[i].items;
      } else {
        assert FlaggedItems(groups[..i + 1]) == done;
      }
    }
    assert groups[..|groups|] == groups;
  }

  /** `categorizarEspeciais`: the tag map over ALL records, independent of
      the active filters. */
  method CategorizarEspeciais(all: seq<Occurrence>) returns (m: TagMap)
    ensures m == TagMapOf(all)
  {
    m := map[];
    if |all| == 0 {
      assert Filter(all, IsFolgaTrabalhada) == [] && Filter(all, IsHorasExtras6h) == [];
      assert DayGroups(all) == [];
      return;
    }
    m := TagPass(all, IsFolgaTrabalhada, FolgasTrabalhadas, m);
    m := TagPass(all, IsHorasExtras6h, HorasExtras6h, m);
    var groups := GroupByDay(all);
    m := TagFlaggedGroups(groups, m);
  }

  /** The rule each tag stands for, over the complete record set. */
  predicate Carries(all: seq<Occurrence>, r: Occurrence, t: Tag)
  {
    match t
    case FolgasTrabalhadas => IsFolgaTrabalhada(r)
    case HorasExtras6h => IsHorasExtras6h(r)
    case DebitoCreditoMesmoDia => InFlaggedDay(all, r)
  }

  lemma InRepeat(t: Tag, u: Tag, n: nat)
    ensures t in Repeat(u, n) <==> n > 0 && t == u
  {
    if n > 0 { assert Repeat(u, n)[0] == u; }
  }

  /** A key carries a tag exactly when some record with that id satisfies
      the tag's rule; a record can carry several tags. */
  lemma TagMembership(all: seq<Occurrence>, k: string, t: Tag)
    ensures t in TagsOf(TagMapOf(all), k) <==> exists r :: r in all && Show(r.id) == k && Carries(all, r, t)
  {
    TagMapTags(all, k);
    var f := Filter(all, IsFolgaTrabalhada);
    var e := Filter(all, IsHorasExtras6h);
    var d := DebitoCredito(all);
    CountIdPositive(f, k);
    CountIdPositive(e, k);
    CountIdPositive(d, k);
    InRepeat(t, FolgasTrabalhadas, CountId(f, k));
    InRepeat(t, HorasExtras6h, CountId(e, k));
    InRepeat(t, DebitoCreditoMesmoDia, CountId(d, k));
    if t == DebitoCreditoMesmoDia {
      forall r ensures r in d <==> r in all && InFlaggedDay(all, r) {
        DebitoCreditoMembers(all, r);
      }
    }
  }

  // ---------------------------------------------------------------------------
  // Lists per category

  /** `categorias.includes(tag)` for the record's id. */
  predicate HasTag(m: TagMap, t: Tag, r: Occurrence)
  {
    t in TagsOf(m, Show(r.id))
  }

  function Tagged(m: TagMap, t: Tag): Occurrence -> bool
  {
    (r: Occurrence) => HasTag(m, t, r)
  }

  datatype DataByCategory = DataByCategory(
    folgasTrabalhadas: seq<Occurrence>,
    horasExtras6h: seq<Occurrence>,
    debitoCreditoMesmoDia: seq<Occurrence>)

  /** `dataByCategory`: the filtered records pushed into the list of every
      tag their id carries. */
  method DataByCategoryOf(tableData: seq<Occurrence>, m: TagMap) returns (c: DataByCategory)
    ensures c.folgasTrabalhadas == Filter(tableData, Tagged(m, FolgasTrabalhadas))
    ensures c.horasExtras6h == Filter(tableData, Tagged(m, HorasExtras6h))
    ensures c.debitoCreditoMesmoDia == Filter(tableData, Tagged(m, DebitoCreditoMesmoDia))
  {
    var folgas, extras, dc := [], [], [];
    for i := 0 to |tableData|
      invariant folgas == Filter(tableData[..i], Tagged(m, FolgasTrabalhadas))
      invariant extras == Filter(tableData[..i], Tagged(m, HorasExtras6h))
      invariant dc == Filter(tableData[..i], Tagged(m, DebitoCreditoMesmoDia))
    {
      var item := tableData[i];
      FilterStep(tableData, i, Tagged(m, FolgasTrabalhadas));
      FilterStep(tableData, i, Tagged(m, HorasExtras6h));
      FilterStep(tableData, i, Tagged(m, DebitoCreditoMesmoDia));
      var categorias := TagsOf(m, Show(item.id));
      if FolgasTrabalhadas in categorias { folgas := folgas + [item]; }
      if HorasExtras6h in categorias { extras := extras + [item]; }
      if DebitoCreditoMesmoDia in categorias { dc := dc + [item]; }
    }
    assert tableData[..|tableData|] == tableData;
    c := DataByCategory(folgas, extras, dc);
  }

  /** The debit/credit rule judged on the complete set `all`. */
  function FlaggedDayRule(all: seq<Occurrence>): Occurrence -> bool
  {
    (r: Occurrence) => InFlaggedDay(all, r)
  }

  /** Record ids are unique: two records printing the same id are the same. */
  ghost predicate UniqueIds(all: seq<Occurrence>)
  {
    forall a, b :: a in all && b in all && Show(a.id) == Show(b.id) ==> a == b
  }

  lemma TaggedAgrees(all: seq<Occurrence>, r: Occurrence, t: Tag)
    requires UniqueIds(all) && r in all
    ensures HasTag(TagMapOf(all), t, r) == Carries(all, r, t)
  {
    TagMembership(all, Show(r.id), t);
  }

  /** The tag lists and the category rules agree: when ids are unique and the
      table shows records of the complete set, each per-category list is the
      table filtered by that category's rule (the debit/credit rule judged on
      the complete set). */
  lemma DataByCategoryAgrees(all: seq<Occurrence>, tableData: seq<Occurrence>)
    requires UniqueIds(all) && forall r :: r in tableData ==> r in all
    ensures Filter(tableData, Tagged(TagMapOf(all), FolgasTrabalhadas)) == Filter(tableData, IsFolgaTrabalhada)
    ensures Filter(tableData, Tagged(TagMapOf(all), HorasExtras6h)) == Filter(tableData, IsHorasExtras6h)
    ensures Filter(tableData, Tagged(TagMapOf(all), DebitoCreditoMesmoDia)) == Filter(tableData, FlaggedDayRule(all))
  {
    forall r | r in tableData
      ensures Tagged(TagMapOf(all), FolgasTrabalhadas)(r) == IsFolgaTrabalhada(r)
      ensures Tagged(TagMapOf(all), HorasExtras6h)(r) == IsHorasExtras6h(r)
      ensures Tagged(TagMapOf(all), DebitoCreditoMesmoDia)(r) == InFlaggedDay(all, r)
    {
      TaggedAgrees(all, r, FolgasTrabalhadas);
      TaggedAgrees(all, r, HorasExtras6h);
      TaggedAgrees(all, r, DebitoCreditoMesmoDia);
    }
    FilterExt(tableData, Tagged(TagMapOf(all), FolgasTrabalhadas), IsFolgaTrabalhada);
    FilterExt(tableData, Tagged(TagMapOf(all), HorasExtras6h), IsHorasExtras6h);
    FilterExt(tableData, Tagged(TagMapOf(all), DebitoCreditoMesmoDia), FlaggedDayRule(all));
  }

  // ---------------------------------------------------------------------------
  // Pages

  const PageSize: nat := 25

  /** `Array.prototype.slice(start, end)`: negative bounds count from the end,
      bounds are clamped to the list. */
  function SliceBound(n: nat, b: int): (r: nat)
    ensures r <= n
  {
    if b < 0 then (if n + b < 0 then 0 else n + b) else if b > n then n else b
  }

  function Slice<T>(xs: seq<T>, start: int, end: int): seq<T>
  {
    var from, to := SliceBound(|xs|, start), SliceBound(|xs|, end);
    if from <= to then xs[from..to] else []
  }

  /** `paginatedData` for page `page`. */
  function Paginate<T>(xs: seq<T>, page: int): seq<T>
  {
    Slice(xs, (page - 1) * PageSize, (page - 1) * PageSize + PageSize)
  }

  /** `Math.ceil(n / 25)`. */
  function TotalPages(n: nat): nat
  {
    (n + PageSize - 1) / PageSize
  }

  /** A page is the 25-record window starting at `(page - 1) * 25`, cut at the
      end of the list; it never holds more than 25 records. */
  lemma PaginateWindow<T>(xs: seq<T>, page: int)
    requires page >= 1
    ensures var start := (page - 1) * PageSize;
      Paginate(xs, page) == xs[if start < |xs| then start else |xs|..if start + PageSize < |xs| then start + PageSize else |xs|]
    ensures |Paginate(xs, page)| <= PageSize
  {
  }

  /** Every record is on exactly one page: record `i` is entry `i % 25` of
      page `i / 25 + 1`, and that page exists. */
  lemma RecordPage<T>(xs: seq<T>, i: nat)
    requires i < |xs|
    ensures 1 <= i / PageSize + 1 <= TotalPages(|xs|)
    ensures i % PageSize < |Paginate(xs, i / PageSize + 1)|
    ensures Paginate(xs, i / PageSize + 1)[i % PageSize] == xs[i]
  {
    PaginateWindow(xs, i / PageSize + 1);
  }

  /** `totalPages` is the least number of pages that holds every record. */
  lemma TotalPagesBounds(n: nat)
    ensures TotalPages(n) * PageSize >= n
    ensures n > 0 ==> (TotalPages(n) - 1) * PageSize < n
    ensures n == 0 <==> TotalPages(n) == 0
  {
  }

  lemma PageExample<T>(xs: seq<T>)
    requires |xs| == 57
    ensures |Paginate(xs, 3)| == 7 && TotalPages(|xs|) == 3
  {
  }

  /** The table's page state; `SetCurrentPage` is its React state setter,
      which the page buttons call. */
  class TablePagination {
    var currentPage: int

    constructor()
      ensures currentPage == 1
    {
      currentPage := 1;
    }

    /** The effect that runs whenever the filters change. */
    method OnFiltersChanged()
      modifies this
      ensures currentPage == 1
    {
      currentPage := 1;
    }

    method SetCurrentPage(page: int)
      modifies this
      ensures currentPage == page
    {
      currentPage := page;
    }

    function PaginatedData(tableData: seq<Occurrence>): seq<Occurrence>
      reads this
    {
      Paginate(tableData, currentPage)
    }
  }

  /** After a filter change the table shows the first 25 filtered records. */
  lemma FirstPageAfterReset(tableData: seq<Occurrence>)
    ensures Paginate(tableData, 1) == tableData[..if |tableData| < PageSize then |tableData| else PageSize]
  {
  }
}
