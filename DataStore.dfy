/** The data provider: every occurrence read from the backend in pages of
    1000, every active collaborator read the same way, and each occurrence
    given its collaborator's base. */
module DataStore {
  import opened Wrappers
  import opened Records

  /** The rows per request. */
  const BatchSize: nat := 1000

  /** A table as the backend serves it: its rows in the order the query asks
      for, and optionally the number of the request (0 for the first) that
      fails, with the failure's message. */
  datatype Backend<T> = Backend(rows: seq<T>, failAt: Option<nat>, message: Option<string>)

  datatype Response<T> = Batch(items: seq<T>) | Failure(message: Option<string>)

  function Min(a: nat, b: nat): nat { if a <= b then a else b }

  /** Request number `k`, for the rows `from` to `to` inclusive. */
  function Request<T>(b: Backend<T>, k: nat, from: nat, to: nat): (r: Response<T>)
    ensures r.Failure? <==> b.failAt == Some(k)
    ensures r.Batch? && from <= to + 1 <= |b.rows| ==> r.items == b.rows[from..to + 1]
    ensures r.Batch? && from <= |b.rows| <= to + 1 ==> r.items == b.rows[from..]
  {
    if b.failAt == Some(k) then Failure(b.message)
    else
      var lo := Min(from, |b.rows|);
      var hi := Min(to + 1, |b.rows|);
      Batch(b.rows[lo..if hi < lo then lo else hi])
  }

  /** The requests a complete read of `n` rows takes: one per full page and a
      last one that comes back short or empty. */
  function PagesNeeded(n: nat): nat { n / BatchSize + 1 }

  /** The request that fails is one the read gets to. */
  predicate FailsWithin<T>(b: Backend<T>)
  {
    b.failAt.Some? && b.failAt.value < PagesNeeded(|b.rows|)
  }

  /** What a read gets: all rows, or the full pages before the failing
      request. */
  function RowsRead<T>(b: Backend<T>): (r: seq<T>)
    ensures FailsWithin(b) ==> |r| == BatchSize * b.failAt.value
  {
    if FailsWithin(b) then b.rows[..BatchSize * b.failAt.value] else b.rows
  }

  lemma PagesNeededBounds(n: nat)
    ensures BatchSize * (PagesNeeded(n) - 1) <= n < BatchSize * PagesNeeded(n)
  {
  }

  /** The paged read loop shared by both tables: request pages of
      `BatchSize` until one comes back short or empty, or a request fails. */
  method FetchAll<T>(b: Backend<T>) returns (rows: seq<T>, failed: bool, requests: nat)
    ensures failed <==> FailsWithin(b)
    ensures rows == RowsRead(b)
    ensures requests == if failed then b.failAt.value + 1 else PagesNeeded(|b.rows|)
  {
    rows := [];
    var from: nat := 0;
    var hasMore := true;
    requests := 0;
    failed := false;
    while hasMore
      invariant hasMore ==> from == BatchSize * requests <= |b.rows| && rows == b.rows[..from]
      invariant !hasMore ==> rows == b.rows && requests == PagesNeeded(|b.rows|)
      invariant b.failAt.Some? ==> b.failAt.value >= requests
      decreases if hasMore then |b.rows| - from + 1 else 0
    {
      var response := Request(b, requests, from, from + BatchSize - 1);
      if response.Failure? {
        assert requests <= |b.rows| / BatchSize;
        failed := true;
        requests := requests + 1;
        return;
      }
      var batch := response.items;
      if |batch| > 0 {
        assert batch == b.rows[from..from + |batch|];
        rows := rows + batch;
        assert rows == b.rows[..from + |batch|];
        from := from + BatchSize;
        hasMore := |batch| == BatchSize;
        if !hasMore {
          assert from - BatchSize < |b.rows| < from;
          assert |b.rows| / BatchSize == requests;
        }
      } else {
        assert from == |b.rows|;
        hasMore := false;
      }
      requests := requests + 1;
    }
  }

  /** A read of 3001 rows takes four requests, the last one returning one
      row. */
  lemma FourRequests<T>(b: Backend<T>)
    requires |b.rows| == 3001 && b.failAt == None
    ensures PagesNeeded(|b.rows|) == 4 && !FailsWithin(b)
  {
  }

  // ---------------------------------------------------------------------------
  // The collaborator-to-base lookup

  /** A row of the active collaborators' table (`id, base`). */
  datatype Ativo = Ativo(id: Value, base: Option<string>)

  /** The lookup keyed by `String(id)`: later rows overwrite earlier ones. */
  function AtivosMapOf(ativos: seq<Ativo>): map<string, Option<string>>
  {
    if ativos == [] then map[]
    else AtivosMapOf(ativos[..|ativos| - 1])[Show(ativos[|ativos| - 1].id) := ativos[|ativos| - 1].base]
  }

  /** `ativos.forEach(a => map.set(String(a.id), a.base))`. */
  method BuildAtivosMap(ativos: seq<Ativo>) returns (m: map<string, Option<string>>)
    ensures m == AtivosMapOf(ativos)
  {
    m := map[];
    for i := 0 to |ativos|
      invariant m == AtivosMapOf(ativos[..i])
    {
      assert ativos[..i + 1][..i] == ativos[..i];
      m := m[Show(ativos[i].id) := ativos[i].base];
    }
    assert ativos[..|ativos|] == ativos;
  }

  /** `i` is the last row of the table with key `k`. */
  ghost predicate LastWithKey(ativos: seq<Ativo>, i: int, k: string)
  {
    0 <= i < |ativos| && Show(ativos[i].id) == k && forall j :: i < j < |ativos| ==> Show(ativos[j].id) != k
  }

  /** The lookup holds exactly the keys of the table. */
  lemma {:induction false} AtivosMapKeys(ativos: seq<Ativo>, k: string)
    ensures k in AtivosMapOf(ativos) <==> exists i :: 0 <= i < |ativos| && Show(ativos[i].id) == k
  {
    if ativos != [] {
      var init := ativos[..|ativos| - 1];
      AtivosMapKeys(init, k);
      if exists i :: 0 <= i < |ativos| && Show(ativos[i].id) == k {
        var i :| 0 <= i < |ativos| && Show(ativos[i].id) == k;
        if i < |init| {
          assert Show(init[i].id) == k;
        }
      }
      if exists i :: 0 <= i < |init| && Show(init[i].id) == k {
        var i :| 0 <= i < |init| && Show(init[i].id) == k;
        assert Show(ativos[i].id) == k;
      }
    }
  }

  /** Each key holds the base of its last row. */
  lemma {:induction false} AtivosMapLastWins(ativos: seq<Ativo>, k: string, i: int)
    requires LastWithKey(ativos, i, k)
    ensures k in AtivosMapOf(ativos) && AtivosMapOf(ativos)[k] == ativos[i].base
  {
    var init := ativos[..|ativos| - 1];
    if i < |init| {
      assert init[i] == ativos[i];
      assert forall j :: i < j < |init| ==> init[j] == ativos[j];
      assert LastWithKey(init, i, k);
      AtivosMapLastWins(init, k, i);
    }
  }

  /** `map.get(String(id)) || 'Sem Base'`. */
  const SemBase := "Sem Base"

  function BaseFor(m: map<string, Option<string>>, id: Value): (base: string)
    ensures base != ""
    ensures Show(id) in m && TextTruthy(m[Show(id)]) ==> base == m[Show(id)].value
    ensures !(Show(id) in m && TextTruthy(m[Show(id)])) ==> base == SemBase
  {
    if Show(id) in m && TextTruthy(m[Show(id)]) then m[Show(id)].value else SemBase
  }

  /** `{...item, base: …}` for every occurrence. */
  function Enrich(rows: seq<Occurrence>, m: map<string, Option<string>>): seq<Occurrence>
  {
    seq(|rows|, i requires 0 <= i < |rows| => rows[i].(base := BaseFor(m, rows[i].idColaborador)))
  }

  /** Enrichment keeps the records, their order and every field but `base`,
      which becomes the base of the collaborator's last row in the table,
      or `Sem Base` when there is none or it is empty. */
  lemma EnrichedBase(rows: seq<Occurrence>, ativos: seq<Ativo>, i: nat)
    requires i < |rows|
    ensures |Enrich(rows, AtivosMapOf(ativos))| == |rows|
    ensures Enrich(rows, AtivosMapOf(ativos))[i].(base := rows[i].base) == rows[i]
    ensures forall j :: LastWithKey(ativos, j, Show(rows[i].idColaborador)) ==>
      Enrich(rows, AtivosMapOf(ativos))[i].base == (if TextTruthy(ativos[j].base) then ativos[j].base.value else SemBase)
    ensures (forall j :: 0 <= j < |ativos| ==> Show(ativos[j].id) != Show(rows[i].idColaborador)) ==>
      Enrich(rows, AtivosMapOf(ativos))[i].base == SemBase
  {
    var k := Show(rows[i].idColaborador);
    AtivosMapKeys(ativos, k);
    forall j | LastWithKey(ativos, j, k)
      ensures Enrich(rows, AtivosMapOf(ativos))[i].base == (if TextTruthy(ativos[j].base) then ativos[j].base.value else SemBase)
    {
      AtivosMapLastWins(ativos, k, j);
    }
  }

  // ---------------------------------------------------------------------------
  // The provider's state

  /** `err.message || 'Erro ao carregar dados'`. */
  function ErrorMessage(message: Option<string>): (r: string)
    ensures r != ""
    ensures TextTruthy(message) ==> r == message.value
  {
    if TextTruthy(message) then message.value else "Erro ao carregar dados"
  }

  class DataProvider {
    var data: seq<Occurrence>
    var loading: bool
    var error: Option<string>

    /** The state before the first read completes. */
    constructor()
      ensures data == [] && loading && error == None
    {
      data := [];
      loading := true;
      error := None;
    }

    /** `fetchData` (also `refresh`): a failed occurrence read keeps the
        previous data and records the error; a failed read of the
        collaborators' table only stops that read, and the occurrences get
        the bases of what it read. */
    method FetchData(occurrences: Backend<Occurrence>, ativos: Backend<Ativo>)
      modifies this
      ensures !loading
      ensures FailsWithin(occurrences) ==> data == old(data) && error == Some(ErrorMessage(occurrences.message))
      ensures !FailsWithin(occurrences) ==> data == Enrich(occurrences.rows, AtivosMapOf(RowsRead(ativos))) && error == None
    {
      loading := true;
      error := None;
      var allData, failed, _ := FetchAll(occurrences);
      if failed {
        error := Some(ErrorMessage(occurrences.message));
        loading := false;
        return;
      }
      var allAtivos, _, _ := FetchAll(ativos);
      var m := BuildAtivosMap(allAtivos);
      data := Enrich(allData, m);
      loading := false;
    }
  }
}
