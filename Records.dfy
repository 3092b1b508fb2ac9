/** The occurrence record that the backend's occurrence table returns, the
    JavaScript scalar values it is made of, and the duration strings
    `H:MM:SS` that it carries. */
module Records {
  import opened Wrappers
  import opened Strings

  /** A scalar cell as the backend returns it (identifiers may be numbers or
      strings). */
  datatype Value = Null | Str(s: string) | Num(n: int)

  /** JavaScript truthiness: `null`, `''` and `0` are falsy. */
  predicate Truthy(v: Value)
  {
    match v
    case Null => false
    case Str(s) => s != ""
    case Num(n) => n != 0
  }

  /** `String(v)`, which is also what `${v}` prints. */
  function Show(v: Value): string
  {
    match v
    case Null => "null"
    case Str(s) => s
    case Num(n) => IntToString(n)
  }

  /** `${v || ''}`: empty exactly for a falsy value; a text prints as
      itself and a number as digits that read back as the number. */
  function ShowOrEmpty(v: Value): (r: string)
    ensures r == "" <==> !Truthy(v)
    ensures v.Str? ==> r == v.s
    ensures v.Num? && v.n != 0 ==> ParseInt(r) == Some(v.n)
  {
    if Truthy(v) then
      if v.Num? then IntToStringRoundTrip(v.n); Show(v) else Show(v)
    else ""
  }

  /** `(x || '')` for a nullable text field. */
  function Text(o: Option<string>): string
  {
    o.GetOr("")
  }

  predicate TextTruthy(o: Option<string>)
  {
    o.Some? && o.value != ""
  }

  function TextValue(o: Option<string>): Value
  {
    if o.Some? then Str(o.value) else Null
  }

  // ---------------------------------------------------------------------------
  // Durations

  /** A well-formed duration `H:M:S`: three non-empty runs of digits. */
  predicate IsDurationText(s: string)
  {
    var parts := Split(s, ':');
    |parts| == 3 && forall k :: 0 <= k < 3 ==> parts[k] != "" && AllDigits(parts[k])
  }

  /** Duration fields are well-formed whenever present; `null`, absent and
      `''` are all `None`. */
  type DurationText = s: string | IsDurationText(s) witness "0:00:00"

  function Hours(d: DurationText): nat { DigitsValue(Split(d, ':')[0]) }
  function Minutes(d: DurationText): nat { DigitsValue(Split(d, ':')[1]) }
  function SecondsPart(d: DurationText): nat { DigitsValue(Split(d, ':')[2]) }

  function TotalSeconds(d: DurationText): nat
  {
    3600 * Hours(d) + 60 * Minutes(d) + SecondsPart(d)
  }

  /** `horas + minutos / 60 + segundos / 3600`, exactly. */
  function DecimalHours(d: DurationText): (h: real)
    ensures h >= 0.0
  {
    Hours(d) as real + (Minutes(d) as real) / 60.0 + (SecondsPart(d) as real) / 3600.0
  }

  /** Decimal hours are the duration in seconds divided by 3600. */
  lemma DecimalHoursSeconds(d: DurationText)
    ensures DecimalHours(d) == (TotalSeconds(d) as real) / 3600.0
  {
  }

  /** "More than 6 hours" is exactly "more than 21600 seconds". */
  lemma AboveSixHours(d: DurationText)
    ensures DecimalHours(d) > 6.0 <==> TotalSeconds(d) > 21600
  {
    DecimalHoursSeconds(d);
  }

  /** Three runs of digits joined by colons make a duration with those
      parts. */
  lemma DurationParts(h: string, m: string, sec: string)
    requires h != "" && m != "" && sec != "" && AllDigits(h) && AllDigits(m) && AllDigits(sec)
    ensures Split(h + [':'] + (m + [':'] + sec), ':') == [h, m, sec]
    ensures IsDurationText(h + [':'] + (m + [':'] + sec))
  {
    assert ':' !in h && ':' !in m && ':' !in sec by {
      forall c | c in h + m + sec ensures c != ':' {
        var w := h + m + sec;
        var i :| 0 <= i < |w| && w[i] == c;
        if i < |h| { assert IsDigit(h[i]); }
        else if i < |h| + |m| { assert IsDigit(m[i - |h|]); }
        else { assert IsDigit(sec[i - |h| - |m|]); }
      }
    }
    SplitCons(h, ':', m + [':'] + sec);
    SplitCons(m, ':', sec);
    SplitNoSep(sec, ':');
  }

  lemma OneAndAHalfHours()
    ensures IsDurationText("1:30:00") && DecimalHours("1:30:00") == 1.5
  {
    var h, m, sec := "1", "30", "00";
    assert AllDigits(h) && AllDigits(m) && AllDigits(sec);
    DurationParts(h, m, sec);
    assert "1:30:00" == h + [':'] + (m + [':'] + sec);
    assert DigitsValue(h) == 1 && DigitsValue(m) == 30 && DigitsValue(sec) == 0;
  }

  // ---------------------------------------------------------------------------
  // The occurrence record

  /** One row of the occurrence table, with `base` as attached on load. */
  datatype Occurrence = Occurrence(
    id: Value,
    idRegistro: Value,
    idColaborador: Value,
    nome: Option<string>,
    data: string,
    escala: Option<string>,
    codigoHorario: Option<string>,
    descricaoHorario: Option<string>,
    inicio: Option<string>,
    termino: Option<string>,
    totalHoras: Option<string>,
    situacao: Option<string>,
    totalHorasOcorrencia: Option<DurationText>,
    justificativa: Option<string>,
    base: string)

  /** What one record adds to an hour sum: its decimal duration when
      `total_horas_ocorrencia` is truthy, nothing otherwise. */
  function RecordHours(r: Occurrence): (h: real)
    ensures h >= 0.0
    ensures r.totalHorasOcorrencia.None? ==> h == 0.0
  {
    match r.totalHorasOcorrencia
    case Some(d) => DecimalHours(d)
    case None => 0.0
  }

  /** The sum of `RecordHours` over a list, the `soma_horas` accumulators. */
  function SumHours(xs: seq<Occurrence>): (h: real)
    ensures h >= 0.0
  {
    if xs == [] then 0.0 else SumHours(xs[..|xs| - 1]) + RecordHours(xs[|xs| - 1])
  }

  lemma {:induction false} SumHoursAppend(xs: seq<Occurrence>, ys: seq<Occurrence>)
    ensures SumHours(xs + ys) == SumHours(xs) + SumHours(ys)
    decreases |ys|
  {
    if ys == [] {
      assert xs + ys == xs;
    } else {
      assert (xs + ys)[..|xs + ys| - 1] == xs + ys[..|ys| - 1];
      SumHoursAppend(xs, ys[..|ys| - 1]);
    }
  }

  /** `(item.situacao || '').toLowerCase()`. */
  function LowerSituacao(r: Occurrence): string
  {
    ToLower(Text(r.situacao))
  }

  /** `(item.descricao_horario || '').toLowerCase()`. */
  function LowerDescricao(r: Occurrence): string
  {
    ToLower(Text(r.descricaoHorario))
  }

  // ---------------------------------------------------------------------------
  // Records as JavaScript objects

  /** A JavaScript object: its keys, in enumeration order, with their values. */
  type Row = seq<(string, Value)>

  function Keys(row: Row): (ks: seq<string>)
    ensures |ks| == |row|
    ensures forall i :: 0 <= i < |row| ==> ks[i] == row[i].0
  {
    seq(|row|, i requires 0 <= i < |row| => row[i].0)
  }

  /** `row[key]`, `Null` standing also for `undefined`. */
  function Lookup(row: Row, key: string): Value
  {
    if row == [] then Null
    else if row[0].0 == key then row[0].1
    else Lookup(row[1..], key)
  }

  /** An object's keys are distinct. */
  predicate WellFormedRow(row: Row)
  {
    forall i, j :: 0 <= i < j < |row| ==> row[i].0 != row[j].0
  }

  function DurationValue(o: Option<DurationText>): Value
  {
    if o.Some? then Str(o.value) else Null
  }

  /** The column names of the occurrence table, `base` last because it is
      appended on load. */
  const OccurrenceColumns: seq<string> := [
    "id", "id_registro", "data", "id_colaborador", "nome", "escala",
    "codigo_horario", "descricao_horario", "inicio", "termino", "total_horas",
    "situacao", "total_horas_ocorrencia", "justificativa", "base"]

  /** A record as the object the backend returned (plus `base`). */
  function ToRow(r: Occurrence): (row: Row)
    ensures Keys(row) == OccurrenceColumns
  {
    [("id", r.id), ("id_registro", r.idRegistro), ("data", Str(r.data)),
     ("id_colaborador", r.idColaborador), ("nome", TextValue(r.nome)),
     ("escala", TextValue(r.escala)), ("codigo_horario", TextValue(r.codigoHorario)),
     ("descricao_horario", TextValue(r.descricaoHorario)), ("inicio", TextValue(r.inicio)),
     ("termino", TextValue(r.termino)), ("total_horas", TextValue(r.totalHoras)),
     ("situacao", TextValue(r.situacao)),
     ("total_horas_ocorrencia", DurationValue(r.totalHorasOcorrencia)),
     ("justificativa", TextValue(r.justificativa)), ("base", Str(r.base))]
  }
}
