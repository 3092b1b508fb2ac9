/** The schedule-compatibility heuristic of the spreadsheet export: clock
    times are read as minutes, a schedule code (`escala`, such as
    `"22:00/04:00-6X1-OP-180"`) and a schedule description (`descricao_horario`,
    such as `"05:00 AS 11:00 12:00 AS 18:00"`) are both turned into worked
    minutes, and the two are compared with a lunch-break tolerance. */
module Workday {
  import opened Wrappers
  import opened Strings
  import opened Records

  const MinutesPerDay: int := 24 * 60

  /** The compatible lunch breaks: 15 minutes on a 6-hour shift, 60 minutes on
      a shift of 8 hours or more. */
  const SixHourShift: int := 360
  const SixHourLunch: int := 15
  const LongShift: int := 480
  const LongShiftLunch: int := 60

  // ---------------------------------------------------------------------------
  // Clock times

  /** `parseTimeToMinutes`: the text is trimmed and split on `:`; fewer than
      two parts, or a part without a leading number, gives no value. */
  function ParseTimeToMinutes(t: string): Option<int>
  {
    if t == "" then None
    else
      var parts := Split(Trim(t), ':');
      if |parts| < 2 then None
      else
        var h := ParseInt(parts[0]);
        var m := ParseInt(parts[1]);
        if h.None? || m.None? then None else Some(h.value * 60 + m.value)
  }

  /** A value exists exactly when the trimmed text has at least two parts
      and both of the first two start with a number; it is then hours times
      60 plus minutes, whatever follows the second part. */
  lemma ParseTimeValue(t: string)
    ensures var parts := Split(Trim(t), ':');
      ParseTimeToMinutes(t).Some? <==> |parts| >= 2 && ParseInt(parts[0]).Some? && ParseInt(parts[1]).Some?
    ensures var parts := Split(Trim(t), ':');
      ParseTimeToMinutes(t).Some? ==> ParseTimeToMinutes(t).value == ParseInt(parts[0]).value * 60 + ParseInt(parts[1]).value
  {
    if t == "" {
      assert Trim(t) == "";
      assert Split(Trim(t), ':') == [""];
    }
  }

  /** A text whose trimmed form splits on `:` into at least two parts, the
      first two runs of digits, reads as hours times 60 plus minutes. */
  lemma ParseTwoParts(t: string, hh: string, mm: string)
    requires hh != [] && mm != [] && AllDigits(hh) && AllDigits(mm)
    requires |Split(Trim(t), ':')| >= 2 && Split(Trim(t), ':')[0] == hh && Split(Trim(t), ':')[1] == mm
    ensures ParseTimeToMinutes(t) == Some(DigitsValue(hh) * 60 + DigitsValue(mm))
  {
    var parts := Split(Trim(t), ':');
    ParseTimeValue(t);
    ParseIntDigits(hh);
    ParseIntDigits(mm);
    var h, m := ParseInt(parts[0]), ParseInt(parts[1]);
    assert h == Some(DigitsValue(hh) as int) && m == Some(DigitsValue(mm) as int);
    assert ParseTimeToMinutes(t).value == h.value * 60 + m.value;
  }

  /** A part that does not start with a number gives no value (`"ab:30"`). */
  lemma ParseTimeNonNumeric(t: string)
    requires |Split(Trim(t), ':')| >= 2
    requires StartsWithoutNumber(Split(Trim(t), ':')[0]) || StartsWithoutNumber(Split(Trim(t), ':')[1])
    ensures ParseTimeToMinutes(t) == None
  {
    ParseTimeValue(t);
    var parts := Split(Trim(t), ':');
    if StartsWithoutNumber(parts[0]) { ParseIntNoNumber(parts[0]); } else { ParseIntNoNumber(parts[1]); }
  }

  /** `H:MM:SS` reads as `H * 60 + MM`: the seconds are ignored. */
  lemma ClockWithSeconds(hh: string, mm: string, ss: string)
    requires hh != [] && mm != [] && ss != [] && AllDigits(hh) && AllDigits(mm) && AllDigits(ss)
    ensures ParseTimeToMinutes(hh + [':'] + (mm + [':'] + ss)) == Some(DigitsValue(hh) * 60 + DigitsValue(mm))
  {
    var t := hh + [':'] + (mm + [':'] + ss);
    DurationParts(hh, mm, ss);
    assert t[0] == hh[0] && t[|t| - 1] == ss[|ss| - 1];
    assert IsDigit(hh[0]) && IsDigit(ss[|ss| - 1]);
    TrimUnspaced(t);
    ParseTwoParts(t, hh, mm);
  }

  lemma SplitClock(hh: string, mm: string)
    requires hh != [] && mm != [] && AllDigits(hh) && AllDigits(mm)
    ensures Split(Trim(hh + [':'] + mm), ':') == [hh, mm]
  {
    var t := hh + [':'] + mm;
    assert t[0] == hh[0] && t[|t| - 1] == mm[|mm| - 1];
    TrimUnspaced(t);
    SplitNoSep(mm, ':');
    SplitCons(hh, ':', mm);
  }

  /** Without a `:` there are fewer than two parts and no value. */
  lemma ParseTimeNoColon(t: string)
    requires ':' !in Trim(t)
    ensures ParseTimeToMinutes(t) == None
  {
    SplitNoSep(Trim(t), ':');
  }

  /** The minutes from `start` to `end`, a day added when `end` is earlier
      (a shift that crosses midnight). */
  function MinutesBetween(start: int, end: int): int
  {
    var diff := end - start;
    if diff < 0 then diff + MinutesPerDay else diff
  }

  /** For clock times within one day the span is `(end - start) mod 1440`,
      itself within one day; equal times give 0. */
  lemma MinutesBetweenWithinDay(start: int, end: int)
    requires 0 <= start < MinutesPerDay && 0 <= end < MinutesPerDay
    ensures 0 <= MinutesBetween(start, end) < MinutesPerDay
    ensures MinutesBetween(start, end) == (end - start) % MinutesPerDay
    ensures start == end ==> MinutesBetween(start, end) == 0
  {
  }

  /** `calculateTimeDifference`: no value when either time has none. */
  function CalculateTimeDifference(startTime: string, endTime: string): (r: Option<int>)
    ensures r.Some? <==> ParseTimeToMinutes(startTime).Some? && ParseTimeToMinutes(endTime).Some?
  {
    var s := ParseTimeToMinutes(startTime);
    var e := ParseTimeToMinutes(endTime);
    if s.None? || e.None? then None else Some(MinutesBetween(s.value, e.value))
  }

  // ---------------------------------------------------------------------------
  // Schedule code

  /** `parseEscalaHours`: the text before the first `-`, trimmed, must split on
      `/` into exactly two clock times. */
  function ParseEscalaHours(escala: Option<string>): Option<int>
  {
    if !TextTruthy(escala) then None
    else
      var timePart := Trim(Split(escala.value, '-')[0]);
      var times := Split(timePart, '/');
      if |times| != 2 then None
      else CalculateTimeDifference(Trim(times[0]), Trim(times[1]))
  }

  /** The schedule code has a value only if the part before the first `-`
      holds exactly one `/`. */
  lemma EscalaNeedsTwoTimes(escala: Option<string>)
    requires ParseEscalaHours(escala).Some?
    ensures TextTruthy(escala)
    ensures |Split(Trim(Split(escala.value, '-')[0]), '/')| == 2
  {
  }

  /** The text `hh:mm`. */
  function Clock(hh: string, mm: string): string
  {
    hh + [':'] + mm
  }

  lemma ClockShape(hh: string, mm: string)
    requires hh != [] && mm != [] && AllDigits(hh) && AllDigits(mm)
    ensures var c := Clock(hh, mm);
      && c != [] && !IsSpace(c[0]) && !IsSpace(c[|c| - 1]) && Trim(c) == c
      && '-' !in c && '/' !in c
  {
    var c := Clock(hh, mm);
    assert c[0] == hh[0] && c[|c| - 1] == mm[|mm| - 1];
    TrimUnspaced(c);
    forall i | 0 <= i < |c| ensures c[i] == ':' || IsDigit(c[i]) {
      if i < |hh| { assert c[i] == hh[i]; }
      else if i > |hh| { assert c[i] == mm[i - |hh| - 1]; }
    }
  }

  /** A clock time `H:MM` written with digits reads as `H * 60 + MM`. */
  lemma ClockValue(hh: string, mm: string)
    requires hh != [] && mm != [] && AllDigits(hh) && AllDigits(mm)
    ensures ParseTimeToMinutes(Clock(hh, mm)) == Some(DigitsValue(hh) * 60 + DigitsValue(mm))
  {
    SplitClock(hh, mm);
    ParseTwoParts(Clock(hh, mm), hh, mm);
  }

  lemma EscalaFromParts(e: string, p: string, a: string, b: string, x: int, y: int)
    requires e != "" && Split(e, '-')[0] == p && Trim(p) == p && Split(p, '/') == [a, b]
    requires Trim(a) == a && Trim(b) == b
    requires ParseTimeToMinutes(a) == Some(x) && ParseTimeToMinutes(b) == Some(y)
    ensures ParseEscalaHours(Some(e)) == Some(MinutesBetween(x, y))
  {
  }

  lemma SplitPrefix(p: string, suffix: string, sep: char)
    requires sep !in p && (suffix == [] || suffix[0] == sep)
    ensures Split(p + suffix, sep)[0] == p
  {
    if suffix == [] {
      assert p + suffix == p;
      SplitNoSep(p, sep);
    } else {
      assert p + suffix == p + [sep] + suffix[1..];
      SplitCons(p, sep, suffix[1..]);
    }
  }

  lemma SplitPair(a: string, b: string, sep: char)
    requires sep !in a && sep !in b
    ensures Split(a + [sep] + b, sep) == [a, b]
  {
    SplitCons(a, sep, b);
    SplitNoSep(b, sep);
  }

  /** A schedule code made of two trimmed times joined by `/`, alone or
      followed by `-` and the rest of the code (as in `22:00/04:00-6X1-OP-180`,
      where both times are clock texts by `ClockShape` and `ClockValue`), is
      worth the minutes from the first time to the second, across midnight if
      need be. */
  lemma EscalaOfTimes(a: string, b: string, suffix: string, x: int, y: int)
    requires a != [] && b != [] && !IsSpace(a[0]) && !IsSpace(b[|b| - 1])
    requires '-' !in a && '-' !in b && '/' !in a && '/' !in b
    requires Trim(a) == a && Trim(b) == b
    requires ParseTimeToMinutes(a) == Some(x) && ParseTimeToMinutes(b) == Some(y)
    requires suffix == [] || suffix[0] == '-'
    ensures ParseEscalaHours(Some(a + ['/'] + b + suffix)) == Some(MinutesBetween(x, y))
  {
    var p := a + ['/'] + b;
    assert '-' !in p;
    SplitPrefix(p, suffix, '-');
    assert p[0] == a[0] && p[|p| - 1] == b[|b| - 1];
    TrimUnspaced(p);
    SplitPair(a, b, '/');
    EscalaFromParts(p + suffix, p, a, b, x, y);
  }

  lemma TwoDigitsValue(c1: char, c2: char)
    requires IsDigit(c1) && IsDigit(c2)
    ensures AllDigits([c1, c2]) && DigitsValue([c1, c2]) == 10 * DigitValue(c1) + DigitValue(c2)
  {
    var one, two := [c1], [c1, c2];
    assert two[..1] == one && one[..0] == [];
    assert DigitsValue(one) == DigitValue(c1);
    assert DigitsValue(two) == 10 * DigitsValue(one) + DigitValue(c2);
  }

  /** A whole-hour clock time `HH:00`. */
  lemma HourClock(c1: char, c2: char, v: nat)
    requires IsDigit(c1) && IsDigit(c2) && v == 10 * DigitValue(c1) + DigitValue(c2)
    ensures var c := [c1, c2, ':', '0', '0'];
      && c != [] && !IsSpace(c[0]) && !IsSpace(c[|c| - 1]) && Trim(c) == c
      && '-' !in c && '/' !in c && ParseTimeToMinutes(c) == Some(v * 60)
  {
    var hh, z := [c1, c2], ['0', '0'];
    TwoDigitsValue(c1, c2);
    TwoDigitsValue('0', '0');
    assert DigitsValue(hh) == v && DigitsValue(z) == 0;
    ClockShape(hh, z);
    ClockValue(hh, z);
    var c := Clock(hh, z);
    assert ParseTimeToMinutes(c) == Some(v * 60);
    assert c == [c1, c2, ':', '0', '0'];
  }

  /** The night shift `22:00/04:00-6X1-OP-180` is worth 360 minutes (the
      code written in pieces, which spares the verifier a long comparison of
      literals). */
  lemma EscalaExample()
    ensures ParseEscalaHours(Some("22:00" + "/" + "04:00" + "-6X1-OP-180")) == Some(360)
  {
    HourClock('2', '2', 22);
    HourClock('0', '4', 4);
    var suffix := "-6X1-OP-180";
    assert suffix[0] == '-';
    EscalaOfTimes("22:00", "04:00", suffix, 1320, 240);
  }

  // ---------------------------------------------------------------------------
  // Schedule description

  /** The regular expression `\d{1,2}:\d{2}` matches at the start of `s`
      with two leading digits ... */
  predicate LongClockAt(s: string)
  {
    |s| >= 5 && IsDigit(s[0]) && IsDigit(s[1]) && s[2] == ':' && IsDigit(s[3]) && IsDigit(s[4])
  }

  /** ... or, failing that, with one. */
  predicate ShortClockAt(s: string)
  {
    |s| >= 4 && IsDigit(s[0]) && s[1] == ':' && IsDigit(s[2]) && IsDigit(s[3])
  }

  /** A string the regular expression matches as a whole. */
  predicate IsClockToken(t: string)
  {
    (|t| == 5 && LongClockAt(t)) || (|t| == 4 && ShortClockAt(t))
  }

  /** `s.match(/\d{1,2}:\d{2}/g)`: the matches left to right, the quantifier
      trying two digits before one; `[]` stands for `null`. */
  function ClockTokens(s: string): (r: seq<string>)
    ensures forall k :: 0 <= k < |r| ==> IsClockToken(r[k])
    decreases |s|
  {
    if s == [] then []
    else if LongClockAt(s) then [s[..5]] + ClockTokens(s[5..])
    else if ShortClockAt(s) then [s[..4]] + ClockTokens(s[4..])
    else ClockTokens(s[1..])
  }

  /** Every matched token reads as a time: the null checks on matched tokens
      never fire. */
  lemma ClockTokenParses(t: string)
    requires IsClockToken(t)
    ensures ParseTimeToMinutes(t).Some?
    ensures 0 <= ParseTimeToMinutes(t).value <= 99 * 60 + 99
  {
    var k := if |t| == 5 then 2 else 1;
    var hh, mm := t[..k], t[k + 1..];
    assert t == Clock(hh, mm);
    ClockValue(hh, mm);
    AtMostTwoDigits(hh);
    AtMostTwoDigits(mm);
  }

  lemma AtMostTwoDigits(x: string)
    requires AllDigits(x) && |x| <= 2
    ensures DigitsValue(x) <= 99
  {
    if x != [] {
      assert DigitsValue(x[..|x| - 1]) <= 9 by {
        if |x| == 2 { assert x[..1][..0] == []; }
      }
    }
  }

  /** `parseDescricaoHorarioHours`: no value for a day off (`folga`, `dsr`);
      otherwise the clock times found give one span (two times) or the sum of
      two spans (four times), any other count gives no value. Removing the
      separator word `as` does not change which clock times are found, since
      it takes away only letters and white space. */
  function ParseDescricaoHorarioHours(descricao: Option<string>): Option<int>
  {
    if !TextTruthy(descricao) then None
    else
      var normalized := ToLower(Trim(descricao.value));
      if Contains(normalized, "folga") || Contains(normalized, "dsr") then None
      else
        var times := ClockTokens(descricao.value);
        if |times| == 2 then CalculateTimeDifference(times[0], times[1])
        else if |times| == 4 then
          var morning := CalculateTimeDifference(times[0], times[1]);
          var afternoon := CalculateTimeDifference(times[2], times[3]);
          if morning.None? || afternoon.None? then None
          else Some(morning.value + afternoon.value)
        else None
  }

  /** The description has a value exactly when it is not a day off and holds
      two or four clock times; then it is one span or the sum of two spans. */
  lemma DescricaoShape(descricao: Option<string>)
    ensures ParseDescricaoHorarioHours(descricao).Some? <==>
      TextTruthy(descricao)
      && !Contains(ToLower(Trim(descricao.value)), "folga")
      && !Contains(ToLower(Trim(descricao.value)), "dsr")
      && |ClockTokens(descricao.value)| in {2, 4}
    ensures ParseDescricaoHorarioHours(descricao).Some? ==>
      var t := ClockTokens(descricao.value);
      var r := ParseDescricaoHorarioHours(descricao).value;
      if |t| == 2 then r == CalculateTimeDifference(t[0], t[1]).value
      else r == CalculateTimeDifference(t[0], t[1]).value + CalculateTimeDifference(t[2], t[3]).value
  {
    if TextTruthy(descricao) {
      var t := ClockTokens(descricao.value);
      forall k | 0 <= k < |t| ensures ParseTimeToMinutes(t[k]).Some? {
        ClockTokenParses(t[k]);
      }
    }
  }

  // ---------------------------------------------------------------------------
  // The decision

  function Abs(x: int): nat { if x < 0 then -x else x }

  /** The comparison of `isIncompatibleWorkday`, on worked minutes. */
  predicate IncompatibleMinutes(escalaMinutes: int, descricaoMinutes: int)
  {
    var diff := Abs(escalaMinutes - descricaoMinutes);
    if diff == 0 then false
    else if escalaMinutes == SixHourShift && diff == SixHourLunch then false
    else if escalaMinutes >= LongShift && diff == LongShiftLunch then false
    else true
  }

  /** `isIncompatibleWorkday`: indeterminate (not flagged) when either side
      has no value. */
  predicate IsIncompatibleWorkday(r: Occurrence)
  {
    var e := ParseEscalaHours(r.escala);
    var d := ParseDescricaoHorarioHours(r.descricaoHorario);
    e.Some? && d.Some? && IncompatibleMinutes(e.value, d.value)
  }

  /** A 6-hour shift is compatible with 345, 360 or 375 described minutes. */
  lemma SixHourShiftTolerance(d: int)
    ensures !IncompatibleMinutes(SixHourShift, d) <==> d in {345, 360, 375}
  {
  }

  /** A shift of 8 hours or more tolerates exactly one hour either way. */
  lemma LongShiftTolerance(e: int, d: int)
    requires e >= LongShift
    ensures !IncompatibleMinutes(e, d) <==> d in {e - 60, e, e + 60}
  {
  }

  /** Every other shift length (a 7-hour shift, say) must match exactly. */
  lemma OtherShiftsExact(e: int, d: int)
    requires e != SixHourShift && e < LongShift
    ensures !IncompatibleMinutes(e, d) <==> d == e
  {
  }

  /** A record is flagged exactly when both sides have values and they differ
      by more than the tolerance. */
  lemma IncompatibleNeedsBothValues(r: Occurrence)
    ensures IsIncompatibleWorkday(r) ==>
      ParseEscalaHours(r.escala).Some? && ParseDescricaoHorarioHours(r.descricaoHorario).Some?
      && ParseEscalaHours(r.escala).value != ParseDescricaoHorarioHours(r.descricaoHorario).value
    ensures ParseEscalaHours(r.escala).None? || ParseDescricaoHorarioHours(r.descricaoHorario).None?
      ==> !IsIncompatibleWorkday(r)
  {
  }

  /** Four cases: 360 against 360 and 480 against 420 pass (exact, and an
      8-hour shift with its hour of lunch); 400 against 370 and 420 against
      360 are flagged (no tolerance outside the 6- and 8-hour shifts, and a
      7-hour shift is not an 8-hour one). */
  lemma ToleranceExamples()
    ensures !IncompatibleMinutes(360, 360)
    ensures !IncompatibleMinutes(480, 420)
    ensures IncompatibleMinutes(400, 370)
    ensures IncompatibleMinutes(420, 360)
  {
  }
}
