/** The JavaScript string operations the dashboard relies on, over
    `string == seq<char>`: `toLowerCase`, `includes`, `trim`, `split`,
    `join`, `parseInt`, `String(n)`, the UTF-16 encoding and the code-unit ordering used by
    `Array.prototype.sort()`. */
module Strings {
  import opened Wrappers

  // ---------------------------------------------------------------------------
  // Characters

  predicate IsDigit(c: char) { '0' <= c <= '9' }

  /** The characters that `trim` and `parseInt` skip: ECMAScript's
      WhiteSpace (tab, vertical tab, form feed, the byte-order mark and the
      space separators of category Zs) and LineTerminator (line feed,
      carriage return, U+2028, U+2029). */
  predicate IsSpace(c: char) {
    c == '\t' || c == '\n' || c == '\U{B}' || c == '\U{C}' || c == '\r' || c == ' '
    || c == '\U{A0}' || c == '\U{1680}' || '\U{2000}' <= c <= '\U{200A}'
    || c == '\U{2028}' || c == '\U{2029}' || c == '\U{202F}' || c == '\U{205F}'
    || c == '\U{3000}' || c == '\U{FEFF}'
  }

  /** `toLowerCase` on one character: ASCII letters and the Latin-1 capitals
      (À..Þ except ×), which covers the accented letters of Portuguese. */
  function Lower(c: char): (r: char)
    ensures IsDigit(c) <==> IsDigit(r)
  {
    if 'A' <= c <= 'Z' || ('À' <= c <= 'Þ' && c != '×') then (c as int + 32) as char else c
  }

  function ToLower(s: string): (r: string)
    ensures |r| == |s|
    ensures forall i :: 0 <= i < |s| ==> r[i] == Lower(s[i])
  {
    if s == [] then [] else [Lower(s[0])] + ToLower(s[1..])
  }

  // ---------------------------------------------------------------------------
  // includes

  /** `s.includes(t)`. */
  predicate Contains(s: string, t: string)
    decreases |s|
  {
    |t| <= |s| && (s[..|t|] == t || Contains(s[1..], t))
  }

  lemma {:induction false} ContainsAt(s: string, t: string, i: nat)
    requires i + |t| <= |s| && s[i..i + |t|] == t
    ensures Contains(s, t)
    decreases i
  {
    if i > 0 {
      assert s[1..][i - 1..i - 1 + |t|] == s[i..i + |t|];
      ContainsAt(s[1..], t, i - 1);
    }
  }

  /** `t` occurs in `s` starting at position `i`. */
  predicate OccursAt(s: string, t: string, i: nat)
  {
    i + |t| <= |s| && s[i..i + |t|] == t
  }

  /** `includes` means "occurs at some position", in both directions. */
  lemma {:induction false} ContainsIff(s: string, t: string)
    ensures Contains(s, t) <==> exists i: nat :: OccursAt(s, t, i)
    decreases |s|
  {
    if Contains(s, t) {
      if s[..|t|] != t {
        ContainsIff(s[1..], t);
        var i: nat :| OccursAt(s[1..], t, i);
        assert s[1..][i..i + |t|] == s[i + 1..i + 1 + |t|];
        assert OccursAt(s, t, i + 1);
      } else {
        assert OccursAt(s, t, 0);
      }
    } else {
      forall i: nat | OccursAt(s, t, i)
        ensures false
      {
        ContainsAt(s, t, i);
      }
    }
  }

  lemma ContainsEmpty(s: string)
    ensures Contains(s, "")
  {
    ContainsAt(s, "", 0);
  }

  // ---------------------------------------------------------------------------
  // trim

  function TrimStart(s: string): (r: string)
    ensures |r| <= |s| && r == s[|s| - |r|..]
    ensures r != [] ==> !IsSpace(r[0])
  {
    if s != [] && IsSpace(s[0]) then TrimStart(s[1..]) else s
  }

  function TrimEnd(s: string): (r: string)
    ensures |r| <= |s| && r == s[..|r|]
    ensures r != [] ==> !IsSpace(r[|r| - 1])
  {
    if s != [] && IsSpace(s[|s| - 1]) then TrimEnd(s[..|s| - 1]) else s
  }

  /** `s.trim()`. */
  function Trim(s: string): (r: string)
    ensures |r| <= |s|
    ensures r != [] ==> !IsSpace(r[0]) && !IsSpace(r[|r| - 1])
  {
    TrimEnd(TrimStart(s))
  }

  /** Text that neither starts nor ends with white space is its own trim. */
  lemma TrimUnspaced(s: string)
    requires s != [] && !IsSpace(s[0]) && !IsSpace(s[|s| - 1])
    ensures Trim(s) == s
  {
    assert TrimStart(s) == s;
  }

  // ---------------------------------------------------------------------------
  // split and join

  /** `s.split(sep)` for a one-character separator: never empty. */
  function Split(s: string, sep: char): (r: seq<string>)
    ensures |r| >= 1
    ensures forall k :: 0 <= k < |r| ==> sep !in r[k]
  {
    if s == [] then [""]
    else if s[0] == sep then [""] + Split(s[1..], sep)
    else
      var rest := Split(s[1..], sep);
      [[s[0]] + rest[0]] + rest[1..]
  }

  /** `parts.join(sep)`. */
  function Join(parts: seq<string>, sep: string): string
  {
    if parts == [] then ""
    else if |parts| == 1 then parts[0]
    else parts[0] + sep + Join(parts[1..], sep)
  }

  /** Splitting and joining again gives the original text back. */
  lemma {:induction false} JoinSplit(s: string, sep: char)
    ensures Join(Split(s, sep), [sep]) == s
  {
    if s != [] {
      JoinSplit(s[1..], sep);
      var rest := Split(s[1..], sep);
      if s[0] == sep {
        assert Split(s, sep)[1..] == rest;
      } else {
        var r := Split(s, sep);
        if |rest| == 1 {
          assert r == [[s[0]] + rest[0]];
        } else {
          assert r[1..] == rest[1..];
          assert Join(rest, [sep]) == rest[0] + [sep] + Join(rest[1..], [sep]);
        }
      }
    }
  }

  lemma {:induction false} SplitNoSep(p: string, sep: char)
    requires sep !in p
    ensures Split(p, sep) == [p]
  {
    if p != [] {
      SplitNoSep(p[1..], sep);
      assert [p[0]] + p[1..] == p;
    }
  }

  lemma {:induction false} SplitCons(p: string, sep: char, rest: string)
    requires sep !in p
    ensures Split(p + [sep] + rest, sep) == [p] + Split(rest, sep)
  {
    if p == [] {
      assert p + [sep] + rest == [sep] + rest;
      assert ([sep] + rest)[1..] == rest;
    } else {
      var whole := p + [sep] + rest;
      assert whole[0] == p[0] && whole[1..] == p[1..] + [sep] + rest;
      SplitCons(p[1..], sep, rest);
      var r := Split(whole[1..], sep);
      assert r == [p[1..]] + Split(rest, sep);
      assert Split(whole, sep) == [[p[0]] + r[0]] + r[1..];
      assert [p[0]] + p[1..] == p;
    }
  }

  /** Joining parts free of the separator and splitting again gives the parts
      back: the number of fields read back equals the number written. */
  lemma {:induction false} SplitJoin(parts: seq<string>, sep: char)
    requires |parts| >= 1
    requires forall k :: 0 <= k < |parts| ==> sep !in parts[k]
    ensures Split(Join(parts, [sep]), sep) == parts
  {
    if |parts| == 1 {
      SplitNoSep(parts[0], sep);
    } else {
      SplitJoin(parts[1..], sep);
      SplitCons(parts[0], sep, Join(parts[1..], [sep]));
    }
  }

  // ---------------------------------------------------------------------------
  // Decimal numbers

  predicate AllDigits(s: string) { forall i :: 0 <= i < |s| ==> IsDigit(s[i]) }

  function DigitValue(c: char): nat requires IsDigit(c) { c as int - '0' as int }

  /** The value of a string of decimal digits (`Number("08") == 8`). */
  function DigitsValue(s: string): nat
    requires AllDigits(s)
  {
    if s == [] then 0 else 10 * DigitsValue(s[..|s| - 1]) + DigitValue(s[|s| - 1])
  }

  /** The longest prefix of decimal digits. */
  function DigitsPrefix(s: string): (r: string)
    ensures AllDigits(r) && |r| <= |s| && r == s[..|r|]
    ensures |r| < |s| ==> !IsDigit(s[|r|])
  {
    if s != [] && IsDigit(s[0]) then [s[0]] + DigitsPrefix(s[1..]) else ""
  }

  /** `parseInt(s, 10)`: leading white space, an optional sign, then the
      longest run of digits; `None` stands for `NaN` (no digits at all). */
  function ParseInt(s: string): Option<int>
  {
    var t := TrimStart(s);
    var negative := |t| > 0 && t[0] == '-';
    var body := if |t| > 0 && (t[0] == '-' || t[0] == '+') then t[1..] else t;
    var d := DigitsPrefix(body);
    var v: int := if d == "" then 0 else DigitsValue(d);
    if d == "" then None else Some(if negative then -v else v)
  }

  lemma {:induction false} DigitsPrefixAll(s: string)
    requires AllDigits(s)
    ensures DigitsPrefix(s) == s
  {
    if s != [] { DigitsPrefixAll(s[1..]); }
  }

  lemma ParseIntDigits(s: string)
    requires s != [] && AllDigits(s)
    ensures ParseInt(s) == Some(DigitsValue(s))
  {
    assert TrimStart(s) == s;
    DigitsPrefixAll(s);
  }

  /** Text whose first character is neither white space, a sign nor a
      digit. */
  predicate StartsWithoutNumber(s: string)
  {
    s == [] || (!IsSpace(s[0]) && !IsDigit(s[0]) && s[0] != '-' && s[0] != '+')
  }

  /** Such text has no number: `parseInt` gives `NaN`. */
  lemma ParseIntNoNumber(s: string)
    requires StartsWithoutNumber(s)
    ensures ParseInt(s) == None
  {
    if s != [] { assert TrimStart(s) == s; }
  }

  function DigitChar(d: nat): (c: char)
    requires d < 10
    ensures IsDigit(c) && DigitValue(c) == d
  {
    ('0' as int + d) as char
  }

  /** `String(n)` for a natural number. */
  function NatToString(n: nat): (r: string)
    ensures r != [] && AllDigits(r)
  {
    if n < 10 then [DigitChar(n)] else NatToString(n / 10) + [DigitChar(n % 10)]
  }

  /** `String(n)` for any integer. */
  function IntToString(n: int): string
  {
    if n < 0 then "-" + NatToString(-n) else NatToString(n)
  }

  /** Printing a number and reading it back gives the number. */
  lemma {:induction false} NatToStringValue(n: nat)
    ensures DigitsValue(NatToString(n)) == n
  {
    if n >= 10 {
      NatToStringValue(n / 10);
      var s := NatToString(n);
      assert s[..|s| - 1] == NatToString(n / 10);
    }
  }

  /** A minus sign followed by digits reads as the negated digits. */
  lemma {:induction false} ParseIntNegative(d: string)
    requires d != [] && AllDigits(d)
    ensures ParseInt("-" + d) == Some(-(DigitsValue(d) as int))
  {
    var s := "-" + d;
    assert s[0] == '-' && !IsSpace('-');
    assert TrimStart(s) == s;
    assert s[1..] == d;
    DigitsPrefixAll(d);
    assert DigitsPrefix(s[1..]) == d;
  }

  lemma {:induction false} IntToStringRoundTrip(n: int)
    ensures ParseInt(IntToString(n)) == Some(n)
  {
    if n < 0 {
      var d := NatToString(-n);
      NatToStringValue(-n);
      var v := DigitsValue(d);
      assert v == -n;
      ParseIntNegative(d);
      assert ParseInt("-" + d) == Some(-(v as int));
    } else {
      var d := NatToString(n);
      NatToStringValue(n);
      var v := DigitsValue(d);
      assert v == n;
      ParseIntDigits(d);
      assert ParseInt(d) == Some(v as int);
    }
  }

  // ---------------------------------------------------------------------------
  // Ordering

  /** Lexicographic order by code point. On texts within U+FFFF it is the
      code-unit order `Utf16Le` of `Array.prototype.sort()` (`Utf16LeBmp`);
      on ISO `yyyy-mm-dd` dates it is calendar order. */
  predicate StrLe(a: string, b: string)
  {
    a == [] || (b != [] && (a[0] < b[0] || (a[0] == b[0] && StrLe(a[1..], b[1..]))))
  }

  lemma {:induction false} StrLeTotal(a: string, b: string)
    ensures StrLe(a, b) || StrLe(b, a)
  {
    if a != [] && b != [] && a[0] == b[0] { StrLeTotal(a[1..], b[1..]); }
  }

  lemma {:induction false} StrLeTransitive(a: string, b: string, c: string)
    requires StrLe(a, b) && StrLe(b, c)
    ensures StrLe(a, c)
  {
    if a != [] && b != [] && c != [] && a[0] == b[0] == c[0] {
      StrLeTransitive(a[1..], b[1..], c[1..]);
    }
  }

  lemma {:induction false} StrLeAntisymmetric(a: string, b: string)
    requires StrLe(a, b) && StrLe(b, a)
    ensures a == b
  {
    if a != [] && b != [] {
      StrLeAntisymmetric(a[1..], b[1..]);
    }
  }
  /** The UTF-16 code units of one character, as a JavaScript string holds
      it: the character itself up to U+FFFF, a surrogate pair above. */
  function CodeUnits(c: char): (r: seq<int>)
    ensures 0 < |r| <= 2
    ensures forall i :: 0 <= i < |r| ==> 0 <= r[i] < 0x1_0000
    ensures |r| == 1 <==> r[0] < 0xD800 || 0xDC00 <= r[0]
    ensures |r| == 2 ==> 0xD800 <= r[0] < 0xDC00 && 0xDC00 <= r[1] < 0xE000
  {
    var v := c as int;
    if v < 0x1_0000 then [v]
    else [0xD800 + (v - 0x1_0000) / 0x400, 0xDC00 + (v - 0x1_0000) % 0x400]
  }

  /** The character a code-unit group stands for. */
  function UnitsValue(u: seq<int>): int
    requires 0 < |u| <= 2
  {
    if |u| == 1 then u[0] else 0x1_0000 + (u[0] - 0xD800) * 0x400 + (u[1] - 0xDC00)
  }

  lemma CodeUnitsValue(c: char)
    ensures UnitsValue(CodeUnits(c)) == c as int
  {
  }

  /** The UTF-16 encoding of a text: the code units `length`, indexing and
      the default comparisons of a JavaScript string work on. */
  function Utf16(s: string): (r: seq<int>)
    ensures |s| <= |r| <= 2 * |s|
    ensures s != [] ==> r == CodeUnits(s[0]) + Utf16(s[1..])
  {
    if s == [] then [] else CodeUnits(s[0]) + Utf16(s[1..])
  }

  /** Two texts with the same code units are the same text. */
  lemma {:induction false} Utf16Injective(a: string, b: string)
    requires Utf16(a) == Utf16(b)
    ensures a == b
  {
    if a != [] && b != [] {
      var ua, ub := CodeUnits(a[0]), CodeUnits(b[0]);
      var u := Utf16(a);
      assert u[0] == ua[0] && u[0] == ub[0];
      assert |ua| == |ub|;
      assert ua == u[..|ua|] && ub == u[..|ub|];
      CodeUnitsValue(a[0]);
      CodeUnitsValue(b[0]);
      assert a[0] == b[0];
      assert Utf16(a[1..]) == u[|ua|..] == Utf16(b[1..]);
      Utf16Injective(a[1..], b[1..]);
      assert a == [a[0]] + a[1..] && b == [b[0]] + b[1..];
    }
  }

  /** Lexicographic order on code-unit sequences. */
  predicate UnitsLe(a: seq<int>, b: seq<int>)
  {
    a == [] || (b != [] && (a[0] < b[0] || (a[0] == b[0] && UnitsLe(a[1..], b[1..]))))
  }

  lemma {:induction false} UnitsLeTotal(a: seq<int>, b: seq<int>)
    ensures UnitsLe(a, b) || UnitsLe(b, a)
  {
    if a != [] && b != [] && a[0] == b[0] { UnitsLeTotal(a[1..], b[1..]); }
  }

  lemma {:induction false} UnitsLeTransitive(a: seq<int>, b: seq<int>, c: seq<int>)
    requires UnitsLe(a, b) && UnitsLe(b, c)
    ensures UnitsLe(a, c)
  {
    if a != [] && b != [] && c != [] && a[0] == b[0] == c[0] {
      UnitsLeTransitive(a[1..], b[1..], c[1..]);
    }
  }

  lemma {:induction false} UnitsLeAntisymmetric(a: seq<int>, b: seq<int>)
    requires UnitsLe(a, b) && UnitsLe(b, a)
    ensures a == b
  {
    if a != [] && b != [] {
      UnitsLeAntisymmetric(a[1..], b[1..]);
    }
  }

  /** The default ordering of `Array.prototype.sort()` and of `<` on strings:
      lexicographic by UTF-16 code unit. */
  predicate Utf16Le(a: string, b: string)
  {
    UnitsLe(Utf16(a), Utf16(b))
  }

  /** The code-unit order is a total order on texts. */
  lemma Utf16LeOrder(a: string, b: string, c: string)
    ensures Utf16Le(a, b) || Utf16Le(b, a)
    ensures Utf16Le(a, b) && Utf16Le(b, c) ==> Utf16Le(a, c)
    ensures Utf16Le(a, b) && Utf16Le(b, a) ==> a == b
  {
    UnitsLeTotal(Utf16(a), Utf16(b));
    if Utf16Le(a, b) && Utf16Le(b, c) { UnitsLeTransitive(Utf16(a), Utf16(b), Utf16(c)); }
    if Utf16Le(a, b) && Utf16Le(b, a) {
      UnitsLeAntisymmetric(Utf16(a), Utf16(b));
      Utf16Injective(a, b);
    }
  }

  /** Texts within U+0000–U+FFFF. */
  predicate Bmp(s: string)
  {
    forall i :: 0 <= i < |s| ==> s[i] as int < 0x1_0000
  }

  /** On texts without characters above U+FFFF the code-unit order and the
      code-point order `StrLe` agree. */
  lemma {:induction false} Utf16LeBmp(a: string, b: string)
    requires Bmp(a) && Bmp(b)
    ensures Utf16Le(a, b) <==> StrLe(a, b)
  {
    if a != [] && b != [] {
      assert Utf16(a)[0] == a[0] as int && Utf16(b)[0] == b[0] as int;
      assert Utf16(a)[1..] == Utf16(a[1..]) && Utf16(b)[1..] == Utf16(b[1..]);
      assert Bmp(a[1..]) by { forall i | 0 <= i < |a[1..]| ensures a[1..][i] as int < 0x1_0000 { assert a[1..][i] == a[i + 1]; } }
      assert Bmp(b[1..]) by { forall i | 0 <= i < |b[1..]| ensures b[1..][i] as int < 0x1_0000 { assert b[1..][i] == b[i + 1]; } }
      Utf16LeBmp(a[1..], b[1..]);
    }
  }

  /** Above U+FFFF the two orders part: U+1F600 is the surrogate pair
      D83D DE00, which comes before U+FFFD in code-unit order and after it
      in code-point order. */
  lemma Utf16LeAstral()
    ensures Utf16Le("\U{1F600}", "\U{FFFD}") && !Utf16Le("\U{FFFD}", "\U{1F600}")
    ensures StrLe("\U{FFFD}", "\U{1F600}") && !StrLe("\U{1F600}", "\U{FFFD}")
  {
    assert CodeUnits('\U{1F600}') == [0xD83D, 0xDE00];
    assert Utf16("\U{1F600}") == [0xD83D, 0xDE00];
    assert Utf16("\U{FFFD}") == [0xFFFD];
  }
}
