/** The JavaScript string built-ins the core relies on: `trim`, case
    conversion, `includes`, the default `sort` order, `String(n)` for integers
    and `Number(s)` for decimal text. Case conversion covers ASCII letters only. */
module Text {
  import opened Wrappers

  // ---------------------------------------------------------------- trim

  /** ECMAScript WhiteSpace and LineTerminator code points, the set `trim` removes. */
  predicate IsJsWhitespace(c: char)
  {
    c == '\t' || c == '\n' || c == '\U{000B}' || c == '\U{000C}' || c == '\r' || c == ' '
    || c == '\U{00A0}' || c == '\U{1680}' || ('\U{2000}' <= c <= '\U{200A}')
    || c == '\U{2028}' || c == '\U{2029}' || c == '\U{202F}' || c == '\U{205F}'
    || c == '\U{3000}' || c == '\U{FEFF}'
  }

  /** Every character is whitespace (the empty string included). */
  predicate Blank(s: string)
  {
    forall i :: 0 <= i < |s| ==> IsJsWhitespace(s[i])
  }

  /** Index of the first non-whitespace character at or after `i` (or `|s|`). */
  function TrimStartIndex(s: string, i: nat): (k: nat)
    requires i <= |s|
    ensures i <= k <= |s|
    ensures forall j :: i <= j < k ==> IsJsWhitespace(s[j])
    ensures k == |s| || !IsJsWhitespace(s[k])
    decreases |s| - i
  {
    if i < |s| && IsJsWhitespace(s[i]) then TrimStartIndex(s, i + 1) else i
  }

  /** One past the last non-whitespace character in `s[lo..j]` (or `lo`). */
  function TrimEndIndex(s: string, lo: nat, j: nat): (k: nat)
    requires lo <= j <= |s|
    ensures lo <= k <= j
    ensures forall m :: k <= m < j ==> IsJsWhitespace(s[m])
    ensures k == lo || !IsJsWhitespace(s[k - 1])
    decreases j
  {
    if j > lo && IsJsWhitespace(s[j - 1]) then TrimEndIndex(s, lo, j - 1) else j
  }

  /** `s.trim()`: the infix of `s` left after removing whitespace at both ends. */
  function Trim(s: string): (r: string)
    ensures |r| == 0 || (!IsJsWhitespace(r[0]) && !IsJsWhitespace(r[|r| - 1]))
  {
    var a := TrimStartIndex(s, 0);
    s[a..TrimEndIndex(s, a, |s|)]
  }

  /** `s.trim()` is empty exactly when `s` is all whitespace. */
  lemma TrimEmptyIffBlank(s: string)
    ensures Trim(s) == [] <==> Blank(s)
  {
    var a := TrimStartIndex(s, 0);
    var b := TrimEndIndex(s, a, |s|);
    if a < |s| {
      assert !IsJsWhitespace(s[a]);
      assert b > a;
    }
  }

  /** Trimming a string with no whitespace at either end changes nothing. */
  lemma TrimNoop(s: string)
    requires |s| > 0 && !IsJsWhitespace(s[0]) && !IsJsWhitespace(s[|s| - 1])
    ensures Trim(s) == s
  {
  }

  // ---------------------------------------------------------------- case

  function LowerChar(c: char): char
  {
    if 'A' <= c <= 'Z' then (c as int + 32) as char else c
  }

  function UpperChar(c: char): char
  {
    if 'a' <= c <= 'z' then (c as int - 32) as char else c
  }

  /** `s.toLowerCase()` on ASCII letters. */
  function Lower(s: string): (r: string)
    ensures |r| == |s|
  {
    seq(|s|, i requires 0 <= i < |s| => LowerChar(s[i]))
  }

  /** `s.toUpperCase()` on ASCII letters. */
  function Upper(s: string): (r: string)
    ensures |r| == |s|
  {
    seq(|s|, i requires 0 <= i < |s| => UpperChar(s[i]))
  }

  predicate OccursAt(s: string, sub: string, i: int)
  {
    0 <= i && i + |sub| <= |s| && s[i..i + |sub|] == sub
  }

  /** `s.includes(sub)`. */
  predicate Contains(s: string, sub: string)
  {
    exists i | 0 <= i <= |s| - |sub| :: OccursAt(s, sub, i)
  }

  // ---------------------------------------------------------------- order

  /** Lexicographic order by code point, standing for the default
      `Array.prototype.sort` order on strings. That order compares UTF-16 code
      units instead; the two differ only where a character above U+FFFF meets
      one in U+E000..U+FFFF. */
  predicate StrLess(a: string, b: string)
  {
    if |b| == 0 then false
    else if |a| == 0 then true
    else if a[0] != b[0] then a[0] < b[0]
    else StrLess(a[1..], b[1..])
  }

  lemma {:induction false} StrLessIrreflexive(a: string)
    ensures !StrLess(a, a)
  {
    if |a| > 0 {
      StrLessIrreflexive(a[1..]);
    }
  }

  lemma {:induction false} StrLessTransitive(a: string, b: string, c: string)
    requires StrLess(a, b) && StrLess(b, c)
    ensures StrLess(a, c)
  {
    if |a| > 0 && a[0] == b[0] && b[0] == c[0] {
      StrLessTransitive(a[1..], b[1..], c[1..]);
    }
  }

  lemma {:induction false} StrLessTotal(a: string, b: string)
    requires a != b
    ensures StrLess(a, b) || StrLess(b, a)
  {
    if |a| > 0 && |b| > 0 && a[0] == b[0] {
      assert a == [a[0]] + a[1..] && b == [b[0]] + b[1..];
      StrLessTotal(a[1..], b[1..]);
    }
  }

  /** Strictly increasing in the default sort order, hence duplicate-free. */
  predicate StrictlySorted(s: seq<string>)
  {
    forall i, j :: 0 <= i < j < |s| ==> StrLess(s[i], s[j])
  }

  /** Places `x` in a strictly sorted list, unless it is already there. */
  function InsertSorted(s: seq<string>, x: string): seq<string>
  {
    if |s| == 0 then [x]
    else if s[0] == x then s
    else if StrLess(x, s[0]) then [x] + s
    else [s[0]] + InsertSorted(s[1..], x)
  }

  lemma {:induction false} InsertSortedCorrect(s: seq<string>, x: string)
    requires StrictlySorted(s)
    ensures StrictlySorted(InsertSorted(s, x))
    ensures forall y :: y in InsertSorted(s, x) <==> y in s || y == x
  {
    if |s| > 0 && s[0] != x {
      if StrLess(x, s[0]) {
        forall j | 0 < j < |s| ensures StrLess(x, s[j]) {
          StrLessTransitive(x, s[0], s[j]);
        }
      } else {
        StrLessTotal(x, s[0]);
        InsertSortedCorrect(s[1..], x);
        var r := InsertSorted(s[1..], x);
        forall y | y in r ensures StrLess(s[0], y) {
          if y != x {
            var j :| 0 <= j < |s[1..]| && s[1..][j] == y;
          }
        }
        assert InsertSorted(s, x) == [s[0]] + r;
      }
    }
  }

  /** `Array.from(new Set(xs)).sort()`: the distinct values in sorted order. */
  function SortedUnique(xs: seq<string>): seq<string>
  {
    if |xs| == 0 then [] else InsertSorted(SortedUnique(xs[..|xs| - 1]), xs[|xs| - 1])
  }

  /** The sorted distinct list is strictly sorted and holds exactly the input's values. */
  lemma {:induction false} SortedUniqueCorrect(xs: seq<string>)
    ensures StrictlySorted(SortedUnique(xs))
    ensures forall y :: y in SortedUnique(xs) <==> y in xs
  {
    if |xs| > 0 {
      var init := xs[..|xs| - 1];
      SortedUniqueCorrect(init);
      InsertSortedCorrect(SortedUnique(init), xs[|xs| - 1]);
      assert xs == init + [xs[|xs| - 1]];
    }
  }

  /** A strictly sorted list is determined by its set of values. */
  lemma {:induction false} StrictlySortedUnique(a: seq<string>, b: seq<string>)
    requires StrictlySorted(a) && StrictlySorted(b)
    requires forall y :: y in a <==> y in b
    ensures a == b
  {
    if |a| > 0 {
      assert a[0] in b;
    }
    if |b| > 0 {
      assert b[0] in a;
    }
    if |a| > 0 && |b| > 0 {
      if a[0] != b[0] {
        assert a[0] in b && b[0] in a;
        var k :| 0 <= k < |b| && b[k] == a[0];
        var m :| 0 <= m < |a| && a[m] == b[0];
        StrLessTransitive(a[0], b[0], a[0]);
        StrLessIrreflexive(a[0]);
        assert false;
      }
      assert a == [a[0]] + a[1..] && b == [b[0]] + b[1..];
      forall y ensures y in a[1..] <==> y in b[1..] {
        if y in a[1..] {
          var j :| 0 <= j < |a[1..]| && a[1..][j] == y;
          assert StrLess(a[0], a[j + 1]);
          StrLessIrreflexive(y);
          assert y in b && y != b[0];
        }
        if y in b[1..] {
          var j :| 0 <= j < |b[1..]| && b[1..][j] == y;
          assert StrLess(b[0], b[j + 1]);
          StrLessIrreflexive(y);
          assert y in a && y != a[0];
        }
      }
      StrictlySortedUnique(a[1..], b[1..]);
    }
  }

  // ---------------------------------------------------------------- numbers

  predicate IsDigit(c: char)
  {
    '0' <= c <= '9'
  }

  predicate AllDigits(s: string)
  {
    forall i :: 0 <= i < |s| ==> IsDigit(s[i])
  }

  function DigitChar(d: nat): (c: char)
    requires d < 10
    ensures IsDigit(c)
  {
    ('0' as int + d) as char
  }

  function DigitValue(c: char): (d: nat)
    requires IsDigit(c)
    ensures d < 10
  {
    c as int - '0' as int
  }

  /** The value of a run of decimal digits (0 for the empty run). */
  function DigitsValue(ds: string): nat
    requires AllDigits(ds)
  {
    if |ds| == 0 then 0 else DigitsValue(ds[..|ds| - 1]) * 10 + DigitValue(ds[|ds| - 1])
  }

  /** `String(n)` for a non-negative integer: decimal, no leading zeros. */
  function NatToString(n: nat): (s: string)
    ensures |s| > 0 && AllDigits(s)
  {
    if n < 10 then [DigitChar(n)] else NatToString(n / 10) + [DigitChar(n % 10)]
  }

  /** `String(n)` for an integer. */
  function IntToString(n: int): (s: string)
    ensures |s| > 0
  {
    if n < 0 then "-" + NatToString(-n) else NatToString(n)
  }

  lemma {:induction false} NatToStringValue(n: nat)
    ensures DigitsValue(NatToString(n)) == n
  {
    if n >= 10 {
      NatToStringValue(n / 10);
      var s := NatToString(n);
      assert s[..|s| - 1] == NatToString(n / 10);
    }
  }

  function Pow10(e: nat): (r: nat)
    ensures r >= 1
  {
    if e == 0 then 1 else 10 * Pow10(e - 1)
  }

  /** Length of the run of digits starting at position `i`. */
  function DigitRun(s: string, i: nat): (k: nat)
    requires i <= |s|
    ensures i + k <= |s| && AllDigits(s[i..i + k])
    ensures i + k == |s| || !IsDigit(s[i + k])
    decreases |s| - i
  {
    if i < |s| && IsDigit(s[i]) then
      var k := 1 + DigitRun(s, i + 1);
      assert s[i..i + k] == [s[i]] + s[i + 1..i + k];
      k
    else 0
  }

  /** An unsigned decimal literal `digits[.digits][(e|E)[+|-]digits]` with at
      least one mantissa digit, as `Number` reads it; anything else is NaN (None). */
  function UnsignedDecimal(t: string): Option<real>
  {
    var i := DigitRun(t, 0);
    var hasDot := i < |t| && t[i] == '.';
    var f := if hasDot then DigitRun(t, i + 1) else 0;
    var j := if hasDot then i + 1 + f else i;
    if i + f == 0 then None
    else
      var fraction := if hasDot then DigitsValue(t[i + 1..j]) as real / Pow10(f) as real else 0.0;
      var mantissa := DigitsValue(t[..i]) as real + fraction;
      if j == |t| then Some(mantissa)
      else if t[j] != 'e' && t[j] != 'E' then None
      else
        var hasSign := j + 1 < |t| && (t[j + 1] == '+' || t[j + 1] == '-');
        var k := if hasSign then j + 2 else j + 1;
        var e := DigitRun(t, k);
        if e == 0 || k + e != |t| then None
        else
          var exp := DigitsValue(t[k..k + e]);
          if hasSign && t[j + 1] == '-' then Some(mantissa / Pow10(exp) as real)
          else Some(mantissa * Pow10(exp) as real)
  }

  /** `Number(s)` for a string: whitespace is trimmed, blank text is 0, a signed
      decimal literal is its value, and any other text is NaN (None). */
  function ParseJsNumber(s: string): Option<real>
  {
    var t := Trim(s);
    if |t| == 0 then Some(0.0) else SignedDecimal(t)
  }

  /** An optional `+` or `-` followed by an unsigned decimal literal. */
  function SignedDecimal(t: string): Option<real>
    requires |t| > 0
  {
    var unsigned := if t[0] == '-' || t[0] == '+' then t[1..] else t;
    match UnsignedDecimal(unsigned)
    case Some(v) => Some(if t[0] == '-' then -v else v)
    case None => None
  }

  /** `Number(String(n)) == n` for every integer. */
  lemma IntToStringParses(n: int)
    ensures ParseJsNumber(IntToString(n)) == Some(n as real)
  {
    var m: nat := if n < 0 then -n else n;
    NatToStringValue(m);
    var s := IntToString(n);
    if n < 0 {
      assert s[1..] == NatToString(m);
      NegativeDigitsParse(s);
    } else {
      UnsignedDigitsParse(s);
    }
  }

  lemma UnsignedDigitsParse(d: string)
    requires |d| > 0 && AllDigits(d)
    ensures ParseJsNumber(d) == Some(DigitsValue(d) as real)
  {
    TrimNoop(d);
    DigitsParse(d);
  }

  lemma NegativeDigitsParse(s: string)
    requires |s| > 1 && s[0] == '-' && AllDigits(s[1..])
    ensures ParseJsNumber(s) == Some(-(DigitsValue(s[1..]) as real))
  {
    assert IsDigit(s[1..][|s| - 2]);
    TrimNoop(s);
    DigitsParse(s[1..]);
  }

  /** A non-empty run of digits reads as its decimal value. */
  lemma DigitsParse(d: string)
    requires |d| > 0 && AllDigits(d)
    ensures UnsignedDecimal(d) == Some(DigitsValue(d) as real)
  {
    DigitRunAll(d);
    assert d[..|d|] == d;
  }

  lemma {:induction false} DigitRunAll(d: string)
    requires AllDigits(d)
    ensures DigitRun(d, 0) == |d|
  {
    DigitRunFrom(d, 0);
  }

  lemma {:induction false} DigitRunFrom(d: string, i: nat)
    requires AllDigits(d) && i <= |d|
    ensures DigitRun(d, i) == |d| - i
    decreases |d| - i
  {
    if i < |d| {
      DigitRunFrom(d, i + 1);
    }
  }
}
