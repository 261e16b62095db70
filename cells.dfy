/** Table cells and the text/number conversions the reconciliation applies
    to them: `astype(str)`, `astype("string")`, `pd.to_numeric(..., errors="coerce").fillna(0)`,
    `str.strip()`, `str.lower()` and `str.replace(ch, "")`. */
module Cells {

  datatype Option<T> = None | Some(value: T)

  /** One cell of a table: missing (NaN or NA), a string or an integer. */
  datatype Cell = Missing | Str(s: string) | Int(n: int)

  /** Python's whitespace: the characters for which `str.isspace()` holds,
      which are also what `\s` matches in a `str` regular expression. */
  predicate IsSpace(c: char) {
    c == ' ' || '\t' <= c <= '\r' || '\U{1c}' <= c <= '\U{1f}'
    || c == '\U{85}' || c == '\U{a0}' || c == '\U{1680}'
    || '\U{2000}' <= c <= '\U{200a}' || c == '\U{2028}' || c == '\U{2029}'
    || c == '\U{202f}' || c == '\U{205f}' || c == '\U{3000}'
  }

  /** The text matches the regular expression `^\s*$`. */
  predicate IsBlankText(s: string) {
    forall i :: 0 <= i < |s| ==> IsSpace(s[i])
  }

  /** A cell the cleaning pass treats as blank: missing, or whitespace only. */
  predicate IsBlank(c: Cell) {
    c.Missing? || (c.Str? && IsBlankText(c.s))
  }

  function StripLeft(s: string): (r: string)
    ensures |r| <= |s| && r == s[|s| - |r|..]
    ensures forall i :: 0 <= i < |s| - |r| ==> IsSpace(s[i])
    ensures r == [] || !IsSpace(r[0])
  {
    if s == [] || !IsSpace(s[0]) then s else StripLeft(s[1..])
  }

  function StripRight(s: string): (r: string)
    ensures |r| <= |s| && r == s[..|r|]
    ensures forall i :: |r| <= i < |s| ==> IsSpace(s[i])
    ensures r == [] || !IsSpace(r[|r| - 1])
  {
    if s == [] || !IsSpace(s[|s| - 1]) then s else StripRight(s[..|s| - 1])
  }

  /** `str.strip()`: leading and trailing whitespace removed. */
  function Strip(s: string): (r: string)
    ensures r == [] || (!IsSpace(r[0]) && !IsSpace(r[|r| - 1]))
    ensures exists a, b :: 0 <= a <= b <= |s| && r == s[a..b] && IsBlankText(s[..a]) && IsBlankText(s[b..])
  {
    var l := StripLeft(s);
    var r := StripRight(l);
    assert IsBlankText(s[..|s| - |l|]);
    assert IsBlankText(l[|r|..]);
    BetweenBlanks(s, l, r);
    r
  }

  /** A prefix `r` of a suffix `l` of `s`, with only whitespace cut off on
      either side, is a slice of `s` between two blank pieces. */
  lemma BetweenBlanks(s: string, l: string, r: string)
    requires |l| <= |s| && l == s[|s| - |l|..] && IsBlankText(s[..|s| - |l|])
    requires |r| <= |l| && r == l[..|r|] && IsBlankText(l[|r|..])
    ensures exists a, b :: 0 <= a <= b <= |s| && r == s[a..b] && IsBlankText(s[..a]) && IsBlankText(s[b..])
  {
    var a := |s| - |l|;
    var b := a + |r|;
    assert r == s[a..b];
    assert s[b..] == l[|r|..];
  }

  /** Stripping leaves nothing exactly when the text is blank, so the join
      key of a blank SKU is the empty string. */
  lemma StripEmptyIffBlank(s: string)
    ensures Strip(s) == [] <==> IsBlankText(s)
  {
    var l := StripLeft(s);
    if l != [] {
      assert !IsSpace(l[0]);
      assert StripRight(l) != [] by {
        assert forall i :: |StripRight(l)| <= i < |l| ==> IsSpace(l[i]);
      }
      assert l[0] == s[|s| - |l|];
    }
  }

  /** Stripping twice is stripping once. */
  lemma StripIdempotent(s: string)
    ensures Strip(Strip(s)) == Strip(s)
  {
    var r := Strip(s);
    if r != [] {
      assert StripLeft(r) == r;
    }
  }

  predicate IsDigit(c: char) {
    '0' <= c <= '9'
  }

  predicate AllDigits(s: string) {
    forall i :: 0 <= i < |s| ==> IsDigit(s[i])
  }

  function DigitChar(d: int): (c: char)
    requires 0 <= d < 10
    ensures IsDigit(c) && c as int - '0' as int == d
  {
    ('0' as int + d) as char
  }

  /** Decimal digits of a natural number, without leading zeros. */
  function NatToString(n: nat): (r: string)
    ensures r != [] && AllDigits(r)
    decreases n
  {
    if n < 10 then [DigitChar(n)] else NatToString(n / 10) + [DigitChar(n % 10)]
  }

  /** Python's `str(n)` for an integer. */
  function IntToString(n: int): (r: string)
    ensures r != []
  {
    if n < 0 then "-" + NatToString(-n) else NatToString(n)
  }

  /** The value of a string of decimal digits. */
  function DigitsValue(s: string): nat
    requires AllDigits(s)
  {
    if s == [] then 0 else DigitsValue(s[..|s| - 1]) * 10 + (s[|s| - 1] as int - '0' as int)
  }

  /** A decimal integer literal with an optional sign; anything else does not parse. */
  function ParseInt(s: string): (r: Option<int>)
    ensures AllDigits(s) && s != [] ==> r == Some(DigitsValue(s))
    ensures |s| > 1 && s[0] == '-' && AllDigits(s[1..]) ==> r.Some? && r.value + DigitsValue(s[1..]) == 0
    ensures |s| > 1 && s[0] == '+' && AllDigits(s[1..]) ==> r == Some(DigitsValue(s[1..]))
    ensures r.Some? ==> (s != [] && AllDigits(s)) || (|s| > 1 && (s[0] == '-' || s[0] == '+') && AllDigits(s[1..]))
  {
    if |s| > 1 && (s[0] == '-' || s[0] == '+') && AllDigits(s[1..]) then
      var v: int := DigitsValue(s[1..]);
      Some(if s[0] == '-' then -v else v)
    else if s != [] && AllDigits(s) then Some(DigitsValue(s))
    else None
  }

  lemma {:induction false} NatToStringValue(n: nat)
    ensures DigitsValue(NatToString(n)) == n
    decreases n
  {
    if n >= 10 {
      var t := NatToString(n / 10);
      NatToStringValue(n / 10);
      assert (t + [DigitChar(n % 10)])[..|t|] == t;
    }
  }

  /** Printing an integer and parsing it back gives the integer. */
  lemma ParseIntToString(n: int)
    ensures ParseInt(IntToString(n)) == Some(n)
  {
    if n < 0 {
      var t := NatToString(-n);
      NatToStringValue(-n);
      assert ("-" + t)[1..] == t;
      assert !IsDigit(("-" + t)[0]);
    } else {
      NatToStringValue(n);
    }
  }

  /** `astype(str)`: NaN becomes "nan", a number its decimal text. */
  function CellText(c: Cell): (t: string)
    ensures c.Missing? ==> t == "nan"
    ensures c.Str? ==> t == c.s
    ensures c.Int? ==> t == IntToString(c.n) && ParseInt(t) == Some(c.n)
  {
    match c
    case Missing => "nan"
    case Str(s) => s
    case Int(n) => ParseIntToString(n); IntToString(n)
  }

  /** `astype("string")`: a missing value stays missing (NA), a number becomes its text. */
  function ToText(c: Cell): (r: Cell)
    ensures r.Missing? <==> c.Missing?
    ensures !r.Int?
    ensures c.Str? ==> r == c
    ensures c.Int? ==> r == Str(IntToString(c.n)) && ParseInt(r.s) == Some(c.n)
  {
    match c
    case Missing => Missing
    case Str(s) => c
    case Int(n) => ParseIntToString(n); Str(IntToString(n))
  }

  /** `pd.to_numeric(..., errors="coerce").fillna(0)` for one cell. */
  function ToNumeric(c: Cell): (n: int)
    ensures c.Missing? ==> n == 0
    ensures c.Int? ==> n == c.n
    ensures c.Str? && ParseInt(c.s).Some? ==> n == ParseInt(c.s).value
    ensures c.Str? && ParseInt(c.s).None? ==> n == 0
  {
    match c
    case Missing => 0
    case Int(n) => n
    case Str(s) => match ParseInt(s) case Some(v) => v case None => 0
  }

  /** Numeric coercion followed by `astype(int)`. */
  function ToInt(c: Cell): (r: Cell)
    ensures r.Int?
    ensures c.Int? ==> r == c
    ensures c.Missing? ==> r == Int(0)
    ensures c.Str? && ParseInt(c.s).Some? ==> r == Int(ParseInt(c.s).value)
    ensures c.Str? && ParseInt(c.s).None? ==> r == Int(0)
  {
    Int(ToNumeric(c))
  }

  /** Turning an integer cell into text and coercing it back yields the integer. */
  lemma TextThenNumeric(c: Cell)
    requires c.Int?
    ensures ToInt(ToText(c)) == c
  {
    ParseIntToString(c.n);
  }

  /** Coercion is idempotent on both kinds of column. */
  lemma CoercionsIdempotent(c: Cell)
    ensures ToText(ToText(c)) == ToText(c)
    ensures ToInt(ToInt(c)) == ToInt(c)
  {
  }

  /** `s.replace(ch, "")`. */
  function RemoveAll(s: string, ch: char): (r: string)
    ensures ch !in r
    ensures |r| <= |s|
    ensures ch !in s ==> r == s
  {
    if s == [] then []
    else
      assert s == [s[0]] + s[1..];
      (if s[0] == ch then [] else [s[0]]) + RemoveAll(s[1..], ch)
  }

  /** Every other character is kept, as often as it occurs. */
  lemma {:induction false} RemoveAllCounts(s: string, ch: char, c: char)
    requires c != ch
    ensures multiset(RemoveAll(s, ch))[c] == multiset(s)[c]
  {
    if s != [] {
      assert s == [s[0]] + s[1..];
      RemoveAllCounts(s[1..], ch, c);
    }
  }

  /** Removal distributes over concatenation, so it keeps the order of the other characters. */
  lemma {:induction false} RemoveAllConcat(a: string, b: string, ch: char)
    ensures RemoveAll(a + b, ch) == RemoveAll(a, ch) + RemoveAll(b, ch)
  {
    if a == [] {
      assert a + b == b;
    } else {
      var head := if a[0] == ch then [] else [a[0]];
      assert (a + b)[0] == a[0] && (a + b)[1..] == a[1..] + b;
      assert RemoveAll(a + b, ch) == head + RemoveAll(a[1..] + b, ch);
      RemoveAllConcat(a[1..], b, ch);
      assert head + (RemoveAll(a[1..], ch) + RemoveAll(b, ch)) == (head + RemoveAll(a[1..], ch)) + RemoveAll(b, ch);
    }
  }

  function LowerChar(c: char): (d: char)
    ensures !('A' <= d <= 'Z')
    ensures 'A' <= c <= 'Z' ==> d as int == c as int + 32
    ensures !('A' <= c <= 'Z') ==> d == c
  {
    if 'A' <= c <= 'Z' then (c as int - 'A' as int + 'a' as int) as char else c
  }

  /** `str.lower()` on ASCII letters. */
  function Lower(s: string): (r: string)
    ensures |r| == |s|
    ensures forall i :: 0 <= i < |s| ==> r[i] == LowerChar(s[i])
  {
    seq(|s|, i requires 0 <= i < |s| => LowerChar(s[i]))
  }

  /** Lower-casing leaves no upper-case ASCII letter, so a lower-cased
      header is unchanged by a second `lower()`. */
  lemma LowerIdempotent(s: string)
    ensures forall i :: 0 <= i < |s| ==> !('A' <= Lower(s)[i] <= 'Z')
    ensures Lower(Lower(s)) == Lower(s)
  {
  }

  /** `sub in s` on strings. */
  predicate Contains(s: string, sub: string) {
    exists i | 0 <= i <= |s| - |sub| :: OccursAt(s, sub, i)
  }

  predicate OccursAt(s: string, sub: string, i: int) {
    0 <= i <= |s| - |sub| && s[i..i + |sub|] == sub
  }
}
