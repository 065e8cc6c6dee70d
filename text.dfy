/**
 * String helpers the program takes from its runtimes: JavaScript's `trim`,
 * `String(n)` and `padStart`, and Python's code-point string order.
 */
module Text {
  import opened Sorting

  /** The characters that `String.prototype.trim` removes: ECMAScript's WhiteSpace
      (tab, vertical tab, form feed, space, no-break space, the byte-order mark and
      every space separator of Unicode category Zs) and its LineTerminators. */
  predicate IsSpace(c: char) {
    c == ' ' || c == '\t' || c == '\n' || c == '\r' || c == '\U{B}' || c == '\U{C}'
    || c == '\U{A0}' || c == '\U{2028}' || c == '\U{2029}' || c == '\U{FEFF}'
    || c == '\U{1680}' || ('\U{2000}' <= c <= '\U{200A}') || c == '\U{202F}'
    || c == '\U{205F}' || c == '\U{3000}'
  }

  function TrimStart(s: string): (r: string)
    ensures |r| <= |s| && r == s[|s| - |r|..]
    ensures r == [] || !IsSpace(r[0])
    ensures forall k :: 0 <= k < |s| - |r| ==> IsSpace(s[k])
  {
    if s != [] && IsSpace(s[0]) then TrimStart(s[1..]) else s
  }

  function TrimEnd(s: string): (r: string)
    ensures |r| <= |s| && r == s[..|r|]
    ensures r == [] || !IsSpace(r[|r| - 1])
    ensures forall k :: |r| <= k < |s| ==> IsSpace(s[k])
  {
    if s != [] && IsSpace(s[|s| - 1]) then TrimEnd(s[..|s| - 1]) else s
  }

  /** `s.trim()`: s without its leading and trailing white space. */
  function Trim(s: string): (r: string)
    ensures r == [] || (!IsSpace(r[0]) && !IsSpace(r[|r| - 1]))
  {
    TrimEnd(TrimStart(s))
  }

  /** A trimmed string is empty exactly when every character of the input is white space,
      which is when `!name.trim()` holds. */
  lemma TrimEmptyIffBlank(s: string)
    ensures Trim(s) == [] <==> forall k :: 0 <= k < |s| ==> IsSpace(s[k])
  {
    var a := TrimStart(s);
    if Trim(s) == [] {
      assert TrimEnd(a) == [];
      assert a == [];
    } else {
      assert a != [] ==> a[0] == s[|s| - |a|];
    }
  }

  /** Trimming twice trims nothing more. */
  lemma TrimIdempotent(s: string)
    ensures Trim(Trim(s)) == Trim(s)
  {
    var r := Trim(s);
    if r != [] {
      assert r[0] == TrimStart(s)[0];
      assert TrimStart(r) == r;
    }
  }

  /** Decimal digits of n without leading zeros (`String(n)` for a non-negative integer). */
  function DecimalString(n: nat): (r: string)
    ensures 1 <= |r|
    ensures forall k :: 0 <= k < |r| ==> '0' <= r[k] <= '9'
    ensures |r| == 1 <==> n < 10
  {
    if n < 10 then [DigitChar(n)] else DecimalString(n / 10) + [DigitChar(n % 10)]
  }

  function DigitChar(d: nat): (c: char)
    requires d < 10
    ensures '0' <= c <= '9'
    ensures c as int - '0' as int == d
  {
    ('0' as int + d) as char
  }

  predicate IsDecimal(s: string) {
    forall k :: 0 <= k < |s| ==> '0' <= s[k] <= '9'
  }

  /** Reads a string of decimal digits back as a number. */
  function ParseDecimal(s: string): nat
    requires IsDecimal(s)
  {
    if s == [] then 0 else 10 * ParseDecimal(s[..|s| - 1]) + (s[|s| - 1] as int - '0' as int)
  }

  /** Printing and reading back are inverse. */
  lemma {:induction false} DecimalRoundTrip(n: nat)
    ensures ParseDecimal(DecimalString(n)) == n
  {
    if n >= 10 {
      var s := DecimalString(n);
      assert s[..|s| - 1] == DecimalString(n / 10);
      DecimalRoundTrip(n / 10);
    }
  }

  /** `s.padStart(width, c)`: prefixes copies of c until s is `width` long. */
  function PadStart(s: string, width: nat, c: char): (r: string)
    ensures |r| == if |s| < width then width else |s|
    ensures r[|r| - |s|..] == s
    ensures forall k :: 0 <= k < |r| - |s| ==> r[k] == c
  {
    if |s| < width then seq(width - |s|, _ => c) + s else s
  }

  /** `String(n).padStart(2, '0')` as the countdown shows hours, minutes and seconds. */
  function TwoDigits(n: nat): (r: string)
    ensures IsDecimal(r)
  {
    PadStartKeepsDecimal(DecimalString(n), 2);
    PadStart(DecimalString(n), 2, '0')
  }

  /** Padding digits with zeros leaves only digits. */
  lemma PadStartKeepsDecimal(s: string, width: nat)
    requires IsDecimal(s)
    ensures IsDecimal(PadStart(s, width, '0'))
  {
    var r := PadStart(s, width, '0');
    var j := |r| - |s|;
    forall k | j <= k < |r|
      ensures '0' <= r[k] <= '9'
    {
      assert r[k] == r[j..][k - j];
    }
  }

  /** Below 100 a value shows as exactly two digits, with a leading zero exactly when it is
      below 10, and the two digits read back as the value. */
  lemma TwoDigitsShape(n: nat)
    requires n < 100
    ensures |TwoDigits(n)| == 2
    ensures TwoDigits(n)[0] == '0' <==> n < 10
    ensures ParseDecimal(TwoDigits(n)) == n
  {
    if n < 10 {
      PaddedOneDigit(n);
    } else {
      PaddedTwoDigits(n);
    }
  }

  lemma PaddedOneDigit(n: nat)
    requires n < 10
    ensures TwoDigits(n) == ['0', DigitChar(n)]
    ensures ParseDecimal(TwoDigits(n)) == n
  {
    assert DecimalString(n) == [DigitChar(n)];
    assert seq(1, _ => '0') == [DigitChar(0)];
    ParseTwoDigits(0, n);
  }

  lemma PaddedTwoDigits(n: nat)
    requires 10 <= n < 100
    ensures TwoDigits(n) == [DigitChar(n / 10), DigitChar(n % 10)]
    ensures TwoDigits(n)[0] != '0'
    ensures ParseDecimal(TwoDigits(n)) == n
  {
    assert DecimalString(n / 10) == [DigitChar(n / 10)];
    assert DecimalString(n) == [DigitChar(n / 10), DigitChar(n % 10)];
    ParseTwoDigits(n / 10, n % 10);
  }

  lemma ParseTwoDigits(a: nat, b: nat)
    requires a < 10 && b < 10
    ensures ParseDecimal([DigitChar(a), DigitChar(b)]) == 10 * a + b
  {
    var r := [DigitChar(a), DigitChar(b)];
    assert r[..1] == [DigitChar(a)];
    assert [DigitChar(a)][..0] == [];
    assert ParseDecimal([DigitChar(a)]) == a;
    assert ParseDecimal(r) == 10 * ParseDecimal(r[..1]) + b;
  }

  /** Python's `<=` on `str`: code-point lexicographic order. */
  predicate StrLe(a: string, b: string) {
    a == [] || (b != [] && (a[0] < b[0] || (a[0] == b[0] && StrLe(a[1..], b[1..]))))
  }

  lemma {:induction false} StrLeTotal(a: string, b: string)
    ensures StrLe(a, b) || StrLe(b, a)
  {
    if a != [] && b != [] && a[0] == b[0] {
      StrLeTotal(a[1..], b[1..]);
    }
  }

  lemma {:induction false} StrLeTransitive(a: string, b: string, c: string)
    requires StrLe(a, b) && StrLe(b, c)
    ensures StrLe(a, c)
  {
    if a != [] && a[0] == b[0] && b[0] == c[0] {
      StrLeTransitive(a[1..], b[1..], c[1..]);
    }
  }

  /** Python's string order is a total preorder, so sorting by it is well defined. */
  lemma StrLeIsTotalPreorder()
    ensures TotalPreorder(StrLe)
  {
    forall a: string, b: string ensures StrLe(a, b) || StrLe(b, a) {
      StrLeTotal(a, b);
    }
    forall a: string, b: string, c: string | StrLe(a, b) && StrLe(b, c) ensures StrLe(a, c) {
      StrLeTransitive(a, b, c);
    }
  }
}
