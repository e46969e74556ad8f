/**
 * The java.lang notions the model relies on: references that may be null,
 * how string concatenation writes a possibly-null String, Integer.toString
 * for non-negative values, String.indexOf for one character and
 * String.equalsIgnoreCase.
 */
module JavaLang {

  /** A reference that may be null: `None` stands for null. */
  datatype Option<+T> = None | Some(value: T)

  /** The value of a computation that either completes or throws. */
  datatype Result<+T, +E> = Success(value: T) | Failure(error: E)

  /** The exception a `switch` on a null String raises. */
  datatype NullPointerException = NullPointerException

  /** A java.lang.String reference. */
  type JString = Option<string>

  /** What `"..." + s` and `StringBuilder.append(s)` write for `s`: its text, or "null". */
  function Render(s: JString): string
  {
    match s
    case None => "null"
    case Some(text) => text
  }

  /** The comparison `a != null ? a.equals(b) : b == null` that every equals method chains. */
  function NullSafeEquals(a: JString, b: JString): (r: bool)
    ensures r <==> a == b
  {
    if a.Some? then b.Some? && a.value == b.value else b.None?
  }

  // ---------------------------------------------------------------------------
  // Decimal rendering of an int (Integer.toString) and its inverse

  predicate IsDigit(c: char)
  {
    '0' <= c <= '9'
  }

  predicate AllDigits(s: string)
  {
    forall i :: 0 <= i < |s| ==> IsDigit(s[i])
  }

  function DigitChar(d: nat): char
    requires d < 10
  {
    ('0' as int + d) as char
  }

  function DigitValue(c: char): nat
    requires IsDigit(c)
  {
    c as int - '0' as int
  }

  /** Integer.toString(n) for n >= 0: at least one digit, no leading zero. */
  function DecimalString(n: nat): (r: string)
    ensures |r| >= 1 && AllDigits(r)
    ensures n > 0 ==> r[0] != '0'
    decreases n
  {
    if n < 10 then [DigitChar(n)] else DecimalString(n / 10) + [DigitChar(n % 10)]
  }

  /** Reads a string of decimal digits as a number. */
  function ParseDecimal(s: string): nat
    requires AllDigits(s)
  {
    if s == [] then 0 else 10 * ParseDecimal(s[..|s| - 1]) + DigitValue(s[|s| - 1])
  }

  /** DecimalString and ParseDecimal are inverse: the rendering loses nothing. */
  lemma {:induction false} ParseDecimalString(n: nat)
    ensures ParseDecimal(DecimalString(n)) == n
    decreases n
  {
    if n >= 10 {
      var s := DecimalString(n);
      assert s[..|s| - 1] == DecimalString(n / 10);
      ParseDecimalString(n / 10);
    }
  }

  /** Every value in [1000, 9999] renders as exactly four digits. */
  lemma FourDigitDecimal(n: nat)
    requires 1000 <= n <= 9999
    ensures |DecimalString(n)| == 4
  {
    var a, b, c := n / 10, n / 10 / 10, n / 10 / 10 / 10;
    assert 100 <= a <= 999 && 10 <= b <= 99 && 1 <= c <= 9;
    assert |DecimalString(c)| == 1;
    assert |DecimalString(b)| == |DecimalString(c)| + 1;
    assert |DecimalString(a)| == |DecimalString(b)| + 1;
    assert |DecimalString(n)| == |DecimalString(a)| + 1;
  }

  // ---------------------------------------------------------------------------
  // String.indexOf(char)

  /** The first position of `c` in `s`, or None where `s.indexOf(c)` answers -1. */
  function IndexOf(s: string, c: char): (r: Option<nat>)
    ensures r.None? <==> c !in s
    ensures r.Some? ==> r.value < |s| && s[r.value] == c && c !in s[..r.value]
  {
    if s == [] then None
    else if s[0] == c then Some(0)
    else
      match IndexOf(s[1..], c)
      case None => None
      case Some(i) =>
        assert s[1..][..i] == s[1..i + 1];
        assert s[..i + 1] == [s[0]] + s[1..i + 1];
        Some(i + 1)
  }

  /** In `p + [c] + q` with no `c` in `p`, the first `c` is the one right after `p`. */
  lemma IndexOfAfterPrefix(p: string, c: char, q: string)
    requires c !in p
    ensures IndexOf(p + [c] + q, c) == Some(|p|)
  {
    var s := p + [c] + q;
    var r := IndexOf(s, c);
    assert s[|p|] == c;
    assert s[..|p|] == p;
  }

  // ---------------------------------------------------------------------------
  // String.equalsIgnoreCase, with the case mappings of the ASCII letters

  function ToUpperCase(c: char): char
  {
    if 'a' <= c <= 'z' then (c as int - 32) as char else c
  }

  function ToLowerCase(c: char): char
  {
    if 'A' <= c <= 'Z' then (c as int + 32) as char else c
  }

  /** The per-character test of String.regionMatches(ignoreCase = true, ...). */
  predicate CharEqualsIgnoreCase(a: char, b: char)
  {
    a == b
    || ToUpperCase(a) == ToUpperCase(b)
    || ToLowerCase(ToUpperCase(a)) == ToLowerCase(ToUpperCase(b))
  }

  /** `s.equalsIgnoreCase(other)`: null never matches; else equal length and equal letters up to case. */
  predicate EqualsIgnoreCase(s: string, other: JString)
  {
    other.Some? && |s| == |other.value|
    && forall i :: 0 <= i < |s| ==> CharEqualsIgnoreCase(s[i], other.value[i])
  }
}
