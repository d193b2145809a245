/**
 * The string operations the source applies to timestamps, labels and file names:
 * decimal rendering with zero padding (as in `Date.prototype.toISOString`),
 * `String.prototype.split(c)[0]`, a character-class `replace(/[..]/g, c)` and
 * `toUpperCase` over the characters the catalog uses.
 */
module Text {

  predicate IsDigit(c: char) {
    '0' <= c <= '9'
  }

  predicate AllDigits(s: string) {
    forall i :: 0 <= i < |s| ==> IsDigit(s[i])
  }

  function Pow10(n: nat): (p: nat)
    ensures p >= 1
  {
    if n == 0 then 1 else 10 * Pow10(n - 1)
  }

  function DigitChar(d: nat): (c: char)
    requires d < 10
    ensures IsDigit(c) && c as int - '0' as int == d
  {
    ('0' as int + d) as char
  }

  /** The shortest decimal rendering of `n`, as `String(n)` gives it. */
  function Decimal(n: nat): (s: string)
    ensures |s| >= 1 && AllDigits(s)
  {
    if n < 10 then [DigitChar(n)] else Decimal(n / 10) + [DigitChar(n % 10)]
  }

  /** The value a string of decimal digits denotes. */
  function DigitsValue(s: string): nat
    requires AllDigits(s)
  {
    if s == [] then 0 else 10 * DigitsValue(s[..|s| - 1]) + (s[|s| - 1] as int - '0' as int)
  }

  /** `Decimal` is undone by reading the digits back. */
  lemma {:induction false} DecimalValue(n: nat)
    ensures DigitsValue(Decimal(n)) == n
  {
    var s := Decimal(n);
    if n >= 10 {
      DecimalValue(n / 10);
      assert s[..|s| - 1] == Decimal(n / 10);
    }
  }

  /** `Decimal(n)` fits in `width` characters exactly when `n < 10^width`. */
  lemma {:induction false} DecimalLength(n: nat, width: nat)
    ensures |Decimal(n)| <= width <==> (width >= 1 && n < Pow10(width))
  {
    if n >= 10 && width >= 1 {
      DecimalLength(n / 10, width - 1);
    }
  }

  function Zeros(k: nat): (s: string)
    ensures |s| == k && AllDigits(s)
    ensures forall i :: 0 <= i < k ==> s[i] == '0'
  {
    if k == 0 then [] else Zeros(k - 1) + ['0']
  }

  /** `String(n).padStart(width, '0')`: never truncates. */
  function Pad(n: nat, width: nat): (s: string)
    ensures AllDigits(s)
    ensures |s| >= width
    ensures width >= 1 && n < Pow10(width) ==> |s| == width
    ensures DigitsValue(s) == n
  {
    var d := Decimal(n);
    DecimalLength(n, width);
    DecimalValue(n);
    var z := if |d| < width then Zeros(width - |d|) else [];
    ZerosPrefixValue(|z|, d);
    z + d
  }

  lemma {:induction false} ZerosPrefixValue(k: nat, d: string)
    requires AllDigits(d)
    ensures AllDigits(Zeros(k) + d) && DigitsValue(Zeros(k) + d) == DigitsValue(d)
  {
    if d != [] {
      var s := Zeros(k) + d;
      assert s[..|s| - 1] == Zeros(k) + d[..|d| - 1];
      ZerosPrefixValue(k, d[..|d| - 1]);
    } else if k > 0 {
      assert Zeros(k)[..k - 1] == Zeros(k - 1);
      ZerosPrefixValue(k - 1, d);
      assert Zeros(k) + d == Zeros(k);
      assert Zeros(k - 1) + d == Zeros(k - 1);
    }
  }

  /** `s.split(c)[0]`: everything before the first `c`, or all of `s` when it has none. */
  function BeforeFirst(s: string, c: char): (r: string)
    ensures |r| <= |s| && r == s[..|r|]
    ensures c !in r
    ensures |r| < |s| ==> s[|r|] == c
  {
    if s == [] || s[0] == c then [] else [s[0]] + BeforeFirst(s[1..], c)
  }

  /** Splitting at the first separator gives back the part written before it. */
  lemma {:induction false} BeforeFirstOfJoin(a: string, c: char, b: string)
    requires c !in a
    ensures BeforeFirst(a + [c] + b, c) == a
  {
    if a != [] {
      assert a + [c] + b == [a[0]] + (a[1..] + [c] + b);
      BeforeFirstOfJoin(a[1..], c, b);
    }
  }

  /** `s.replace(/[xy]/g, sub)`: every character of `from` becomes `sub`. */
  function ReplaceAll(s: string, from: set<char>, sub: char): (r: string)
    ensures |r| == |s|
    ensures forall i :: 0 <= i < |s| ==> r[i] == if s[i] in from then sub else s[i]
  {
    if s == [] then [] else [if s[0] in from then sub else s[0]] + ReplaceAll(s[1..], from, sub)
  }

  /**
   * `toUpperCase` on one character: ASCII and the accented Latin-1 letters,
   * plus the micro sign (upper-cased to Greek capital mu) and y-diaeresis, which
   * leave Latin-1. Sharp s, which `toUpperCase` turns into two characters, is
   * left as it is.
   */
  function UpperChar(c: char): char {
    if 'a' <= c <= 'z' then (c as int - 32) as char
    else if 'à' <= c <= 'þ' && c != '÷' then (c as int - 32) as char
    else if c == 'µ' then 'Μ'
    else if c == 'ÿ' then 'Ÿ'
    else c
  }

  function Upper(s: string): (r: string)
    ensures |r| == |s|
    ensures forall i :: 0 <= i < |s| ==> r[i] == UpperChar(s[i])
  {
    if s == [] then [] else [UpperChar(s[0])] + Upper(s[1..])
  }

  /** Upper-casing twice is upper-casing once: no upper-cased character has an upper-case form of its own. */
  lemma UpperIdempotent(s: string)
    ensures Upper(Upper(s)) == Upper(s)
  {
    forall i | 0 <= i < |s| ensures UpperChar(UpperChar(s[i])) == UpperChar(s[i]) {
      var c := s[i];
      if 'a' <= c <= 'z' || ('à' <= c <= 'þ' && c != '÷') {
        assert 'A' <= UpperChar(c) <= 'Z' || 'À' <= UpperChar(c) <= 'Þ';
      }
    }
  }
}
