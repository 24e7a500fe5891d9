/** Java number semantics the services depend on: decimal rendering and parsing
    of integers (`String.valueOf`, `Long.parseLong`), `String.hashCode` over
    UTF-16 code units with 32-bit wrap-around, and integer division that truncates toward zero. */
module JavaLang {
  import opened Wrappers

  /** Whether `c` is one of '0'..'9'. */
  predicate IsDigit(c: char)
  {
    '0' <= c <= '9'
  }

  /** Every character of `s` is a decimal digit. */
  predicate AllDigits(s: string)
  {
    forall i :: 0 <= i < |s| ==> IsDigit(s[i])
  }

  function DigitChar(d: nat): (c: char)
    requires d < 10
    ensures IsDigit(c) && c as int - '0' as int == d
  {
    ('0' as int + d) as char
  }

  /** Decimal text of a natural number, most significant digit first, no leading zeros. */
  function NatToString(n: nat): (r: string)
    ensures |r| >= 1 && AllDigits(r)
    ensures |r| > 1 ==> r[0] != '0'
  {
    if n < 10 then [DigitChar(n)] else NatToString(n / 10) + [DigitChar(n % 10)]
  }

  /** `String.valueOf(long)`: a leading '-' for negative values. */
  function IntToString(i: int): (r: string)
    ensures |r| >= 1
    ensures i >= 0 ==> AllDigits(r)
    ensures i < 0 ==> r[0] == '-' && AllDigits(r[1..])
  {
    if i < 0 then "-" + NatToString(-i) else NatToString(i)
  }

  /** The value of a run of decimal digits. */
  function DigitsValue(s: string): nat
    requires AllDigits(s)
  {
    if s == [] then 0 else DigitsValue(s[..|s| - 1]) * 10 + (s[|s| - 1] as int - '0' as int)
  }

  /** `Long.parseLong(s)`: an optional sign followed by at least one digit;
      anything else is a `NumberFormatException` (`None`). */
  function ParseLong(s: string): Option<int>
  {
    if |s| >= 2 && s[0] == '-' && AllDigits(s[1..]) then Some(0 - DigitsValue(s[1..]) as int)
    else if |s| >= 2 && s[0] == '+' && AllDigits(s[1..]) then Some(DigitsValue(s[1..]))
    else if |s| >= 1 && AllDigits(s) then Some(DigitsValue(s))
    else None
  }

  lemma {:induction false} DigitsValueOfNatToString(n: nat)
    ensures DigitsValue(NatToString(n)) == n
  {
    if n >= 10 {
      var r := NatToString(n);
      DigitsValueOfNatToString(n / 10);
      assert r[..|r| - 1] == NatToString(n / 10);
    }
  }

  /** Parsing the text that `String.valueOf` renders gives the number back. */
  lemma ParseLongOfIntToString(i: int)
    ensures ParseLong(IntToString(i)) == Some(i)
  {
    if i < 0 {
      DigitsValueOfNatToString(-i);
      assert IntToString(i)[1..] == NatToString(-i);
    } else {
      DigitsValueOfNatToString(i);
    }
  }

  /** Rendering is injective: different numbers never share a text. */
  lemma IntToStringInjective(i: int, j: int)
    requires IntToString(i) == IntToString(j)
    ensures i == j
  {
    ParseLongOfIntToString(i);
    ParseLongOfIntToString(j);
  }

  const TWO_POW_31: int := 0x8000_0000
  const TWO_POW_32: int := 0x1_0000_0000

  /** Java's `(int)` narrowing: the signed 32-bit value congruent to `x`. */
  function ToInt32(x: int): (r: int)
    ensures -TWO_POW_31 <= r < TWO_POW_31
    ensures (x - r) % TWO_POW_32 == 0
  {
    var m := x % TWO_POW_32;
    if m >= TWO_POW_31 then m - TWO_POW_32 else m
  }

  /** The UTF-16 code units of one character, as Java stores it: the character
      itself inside the Basic Multilingual Plane, otherwise its surrogate pair. */
  function CodeUnits(c: char): (u: seq<int>)
    ensures c as int < 0x1_0000 ==> u == [c as int]
    ensures c as int >= 0x1_0000 ==>
      |u| == 2 && 0xD800 <= u[0] < 0xDC00 && 0xDC00 <= u[1] < 0xE000
      && (u[0] - 0xD800) * 0x400 + (u[1] - 0xDC00) + 0x1_0000 == c as int
  {
    var v := c as int;
    if v < 0x1_0000 then [v] else [0xD800 + (v - 0x1_0000) / 0x400, 0xDC00 + (v - 0x1_0000) % 0x400]
  }

  /** The UTF-16 code units of a string, which Java's `String` holds. */
  function Utf16(s: string): (u: seq<int>)
    ensures |u| >= |s|
  {
    if s == [] then [] else Utf16(s[..|s| - 1]) + CodeUnits(s[|s| - 1])
  }

  /** The unwrapped polynomial `u[0]*31^(n-1) + ... + u[n-1]`. */
  function HashPolynomial(u: seq<int>): int
  {
    if u == [] then 0 else 31 * HashPolynomial(u[..|u| - 1]) + u[|u| - 1]
  }

  /** `String.hashCode()`: the 31-polynomial of the UTF-16 code units, wrapped
      to a signed 32-bit int. */
  function HashCode(s: string): (h: int)
    ensures -TWO_POW_31 <= h < TWO_POW_31
  {
    ToInt32(HashPolynomial(Utf16(s)))
  }

  /** Java computes the hash with `h = 31 * h + c` in 32-bit arithmetic, wrapping on
      every step; for a character of the Basic Multilingual Plane, wrapping once at
      the end gives the same value. */
  lemma HashCodeStep(s: string, c: char)
    requires c as int < 0x1_0000
    ensures HashCode(s + [c]) == ToInt32(31 * HashCode(s) + c as int)
  {
    var p := HashPolynomial(Utf16(s));
    var h := HashCode(s);
    PolynomialOfAppended(s, c);
    var k := (p - h) / TWO_POW_32;
    assert p - h == k * TWO_POW_32;
    assert (31 * p + c as int) - (31 * h + c as int) == (31 * k) * TWO_POW_32;
    SameResidue(31 * p + c as int, 31 * h + c as int, 31 * k);
  }

  lemma PolynomialOfAppended(s: string, c: char)
    requires c as int < 0x1_0000
    ensures HashPolynomial(Utf16(s + [c])) == 31 * HashPolynomial(Utf16(s)) + c as int
  {
    var u := Utf16(s);
    assert (s + [c])[..|s|] == s;
    assert Utf16(s + [c]) == u + [c as int];
    assert (u + [c as int])[..|u|] == u;
  }

  /** A character outside the Basic Multilingual Plane is hashed as its two
      surrogates: U+1F600 gives 0xD83D * 31 + 0xDE00, not its code point. */
  lemma HashCodeOfSurrogatePair()
    ensures HashCode("\U{1F600}") == 0xD83D * 31 + 0xDE00 == 1772899
  {
    var u := Utf16("\U{1F600}");
    assert u == Utf16([]) + CodeUnits('\U{1F600}') == [0xD83D, 0xDE00];
    assert u[..1] == [0xD83D] && [0xD83D][..0] == [];
    assert HashPolynomial(u) == 31 * HashPolynomial([0xD83D]) + 0xDE00 == 1772899;
    assert 1772899 % TWO_POW_32 == 1772899;
  }

  lemma SameResidue(x: int, y: int, k: int)
    requires x - y == k * TWO_POW_32
    ensures ToInt32(x) == ToInt32(y)
  {
    assert x % TWO_POW_32 == y % TWO_POW_32 by {
      assert x == y + k * TWO_POW_32;
    }
  }

  /** Java's `/` on integers, which rounds toward zero (Dafny's `/` is Euclidean). */
  function TruncDiv(a: int, b: int): (q: int)
    requires b > 0
    ensures a >= 0 ==> q * b <= a < q * b + b
    ensures a < 0 ==> q * b - b < a <= q * b
  {
    if a >= 0 then a / b else -((-a) / b)
  }

  /** Java's `%` on integers: the remainder has the sign of the dividend. */
  function TruncRem(a: int, b: int): (r: int)
    requires b > 0
    ensures a == TruncDiv(a, b) * b + r
    ensures a >= 0 ==> 0 <= r < b
    ensures a < 0 ==> -b < r <= 0
  {
    a - TruncDiv(a, b) * b
  }
}
