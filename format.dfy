/** Decimal text of integers and the rounding that printf's "%.f" conversion applies to a
    real value before printing it. The catalog's signature strings and the strings that
    the lookups compare against them are built from these pieces. */
module Format {

  predicate IsDigit(c: char) {
    '0' <= c <= '9'
  }

  predicate AllDigits(s: string) {
    forall i :: 0 <= i < |s| ==> IsDigit(s[i])
  }

  /** The character of the decimal digit d. */
  function DigitChar(d: int): char
    requires 0 <= d < 10
  {
    (48 + d) as char
  }

  /** The value of a decimal digit character. */
  function DigitValue(c: char): int
    requires IsDigit(c)
  {
    c as int - 48
  }

  /** Decimal text of a natural number, most significant digit first, no leading zeros. */
  function NatText(v: nat): string
    decreases v
  {
    if v < 10 then [DigitChar(v)] else NatText(v / 10) + [DigitChar(v % 10)]
  }

  lemma {:induction false} NatTextDigits(v: nat)
    ensures |NatText(v)| >= 1 && AllDigits(NatText(v))
  {
    if v >= 10 {
      NatTextDigits(v / 10);
    }
  }

  /** The number a string of decimal digits denotes: the inverse of NatText. */
  function NatValue(s: string): nat
    requires AllDigits(s)
  {
    if |s| == 0 then 0 else 10 * NatValue(s[..|s| - 1]) + DigitValue(s[|s| - 1])
  }

  lemma {:induction false} NatValueOfText(v: nat)
    ensures AllDigits(NatText(v)) && NatValue(NatText(v)) == v
  {
    NatTextDigits(v);
    if v >= 10 {
      var s := NatText(v);
      assert s[..|s| - 1] == NatText(v / 10);
      NatValueOfText(v / 10);
    }
  }

  /** Decimal text of an integer, with a leading '-' when it is negative: what "%.f"
      prints for a value that is already an integer. */
  function IntText(v: int): string {
    if v < 0 then "-" + NatText(-v) else NatText(v)
  }

  /** The text of an integer is never empty and holds neither ',' nor ']'. */
  lemma IntTextChars(v: int)
    ensures |IntText(v)| >= 1 && ',' !in IntText(v) && ']' !in IntText(v)
  {
    NatTextDigits(if v < 0 then -v else v);
    if v < 0 {
      assert IntText(v)[1..] == NatText(-v);
    }
  }

  /** The text starts with '-' exactly when the value is negative. */
  lemma IntTextSign(v: int)
    ensures (IntText(v)[0] == '-') == (v < 0)
  {
    if v >= 0 {
      NatTextDigits(v);
      assert IsDigit(NatText(v)[0]);
    }
  }

  lemma IntTextInjective(a: int, b: int)
    requires IntText(a) == IntText(b)
    ensures a == b
  {
    IntTextSign(a);
    IntTextSign(b);
    if a < 0 {
      assert NatText(-a) == IntText(a)[1..] == IntText(b)[1..] == NatText(-b);
      NatValueOfText(-a);
      NatValueOfText(-b);
    } else {
      NatValueOfText(a);
      NatValueOfText(b);
    }
  }

  /** One printed field followed by a comma and the rest of the text. */
  function Field(v: int, rest: string): string {
    IntText(v) + "," + rest
  }

  /** In a comma-free prefix followed by a comma, that comma is the first one. */
  lemma FirstComma(x: string, u: string)
    requires ',' !in x
    ensures (x + "," + u)[|x|] == ','
    ensures forall i :: 0 <= i < |x| ==> (x + "," + u)[i] != ','
  {
  }

  /** Two texts that are each a comma-free prefix followed by a comma are equal only if
      the prefixes and the remainders are equal. */
  lemma CommaSplit(x: string, u: string, y: string, w: string)
    requires ',' !in x && ',' !in y
    requires x + "," + u == y + "," + w
    ensures x == y && u == w
  {
    var s := x + "," + u;
    FirstComma(x, u);
    FirstComma(y, w);
    assert |x| == |y|;
    assert x == s[..|x|] == y;
    assert u == s[|x| + 1..] == w;
  }

  lemma FieldInjective(a: int, r: string, b: int, t: string)
    requires Field(a, r) == Field(b, t)
    ensures a == b && r == t
  {
    IntTextChars(a);
    IntTextChars(b);
    CommaSplit(IntText(a), r, IntText(b), t);
    IntTextInjective(a, b);
  }

  lemma LastFieldInjective(a: int, b: int)
    requires IntText(a) + "]" == IntText(b) + "]"
    ensures a == b
  {
    var s := IntText(a) + "]";
    IntTextChars(a);
    IntTextChars(b);
    assert IntText(a) == s[..|s| - 1] == IntText(b);
    IntTextInjective(a, b);
  }

  /** "%.f" applied to an exact real: the nearest integer, and the even one of the two
      nearest when x lies exactly half-way (round-half-to-even, the C library's default
      rounding mode). */
  function Round(x: real): (r: int)
    ensures -0.5 <= r as real - x <= 0.5
    ensures (r as real - x == 0.5 || r as real - x == -0.5) ==> r % 2 == 0
  {
    var f := x.Floor;
    var frac := x - f as real;
    if frac < 0.5 then f
    else if frac > 0.5 then f + 1
    else if f % 2 == 0 then f
    else f + 1
  }

  /** A value less than half a unit away from an integer rounds to that integer. */
  lemma RoundNear(x: real, v: int)
    requires -0.5 < x - v as real < 0.5
    ensures Round(x) == v
  {
    var r := Round(x);
    assert -1 < r - v < 1;
  }

  /** A negative value that rounds to zero, for which "%.f" prints "-0". */
  predicate NegativeZero(x: real) {
    x < 0.0 && Round(x) == 0
  }

  /** The text "%.f" prints for x. */
  function Printed(x: real): string {
    if NegativeZero(x) then "-0" else IntText(Round(x))
  }

  /** "-0" is not the text of any integer. */
  lemma MinusZeroIsNoIntText(v: int)
    ensures IntText(v) != "-0"
  {
    IntTextChars(v);
    IntTextSign(v);
    if v < 0 {
      NatValueOfText(-v);
      assert NatValue("0") == 0;
      assert IntText(v)[1..] == NatText(-v);
    }
  }

  /** The printed text of x is the text of the integer v exactly when x rounds to v and
      is not a negative zero. */
  lemma PrintedIsIntText(x: real, v: int)
    ensures Printed(x) == IntText(v) <==> !NegativeZero(x) && Round(x) == v
  {
    if NegativeZero(x) {
      MinusZeroIsNoIntText(v);
    } else if Printed(x) == IntText(v) {
      IntTextInjective(Round(x), v);
    }
  }

  /** One printed real field followed by a comma and the rest of the text. */
  function PrintedField(x: real, rest: string): string {
    Printed(x) + "," + rest
  }

  /** A printed real field matches a printed integer field exactly when the value prints as
      that integer and the remainders agree. */
  lemma PrintedFieldMatches(x: real, r: string, v: int, t: string)
    ensures PrintedField(x, r) == Field(v, t) <==> Printed(x) == IntText(v) && r == t
  {
    if PrintedField(x, r) == Field(v, t) {
      IntTextChars(v);
      if NegativeZero(x) {
        assert ',' !in Printed(x);
      } else {
        IntTextChars(Round(x));
      }
      CommaSplit(Printed(x), r, IntText(v), t);
    }
  }

  /** The last printed real field matches the last printed integer field exactly when the
      value prints as that integer. */
  lemma LastPrintedFieldMatches(x: real, v: int)
    ensures Printed(x) + "]" == IntText(v) + "]" <==> Printed(x) == IntText(v)
  {
    if Printed(x) + "]" == IntText(v) + "]" {
      var s := Printed(x) + "]";
      assert Printed(x) == s[..|s| - 1] == IntText(v);
    }
  }
}
