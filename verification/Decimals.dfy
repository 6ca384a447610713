/** Decimal numerals: the digits of a number and the number they stand for. */
module Decimals {

  predicate Digits(ds: seq<nat>) {
    forall i :: 0 <= i < |ds| ==> ds[i] < 10
  }

  /** The number written as "0." and the digits. */
  function Fraction(digits: seq<nat>): (x: real)
    requires Digits(digits)
    ensures 0.0 <= x < 1.0
  {
    if digits == [] then 0.0 else (digits[0] as real + Fraction(digits[1..])) / 10.0
  }

  function StripZeros(digits: seq<nat>): (r: seq<nat>)
    ensures |r| <= |digits|
  {
    if digits == [] then []
    else
      var rest := StripZeros(digits[1..]);
      if rest == [] && digits[0] == 0 then [] else [digits[0]] + rest
  }

  lemma {:induction false} StrippedFraction(digits: seq<nat>)
    requires Digits(digits)
    ensures Fraction(digits) == 0.0 <==> StripZeros(digits) == []
  {
    if digits != [] {
      StrippedFraction(digits[1..]);
    }
  }

  lemma {:induction false} FractionsEqual(a: seq<nat>, b: seq<nat>)
    requires Digits(a) && Digits(b)
    ensures Fraction(a) == Fraction(b) <==> StripZeros(a) == StripZeros(b)
    decreases |a| + |b|
  {
    StrippedFraction(a);
    StrippedFraction(b);
    if a != [] && b != [] {
      FractionsEqual(a[1..], b[1..]);
      StrippedFraction(a[1..]);
      StrippedFraction(b[1..]);
      var (x, y) := (Fraction(a[1..]), Fraction(b[1..]));
      assert 10.0 * Fraction(a) == a[0] as real + x;
      assert 10.0 * Fraction(b) == b[0] as real + y;
      if Fraction(a) == Fraction(b) {
        assert a[0] == b[0];
      }
      if StripZeros(a) == StripZeros(b) && StripZeros(a) != [] {
        assert StripZeros(a)[1..] == StripZeros(a[1..]);
        assert StripZeros(b)[1..] == StripZeros(b[1..]);
      }
    }
  }

  // ------------------------------------------------------------------ numerals

  /** A decimal numeral as it is written: sign, digits before and digits after the point. */
  datatype Numeral = Numeral(negative: bool, whole: seq<nat>, fraction: seq<nat>)

  predicate IsNumeral(n: Numeral) {
    n.whole != [] && Digits(n.whole) && Digits(n.fraction)
  }

  function StripLeading(ds: seq<nat>): (r: seq<nat>)
    ensures Digits(ds) ==> Digits(r)
  {
    if ds != [] && ds[0] == 0 then StripLeading(ds[1..]) else ds
  }

  /** How a number with this value is written: no zeros in front or behind, no sign on zero. */
  function Canonical(n: Numeral): (r: Numeral)
  {
    var whole, fraction := StripLeading(n.whole), StripZeros(n.fraction);
    Numeral(n.negative && (whole != [] || fraction != []), if whole == [] then [0] else whole, fraction)
  }

  /** `parseInt`, written out again. */
  function IntegerPart(n: Numeral): (r: Numeral)
  {
    Canonical(n.(fraction := []))
  }

  function WholeValue(ds: seq<nat>): (v: nat)
  {
    if ds == [] then 0 else 10 * WholeValue(ds[..|ds| - 1]) + ds[|ds| - 1]
  }

  function Magnitude(n: Numeral): (x: real)
    requires IsNumeral(n)
  {
    WholeValue(n.whole) as real + Fraction(n.fraction)
  }

  function ValueOf(n: Numeral): (x: real)
    requires IsNumeral(n)
  {
    if n.negative then -Magnitude(n) else Magnitude(n)
  }

  lemma {:induction false} LeadingZeroIsNothing(ds: seq<nat>)
    requires ds != [] && ds[0] == 0
    ensures WholeValue(ds) == WholeValue(ds[1..])
  {
    if |ds| > 1 {
      var init := ds[..|ds| - 1];
      LeadingZeroIsNothing(init);
      assert init[1..] == ds[1..][..|ds| - 2];
    }
  }

  lemma {:induction false} StripLeadingKeepsValue(ds: seq<nat>)
    ensures WholeValue(StripLeading(ds)) == WholeValue(ds)
  {
    if ds != [] && ds[0] == 0 {
      LeadingZeroIsNothing(ds);
      StripLeadingKeepsValue(ds[1..]);
    }
  }

  lemma {:induction false} StrippedIsPositive(ds: seq<nat>)
    requires ds != [] && ds[0] != 0
    ensures WholeValue(ds) > 0
  {
    if |ds| > 1 {
      StrippedIsPositive(ds[..|ds| - 1]);
    }
  }

  lemma LastDigit(u: nat, a: nat, v: nat, b: nat)
    requires a < 10 && b < 10 && 10 * u + a == 10 * v + b
    ensures u == v && a == b
  {
  }

  lemma {:induction false} WholeDetermined(a: seq<nat>, b: seq<nat>)
    requires Digits(a) && Digits(b) && (a != [] ==> a[0] != 0) && (b != [] ==> b[0] != 0)
    requires WholeValue(a) == WholeValue(b)
    ensures a == b
  {
    if a != [] {
      StrippedIsPositive(a);
    }
    if b != [] {
      StrippedIsPositive(b);
    }
    if a != [] && b != [] {
      var (x, y) := (a[..|a| - 1], b[..|b| - 1]);
      LastDigit(WholeValue(x), a[|a| - 1], WholeValue(y), b[|b| - 1]);
      WholeDetermined(x, y);
      assert a == x + [a[|a| - 1]] && b == y + [b[|b| - 1]];
    }
  }

  lemma {:induction false} StrippedFirst(ds: seq<nat>)
    ensures StripLeading(ds) != [] ==> StripLeading(ds)[0] != 0
  {
    if ds != [] && ds[0] == 0 {
      StrippedFirst(ds[1..]);
    }
  }

  /** Two numerals stand for the same number exactly when their canonical forms are the same. */
  lemma CanonicalIffEqual(a: Numeral, b: Numeral)
    requires IsNumeral(a) && IsNumeral(b)
    ensures Canonical(a) == Canonical(b) <==> ValueOf(a) == ValueOf(b)
  {
    var (wa, wb) := (StripLeading(a.whole), StripLeading(b.whole));
    StripLeadingKeepsValue(a.whole);
    StripLeadingKeepsValue(b.whole);
    StrippedFirst(a.whole);
    StrippedFirst(b.whole);
    FractionsEqual(a.fraction, b.fraction);
    StrippedFraction(a.fraction);
    StrippedFraction(b.fraction);
    MagnitudesSplit(a, b);
    if WholeValue(wa) == WholeValue(wb) {
      WholeDetermined(wa, wb);
    }
    ZeroWhole(wa);
    ZeroWhole(wb);
    CanonicalParts(a, b);
  }

  lemma ZeroWhole(ds: seq<nat>)
    requires ds != [] ==> ds[0] != 0
    ensures WholeValue(ds) == 0 <==> ds == []
  {
    if ds != [] {
      StrippedIsPositive(ds);
    }
  }

  lemma MagnitudesSplit(a: Numeral, b: Numeral)
    requires IsNumeral(a) && IsNumeral(b)
    ensures Magnitude(a) == Magnitude(b) <==> WholeValue(a.whole) == WholeValue(b.whole) && Fraction(a.fraction) == Fraction(b.fraction)
    ensures Magnitude(a) >= 0.0 && (Magnitude(a) == 0.0 <==> WholeValue(a.whole) == 0 && Fraction(a.fraction) == 0.0)
    ensures Magnitude(b) >= 0.0 && (Magnitude(b) == 0.0 <==> WholeValue(b.whole) == 0 && Fraction(b.fraction) == 0.0)
  {
  }

  lemma CanonicalParts(a: Numeral, b: Numeral)
    ensures Canonical(a) == Canonical(b) <==>
      && StripLeading(a.whole) == StripLeading(b.whole) && StripZeros(a.fraction) == StripZeros(b.fraction)
      && (a.negative == b.negative || (StripLeading(a.whole) == [] && StripZeros(a.fraction) == []))
  {
    StrippedFirst(a.whole);
    StrippedFirst(b.whole);
  }

  lemma {:induction false} StripZerosTwice(ds: seq<nat>)
    ensures StripZeros(StripZeros(ds)) == StripZeros(ds)
  {
    if ds != [] {
      StripZerosTwice(ds[1..]);
      var r := StripZeros(ds);
      if r != [] {
        assert r[1..] == StripZeros(ds[1..]);
      }
    }
  }

  lemma CanonicalTwice(n: Numeral)
    ensures Canonical(Canonical(n)) == Canonical(n) && IntegerPart(IntegerPart(n)) == IntegerPart(n)
  {
    StrippedFirst(n.whole);
    StripZerosTwice(n.fraction);
    assert [0][1..] == [];
    assert StripLeading([0]) == [];
  }

  lemma {:induction false} StripZerosDigits(ds: seq<nat>)
    requires Digits(ds)
    ensures Digits(StripZeros(ds))
  {
    if ds != [] {
      StripZerosDigits(ds[1..]);
    }
  }

  /** Writing a number in normal form keeps its value. */
  lemma CanonicalKeepsValue(n: Numeral)
    requires IsNumeral(n)
    ensures IsNumeral(Canonical(n)) && ValueOf(Canonical(n)) == ValueOf(n)
  {
    StripZerosDigits(n.fraction);
    CanonicalTwice(n);
    CanonicalIffEqual(Canonical(n), n);
  }

  /** `parseInt` cuts towards zero. */
  lemma IntegerPartTruncates(n: Numeral)
    requires IsNumeral(n)
    ensures IsNumeral(IntegerPart(n)) && Magnitude(IntegerPart(n)) == Magnitude(n).Floor as real
    ensures IntegerPart(n).negative ==> n.negative
  {
    StripLeadingKeepsValue(n.whole);
    WholeOfZero();
    var whole := WholeValue(n.whole);
    assert WholeValue(IntegerPart(n).whole) == whole;
    assert IntegerPart(n).fraction == [];
    assert (whole as real + Fraction(n.fraction)).Floor == whole;
  }

  lemma WholeOfZero()
    ensures WholeValue([0]) == 0 && WholeValue([]) == 0
  {
    assert [0][..0] == [];
  }
}
