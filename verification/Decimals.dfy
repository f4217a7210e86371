/**
  Python's `Decimal` as far as the normalizer uses it: reading from text, writing
  to text, and division by one hundred.  Finite numbers, ASCII digits, no limit
  on the exponent or the number of digits.
 */
module Decimals {
  import opened Common
  import opened Text

  /** (-1)^neg * coeff * 10^exp; zero keeps its sign, and 1.0 differs from 1.00. */
  datatype Dec = Dec(neg: bool, coeff: nat, exp: int)

  // --- value -------------------------------------------------------------------------

  function TenTo(e: int): (p: real)
    ensures p > 0.0
    decreases if e >= 0 then e else -e
  {
    if e == 0 then 1.0 else if e > 0 then TenTo(e - 1) * 10.0 else TenTo(e + 1) / 10.0
  }

  lemma TenToNext(e: int)
    ensures TenTo(e + 1) == TenTo(e) * 10.0
  {
  }

  function Scaled(k: int, exp: int): real
  {
    k as real * TenTo(exp)
  }

  function Signed(d: Dec): int
  {
    var k: int := d.coeff;
    if d.neg then -k else k
  }

  function Value(d: Dec): real
  {
    Scaled(Signed(d), d.exp)
  }

  lemma ScaledNext(k: int, exp: int)
    ensures Scaled(k * 10, exp) == Scaled(k, exp + 1) == Scaled(k, exp) * 10.0
  {
    TenToNext(exp);
    var t, r := TenTo(exp), k as real;
    assert (k * 10) as real == r * 10.0;
    assert r * 10.0 * t == r * (t * 10.0);
  }

  /** `d / 100`, exact, with the exponent kept as near d's as the digits allow. */
  function Hundredth(d: Dec): Dec
  {
    if d.coeff % 100 == 0 then Dec(d.neg, d.coeff / 100, d.exp)
    else if d.coeff % 10 == 0 then Dec(d.neg, d.coeff / 10, d.exp - 1)
    else Dec(d.neg, d.coeff, d.exp - 2)
  }

  lemma HundredthValue(d: Dec)
    ensures Value(Hundredth(d)) * 100.0 == Value(d)
  {
    hide Scaled;
    var k := Signed(d);
    if d.coeff % 100 == 0 {
      var h := Signed(Hundredth(d));
      assert k == h * 10 * 10;
      ScaledNext(h, d.exp);
      ScaledNext(h * 10, d.exp);
    } else if d.coeff % 10 == 0 {
      var h := Signed(Hundredth(d));
      assert k == h * 10;
      ScaledNext(h, d.exp);
      ScaledNext(h, d.exp - 1);
    } else {
      ScaledNext(k, d.exp - 1);
      ScaledNext(k, d.exp - 2);
    }
  }

  // --- text --------------------------------------------------------------------------

  function Sign(neg: bool): string
  {
    if neg then "-" else ""
  }

  function TakeSign(s: string): (bool, string)
  {
    if s != "" && s[0] in {'+', '-'} then (s[0] == '-', s[1..]) else (false, s)
  }

  function ReadExponent(text: Option<string>): Option<int>
  {
    if text.None? then Some(0)
    else
      var (neg, digits) := TakeSign(text.value);
      if digits == "" || !AllDigits(digits) then None
      else
        var e: int := NatOf(digits);
        Some(if neg then -e else e)
  }

  function Assemble(neg: bool, whole: string, frac: string, e: Option<int>): Option<Dec>
  {
    if whole + frac == "" || !AllDigits(whole + frac) || e.None? then None
    else Some(Dec(neg, NatOf(whole + frac), e.value - |frac|))
  }

  /** Absent parts count as empty. */
  function Fraction(frac: Option<string>): string
  {
    if frac.Some? then frac.value else ""
  }

  function Power(e: Option<int>): int
  {
    if e.Some? then e.value else 0
  }

  function ReadUnsigned(neg: bool, body: string): Option<Dec>
  {
    var (mantissa, exponent) := Cut(body, {'e', 'E'});
    var (whole, fraction) := Cut(mantissa, {'.'});
    Assemble(neg, whole, Fraction(fraction), ReadExponent(exponent))
  }

  /** `Decimal(text)`, None where it raises. */
  function ReadDecimal(text: string): Option<Dec>
  {
    var (neg, body) := TakeSign(Drop(text, {'_'}));
    ReadUnsigned(neg, body)
  }

  function Exponent(e: int): string
  {
    (if e < 0 then "-" else "+") + Digits(if e < 0 then -e else e)
  }

  function Mantissa(whole: string, frac: Option<string>): string
  {
    if frac.Some? then whole + ['.'] + frac.value else whole
  }

  function Written(neg: bool, whole: string, frac: Option<string>, e: Option<int>): string
  {
    Sign(neg) + if e.Some? then Mantissa(whole, frac) + ['E'] + Exponent(e.value) else Mantissa(whole, frac)
  }

  /** `str(d)`: plain notation down to six leading zeros, scientific otherwise. */
  function Str(d: Dec): string
  {
    var digits := Digits(d.coeff);
    var n := |digits|;
    var left := d.exp + n;
    if d.exp <= 0 && left > -6 then
      if left <= 0 then Written(d.neg, "0", Some(Zeros(-left) + digits), None)
      else if left == n then Written(d.neg, digits, None, None)
      else Written(d.neg, digits[..left], Some(digits[left..]), None)
    else
      var e := if left == 1 then None else Some(left - 1);
      if n == 1 then Written(d.neg, digits, None, e)
      else Written(d.neg, digits[..1], Some(digits[1..]), e)
  }

  /** The characters of written numbers. */
  predicate Numeric(s: string)
  {
    forall c :: c in s ==> IsDigit(c) || c in {'+', '-', '.', 'E'}
  }

  predicate WellFormed(whole: string, frac: Option<string>)
  {
    whole != "" && AllDigits(whole) && (frac.Some? ==> AllDigits(frac.value))
  }

  lemma NumericConcat(a: string, b: string)
    requires Numeric(a) && Numeric(b)
    ensures Numeric(a + b)
  {
    forall c | c in a + b ensures IsDigit(c) || c in {'+', '-', '.', 'E'} {
      assert c in a || c in b;
    }
  }

  lemma MantissaParts(whole: string, frac: Option<string>)
    requires WellFormed(whole, frac)
    ensures Cut(Mantissa(whole, frac), {'.'}) == (whole, frac)
    ensures Numeric(Mantissa(whole, frac)) && Free(Mantissa(whole, frac), {'e', 'E'})
  {
    if frac.Some? {
      CutAt(whole, '.', frac.value, {'.'});
      NumericConcat(whole, ['.']);
      NumericConcat(whole + ['.'], frac.value);
      forall c | c in Mantissa(whole, frac) ensures c !in {'e', 'E'} {
        assert c in whole || c == '.' || c in frac.value;
      }
    } else {
      CutFree(whole, {'.'});
    }
  }

  lemma ExponentReads(e: int)
    ensures Numeric(Exponent(e)) && ReadExponent(Some(Exponent(e))) == Some(e)
  {
    var sign, digits := if e < 0 then "-" else "+", Digits(if e < 0 then -e else e);
    NumericConcat(sign, digits);
    assert Exponent(e)[1..] == digits;
  }

  lemma BodyParts(whole: string, frac: Option<string>, e: Option<int>)
    requires WellFormed(whole, frac)
    ensures var body := Written(false, whole, frac, e);
      && Numeric(body) && body != "" && body[0] == whole[0]
      && Cut(body, {'e', 'E'}) == (Mantissa(whole, frac), if e.Some? then Some(Exponent(e.value)) else None)
  {
    var mantissa := Mantissa(whole, frac);
    var body := Written(false, whole, frac, e);
    MantissaParts(whole, frac);
    if e.Some? {
      ExponentReads(e.value);
      CutAt(mantissa, 'E', Exponent(e.value), {'e', 'E'});
      assert body == mantissa + ['E'] + Exponent(e.value);
      NumericConcat(mantissa, ['E']);
      NumericConcat(mantissa + ['E'], Exponent(e.value));
    } else {
      assert body == mantissa;
      CutFree(mantissa, {'e', 'E'});
    }
  }

  lemma TakeSignOf(neg: bool, body: string)
    requires body != "" && body[0] !in {'+', '-'}
    ensures TakeSign(Sign(neg) + body) == (neg, body)
  {
    assert "" + body == body;
  }

  lemma UnsignedReads(neg: bool, whole: string, frac: Option<string>, e: Option<int>)
    requires WellFormed(whole, frac)
    ensures ReadUnsigned(neg, Written(false, whole, frac, e)) == Assemble(neg, whole, Fraction(frac), Some(Power(e)))
  {
    BodyParts(whole, frac, e);
    MantissaParts(whole, frac);
    if e.Some? {
      ExponentReads(e.value);
    }
    assert ReadExponent(None) == Some(0);
    hide Written, Mantissa, Exponent, Cut, ReadExponent, Assemble;
  }

  lemma SignedReads(neg: bool, body: string)
    requires Numeric(body) && body != "" && body[0] !in {'+', '-'}
    ensures ReadDecimal(Sign(neg) + body) == ReadUnsigned(neg, body) && Numeric(Sign(neg) + body)
  {
    hide ReadUnsigned, Drop, TakeSign;
    TakeSignOf(neg, body);
    assert Numeric(Sign(neg));
    hide Sign;
    NumericConcat(Sign(neg), body);
    DropFree(Sign(neg) + body, {'_'});
  }

  lemma WrittenSigned(neg: bool, whole: string, frac: Option<string>, e: Option<int>)
    ensures Written(neg, whole, frac, e) == Sign(neg) + Written(false, whole, frac, e)
  {
    var body := if e.Some? then Mantissa(whole, frac) + ['E'] + Exponent(e.value) else Mantissa(whole, frac);
    assert "" + body == body;
  }

  /** What was written as these parts is read as the number they spell. */
  lemma {:induction false} ReadWritten(neg: bool, whole: string, frac: Option<string>, e: Option<int>)
    requires WellFormed(whole, frac)
    ensures Numeric(Written(neg, whole, frac, e)) && AllDigits(whole + Fraction(frac))
    ensures ReadDecimal(Written(neg, whole, frac, e))
      == Some(Dec(neg, NatOf(whole + Fraction(frac)), Power(e) - |Fraction(frac)|))
  {
    hide *;
    var body := Written(false, whole, frac, e);
    WrittenSigned(neg, whole, frac, e);
    BodyParts(whole, frac, e);
    UnsignedReads(neg, whole, frac, e);
    assert body[0] !in {'+','-'} by { FirstDigit(whole,frac); }
    SignedReads(neg, body);
    AssembleDigits(neg, whole, frac, Power(e));
  }

  lemma FirstDigit(whole: string, frac: Option<string>)
    requires WellFormed(whole, frac)
    ensures whole[0] !in {'+','-'}
  {
    assert whole[0] in whole;
  }

  lemma {:induction false} AssembleDigits(neg: bool, whole: string, frac: Option<string>, e: int)
    requires WellFormed(whole, frac)
    ensures AllDigits(whole + Fraction(frac))
    ensures Assemble(neg, whole, Fraction(frac), Some(e))
      == Some(Dec(neg, NatOf(whole + Fraction(frac)), e - |Fraction(frac)|))
  {
    DigitsConcat(whole, Fraction(frac));
  }

  lemma {:induction false} WrittenPoint(neg: bool, whole: string, frac: string)
    requires whole != "" && AllDigits(whole) && AllDigits(frac)
    ensures Written(neg, whole, Some(frac), None) == Sign(neg) + (whole + ['.'] + frac)
    ensures WellFormed(whole, Some(frac)) && Fraction(Some(frac)) == frac && Power(None) == 0
    ensures AllDigits(whole + frac)
  {
    hide Sign, Exponent;
  }

  lemma {:induction false} ReadPoint(neg: bool, whole: string, frac: string)
    requires whole != "" && AllDigits(whole) && AllDigits(frac)
    ensures AllDigits(whole + frac)
    ensures ReadDecimal(Sign(neg) + whole + ['.'] + frac) == Some(Dec(neg, NatOf(whole + frac), -|frac|))
  {
    WrittenPoint(neg, whole, frac);
    hide *;
    ReadWritten(neg, whole, Some(frac), None);
    Regroup(Sign(neg), whole, ['.'], frac);
  }

  lemma {:induction false} ReadWhole(neg: bool, whole: string)
    requires whole != "" && AllDigits(whole)
    ensures ReadDecimal(Sign(neg) + whole) == Some(Dec(neg, NatOf(whole), 0))
  {
    assert Written(neg, whole, None, None) == Sign(neg) + whole;
    assert WellFormed(whole, None) && Fraction(None) == "" && Power(None) == 0;
    hide *;
    ReadWritten(neg, whole, None, None);
    assert whole + "" == whole;
  }

  /** Every decimal survives being stored as text, digit for digit. */
  lemma StrRoundTrip(d: Dec)
    ensures ReadDecimal(Str(d)) == Some(d) && Numeric(Str(d))
  {
    hide ReadDecimal, Written, NatOf, Digits;
    var digits := Digits(d.coeff);
    var n := |digits|;
    var left := d.exp + n;
    if d.exp <= 0 && left > -6 {
      if left <= 0 {
        DigitsConcat(Zeros(-left), digits);
        LeadingZeros(-left, digits);
        OneZero(Zeros(-left) + digits);
        ReadWritten(d.neg, "0", Some(Zeros(-left) + digits), None);
      } else if left == n {
        assert digits + "" == digits;
        ReadWritten(d.neg, digits, None, None);
      } else {
        assert digits[..left] + digits[left..] == digits;
        ReadWritten(d.neg, digits[..left], Some(digits[left..]), None);
      }
    } else {
      var e := if left == 1 then None else Some(left - 1);
      if n == 1 {
        assert digits + "" == digits;
        ReadWritten(d.neg, digits, None, e);
      } else {
        assert digits[..1] + digits[1..] == digits;
        ReadWritten(d.neg, digits[..1], Some(digits[1..]), e);
      }
    }
  }

  lemma {:induction false} OneZero(s: string)
    requires AllDigits(s)
    ensures AllDigits("0" + s) && NatOf("0" + s) == NatOf(s)
  {
    LeadingZeros(1, s);
    assert Zeros(1) == "0";
  }
}
