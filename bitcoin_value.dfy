/**
 * The monetary value type: an immutable amount of bitcoin held as a C#
 * `decimal`.  A decimal is modelled as a whole number of 10^-28 (the finest
 * scale a decimal has); arithmetic is exact except where the source divides,
 * which rounds to the nearest unit with ties to even, and every operation that
 * leaves the decimal range throws OverflowException.
 */
module BitcoinValues {
  import opened Wrappers
  import opened Text
  import opened Errors

  /** 10^28: the number of units in one. */
  const DecimalOne: int := 10_000_000_000_000_000_000_000_000_000

  /** `decimal.MaxValue` (2^96 - 1) in units. */
  const DecimalMax: int := 79228162514264337593543950335_0000000000000000000000000000

  predicate InDecimalRange(x: int)
  {
    -DecimalMax <= x <= DecimalMax
  }

  /** A C# decimal, as a count of 10^-28. */
  type Decimal = x: int | InDecimalRange(x)

  const BitsPerBitcoin: int := 1000000
  const MilliBitsPerBitcoin: int := 1000
  const SatoshisPerBitcoin: int := 100000000

  /** Units in one satoshi: 10^28 / 10^8. */
  const UnitsPerSatoshi: int := 100_000_000_000_000_000_000

  /**
   * `a / d` rounded to the nearest whole number, ties to even: how a decimal
   * quotient is cut back to 28 decimal places.
   */
  function DivideRounded(a: int, d: int): (q: int)
    requires d > 0
    ensures -d <= 2 * (a - q * d) <= d
    ensures 2 * (a - q * d) == d ==> q % 2 == 0
    ensures 2 * (a - q * d) == -d ==> q % 2 == 0
  {
    var q0 := a / d;
    var rem := a % d;
    assert a - q0 * d == rem;
    assert a - (q0 + 1) * d == rem - d;
    if 2 * rem > d || (2 * rem == d && q0 % 2 == 1) then q0 + 1 else q0
  }

  /** `a / d` truncated toward zero, as the `(long)` cast of a decimal truncates. */
  function TruncatedQuotient(a: int, d: int): (q: int)
    requires d > 0
    ensures 0 <= a ==> q * d <= a < (q + 1) * d
    ensures a < 0 ==> (q - 1) * d < a <= q * d
  {
    if a >= 0 then a / d
    else
      var m := -a;
      assert m / d * d <= m < (m / d + 1) * d;
      -(m / d)
  }

  /** The value object; `btc` is private and immutable. */
  datatype BitcoinValue = BitcoinValue(btc: Decimal)

  /** `BitcoinValue.Zero`. */
  const Zero: BitcoinValue := BitcoinValue(0)

  /** `FromBtc(btc)`, the same as the constructor. */
  function FromBtc(btc: Decimal): (v: BitcoinValue)
    ensures GetBtc(v) == btc
    ensures btc == 0 <==> v == Zero
  {
    BitcoinValue(btc)
  }

  /** `GetBtc()`. */
  function GetBtc(v: BitcoinValue): Decimal
  {
    v.btc
  }

  /** `Bits`: btc times one million, or OverflowException past the decimal range. */
  function Bits(v: BitcoinValue): (r: Result<Decimal, Error>)
    ensures r.Ok? <==> InDecimalRange(v.btc * BitsPerBitcoin)
    ensures r.Ok? ==> r.value == v.btc * BitsPerBitcoin
    ensures r.Err? ==> r.error == Overflow
  {
    var x := v.btc * BitsPerBitcoin;
    if InDecimalRange(x) then Ok(x) else Err(Overflow)
  }

  /** `MilliBits`: btc times one thousand, or OverflowException past the decimal range. */
  function MilliBits(v: BitcoinValue): (r: Result<Decimal, Error>)
    ensures r.Ok? <==> InDecimalRange(v.btc * MilliBitsPerBitcoin)
    ensures r.Ok? ==> r.value == v.btc * MilliBitsPerBitcoin
    ensures r.Err? ==> r.error == Overflow
  {
    var x := v.btc * MilliBitsPerBitcoin;
    if InDecimalRange(x) then Ok(x) else Err(Overflow)
  }

  /**
   * `Satoshis`: btc times 10^8 cast to long, which truncates toward zero and
   * throws OverflowException when the product or the whole part does not fit.
   */
  function Satoshis(v: BitcoinValue): (r: Result<int, Error>)
    ensures r.Ok? ==> InLong(r.value)
    ensures r.Ok? && v.btc >= 0 ==> r.value * DecimalOne <= v.btc * SatoshisPerBitcoin < (r.value + 1) * DecimalOne
    ensures r.Ok? && v.btc < 0 ==> (r.value - 1) * DecimalOne < v.btc * SatoshisPerBitcoin <= r.value * DecimalOne
    ensures r.Err? ==> r.error == Overflow
  {
    var scaled := v.btc * SatoshisPerBitcoin;
    if !InDecimalRange(scaled) then Err(Overflow)
    else
      var whole := TruncatedQuotient(scaled, DecimalOne);
      if InLong(whole) then Ok(whole) else Err(Overflow)
  }

  /** `FromBits(bits)`: bits divided by one million. */
  function FromBits(bits: Decimal): (v: BitcoinValue)
    ensures -BitsPerBitcoin <= 2 * (bits - v.btc * BitsPerBitcoin) <= BitsPerBitcoin
  {
    var q := DivideRounded(bits, BitsPerBitcoin);
    assert -1000000 <= 2 * bits - 2000000 * q <= 1000000;
    assert InDecimalRange(bits);
    BitcoinValue(q)
  }

  /** `FromMilliBits(mBtc)`: millibits divided by one thousand. */
  function FromMilliBits(mBtc: Decimal): (v: BitcoinValue)
    ensures -MilliBitsPerBitcoin <= 2 * (mBtc - v.btc * MilliBitsPerBitcoin) <= MilliBitsPerBitcoin
  {
    var q := DivideRounded(mBtc, MilliBitsPerBitcoin);
    assert -1000 <= 2 * mBtc - 2000 * q <= 1000;
    assert InDecimalRange(mBtc);
    BitcoinValue(q)
  }

  /** `FromSatoshis(satoshis)`: a long count of satoshis divided by 10^8, which is exact. */
  function FromSatoshis(satoshis: int): (v: BitcoinValue)
    requires InLong(satoshis)
    ensures v.btc * SatoshisPerBitcoin == satoshis * DecimalOne
  {
    BitcoinValue(satoshis * UnitsPerSatoshi)
  }

  /** `x + y`: a new value holding the exact sum, or OverflowException. */
  function Plus(x: BitcoinValue, y: BitcoinValue): (r: Result<BitcoinValue, Error>)
    ensures r.Ok? <==> InDecimalRange(x.btc + y.btc)
    ensures r.Ok? ==> r.value.btc == x.btc + y.btc
    ensures r.Err? ==> r.error == Overflow
  {
    var s := x.btc + y.btc;
    if InDecimalRange(s) then Ok(BitcoinValue(s)) else Err(Overflow)
  }

  /** `x - y`: a new value holding the exact difference, or OverflowException. */
  function Minus(x: BitcoinValue, y: BitcoinValue): (r: Result<BitcoinValue, Error>)
    ensures r.Ok? <==> InDecimalRange(x.btc - y.btc)
    ensures r.Ok? ==> r.value.btc == x.btc - y.btc
    ensures r.Err? ==> r.error == Overflow
  {
    var d := x.btc - y.btc;
    if InDecimalRange(d) then Ok(BitcoinValue(d)) else Err(Overflow)
  }

  /** `Equals(BitcoinValue? other)`: equal amounts; false against null. */
  predicate Equals(v: BitcoinValue, other: Option<BitcoinValue>)
  {
    other.Some? && v.btc == other.value.btc
  }

  /** What `Equals(object? obj)` may be handed. */
  datatype Object = NullObject | BitcoinValueObject(value: BitcoinValue) | OtherObject

  /** `Equals(object? obj)`: only another BitcoinValue can be equal. */
  predicate EqualsObject(v: BitcoinValue, obj: Object)
  {
    obj.BitcoinValueObject? && Equals(v, Some(obj.value))
  }

  /** Equality is exact equality of the amounts, and false against anything but a value. */
  lemma EqualsIsValueEquality(v: BitcoinValue, other: Option<BitcoinValue>, obj: Object)
    ensures Equals(v, other) <==> other == Some(v)
    ensures EqualsObject(v, obj) <==> obj == BitcoinValueObject(v)
    ensures !Equals(v, None) && !EqualsObject(v, NullObject) && !EqualsObject(v, OtherObject)
  {
  }

  /** The headline round trip: a long count of satoshis survives FromSatoshis then Satoshis. */
  lemma SatoshisOfFromSatoshis(satoshis: int)
    requires InLong(satoshis)
    ensures Satoshis(FromSatoshis(satoshis)) == Ok(satoshis)
  {
    var v := FromSatoshis(satoshis);
    assert v.btc * SatoshisPerBitcoin == satoshis * DecimalOne;
    assert TruncatedQuotient(satoshis * DecimalOne, DecimalOne) == satoshis;
  }

  /** The other direction: a value comes back from its satoshi count exactly when it is a whole number of satoshis. */
  lemma FromSatoshisOfSatoshis(v: BitcoinValue)
    requires Satoshis(v).Ok?
    ensures FromSatoshis(Satoshis(v).value) == v <==> v.btc % UnitsPerSatoshi == 0
  {
    var n := Satoshis(v).value;
    if v.btc % UnitsPerSatoshi == 0 {
      var k := v.btc / UnitsPerSatoshi;
      assert v.btc == k * UnitsPerSatoshi;
      assert v.btc * SatoshisPerBitcoin == k * DecimalOne;
      assert n == k;
    }
  }

  /** Distinct satoshi counts give values that are not Equal. */
  lemma FromSatoshisInjective(s: int, t: int)
    requires InLong(s) && InLong(t)
    ensures Equals(FromSatoshis(s), Some(FromSatoshis(t))) <==> s == t
  {
  }

  /** Converting to bits and back is the identity whenever Bits does not overflow. */
  lemma FromBitsOfBits(v: BitcoinValue)
    requires Bits(v).Ok?
    ensures FromBits(Bits(v).value) == v
  {
    var b := Bits(v).value;
    var q := DivideRounded(b, BitsPerBitcoin);
    assert -BitsPerBitcoin <= 2 * (v.btc - q) * BitsPerBitcoin <= BitsPerBitcoin;
  }

  /** Converting to millibits and back is the identity whenever MilliBits does not overflow. */
  lemma FromMilliBitsOfMilliBits(v: BitcoinValue)
    requires MilliBits(v).Ok?
    ensures FromMilliBits(MilliBits(v).value) == v
  {
    var b := MilliBits(v).value;
    var q := DivideRounded(b, MilliBitsPerBitcoin);
    assert -MilliBitsPerBitcoin <= 2 * (v.btc - q) * MilliBitsPerBitcoin <= MilliBitsPerBitcoin;
  }

  /** One bitcoin is a million bits, a thousand millibits and 10^8 satoshis. */
  lemma OneBitcoin()
    ensures Bits(FromBtc(DecimalOne)) == Ok(BitsPerBitcoin * DecimalOne)
    ensures MilliBits(FromBtc(DecimalOne)) == Ok(MilliBitsPerBitcoin * DecimalOne)
    ensures Satoshis(FromBtc(DecimalOne)) == Ok(SatoshisPerBitcoin)
    ensures FromSatoshis(SatoshisPerBitcoin) == FromBtc(DecimalOne)
  {
    assert TruncatedQuotient(SatoshisPerBitcoin * DecimalOne, DecimalOne) == SatoshisPerBitcoin;
  }

  /** Subtraction undoes addition, and addition is commutative. */
  lemma MinusUndoesPlus(x: BitcoinValue, y: BitcoinValue)
    requires Plus(x, y).Ok?
    ensures Minus(Plus(x, y).value, y) == Ok(x)
    ensures Plus(y, x) == Plus(x, y)
  {
  }

  /** The digits of a fraction of one, at 28 places, without trailing zeros. */
  function FractionText(f: nat): (s: string)
    requires f < DecimalOne
    ensures f == 0 <==> s == ""
  {
    if f == 0 then ""
    else
      var digits := NatToString(f);
      var padded := if |digits| < 28 then Zeros(28 - |digits|) + digits else digits;
      "." + TrimTrailingZeros(padded)
  }

  /** A whole negative amount is the negation of a whole positive one. */
  lemma NegatedWhole(x: int)
    requires x < 0 && x % DecimalOne == 0
    ensures (-x) % DecimalOne == 0 && (-x) / DecimalOne == -(x / DecimalOne)
  {
    var q := x / DecimalOne;
    assert x == q * DecimalOne;
    assert -x == (-q) * DecimalOne;
  }

  /**
   * `ToString()`: the amount in plain decimal notation with '.' as the
   * separator; a whole amount has no fractional part.
   */
  function ToString(v: BitcoinValue): (s: string)
    ensures v.btc % DecimalOne == 0 ==> s == IntToString(v.btc / DecimalOne)
    ensures 0 < |s| && (s[0] == '-' <==> v.btc < 0)
  {
    var m: nat := if v.btc < 0 then -v.btc else v.btc;
    var whole := NatToString(m / DecimalOne);
    var fraction := FractionText(m % DecimalOne);
    assert whole[0] != '-' by {
      assert IsDigit(whole[0]);
    }
    assert v.btc % DecimalOne == 0 ==> fraction == "" && whole == NatToString(if v.btc < 0 then -(v.btc / DecimalOne) else v.btc / DecimalOne) by {
      if v.btc % DecimalOne == 0 && v.btc < 0 {
        NegatedWhole(v.btc);
      }
    }
    var text := whole + fraction;
    if v.btc < 0 then "-" + text else text
  }
}
