/**
 * The Newtonsoft converter for BitcoinValue: amounts travel as whole
 * satoshis written as raw integer text; anything but a long reads as zero.
 */
module BitcoinValueConverter {
  import opened Wrappers
  import opened Text
  import opened Errors
  import opened JsonTree
  import opened BitcoinValues

  /** `CanConvert(objectType)`. */
  function CanConvert(objectType: ClrType): (r: bool)
    ensures r <==> objectType == BitcoinValueType
  {
    objectType == BitcoinValueType
  }

  /** `ReadJson`: a long token is a satoshi count; every other token is Zero, never an error. */
  function ReadJson(value: TokenValue): (v: BitcoinValue)
    ensures value.LongValue? ==> v == FromSatoshis(value.n)
    ensures !value.LongValue? ==> v == Zero
  {
    match value
    case LongValue(satoshis) => FromSatoshis(satoshis)
    case _ => Zero
  }

  /**
   * `WriteJson`: the raw text written, the satoshi count for a BitcoinValue
   * and "0" for anything else; `Satoshis` can throw OverflowException.
   */
  function WriteJson(value: Object): (r: Result<string, Error>)
    ensures !value.BitcoinValueObject? ==> r == Ok("0")
    ensures value.BitcoinValueObject? ==>
              match Satoshis(value.value)
              case Ok(n) => r == Ok(IntToString(n))
              case Err(e) => r == Err(e)
  {
    match value
    case BitcoinValueObject(v) =>
      (match Satoshis(v)
       case Ok(n) => Ok(IntToString(n))
       case Err(e) => Err(e))
    case _ => Ok("0")
  }

  /** Reading back what WriteJson wrote; None when the text is not an integer literal. */
  function ReadWritten(text: string): Option<BitcoinValue>
  {
    match IntegerLiteralValue(text)
    case Some(value) => Some(ReadJson(value))
    case None => None
  }

  /** Writing FromSatoshis(s) and reading the text back yields a value Equal to FromSatoshis(s). */
  lemma RoundTrip(satoshis: int)
    requires InLong(satoshis)
    ensures WriteJson(BitcoinValueObject(FromSatoshis(satoshis))) == Ok(IntToString(satoshis))
    ensures ReadWritten(IntToString(satoshis)) == Some(FromSatoshis(satoshis))
    ensures Equals(ReadWritten(IntToString(satoshis)).value, Some(FromSatoshis(satoshis)))
  {
    SatoshisOfFromSatoshis(satoshis);
    IntegerLiteralOfIntToString(satoshis);
  }

  /**
   * Any value that can be written reads back truncated to whole satoshis, and
   * unchanged exactly when it is a whole number of satoshis.
   */
  lemma WriteThenRead(v: BitcoinValue)
    requires Satoshis(v).Ok?
    ensures WriteJson(BitcoinValueObject(v)).Ok?
    ensures ReadWritten(WriteJson(BitcoinValueObject(v)).value) == Some(FromSatoshis(Satoshis(v).value))
    ensures ReadWritten(WriteJson(BitcoinValueObject(v)).value) == Some(v) <==> v.btc % UnitsPerSatoshi == 0
  {
    var n := Satoshis(v).value;
    IntegerLiteralOfIntToString(n);
    FromSatoshisOfSatoshis(v);
  }
}

/**
 * The System.Text.Json converter for BitcoinValue: a number token that is a
 * whole long is a satoshi count, any other number is zero, and amounts are
 * written as a JSON number of satoshis.
 */
module NativeBitcoinValueConverter {
  import opened Wrappers
  import opened Text
  import opened Errors
  import opened JsonTree
  import opened BitcoinValues

  /**
   * `reader.TryGetInt64(out v)`: the whole number text of a number token when
   * it fits a long; other tokens make it throw InvalidOperationException.
   */
  function TryGetInt64(t: NativeToken): (r: Result<Option<int>, Error>)
    ensures r.Ok? <==> t.NumberToken?
    ensures t.NumberToken? ==> r == Ok(TryParseLong(t.text))
  {
    match t
    case NumberToken(text) => Ok(TryParseLong(text))
    case _ => Err(MismatchError(t, "number"))
  }

  /** `CanConvert(typeToConvert)`. */
  function CanConvert(typeToConvert: ClrType): (r: bool)
    ensures r <==> typeToConvert == BitcoinValueType
  {
    typeToConvert == BitcoinValueType
  }

  /**
   * `Read`, as the serializer applies it: a null token gives null without
   * calling the converter; a number that is a whole long is a satoshi count,
   * any other number (fractional, exponent, out of range) is Zero.
   */
  function Read(t: NativeToken): (r: Result<Option<BitcoinValue>, Error>)
    ensures t == NullToken ==> r == Ok(None)
    ensures t.NumberToken? && TryParseLong(t.text).Some? ==> r == Ok(Some(FromSatoshis(TryParseLong(t.text).value)))
    ensures t.NumberToken? && TryParseLong(t.text).None? ==> r == Ok(Some(Zero))
    ensures !t.NumberToken? && t != NullToken ==> r.Err? && r.error.InvalidOperation?
  {
    if t == NullToken then Ok(None)
    else
      match TryGetInt64(t)
      case Err(e) => Err(e)
      case Ok(Some(satoshis)) => Ok(Some(FromSatoshis(satoshis)))
      case Ok(None) => Ok(Some(Zero))
  }

  /** `Write`: the satoshi count as a number token, or OverflowException from `Satoshis`. */
  function Write(v: BitcoinValue): (r: Result<NativeToken, Error>)
    ensures r.Ok? <==> Satoshis(v).Ok?
    ensures r.Ok? ==> r.value == NumberToken(IntToString(Satoshis(v).value))
  {
    match Satoshis(v)
    case Ok(n) => Ok(NumberToken(IntToString(n)))
    case Err(e) => Err(e)
  }

  /** Write then Read of FromSatoshis(s) yields a value Equal to FromSatoshis(s). */
  lemma RoundTrip(satoshis: int)
    requires InLong(satoshis)
    ensures Write(FromSatoshis(satoshis)) == Ok(NumberToken(IntToString(satoshis)))
    ensures Read(Write(FromSatoshis(satoshis)).value) == Ok(Some(FromSatoshis(satoshis)))
    ensures Equals(Read(Write(FromSatoshis(satoshis)).value).value.value, Some(FromSatoshis(satoshis)))
  {
    SatoshisOfFromSatoshis(satoshis);
    TryParseLongOfIntToString(satoshis);
  }

  /** A number token written for any value reads back as that value truncated to whole satoshis. */
  lemma WriteThenRead(v: BitcoinValue)
    requires Satoshis(v).Ok?
    ensures Read(Write(v).value) == Ok(Some(FromSatoshis(Satoshis(v).value)))
  {
    TryParseLongOfIntToString(Satoshis(v).value);
  }
}

/**
 * The Newtonsoft converter behind `main_chain`: once the property holds true
 * it stays true, whatever later tokens say.
 */
module TrueTrumpsAll {
  import opened Wrappers
  import opened JsonTree

  /** `CanConvert(objectType)`. */
  function CanConvert(objectType: ClrType): (r: bool)
    ensures r <==> objectType == BooleanType
  {
    objectType == BooleanType
  }

  /**
   * `ReadJson`: an existing true wins; otherwise a boolean token gives its
   * value and anything else gives false.  The result is always a bool.
   */
  function ReadJson(existing: Option<bool>, value: TokenValue): (r: bool)
    ensures existing == Some(true) ==> r
    ensures existing != Some(true) && value.BoolValue? ==> r == value.b
    ensures existing != Some(true) && !value.BoolValue? ==> !r
  {
    if existing == Some(true) then true
    else
      match value
      case BoolValue(b) => b
      case _ => false
  }

  /** `WriteJson`: the boolean is written unchanged. */
  function WriteJson(value: bool): (j: Json)
    ensures ValueOf(j) == BoolValue(value)
  {
    JBool(value)
  }

  /** Reading what WriteJson wrote, with nothing set yet, gives the value back. */
  lemma WriteThenRead(value: bool)
    ensures ReadJson(None, ValueOf(WriteJson(value))) == value
  {
  }

  /** Reading a run of tokens into the same property, each result becoming the next existing value. */
  function ReadSequence(current: bool, values: seq<TokenValue>): bool
    decreases |values|
  {
    if |values| == 0 then current else ReadSequence(ReadJson(Some(current), values[0]), values[1..])
  }

  /** The property ends true exactly when it started true or some token was `true`: true is sticky. */
  lemma {:induction false} ReadSequenceSticky(current: bool, values: seq<TokenValue>)
    ensures ReadSequence(current, values) <==> current || BoolValue(true) in values
    decreases |values|
  {
    if |values| > 0 {
      ReadSequenceSticky(ReadJson(Some(current), values[0]), values[1..]);
      assert values == [values[0]] + values[1..];
    }
  }
}

/**
 * Which converter reads a BitcoinValue property: every such property names
 * BitcoinValueJsonConverter for Newtonsoft and NativeBitcoinValueJsonConverter
 * for System.Text.Json.
 */
module BitcoinValueProperties {
  import opened Wrappers
  import opened Text
  import opened Errors
  import opened JsonTree
  import opened BitcoinValues
  import BitcoinValueConverter
  import NativeBitcoinValueConverter

  /** The value a BitcoinValue property takes from a JSON value under each library. */
  function Read(library: Library, j: Json): (r: Result<Option<BitcoinValue>, Error>)
    ensures library == Newtonsoft ==> r == Ok(Some(BitcoinValueConverter.ReadJson(ValueOf(j))))
    ensures library == SystemTextJson ==> r == NativeBitcoinValueConverter.Read(NativeTokenOf(j))
  {
    match library
    case Newtonsoft => Ok(Some(BitcoinValueConverter.ReadJson(ValueOf(j))))
    case SystemTextJson => NativeBitcoinValueConverter.Read(NativeTokenOf(j))
  }

  /** Both libraries read a whole satoshi count that fits a long as that many satoshis. */
  lemma LibrariesAgreeOnLongs(satoshis: int)
    requires InLong(satoshis)
    ensures Read(Newtonsoft, JNum(satoshis)) == Ok(Some(FromSatoshis(satoshis)))
    ensures Read(SystemTextJson, JNum(satoshis)) == Ok(Some(FromSatoshis(satoshis)))
  {
    TryParseLongOfIntToString(satoshis);
  }

  /** A string amount is Zero for Newtonsoft but an error for System.Text.Json. */
  lemma LibrariesDisagreeOnStrings(s: string)
    ensures Read(Newtonsoft, JStr(s)) == Ok(Some(Zero))
    ensures Read(SystemTextJson, JStr(s)).Err?
  {
  }
}
