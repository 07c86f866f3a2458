/**
 * `DateTime` and `DateTimeOffset` at millisecond resolution.  An instant is
 * a whole number of milliseconds relative to 1970-01-01T00:00:00; the range
 * is that of .NET, 0001-01-01T00:00:00 to 9999-12-31T23:59:59.999.
 */
module DateTimes {
  import opened Wrappers
  import opened Errors

  const MinMillis: int := -62135596800000
  const MaxMillis: int := 253402300799999

  /** `AddMilliseconds` refuses any amount whose size reaches the whole range. */
  const MaxMillisToAdd: int := 315537897600000

  predicate InRange(ms: int) { MinMillis <= ms <= MaxMillis }

  type Millis = ms: int | InRange(ms)

  datatype Kind = Unspecified | Utc | Local

  /** Comparison and subtraction look at `ms` only; the kind is carried along. */
  datatype DateTime = DateTime(ms: Millis, kind: Kind)

  /** `DateTime.MinValue`, which is also `default(DateTime)`. */
  const MinValue: DateTime := DateTime(MinMillis, Unspecified)

  /** `t.AddMilliseconds(value)` for a whole number of milliseconds. */
  function AddMilliseconds(t: DateTime, value: int): (r: Result<DateTime, Error>)
    ensures r.Ok? <==> InRange(t.ms + value)
    ensures r.Ok? ==> r.value == DateTime(t.ms + value, t.kind)
    ensures r.Err? ==> r.error.ArgumentOutOfRange? && r.error.paramName == "value"
  {
    if value <= -MaxMillisToAdd || value >= MaxMillisToAdd then
      Err(ArgumentOutOfRange("value", AddValueOutOfRange))
    else if !InRange(t.ms + value) then
      Err(ArgumentOutOfRange("value", UnrepresentableDateTime))
    else
      Ok(DateTime(t.ms + value, t.kind))
  }

  /** A UTC offset is at most fourteen hours either way. */
  const MaxOffsetMinutes: int := 840
  const MillisPerMinute: int := 60000

  type OffsetMinutes = m: int | -MaxOffsetMinutes <= m <= MaxOffsetMinutes

  /** A `DateTimeOffset`: a UTC instant and the offset its clock time is shown at. */
  datatype DateTimeOffset = DateTimeOffset(utcMs: Millis, offsetMinutes: OffsetMinutes)

  /** The clock time an offset shows must itself lie in the DateTime range. */
  predicate ClockInRange(utcMs: int, offsetMinutes: int)
  {
    InRange(utcMs + offsetMinutes * MillisPerMinute)
  }

  /**
   * `utc.ToOffset(offset)`: the same instant shown at another offset; the
   * shifted clock time and the offset itself are range-checked.
   */
  function ToOffset(utcMs: Millis, offsetMinutes: int): (r: Result<DateTimeOffset, Error>)
    ensures r.Ok? <==> ClockInRange(utcMs, offsetMinutes) && -MaxOffsetMinutes <= offsetMinutes <= MaxOffsetMinutes
    ensures r.Ok? ==> r.value == DateTimeOffset(utcMs, offsetMinutes)
  {
    if !ClockInRange(utcMs, offsetMinutes) then
      Err(ArgumentOutOfRange("t", UnrepresentableDateTime))
    else if offsetMinutes < -MaxOffsetMinutes || offsetMinutes > MaxOffsetMinutes then
      Err(ArgumentOutOfRange("offset", OffsetOutOfRange))
    else
      Ok(DateTimeOffset(utcMs, offsetMinutes))
  }
}

/**
 * The Newtonsoft converter between DateTime and a Unix timestamp in seconds
 * (the default) or milliseconds, which rejects instants before its genesis
 * floor.
 */
module UnixDateTimeConverter {
  import opened Wrappers
  import opened Text
  import opened Errors
  import opened DateTimes
  import opened JsonTree

  const GenesisBlockUnixMillis: int := 1231006505000
  const GenesisBlockUnixSeconds: int := 1231006505

  /** `Epoch` once the type is initialised: 1970-01-01T00:00:00Z. */
  const Epoch: DateTime := DateTime(0, Utc)

  /** `ConvertFromMillis`: false (seconds) unless the constructor is given true. */
  datatype Unit = Seconds | Milliseconds

  function MillisPerUnit(unit: Unit): int
  {
    if unit == Milliseconds then 1 else 1000
  }

  /**
   * `UnixMillisToDateTime`: `epoch` plus the milliseconds, rejected (never
   * clamped) when earlier than `floor`, the `GenesisBlockDate` in force.
   */
  function UnixMillisToDateTime(epoch: DateTime, floor: DateTime, unixMillis: int): (r: Result<DateTime, Error>)
    ensures r.Ok? <==> InRange(epoch.ms + unixMillis) && epoch.ms + unixMillis >= floor.ms
    ensures r.Ok? ==> r.value == DateTime(epoch.ms + unixMillis, epoch.kind)
    ensures r.Err? && InRange(epoch.ms + unixMillis) ==> r.error == ArgumentOutOfRange("unixMillis", BeforeGenesisBlock)
  {
    match AddMilliseconds(epoch, unixMillis)
    case Err(e) => Err(e)
    case Ok(dateTime) =>
      if dateTime.ms < floor.ms then Err(ArgumentOutOfRange("unixMillis", BeforeGenesisBlock)) else Ok(dateTime)
  }

  /** `UnixSecondsToDateTime`: seconds scaled to milliseconds. */
  function UnixSecondsToDateTime(epoch: DateTime, floor: DateTime, unixSeconds: int): (r: Result<DateTime, Error>)
    ensures r == UnixMillisToDateTime(epoch, floor, unixSeconds * 1000)
  {
    UnixMillisToDateTime(epoch, floor, unixSeconds * 1000)
  }

  /**
   * `GenesisBlockDate` as the type initialiser computes it.  Static
   * initialisers run in textual order, so when this one runs `Epoch` and
   * `GenesisBlockDate` still hold `default(DateTime)`, which is MinValue.
   */
  function GenesisBlockDateAsWritten(): (r: Result<DateTime, Error>)
  {
    UnixSecondsToDateTime(MinValue, MinValue, GenesisBlockUnixSeconds)
  }

  /** The genesis floor with `Epoch` initialised first: 2009-01-03T18:15:05Z. */
  function GenesisBlockDateIntended(): (r: Result<DateTime, Error>)
  {
    UnixSecondsToDateTime(Epoch, MinValue, GenesisBlockUnixSeconds)
  }

  /**
   * The floor in force is 1231006505 s after 0001-01-01, in the year 40 and
   * far before 1970, instead of the genesis block's 2009-01-03T18:15:05Z.
   */
  lemma GenesisFloorAsWritten()
    ensures GenesisBlockDateAsWritten() == Ok(DateTime(-60904590295000, Unspecified))
    ensures GenesisBlockDateIntended() == Ok(DateTime(GenesisBlockUnixMillis, Utc))
    ensures GenesisBlockDateAsWritten().value.ms < 0 < GenesisBlockDateIntended().value.ms
  {
  }

  /** The floor the converter applies. */
  const GenesisFloor: DateTime := DateTime(-60904590295000, Unspecified)

  /** The floor the converter was meant to apply. */
  const IntendedGenesisFloor: DateTime := DateTime(GenesisBlockUnixMillis, Utc)

  /**
   * `reader.Value` as ReadJson classifies it: a whole number, which a long
   * token and a string that `double.TryParse` reads both become, or anything
   * else (null, a non-numeric string, a bool, a BigInteger), which is not a
   * double and reads as null.
   */
  datatype Timestamp = WholeNumber(n: int) | OtherToken

  /**
   * How ReadJson classifies `reader.Value`: a long is a number, and so is a
   * string that `double.TryParse` reads, as far as the model goes a string
   * in canonical integer form; null, a bool, a BigInteger and any other
   * string are not doubles and read as null.  (A floating-point token is not
   * modelled.)
   */
  function TimestampOf(v: TokenValue): (t: Timestamp)
    ensures v.LongValue? ==> t == WholeNumber(v.n)
    ensures v.NoValue? || v.BoolValue? || v.BigIntegerValue? ==> t == OtherToken
    ensures v.StringValue? ==> (t.WholeNumber? <==> CanonicalInteger(v.s).Some?)
    ensures v.StringValue? && t.WholeNumber? ==> v.s == IntToString(t.n)
  {
    match v
    case LongValue(n) => WholeNumber(n)
    case StringValue(s) =>
      (match CanonicalInteger(s)
       case Some(n) => WholeNumber(n)
       case None => OtherToken)
    case _ => OtherToken
  }

  /**
   * `ReadJson`: a number becomes `Epoch` plus that many seconds or
   * milliseconds, rejected below `floor`; anything else reads as null.
   */
  function ReadJson(unit: Unit, floor: DateTime, value: Timestamp): (r: Result<Option<DateTime>, Error>)
    ensures value.OtherToken? <==> r == Ok(None)
    ensures value.WholeNumber? && InRange(MillisPerUnit(unit) * value.n) && MillisPerUnit(unit) * value.n >= floor.ms ==>
              r == Ok(Some(DateTime(MillisPerUnit(unit) * value.n, Utc)))
    ensures value.WholeNumber? && InRange(MillisPerUnit(unit) * value.n) && MillisPerUnit(unit) * value.n < floor.ms ==>
              r == Err(ArgumentOutOfRange("unixMillis", BeforeGenesisBlock))
    ensures value.WholeNumber? && !InRange(MillisPerUnit(unit) * value.n) ==> r.Err?
  {
    if value.OtherToken? then Ok(None)
    else
      var converted := if unit == Milliseconds then UnixMillisToDateTime(Epoch, floor, value.n)
                       else UnixSecondsToDateTime(Epoch, floor, value.n);
      match converted
      case Ok(d) => Ok(Some(d))
      case Err(e) => Err(e)
  }

  /**
   * Seconds since the epoch as `double.ToString` prints a value with at most
   * three decimals: plain notation, '.' as the separator, no trailing zeros.
   */
  function SecondsText(ms: int): (s: string)
    ensures ms % 1000 == 0 ==> s == IntToString(ms / 1000)
  {
    var m := if ms < 0 then -ms else ms;
    var whole := NatToString(m / 1000);
    var fraction := m % 1000;
    var text := if fraction == 0 then whole
                else whole + "." + TrimTrailingZeros([DigitChar(fraction / 100), DigitChar(fraction / 10 % 10), DigitChar(fraction % 10)]);
    if ms < 0 then "-" + text else text
  }

  /**
   * `WriteJson`: the raw text written, seconds since `Epoch` (times 1000 in
   * millisecond mode); a value that is not a DateTime writes nothing.
   */
  function WriteJson(unit: Unit, value: Option<DateTime>): (r: Option<string>)
    ensures value.None? <==> r.None?
    ensures value.Some? && unit == Milliseconds ==> r == Some(IntToString(value.value.ms))
    ensures value.Some? && unit == Seconds ==> r == Some(SecondsText(value.value.ms))
  {
    match value
    case None => None
    case Some(dt) => Some(if unit == Milliseconds then IntToString(dt.ms - Epoch.ms) else SecondsText(dt.ms - Epoch.ms))
  }

  /**
   * What WriteJson writes reads back as the same instant, when it is not below
   * the floor and, in seconds mode, is a whole second.
   */
  lemma WriteThenRead(unit: Unit, floor: DateTime, dt: DateTime)
    requires dt.ms >= floor.ms
    requires unit == Seconds ==> dt.ms % 1000 == 0
    ensures var n := dt.ms / MillisPerUnit(unit);
            InLong(n) && WriteJson(unit, Some(dt)) == Some(IntToString(n))
            && ReadJson(unit, floor, WholeNumber(n)) == Ok(Some(DateTime(dt.ms, Utc)))
  {
  }

  /**
   * With the floor as written, instants between the year 40 and the genesis block
   * are accepted: Unix time 0 reads as 1970-01-01, which the intended floor
   * rejects.
   */
  lemma EpochAcceptedBelowGenesis()
    ensures ReadJson(Milliseconds, GenesisFloor, WholeNumber(0)) == Ok(Some(DateTime(0, Utc)))
    ensures ReadJson(Milliseconds, IntendedGenesisFloor, WholeNumber(0)) == Err(ArgumentOutOfRange("unixMillis", BeforeGenesisBlock))
    ensures ReadJson(Seconds, IntendedGenesisFloor, WholeNumber(GenesisBlockUnixSeconds)) == Ok(Some(IntendedGenesisFloor))
  {
  }

  /**
   * Under the intended floor, which is the genesis instant itself, a number
   * the converter can represent is accepted exactly when it is not before
   * the genesis block.
   */
  lemma IntendedFloorIsGenesis(unit: Unit, value: Timestamp)
    requires value.WholeNumber? && InRange(MillisPerUnit(unit) * value.n)
    ensures GenesisBlockDateIntended() == Ok(IntendedGenesisFloor)
    ensures ReadJson(unit, IntendedGenesisFloor, value).Ok? <==> MillisPerUnit(unit) * value.n >= GenesisBlockUnixMillis
  {
  }

  /** No instant the converter reads is `DateTime.MinValue`, under either floor. */
  lemma ReadNeverMinValue(unit: Unit, floor: DateTime, value: Timestamp)
    requires floor.ms >= GenesisFloor.ms
    requires ReadJson(unit, floor, value).Ok? && ReadJson(unit, floor, value).value.Some?
    ensures ReadJson(unit, floor, value).value.value.ms != MinValue.ms
  {
  }
}

/**
 * The System.Text.Json converter for DateTime that reads `Date(N)` or a bare
 * number of milliseconds and writes `/Date(N)/`.
 */
module UnixEpochDateTime {
  import opened Wrappers
  import opened Text
  import opened Errors
  import opened JsonTree
  import opened DateTimes

  /** `Epoch`: 1970-01-01T00:00:00 of unspecified kind. */
  const Epoch: DateTime := DateTime(0, Unspecified)

  /** The largest magnitude `GetDecimal` accepts: 2^96 - 1. */
  const DecimalMaxWhole: int := 79228162514264337593543950335

  /**
   * `IsNumeric`: every character is numeric.  Digits outside ASCII are left
   * out: they fail `long.TryParse` later whichever way they are classified.
   */
  predicate IsNumeric(s: string)
  {
    AllDigits(s)
  }

  /**
   * The digits captured by `^Date\([+-]*(\d+)\)$`: "Date(", any run of signs,
   * at least one digit, ")", and nothing else but a final "\n".
   */
  function MatchDate(s: string): (r: Option<string>)
    ensures r.Some? ==> |r.value| >= 1 && AllDigits(r.value)
  {
    var t := StripFinalNewline(s);
    if |t| >= 7 && t[..5] == "Date(" && t[|t| - 1] == ')' then
      var inner := t[5..|t| - 1];
      var k := LeadingSigns(inner);
      if k < |inner| && AllDigits(inner[k..]) then Some(inner[k..]) else None
    else None
  }

  /** Whatever MatchDate accepts has the shape the pattern describes. */
  lemma MatchDateSound(s: string) returns (signs: string)
    requires MatchDate(s).Some?
    ensures AllSigns(signs)
    ensures StripFinalNewline(s) == "Date(" + signs + MatchDate(s).value + ")"
  {
    var t := StripFinalNewline(s);
    var inner := t[5..|t| - 1];
    var k := LeadingSigns(inner);
    signs := inner[..k];
    var digits := inner[k..];
    assert MatchDate(s) == Some(digits);
    assert inner == signs + digits;
    assert t == "Date(" + inner + ")" by {
      Reassembled(t, 5, |t| - 1);
      assert t[|t| - 1..] == ")";
    }
    assert "Date(" + (signs + digits) + ")" == "Date(" + signs + digits + ")";
  }

  /** Every text of the pattern's shape is accepted, capturing exactly its digits. */
  lemma MatchDateComplete(s: string, signs: string, digits: string)
    requires AllSigns(signs) && |digits| >= 1 && AllDigits(digits)
    requires StripFinalNewline(s) == "Date(" + signs + digits + ")"
    ensures MatchDate(s) == Some(digits)
  {
    var t := StripFinalNewline(s);
    var inner := t[5..|t| - 1];
    assert inner == signs + digits;
    LeadingSignsOf(signs, digits);
    assert inner[|signs|..] == digits;
  }

  /** The text Read matches: a number or a numeric string is wrapped as "Date(...)". */
  function Wrapped(formatted: string): string
  {
    if IsNumeric(formatted) then "Date(" + formatted + ")" else formatted
  }

  /** Read's work once it has the text: match, parse the digits as a long, add to `Epoch`. */
  function ReadText(formatted: string): (r: Result<DateTime, Error>)
    ensures r.Ok? ==> MatchDate(Wrapped(formatted)).Some?
                      && TryParseLong(MatchDate(Wrapped(formatted)).value) == Some(r.value.ms)
    ensures r.Ok? ==> r.value.ms >= 0 && r.value.kind == Unspecified
  {
    match MatchDate(Wrapped(formatted))
    case None => Err(JsonFailure(DefaultJsonException))
    case Some(digits) => ReadDigits(digits)
  }

  /** The captured digits parsed as a long and added to `Epoch`. */
  function ReadDigits(digits: string): (r: Result<DateTime, Error>)
    requires AllDigits(digits)
    ensures r.Ok? ==> TryParseLong(digits) == Some(r.value.ms) && r.value.ms >= 0 && r.value.kind == Unspecified
  {
    match TryParseLong(digits)
    case None => Err(JsonFailure(DefaultJsonException))
    case Some(unixTime) =>
      assert unixTime == ParseDigits(digits);
      AddMilliseconds(Epoch, unixTime)
  }

  /**
   * A number token, as `GetDecimal().ToString()` formats it and Read then
   * reads it; `GetDecimal` throws FormatException beyond the decimal range.
   */
  function ReadNumber(text: string): (r: Result<DateTime, Error>)
    requires CanonicalInteger(text).Some?
    ensures r.Ok? ==> r.value.ms >= 0
  {
    var n := CanonicalInteger(text).value;
    if n < -DecimalMaxWhole || n > DecimalMaxWhole then
      Err(Format(DecimalOutOfBounds))
    else ReadText(text)
  }

  /**
   * `Read`: a number token is formatted by `GetDecimal().ToString()`, a
   * string token is taken as it is, a null string throws JsonException and any
   * other token cannot be read as a string.  Number tokens are integer
   * literals in this model.
   */
  function Read(t: NativeToken): (r: Result<DateTime, Error>)
    requires t.NumberToken? ==> CanonicalInteger(t.text).Some?
    ensures t.StringToken? ==> r == ReadText(t.s)
    ensures t == NullToken ==> r == Err(JsonFailure(DefaultJsonException))
    ensures !t.StringToken? && !t.NumberToken? && t != NullToken ==> r == Err(MismatchError(t, "string"))
    ensures r.Ok? ==> r.value.ms >= 0
  {
    match t
    case NumberToken(text) => ReadNumber(text)
    case StringToken(s) => ReadText(s)
    case NullToken => Err(JsonFailure(DefaultJsonException))
    case _ => Err(MismatchError(t, "string"))
  }

  /** `Write`: "/Date(N)/" with N the milliseconds since `Epoch`. */
  function Write(value: DateTime): (s: string)
    ensures s == "/Date(" + IntToString(value.ms) + ")/"
  {
    "/Date(" + IntToString(value.ms - Epoch.ms) + ")/"
  }

  /** A string "Date(signs digits)" reads as the digits parsed as a long, added to `Epoch`. */
  lemma ReadDateText(signs: string, digits: string)
    requires AllSigns(signs) && |digits| >= 1 && AllDigits(digits)
    ensures Read(StringToken("Date(" + signs + digits + ")")) == ReadDigits(digits)
  {
    var s := "Date(" + signs + digits + ")";
    assert Wrapped(s) == s by {
      assert !IsDigit(s[0]);
    }
    assert MatchDate(s) == Some(digits) by {
      assert StripFinalNewline(s) == s;
      MatchDateComplete(s, signs, digits);
    }
  }

  /** A string "Date(digits)" reads as the digits parsed as a long, added to `Epoch`. */
  lemma ReadUnsignedDateText(digits: string)
    requires |digits| >= 1 && AllDigits(digits)
    ensures Read(StringToken("Date(" + digits + ")")) == ReadDigits(digits)
  {
    var s := "Date(" + digits + ")";
    assert s == "Date(" + "" + digits + ")";
    assert Wrapped(s) == s by {
      assert !IsDigit(s[0]);
    }
    assert MatchDate(s) == Some(digits) by {
      assert StripFinalNewline(s) == s;
      MatchDateComplete(s, "", digits);
    }
  }

  /** Signs before the digits are discarded: "Date(-5)" reads as 5 ms after the epoch. */
  lemma SignsDiscarded(signs: string, digits: string)
    requires AllSigns(signs) && |digits| >= 1 && AllDigits(digits)
    ensures Read(StringToken("Date(" + signs + digits + ")")) == Read(StringToken("Date(" + digits + ")"))
  {
    ReadDateText(signs, digits);
    ReadUnsignedDateText(digits);
  }

  /** Read never accepts what Write produces, which starts with '/' instead of "Date(". */
  lemma ReadRejectsWrite(value: DateTime)
    ensures Read(StringToken(Write(value))) == Err(JsonFailure(DefaultJsonException))
  {
    var s := Write(value);
    assert s[0] == '/';
    assert !IsNumeric(s);
    assert StripFinalNewline(s) == s;
  }

  /** A bare non-negative number token is milliseconds since the epoch. */
  lemma NumberTokenRead(n: int)
    requires 0 <= n && InLong(n) && InRange(n)
    ensures CanonicalInteger(IntToString(n)) == Some(n)
    ensures Read(NumberToken(IntToString(n))) == Ok(DateTime(n, Unspecified))
  {
    IntegerLiteralOfIntToString(n);
    var text := IntToString(n);
    var wrapped := "Date(" + text + ")";
    assert Read(NumberToken(text)) == ReadText(text);
    assert Wrapped(text) == wrapped by {
      assert IsNumeric(text);
    }
    assert MatchDate(wrapped) == Some(text) by {
      assert StripFinalNewline(wrapped) == wrapped;
      assert wrapped == "Date(" + "" + text + ")";
      MatchDateComplete(wrapped, "", text);
    }
    assert ReadDigits(text) == Ok(DateTime(n, Unspecified)) by {
      TryParseLongOfIntToString(n);
    }
  }

  /** A negative number token is rejected: its text starts with '-', not "Date(". */
  lemma NegativeNumberRejected(n: int)
    requires n < 0 && InLong(n)
    ensures CanonicalInteger(IntToString(n)) == Some(n)
    ensures Read(NumberToken(IntToString(n))) == Err(JsonFailure(DefaultJsonException))
  {
    IntegerLiteralOfIntToString(n);
    var text := IntToString(n);
    assert Read(NumberToken(text)) == ReadText(text);
    assert text[0] == '-';
    assert Wrapped(text) == text by {
      assert !IsNumeric(text);
    }
    var t := StripFinalNewline(text);
    assert MatchDate(text).None? by {
      if |t| >= 7 {
        assert t[0] == text[0];
      }
    }
  }

  /** A digit run beyond the long range is rejected rather than wrapped. */
  lemma OverflowRejected(digits: string)
    requires |digits| >= 1 && AllDigits(digits) && ParseDigits(digits) > LongMax
    ensures Read(StringToken("Date(" + digits + ")")) == Err(JsonFailure(DefaultJsonException))
  {
    assert TryParseLong(digits).None? by {
      assert ParseSignedInteger(digits) == Some(ParseDigits(digits)) by {
        assert IsDigit(digits[0]);
      }
    }
    UnparsedRejected(digits);
  }

  /** A digit run that `long.TryParse` rejects makes Read throw JsonException. */
  lemma UnparsedRejected(digits: string)
    requires |digits| >= 1 && AllDigits(digits) && TryParseLong(digits).None?
    ensures Read(StringToken("Date(" + digits + ")")) == Err(JsonFailure(DefaultJsonException))
  {
    ReadUnsignedDateText(digits);
  }
}

/**
 * The System.Text.Json converter for DateTimeOffset that reads and writes
 * `/Date(N+hhmm)/` or `/Date(N-hhmm)/`.
 */
module UnixEpochDateTimeOffset {
  import opened Wrappers
  import opened Text
  import opened Errors
  import opened JsonTree
  import opened DateTimes
  import UnixEpochDateTime

  /** `Epoch`: 1970-01-01T00:00:00+00:00. */
  const Epoch: DateTime := DateTime(0, Utc)

  /** The groups of `^/Date\(([+-]*\d+)([+-])(\d{2})(\d{2})\)/$`. */
  datatype OffsetParts = OffsetParts(millis: string, sign: char, hours: string, minutes: string)

  /** The text whose groups are `p`: "/Date(", the groups in order, ")/". */
  function Compose(p: OffsetParts): string
  {
    "/Date(" + p.millis + [p.sign] + p.hours + p.minutes + ")/"
  }

  /** A run of signs followed by at least one digit. */
  predicate SignsThenDigits(s: string)
  {
    LeadingSigns(s) < |s| && AllDigits(s[LeadingSigns(s)..])
  }

  /**
   * The match: "/Date(", the millisecond group, one sign, four digits, ")/",
   * and nothing else but a final "\n".  The last five characters before ")/"
   * are the sign and the offset digits, so the groups are unique.
   */
  function MatchOffsetDate(s: string): (r: Option<OffsetParts>)
    ensures r.Some? ==> SignsThenDigits(r.value.millis) && IsSign(r.value.sign)
                        && |r.value.hours| == 2 && AllDigits(r.value.hours)
                        && |r.value.minutes| == 2 && AllDigits(r.value.minutes)
  {
    var t := StripFinalNewline(s);
    if |t| >= 14 && t[..6] == "/Date(" && t[|t| - 2..] == ")/" then
      var inner := t[6..|t| - 2];
      var n := |inner|;
      var millis := inner[..n - 5];
      if IsSign(inner[n - 5]) && AllDigits(inner[n - 4..]) && SignsThenDigits(millis) then
        Some(OffsetParts(millis, inner[n - 5], inner[n - 4..n - 2], inner[n - 2..]))
      else None
    else None
  }

  /** The last five characters of the inside of the match are the offset's groups. */
  lemma InnerGroups(inner: string)
    requires |inner| >= 5
    ensures var n := |inner|;
            inner == inner[..n - 5] + [inner[n - 5]] + inner[n - 4..n - 2] + inner[n - 2..]
  {
    var n := |inner|;
    assert inner[n - 5..n - 4] == [inner[n - 5]];
    Reassembled(inner, n - 5, n - 4);
    Reassembled(inner[n - 4..], 0, 2);
    assert inner[n - 4..] == inner[n - 4..n - 2] + inner[n - 2..];
  }

  /** Whatever MatchOffsetDate accepts has the shape the pattern describes. */
  lemma MatchOffsetDateSound(s: string)
    requires MatchOffsetDate(s).Some?
    ensures StripFinalNewline(s) == Compose(MatchOffsetDate(s).value)
  {
    var t := StripFinalNewline(s);
    var inner := t[6..|t| - 2];
    InnerGroups(inner);
    Reassembled(t, 6, |t| - 2);
  }

  /** Every text of the pattern's shape is accepted with exactly its groups. */
  lemma MatchOffsetDateComplete(s: string, p: OffsetParts)
    requires SignsThenDigits(p.millis) && IsSign(p.sign)
    requires |p.hours| == 2 && AllDigits(p.hours) && |p.minutes| == 2 && AllDigits(p.minutes)
    requires StripFinalNewline(s) == Compose(p)
    ensures MatchOffsetDate(s) == Some(p)
  {
    var t := StripFinalNewline(s);
    var inner := t[6..|t| - 2];
    assert inner == p.millis + [p.sign] + p.hours + p.minutes;
    var n := |inner|;
    assert inner[..n - 5] == p.millis;
    assert inner[n - 4..n - 2] == p.hours;
    assert inner[n - 2..] == p.minutes;
    assert inner[n - 4..] == p.hours + p.minutes;
  }

  /** The offset in minutes: the separator's sign times (hh hours + mm minutes). */
  function OffsetOf(p: OffsetParts): int
    requires AllDigits(p.hours) && AllDigits(p.minutes)
  {
    var size := ParseDigits(p.hours) * 60 + ParseDigits(p.minutes);
    if p.sign == '+' then size else -size
  }

  /** Read's work once the groups are matched: parse the milliseconds, add them to `Epoch`, shift to the offset. */
  function ReadParts(p: OffsetParts): (r: Result<DateTimeOffset, Error>)
    requires AllDigits(p.hours) && AllDigits(p.minutes)
    ensures r.Ok? ==> TryParseLong(p.millis) == Some(r.value.utcMs) && r.value.offsetMinutes == OffsetOf(p)
    ensures TryParseLong(p.millis).None? ==> r == Err(JsonFailure(DefaultJsonException))
  {
    match TryParseLong(p.millis)
    case None => Err(JsonFailure(DefaultJsonException))
    case Some(unixTime) =>
      match AddMilliseconds(Epoch, unixTime)
      case Err(e) => Err(e)
      case Ok(instant) => ToOffset(instant.ms, OffsetOf(p))
  }

  /** Read's work on the text of a string token. */
  function ReadString(formatted: string): (r: Result<DateTimeOffset, Error>)
    ensures MatchOffsetDate(formatted).None? ==> r == Err(JsonFailure(DefaultJsonException))
  {
    match MatchOffsetDate(formatted)
    case None => Err(JsonFailure(DefaultJsonException))
    case Some(p) => ReadParts(p)
  }

  /**
   * `Read`: only a string of the pattern's shape whose millisecond group is
   * a long with at most one sign is accepted; the instant is `Epoch` plus
   * that many milliseconds, and the offset only changes how it is shown.
   */
  function Read(t: NativeToken): (r: Result<DateTimeOffset, Error>)
    ensures t == NullToken ==> r == Err(JsonFailure(DefaultJsonException))
    ensures !t.StringToken? && t != NullToken ==> r == Err(MismatchError(t, "string"))
    ensures r.Ok? ==> t.StringToken? && MatchOffsetDate(t.s).Some?
                      && TryParseLong(MatchOffsetDate(t.s).value.millis) == Some(r.value.utcMs)
                      && r.value.offsetMinutes == OffsetOf(MatchOffsetDate(t.s).value)
  {
    match t
    case NullToken => Err(JsonFailure(DefaultJsonException))
    case StringToken(formatted) => ReadString(formatted)
    case _ => Err(MismatchError(t, "string"))
  }

  /**
   * `Write`: "/Date(N" then '+' when the offset is not negative and '-'
   * otherwise, the offset's hours and minutes as two digits each, then ")/".
   */
  function Write(value: DateTimeOffset): (s: string)
  {
    Compose(WrittenParts(value))
  }

  /** The groups Write emits. */
  function WrittenParts(value: DateTimeOffset): OffsetParts
  {
    var size := if value.offsetMinutes < 0 then -value.offsetMinutes else value.offsetMinutes;
    OffsetParts(IntToString(value.utcMs - Epoch.ms), if value.offsetMinutes >= 0 then '+' else '-',
                TwoDigits(size / 60), TwoDigits(size % 60))
  }

  /** The decimal text of a long is a run of signs then digits. */
  lemma IntToStringShape(n: int)
    ensures SignsThenDigits(IntToString(n))
  {
    var s := IntToString(n);
    if n < 0 {
      assert s == "-" + NatToString(-n);
      LeadingSignsOf("-", NatToString(-n));
      assert s[1..] == NatToString(-n);
    } else {
      assert s == "" + NatToString(n);
      LeadingSignsOf("", NatToString(n));
    }
  }

  /** A string of the pattern's shape reads as its groups say. */
  lemma ReadOffsetText(p: OffsetParts)
    requires SignsThenDigits(p.millis) && IsSign(p.sign)
    requires |p.hours| == 2 && AllDigits(p.hours) && |p.minutes| == 2 && AllDigits(p.minutes)
    ensures Read(StringToken(Compose(p))) == ReadParts(p)
  {
    var s := Compose(p);
    assert StripFinalNewline(s) == s;
    MatchOffsetDateComplete(s, p);
  }

  /** The groups Write emits: the instant's decimal text, then the offset's sign, hours and minutes. */
  lemma WrittenPartsShape(value: DateTimeOffset)
    ensures var p := WrittenParts(value);
            SignsThenDigits(p.millis) && IsSign(p.sign)
            && |p.hours| == 2 && AllDigits(p.hours) && |p.minutes| == 2 && AllDigits(p.minutes)
            && p.millis == IntToString(value.utcMs) && OffsetOf(p) == value.offsetMinutes
  {
    var p := WrittenParts(value);
    var size := if value.offsetMinutes < 0 then -value.offsetMinutes else value.offsetMinutes;
    assert ParseDigits(p.hours) * 60 + ParseDigits(p.minutes) == size;
    IntToStringShape(value.utcMs);
  }

  /** Groups holding a long's decimal text read as that instant at their offset. */
  lemma ReadPartsOfLong(p: OffsetParts, utcMs: Millis)
    requires AllDigits(p.hours) && AllDigits(p.minutes)
    requires p.millis == IntToString(utcMs)
    ensures ReadParts(p) == ToOffset(utcMs, OffsetOf(p))
  {
    assert InLong(utcMs) by { assert InRange(utcMs); }
    TryParseLongOfIntToString(utcMs);
    assert AddMilliseconds(Epoch, utcMs) == Ok(DateTime(utcMs, Utc));
  }

  /** What Write produces reads back as the same instant and offset, negative ones included. */
  lemma RoundTrip(value: DateTimeOffset)
    requires ClockInRange(value.utcMs, value.offsetMinutes)
    ensures Read(StringToken(Write(value))) == Ok(value)
  {
    var p := WrittenParts(value);
    WrittenPartsShape(value);
    ReadOffsetText(p);
    ReadPartsOfLong(p, value.utcMs);
  }

  /** A millisecond group with more than one sign, such as "+-5", is rejected. */
  lemma SeveralSignsRejected(s: string)
    requires MatchOffsetDate(s).Some? && LeadingSigns(MatchOffsetDate(s).value.millis) >= 2
    ensures Read(StringToken(s)) == Err(JsonFailure(DefaultJsonException))
  {
    var g := MatchOffsetDate(s).value.millis;
    assert IsSign(g[0]) && IsSign(g[1]) by {
      assert AllSigns(g[..LeadingSigns(g)]);
      assert g[..LeadingSigns(g)][0] == g[0] && g[..LeadingSigns(g)][1] == g[1];
    }
    assert !AllDigits(g) && !AllDigits(g[1..]) by {
      assert !IsDigit(g[0]) && !IsDigit(g[1..][0]);
    }
  }
}
