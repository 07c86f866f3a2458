/**
 * JSON documents as the Newtonsoft `JToken` tree the normalizers rewrite.
 * Numbers are integers (the modelled records carry no fractional fields).
 * Objects keep their properties in document order; a parsed object has
 * distinct property names.
 */
module JsonTree {
  import opened Wrappers
  import opened Text
  import opened Errors

  datatype Json =
    | JNull
    | JBool(b: bool)
    | JNum(n: int)
    | JStr(s: string)
    | JArr(items: seq<Json>)
    | JObj(members: seq<(string, Json)>)

  type Members = seq<(string, Json)>

  /** The CLR types a converter is asked about in `CanConvert`. */
  datatype ClrType = BitcoinValueType | BooleanType | DateTimeType | DateTimeOffsetType | OtherType(name: string)

  /**
   * `JsonReader.Value` for the current token, as Newtonsoft types it: a long
   * for an integer that fits, a BigInteger beyond that, a double for a
   * floating-point number (its value is not modelled), and null for a null
   * token or the start of an array or object.
   */
  datatype TokenValue =
    | LongValue(n: Long)
    | BigIntegerValue(big: int)
    | FloatValue
    | BoolValue(b: bool)
    | StringValue(s: string)
    | NoValue

  /** The token a System.Text.Json `Utf8JsonReader` is positioned on; a number keeps its text. */
  datatype NativeToken =
    | NumberToken(text: string)
    | StringToken(s: string)
    | TrueToken
    | FalseToken
    | NullToken
    | StartObjectToken
    | StartArrayToken

  /** `reader.TokenType` as .NET names it. */
  function TokenTypeName(t: NativeToken): string
  {
    match t
    case NumberToken(_) => "Number"
    case StringToken(_) => "String"
    case TrueToken => "True"
    case FalseToken => "False"
    case NullToken => "Null"
    case StartObjectToken => "StartObject"
    case StartArrayToken => "StartArray"
  }

  /** The InvalidOperationException a `Get` method throws on a token of another type. */
  function MismatchError(t: NativeToken, wanted: string): Error
  {
    InvalidOperation(CannotGetValue(TokenTypeName(t), wanted))
  }

  /** The first token System.Text.Json reads for a tree node; integers are written canonically. */
  function NativeTokenOf(j: Json): (t: NativeToken)
    ensures j.JStr? <==> t.StringToken?
    ensures j.JNum? <==> t.NumberToken?
  {
    match j
    case JNull => NullToken
    case JBool(b) => if b then TrueToken else FalseToken
    case JNum(n) => NumberToken(IntToString(n))
    case JStr(s) => StringToken(s)
    case JArr(_) => StartArrayToken
    case JObj(_) => StartObjectToken
  }

  /** The value a reader positioned on a tree node reports. */
  function ValueOf(j: Json): (v: TokenValue)
    ensures v.LongValue? ==> j == JNum(v.n)
    ensures v == BoolValue(true) <==> j == JBool(true)
  {
    match j
    case JNull => NoValue
    case JBool(b) => BoolValue(b)
    case JNum(n) => if InLong(n) then LongValue(n) else BigIntegerValue(n)
    case JStr(s) => StringValue(s)
    case JArr(_) => NoValue
    case JObj(_) => NoValue
  }

  /**
   * The value a reader reports for raw integer text written out: an integer
   * literal in canonical form (no '+', no leading zero); any other text is
   * outside the model.
   */
  function IntegerLiteralValue(text: string): (v: Option<TokenValue>)
    ensures v.Some? ==> exists n :: text == IntToString(n) && v.value == ValueOf(JNum(n))
  {
    match CanonicalInteger(text)
    case Some(n) => Some(ValueOf(JNum(n)))
    case None => None
  }

  /** The integer a canonical integer literal (no '+', no leading zero) denotes. */
  function CanonicalInteger(text: string): (r: Option<int>)
    ensures r.Some? ==> text == IntToString(r.value)
  {
    match ParseSignedInteger(text)
    case Some(n) => if IntToString(n) == text then Some(n) else None
    case None => None
  }

  /** Every integer written in canonical form reads back as the same integer. */
  lemma IntegerLiteralOfIntToString(n: int)
    requires InLong(n)
    ensures IntegerLiteralValue(IntToString(n)) == Some(LongValue(n))
    ensures CanonicalInteger(IntToString(n)) == Some(n)
  {
    TryParseLongOfIntToString(n);
  }

  function KeysOf(members: Members): (keys: seq<string>)
    ensures |keys| == |members|
    ensures forall i :: 0 <= i < |members| ==> keys[i] == members[i].0
  {
    if |members| == 0 then [] else [members[0].0] + KeysOf(members[1..])
  }

  /** `obj[key]`: the value of the property called `key`, if there is one. */
  function Get(members: Members, key: string): (r: Option<Json>)
    ensures r.None? <==> key !in KeysOf(members)
    ensures r.Some? ==> exists i :: 0 <= i < |members| && members[i] == (key, r.value)
  {
    if |members| == 0 then None
    else if members[0].0 == key then Some(members[0].1)
    else Get(members[1..], key)
  }

  /**
   * `obj[key] = value`: an existing property keeps its place and takes the
   * new value; a new property is added at the end.
   */
  function Set(members: Members, key: string, value: Json): (r: Members)
    ensures Get(r, key) == Some(value)
    ensures forall k :: k != key ==> Get(r, k) == Get(members, k)
  {
    if |members| == 0 then [(key, value)]
    else if members[0].0 == key then [(key, value)] + members[1..]
    else [members[0]] + Set(members[1..], key, value)
  }

  /** Setting a property leaves the order of the names as it was, adding a new name last. */
  lemma {:induction false} SetKeys(members: Members, key: string, value: Json)
    ensures KeysOf(Set(members, key, value)) == if key in KeysOf(members) then KeysOf(members) else KeysOf(members) + [key]
  {
    if |members| > 0 && members[0].0 != key {
      SetKeys(members[1..], key, value);
      assert KeysOf(members) == [members[0].0] + KeysOf(members[1..]);
    }
  }

  /** `JToken.ToObject<string>()`: scalars print invariantly, containers cannot convert. */
  function TokenToString(j: Json): (r: Result<Option<string>, Error>)
    ensures j.JStr? ==> r == Ok(Some(j.s))
    ensures r == Ok(None) <==> j.JNull?
    ensures r.Err? <==> j.JArr? || j.JObj?
  {
    match j
    case JNull => Ok(None)
    case JBool(b) => Ok(Some(if b then "True" else "False"))
    case JNum(n) => Ok(Some(IntToString(n)))
    case JStr(s) => Ok(Some(s))
    case JArr(_) => Err(Argument("", CannotConvertToString("Array")))
    case JObj(_) => Err(Argument("", CannotConvertToString("Object")))
  }

  /** `xs` is what decoding `items` one by one, in order, gave. */
  ghost predicate DecodedFrom<T>(xs: seq<T>, items: seq<Json>, element: Json -> Result<T, Error>)
  {
    |xs| == |items| && forall i :: 0 <= i < |items| ==> element(items[i]) == Ok(xs[i])
  }

  /** Decoding the items of an array in order; the first failure is the result. */
  function DecodeItems<T>(items: seq<Json>, element: Json -> Result<T, Error>): (r: Result<seq<T>, Error>)
    ensures r.Ok? ==> |r.value| == |items| && forall i :: 0 <= i < |items| ==> element(items[i]) == Ok(r.value[i])
    ensures r.Err? ==> exists i :: 0 <= i < |items| && element(items[i]) == Err(r.error)
  {
    if |items| == 0 then Ok([])
    else
      match DecodeItems(items[..|items| - 1], element)
      case Err(e) => Err(e)
      case Ok(front) =>
        match element(items[|items| - 1])
        case Err(e) => Err(e)
        case Ok(x) => Ok(front + [x])
  }

  /**
   * `token.ToObject<List<T>>()`: null stays null, an array decodes item by
   * item, anything else cannot be read as a collection.
   */
  function DecodeList<T>(j: Json, element: Json -> Result<T, Error>): (r: Result<Option<seq<T>>, Error>)
    ensures r == Ok(None) <==> j.JNull?
    ensures j.JArr? && r.Ok? ==> r.value.Some? && DecodedFrom(r.value.value, j.items, element)
    ensures !j.JArr? && !j.JNull? ==> r == Err(JsonFailure(NotACollection))
  {
    match j
    case JNull => Ok(None)
    case JArr(items) =>
      (match DecodeItems(items, element)
       case Ok(xs) => Ok(Some(xs))
       case Err(e) => Err(e))
    case _ => Err(JsonFailure(NotACollection))
  }

  /** The two JSON libraries the client uses, which bind absent and null properties differently. */
  datatype Library = Newtonsoft | SystemTextJson

  /** `Required = Required.Always` is enforced by Newtonsoft only. */
  datatype Requirement = Optional | Always

  /**
   * How a typed decoder fills one property of a new object: an absent property
   * keeps the property's initial value unless Newtonsoft enforces
   * `Required.Always`, which also refuses an explicit null; a present value is
   * converted.
   */
  function BindField<T>(members: Members, name: string, requirement: Requirement, library: Library,
                        convert: Json -> Result<T, Error>, initial: T): (r: Result<T, Error>)
    ensures Get(members, name).None? && (requirement == Optional || library == SystemTextJson) ==> r == Ok(initial)
    ensures requirement == Always && library == Newtonsoft && Get(members, name) in {None, Some(JNull)} ==> r.Err?
    ensures Get(members, name).Some? && Get(members, name) != Some(JNull) ==> r == convert(Get(members, name).value)
  {
    var enforced := requirement == Always && library == Newtonsoft;
    match Get(members, name)
    case None =>
      if enforced then Err(JsonFailure(RequiredPropertyMissing(name))) else Ok(initial)
    case Some(v) =>
      if enforced && v == JNull then Err(JsonFailure(RequiredPropertyNull(name)))
      else convert(v)
  }

  /**
   * The `Required.Always` check for the properties `names`, whose values the
   * model does not carry: each is bound with `BindField` and its value
   * discarded, so under Newtonsoft the first one absent or null throws, and
   * System.Text.Json checks nothing.
   */
  function CheckRequired(members: Members, names: seq<string>, library: Library): (r: Result<(), Error>)
    ensures r.Ok? <==> library == SystemTextJson
                       || forall i :: 0 <= i < |names| ==> Get(members, names[i]).Some? && Get(members, names[i]) != Some(JNull)
    ensures r.Err? ==> exists i :: 0 <= i < |names| &&
                         (r.error == JsonFailure(RequiredPropertyMissing(names[i]))
                          || r.error == JsonFailure(RequiredPropertyNull(names[i])))
  {
    if |names| == 0 then Ok(())
    else
      match BindField(members, names[0], Always, library, (j: Json) => Ok(()), ())
      case Err(e) => Err(e)
      case Ok(_) =>
        var rest := CheckRequired(members, names[1..], library);
        assert forall i :: 1 <= i < |names| ==> names[i] == names[1..][i - 1];
        rest
  }
  /** `JObject.Parse(json)`: the text must hold a JSON object. */
  function ParseObject(json: string, parse: string -> Option<Json>): (r: Result<Members, Error>)
    ensures r.Ok? <==> parse(json).Some? && parse(json).value.JObj?
    ensures r.Ok? ==> parse(json) == Some(JObj(r.value))
    ensures r.Err? ==> r == Err(JsonFailure(ReadingJObject))
  {
    match parse(json)
    case Some(JObj(members)) => Ok(members)
    case _ => Err(JsonFailure(ReadingJObject))
  }

  /** `obj[key]` where a missing property reads as JSON null, as on the right of an assignment. */
  function GetOrNull(members: Members, key: string): (r: Json)
    ensures Get(members, key).Some? ==> r == Get(members, key).value
    ensures Get(members, key).None? ==> r == JNull
  {
    match Get(members, key)
    case Some(v) => v
    case None => JNull
  }

  /**
   * `token[key] = value`: an object sets the property; an array refuses a
   * string index with ArgumentException; a scalar has no children to set.
   */
  function SetChild(token: Json, key: string, value: Json): (r: Result<Json, Error>)
    ensures r.Ok? <==> token.JObj?
    ensures r.Ok? ==> r.value == JObj(Set(token.members, key, value))
    ensures token.JArr? ==> r == Err(Argument("", InvalidJArrayKey(key)))
  {
    match token
    case JObj(members) => Ok(JObj(Set(members, key, value)))
    case JArr(_) => Err(Argument("", InvalidJArrayKey(key)))
    case _ => Err(InvalidOperation(CannotSetChildValue("Newtonsoft.Json.Linq.JValue")))
  }

  /**
   * What enumerating a token yields: an array its items, an object its
   * properties (each a `JProperty`), a scalar nothing.
   */
  datatype Child = Item(value: Json) | Property(name: string, value: Json)

  function Children(token: Json): (r: seq<Child>)
    ensures token.JArr? ==> |r| == |token.items| && forall i :: 0 <= i < |r| ==> r[i] == Item(token.items[i])
    ensures token.JObj? ==> |r| == |token.members| && forall i :: 0 <= i < |r| ==> r[i].Property?
    ensures !token.JArr? && !token.JObj? ==> r == []
  {
    match token
    case JArr(items) => seq(|items|, i requires 0 <= i < |items| => Item(items[i]))
    case JObj(members) => seq(|members|, i requires 0 <= i < |members| => Property(members[i].0, members[i].1))
    case _ => []
  }

  /** `child[key] = value` on an enumerated child: a `JProperty` has no settable children. */
  function SetChildOf(child: Child, key: string, value: Json): (r: Result<Json, Error>)
    ensures child.Item? ==> r == SetChild(child.value, key, value)
    ensures child.Property? ==> r == Err(InvalidOperation(CannotSetChildValue("Newtonsoft.Json.Linq.JProperty")))
  {
    match child
    case Item(token) => SetChild(token, key, value)
    case Property(_, _) => Err(InvalidOperation(CannotSetChildValue("Newtonsoft.Json.Linq.JProperty")))
  }

  /**
   * `obj[key]?.ToObject<List<T>>() ?? new List<T>()`: an absent or null
   * property gives the empty list, an array decodes item by item in order,
   * and any other value cannot be read as a collection.
   */
  function ListOrEmpty<T>(members: Members, key: string, element: Json -> Result<T, Error>): (r: Result<seq<T>, Error>)
    ensures Get(members, key) == None || Get(members, key) == Some(JNull) ==> r == Ok([])
    ensures Get(members, key).Some? && Get(members, key).value.JArr? && r.Ok? ==>
              DecodedFrom(r.value, Get(members, key).value.items, element)
    ensures Get(members, key).Some? && Get(members, key).value.JArr? && r.Err? ==>
              exists i :: 0 <= i < |Get(members, key).value.items| && element(Get(members, key).value.items[i]) == Err(r.error)
    ensures Get(members, key).Some? && !Get(members, key).value.JArr? && !Get(members, key).value.JNull? ==>
              r == Err(JsonFailure(NotACollection))
  {
    match Get(members, key)
    case None => Ok([])
    case Some(v) =>
      match DecodeList(v, element)
      case Err(e) => Err(e)
      case Ok(None) => Ok([])
      case Ok(Some(xs)) => Ok(xs)
  }
}
