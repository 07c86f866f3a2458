/**
 * WalletAddress: the values a decoded wallet address starts from, how its
 * properties are bound, and the four unwrapping helpers over a wallet
 * service reply.
 */
module WalletAddresses {
  import opened Wrappers
  import opened Errors
  import opened JsonTree
  import opened BitcoinValues
  import BitcoinValueProperties

  /** The properties of a wallet address; `addressLabel` (`Label`) has no initial value. */
  datatype WalletAddress = WalletAddress(addressStr: Option<string>, balance: Option<BitcoinValue>,
                                         addressLabel: Option<string>, totalReceived: Option<BitcoinValue>)

  /** A wallet address before any property is bound. */
  const Initial: WalletAddress := WalletAddress(Some(""), Some(Zero), None, Some(BitcoinValue(0)))

  /**
   * Decoding a wallet address object: `address` is required by Newtonsoft,
   * the others are optional; amounts go through the library's BitcoinValue
   * converter.
   */
  function Bind(members: Members, library: Library, readText: Json -> Result<Option<string>, Error>): (r: Result<WalletAddress, Error>)
    ensures library == Newtonsoft && Get(members, "address").None? ==> r.Err?
    ensures r.Ok? && Get(members, "address").None? ==> r.value.addressStr == Some("")
    ensures r.Ok? && Get(members, "balance").None? ==> r.value.balance == Some(Zero)
    ensures r.Ok? && Get(members, "total_received").None? ==> r.value.totalReceived == Some(Zero)
    ensures r.Ok? && Get(members, "label").None? ==> r.value.addressLabel.None?
    ensures r.Ok? && Get(members, "balance").Some? ==>
              BitcoinValueProperties.Read(library, Get(members, "balance").value) == Ok(r.value.balance)
  {
    var readValue := j => BitcoinValueProperties.Read(library, j);
    match BindField(members, "address", Always, library, readText, Initial.addressStr)
    case Err(e) => Err(e)
    case Ok(address) =>
      match BindField(members, "balance", Optional, library, readValue, Initial.balance)
      case Err(e) => Err(e)
      case Ok(balance) =>
        match BindField(members, "label", Optional, library, readText, Initial.addressLabel)
        case Err(e) => Err(e)
        case Ok(addressLabel) =>
          match BindField(members, "total_received", Optional, library, readValue, Initial.totalReceived)
          case Err(e) => Err(e)
          case Ok(received) => Ok(WalletAddress(address, balance, addressLabel, received))
  }

  /** `obj[key]?.ToObject<string>()`: null when the property is absent. */
  function StringProperty(json: string, parse: string -> Option<Json>, key: string): (r: Result<Option<string>, Error>)
    ensures ParseObject(json, parse).Err? ==> r == Err(JsonFailure(ReadingJObject))
    ensures ParseObject(json, parse).Ok? ==>
              var v := Get(ParseObject(json, parse).value, key);
              (v.None? ==> r == Ok(None)) && (v.Some? ==> r == TokenToString(v.value))
  {
    match ParseObject(json, parse)
    case Err(e) => Err(e)
    case Ok(members) =>
      match Get(members, key)
      case None => Ok(None)
      case Some(v) => TokenToString(v)
  }

  /** `DeserializeArchived(json)`: the "archived" property as a string, or null when absent or null. */
  function DeserializeArchived(json: string, parse: string -> Option<Json>): (r: Result<Option<string>, Error>)
    ensures ParseObject(json, parse).Ok? ==>
              var v := Get(ParseObject(json, parse).value, "archived");
              (v == None || v == Some(JNull) ==> r == Ok(None))
              && (forall s :: v == Some(JStr(s)) ==> r == Ok(Some(s)))
    ensures ParseObject(json, parse).Err? ==> r.Err?
  {
    StringProperty(json, parse, "archived")
  }

  /** `DeserializeUnArchived(json)`: the "active" property as a string, or null when absent or null. */
  function DeserializeUnArchived(json: string, parse: string -> Option<Json>): (r: Result<Option<string>, Error>)
    ensures ParseObject(json, parse).Ok? ==>
              var v := Get(ParseObject(json, parse).value, "active");
              (v == None || v == Some(JNull) ==> r == Ok(None))
              && (forall s :: v == Some(JStr(s)) ==> r == Ok(Some(s)))
    ensures ParseObject(json, parse).Err? ==> r.Err?
  {
    StringProperty(json, parse, "active")
  }

  /**
   * `DeserializeConsolidated(json)`: the "consolidated" list, each item read
   * as a nullable string, or the empty list when the property is absent.
   */
  function DeserializeConsolidated(json: string, parse: string -> Option<Json>): (r: Result<seq<Option<string>>, Error>)
    ensures ParseObject(json, parse).Err? ==> r == Err(JsonFailure(ReadingJObject))
    ensures ParseObject(json, parse).Ok? ==>
              var v := Get(ParseObject(json, parse).value, "consolidated");
              (v == None || v == Some(JNull) ==> r == Ok([]))
              && (v.Some? && v.value.JArr? && r.Ok? ==> DecodedFrom(r.value, v.value.items, TokenToString))
  {
    match ParseObject(json, parse)
    case Err(e) => Err(e)
    case Ok(members) => ListOrEmpty(members, "consolidated", TokenToString)
  }

  /** A consolidated list of plain strings comes back as exactly those strings, in order. */
  lemma ConsolidatedStrings(json: string, parse: string -> Option<Json>, addresses: seq<string>)
    requires ParseObject(json, parse).Ok?
    requires Get(ParseObject(json, parse).value, "consolidated")
          == Some(JArr(seq(|addresses|, i requires 0 <= i < |addresses| => JStr(addresses[i]))))
    ensures DeserializeConsolidated(json, parse)
         == Ok(seq(|addresses|, i requires 0 <= i < |addresses| => Some(addresses[i])))
  {
    var items := seq(|addresses|, i requires 0 <= i < |addresses| => JStr(addresses[i]));
    var r := DeserializeConsolidated(json, parse);
    assert forall i :: 0 <= i < |items| ==> TokenToString(items[i]).Ok?;
    var expected := seq(|addresses|, i requires 0 <= i < |addresses| => Some(addresses[i]));
    assert DecodedFrom(r.value, items, TokenToString);
    forall i | 0 <= i < |items| ensures r.value[i] == expected[i] {
      assert TokenToString(items[i]) == Ok(r.value[i]);
    }
    assert r.value == expected;
  }

  /**
   * `DeserializeMultiple(json)`: the "addresses" list decoded in order, or
   * the empty list when the property is absent.
   */
  function DeserializeMultiple<T>(json: string, parse: string -> Option<Json>,
                                  element: Json -> Result<T, Error>): (r: Result<seq<T>, Error>)
    ensures ParseObject(json, parse).Err? ==> r == Err(JsonFailure(ReadingJObject))
    ensures ParseObject(json, parse).Ok? ==>
              var v := Get(ParseObject(json, parse).value, "addresses");
              (v == None || v == Some(JNull) ==> r == Ok([]))
              && (v.Some? && v.value.JArr? && r.Ok? ==> DecodedFrom(r.value, v.value.items, element))
  {
    match ParseObject(json, parse)
    case Err(e) => Err(e)
    case Ok(members) => ListOrEmpty(members, "addresses", element)
  }
}
