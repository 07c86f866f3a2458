/**
 * UnspentOutput: the values a decoded unspent output starts from, how its
 * properties are bound, and the unwrapping of an "unspent_outputs" list.
 */
module UnspentOutputs {
  import opened Wrappers
  import opened Errors
  import opened JsonTree
  import opened BitcoinValues
  import BitcoinValueProperties

  /** The properties of an unspent output that start from a value of their own. */
  datatype UnspentOutput = UnspentOutput(script: Option<string>, transactionHash: Option<string>,
                                         value: Option<BitcoinValue>)

  /** An unspent output before any property is bound: empty texts and a zero value. */
  const Initial: UnspentOutput := UnspentOutput(Some(""), Some(""), Some(BitcoinValue(0)))

  /**
   * The required properties whose values the model does not carry:
   * `confirmations`, `tx_output_n` and `tx_index`.
   */
  const UncarriedRequired: seq<string> := ["confirmations", "tx_output_n", "tx_index"]

  /**
   * Decoding an unspent output object.  Newtonsoft requires all six
   * properties, the three carried here and `UncarriedRequired`; System.Text.Json
   * leaves an absent one at its initial value.  `value` goes through the
   * library's BitcoinValue converter.
   */
  function Bind(members: Members, library: Library, readText: Json -> Result<Option<string>, Error>): (r: Result<UnspentOutput, Error>)
    ensures library == Newtonsoft && Get(members, "script").None? ==> r.Err?
    ensures library == Newtonsoft && Get(members, "tx_hash").None? ==> r.Err?
    ensures library == Newtonsoft && Get(members, "value").None? ==> r.Err?
    ensures r.Ok? && library == SystemTextJson && Get(members, "script").None? ==> r.value.script == Some("")
    ensures r.Ok? && library == SystemTextJson && Get(members, "tx_hash").None? ==> r.value.transactionHash == Some("")
    ensures r.Ok? && library == SystemTextJson && Get(members, "value").None? ==> r.value.value == Some(Zero)
    ensures r.Ok? && Get(members, "value").Some? ==>
              BitcoinValueProperties.Read(library, Get(members, "value").value) == Ok(r.value.value)
    ensures r.Ok? && library == Newtonsoft ==>
              forall i :: 0 <= i < |UncarriedRequired| ==>
                Get(members, UncarriedRequired[i]).Some? && Get(members, UncarriedRequired[i]) != Some(JNull)
  {
    match CheckRequired(members, UncarriedRequired, library)
    case Err(e) => Err(e)
    case Ok(_) =>
      match BindField(members, "script", Always, library, readText, Initial.script)
      case Err(e) => Err(e)
      case Ok(script) =>
        match BindField(members, "tx_hash", Always, library, readText, Initial.transactionHash)
        case Err(e) => Err(e)
        case Ok(hash) =>
          match BindField(members, "value", Always, library, j => BitcoinValueProperties.Read(library, j), Initial.value)
          case Err(e) => Err(e)
          case Ok(value) => Ok(UnspentOutput(script, hash, value))
  }

  /**
   * `DeserializeMultiple(json)`: the items of the top-level "unspent_outputs"
   * array, decoded in order; an absent or null property gives the empty list.
   */
  function DeserializeMultiple<T>(json: string, parse: string -> Option<Json>,
                                  element: Json -> Result<T, Error>): (r: Result<seq<T>, Error>)
    ensures ParseObject(json, parse).Err? ==> r == Err(JsonFailure(ReadingJObject))
    ensures ParseObject(json, parse).Ok? ==>
              var outputs := Get(ParseObject(json, parse).value, "unspent_outputs");
              (outputs == None || outputs == Some(JNull) ==> r == Ok([]))
              && (outputs.Some? && outputs.value.JArr? && r.Ok? ==> DecodedFrom(r.value, outputs.value.items, element))
  {
    match ParseObject(json, parse)
    case Err(e) => Err(e)
    case Ok(members) => ListOrEmpty(members, "unspent_outputs", element)
  }

  /** No top-level property other than "unspent_outputs" influences the result. */
  lemma OnlyUnspentOutputsMatter<T>(json1: string, json2: string, parse: string -> Option<Json>,
                                    element: Json -> Result<T, Error>)
    requires ParseObject(json1, parse).Ok? && ParseObject(json2, parse).Ok?
    requires Get(ParseObject(json1, parse).value, "unspent_outputs") == Get(ParseObject(json2, parse).value, "unspent_outputs")
    ensures DeserializeMultiple(json1, parse, element) == DeserializeMultiple(json2, parse, element)
  {
    var m1 := ParseObject(json1, parse).value;
    var m2 := ParseObject(json2, parse).value;
    assert ListOrEmpty(m1, "unspent_outputs", element) == ListOrEmpty(m2, "unspent_outputs", element);
  }
}
