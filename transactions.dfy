/**
 * Transaction: the values a decoded transaction starts from, how its
 * properties are bound, and the unwrapping of a "txs" list.
 */
module Transactions {
  import opened Wrappers
  import opened Errors
  import opened JsonTree

  /** `BlockHeight`'s initial value, documented as "unconfirmed". */
  const Unconfirmed: int := -1

  /**
   * The properties of a transaction that start from a value of their own.
   * Inputs and outputs are kept as their JSON items (Input and Output are
   * not part of this model).
   */
  datatype Transaction = Transaction(blockHeight: Option<int>, doubleSpend: Option<bool>,
                                     inputs: seq<Json>, outputs: seq<Json>)

  /** A transaction before any property is bound. */
  const Initial: Transaction := Transaction(Some(Unconfirmed), Some(false), [], [])

  /** The typed reads of single property values that the decoder supplies. */
  datatype Readers = Readers(height: Json -> Result<Option<int>, Error>,
                             flag: Json -> Result<Option<bool>, Error>,
                             items: Json -> Result<seq<Json>, Error>)

  /**
   * The required properties whose values the model does not carry: `hash`,
   * `tx_index`, `relayed_by`, `size`, `time` and `ver`.
   */
  const UncarriedRequired: seq<string> := ["hash", "tx_index", "relayed_by", "size", "time", "ver"]

  /**
   * Decoding a transaction object: `block_height` and `double_spend` are
   * optional and keep -1 and false when absent; `inputs`, `out` and
   * `UncarriedRequired` are required by Newtonsoft only, and System.Text.Json
   * leaves absent inputs and outputs empty.
   */
  function Bind(members: Members, library: Library, read: Readers): (r: Result<Transaction, Error>)
    ensures r.Ok? && Get(members, "block_height").None? ==> r.value.blockHeight == Some(Unconfirmed)
    ensures r.Ok? && Get(members, "double_spend").None? ==> r.value.doubleSpend == Some(false)
    ensures r.Ok? && Get(members, "block_height").Some? ==>
              read.height(Get(members, "block_height").value) == Ok(r.value.blockHeight)
    ensures r.Ok? && Get(members, "double_spend").Some? ==>
              read.flag(Get(members, "double_spend").value) == Ok(r.value.doubleSpend)
    ensures r.Ok? && library == SystemTextJson && Get(members, "inputs").None? ==> r.value.inputs == []
    ensures r.Ok? && library == SystemTextJson && Get(members, "out").None? ==> r.value.outputs == []
    ensures library == Newtonsoft && (Get(members, "inputs").None? || Get(members, "out").None?) ==> r.Err?
    ensures r.Ok? && library == Newtonsoft ==>
              forall i :: 0 <= i < |UncarriedRequired| ==>
                Get(members, UncarriedRequired[i]).Some? && Get(members, UncarriedRequired[i]) != Some(JNull)
  {
    match CheckRequired(members, UncarriedRequired, library)
    case Err(e) => Err(e)
    case Ok(_) =>
      match BindField(members, "block_height", Optional, library, read.height, Initial.blockHeight)
      case Err(e) => Err(e)
      case Ok(height) =>
        match BindField(members, "double_spend", Optional, library, read.flag, Initial.doubleSpend)
        case Err(e) => Err(e)
        case Ok(doubleSpend) =>
          match BindField(members, "inputs", Always, library, read.items, Initial.inputs)
          case Err(e) => Err(e)
          case Ok(inputs) =>
            match BindField(members, "out", Always, library, read.items, Initial.outputs)
            case Err(e) => Err(e)
            case Ok(outputs) => Ok(Transaction(height, doubleSpend, inputs, outputs))
  }

  /**
   * `DeserializeMultiple(json)`: the items of the top-level "txs" array,
   * decoded in order; an absent or null "txs" gives the empty list, never null.
   */
  function DeserializeMultiple<T>(json: string, parse: string -> Option<Json>,
                                  element: Json -> Result<T, Error>): (r: Result<seq<T>, Error>)
    ensures ParseObject(json, parse).Err? ==> r == Err(JsonFailure(ReadingJObject))
    ensures ParseObject(json, parse).Ok? ==>
              var txs := Get(ParseObject(json, parse).value, "txs");
              (txs == None || txs == Some(JNull) ==> r == Ok([]))
              && (txs.Some? && txs.value.JArr? && r.Ok? ==> DecodedFrom(r.value, txs.value.items, element))
    ensures r.Ok? && |r.value| > 0 ==> ParseObject(json, parse).Ok?
  {
    match ParseObject(json, parse)
    case Err(e) => Err(e)
    case Ok(members) => ListOrEmpty(members, "txs", element)
  }
}
