/**
 * SimpleBlock: the block summary the block explorer lists.  Its two
 * constructors, the sticky-true reading of `main_chain` on the Newtonsoft
 * path, and the unwrapping of a "blocks" list.
 */
module SimpleBlocks {
  import opened Wrappers
  import opened Errors
  import opened JsonTree
  import opened DateTimes
  import TrueTrumpsAll

  /** The properties of a block summary. */
  datatype SimpleBlock = SimpleBlock(hash: Option<string>, height: int, mainChain: bool, time: DateTime)

  /** `protected SimpleBlock(bool mainChain = false)`: sets MainChain to its argument. */
  function WithMainChain(mainChain: bool): (b: SimpleBlock)
    ensures b.mainChain == mainChain
    ensures b.hash == Some("") && b.height == 0 && b.time == MinValue
  {
    SimpleBlock(Some(""), 0, mainChain, MinValue)
  }

  /** `public SimpleBlock()`, the constructor both libraries use: MainChain stays false. */
  function New(): (b: SimpleBlock)
    ensures !b.mainChain && b.hash == Some("")
  {
    WithMainChain(false)
  }

  /**
   * `main_chain` as Newtonsoft binds it: TrueTrumpsAllJsonConverter is handed
   * the property's current value, so a true already there survives any token.
   */
  function BindMainChain(members: Members, existing: bool): (r: bool)
    ensures r <==> existing || Get(members, "main_chain") == Some(JBool(true))
  {
    match Get(members, "main_chain")
    case None => existing
    case Some(v) => TrueTrumpsAll.ReadJson(Some(existing), ValueOf(v))
  }

  /** Decoded through the public constructor, a block is on the main chain exactly when the JSON says `true`. */
  lemma MainChainFromJson(members: Members)
    ensures BindMainChain(members, New().mainChain) <==> Get(members, "main_chain") == Some(JBool(true))
  {
  }

  /**
   * `DeserializeMultiple(json)`: the "blocks" array decoded in order; null,
   * not an empty list, when the property is absent or null.
   */
  function DeserializeMultiple<T>(json: string, parse: string -> Option<Json>,
                                  element: Json -> Result<T, Error>): (r: Result<Option<seq<T>>, Error>)
    ensures ParseObject(json, parse).Err? ==> r == Err(JsonFailure(ReadingJObject))
    ensures ParseObject(json, parse).Ok? ==>
              var v := Get(ParseObject(json, parse).value, "blocks");
              (v == None || v == Some(JNull) ==> r == Ok(None))
              && (v.Some? && v.value.JArr? && r.Ok? ==> r.value.Some? && DecodedFrom(r.value.value, v.value.items, element))
              && (v.Some? && !v.value.JArr? && !v.value.JNull? ==> r.Err?)
  {
    match ParseObject(json, parse)
    case Err(e) => Err(e)
    case Ok(members) =>
      match Get(members, "blocks")
      case None => Ok(None)
      case Some(v) => DecodeList(v, element)
  }
}
