/**
 * Xpub: an extended public key's summary.  `Deserialize` takes the first
 * entry of the reply's "addresses", grafts the reply's "txs" onto it, and
 * decodes that.
 */
module Xpubs {
  import opened Wrappers
  import opened Errors
  import opened JsonTree

  /** The properties Xpub adds to Address; they start at zero. */
  datatype Xpub = Xpub(accountIndex: int, changeIndex: int, gapLimit: int)

  /** An xpub before any property is bound. */
  const Initial: Xpub := Xpub(0, 0, 0)

  /**
   * Decoding the three index properties: all optional, so an absent one stays 0;
   * a present one goes through the supplied integer read.
   */
  function Bind(members: Members, library: Library, readInt: Json -> Result<int, Error>): (r: Result<Xpub, Error>)
    ensures (Get(members, "account_index").None? && Get(members, "change_index").None?
             && Get(members, "gap_limit").None?) ==> r == Ok(Initial)
    ensures r.Ok? && Get(members, "account_index").Some? ==> readInt(Get(members, "account_index").value) == Ok(r.value.accountIndex)
    ensures r.Ok? && Get(members, "change_index").Some? ==> readInt(Get(members, "change_index").value) == Ok(r.value.changeIndex)
    ensures r.Ok? && Get(members, "gap_limit").Some? ==> readInt(Get(members, "gap_limit").value) == Ok(r.value.gapLimit)
  {
    match BindField(members, "account_index", Optional, library, readInt, Initial.accountIndex)
    case Err(e) => Err(e)
    case Ok(account) =>
      match BindField(members, "change_index", Optional, library, readInt, Initial.changeIndex)
      case Err(e) => Err(e)
      case Ok(change) =>
        match BindField(members, "gap_limit", Optional, library, readInt, Initial.gapLimit)
        case Err(e) => Err(e)
        case Ok(gap) => Ok(Xpub(account, change, gap))
  }

  /**
   * `xpubJObject["addresses"]?.AsJEnumerable().FirstOrDefault() ?? new JObject()`:
   * the first child of "addresses", or a new empty object when the property
   * is absent or has no children (a scalar, null, an empty array or object).
   */
  function FirstAddress(members: Members): (c: Child)
    ensures Get(members, "addresses").None? ==> c == Item(JObj([]))
    ensures Get(members, "addresses").Some? && Children(Get(members, "addresses").value) == [] ==> c == Item(JObj([]))
    ensures (Get(members, "addresses").Some? && Get(members, "addresses").value.JArr?
             && |Get(members, "addresses").value.items| > 0) ==> c == Item(Get(members, "addresses").value.items[0])
    ensures (Get(members, "addresses").Some? && Get(members, "addresses").value.JObj?
             && |Get(members, "addresses").value.members| > 0) ==> c.Property?
  {
    match Get(members, "addresses")
    case None => Item(JObj([]))
    case Some(addresses) =>
      var children := Children(addresses);
      if |children| == 0 then Item(JObj([])) else children[0]
  }

  /**
   * The object handed to the typed decoder: the first address with "txs"
   * set to the reply's "txs" (JSON null when there is none).  Only an object
   * can take the property; anything else throws.
   */
  function XpubObject(members: Members): (r: Result<Json, Error>)
    ensures r.Ok? <==> FirstAddress(members).Item? && FirstAddress(members).value.JObj?
    ensures r.Ok? ==> r.value.JObj? && Get(r.value.members, "txs") == Some(GetOrNull(members, "txs"))
    ensures r.Ok? ==> forall k :: k != "txs" ==> Get(r.value.members, k) == Get(FirstAddress(members).value.members, k)
  {
    SetChildOf(FirstAddress(members), "txs", GetOrNull(members, "txs"))
  }

  /** `Deserialize(xpubJson)`: parse, pick the first address, graft "txs", decode. */
  function Deserialize<T>(xpubJson: string, parse: string -> Option<Json>,
                          decode: Json -> Result<Option<T>, Error>): (r: Result<Option<T>, Error>)
    ensures ParseObject(xpubJson, parse).Err? ==> r == Err(JsonFailure(ReadingJObject))
    ensures ParseObject(xpubJson, parse).Ok? && XpubObject(ParseObject(xpubJson, parse).value).Err? ==> r.Err?
    ensures ParseObject(xpubJson, parse).Ok? && XpubObject(ParseObject(xpubJson, parse).value).Ok? ==>
              r == decode(XpubObject(ParseObject(xpubJson, parse).value).value)
  {
    match ParseObject(xpubJson, parse)
    case Err(e) => Err(e)
    case Ok(members) =>
      match XpubObject(members)
      case Err(e) => Err(e)
      case Ok(output) => decode(output)
  }

  /** Without "addresses" the decoder sees an object holding only "txs". */
  lemma NoAddressesOnlyTxs(members: Members)
    requires Get(members, "addresses").None?
    ensures XpubObject(members) == Ok(JObj([("txs", GetOrNull(members, "txs"))]))
  {
  }

  /** With an array of address objects, the decoder sees the first one with "txs" added or replaced. */
  lemma FirstAddressWithTxs(members: Members, first: Members, rest: seq<Json>)
    requires Get(members, "addresses") == Some(JArr([JObj(first)] + rest))
    ensures XpubObject(members) == Ok(JObj(Set(first, "txs", GetOrNull(members, "txs"))))
  {
    assert FirstAddress(members) == Item(JObj(first));
  }

  /** The entries of "addresses" after the first, and every other top-level property, play no part. */
  lemma OnlyFirstAddressAndTxsMatter(members1: Members, members2: Members)
    requires FirstAddress(members1) == FirstAddress(members2)
    requires Get(members1, "txs") == Get(members2, "txs")
    ensures XpubObject(members1) == XpubObject(members2)
  {
  }

  /** An "addresses" object (not an array) enumerates properties, and a property cannot take "txs". */
  lemma AddressesObjectThrows(members: Members)
    requires Get(members, "addresses").Some? && Get(members, "addresses").value.JObj?
    requires |Get(members, "addresses").value.members| > 0
    ensures XpubObject(members) == Err(InvalidOperation(CannotSetChildValue("Newtonsoft.Json.Linq.JProperty")))
  {
  }
}
