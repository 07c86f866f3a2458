/**
 * BlockExplorer: the blockchain.info explorer endpoints.  Each operation
 * checks its arguments in a fixed order, builds a query string, asks the HTTP
 * client for one route and, for some routes, turns a server error into an
 * argument exception.  The transport, the JSON parser and the typed decoders
 * are parameters.
 */
module BlockExplorers {
  import opened Wrappers
  import opened Text
  import opened Errors
  import opened JsonTree
  import opened DateTimes
  import opened QueryStrings
  import opened HttpClient
  import Blocks
  import SimpleBlocks
  import Transactions
  import UnspentOutputs
  import Xpubs
  import UnixDateTimeConverter

  const DefaultUnspentTransactionsPerRequest: int := 250
  const MaxTransactionsPerMultiRequest: int := 100
  const MaxTransactionsPerRequest: int := 50

  /** Which transactions an address query returns; the default is RemoveUnspendable. */
  datatype FilterType = All | ConfirmedOnly | RemoveUnspendable

  /** `(int)filter`: the enumeration starts at 4. */
  function FilterCode(f: FilterType): (n: int)
    ensures 4 <= n <= 6
  {
    match f
    case All => 4
    case ConfirmedOnly => 5
    case RemoveUnspendable => 6
  }

  /** The server tells the three filters apart. */
  lemma FilterCodesDistinct(f: FilterType, g: FilterType)
    ensures FilterCode(f) == FilterCode(g) <==> f == g
  {
  }

  // ---------------------------------------------------------------------------
  // Argument checks

  /** `addressList?.Any() != true`: a null or empty address list. */
  predicate NoAddresses(addressList: Option<seq<string>>)
  {
    addressList.None? || |addressList.value| == 0
  }

  /** The exception for a transaction limit outside 1..max. */
  function LimitError(max: int): Error
  {
    ArgumentOutOfRange("limit", TransactionLimit(IntToString(max)))
  }

  /**
   * The paging checks of the address queries, in the order they run: the
   * limit must lie in 1..max, then the offset must not be negative.
   */
  function PagingGuard(limit: int, max: int, offset: int): (r: Option<Error>)
    ensures r.None? <==> 1 <= limit <= max && 0 <= offset
    ensures !(1 <= limit <= max) ==> r == Some(LimitError(max))
    ensures 1 <= limit <= max && offset < 0 ==> r == Some(ArgumentOutOfRange("offset", OffsetNonNegative))
  {
    if limit < 1 || limit > max then Some(LimitError(max))
    else if offset < 0 then Some(ArgumentOutOfRange("offset", OffsetNonNegative))
    else None
  }

  /**
   * The exception GetXpub and GetAddressAsync throw for a blank argument, as
   * written: the argument's value, not its name, becomes the parameter name.
   */
  function BlankArgumentAsWritten(value: Option<string>): (e: Error)
    ensures e.ArgumentNull? && e.reason == ValueCannotBeNull
    ensures IsNullOrWhiteSpace(value) ==> forall i :: 0 <= i < |e.paramName| ==> IsWhiteSpace(e.paramName[i])
  {
    ArgumentNull(NullText(value), ValueCannotBeNull)
  }

  /** The exception the other blank checks throw: the parameter's own name. */
  function BlankArgumentIntended(name: string): (e: Error)
    ensures e.ArgumentNull? && e.paramName == name && e.reason == ValueCannotBeNull
  {
    ArgumentNull(name, ValueCannotBeNull)
  }

  /** A null xpub is reported without any parameter name. */
  lemma NullXpubUnnamed()
    ensures BlankArgumentAsWritten(None).paramName == ""
    ensures MessageOf(BlankArgumentAsWritten(None)) == "Value cannot be null."
  {
  }

  /** With the parameter's name, the message says which argument was null. */
  lemma NullXpubNamedIntended()
    ensures MessageOf(BlankArgumentIntended("xpub")) == "Value cannot be null. (Parameter 'xpub')"
  {
  }

  // ---------------------------------------------------------------------------
  // Query strings

  /**
   * The query GetMultiAddressAsync and GetXpub send to "multiaddr": the
   * active entry, then limit, offset, filter code and format.
   */
  function ActiveQuery(active: string, limit: int, offset: int, filter: FilterType): (q: Entries)
    ensures Keys(q) == ["active", "limit", "offset", "filter", "format"] && ApiCodeKey !in Keys(q)
    ensures Lookup(q, "active") == Some(active)
    ensures q[3] == ("filter", IntToString(FilterCode(filter)))
  {
    var q := [("active", active), ("limit", IntToString(limit)), ("offset", IntToString(offset)),
              ("filter", IntToString(FilterCode(filter))), ("format", "json")];
    KeysIndex(q);
    q
  }

  /** GetUnspentOutputsAsync's query: addresses, limit, confirmations and format. */
  function UnspentQuery(addresses: seq<string>, limit: int, confirmations: int): (q: Entries)
    ensures Keys(q) == ["active", "limit", "confirmations", "format"] && ApiCodeKey !in Keys(q)
    ensures Lookup(q, "active") == Some(Join("|", addresses))
  {
    var q := [("active", Join("|", addresses)), ("limit", IntToString(limit)),
              ("confirmations", IntToString(confirmations)), ("format", "json")];
    KeysIndex(q);
    q
  }

  /** GetAddressAsync's query: the address is in the route, not the query. */
  function AddressQuery(limit: int, offset: int, filter: FilterType): (q: Entries)
    ensures Keys(q) == ["limit", "offset", "filter", "format"] && ApiCodeKey !in Keys(q)
  {
    var q := [("limit", IntToString(limit)), ("offset", IntToString(offset)),
              ("filter", IntToString(FilterCode(filter))), ("format", "json")];
    KeysIndex(q);
    q
  }

  /**
   * Each key of GetAddressAsync's query is new when it is added, and the four
   * make up AddressQuery; the entries are written as the additions build them.
   */
  lemma AddressQueryKeys(limit: int, offset: int, filter: FilterType)
    ensures var e1 := [] + [("limit", IntToString(limit))];
            var e2 := e1 + [("offset", IntToString(offset))];
            var e3 := e2 + [("filter", IntToString(FilterCode(filter)))];
            "limit" !in Keys([]) && "offset" !in Keys(e1) && "filter" !in Keys(e2) && "format" !in Keys(e3)
            && e3 + [("format", "json")] == AddressQuery(limit, offset, filter)
  {
    var e1 := [] + [("limit", IntToString(limit))];
    var e2 := e1 + [("offset", IntToString(offset))];
    KeysIndex(e1);
    KeysIndex(e2);
    KeysIndex(e2 + [("filter", IntToString(FilterCode(filter)))]);
  }

  /** The same for the query GetMultiAddressAsync and GetXpub build. */
  lemma ActiveQueryKeys(active: string, limit: int, offset: int, filter: FilterType)
    ensures var e1 := [] + [("active", active)];
            var e2 := e1 + [("limit", IntToString(limit))];
            var e3 := e2 + [("offset", IntToString(offset))];
            var e4 := e3 + [("filter", IntToString(FilterCode(filter)))];
            "active" !in Keys([]) && "limit" !in Keys(e1) && "offset" !in Keys(e2) && "filter" !in Keys(e3)
            && "format" !in Keys(e4) && e4 + [("format", "json")] == ActiveQuery(active, limit, offset, filter)
  {
    var e1 := [] + [("active", active)];
    var e2 := e1 + [("limit", IntToString(limit))];
    var e3 := e2 + [("offset", IntToString(offset))];
    KeysIndex(e1);
    KeysIndex(e2);
    KeysIndex(e3);
    KeysIndex(e3 + [("filter", IntToString(FilterCode(filter)))]);
  }

  /** The same for GetUnspentOutputsAsync's query. */
  lemma UnspentQueryKeys(addresses: seq<string>, limit: int, confirmations: int)
    ensures var e1 := [] + [("active", Join("|", addresses))];
            var e2 := e1 + [("limit", IntToString(limit))];
            var e3 := e2 + [("confirmations", IntToString(confirmations))];
            "active" !in Keys([]) && "limit" !in Keys(e1) && "confirmations" !in Keys(e2) && "format" !in Keys(e3)
            && e3 + [("format", "json")] == UnspentQuery(addresses, limit, confirmations)
  {
    var e1 := [] + [("active", Join("|", addresses))];
    var e2 := e1 + [("limit", IntToString(limit))];
    KeysIndex(e1);
    KeysIndex(e2);
    KeysIndex(e2 + [("confirmations", IntToString(confirmations))]);
  }

  // ---------------------------------------------------------------------------
  // Catch blocks

  /** GetMultiAddressAsync's catch: an invalid address becomes an argument exception. */
  function InvalidAddressesHandler<T>(e: Error): (r: Result<T, Error>)
    ensures Contains(MessageOf(e), "Invalid Bitcoin Address") ==> r == Err(Argument("addressQuery", InvalidAddresses))
    ensures !Contains(MessageOf(e), "Invalid Bitcoin Address") ==> r == Err(e)
  {
    if Contains(MessageOf(e), "Invalid Bitcoin Address") then Err(Argument("addressQuery", InvalidAddresses))
    else Err(e)
  }

  /**
   * GetUnspentOutputsAsync's catch: the server's "no free outputs to spend"
   * failure is an empty list; an invalid address becomes an argument exception.
   */
  function UnspentHandler<T>(e: Error): Result<seq<T>, Error>
  {
    if Contains(MessageOf(e), "outputs to spend") then Ok([])
    else if Contains(MessageOf(e), "Invalid Bitcoin Address") then Err(Argument("addressQuery", InvalidAddresses))
    else Err(e)
  }

  /** GetXpub's catch: an invalid address means the xpub is invalid. */
  function XpubHandler<T>(e: Error): Result<T, Error>
  {
    if Contains(MessageOf(e), "Invalid Bitcoin Address") then Err(Argument("xpub", InvalidXpub))
    else Err(e)
  }

  /** GetAddressAsync's catch: an address that does not validate or is too short is invalid. */
  function AddressHandler<T>(e: Error): Result<T, Error>
  {
    if Contains(MessageOf(e), "does not validate") || Contains(MessageOf(e), "too short") then
      Err(Argument("address", InvalidAddress))
    else Err(e)
  }

  // ---------------------------------------------------------------------------
  // Decoders handed to GetAsync

  function BlockDecoder<T>(parse: string -> Option<Json>, decode: Json -> Result<Option<T>, Error>): string -> Result<Option<T>, Error>
  {
    s => Blocks.Deserialized(s, parse, decode)
  }

  function BlockListDecoder<T>(parse: string -> Option<Json>, decode: Json -> Result<Option<T>, Error>): string -> Result<seq<T>, Error>
  {
    s => Blocks.DeserializeMultiple(s, parse, decode)
  }

  function SimpleBlocksDecoder<T>(parse: string -> Option<Json>, element: Json -> Result<T, Error>): string -> Result<Option<seq<T>>, Error>
  {
    s => SimpleBlocks.DeserializeMultiple(s, parse, element)
  }

  function TransactionsDecoder<T>(parse: string -> Option<Json>, element: Json -> Result<T, Error>): string -> Result<seq<T>, Error>
  {
    s => Transactions.DeserializeMultiple(s, parse, element)
  }

  function UnspentDecoder<T>(parse: string -> Option<Json>, element: Json -> Result<T, Error>): string -> Result<seq<T>, Error>
  {
    s => UnspentOutputs.DeserializeMultiple(s, parse, element)
  }

  function XpubDecoder<T>(parse: string -> Option<Json>, decode: Json -> Result<Option<T>, Error>): string -> Result<Option<T>, Error>
  {
    s => Xpubs.Deserialize(s, parse, decode)
  }

  // ---------------------------------------------------------------------------
  // What each operation returns or throws

  /** `GetAddressAsync(address, limit, offset, filter)`: route "address/<address>". */
  function AddressOutcome<T>(apiCode: Option<string>, address: Option<string>, limit: int, offset: int,
                             filter: FilterType, decode: string -> Result<T, Error>,
                             send: string -> Response, parse: string -> Option<Json>): Result<T, Error>
  {
    if IsNullOrWhiteSpace(address) then Err(BlankArgumentAsWritten(address))
    else match PagingGuard(limit, MaxTransactionsPerRequest, offset)
      case Some(e) => Err(e)
      case None =>
        Caught(GetOutcome(apiCode, Some("address/" + address.value), Some(AddressQuery(limit, offset, filter)),
                          None, decode, send, parse),
               AddressHandler)
  }

  /** `GetBlockAsync(hashOrIndex)`: route "rawblock/<hashOrIndex>", no query, Block.Deserialize. */
  function BlockOutcome<T>(apiCode: Option<string>, hashOrIndex: Option<string>,
                           decode: Json -> Result<Option<T>, Error>,
                           send: string -> Response, parse: string -> Option<Json>): Result<Option<T>, Error>
  {
    if IsNullOrWhiteSpace(hashOrIndex) then Err(ArgumentNull("hashOrIndex", ValueCannotBeNull))
    else GetOutcome(apiCode, Some("rawblock/" + hashOrIndex.value), None,
                    Some(BlockDecoder(parse, decode)), BlockDecoder(parse, decode), send, parse)
  }

  /** `GetBlockByHashAsync(hash)`: a blank hash is refused on "hash" before GetBlockAsync is called. */
  function BlockByHashOutcome<T>(apiCode: Option<string>, hash: Option<string>,
                                 decode: Json -> Result<Option<T>, Error>,
                                 send: string -> Response, parse: string -> Option<Json>): Result<Option<T>, Error>
  {
    if IsNullOrWhiteSpace(hash) then Err(ArgumentNull("hash", ValueCannotBeNull))
    else BlockOutcome(apiCode, hash, decode, send, parse)
  }

  /** `GetBlockByIndexAsync(index)`: a negative index is refused; otherwise its decimal text is the key. */
  function BlockByIndexOutcome<T>(apiCode: Option<string>, index: int,
                                  decode: Json -> Result<Option<T>, Error>,
                                  send: string -> Response, parse: string -> Option<Json>): Result<Option<T>, Error>
  {
    if index < 0 then Err(ArgumentOutOfRange("index", IndexGreaterThanZero))
    else BlockOutcome(apiCode, Some(IntToString(index)), decode, send, parse)
  }

  /** `GetBlocksAsync(poolNameOrTimestamp)`: route "blocks/<x>" with format=json, SimpleBlock.DeserializeMultiple. */
  function BlocksOutcome<T>(apiCode: Option<string>, poolNameOrTimestamp: Option<string>,
                            element: Json -> Result<T, Error>,
                            send: string -> Response, parse: string -> Option<Json>): Result<Option<seq<T>>, Error>
  {
    GetOutcome(apiCode, Some("blocks/" + NullText(poolNameOrTimestamp)), Some(FormatJson()),
               Some(SimpleBlocksDecoder(parse, element)), SimpleBlocksDecoder(parse, element), send, parse)
  }

  /** `GetTransactionAsync(hashOrIndex)`: route "rawtx/<hashOrIndex>", no query. */
  function TransactionOutcome<T>(apiCode: Option<string>, hashOrIndex: Option<string>,
                                 decode: string -> Result<T, Error>,
                                 send: string -> Response, parse: string -> Option<Json>): Result<T, Error>
  {
    if IsNullOrWhiteSpace(hashOrIndex) then Err(ArgumentNull("hashOrIndex", ValueCannotBeNull))
    else GetOutcome(apiCode, Some("rawtx/" + hashOrIndex.value), None, None, decode, send, parse)
  }

  /** `GetBlocksAtHeightAsync(height)`. */
  function BlocksAtHeightOutcome<T>(apiCode: Option<string>, height: int,
                                    decode: Json -> Result<Option<T>, Error>,
                                    send: string -> Response, parse: string -> Option<Json>): Result<seq<T>, Error>
  {
    if height < 0 then Err(ArgumentOutOfRange("height", BlockHeightNonNegative))
    else GetOutcome(apiCode, Some("block-height/" + IntToString(height)), Some(FormatJson()),
                    Some(BlockListDecoder(parse, decode)), BlockListDecoder(parse, decode), send, parse)
  }

  /**
   * `dateTime.ToUniversalTime()` in milliseconds: a UTC value is unchanged; a
   * local or unspecified one is shifted by the local offset and clamped to
   * the DateTime range.
   */
  function ToUniversalMillis(dateTime: DateTime, localOffsetMinutes: OffsetMinutes): (ms: int)
    ensures InRange(ms)
    ensures dateTime.kind == Utc ==> ms == dateTime.ms
    ensures dateTime.kind != Utc && InRange(dateTime.ms - localOffsetMinutes * MillisPerMinute) ==>
              ms == dateTime.ms - localOffsetMinutes * MillisPerMinute
  {
    if dateTime.kind == Utc then dateTime.ms
    else
      var shifted := dateTime.ms - localOffsetMinutes * MillisPerMinute;
      if shifted < MinMillis then MinMillis
      else if shifted > MaxMillis then MaxMillis
      else shifted
  }

  /**
   * `GetBlocksByDateTimeAsync(dateTime)`: the clock reading is taken as UTC
   * for the genesis check and the request, but converted from local time
   * (unless it is UTC already) for the check against the current time.
   */
  function BlocksByDateTimeOutcome<T>(apiCode: Option<string>, dateTime: DateTime, utcNow: DateTime,
                                      localOffsetMinutes: OffsetMinutes, element: Json -> Result<T, Error>,
                                      send: string -> Response, parse: string -> Option<Json>): Result<Option<seq<T>>, Error>
  {
    var unixMillis := dateTime.ms;
    if unixMillis < UnixDateTimeConverter.GenesisBlockUnixMillis then
      Err(ArgumentOutOfRange("dateTime", DateBeforeGenesis))
    else if ToUniversalMillis(dateTime, localOffsetMinutes) > utcNow.ms then
      Err(ArgumentOutOfRange("dateTime", DateInPast))
    else BlocksOutcome(apiCode, Some(IntToString(unixMillis)), element, send, parse)
  }

  /** `GetBlocksByTimestampAsync(unixMillis)`. */
  function BlocksByTimestampOutcome<T>(apiCode: Option<string>, unixMillis: int, element: Json -> Result<T, Error>,
                                       send: string -> Response, parse: string -> Option<Json>): Result<Option<seq<T>>, Error>
  {
    if unixMillis < UnixDateTimeConverter.GenesisBlockUnixMillis then
      Err(ArgumentOutOfRange("unixMillis", DateBeforeGenesis))
    else BlocksOutcome(apiCode, Some(IntToString(unixMillis)), element, send, parse)
  }

  /** `GetMultiAddressAsync(addressList, limit, offset, filter)`. */
  function MultiAddressOutcome<T>(apiCode: Option<string>, addressList: Option<seq<string>>, limit: int, offset: int,
                                  filter: FilterType, decode: string -> Result<T, Error>,
                                  send: string -> Response, parse: string -> Option<Json>): Result<T, Error>
  {
    if NoAddresses(addressList) then Err(ArgumentNull("addressList", NoAddressesProvided))
    else match PagingGuard(limit, MaxTransactionsPerMultiRequest, offset)
      case Some(e) => Err(e)
      case None =>
        Caught(GetOutcome(apiCode, Some("multiaddr"), Some(ActiveQuery(Join("|", addressList.value), limit, offset, filter)),
                          None, decode, send, parse),
               InvalidAddressesHandler)
  }

  /** The checks GetUnspentOutputsAsync makes before it builds its query, in order. */
  function UnspentGuard(addressList: Option<seq<string>>, limit: int, confirmations: int): (r: Option<Error>)
    ensures r.None? <==> !NoAddresses(addressList) && 1 <= limit <= DefaultUnspentTransactionsPerRequest && 0 <= confirmations
    ensures NoAddresses(addressList) ==> r == Some(ArgumentNull("addressList", NoAddressesProvided))
  {
    if NoAddresses(addressList) then Some(ArgumentNull("addressList", NoAddressesProvided))
    else if limit < 1 || limit > DefaultUnspentTransactionsPerRequest then Some(LimitError(DefaultUnspentTransactionsPerRequest))
    else if confirmations < 0 then Some(ArgumentOutOfRange("confirmations", ConfirmationsNonNegative))
    else None
  }

  /** `GetUnspentOutputsAsync(addressList, limit, confirmations)`. */
  function UnspentOutcome<T>(apiCode: Option<string>, addressList: Option<seq<string>>, limit: int, confirmations: int,
                             element: Json -> Result<T, Error>,
                             send: string -> Response, parse: string -> Option<Json>): Result<seq<T>, Error>
  {
    match UnspentGuard(addressList, limit, confirmations)
    case Some(e) => Err(e)
    case None =>
      Caught(GetOutcome(apiCode, Some("unspent"), Some(UnspentQuery(addressList.value, limit, confirmations)),
                        Some(UnspentDecoder(parse, element)), UnspentDecoder(parse, element), send, parse),
             UnspentHandler)
  }

  /** `GetXpub(xpub, limit, offset, filter)`. */
  function XpubOutcome<T>(apiCode: Option<string>, xpub: Option<string>, limit: int, offset: int,
                          filter: FilterType, decode: Json -> Result<Option<T>, Error>,
                          send: string -> Response, parse: string -> Option<Json>): Result<Option<T>, Error>
  {
    if IsNullOrWhiteSpace(xpub) then Err(BlankArgumentAsWritten(xpub))
    else match PagingGuard(limit, MaxTransactionsPerMultiRequest, offset)
      case Some(e) => Err(e)
      case None =>
        Caught(GetOutcome(apiCode, Some("multiaddr"), Some(ActiveQuery(xpub.value, limit, offset, filter)),
                          Some(XpubDecoder(parse, decode)), XpubDecoder(parse, decode), send, parse),
               XpubHandler)
  }

  // ---------------------------------------------------------------------------
  // Properties of the operations

  /** Every argument check of GetMultiAddressAsync fails before anything is sent. */
  lemma MultiAddressChecksFirst<T>(apiCode: Option<string>, addressList: Option<seq<string>>, limit: int, offset: int,
                                   filter: FilterType, decode: string -> Result<T, Error>,
                                   send1: string -> Response, send2: string -> Response, parse: string -> Option<Json>)
    requires NoAddresses(addressList) || PagingGuard(limit, MaxTransactionsPerMultiRequest, offset).Some?
    ensures MultiAddressOutcome(apiCode, addressList, limit, offset, filter, decode, send1, parse)
         == MultiAddressOutcome(apiCode, addressList, limit, offset, filter, decode, send2, parse)
    ensures MultiAddressOutcome(apiCode, addressList, limit, offset, filter, decode, send1, parse).Err?
  {
  }

  /** The multi-address request: "multiaddr", the rendered query, then the API code. */
  lemma MultiAddressRequest(apiCode: Option<string>, addresses: seq<string>, limit: int, offset: int, filter: FilterType)
    ensures GetRequestRoute(apiCode, Some("multiaddr"), Some(ActiveQuery(Join("|", addresses), limit, offset, filter)))
         == Some("multiaddr" + Render(ActiveQuery(Join("|", addresses), limit, offset, filter)) + ApiCodeSuffix(apiCode))
  {
    RequestedRoute(apiCode, "multiaddr", ActiveQuery(Join("|", addresses), limit, offset, filter));
  }

  /**
   * When GetAsync fails with a message mentioning "outputs to spend", the
   * unspent-outputs query returns the empty list, even if the message also
   * names an invalid address.
   */
  lemma NoFreeOutputsIsEmpty<T>(apiCode: Option<string>, addressList: Option<seq<string>>, limit: int, confirmations: int,
                                element: Json -> Result<T, Error>,
                                send: string -> Response, parse: string -> Option<Json>)
    requires UnspentGuard(addressList, limit, confirmations).None?
    requires var fetched := GetOutcome(apiCode, Some("unspent"), Some(UnspentQuery(addressList.value, limit, confirmations)),
                                       Some(UnspentDecoder(parse, element)), UnspentDecoder(parse, element), send, parse);
             fetched.Err? && Contains(MessageOf(fetched.error), "outputs to spend")
    ensures UnspentOutcome(apiCode, addressList, limit, confirmations, element, send, parse) == Ok([])
  {
  }

  /** A failure response reading "No free outputs to spend" is an exception whose message mentions "outputs to spend". */
  lemma NoFreeOutputsResponse(status: int, reason: Option<string>, parse: string -> Option<Json>)
    ensures var message := ReasonText(reason) + ": " + "No free outputs to spend";
            ValidateResponse(Response(false, status, reason, "No free outputs to spend"), parse)
            == Err(ServerApi(Literal(message), status))
            && Contains(MessageOf(ServerApi(Literal(message), status)), "outputs to spend")
  {
    var body := "No free outputs to spend";
    assert !EqualsIgnoreCase(body, BlockNotFoundText) by {
      assert |body| != |BlockNotFoundText|;
    }
    NoFreeOutputsMessage(ReasonText(reason));
  }

  /** Whatever the reason phrase, the composed message mentions "outputs to spend". */
  lemma NoFreeOutputsMessage(reason: string)
    ensures Contains(reason + ": " + "No free outputs to spend", "outputs to spend")
  {
    assert reason + ": " + "No free outputs to spend" == (reason + ": No free ") + "outputs to spend";
    ContainsSuffix(reason + ": No free ", "outputs to spend");
  }

  /** A failure response whose body reads "No free outputs to spend" is an empty list of unspent outputs. */
  lemma FailedResponseNoOutputs<T>(apiCode: Option<string>, addressList: Option<seq<string>>, limit: int, confirmations: int,
                                   element: Json -> Result<T, Error>, send: string -> Response,
                                   parse: string -> Option<Json>, status: int, reason: Option<string>)
    requires UnspentGuard(addressList, limit, confirmations).None?
    requires forall route :: send(route) == Response(false, status, reason, "No free outputs to spend")
    ensures UnspentOutcome(apiCode, addressList, limit, confirmations, element, send, parse) == Ok([])
  {
    var query := UnspentQuery(addressList.value, limit, confirmations);
    var decoder := UnspentDecoder(parse, element);
    var message := ReasonText(reason) + ": " + "No free outputs to spend";
    NoFreeOutputsResponse(status, reason, parse);
    var sent := WithApiCode(apiCode, Some(query));
    assert sent.Ok?;
    var path := ExtendedRoute("unspent", sent.value);
    assert send(path) == Response(false, status, reason, "No free outputs to spend");
    assert GetOutcome(apiCode, Some("unspent"), Some(query), Some(decoder), decoder, send, parse)
        == Err(ServerApi(Literal(message), status));
    NoFreeOutputsIsEmpty(apiCode, addressList, limit, confirmations, element, send, parse);
  }

  /** The timestamp and date-time lookups agree once both dates pass their checks. */
  lemma DateTimeIsTimestamp<T>(apiCode: Option<string>, dateTime: DateTime, utcNow: DateTime,
                               localOffsetMinutes: OffsetMinutes, element: Json -> Result<T, Error>,
                               send: string -> Response, parse: string -> Option<Json>)
    requires ToUniversalMillis(dateTime, localOffsetMinutes) <= utcNow.ms
    ensures dateTime.ms >= UnixDateTimeConverter.GenesisBlockUnixMillis ==>
              BlocksByDateTimeOutcome(apiCode, dateTime, utcNow, localOffsetMinutes, element, send, parse)
              == BlocksByTimestampOutcome(apiCode, dateTime.ms, element, send, parse)
    ensures dateTime.ms < UnixDateTimeConverter.GenesisBlockUnixMillis ==>
              BlocksByDateTimeOutcome(apiCode, dateTime, utcNow, localOffsetMinutes, element, send, parse)
              == Err(ArgumentOutOfRange("dateTime", DateBeforeGenesis))
              && BlocksByTimestampOutcome(apiCode, dateTime.ms, element, send, parse)
              == Err(ArgumentOutOfRange("unixMillis", DateBeforeGenesis))
  {
  }

  /** A UTC date after the current time is refused, whatever the transport would answer. */
  lemma FutureUtcDateRefused<T>(apiCode: Option<string>, dateTime: DateTime, utcNow: DateTime,
                                localOffsetMinutes: OffsetMinutes, element: Json -> Result<T, Error>,
                                send: string -> Response, parse: string -> Option<Json>)
    requires dateTime.kind == Utc && dateTime.ms > utcNow.ms
    requires dateTime.ms >= UnixDateTimeConverter.GenesisBlockUnixMillis
    ensures BlocksByDateTimeOutcome(apiCode, dateTime, utcNow, localOffsetMinutes, element, send, parse)
         == Err(ArgumentOutOfRange("dateTime", DateInPast))
  {
  }

  /**
   * A local time ahead of UTC that reads later than the current UTC time is
   * still accepted when it is in the past once converted.
   */
  lemma LocalDateConverted<T>(apiCode: Option<string>, dateTime: DateTime, utcNow: DateTime,
                              localOffsetMinutes: OffsetMinutes, element: Json -> Result<T, Error>,
                              send: string -> Response, parse: string -> Option<Json>)
    requires dateTime.kind == Local && dateTime.ms >= UnixDateTimeConverter.GenesisBlockUnixMillis
    requires dateTime.ms - localOffsetMinutes * MillisPerMinute <= utcNow.ms
    ensures BlocksByDateTimeOutcome(apiCode, dateTime, utcNow, localOffsetMinutes, element, send, parse)
         == BlocksOutcome(apiCode, Some(IntToString(dateTime.ms)), element, send, parse)
  {
  }

  /**
   * GetBlockAsync's own blank check is unreachable from GetBlockByHashAsync:
   * a blank hash is reported on "hash" whatever the server would answer, and
   * any other hash goes straight to the rawblock request, so an exception on
   * "hashOrIndex" could only come from the request itself.
   */
  lemma BlockByHashChecksOnce<T>(apiCode: Option<string>, hash: Option<string>, decode: Json -> Result<Option<T>, Error>,
                                 send1: string -> Response, send2: string -> Response, parse: string -> Option<Json>)
    ensures IsNullOrWhiteSpace(hash) ==>
              BlockByHashOutcome(apiCode, hash, decode, send1, parse) == Err(ArgumentNull("hash", ValueCannotBeNull))
              && BlockByHashOutcome(apiCode, hash, decode, send2, parse) == Err(ArgumentNull("hash", ValueCannotBeNull))
    ensures !IsNullOrWhiteSpace(hash) ==>
              BlockByHashOutcome(apiCode, hash, decode, send1, parse)
              == GetOutcome(apiCode, Some("rawblock/" + hash.value), None,
                            Some(BlockDecoder(parse, decode)), BlockDecoder(parse, decode), send1, parse)
  {
  }

  /**
   * The same for GetBlockByIndexAsync: the decimal text of an index is never
   * blank, so a non-negative index goes straight to the rawblock request.
   */
  lemma BlockByIndexChecksOnce<T>(apiCode: Option<string>, index: int, decode: Json -> Result<Option<T>, Error>,
                                  send: string -> Response, parse: string -> Option<Json>)
    requires 0 <= index
    ensures BlockByIndexOutcome(apiCode, index, decode, send, parse)
         == GetOutcome(apiCode, Some("rawblock/" + IntToString(index)), None,
                       Some(BlockDecoder(parse, decode)), BlockDecoder(parse, decode), send, parse)
  {
    var key := IntToString(index);
    assert IsDigit(key[0]);
    assert !IsNullOrWhiteSpace(Some(key));
  }

  /** Both address spellings reach GetAddressAsync; an address that is too short is reported as invalid. */
  lemma TooShortAddressInvalid<T>(apiCode: Option<string>, address: Option<string>, limit: int, offset: int,
                                  filter: FilterType, decode: string -> Result<T, Error>,
                                  send: string -> Response, parse: string -> Option<Json>)
    requires !IsNullOrWhiteSpace(address) && PagingGuard(limit, MaxTransactionsPerRequest, offset).None?
    requires var fetched := GetOutcome(apiCode, Some("address/" + address.value), Some(AddressQuery(limit, offset, filter)),
                                       None, decode, send, parse);
             fetched.Err? && Contains(MessageOf(fetched.error), "too short")
    ensures AddressOutcome(apiCode, address, limit, offset, filter, decode, send, parse) == Err(Argument("address", InvalidAddress))
  {
  }

  // ---------------------------------------------------------------------------
  // The explorer

  class BlockExplorer {
    const httpClient: BlockchainHttpClient

    /** `new BlockExplorer()`: a client of its own, without an API code. */
    constructor ()
      ensures fresh(httpClient) && httpClient.apiCode.None?
    {
      httpClient := new BlockchainHttpClient(None);
    }

    /** `new BlockExplorer(httpClient)`. */
    constructor WithClient(httpClient: BlockchainHttpClient)
      ensures this.httpClient == httpClient
    {
      this.httpClient := httpClient;
    }

    /** `GetBase58AddressAsync`: GetAddressAsync under another name. */
    method GetBase58AddressAsync<T>(address: Option<string>, limit: int, offset: int, filter: FilterType,
                                    decode: string -> Result<T, Error>, send: string -> Response,
                                    parse: string -> Option<Json>) returns (r: Result<T, Error>)
      ensures r == AddressOutcome(httpClient.apiCode, address, limit, offset, filter, decode, send, parse)
    {
      r := GetAddressAsync(address, limit, offset, filter, decode, send, parse);
    }

    /** `GetHash160AddressAsync`: GetAddressAsync under another name. */
    method GetHash160AddressAsync<T>(address: Option<string>, limit: int, offset: int, filter: FilterType,
                                     decode: string -> Result<T, Error>, send: string -> Response,
                                     parse: string -> Option<Json>) returns (r: Result<T, Error>)
      ensures r == AddressOutcome(httpClient.apiCode, address, limit, offset, filter, decode, send, parse)
    {
      r := GetAddressAsync(address, limit, offset, filter, decode, send, parse);
    }

    /** `GetBlockByHashAsync(hash)`: a blank hash is refused under its own name. */
    method GetBlockByHashAsync<T>(hash: Option<string>, decode: Json -> Result<Option<T>, Error>,
                                  send: string -> Response, parse: string -> Option<Json>) returns (r: Result<Option<T>, Error>)
      ensures r == BlockByHashOutcome(httpClient.apiCode, hash, decode, send, parse)
    {
      if IsNullOrWhiteSpace(hash) {
        return Err(ArgumentNull("hash", ValueCannotBeNull));
      }
      r := GetBlockAsync(hash, decode, send, parse);
    }

    /** `GetBlockByIndexAsync(index)`: a negative index is refused; otherwise its decimal text is the key. */
    method GetBlockByIndexAsync<T>(index: int, decode: Json -> Result<Option<T>, Error>,
                                   send: string -> Response, parse: string -> Option<Json>) returns (r: Result<Option<T>, Error>)
      ensures r == BlockByIndexOutcome(httpClient.apiCode, index, decode, send, parse)
    {
      if index < 0 {
        return Err(ArgumentOutOfRange("index", IndexGreaterThanZero));
      }
      r := GetBlockAsync(Some(IntToString(index)), decode, send, parse);
    }

    /** `GetBlocksAtHeightAsync(height)`. */
    method GetBlocksAtHeightAsync<T>(height: int, decode: Json -> Result<Option<T>, Error>,
                                     send: string -> Response, parse: string -> Option<Json>) returns (r: Result<seq<T>, Error>)
      ensures r == BlocksAtHeightOutcome(httpClient.apiCode, height, decode, send, parse)
    {
      if height < 0 {
        return Err(ArgumentOutOfRange("height", BlockHeightNonNegative));
      }
      var query := new QueryString();
      var _ := query.Add("format", "json");
      assert query.entries == FormatJson();
      var decoder := BlockListDecoder(parse, decode);
      r := httpClient.GetAsync(Some("block-height/" + IntToString(height)), query, Some(decoder), decoder, send, parse);
    }

    /** `GetBlocksByDateTimeAsync(dateTime)`, with the clock and the local time zone's offset as arguments. */
    method GetBlocksByDateTimeAsync<T>(dateTime: DateTime, utcNow: DateTime, localOffsetMinutes: OffsetMinutes,
                                       element: Json -> Result<T, Error>, send: string -> Response,
                                       parse: string -> Option<Json>) returns (r: Result<Option<seq<T>>, Error>)
      ensures r == BlocksByDateTimeOutcome(httpClient.apiCode, dateTime, utcNow, localOffsetMinutes, element, send, parse)
    {
      var unixMillis := dateTime.ms;
      if unixMillis < UnixDateTimeConverter.GenesisBlockUnixMillis {
        return Err(ArgumentOutOfRange("dateTime", DateBeforeGenesis));
      }
      if ToUniversalMillis(dateTime, localOffsetMinutes) > utcNow.ms {
        return Err(ArgumentOutOfRange("dateTime", DateInPast));
      }
      r := GetBlocksAsync(Some(IntToString(unixMillis)), element, send, parse);
    }

    /** `GetBlocksByPoolNameAsync(poolName)`. */
    method GetBlocksByPoolNameAsync<T>(poolName: Option<string>, element: Json -> Result<T, Error>,
                                       send: string -> Response, parse: string -> Option<Json>) returns (r: Result<Option<seq<T>>, Error>)
      ensures r == BlocksOutcome(httpClient.apiCode, poolName, element, send, parse)
    {
      r := GetBlocksAsync(poolName, element, send, parse);
    }

    /** `GetBlocksByTimestampAsync(unixMillis)`. */
    method GetBlocksByTimestampAsync<T>(unixMillis: int, element: Json -> Result<T, Error>,
                                        send: string -> Response, parse: string -> Option<Json>) returns (r: Result<Option<seq<T>>, Error>)
      ensures r == BlocksByTimestampOutcome(httpClient.apiCode, unixMillis, element, send, parse)
    {
      if unixMillis < UnixDateTimeConverter.GenesisBlockUnixMillis {
        return Err(ArgumentOutOfRange("unixMillis", DateBeforeGenesis));
      }
      r := GetBlocksAsync(Some(IntToString(unixMillis)), element, send, parse);
    }

    /** `GetLatestBlockAsync()`: route "latestblock" with no query. */
    method GetLatestBlockAsync<T>(decode: string -> Result<T, Error>, send: string -> Response,
                                  parse: string -> Option<Json>) returns (r: Result<T, Error>)
      ensures r == GetOutcome(httpClient.apiCode, Some("latestblock"), None, None, decode, send, parse)
    {
      r := httpClient.GetAsync(Some("latestblock"), null, None, decode, send, parse);
    }

    /** `GetMultiAddressAsync(addressList, limit, offset, filter)`. */
    method GetMultiAddressAsync<T>(addressList: Option<seq<string>>, limit: int, offset: int, filter: FilterType,
                                   decode: string -> Result<T, Error>, send: string -> Response,
                                   parse: string -> Option<Json>) returns (r: Result<T, Error>)
      ensures r == MultiAddressOutcome(httpClient.apiCode, addressList, limit, offset, filter, decode, send, parse)
    {
      if addressList.None? || |addressList.value| == 0 {
        return Err(ArgumentNull("addressList", NoAddressesProvided));
      }
      if limit < 1 || limit > MaxTransactionsPerMultiRequest {
        return Err(ArgumentOutOfRange("limit", TransactionLimit(IntToString(MaxTransactionsPerMultiRequest))));
      }
      if offset < 0 {
        return Err(ArgumentOutOfRange("offset", OffsetNonNegative));
      }
      var query := new QueryString();
      var addressQuery := Join("|", addressList.value);
      ActiveQueryKeys(addressQuery, limit, offset, filter);
      var _ := query.Add("active", addressQuery);
      var _ := query.Add("limit", IntToString(limit));
      var _ := query.Add("offset", IntToString(offset));
      var _ := query.Add("filter", IntToString(FilterCode(filter)));
      var _ := query.Add("format", "json");
      var fetched := httpClient.GetAsync(Some("multiaddr"), query, None, decode, send, parse);
      r := Caught(fetched, InvalidAddressesHandler);
    }

    /** `GetTransactionByHashAsync(hash)`. */
    method GetTransactionByHashAsync<T>(hash: Option<string>, decode: string -> Result<T, Error>,
                                        send: string -> Response, parse: string -> Option<Json>) returns (r: Result<T, Error>)
      ensures IsNullOrWhiteSpace(hash) ==> r == Err(ArgumentNull("hash", ValueCannotBeNull))
      ensures !IsNullOrWhiteSpace(hash) ==> r == TransactionOutcome(httpClient.apiCode, hash, decode, send, parse)
    {
      if IsNullOrWhiteSpace(hash) {
        return Err(ArgumentNull("hash", ValueCannotBeNull));
      }
      r := GetTransactionAsync(hash, decode, send, parse);
    }

    /** `GetTransactionByIndexAsync(index)`. */
    method GetTransactionByIndexAsync<T>(index: int, decode: string -> Result<T, Error>,
                                         send: string -> Response, parse: string -> Option<Json>) returns (r: Result<T, Error>)
      ensures index < 0 ==> r == Err(ArgumentOutOfRange("index", IndexPositive))
      ensures 0 <= index ==> r == TransactionOutcome(httpClient.apiCode, Some(IntToString(index)), decode, send, parse)
    {
      if index < 0 {
        return Err(ArgumentOutOfRange("index", IndexPositive));
      }
      r := GetTransactionAsync(Some(IntToString(index)), decode, send, parse);
    }

    /** `GetUnconfirmedTransactionsAsync()`: route "unconfirmed-transactions" with format=json. */
    method GetUnconfirmedTransactionsAsync<T>(element: Json -> Result<T, Error>, send: string -> Response,
                                              parse: string -> Option<Json>) returns (r: Result<seq<T>, Error>)
      ensures r == GetOutcome(httpClient.apiCode, Some("unconfirmed-transactions"), Some(FormatJson()),
                              Some(TransactionsDecoder(parse, element)), TransactionsDecoder(parse, element), send, parse)
    {
      var query := new QueryString();
      var _ := query.Add("format", "json");
      assert query.entries == FormatJson();
      var decoder := TransactionsDecoder(parse, element);
      r := httpClient.GetAsync(Some("unconfirmed-transactions"), query, Some(decoder), decoder, send, parse);
    }

    /** `GetUnspentOutputsAsync(addressList, limit, confirmations)`. */
    method GetUnspentOutputsAsync<T>(addressList: Option<seq<string>>, limit: int, confirmations: int,
                                     element: Json -> Result<T, Error>, send: string -> Response,
                                     parse: string -> Option<Json>) returns (r: Result<seq<T>, Error>)
      ensures r == UnspentOutcome(httpClient.apiCode, addressList, limit, confirmations, element, send, parse)
    {
      if addressList.None? || |addressList.value| == 0 {
        return Err(ArgumentNull("addressList", NoAddressesProvided));
      }
      if limit < 1 || limit > DefaultUnspentTransactionsPerRequest {
        return Err(ArgumentOutOfRange("limit", TransactionLimit(IntToString(DefaultUnspentTransactionsPerRequest))));
      }
      if confirmations < 0 {
        return Err(ArgumentOutOfRange("confirmations", ConfirmationsNonNegative));
      }
      var query := new QueryString();
      var addressQuery := Join("|", addressList.value);
      UnspentQueryKeys(addressList.value, limit, confirmations);
      var _ := query.Add("active", addressQuery);
      var _ := query.Add("limit", IntToString(limit));
      var _ := query.Add("confirmations", IntToString(confirmations));
      var _ := query.Add("format", "json");
      var decoder := UnspentDecoder(parse, element);
      var fetched := httpClient.GetAsync(Some("unspent"), query, Some(decoder), decoder, send, parse);
      r := Caught(fetched, UnspentHandler);
    }

    /** `GetXpub(xpub, limit, offset, filter)`. */
    method GetXpub<T>(xpub: Option<string>, limit: int, offset: int, filter: FilterType,
                      decode: Json -> Result<Option<T>, Error>, send: string -> Response,
                      parse: string -> Option<Json>) returns (r: Result<Option<T>, Error>)
      ensures r == XpubOutcome(httpClient.apiCode, xpub, limit, offset, filter, decode, send, parse)
    {
      if IsNullOrWhiteSpace(xpub) {
        return Err(ArgumentNull(NullText(xpub), ValueCannotBeNull));
      }
      if limit < 1 || limit > MaxTransactionsPerMultiRequest {
        return Err(ArgumentOutOfRange("limit", TransactionLimit(IntToString(MaxTransactionsPerMultiRequest))));
      }
      if offset < 0 {
        return Err(ArgumentOutOfRange("offset", OffsetNonNegative));
      }
      var query := new QueryString();
      ActiveQueryKeys(xpub.value, limit, offset, filter);
      var _ := query.Add("active", xpub.value);
      var _ := query.Add("limit", IntToString(limit));
      var _ := query.Add("offset", IntToString(offset));
      var _ := query.Add("filter", IntToString(FilterCode(filter)));
      var _ := query.Add("format", "json");
      var decoder := XpubDecoder(parse, decode);
      var fetched := httpClient.GetAsync(Some("multiaddr"), query, Some(decoder), decoder, send, parse);
      assert PagingGuard(limit, MaxTransactionsPerMultiRequest, offset).None?;
      r := Caught(fetched, XpubHandler);
    }

    /** `GetAddressAsync(address, limit, offset, filter)`. */
    method GetAddressAsync<T>(address: Option<string>, limit: int, offset: int, filter: FilterType,
                              decode: string -> Result<T, Error>, send: string -> Response,
                              parse: string -> Option<Json>) returns (r: Result<T, Error>)
      ensures r == AddressOutcome(httpClient.apiCode, address, limit, offset, filter, decode, send, parse)
    {
      if IsNullOrWhiteSpace(address) {
        return Err(ArgumentNull(NullText(address), ValueCannotBeNull));
      }
      if limit < 1 || limit > MaxTransactionsPerRequest {
        return Err(ArgumentOutOfRange("limit", TransactionLimit(IntToString(MaxTransactionsPerRequest))));
      }
      if offset < 0 {
        return Err(ArgumentOutOfRange("offset", OffsetNonNegative));
      }
      var query := new QueryString();
      AddressQueryKeys(limit, offset, filter);
      var _ := query.Add("limit", IntToString(limit));
      var _ := query.Add("offset", IntToString(offset));
      var _ := query.Add("filter", IntToString(FilterCode(filter)));
      var _ := query.Add("format", "json");
      var fetched := httpClient.GetAsync(Some("address/" + address.value), query, None, decode, send, parse);
      r := Caught(fetched, AddressHandler);
    }

    /** `GetBlockAsync(hashOrIndex)`. */
    method GetBlockAsync<T>(hashOrIndex: Option<string>, decode: Json -> Result<Option<T>, Error>,
                            send: string -> Response, parse: string -> Option<Json>) returns (r: Result<Option<T>, Error>)
      ensures r == BlockOutcome(httpClient.apiCode, hashOrIndex, decode, send, parse)
    {
      if IsNullOrWhiteSpace(hashOrIndex) {
        return Err(ArgumentNull("hashOrIndex", ValueCannotBeNull));
      }
      var decoder := BlockDecoder(parse, decode);
      r := httpClient.GetAsync(Some("rawblock/" + hashOrIndex.value), null, Some(decoder), decoder, send, parse);
    }

    /** `GetBlocksAsync(poolNameOrTimestamp)`. */
    method GetBlocksAsync<T>(poolNameOrTimestamp: Option<string>, element: Json -> Result<T, Error>,
                             send: string -> Response, parse: string -> Option<Json>) returns (r: Result<Option<seq<T>>, Error>)
      ensures r == BlocksOutcome(httpClient.apiCode, poolNameOrTimestamp, element, send, parse)
    {
      var query := new QueryString();
      var _ := query.Add("format", "json");
      assert query.entries == FormatJson();
      var decoder := SimpleBlocksDecoder(parse, element);
      r := httpClient.GetAsync(Some("blocks/" + NullText(poolNameOrTimestamp)), query, Some(decoder), decoder, send, parse);
    }

    /** `GetTransactionAsync(hashOrIndex)`. */
    method GetTransactionAsync<T>(hashOrIndex: Option<string>, decode: string -> Result<T, Error>,
                                  send: string -> Response, parse: string -> Option<Json>) returns (r: Result<T, Error>)
      ensures r == TransactionOutcome(httpClient.apiCode, hashOrIndex, decode, send, parse)
    {
      if IsNullOrWhiteSpace(hashOrIndex) {
        return Err(ArgumentNull("hashOrIndex", ValueCannotBeNull));
      }
      r := httpClient.GetAsync(Some("rawtx/" + hashOrIndex.value), null, None, decode, send, parse);
    }
  }
}
