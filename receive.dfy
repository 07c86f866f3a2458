/**
 * Receive: the receive-payments endpoints.  No argument is checked before
 * the request (a null argument is sent as an empty value); after the call,
 * the server's complaints about the xpub or the API key become argument
 * exceptions.
 */
module ReceiveExplorers {
  import opened Wrappers
  import opened Text
  import opened Errors
  import opened JsonTree
  import opened QueryStrings
  import opened HttpClient

  /** The exception for an xpub the server calls malformed. */
  const BadXpub: Error := Argument("xpub", InvalidXpub)

  /** The exception for an API key the server rejects. */
  const BadKey: Error := Argument("key", InvalidApiKey)

  /** CheckAddressGapAsync's query: the xpub, then the key. */
  function CheckGapQuery(xpub: Option<string>, key: Option<string>): (q: Entries)
    ensures Keys(q) == ["xpub", "key"] && ApiCodeKey !in Keys(q)
    ensures Lookup(q, "xpub") == Some(NullText(xpub)) && Lookup(q, "key") == Some(NullText(key))
  {
    [("xpub", NullText(xpub)), ("key", NullText(key))]
  }

  /** GenerateAddressAsync's query: xpub, callback and key, then gap_limit only when one is given. */
  function GenerateQuery(xpub: Option<string>, callback: Option<string>, key: Option<string>,
                         gapLimit: Option<int>): Entries
  {
    [("xpub", NullText(xpub)), ("callback", NullText(callback)), ("key", NullText(key))]
    + (if gapLimit.Some? then [("gap_limit", IntToString(gapLimit.value))] else [])
  }

  /** GetCallbackLogsAsync's query: the callback, then the key. */
  function CallbackLogQuery(callback: Option<string>, key: Option<string>): (q: Entries)
    ensures Keys(q) == ["callback", "key"] && ApiCodeKey !in Keys(q)
  {
    [("callback", NullText(callback)), ("key", NullText(key))]
  }

  /**
   * The catch of CheckAddressGapAsync and GenerateAddressAsync: "Invalid xpub
   * format" means a bad xpub, checked before "API Key is not valid", which
   * means a bad key; anything else is rethrown unchanged.
   */
  function XpubOrKeyHandler<T>(e: Error): (r: Result<T, Error>)
    ensures r.Err?
    ensures Contains(MessageOf(e), "Invalid xpub format") ==> r.error == BadXpub
    ensures !Contains(MessageOf(e), "Invalid xpub format") ==>
              r.error == if Contains(MessageOf(e), "API Key is not valid") then BadKey else e
  {
    if Contains(MessageOf(e), "Invalid xpub format") then Err(BadXpub)
    else if Contains(MessageOf(e), "API Key is not valid") then Err(BadKey)
    else Err(e)
  }

  /** GetCallbackLogsAsync's catch: only a rejected API key is mapped. */
  function KeyHandler<T>(e: Error): (r: Result<T, Error>)
    ensures r.Err?
    ensures r.error == if Contains(MessageOf(e), "API Key is not valid") then BadKey else e
  {
    if Contains(MessageOf(e), "API Key is not valid") then Err(BadKey) else Err(e)
  }

  /** `CheckAddressGapAsync(xpub, key)`: route "receive/checkgap". */
  function CheckGapOutcome<T>(apiCode: Option<string>, xpub: Option<string>, key: Option<string>,
                              decode: string -> Result<T, Error>,
                              send: string -> Response, parse: string -> Option<Json>): Result<T, Error>
  {
    Caught(GetOutcome(apiCode, Some("receive/checkgap"), Some(CheckGapQuery(xpub, key)), None, decode, send, parse),
           XpubOrKeyHandler)
  }

  /** `GenerateAddressAsync(xpub, callback, key, gapLimit)`: route "receive". */
  function GenerateOutcome<T>(apiCode: Option<string>, xpub: Option<string>, callback: Option<string>,
                              key: Option<string>, gapLimit: Option<int>, decode: string -> Result<T, Error>,
                              send: string -> Response, parse: string -> Option<Json>): Result<T, Error>
  {
    Caught(GetOutcome(apiCode, Some("receive"), Some(GenerateQuery(xpub, callback, key, gapLimit)),
                      None, decode, send, parse),
           XpubOrKeyHandler)
  }

  /** `GetCallbackLogsAsync(callback, key)`: route "receive/callback_log". */
  function CallbackLogsOutcome<T>(apiCode: Option<string>, callback: Option<string>, key: Option<string>,
                                  decode: string -> Result<T, Error>,
                                  send: string -> Response, parse: string -> Option<Json>): Result<T, Error>
  {
    Caught(GetOutcome(apiCode, Some("receive/callback_log"), Some(CallbackLogQuery(callback, key)),
                      None, decode, send, parse),
           KeyHandler)
  }

  // ---------------------------------------------------------------------------
  // Properties of the operations

  /** CheckAddressGapAsync's query renders as "?xpub=<xpub>&key=<key>". */
  lemma CheckGapQueryRendered(x: string, k: string)
    ensures Render([("xpub", x), ("key", k)]) == "?xpub=" + x + "&key=" + k
  {
    assert "?" + "xpub" + "=" + x + "&" + "key" + "=" + k == "?xpub=" + x + "&key=" + k;
    RenderTwo("xpub", x, "key", k);
  }

  /** CheckAddressGapAsync's request: "receive/checkgap?xpub=<xpub>&key=<key>", then the API code. */
  lemma CheckGapRequest(apiCode: Option<string>, xpub: Option<string>, key: Option<string>)
    ensures GetRequestRoute(apiCode, Some("receive/checkgap"), Some(CheckGapQuery(xpub, key)))
         == Some("receive/checkgap" + ("?xpub=" + NullText(xpub) + "&key=" + NullText(key)) + ApiCodeSuffix(apiCode))
  {
    RequestedRoute(apiCode, "receive/checkgap", CheckGapQuery(xpub, key));
    CheckGapQueryRendered(NullText(xpub), NullText(key));
  }

  /** The three fixed entries of GenerateAddressAsync's query render as "?xpub=<x>&callback=<c>&key=<k>". */
  lemma FixedEntriesRendered(x: string, c: string, k: string)
    ensures Render([("xpub", x), ("callback", c), ("key", k)]) == "?xpub=" + x + "&callback=" + c + "&key=" + k
  {
    var two := [("xpub", x), ("callback", c)];
    assert "?" + "xpub" + "=" + x + "&" + "callback" + "=" + c + "&" + "key" + "=" + k
        == "?xpub=" + x + "&callback=" + c + "&key=" + k;
    RenderTwo("xpub", x, "callback", c);
    RenderAppend(two, "key", k);
    assert two + [("key", k)] == [("xpub", x), ("callback", c), ("key", k)];
  }

  /** The keys of GenerateAddressAsync's three fixed entries. */
  lemma FixedEntriesKeys(x: string, c: string, k: string)
    ensures Keys([("xpub", x), ("callback", c), ("key", k)]) == ["xpub", "callback", "key"]
  {
    KeysIndex([("xpub", x), ("callback", c), ("key", k)]);
  }

  /** GenerateAddressAsync's query holds gap_limit, last, exactly when a limit is given, and never an API code. */
  lemma GenerateQueryContent(xpub: Option<string>, callback: Option<string>, key: Option<string>, gapLimit: Option<int>)
    ensures Keys(GenerateQuery(xpub, callback, key, gapLimit))
         == ["xpub", "callback", "key"] + (if gapLimit.Some? then ["gap_limit"] else [])
    ensures ApiCodeKey !in Keys(GenerateQuery(xpub, callback, key, gapLimit))
    ensures Lookup(GenerateQuery(xpub, callback, key, gapLimit), "gap_limit")
         == if gapLimit.Some? then Some(IntToString(gapLimit.value)) else None
  {
    var x, c, k := NullText(xpub), NullText(callback), NullText(key);
    var three := [("xpub", x), ("callback", c), ("key", k)];
    var q := GenerateQuery(xpub, callback, key, gapLimit);
    if gapLimit.Some? {
      var last := [("gap_limit", IntToString(gapLimit.value))];
      assert q == three + last;
      assert Keys(q) == ["xpub", "callback", "key"] + ["gap_limit"] by {
        FixedEntriesKeys(x, c, k);
        KeysConcat(three, last);
      }
      assert Lookup(q, "gap_limit") == Some(IntToString(gapLimit.value)) by {
        FixedEntriesKeys(x, c, k);
        LookupConcat(three, last, "gap_limit");
      }
    } else {
      assert q == three;
      FixedEntriesKeys(x, c, k);
    }
  }

  /** GenerateAddressAsync's query renders gap_limit last, and only when a limit is given. */
  lemma GenerateQueryRendered(xpub: Option<string>, callback: Option<string>, key: Option<string>, gapLimit: Option<int>)
    ensures Render(GenerateQuery(xpub, callback, key, gapLimit))
         == "?xpub=" + NullText(xpub) + "&callback=" + NullText(callback) + "&key=" + NullText(key)
            + (if gapLimit.Some? then "&gap_limit=" + IntToString(gapLimit.value) else "")
  {
    var x, c, k := NullText(xpub), NullText(callback), NullText(key);
    var three := [("xpub", x), ("callback", c), ("key", k)];
    var head := "?xpub=" + x + "&callback=" + c + "&key=" + k;
    if gapLimit.Some? {
      var n := IntToString(gapLimit.value);
      assert head + "&" + "gap_limit" + "=" + n == head + ("&gap_limit=" + n);
      assert GenerateQuery(xpub, callback, key, gapLimit) == three + [("gap_limit", n)];
      FixedEntriesRendered(x, c, k);
      RenderAppend(three, "gap_limit", n);
    } else {
      assert head + "" == head;
      assert GenerateQuery(xpub, callback, key, gapLimit) == three;
      FixedEntriesRendered(x, c, k);
    }
  }

  /** GenerateAddressAsync's request: "receive" and the rendered query, then the API code. */
  lemma GenerateRequest(apiCode: Option<string>, xpub: Option<string>, callback: Option<string>,
                        key: Option<string>, gapLimit: Option<int>)
    ensures GetRequestRoute(apiCode, Some("receive"), Some(GenerateQuery(xpub, callback, key, gapLimit)))
         == Some("receive"
                 + ("?xpub=" + NullText(xpub) + "&callback=" + NullText(callback) + "&key=" + NullText(key)
                    + (if gapLimit.Some? then "&gap_limit=" + IntToString(gapLimit.value) else ""))
                 + ApiCodeSuffix(apiCode))
  {
    GenerateQueryContent(xpub, callback, key, gapLimit);
    RequestedRoute(apiCode, "receive", GenerateQuery(xpub, callback, key, gapLimit));
    GenerateQueryRendered(xpub, callback, key, gapLimit);
  }

  /** The text of a message naming both a malformed xpub and a bad key contains both phrases. */
  lemma BothComplaintsText()
    ensures var message := "Invalid xpub format; " + "API Key is not valid";
            Contains(message, "Invalid xpub format") && Contains(message, "API Key is not valid")
  {
    var message := "Invalid xpub format; " + "API Key is not valid";
    assert message[0..19] == "Invalid xpub format";
    ContainsAt(message, "Invalid xpub format", 0);
    ContainsSuffix("Invalid xpub format; ", "API Key is not valid");
  }

  /**
   * A message that names both a malformed xpub and a bad key is reported as
   * a bad xpub by CheckAddressGapAsync, and as a bad key by GetCallbackLogsAsync.
   */
  lemma XpubComplaintFirst(status: int)
    ensures var e := ServerApi(Literal("Invalid xpub format; " + "API Key is not valid"), status);
            XpubOrKeyHandler<int>(e) == Err(BadXpub) && KeyHandler<int>(e) == Err(BadKey)
  {
    BothComplaintsText();
  }

  /** An error envelope naming a bad key, answered with status 200, becomes a bad-key exception. */
  lemma KeyEnvelopeIsBadKey<T>(apiCode: Option<string>, callback: Option<string>, key: Option<string>,
                               decode: string -> Result<T, Error>,
                               send: string -> Response, parse: string -> Option<Json>, body: string, members: Members)
    requires forall route :: send(route) == Response(true, 200, Some("OK"), body)
    requires StartsWith(body, ErrorEnvelopePrefix)
    requires parse(body) == Some(JObj(members)) && Get(members, "error") == Some(JStr("API Key is not valid"))
    ensures CallbackLogsOutcome(apiCode, callback, key, decode, send, parse) == Err(BadKey)
  {
    var message := "API Key is not valid";
    assert EnvelopeMessage(body, parse) == Ok(message);
    EnvelopeIsServerError(apiCode, "receive/callback_log", CallbackLogQuery(callback, key), None, decode,
                          send, parse, message);
    ContainsAt(message, message, 0);
  }

  // ---------------------------------------------------------------------------
  // The explorer

  class Receive {
    const httpClient: BlockchainHttpClient

    /** `new Receive(httpClient)`: the given client, or a client of its own when it is null. */
    constructor (httpClient: BlockchainHttpClient?)
      ensures httpClient != null ==> this.httpClient == httpClient
      ensures httpClient == null ==> fresh(this.httpClient) && this.httpClient.apiCode.None?
    {
      if httpClient != null {
        this.httpClient := httpClient;
      } else {
        this.httpClient := new BlockchainHttpClient(None);
      }
    }

    /** `CheckAddressGapAsync(xpub, key)`. */
    method CheckAddressGapAsync<T>(xpub: Option<string>, key: Option<string>, decode: string -> Result<T, Error>,
                                   send: string -> Response, parse: string -> Option<Json>) returns (r: Result<T, Error>)
      ensures r == CheckGapOutcome(httpClient.apiCode, xpub, key, decode, send, parse)
    {
      var query := new QueryString();
      var _ := query.Add("xpub", NullText(xpub));
      var _ := query.Add("key", NullText(key));
      assert query.entries == CheckGapQuery(xpub, key);
      var fetched := httpClient.GetAsync(Some("receive/checkgap"), query, None, decode, send, parse);
      r := Caught(fetched, XpubOrKeyHandler);
    }

    /** `GenerateAddressAsync(xpub, callback, key, gapLimit)`. */
    method GenerateAddressAsync<T>(xpub: Option<string>, callback: Option<string>, key: Option<string>,
                                   gapLimit: Option<int>, decode: string -> Result<T, Error>,
                                   send: string -> Response, parse: string -> Option<Json>) returns (r: Result<T, Error>)
      ensures r == GenerateOutcome(httpClient.apiCode, xpub, callback, key, gapLimit, decode, send, parse)
    {
      var query := BuildGenerateQuery(xpub, callback, key, gapLimit);
      var fetched := httpClient.GetAsync(Some("receive"), query, None, decode, send, parse);
      r := Caught(fetched, XpubOrKeyHandler);
    }

    /** The first half of GenerateAddressAsync: its query, built by successive additions. */
    static method BuildGenerateQuery(xpub: Option<string>, callback: Option<string>, key: Option<string>,
                                     gapLimit: Option<int>) returns (query: QueryString)
      ensures fresh(query) && query.Valid() && query.entries == GenerateQuery(xpub, callback, key, gapLimit)
    {
      query := BuildFixedEntries(NullText(xpub), NullText(callback), NullText(key));
      if gapLimit.Some? {
        var _ := query.Add("gap_limit", IntToString(gapLimit.value));
      }
    }

    /** The three entries every GenerateAddressAsync query starts with. */
    static method BuildFixedEntries(x: string, c: string, k: string) returns (query: QueryString)
      ensures fresh(query) && query.Valid() && query.entries == [("xpub", x), ("callback", c), ("key", k)]
      ensures Keys(query.entries) == ["xpub", "callback", "key"]
    {
      query := BuildXpubAndCallback(x, c);
      var added := query.Add("key", k);
      assert added.Pass?;
      assert [("xpub", x), ("callback", c)] + [("key", k)] == [("xpub", x), ("callback", c), ("key", k)];
      FixedEntriesKeys(x, c, k);
    }

    /** The first two of them. */
    static method BuildXpubAndCallback(x: string, c: string) returns (query: QueryString)
      ensures fresh(query) && query.Valid() && query.entries == [("xpub", x), ("callback", c)]
      ensures Keys(query.entries) == ["xpub", "callback"]
    {
      query := new QueryString();
      var _ := query.Add("xpub", x);
      assert query.entries == [("xpub", x)];
      assert "callback" !in Keys(query.entries);
      var _ := query.Add("callback", c);
      KeysAppend([("xpub", x)], ("callback", c));
    }

    /** `GetCallbackLogsAsync(callback, key)`. */
    method GetCallbackLogsAsync<T>(callback: Option<string>, key: Option<string>, decode: string -> Result<T, Error>,
                                   send: string -> Response, parse: string -> Option<Json>) returns (r: Result<T, Error>)
      ensures r == CallbackLogsOutcome(httpClient.apiCode, callback, key, decode, send, parse)
    {
      var query := new QueryString();
      var _ := query.Add("callback", NullText(callback));
      var _ := query.Add("key", NullText(key));
      assert query.entries == CallbackLogQuery(callback, key);
      var fetched := httpClient.GetAsync(Some("receive/callback_log"), query, None, decode, send, parse);
      r := Caught(fetched, KeyHandler);
    }
  }
}
