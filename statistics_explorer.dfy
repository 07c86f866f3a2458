/**
 * StatisticsExplorer: network statistics, charts and mining pools.  Each
 * operation builds its query, asks the HTTP client for one route and, for
 * charts, turns a server error into an argument exception.
 */
module StatisticsExplorers {
  import opened Wrappers
  import opened Text
  import opened Errors
  import opened JsonTree
  import opened QueryStrings
  import opened HttpClient

  /** GetPoolsAsync's default number of days. */
  const DefaultPoolsTimespan: int := 4

  /**
   * GetChartAsync's query: format=json, then timespan and rollingAverage,
   * each only when the caller gave one.
   */
  function ChartQuery(timespan: Option<string>, rollingAverage: Option<string>): Entries
  {
    var withTimespan := FormatJson() + (if timespan.Some? then [("timespan", timespan.value)] else []);
    withTimespan + (if rollingAverage.Some? then [("rollingAverage", rollingAverage.value)] else [])
  }

  /** GetPoolsAsync's query: format=json, then the timespan as "<n>days". */
  function PoolsQuery(timespan: int): Entries
  {
    [("format", "json"), ("timespan", IntToString(timespan) + "days")]
  }

  /** The check GetPoolsAsync makes before anything else: the timespan must lie in 1..10. */
  function PoolsGuard(timespan: int): (r: Option<Error>)
    ensures r.None? <==> 1 <= timespan <= 10
    ensures r.Some? ==> r.value == ArgumentOutOfRange("timespan", TimespanRange)
  {
    if timespan < 1 || timespan > 10 then Some(ArgumentOutOfRange("timespan", TimespanRange)) else None
  }

  /** The exception for an unknown chart name. */
  const UnknownChart: Error := ArgumentOutOfRange("chartType", ChartDoesNotExist)

  /** The exception for a timespan the server cannot parse. */
  const BadTimespan: Error := ArgumentOutOfRange("timespan", IncorrectTimespan)

  /**
   * GetChartAsync's catch: "No chart with this name" or "Not Found" means an
   * unknown chart, checked before "Could not parse timestring", which means a
   * bad timespan; anything else is rethrown unchanged.
   */
  function ChartHandler<T>(e: Error): (r: Result<T, Error>)
    ensures r.Err?
    ensures Contains(MessageOf(e), "No chart with this name") || Contains(MessageOf(e), "Not Found") ==>
              r.error == UnknownChart
    ensures r.error == BadTimespan ==> Contains(MessageOf(e), "Could not parse timestring") || e == BadTimespan
    ensures !Contains(MessageOf(e), "No chart with this name") && !Contains(MessageOf(e), "Not Found") ==>
              r.error == if Contains(MessageOf(e), "Could not parse timestring") then BadTimespan else e
  {
    var message := MessageOf(e);
    if Contains(message, "No chart with this name") then Err(UnknownChart)
    else if Contains(message, "Not Found") then Err(UnknownChart)
    else if Contains(message, "Could not parse timestring") then Err(BadTimespan)
    else Err(e)
  }

  /** `GetStatsAsync()`: route "stats" with format=json alone. */
  function StatsOutcome<T>(apiCode: Option<string>, decode: string -> Result<T, Error>,
                           send: string -> Response, parse: string -> Option<Json>): Result<T, Error>
  {
    GetOutcome(apiCode, Some("stats"), Some(FormatJson()), None, decode, send, parse)
  }

  /** `GetChartAsync(chartType, timespan, rollingAverage)`: route "charts/<chartType>". */
  function ChartOutcome<T>(apiCode: Option<string>, chartType: Option<string>, timespan: Option<string>,
                           rollingAverage: Option<string>, decode: string -> Result<T, Error>,
                           send: string -> Response, parse: string -> Option<Json>): Result<T, Error>
  {
    Caught(GetOutcome(apiCode, Some("charts/" + NullText(chartType)), Some(ChartQuery(timespan, rollingAverage)),
                      None, decode, send, parse),
           ChartHandler)
  }

  /** `GetPoolsAsync(timespan)`: route "pools". */
  function PoolsOutcome<T>(apiCode: Option<string>, timespan: int, decode: string -> Result<T, Error>,
                           send: string -> Response, parse: string -> Option<Json>): Result<T, Error>
  {
    match PoolsGuard(timespan)
    case Some(e) => Err(e)
    case None => GetOutcome(apiCode, Some("pools"), Some(PoolsQuery(timespan)), None, decode, send, parse)
  }

  // ---------------------------------------------------------------------------
  // Properties of the operations

  /**
   * GetChartAsync's query asks for JSON first, then holds the timespan and
   * the rolling average exactly when they are not null, in that order, and
   * never an API code.
   */
  lemma ChartQueryContent(timespan: Option<string>, rollingAverage: Option<string>)
    ensures Keys(ChartQuery(timespan, rollingAverage))
         == ["format"] + (if timespan.Some? then ["timespan"] else []) + (if rollingAverage.Some? then ["rollingAverage"] else [])
    ensures ChartQuery(timespan, rollingAverage)[0] == ("format", "json")
    ensures Lookup(ChartQuery(timespan, rollingAverage), "timespan") == timespan
    ensures Lookup(ChartQuery(timespan, rollingAverage), "rollingAverage") == rollingAverage
    ensures ApiCodeKey !in Keys(ChartQuery(timespan, rollingAverage))
  {
    var t := if timespan.Some? then [("timespan", timespan.value)] else [];
    var a := if rollingAverage.Some? then [("rollingAverage", rollingAverage.value)] else [];
    var q := ChartQuery(timespan, rollingAverage);
    assert q == FormatJson() + t + a;
    assert Keys(t) == if timespan.Some? then ["timespan"] else [];
    assert Keys(a) == if rollingAverage.Some? then ["rollingAverage"] else [];
    KeysConcat(FormatJson(), t);
    KeysConcat(FormatJson() + t, a);
    LookupConcat(FormatJson(), t, "timespan");
    LookupConcat(FormatJson() + t, a, "timespan");
    LookupConcat(FormatJson() + t, a, "rollingAverage");
  }

  /**
   * A chart type holding '?' reaches the client's '?' rule: the chart
   * request for "?" ends in "&", and format, timespan and rolling average
   * are all dropped.
   */
  lemma QuestionMarkChartDropsQuery(chartType: Option<string>, timespan: Option<string>, rollingAverage: Option<string>)
    requires chartType == Some("?")
    ensures GetRequestRoute(None, Some("charts/" + NullText(chartType)), Some(ChartQuery(timespan, rollingAverage)))
         == Some("charts/?&")
  {
    var route := "charts/" + NullText(chartType);
    assert route == "charts/?" && route[7] == '?';
    ChartQueryContent(timespan, rollingAverage);
    QueryLostAfterQuestionMark(route, ChartQuery(timespan, rollingAverage));
    assert route + "&" == "charts/?&";
  }

  /** GetPoolsAsync's query: format, then the timespan as "<n>days", and no API code. */
  lemma PoolsQueryContent(timespan: int)
    ensures Keys(PoolsQuery(timespan)) == ["format", "timespan"] && ApiCodeKey !in Keys(PoolsQuery(timespan))
    ensures Lookup(PoolsQuery(timespan), "timespan") == Some(IntToString(timespan) + "days")
  {
  }

  /** A timespan outside 1..10 is refused whatever the transport would answer. */
  lemma PoolsChecksFirst<T>(apiCode: Option<string>, timespan: int, decode: string -> Result<T, Error>,
                            send1: string -> Response, send2: string -> Response, parse: string -> Option<Json>)
    requires timespan < 1 || timespan > 10
    ensures PoolsOutcome(apiCode, timespan, decode, send1, parse) == Err(ArgumentOutOfRange("timespan", TimespanRange))
    ensures PoolsOutcome(apiCode, timespan, decode, send1, parse) == PoolsOutcome(apiCode, timespan, decode, send2, parse)
  {
  }

  /** The pools query renders as "?format=json&timespan=<n>days". */
  lemma PoolsQueryRendered(timespan: int)
    ensures Render(PoolsQuery(timespan)) == "?format=json&timespan=" + IntToString(timespan) + "days"
  {
    var n := IntToString(timespan);
    var lit := "?" + "format" + "=" + "json" + "&" + "timespan" + "=";
    assert lit == "?format=json&timespan=";
    RenderTwo("format", "json", "timespan", n + "days");
    assert lit + (n + "days") == lit + n + "days";
  }

  /** The pools request: "pools?format=json&timespan=<n>days", then the API code. */
  lemma PoolsRequest(apiCode: Option<string>, timespan: int)
    ensures GetRequestRoute(apiCode, Some("pools"), Some(PoolsQuery(timespan)))
         == Some("pools?format=json&timespan=" + IntToString(timespan) + "days" + ApiCodeSuffix(apiCode))
  {
    var n := IntToString(timespan);
    var code := ApiCodeSuffix(apiCode);
    var lit := "?format=json&timespan=";
    assert "pools" + lit == "pools?format=json&timespan=";
    assert "pools" + (lit + n + "days") + code == "pools" + lit + n + "days" + code;
    PoolsQueryContent(timespan);
    RequestedRoute(apiCode, "pools", PoolsQuery(timespan));
    PoolsQueryRendered(timespan);
  }

  /** A chart query without the optional parameters asks for JSON alone. */
  lemma ChartQueryDefaults()
    ensures ChartQuery(None, None) == FormatJson()
  {
  }

  /** A failure whose reason phrase is "Not Found" has a message mentioning "Not Found", whatever the body. */
  lemma NotFoundReasonMessage(status: int, body: string, parse: string -> Option<Json>)
    ensures var fetched := ValidateResponse(Response(false, status, Some("Not Found"), body), parse);
            fetched.Err? && Contains(MessageOf(fetched.error), "Not Found")
  {
    var fetched := ValidateResponse(Response(false, status, Some("Not Found"), body), parse);
    if EqualsIgnoreCase(body, BlockNotFoundText) {
      assert MessageOf(fetched.error) == "Block " + "Not Found";
      ContainsSuffix("Block ", "Not Found");
    } else {
      assert MessageOf(fetched.error) == "Not Found" + (": " + body);
      ContainsAt("Not Found" + (": " + body), "Not Found", 0);
    }
  }

  /**
   * A chart request answered by a failure whose reason phrase is "Not Found"
   * reports an unknown chart, whatever the body says, even when it complains
   * about the timespan.
   */
  lemma NotFoundReasonIsUnknownChart<T>(apiCode: Option<string>, chartType: Option<string>, timespan: Option<string>,
                                        rollingAverage: Option<string>, decode: string -> Result<T, Error>,
                                        send: string -> Response, parse: string -> Option<Json>,
                                        status: int, body: string)
    requires forall route :: send(route) == Response(false, status, Some("Not Found"), body)
    ensures ChartOutcome(apiCode, chartType, timespan, rollingAverage, decode, send, parse) == Err(UnknownChart)
  {
    ChartQueryContent(timespan, rollingAverage);
    SameResponseEverywhere("charts/" + NullText(chartType), apiCode, ChartQuery(timespan, rollingAverage), None, decode,
                           send, parse, Response(false, status, Some("Not Found"), body));
    NotFoundReasonMessage(status, body, parse);
  }

  /** The message of a failure reading "Could not parse timestring" under the reason phrase "Bad Request". */
  lemma TimespanFailureResponse(status: int, parse: string -> Option<Json>)
    ensures ValidateResponse(Response(false, status, Some("Bad Request"), "Could not parse timestring"), parse)
         == Err(ServerApi(Literal("Bad Request" + ": " + "Could not parse timestring"), status))
  {
    var body := "Could not parse timestring";
    assert !EqualsIgnoreCase(body, BlockNotFoundText) by {
      assert |body| != |BlockNotFoundText|;
    }
  }

  /** The text of that message mentions the timespan and neither "Not Found" nor an unknown chart. */
  lemma TimespanMessageText()
    ensures var message := "Bad Request" + ": " + "Could not parse timestring";
            Contains(message, "Could not parse timestring")
            && !Contains(message, "Not Found") && !Contains(message, "No chart with this name")
  {
    var message := "Bad Request" + ": " + "Could not parse timestring";
    ContainsSuffix("Bad Request" + ": ", "Could not parse timestring");
    NoCapitalN();
    assert 'N' !in message;
    NotContainsFirstChar(message, "Not Found");
    NotContainsFirstChar(message, "No chart with this name");
  }

  /** None of the three parts of that message holds an 'N'. */
  lemma NoCapitalN()
    ensures 'N' !in "Bad Request" && 'N' !in ": " && 'N' !in "Could not parse timestring"
  {
  }

  /** That message means a bad timespan. */
  lemma TimespanMessageIsBadTimespan<T>(status: int)
    ensures ChartHandler<T>(ServerApi(Literal("Bad Request" + ": " + "Could not parse timestring"), status)) == Err(BadTimespan)
  {
    var e := ServerApi(Literal("Bad Request" + ": " + "Could not parse timestring"), status);
    assert MessageOf(e) == "Bad Request" + ": " + "Could not parse timestring";
    TimespanMessageText();
  }

  /** A chart request the server answers with "Could not parse timestring" reports a bad timespan. */
  lemma TimespanFailureIsBadTimespan<T>(apiCode: Option<string>, chartType: Option<string>, timespan: Option<string>,
                                        rollingAverage: Option<string>, decode: string -> Result<T, Error>,
                                        send: string -> Response, parse: string -> Option<Json>, status: int)
    requires forall route :: send(route) == Response(false, status, Some("Bad Request"), "Could not parse timestring")
    ensures ChartOutcome(apiCode, chartType, timespan, rollingAverage, decode, send, parse) == Err(BadTimespan)
  {
    ChartQueryContent(timespan, rollingAverage);
    SameResponseEverywhere("charts/" + NullText(chartType), apiCode, ChartQuery(timespan, rollingAverage), None, decode,
                           send, parse, Response(false, status, Some("Bad Request"), "Could not parse timestring"));
    TimespanFailureResponse(status, parse);
    TimespanMessageIsBadTimespan<T>(status);
  }

  /**
   * Each key of GetChartAsync's query is new when it is added, and the
   * additions make up ChartQuery.
   */
  lemma ChartQuerySteps(timespan: Option<string>, rollingAverage: Option<string>)
    ensures var e1 := FormatJson() + (if timespan.Some? then [("timespan", timespan.value)] else []);
            "timespan" !in Keys(FormatJson()) && "rollingAverage" !in Keys(e1)
            && e1 + (if rollingAverage.Some? then [("rollingAverage", rollingAverage.value)] else [])
               == ChartQuery(timespan, rollingAverage)
  {
    var e1 := FormatJson() + (if timespan.Some? then [("timespan", timespan.value)] else []);
    assert Keys(e1) == if timespan.Some? then ["format", "timespan"] else ["format"];
  }

  // ---------------------------------------------------------------------------
  // The explorer

  class StatisticsExplorer {
    const httpClient: BlockchainHttpClient

    /** `new StatisticsExplorer()`: a client of its own, without an API code. */
    constructor ()
      ensures fresh(httpClient) && httpClient.apiCode.None?
    {
      httpClient := new BlockchainHttpClient(None);
    }

    /** `new StatisticsExplorer(httpClient)`. */
    constructor WithClient(httpClient: BlockchainHttpClient)
      ensures this.httpClient == httpClient
    {
      this.httpClient := httpClient;
    }

    /** `GetStatsAsync()`. */
    method GetStatsAsync<T>(decode: string -> Result<T, Error>, send: string -> Response,
                            parse: string -> Option<Json>) returns (r: Result<T, Error>)
      ensures r == StatsOutcome(httpClient.apiCode, decode, send, parse)
    {
      var query := new QueryString();
      var _ := query.Add("format", "json");
      assert query.entries == FormatJson();
      r := httpClient.GetAsync(Some("stats"), query, None, decode, send, parse);
    }

    /** `GetChartAsync(chartType, timespan, rollingAverage)`. */
    method GetChartAsync<T>(chartType: Option<string>, timespan: Option<string>, rollingAverage: Option<string>,
                            decode: string -> Result<T, Error>, send: string -> Response,
                            parse: string -> Option<Json>) returns (r: Result<T, Error>)
      ensures r == ChartOutcome(httpClient.apiCode, chartType, timespan, rollingAverage, decode, send, parse)
    {
      var query := BuildChartQuery(timespan, rollingAverage);
      var fetched := httpClient.GetAsync(Some("charts/" + NullText(chartType)), query, None, decode, send, parse);
      r := Caught(fetched, ChartHandler);
    }

    /** The first half of GetChartAsync: its query, built by successive additions. */
    static method BuildChartQuery(timespan: Option<string>, rollingAverage: Option<string>) returns (query: QueryString)
      ensures fresh(query) && query.Valid() && query.entries == ChartQuery(timespan, rollingAverage)
    {
      query := new QueryString();
      ChartQuerySteps(timespan, rollingAverage);
      var _ := query.Add("format", "json");
      assert query.entries == FormatJson();
      if timespan.Some? {
        var _ := query.Add("timespan", timespan.value);
      }
      assert query.entries == FormatJson() + (if timespan.Some? then [("timespan", timespan.value)] else []);
      if rollingAverage.Some? {
        var _ := query.Add("rollingAverage", rollingAverage.value);
      }
    }

    /** `GetPoolsAsync(timespan)`. */
    method GetPoolsAsync<T>(timespan: int, decode: string -> Result<T, Error>, send: string -> Response,
                            parse: string -> Option<Json>) returns (r: Result<T, Error>)
      ensures r == PoolsOutcome(httpClient.apiCode, timespan, decode, send, parse)
    {
      if timespan < 1 || timespan > 10 {
        return Err(ArgumentOutOfRange("timespan", TimespanRange));
      }
      var query := new QueryString();
      var _ := query.Add("format", "json");
      var _ := query.Add("timespan", IntToString(timespan) + "days");
      assert query.entries == PoolsQuery(timespan);
      r := httpClient.GetAsync(Some("pools"), query, None, decode, send, parse);
    }
  }
}
