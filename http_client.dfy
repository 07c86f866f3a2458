/**
 * BlockchainHttpClient: request assembly around an abstract transport and the
 * validation of the transport's response.  The transport is a function from
 * the requested route to a response record; JSON parsing and typed decoding
 * are function parameters.
 */
module HttpClient {
  import opened Wrappers
  import opened Text
  import opened Errors
  import opened JsonTree
  import opened QueryStrings

  /** What the transport returns: success flag, status code, reason phrase (possibly null) and body text. */
  datatype Response = Response(isSuccess: bool, statusCode: int, reasonPhrase: Option<string>, body: string)

  /** A success body starting with this text is an error envelope. */
  const ErrorEnvelopePrefix := "{\"error\":"

  const BlockNotFoundText := "Block Not Found"

  /** The query parameter carrying the API code. */
  const ApiCodeKey := "api_code"

  /**
   * The message of an error envelope: the "error" property as a string, or ""
   * when it is absent or null; parsing fails when the body is not a JSON object.
   */
  function EnvelopeMessage(body: string, parse: string -> Option<Json>): (r: Result<string, Error>)
    ensures (forall ms :: parse(body) == Some(JObj(ms)) && Get(ms, "error").None? ==> r == Ok(""))
    ensures (forall ms, m :: parse(body) == Some(JObj(ms)) && Get(ms, "error") == Some(JStr(m)) ==> r == Ok(m))
    ensures parse(body).None? ==> r.Err?
  {
    match ParseObject(body, parse)
    case Err(e) => Err(e)
    case Ok(members) =>
      match Get(members, "error")
      case None => Ok("")
      case Some(v) =>
        match TokenToString(v)
        case Ok(Some(m)) => Ok(m)
        case Ok(None) => Ok("")
        case Err(e) => Err(e)
  }

  /** The reason phrase as string interpolation prints it (null prints nothing). */
  function ReasonText(reason: Option<string>): string
  {
    match reason
    case Some(s) => s
    case None => ""
  }

  /**
   * `ValidateResponse`: the body of a success response that is not an error
   * envelope; otherwise the ServerApiException the response stands for.
   */
  function ValidateResponse(response: Response, parse: string -> Option<Json>): (r: Result<string, Error>)
    ensures r.Ok? <==> response.isSuccess && !StartsWith(response.body, ErrorEnvelopePrefix)
    ensures r.Ok? ==> r.value == response.body
    ensures response.isSuccess && StartsWith(response.body, ErrorEnvelopePrefix) ==>
              r == match EnvelopeMessage(response.body, parse)
                   case Ok(m) => Err(ServerApi(Literal(m), BadRequest))
                   case Err(e) => Err(e)
    ensures !response.isSuccess && EqualsIgnoreCase(response.body, BlockNotFoundText) ==>
              r == Err(ServerApi(Literal(BlockNotFoundText), NotFound))
    ensures !response.isSuccess && !EqualsIgnoreCase(response.body, BlockNotFoundText) ==>
              r == Err(ServerApi(Literal(ReasonText(response.reasonPhrase) + ": " + response.body), response.statusCode))
  {
    if response.isSuccess then
      if StartsWith(response.body, ErrorEnvelopePrefix) then
        match EnvelopeMessage(response.body, parse)
        case Ok(m) => Err(ServerApi(Literal(m), BadRequest))
        case Err(e) => Err(e)
      else Ok(response.body)
    else if EqualsIgnoreCase(response.body, BlockNotFoundText) then
      Err(ServerApi(Literal(BlockNotFoundText), NotFound))
    else
      Err(ServerApi(Literal(ReasonText(response.reasonPhrase) + ": " + response.body), response.statusCode))
  }

  /** A lower-case "block not found" failure body becomes a 404, whatever the real status. */
  lemma BlockNotFoundLowerCase(status: int, reason: Option<string>, parse: string -> Option<Json>)
    ensures ValidateResponse(Response(false, status, reason, "block not found"), parse)
         == Err(ServerApi(Literal(BlockNotFoundText), NotFound))
  {
    assert EqualsIgnoreCase("block not found", BlockNotFoundText);
  }

  /** So does an upper-case "BLOCK NOT FOUND". */
  lemma BlockNotFoundUpperCase(status: int, reason: Option<string>, parse: string -> Option<Json>)
    ensures ValidateResponse(Response(false, status, reason, "BLOCK NOT FOUND"), parse)
         == Err(ServerApi(Literal(BlockNotFoundText), NotFound))
  {
    assert EqualsIgnoreCase("BLOCK NOT FOUND", BlockNotFoundText);
  }

  /** The query of the endpoints that only ask for JSON. */
  function FormatJson(): (q: Entries)
    ensures Keys(q) == ["format"] && ApiCodeKey !in Keys(q)
  {
    [("format", "json")]
  }

  /**
   * The query GetAsync sends: with an API code it adds `api_code` through
   * `QueryString.Add`, so a query that already has one throws; a null query
   * stays null and carries no API code.
   */
  function WithApiCode(apiCode: Option<string>, query: Option<Entries>): (r: Result<Option<Entries>, Error>)
    ensures query.None? ==> r == Ok(None)
    ensures apiCode.None? ==> r == Ok(query)
    ensures apiCode.Some? && query.Some? && ApiCodeKey !in Keys(query.value) ==>
              r == Ok(Some(query.value + [(ApiCodeKey, apiCode.value)]))
    ensures apiCode.Some? && query.Some? && ApiCodeKey in Keys(query.value) ==> r.Err? && r.error.ClientApi?
  {
    match (apiCode, query)
    case (Some(code), Some(entries)) =>
      if ApiCodeKey in Keys(entries) then Err(ClientApi(DuplicateQueryKey(ApiCodeKey)))
      else Ok(Some(entries + [(ApiCodeKey, code)]))
    case _ => Ok(query)
  }

  /**
   * The route GetAsync requests, as written: a non-empty query is rendered
   * after a route without '?'; for a route containing '?' the appended text
   * is "&" followed by the decimal index of the '?' minus its first digit.
   */
  function ExtendedRoute(route: string, query: Option<Entries>): string
  {
    if query.Some? && |query.value| > 0 then
      var at := IndexOf(route, '?');
      if at >= 0 then route + "&" + IntToString(at)[1..] else route + Render(query.value)
    else route
  }

  /** The route extension the comment in GetAsync describes: the query's "?" replaced by "&". */
  function IntendedRoute(route: string, query: Option<Entries>): (r: string)
    ensures query.Some? && |query.value| > 0 ==>
              forall i :: 0 <= i < |query.value| ==> Contains(r, query.value[i].0 + "=" + query.value[i].1)
  {
    if query.Some? && |query.value| > 0 then
      var q := query.value;
      var r := if '?' in route then route + "&" + Render(q)[1..] else route + Render(q);
      assert forall i :: 0 <= i < |q| ==> Contains(r, q[i].0 + "=" + q[i].1) by {
        forall i | 0 <= i < |q| ensures Contains(r, q[i].0 + "=" + q[i].1) {
          var part := q[i].0 + "=" + q[i].1;
          var j := RenderEntryOffset(q, i);
          if '?' in route {
            assert r[|route| + j..|route| + j + |part|] == Render(q)[j..j + |part|];
          } else {
            assert r[|route| + j..|route| + j + |part|] == Render(q)[j..j + |part|];
          }
          ContainsAt(r, part, |route| + j);
        }
      }
      r
    else route
  }

  /** On a route without '?', the code and the intended extension agree. */
  lemma RoutesAgreeWithoutQuestionMark(route: string, query: Option<Entries>)
    requires '?' !in route
    ensures ExtendedRoute(route, query) == IntendedRoute(route, query)
  {
  }

  /** When '?' is among a route's first ten characters, the whole query is replaced by a bare "&". */
  lemma QueryLostAfterQuestionMark(route: string, query: Entries)
    requires |query| > 0
    requires exists i :: 0 <= i < |route| && i < 10 && route[i] == '?'
    ensures ExtendedRoute(route, Some(query)) == route + "&"
  {
    var at := IndexOf(route, '?');
    assert 0 <= at < 10;
    assert IntToString(at) == [DigitChar(at)];
  }

  /** A concrete request that loses its query: "x?a=1" with format=json requests "x?a=1&". */
  lemma QuestionMarkRouteExample()
    ensures ExtendedRoute("x?a=1", Some([("format", "json")])) == "x?a=1&"
  {
    var route := "x?a=1";
    assert route[1] == '?';
    QueryLostAfterQuestionMark(route, [("format", "json")]);
  }

  /** The same request under the intended extension keeps its query: "x?a=1&format=json". */
  lemma QuestionMarkRouteIntended()
    ensures IntendedRoute("x?a=1", Some([("format", "json")])) == "x?a=1&format=json"
  {
    var route := "x?a=1";
    var query := [("format", "json")];
    var tail := "format=json";
    assert Render(query)[1..] == tail by {
      RenderAppend([], "format", "json");
      assert Render(query) == "?" + tail;
    }
    assert '?' in route by {
      assert route[1] == '?';
    }
    assert IntendedRoute(route, Some(query)) == route + "&" + tail;
  }

  /** GetAsync's decoding step: the caller's decoder when supplied, the generic one otherwise. */
  function Decode<T>(body: string, custom: Option<string -> Result<T, Error>>,
                     generic: string -> Result<T, Error>): Result<T, Error>
  {
    match custom
    case Some(f) => f(body)
    case None => generic(body)
  }

  /** The route GetAsync sends the request to, or None when it throws before sending. */
  function GetRequestRoute(apiCode: Option<string>, route: Option<string>, query: Option<Entries>): (r: Option<string>)
    ensures route.None? ==> r.None?
    ensures route.Some? && query.None? ==> r == Some(route.value)
    ensures route.Some? && query.Some? && apiCode.None? ==> r == Some(ExtendedRoute(route.value, query))
  {
    if route.None? then None
    else
      match WithApiCode(apiCode, query)
      case Err(_) => None
      case Ok(q) => Some(ExtendedRoute(route.value, q))
  }

  /** The outcome of `GetAsync`. */
  function GetOutcome<T>(apiCode: Option<string>, route: Option<string>, query: Option<Entries>,
                         custom: Option<string -> Result<T, Error>>, generic: string -> Result<T, Error>,
                         send: string -> Response, parse: string -> Option<Json>): Result<T, Error>
  {
    if route.None? then Err(ArgumentNull("route", ValueCannotBeNull))
    else
      match WithApiCode(apiCode, query)
      case Err(e) => Err(e)
      case Ok(q) =>
        match ValidateResponse(send(ExtendedRoute(route.value, q)), parse)
        case Err(e) => Err(e)
        case Ok(body) => Decode(body, custom, generic)
  }

  /** Every failure before the request is sent is independent of the transport. */
  lemma GetFailsBeforeSending<T>(apiCode: Option<string>, route: Option<string>, query: Option<Entries>,
                                 custom: Option<string -> Result<T, Error>>, generic: string -> Result<T, Error>,
                                 send1: string -> Response, send2: string -> Response, parse: string -> Option<Json>)
    requires GetRequestRoute(apiCode, route, query).None?
    ensures GetOutcome(apiCode, route, query, custom, generic, send1, parse)
         == GetOutcome(apiCode, route, query, custom, generic, send2, parse)
    ensures GetOutcome(apiCode, route, query, custom, generic, send1, parse).Err?
  {
  }

  /** A successful GetAsync is the chosen decoder applied to the body the transport returned. */
  lemma GetSuccessDecodesBody<T>(apiCode: Option<string>, route: Option<string>, query: Option<Entries>,
                                 custom: Option<string -> Result<T, Error>>, generic: string -> Result<T, Error>,
                                 send: string -> Response, parse: string -> Option<Json>)
    requires GetOutcome(apiCode, route, query, custom, generic, send, parse).Ok?
    ensures GetRequestRoute(apiCode, route, query).Some?
    ensures var response := send(GetRequestRoute(apiCode, route, query).value);
            response.isSuccess && !StartsWith(response.body, ErrorEnvelopePrefix)
            && GetOutcome(apiCode, route, query, custom, generic, send, parse) == Decode(response.body, custom, generic)
  {
  }

  /**
   * A transport that gives the same response to every route: GetAsync's
   * outcome is that response, validated and then decoded.
   */
  lemma SameResponseEverywhere<T>(route: string, apiCode: Option<string>, query: Entries,
                                  custom: Option<string -> Result<T, Error>>, generic: string -> Result<T, Error>,
                                  send: string -> Response, parse: string -> Option<Json>, response: Response)
    requires ApiCodeKey !in Keys(query)
    requires forall r :: send(r) == response
    ensures GetOutcome(apiCode, Some(route), Some(query), custom, generic, send, parse)
         == match ValidateResponse(response, parse)
            case Err(e) => Err(e)
            case Ok(body) => Decode(body, custom, generic)
  {
    var sent := WithApiCode(apiCode, Some(query));
    assert sent.Ok?;
    assert send(ExtendedRoute(route, sent.value)) == response;
  }

  /**
   * Whatever route the query is sent to, a success response whose body is an
   * error envelope makes GetAsync throw ServerApiException with status 400
   * and the envelope's message.
   */
  lemma EnvelopeIsServerError<T>(apiCode: Option<string>, route: string, query: Entries,
                                 custom: Option<string -> Result<T, Error>>, generic: string -> Result<T, Error>,
                                 send: string -> Response, parse: string -> Option<Json>, message: string)
    requires ApiCodeKey !in Keys(query)
    requires forall r :: send(r).isSuccess && StartsWith(send(r).body, ErrorEnvelopePrefix)
                         && EnvelopeMessage(send(r).body, parse) == Ok(message)
    ensures GetOutcome(apiCode, Some(route), Some(query), custom, generic, send, parse)
         == Err(ServerApi(Literal(message), BadRequest))
  {
    var sent := WithApiCode(apiCode, Some(query));
    assert sent.Ok?;
    var response := send(ExtendedRoute(route, sent.value));
    assert ValidateResponse(response, parse) == Err(ServerApi(Literal(message), BadRequest));
  }

  /**
   * An explorer's try/catch around GetAsync: a result passes through, an
   * exception goes to the catch block, which rethrows it or replaces it.
   */
  function Caught<T>(outcome: Result<T, Error>, handler: Error -> Result<T, Error>): (r: Result<T, Error>)
    ensures outcome.Ok? ==> r == outcome
    ensures outcome.Err? ==> r == handler(outcome.error)
  {
    match outcome
    case Ok(_) => outcome
    case Err(e) => handler(e)
  }

  /** What GetAsync appends after a query that has no "api_code" entry: "&api_code=<code>" when an API code is set. */
  function ApiCodeSuffix(apiCode: Option<string>): (s: string)
    ensures apiCode.None? <==> s == ""
  {
    match apiCode
    case None => ""
    case Some(code) => "&" + ApiCodeKey + "=" + code
  }

  /**
   * For a route without '?' and a non-empty query with no "api_code" entry,
   * the transport is asked for the route, the rendered query and then the
   * API code, if one is set.
   */
  lemma RequestedRoute(apiCode: Option<string>, route: string, query: Entries)
    requires '?' !in route && |query| > 0 && ApiCodeKey !in Keys(query)
    ensures GetRequestRoute(apiCode, Some(route), Some(query)) == Some(route + Render(query) + ApiCodeSuffix(apiCode))
  {
    if apiCode.Some? {
      RequestedWithCode(apiCode.value, route, query);
    } else {
      RequestedWithoutCode(route, query);
    }
  }

  /** With an API code the route is extended by the query and then "&api_code=<code>". */
  lemma RequestedWithCode(code: string, route: string, query: Entries)
    requires '?' !in route && |query| > 0 && ApiCodeKey !in Keys(query)
    ensures GetRequestRoute(Some(code), Some(route), Some(query)) == Some(route + Render(query) + ApiCodeSuffix(Some(code)))
  {
    var sent := query + [(ApiCodeKey, code)];
    var rendered := Render(query);
    RouteWithCodeEntry(code, route, query);
    RenderAppend(query, ApiCodeKey, code);
    assert Render(sent) == rendered + "&" + ApiCodeKey + "=" + code;
    Regrouped(route, rendered, code);
  }

  /** With an API code the query sent is the caller's with the "api_code" entry appended. */
  lemma RouteWithCodeEntry(code: string, route: string, query: Entries)
    requires '?' !in route && ApiCodeKey !in Keys(query)
    ensures GetRequestRoute(Some(code), Some(route), Some(query)) == Some(route + Render(query + [(ApiCodeKey, code)]))
  {
    assert IndexOf(route, '?') == -1;
  }

  /** Without an API code the route is extended by the caller's query alone. */
  lemma RequestedWithoutCode(route: string, query: Entries)
    requires '?' !in route && |query| > 0
    ensures GetRequestRoute(None, Some(route), Some(query)) == Some(route + Render(query) + ApiCodeSuffix(None))
  {
    assert IndexOf(route, '?') == -1;
    var rendered := Render(query);
    assert GetRequestRoute(None, Some(route), Some(query)) == Some(route + rendered);
    assert route + rendered + "" == route + rendered;
  }

  /** Appending "&api_code=<code>" after a rendered query. */
  lemma Regrouped(route: string, rendered: string, code: string)
    ensures route + (rendered + "&" + ApiCodeKey + "=" + code) == route + rendered + ApiCodeSuffix(Some(code))
  {
  }

  /** The route PostAsync requests: "?api_code=<code>" is appended whenever an API code is set. */
  function PostRoute(apiCode: Option<string>, route: string): (r: string)
    ensures apiCode.None? ==> r == route
    ensures apiCode.Some? ==> r == route + "?" + ApiCodeKey + "=" + apiCode.value
  {
    match apiCode
    case Some(code) => route + "?api_code=" + code
    case None => route
  }

  /** The outcome of `PostAsync`: the body is always decoded generically. */
  function PostOutcome<TPost, TResult>(apiCode: Option<string>, route: Option<string>, postObject: TPost,
                                       serialize: TPost -> string, send: (string, string) -> Response,
                                       parse: string -> Option<Json>,
                                       generic: string -> Result<TResult, Error>): Result<TResult, Error>
  {
    if route.None? then Err(ArgumentNull("route", ValueCannotBeNull))
    else
      match ValidateResponse(send(PostRoute(apiCode, route.value), serialize(postObject)), parse)
      case Err(e) => Err(e)
      case Ok(body) => generic(body)
  }

  class BlockchainHttpClient {
    /** `ApiCode`: sent with every request when set. */
    var apiCode: Option<string>

    constructor (apiCode: Option<string>)
      ensures this.apiCode == apiCode
    {
      this.apiCode := apiCode;
    }

    /**
     * `GetAsync(route, queryString, customDeserialization)`: adds the API
     * code to the caller's query, extends the route, validates the response
     * and decodes its body.
     */
    method GetAsync<T>(route: Option<string>, query: QueryString?,
                       custom: Option<string -> Result<T, Error>>, generic: string -> Result<T, Error>,
                       send: string -> Response, parse: string -> Option<Json>) returns (r: Result<T, Error>)
      requires query != null ==> query.Valid()
      modifies query
      ensures query != null ==> query.Valid()
      ensures r == GetOutcome(apiCode, route, if query == null then None else Some(old(query.entries)),
                              custom, generic, send, parse)
      ensures query != null ==>
                query.entries == if route.Some? && apiCode.Some? && ApiCodeKey !in Keys(old(query.entries))
                                 then old(query.entries) + [(ApiCodeKey, apiCode.value)]
                                 else old(query.entries)
    {
      if route.None? {
        return Err(ArgumentNull("route", ValueCannotBeNull));
      }
      var path := route.value;
      if apiCode.Some? && query != null {
        var added := query.Add(ApiCodeKey, apiCode.value);
        if added.Fail? {
          return Err(added.error);
        }
      }
      if query != null && query.Count() > 0 {
        var at := IndexOf(path, '?');
        if at >= 0 {
          var digits := IntToString(at);
          path := path + "&" + digits[1..];
        } else {
          path := path + query.ToString();
        }
      }
      assert path == ExtendedRoute(route.value, if query == null then None else Some(query.entries));
      var validated := ValidateResponse(send(path), parse);
      match validated {
        case Err(e) => r := Err(e);
        case Ok(body) =>
          if custom.Some? {
            r := custom.value(body);
          } else {
            r := generic(body);
          }
      }
    }

    /**
     * `PostAsync(route, postObject, customDeserialization, ...)`: appends the
     * API code to the route, sends the serialized object and decodes the
     * validated body generically, whatever decoder the caller supplied.
     */
    method PostAsync<TPost, TResult>(route: Option<string>, postObject: TPost,
                                     custom: Option<string -> Result<TResult, Error>>,
                                     serialize: TPost -> string, send: (string, string) -> Response,
                                     parse: string -> Option<Json>,
                                     generic: string -> Result<TResult, Error>) returns (r: Result<TResult, Error>)
      ensures r == PostOutcome(apiCode, route, postObject, serialize, send, parse, generic)
    {
      if route.None? {
        return Err(ArgumentNull("route", ValueCannotBeNull));
      }
      var path := route.value;
      if apiCode.Some? {
        path := path + "?api_code=" + apiCode.value;
      }
      var json := serialize(postObject);
      var validated := ValidateResponse(send(path, json), parse);
      match validated {
        case Err(e) => r := Err(e);
        case Ok(body) => r := generic(body);
      }
    }
  }
}
