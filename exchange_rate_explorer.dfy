/**
 * ExchangeRateExplorer: the ticker and conversions between bitcoin and other
 * currencies.  Both conversions check their arguments before the request;
 * the conversion result is parsed by a function parameter (a double parse
 * is not modelled).
 */
module ExchangeRateExplorers {
  import opened Wrappers
  import opened Text
  import opened Errors
  import opened JsonTree
  import opened QueryStrings
  import opened HttpClient
  import opened BitcoinValues

  /** FromBtcAsync's default currency. */
  const DefaultCurrency := "USD"

  /** A C# double as ToBtcAsync's guard compares it. */
  datatype Double = Finite(x: real) | PositiveInfinity | NegativeInfinity | NaN

  /** `value <= 0`: false for NaN, as every ordered comparison with NaN is. */
  predicate AtMostZero(d: Double)
  {
    match d
    case Finite(x) => x <= 0.0
    case NegativeInfinity => true
    case _ => false
  }

  /**
   * FromBtcAsync's checks, in order: the value must not be null, then it
   * must be more than zero bitcoin.
   */
  function FromBtcGuard(btc: Option<BitcoinValue>): (r: Option<Error>)
    ensures r.None? <==> btc.Some? && GetBtc(btc.value) > 0
    ensures btc.None? ==> r == Some(ArgumentNull("btc", ValueCannotBeNull))
    ensures btc.Some? && GetBtc(btc.value) <= 0 ==> r == Some(ArgumentOutOfRange("btc", BtcValueNotPositive))
  {
    if btc.None? then Some(ArgumentNull("btc", ValueCannotBeNull))
    else if GetBtc(btc.value) <= 0 then Some(ArgumentOutOfRange("btc", BtcValueNotPositive))
    else None
  }

  /**
   * ToBtcAsync's checks, in order: the currency must not be blank, then the
   * value must not be at most zero.
   */
  function ToBtcGuard(currency: Option<string>, value: Double): (r: Option<Error>)
    ensures r.None? <==> !IsNullOrWhiteSpace(currency) && !AtMostZero(value)
    ensures IsNullOrWhiteSpace(currency) ==> r == Some(ArgumentNull("currency", ValueCannotBeNull))
    ensures !IsNullOrWhiteSpace(currency) && AtMostZero(value) ==> r == Some(ArgumentOutOfRange("value", ValueNotPositive))
  {
    if IsNullOrWhiteSpace(currency) then Some(ArgumentNull("currency", ValueCannotBeNull))
    else if AtMostZero(value) then Some(ArgumentOutOfRange("value", ValueNotPositive))
    else None
  }

  /** The query of both conversions: the currency, then the value's text. */
  function ConversionQuery(currency: string, value: string): (q: Entries)
    ensures Keys(q) == ["currency", "value"] && ApiCodeKey !in Keys(q)
    ensures Lookup(q, "currency") == Some(currency) && Lookup(q, "value") == Some(value)
  {
    [("currency", currency), ("value", value)]
  }

  /**
   * `FromBtcAsync(btc, currency)`: route "frombtc"; the value is sent as a
   * whole number of satoshis, and reading it can throw OverflowException.
   */
  function FromBtcOutcome<R>(apiCode: Option<string>, btc: Option<BitcoinValue>, currency: Option<string>,
                             parseDouble: string -> Result<R, Error>,
                             send: string -> Response, parse: string -> Option<Json>): Result<R, Error>
  {
    match FromBtcGuard(btc)
    case Some(e) => Err(e)
    case None =>
      match Satoshis(btc.value)
      case Err(e) => Err(e)
      case Ok(n) =>
        GetOutcome(apiCode, Some("frombtc"), Some(ConversionQuery(NullText(currency), IntToString(n))),
                   Some(parseDouble), parseDouble, send, parse)
  }

  /** `ToBtcAsync(currency, value)`: route "tobtc"; `format` is the double's culture-dependent text. */
  function ToBtcOutcome<R>(apiCode: Option<string>, currency: Option<string>, value: Double, format: Double -> string,
                           parseDouble: string -> Result<R, Error>,
                           send: string -> Response, parse: string -> Option<Json>): Result<R, Error>
  {
    match ToBtcGuard(currency, value)
    case Some(e) => Err(e)
    case None =>
      GetOutcome(apiCode, Some("tobtc"), Some(ConversionQuery(currency.value, format(value))),
                 Some(parseDouble), parseDouble, send, parse)
  }

  /** `GetTickerAsync()`: route "ticker" with no query at all. */
  function TickerOutcome<T>(apiCode: Option<string>, decode: string -> Result<T, Error>,
                            send: string -> Response, parse: string -> Option<Json>): Result<T, Error>
  {
    GetOutcome(apiCode, Some("ticker"), None, None, decode, send, parse)
  }

  // ---------------------------------------------------------------------------
  // Properties of the operations

  /** A null or non-positive amount is refused whatever the transport would answer. */
  lemma FromBtcChecksFirst<R>(apiCode: Option<string>, btc: Option<BitcoinValue>, currency: Option<string>,
                              parseDouble: string -> Result<R, Error>,
                              send1: string -> Response, send2: string -> Response, parse: string -> Option<Json>)
    requires btc.None? || btc.value.btc <= 0
    ensures FromBtcOutcome(apiCode, btc, currency, parseDouble, send1, parse).Err?
    ensures FromBtcOutcome(apiCode, btc, currency, parseDouble, send1, parse)
         == FromBtcOutcome(apiCode, btc, currency, parseDouble, send2, parse)
  {
  }

  /** A blank currency or a value at most zero is refused whatever the transport would answer. */
  lemma ToBtcChecksFirst<R>(apiCode: Option<string>, currency: Option<string>, value: Double, format: Double -> string,
                            parseDouble: string -> Result<R, Error>,
                            send1: string -> Response, send2: string -> Response, parse: string -> Option<Json>)
    requires IsNullOrWhiteSpace(currency) || AtMostZero(value)
    ensures ToBtcOutcome(apiCode, currency, value, format, parseDouble, send1, parse).Err?
    ensures ToBtcOutcome(apiCode, currency, value, format, parseDouble, send1, parse)
         == ToBtcOutcome(apiCode, currency, value, format, parseDouble, send2, parse)
  {
  }

  /** NaN is not at most zero, so it passes ToBtcAsync's value check and reaches the server. */
  lemma NaNPassesToBtcGuard(currency: string)
    requires !IsNullOrWhiteSpace(Some(currency))
    ensures ToBtcGuard(Some(currency), NaN).None?
    ensures ToBtcGuard(Some(currency), Finite(0.0)) == Some(ArgumentOutOfRange("value", ValueNotPositive))
  {
  }

  /**
   * A positive amount below one satoshi passes FromBtcAsync's check and is
   * sent as value=0, because the satoshi count truncates toward zero.
   */
  lemma SubSatoshiSentAsZero(v: BitcoinValue)
    requires 0 < v.btc < UnitsPerSatoshi
    ensures FromBtcGuard(Some(v)).None?
    ensures Satoshis(v) == Ok(0)
  {
    assert v.btc * SatoshisPerBitcoin < DecimalOne;
  }

  /** A whole number of satoshis is sent as exactly that count. */
  lemma WholeSatoshisSent<R>(apiCode: Option<string>, satoshis: int, currency: Option<string>,
                             parseDouble: string -> Result<R, Error>,
                             send: string -> Response, parse: string -> Option<Json>)
    requires 0 < satoshis && InLong(satoshis)
    ensures FromBtcOutcome(apiCode, Some(FromSatoshis(satoshis)), currency, parseDouble, send, parse)
         == GetOutcome(apiCode, Some("frombtc"), Some(ConversionQuery(NullText(currency), IntToString(satoshis))),
                       Some(parseDouble), parseDouble, send, parse)
  {
    SatoshisOfFromSatoshis(satoshis);
  }

  /** The conversion request: the route, "?currency=<c>&value=<v>", then the API code. */
  lemma ConversionRequest(apiCode: Option<string>, route: string, currency: string, value: string)
    requires '?' !in route
    ensures GetRequestRoute(apiCode, Some(route), Some(ConversionQuery(currency, value)))
         == Some(route + "?currency=" + currency + "&value=" + value + ApiCodeSuffix(apiCode))
  {
    var code := ApiCodeSuffix(apiCode);
    assert route + ("?" + "currency" + "=" + currency + "&" + "value" + "=" + value) + code
        == route + "?currency=" + currency + "&value=" + value + code;
    RequestedRoute(apiCode, route, ConversionQuery(currency, value));
    RenderTwo("currency", currency, "value", value);
  }

  // ---------------------------------------------------------------------------
  // The explorer

  class ExchangeRateExplorer {
    const httpClient: BlockchainHttpClient

    /** `new ExchangeRateExplorer()`: a client of its own, without an API code. */
    constructor ()
      ensures fresh(httpClient) && httpClient.apiCode.None?
    {
      httpClient := new BlockchainHttpClient(None);
    }

    /** `new ExchangeRateExplorer(httpClient)`. */
    constructor WithClient(httpClient: BlockchainHttpClient)
      ensures this.httpClient == httpClient
    {
      this.httpClient := httpClient;
    }

    /** `FromBtcAsync(btc, currency)`. */
    method FromBtcAsync<R>(btc: Option<BitcoinValue>, currency: Option<string>, parseDouble: string -> Result<R, Error>,
                           send: string -> Response, parse: string -> Option<Json>) returns (r: Result<R, Error>)
      ensures r == FromBtcOutcome(httpClient.apiCode, btc, currency, parseDouble, send, parse)
    {
      if btc.None? {
        return Err(ArgumentNull("btc", ValueCannotBeNull));
      }
      if GetBtc(btc.value) <= 0 {
        return Err(ArgumentOutOfRange("btc", BtcValueNotPositive));
      }
      var query := new QueryString();
      var _ := query.Add("currency", NullText(currency));
      var satoshis := Satoshis(btc.value);
      if satoshis.Err? {
        return Err(satoshis.error);
      }
      var _ := query.Add("value", IntToString(satoshis.value));
      assert query.entries == ConversionQuery(NullText(currency), IntToString(satoshis.value));
      r := httpClient.GetAsync(Some("frombtc"), query, Some(parseDouble), parseDouble, send, parse);
    }

    /** `GetTickerAsync()`. */
    method GetTickerAsync<T>(decode: string -> Result<T, Error>, send: string -> Response,
                             parse: string -> Option<Json>) returns (r: Result<T, Error>)
      ensures r == TickerOutcome(httpClient.apiCode, decode, send, parse)
    {
      r := httpClient.GetAsync(Some("ticker"), null, None, decode, send, parse);
    }

    /** `ToBtcAsync(currency, value)`. */
    method ToBtcAsync<R>(currency: Option<string>, value: Double, format: Double -> string,
                         parseDouble: string -> Result<R, Error>,
                         send: string -> Response, parse: string -> Option<Json>) returns (r: Result<R, Error>)
      ensures r == ToBtcOutcome(httpClient.apiCode, currency, value, format, parseDouble, send, parse)
    {
      if IsNullOrWhiteSpace(currency) {
        return Err(ArgumentNull("currency", ValueCannotBeNull));
      }
      if AtMostZero(value) {
        return Err(ArgumentOutOfRange("value", ValueNotPositive));
      }
      var query := new QueryString();
      var _ := query.Add("currency", currency.value);
      var _ := query.Add("value", format(value));
      assert query.entries == ConversionQuery(currency.value, format(value));
      r := httpClient.GetAsync(Some("tobtc"), query, Some(parseDouble), parseDouble, send, parse);
    }
  }
}
