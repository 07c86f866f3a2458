# Info.Blockchain.API — a Dafny model of the client core

This project models the core of the Blockchain.info API client for .NET: the
query-string builder, the HTTP client's request and response handling, the
`BitcoinValue` amount type and its JSON converters, the Unix-time converters,
the hand-written deserialisers of the models (blocks, simple blocks,
transactions, unspent outputs, wallet addresses, xpubs), and the five
explorers that turn calls into requests: `BlockExplorer`,
`StatisticsExplorer`, `ExchangeRateExplorer`, `Receive` and `Wallet`.

How the model is built:

- **Exceptions** become a `Result<T, Error>`; `Error` names the exception
  class, its parameter name and its message (`errors.dfy`).
- **The transport** is a parameter `send: string -> Response`: the request
  route in, a status, reason and body out. Each explorer method is a method of
  a class that holds its `BlockchainHttpClient`, and is proved equal to a pure
  `...Outcome` function of the API code, the arguments and `send`. The lemmas
  about an operation are stated on that function: which checks run before
  any request (`...ChecksFirst`), which request is sent (`...Request`), and
  how server errors are mapped to argument exceptions.
- **JSON** is a `Json` datatype whose numbers are integers. Parsing text is a
  parameter `parse: string -> Option<Json>`. Generic typed decoding is a
  `decode` parameter. Two libraries bind properties differently, and the
  model keeps them apart. Newtonsoft enforces `Required.Always`.
  System.Text.Json keeps an absent property's initial value (`JsonTree.BindField`).
- **`QueryString`** is a class over an ordered sequence of entries. `Add` fails
  on a duplicate key, as the dictionary underneath it does.
- **C# `decimal`** is an integer count of 10^-28 bitcoin. **`DateTime`** is a
  whole number of milliseconds from 1970-01-01 together with its kind, and
  it stays within `DateTime.MinValue`..`MaxValue`. `long` and `int` ranges
  are explicit (`Text.InLong`) wherever the source can overflow.

Two behaviours of the source are modelled exactly as written and set
against the evidently intended behaviour:

- `BlockchainHttpClient.GetAsync` (BlockchainHttpClient.cs:105-113) handles a
  route that already holds '?' by appending "&" followed by the text of the
  '?' position without its first digit. The query is lost.
  `HttpClient.RoutesAgreeWithoutQuestionMark` shows that every route without
  '?' is unaffected. A route reaches the '?' branch only when caller text
  that holds '?' is put into it: the address in "address/<address>"
  (BlockExplorer.cs:424), the pool name or timestamp in "blocks/<name>"
  (BlockExplorer.cs:463), the chart type in "charts/<chartType>"
  (StatisticsExplorer.cs:74, `StatisticsExplorers.QuestionMarkChartDropsQuery`)
  and a wallet identifier (`Wallets.QuestionMarkIdentifierDropsPassword`).
  The "rawblock/" and "rawtx/" routes send no query, so the branch is not
  taken for them.
- `GetXpub` and `GetAddress` (BlockExplorer.cs:349, :403) name the
  `ArgumentNullException` after the blank argument's value, not after the
  parameter (`BlockExplorers.BlankArgumentAsWritten`).

`Xpub.Deserialize` stores the transaction list into the first address
object in place. The model updates that object as a value. This is exact,
because the parsed tree is not read again afterwards.

## Model

| member | source | states |
|---|---|---|
| QueryStrings.Lookup | src/Info.Blockchain.API/Client/QueryString.cs:14 | the dictionary lookup: no value exactly when the key was never stored |
| QueryStrings.Upsert | src/Info.Blockchain.API/Client/QueryString.cs:40 | the indexer store: the map grows by one entry exactly when the key is new |
| QueryStrings.UpsertLookup | src/Info.Blockchain.API/Client/QueryString.cs:48 | after a store the key maps to the new value (last write wins) and every other key keeps its value |
| QueryStrings.UpsertKeyOrder | src/Info.Blockchain.API/Client/QueryString.cs:48 | a store keeps the key order and appends a new key at the end |
| QueryStrings.UpsertPresentKeys | src/Info.Blockchain.API/Client/QueryString.cs:48 | a store over a present key changes no key |
| QueryStrings.UpsertAbsent | src/Info.Blockchain.API/Client/QueryString.cs:40 | storing an absent key appends exactly that pair |
| QueryStrings.UpsertDistinct | src/Info.Blockchain.API/Client/QueryString.cs:14 | a store keeps the keys distinct, as a dictionary's are |
| QueryStrings.DistinctCount | src/Info.Blockchain.API/Client/QueryString.cs:25 | with distinct keys the number of entries is the number of distinct keys |
| QueryStrings.RenderEmpty | src/Info.Blockchain.API/Client/QueryString.cs:54 | an empty query renders as "?" |
| QueryStrings.RenderAppend | src/Info.Blockchain.API/Client/QueryString.cs:54 | rendering one more entry appends "key=value", after "&" unless it is the first |
| QueryStrings.RenderTwo | src/Info.Blockchain.API/Client/QueryString.cs:54 | two entries render as "?k1=v1&k2=v2", verbatim |
| QueryStrings.RenderContainsEntries | src/Info.Blockchain.API/Client/QueryString.cs:54 | every stored "key=value" occurs verbatim in the rendered text |
| QueryStrings.QueryString.constructor | src/Info.Blockchain.API/Client/QueryString.cs:19-25 | a new query string is empty, has Count 0 and renders as "?" |
| QueryStrings.QueryString.Count | src/Info.Blockchain.API/Client/QueryString.cs:25 | Count is the number of distinct keys stored |
| QueryStrings.QueryString.Add | src/Info.Blockchain.API/Client/QueryString.cs:33-41 | a present key fails with ClientApiException "Query string already has a value for <key>" and changes nothing; an absent key is appended, its lookup gives the value and the size grows by exactly one |
| QueryStrings.QueryString.AddOrUpdate | src/Info.Blockchain.API/Client/QueryString.cs:48 | never fails; the key then maps to the new value, every other key keeps its value, and the size grows only for a new key |
| QueryStrings.QueryString.ToString | src/Info.Blockchain.API/Client/QueryString.cs:54 | "?" followed by the "key=value" pairs joined by "&", in insertion order, without encoding; "?" when empty |
| HttpClient.EnvelopeMessage | src/Info.Blockchain.API/Client/BlockchainHttpClient.cs:208-210 | the "error" string of a parsed envelope, "" when the member is absent, and a failure when the body does not parse |
| HttpClient.ValidateResponse | src/Info.Blockchain.API/Client/BlockchainHttpClient.cs:201-224 | a success passes exactly when its body does not start with `{"error":`, and then returns the body unchanged; an envelope raises ServerApiException(message, 400); a failure whose body is "Block Not Found" in any case raises ("Block Not Found", 404); any other failure raises "<reason>: <body>" with the real status |
| HttpClient.BlockNotFoundLowerCase | src/Info.Blockchain.API/Client/BlockchainHttpClient.cs:218-221 | "block not found" is recognised, whatever the real status and reason |
| HttpClient.BlockNotFoundUpperCase | src/Info.Blockchain.API/Client/BlockchainHttpClient.cs:218-221 | "BLOCK NOT FOUND" is recognised, whatever the real status and reason |
| HttpClient.WithApiCode | src/Info.Blockchain.API/Client/BlockchainHttpClient.cs:98-101 | without a query nothing is added; without an API code the query is unchanged; otherwise api_code is appended, and a query that already has api_code fails with ClientApiException |
| HttpClient.IntendedRoute | src/Info.Blockchain.API/Client/BlockchainHttpClient.cs:103-119 | the extension the '?' branch evidently meant: every query entry appears in the route |
| HttpClient.RoutesAgreeWithoutQuestionMark | src/Info.Blockchain.API/Client/BlockchainHttpClient.cs:103-119 | for a route without '?' the extension as written equals the intended one |
| HttpClient.QueryLostAfterQuestionMark | src/Info.Blockchain.API/Client/BlockchainHttpClient.cs:105-113 | when '?' lies within the first ten characters, the route as written gets only "&": the query is lost |
| HttpClient.QuestionMarkRouteExample | src/Info.Blockchain.API/Client/BlockchainHttpClient.cs:105-113 | "x?a=1" with format=json is requested as "x?a=1&" |
| HttpClient.QuestionMarkRouteIntended | src/Info.Blockchain.API/Client/BlockchainHttpClient.cs:105-113 | the intended extension of the same route is "x?a=1&format=json" |
| HttpClient.GetRequestRoute | src/Info.Blockchain.API/Client/BlockchainHttpClient.cs:93-119 | a null route sends nothing; a null query leaves the route as it is; without an API code the route is extended by the query |
| HttpClient.GetFailsBeforeSending | src/Info.Blockchain.API/Client/BlockchainHttpClient.cs:93-101 | when no request can be formed (null route, duplicate api_code), GetAsync fails whatever the transport would answer |
| HttpClient.GetSuccessDecodesBody | src/Info.Blockchain.API/Client/BlockchainHttpClient.cs:121-130 | a successful GetAsync sent a request, got a success that is not an envelope, and decoded that body |
| HttpClient.SameResponseEverywhere | src/Info.Blockchain.API/Client/BlockchainHttpClient.cs:121-130 | when every request gets the same response, GetAsync's outcome is that response validated and then decoded |
| HttpClient.EnvelopeIsServerError | src/Info.Blockchain.API/Client/BlockchainHttpClient.cs:203-211 | an error envelope from the server makes GetAsync fail with ServerApiException(message, 400) |
| HttpClient.Caught | src/Info.Blockchain.API/BlockExplorer/BlockExplorer.cs:225-233 | a catch block: a success passes through and a failure goes to the handler |
| HttpClient.ApiCodeSuffix | src/Info.Blockchain.API/Client/BlockchainHttpClient.cs:98-101 | the api_code entry's rendered text is empty exactly when there is no API code |
| HttpClient.RequestedRoute | src/Info.Blockchain.API/Client/BlockchainHttpClient.cs:98-117 | for a route without '?' and a non-empty query, the request is route + rendered query + "&api_code=<code>" when a code is set |
| HttpClient.RequestedWithCode | src/Info.Blockchain.API/Client/BlockchainHttpClient.cs:98-117 | the same request when an API code is set |
| HttpClient.RouteWithCodeEntry | src/Info.Blockchain.API/Client/BlockchainHttpClient.cs:98-117 | with a code set, the request renders the query with api_code as its last entry |
| HttpClient.RequestedWithoutCode | src/Info.Blockchain.API/Client/BlockchainHttpClient.cs:103-117 | without a code, the request is route + rendered query |
| HttpClient.PostRoute | src/Info.Blockchain.API/Client/BlockchainHttpClient.cs:153-156 | PostAsync appends "?api_code=<code>" when a code is set and leaves the route alone otherwise |
| HttpClient.FormatJson | src/Info.Blockchain.API/Statistics/StatisticsExplorer.cs:44-46 | the format=json query, which holds no api_code |
| HttpClient.BlockchainHttpClient.constructor | src/Info.Blockchain.API/Client/BlockchainHttpClient.cs:68 | the client keeps the API code it is given |
| HttpClient.BlockchainHttpClient.GetAsync | src/Info.Blockchain.API/Client/BlockchainHttpClient.cs:91-131 | the outcome is GetOutcome: the checks, the extended route, validation, then the custom decoder when given and the generic one otherwise; the caller's query gains api_code exactly when a route and a code are set and the key was absent |
| HttpClient.BlockchainHttpClient.PostAsync | src/Info.Blockchain.API/Client/BlockchainHttpClient.cs:146-170 | the outcome is PostOutcome: a null route fails, the route gets "?api_code=", the serialised object is posted, and the validated body is always decoded generically |
| BitcoinValues.DivideRounded | src/Info.Blockchain.API/Models/BitcoinValue.cs:67 | decimal division to 28 places: the remainder is at most half the divisor, and ties go to the even quotient |
| BitcoinValues.TruncatedQuotient | src/Info.Blockchain.API/Models/BitcoinValue.cs:60 | the (long) cast truncates toward zero, for both signs |
| BitcoinValues.FromBtc | src/Info.Blockchain.API/Models/BitcoinValue.cs:74 | GetBtc returns the value given, and the value is Zero exactly when it is 0 |
| BitcoinValues.Bits | src/Info.Blockchain.API/Models/BitcoinValue.cs:48 | btc x 1000000 exactly, or OverflowException outside decimal's range |
| BitcoinValues.MilliBits | src/Info.Blockchain.API/Models/BitcoinValue.cs:54 | btc x 1000 exactly, or OverflowException outside decimal's range |
| BitcoinValues.Satoshis | src/Info.Blockchain.API/Models/BitcoinValue.cs:60 | btc x 100000000 truncated toward zero into a long, or OverflowException |
| BitcoinValues.FromBits | src/Info.Blockchain.API/Models/BitcoinValue.cs:67 | bits / 1000000, off by at most half a unit of the last place |
| BitcoinValues.FromMilliBits | src/Info.Blockchain.API/Models/BitcoinValue.cs:81 | mBtc / 1000, off by at most half a unit of the last place |
| BitcoinValues.FromSatoshis | src/Info.Blockchain.API/Models/BitcoinValue.cs:88 | satoshis / 100000000 exactly |
| BitcoinValues.Plus | src/Info.Blockchain.API/Models/BitcoinValue.cs:108-112 | a new value whose btc is the exact sum, or OverflowException outside decimal's range |
| BitcoinValues.Minus | src/Info.Blockchain.API/Models/BitcoinValue.cs:96-100 | a new value whose btc is the exact difference, or OverflowException outside decimal's range |
| BitcoinValues.EqualsIsValueEquality | src/Info.Blockchain.API/Models/BitcoinValue.cs:122-125 | Equals is equality of btc, false against null and against any object that is not a BitcoinValue |
| BitcoinValues.SatoshisOfFromSatoshis | src/Info.Blockchain.API/Models/BitcoinValue.cs:60-88 | FromSatoshis(s).Satoshis == s for every long s |
| BitcoinValues.FromSatoshisOfSatoshis | src/Info.Blockchain.API/Models/BitcoinValue.cs:60-88 | FromSatoshis(v.Satoshis) gives v back exactly when v is a whole number of satoshis |
| BitcoinValues.FromSatoshisInjective | src/Info.Blockchain.API/Models/BitcoinValue.cs:88 | FromSatoshis(s) equals FromSatoshis(t) exactly when s == t |
| BitcoinValues.FromBitsOfBits | src/Info.Blockchain.API/Models/BitcoinValue.cs:48-67 | FromBits(v.Bits) == v |
| BitcoinValues.FromMilliBitsOfMilliBits | src/Info.Blockchain.API/Models/BitcoinValue.cs:54-81 | FromMilliBits(v.MilliBits) == v |
| BitcoinValues.OneBitcoin | src/Info.Blockchain.API/Models/BitcoinValue.cs:15-25 | one bitcoin is 1000000 bits, 1000 millibits and 100000000 satoshis |
| BitcoinValues.MinusUndoesPlus | src/Info.Blockchain.API/Models/BitcoinValue.cs:96-112 | (x + y) - y == x, and + is commutative |
| BitcoinValues.FractionText | src/Info.Blockchain.API/Models/BitcoinValue.cs:137 | the decimal's fraction digits are empty exactly for a whole value |
| BitcoinValues.ToString | src/Info.Blockchain.API/Models/BitcoinValue.cs:137 | a whole value prints as its integer text, and the text starts with '-' exactly for a negative value |
| BitcoinValueConverter.CanConvert | src/Info.Blockchain.API/Json/BitcoinValueJsonConverter.cs:17 | holds exactly for BitcoinValue |
| BitcoinValueConverter.ReadJson | src/Info.Blockchain.API/Json/BitcoinValueJsonConverter.cs:20-21 | a long token reads as FromSatoshis of it; any other token (float, string, null) reads as Zero, never an error |
| BitcoinValueConverter.WriteJson | src/Info.Blockchain.API/Json/BitcoinValueJsonConverter.cs:24-25 | a BitcoinValue writes its Satoshis as raw text (or the cast's OverflowException); anything else writes "0" |
| BitcoinValueConverter.RoundTrip | src/Info.Blockchain.API/Json/BitcoinValueJsonConverter.cs:20-25 | FromSatoshis(s) writes as s's text, which reads back as a value Equal to FromSatoshis(s) |
| BitcoinValueConverter.WriteThenRead | src/Info.Blockchain.API/Json/BitcoinValueJsonConverter.cs:20-25 | any value reads back as its truncated satoshi count, which is the same value exactly when it is a whole number of satoshis |
| NativeBitcoinValueConverter.TryGetInt64 | src/Info.Blockchain.API/Json/NativeBitcoinValueJsonConverter.cs:21 | a number token gives its long value when it has one; any other token throws |
| NativeBitcoinValueConverter.CanConvert | src/Info.Blockchain.API/Json/NativeBitcoinValueJsonConverter.cs:17 | holds exactly for BitcoinValue |
| NativeBitcoinValueConverter.Read | src/Info.Blockchain.API/Json/NativeBitcoinValueJsonConverter.cs:20-21 | a number that fits a long reads as FromSatoshis of it; a fractional or out-of-range number reads as Zero; a null token reads as null; any other token throws InvalidOperationException |
| NativeBitcoinValueConverter.Write | src/Info.Blockchain.API/Json/NativeBitcoinValueJsonConverter.cs:24-25 | writes Satoshis as a JSON number, failing exactly when the cast overflows |
| NativeBitcoinValueConverter.RoundTrip | src/Info.Blockchain.API/Json/NativeBitcoinValueJsonConverter.cs:20-25 | Write then Read of FromSatoshis(s) gives a value Equal to FromSatoshis(s) |
| NativeBitcoinValueConverter.WriteThenRead | src/Info.Blockchain.API/Json/NativeBitcoinValueJsonConverter.cs:20-25 | Write then Read of any value gives FromSatoshis of its truncated satoshi count |
| TrueTrumpsAll.CanConvert | src/Info.Blockchain.API/Json/TrueTrumpsAllJsonConverter.cs:15 | holds exactly for bool |
| TrueTrumpsAll.ReadJson | src/Info.Blockchain.API/Json/TrueTrumpsAllJsonConverter.cs:19-22 | an existing true stays true; otherwise a boolean token gives its value and any other token gives false; the result is always a bool |
| TrueTrumpsAll.WriteJson | src/Info.Blockchain.API/Json/TrueTrumpsAllJsonConverter.cs:25 | writes the value unchanged |
| TrueTrumpsAll.WriteThenRead | src/Info.Blockchain.API/Json/TrueTrumpsAllJsonConverter.cs:22-25 | with no existing value, reading what was written gives the value back |
| TrueTrumpsAll.ReadSequenceSticky | src/Info.Blockchain.API/Json/TrueTrumpsAllJsonConverter.cs:21-22 | feeding each result back as the existing value, the final value is true exactly when it started true or some token was true |
| BitcoinValueProperties.Read | src/Info.Blockchain.API/Models/UnspentOutput.cs:45-48 | a BitcoinValue property is read through the Newtonsoft converter or through the System.Text.Json one, according to the library decoding it |
| BitcoinValueProperties.LibrariesAgreeOnLongs | src/Info.Blockchain.API/Json/BitcoinValueJsonConverter.cs:21 | both converters read a whole number as FromSatoshis of it |
| BitcoinValueProperties.LibrariesDisagreeOnStrings | src/Info.Blockchain.API/Json/NativeBitcoinValueJsonConverter.cs:21 | a string reads as Zero with Newtonsoft but throws with System.Text.Json |
| DateTimes.AddMilliseconds | src/Info.Blockchain.API/Json/UnixDateTimeJsonConverter.cs:119 | DateTime.AddMilliseconds: the instant moves by the milliseconds and keeps its kind, and leaving DateTime's range throws ArgumentOutOfRangeException |
| DateTimes.ToOffset | src/Info.Blockchain.API/Json/UnixEpochDateTimeOffsetConverter.cs:41 | DateTimeOffset.ToOffset keeps the instant and records the offset, failing when the offset exceeds 14 hours or the local clock leaves the range |
| UnixDateTimeConverter.UnixMillisToDateTime | src/Info.Blockchain.API/Json/UnixDateTimeJsonConverter.cs:117-123 | Epoch plus the milliseconds, accepted exactly when in range and not before the floor; an earlier instant is rejected with ArgumentOutOfRangeException, never clamped |
| UnixDateTimeConverter.UnixSecondsToDateTime | src/Info.Blockchain.API/Json/UnixDateTimeJsonConverter.cs:130 | seconds are converted as seconds x 1000 milliseconds |
| UnixDateTimeConverter.GenesisFloorAsWritten | src/Info.Blockchain.API/Json/UnixDateTimeJsonConverter.cs:37-43 | since GenesisBlockDate is initialised before Epoch, the floor is MinValue + 1231006505 s (before 1970), not 1231006505000 ms after the epoch |
| UnixDateTimeConverter.TimestampOf | src/Info.Blockchain.API/Json/UnixDateTimeJsonConverter.cs:61-79 | the converter's reading of a token value: a long is a whole number; a string is one exactly when it is canonical integer text, and prints as that number; null, a bool or a big integer is not a number |
| UnixDateTimeConverter.ReadJson | src/Info.Blockchain.API/Json/UnixDateTimeJsonConverter.cs:59-80 | a non-number reads as null; a number v reads as Epoch + v x 1000 ms in seconds mode or + v ms in millis mode, and an instant below the floor is rejected |
| UnixDateTimeConverter.SecondsText | src/Info.Blockchain.API/Json/UnixDateTimeJsonConverter.cs:98-107 | a whole number of seconds prints as its integer text |
| UnixDateTimeConverter.WriteJson | src/Info.Blockchain.API/Json/UnixDateTimeJsonConverter.cs:88-100 | seconds since Epoch, or milliseconds in millis mode; a value that is not a DateTime writes nothing |
| UnixDateTimeConverter.WriteThenRead | src/Info.Blockchain.API/Json/UnixDateTimeJsonConverter.cs:59-100 | what WriteJson writes for an instant not below the floor (a whole second in seconds mode) reads back as the same instant |
| UnixDateTimeConverter.EpochAcceptedBelowGenesis | src/Info.Blockchain.API/Json/UnixDateTimeJsonConverter.cs:117-123 | with the floor as written Unix time 0 is accepted, while the intended floor rejects it and accepts the genesis second itself |
| UnixDateTimeConverter.IntendedFloorIsGenesis | src/Info.Blockchain.API/Json/UnixDateTimeJsonConverter.cs:117-123 | with Epoch initialised first the floor is the genesis instant, and a representable number is accepted exactly when it is not before the genesis block |
| UnixDateTimeConverter.ReadNeverMinValue | src/Info.Blockchain.API/Json/UnixDateTimeJsonConverter.cs:117-123 | under the floor in force or a later one, no instant read is DateTime.MinValue |
| UnixEpochDateTime.MatchDate | src/Info.Blockchain.API/Json/UnixEpochDateTimeConverter.cs:17 | the capture group of `^Date\([+-]*(\d+)\)$` is a non-empty run of digits |
| UnixEpochDateTime.MatchDateSound | src/Info.Blockchain.API/Json/UnixEpochDateTimeConverter.cs:17 | a match means the text (without one final newline, which `$` allows) is "Date(" + signs + the captured digits + ")" |
| UnixEpochDateTime.MatchDateComplete | src/Info.Blockchain.API/Json/UnixEpochDateTimeConverter.cs:17 | every "Date(" + signs + digits + ")" matches, capturing the digits |
| UnixEpochDateTime.ReadText | src/Info.Blockchain.API/Json/UnixEpochDateTimeConverter.cs:38-51 | a successful read matched the (wrapped) text and parsed the captured digits into the instant, which is never before the epoch |
| UnixEpochDateTime.ReadDigits | src/Info.Blockchain.API/Json/UnixEpochDateTimeConverter.cs:46-51 | the captured digits, parsed as a long, become Epoch plus that many milliseconds |
| UnixEpochDateTime.ReadNumber | src/Info.Blockchain.API/Json/UnixEpochDateTimeConverter.cs:24-41 | a number token is read through its decimal text, so it never gives an instant before the epoch |
| UnixEpochDateTime.Read | src/Info.Blockchain.API/Json/UnixEpochDateTimeConverter.cs:21-52 | a string is read as text; a null string throws JsonException; any other non-number token throws InvalidOperationException; no result lies before the epoch |
| UnixEpochDateTime.Write | src/Info.Blockchain.API/Json/UnixEpochDateTimeConverter.cs:55-61 | "/Date(N)/" with N the milliseconds since Epoch |
| UnixEpochDateTime.ReadDateText | src/Info.Blockchain.API/Json/UnixEpochDateTimeConverter.cs:43-51 | "Date(" + signs + digits + ")" reads as its digits |
| UnixEpochDateTime.ReadUnsignedDateText | src/Info.Blockchain.API/Json/UnixEpochDateTimeConverter.cs:43-51 | "Date(" + digits + ")" reads as its digits |
| UnixEpochDateTime.SignsDiscarded | src/Info.Blockchain.API/Json/UnixEpochDateTimeConverter.cs:17 | signs lie outside the capture group: "Date(-5)" reads the same as "Date(5)" |
| UnixEpochDateTime.ReadRejectsWrite | src/Info.Blockchain.API/Json/UnixEpochDateTimeConverter.cs:17-59 | Read throws JsonException on every text Write produces |
| UnixEpochDateTime.NumberTokenRead | src/Info.Blockchain.API/Json/UnixEpochDateTimeConverter.cs:24-51 | a non-negative number token n reads as Epoch + n ms |
| UnixEpochDateTime.NegativeNumberRejected | src/Info.Blockchain.API/Json/UnixEpochDateTimeConverter.cs:38-49 | a negative number token is not all digits, is not wrapped, and throws JsonException |
| UnixEpochDateTime.OverflowRejected | src/Info.Blockchain.API/Json/UnixEpochDateTimeConverter.cs:45-49 | a digit run beyond long's range throws JsonException |
| UnixEpochDateTime.UnparsedRejected | src/Info.Blockchain.API/Json/UnixEpochDateTimeConverter.cs:45-49 | a digit run that long.TryParse refuses throws JsonException |
| UnixEpochDateTimeOffset.MatchOffsetDate | src/Info.Blockchain.API/Json/UnixEpochDateTimeOffsetConverter.cs:16 | the groups of `^/Date\(([+-]*\d+)([+-])(\d{2})(\d{2})\)/$`: signed digits, one sign, two hour digits, two minute digits |
| UnixEpochDateTimeOffset.InnerGroups | src/Info.Blockchain.API/Json/UnixEpochDateTimeOffsetConverter.cs:16 | the text inside the parentheses splits into the four groups by its last five characters |
| UnixEpochDateTimeOffset.MatchOffsetDateSound | src/Info.Blockchain.API/Json/UnixEpochDateTimeOffsetConverter.cs:16 | a match means the text is exactly the groups put back together |
| UnixEpochDateTimeOffset.MatchOffsetDateComplete | src/Info.Blockchain.API/Json/UnixEpochDateTimeOffsetConverter.cs:16 | every text of that shape matches, with exactly those groups |
| UnixEpochDateTimeOffset.ReadParts | src/Info.Blockchain.API/Json/UnixEpochDateTimeOffsetConverter.cs:30-41 | the instant is the parsed milliseconds and the offset is sign x (hh hours + mm minutes); unparsable milliseconds throw JsonException |
| UnixEpochDateTimeOffset.ReadString | src/Info.Blockchain.API/Json/UnixEpochDateTimeOffsetConverter.cs:28-36 | a text that does not match throws JsonException |
| UnixEpochDateTimeOffset.Read | src/Info.Blockchain.API/Json/UnixEpochDateTimeOffsetConverter.cs:20-42 | null throws JsonException, a non-string throws InvalidOperationException, and a success matched the text and took its instant and offset from the groups |
| UnixEpochDateTimeOffset.IntToStringShape | src/Info.Blockchain.API/Json/UnixEpochDateTimeOffsetConverter.cs:16-50 | a written millisecond count fits the signed-digits group |
| UnixEpochDateTimeOffset.ReadOffsetText | src/Info.Blockchain.API/Json/UnixEpochDateTimeOffsetConverter.cs:16-41 | a text of the accepted shape reads as its groups |
| UnixEpochDateTimeOffset.WrittenPartsShape | src/Info.Blockchain.API/Json/UnixEpochDateTimeOffsetConverter.cs:47-50 | Write's text has the accepted shape: the milliseconds, '+' exactly when the offset is not negative, and two-digit hours and minutes that give the offset back |
| UnixEpochDateTimeOffset.ReadPartsOfLong | src/Info.Blockchain.API/Json/UnixEpochDateTimeOffsetConverter.cs:31-41 | milliseconds written from a long parse back to it |
| UnixEpochDateTimeOffset.RoundTrip | src/Info.Blockchain.API/Json/UnixEpochDateTimeOffsetConverter.cs:16-51 | Read(Write(v)) == v for every whole-millisecond value, negative instants and offsets included |
| UnixEpochDateTimeOffset.SeveralSignsRejected | src/Info.Blockchain.API/Json/UnixEpochDateTimeOffsetConverter.cs:31 | a millisecond group with more than one sign (such as "+-5") fails long.TryParse and throws JsonException |
| Blocks.PatchTransaction | src/Info.Blockchain.API/Models/Block.cs:141-142 | patching one transaction succeeds exactly for an object; any other token fails as the indexer store fails |
| Blocks.PatchedProperties | src/Info.Blockchain.API/Models/Block.cs:141-142 | a patched transaction has block_height set to the block's height and double_spend set to false, overwriting any incoming value, and every other property unchanged |
| Blocks.PatchKeepsOrder | src/Info.Blockchain.API/Models/Block.cs:141-142 | patching keeps the transaction's property order and appends block_height and double_spend only when absent |
| Blocks.FirstNonObject | src/Info.Blockchain.API/Models/Block.cs:139-143 | the position of the first transaction token that is not an object, where the loop throws |
| Blocks.PatchItems | src/Info.Blockchain.API/Models/Block.cs:139-143 | the patch loop succeeds exactly when every element of "tx" is an object |
| Blocks.PatchNext | src/Info.Blockchain.API/Models/Block.cs:141-142 | one loop step patches element i and leaves the others as they were |
| Blocks.PatchedAll | src/Info.Blockchain.API/Models/Block.cs:139-143 | once every element is patched, the array is the patched transactions in their original order |
| Blocks.PatchStopped | src/Info.Blockchain.API/Models/Block.cs:139-143 | the loop stops at the first non-object, with the same exception the whole patch reports |
| Blocks.PatchTransactions | src/Info.Blockchain.API/Models/Block.cs:139-143 | the in-place loop over the "tx" array: on success the array is the patched transactions in order; on failure the error is the patch's and the elements before the first non-object are already patched |
| Blocks.PatchedBlock | src/Info.Blockchain.API/Models/Block.cs:136-143 | a block without "tx" is unchanged; the patch touches only "tx", whose elements are patched with the block's "height" (null when absent) |
| Blocks.Deserialize | src/Info.Blockchain.API/Models/Block.cs:134-146 | parse the block text, patch its transactions in place, then decode the block |
| Blocks.NoTransactionsNoPatch | src/Info.Blockchain.API/Models/Block.cs:139 | a block without "tx" is decoded as parsed, with no patch and no error |
| Blocks.PatchedTransactionBinds | src/Info.Blockchain.API/Models/Block.cs:141-142 | a transaction decoded after the patch carries the block's height and double_spend false |
| Blocks.DeserializeItem | src/Info.Blockchain.API/Models/Block.cs:159 | each element is deserialized from its own text: a string element's raw text is parsed, patched and decoded as block text; an object element is patched and decoded; a number, bool, null or array element, and a property of an object "blocks", throws reading JObject |
| Blocks.ObjectItemAsText | src/Info.Blockchain.API/Models/Block.cs:159 | an object element decodes exactly as any text that parses to that object does |
| Blocks.DeserializeEach | src/Info.Blockchain.API/Models/Block.cs:157-162 | deserializing each "blocks" element keeps at most one block per element; the first exception, string elements included, propagates |
| Blocks.FailurePropagates | src/Info.Blockchain.API/Models/Block.cs:159 | an exception from any one element propagates out of DeserializeMultiple |
| Blocks.AllBlocksKept | src/Info.Blockchain.API/Models/Block.cs:157-162 | when every element decodes to a block, the result is those blocks in the same order |
| Blocks.NullDropped | src/Info.Blockchain.API/Models/Block.cs:160 | an element that decodes to null is dropped |
| Blocks.DeserializeMultiple | src/Info.Blockchain.API/Models/Block.cs:153-166 | unparsable text throws; a missing "blocks" gives an empty collection; otherwise each element is deserialized from its text in order, null results dropped |
| Blocks.ReceivedTime | src/Info.Blockchain.API/Models/Block.cs:92-96 | Time while the private field is still DateTime.MinValue, the stored value otherwise |
| Blocks.UnsetReceivedTimeIsTime | src/Info.Blockchain.API/Models/Block.cs:92-96 | a block whose received_time was never set reports its Time |
| Blocks.ConvertedReceivedTimeReported | src/Info.Blockchain.API/Models/Block.cs:88-95 | a received_time read by UnixDateTimeJsonConverter is reported as read, never replaced by Time |
| Blocks.BindReceivedTime | src/Info.Blockchain.API/Models/Block.cs:88-96 | Newtonsoft reads received_time through UnixDateTimeJsonConverter in seconds into the private setter: a read instant is stored as read, a converter exception propagates, and a null read throws "Error setting value to 'ReceivedTime'"; System.Text.Json ignores the private setter and an absent key sets nothing, so the field stays MinValue |
| Blocks.BindDefaults | src/Info.Blockchain.API/Models/Block.cs:38-127 | Newtonsoft requires "fee" and refuses a block missing any of bits, block_index, mrkl_root, nonce, prev_block, size, tx or ver (or holding null there); System.Text.Json leaves Fees at zero when it is absent; RelayedBy defaults to "0.0.0.0"; ReceivedTime is Time when received_time is absent or ignored, and the converter's reading of it otherwise |
| Blocks.DecodedReceivedTimeReported | src/Info.Blockchain.API/Models/Block.cs:88-96 | a block decoded by Newtonsoft with received_time a whole number of seconds from the genesis block on reports exactly that instant, not Time |
| SimpleBlocks.WithMainChain | src/Info.Blockchain.API/Models/SimpleBlock.cs:21 | the protected constructor sets MainChain to its argument; Hash defaults to "" |
| SimpleBlocks.New | src/Info.Blockchain.API/Models/SimpleBlock.cs:28-38 | the public constructor leaves MainChain false and Hash "" |
| SimpleBlocks.BindMainChain | src/Info.Blockchain.API/Models/SimpleBlock.cs:51-55 | on the Newtonsoft path main_chain goes through the sticky-true converter: true exactly when already true or the token is true |
| SimpleBlocks.MainChainFromJson | src/Info.Blockchain.API/Models/SimpleBlock.cs:28-55 | a freshly constructed block's MainChain is true exactly when main_chain is the token true |
| SimpleBlocks.DeserializeMultiple | src/Info.Blockchain.API/Models/SimpleBlock.cs:72-76 | unparsable text throws; a missing "blocks" gives null, not an empty list; an array decodes element by element in order |
| Transactions.Bind | src/Info.Blockchain.API/Models/Transaction.cs:19-96 | BlockHeight defaults to -1 and DoubleSpend to false when absent and are read from block_height and double_spend otherwise; under System.Text.Json absent Inputs and Outputs stay empty; Newtonsoft requires inputs and out and refuses a transaction missing any of hash, tx_index, relayed_by, size, time or ver (or holding null there) |
| Transactions.DeserializeMultiple | src/Info.Blockchain.API/Models/Transaction.cs:103-108 | unparsable text throws; a missing "txs" gives an empty collection, never null; an array decodes element by element in order |
| UnspentOutputs.Bind | src/Info.Blockchain.API/Models/UnspentOutput.cs:29-74 | Newtonsoft requires script, tx_hash and value and refuses an output missing confirmations, tx_output_n or tx_index (or holding null there); System.Text.Json leaves Script and TransactionHash "" and Value zero when absent; value is read through the library's BitcoinValue converter |
| UnspentOutputs.DeserializeMultiple | src/Info.Blockchain.API/Models/UnspentOutput.cs:81-85 | unparsable text throws; a missing "unspent_outputs" gives an empty collection, never null; an array decodes element by element in order |
| UnspentOutputs.OnlyUnspentOutputsMatter | src/Info.Blockchain.API/Models/UnspentOutput.cs:83-84 | two responses with the same "unspent_outputs" decode alike, whatever their other keys |
| WalletAddresses.Bind | src/Info.Blockchain.API/Models/WalletAddress.cs:19-47 | Newtonsoft requires "address"; AddressStr defaults to "", Balance and TotalReceived to zero, Label to null; balance is read through the library's BitcoinValue converter |
| WalletAddresses.StringProperty | src/Info.Blockchain.API/Models/WalletAddress.cs:54-58 | a top-level property read as a string: null when absent, the token's string otherwise, and unparsable text throws |
| WalletAddresses.DeserializeArchived | src/Info.Blockchain.API/Models/WalletAddress.cs:54-58 | the "archived" string, or null when it is absent |
| WalletAddresses.DeserializeUnArchived | src/Info.Blockchain.API/Models/WalletAddress.cs:87-91 | the "active" string, or null when it is absent |
| WalletAddresses.DeserializeConsolidated | src/Info.Blockchain.API/Models/WalletAddress.cs:65-69 | the "consolidated" list read element by element as strings, or an empty list when it is absent |
| WalletAddresses.ConsolidatedStrings | src/Info.Blockchain.API/Models/WalletAddress.cs:65-69 | a "consolidated" array of strings reads as exactly those strings, in order |
| WalletAddresses.DeserializeMultiple | src/Info.Blockchain.API/Models/WalletAddress.cs:76-80 | the "addresses" list decoded in order, or an empty list when it is absent |
| Xpubs.Bind | src/Info.Blockchain.API/Models/Xpub.cs:18-36 | AccountIndex, ChangeIndex and GapLimit come from the hoisted object's own fields and stay 0 when absent |
| Xpubs.FirstAddress | src/Info.Blockchain.API/Models/Xpub.cs:46 | the first child of "addresses", or a new empty object when "addresses" is absent or empty |
| Xpubs.XpubObject | src/Info.Blockchain.API/Models/Xpub.cs:46-47 | the store into the hoisted token succeeds exactly when it is an object; the result has "txs" set to the top-level "txs" (null when absent) and every other field from addresses[0] |
| Xpubs.Deserialize | src/Info.Blockchain.API/Models/Xpub.cs:43-49 | unparsable text throws; otherwise the hoisted object with the grafted "txs" is decoded |
| Xpubs.NoAddressesOnlyTxs | src/Info.Blockchain.API/Models/Xpub.cs:46-47 | without "addresses" decoding starts from an empty object holding only "txs" |
| Xpubs.FirstAddressWithTxs | src/Info.Blockchain.API/Models/Xpub.cs:46-47 | addresses[0] is decoded with its "txs" replaced by the top-level "txs", overwriting any nested one |
| Xpubs.OnlyFirstAddressAndTxsMatter | src/Info.Blockchain.API/Models/Xpub.cs:45-48 | top-level fields other than addresses[0] and "txs" never reach the result |
| Xpubs.AddressesObjectThrows | src/Info.Blockchain.API/Models/Xpub.cs:46-47 | an "addresses" object (not array) hoists a property, and setting "txs" on it throws InvalidOperationException |
| BlockExplorers.FilterCode | src/Info.Blockchain.API/BlockExplorer/FilterType.cs:11-21 | FilterType as an integer: All = 4, ConfirmedOnly = 5, RemoveUnspendable = 6 |
| BlockExplorers.FilterCodesDistinct | src/Info.Blockchain.API/BlockExplorer/FilterType.cs:11-21 | different filters send different codes |
| BlockExplorers.PagingGuard | src/Info.Blockchain.API/BlockExplorer/BlockExplorer.cs:404-414 | the limit must lie in 1..max, checked before the offset, which must not be negative; each failure is its ArgumentOutOfRangeException |
| BlockExplorers.BlankArgumentAsWritten | src/Info.Blockchain.API/BlockExplorer/BlockExplorer.cs:347-350 | the exception for a blank xpub or address passes the argument's value, not its name, as the parameter name, so a blank argument gives a blank name |
| BlockExplorers.BlankArgumentIntended | src/Info.Blockchain.API/BlockExplorer/BlockExplorer.cs:75-78 | the exception the other blank checks throw, named after the parameter |
| BlockExplorers.NullXpubUnnamed | src/Info.Blockchain.API/BlockExplorer/BlockExplorer.cs:347-350 | a null xpub is reported as "Value cannot be null." without a parameter name |
| BlockExplorers.NullXpubNamedIntended | src/Info.Blockchain.API/BlockExplorer/BlockExplorer.cs:347-350 | named after the parameter, the same check would report "(Parameter 'xpub')" |
| BlockExplorers.ActiveQuery | src/Info.Blockchain.API/BlockExplorer/BlockExplorer.cs:212-219 | the multiaddr query: active, limit, offset, filter (as its integer code), format=json, in that order, with no api_code |
| BlockExplorers.UnspentQuery | src/Info.Blockchain.API/BlockExplorer/BlockExplorer.cs:305-310 | the unspent query: active (addresses joined by "\|"), limit, confirmations, format=json, with no api_code |
| BlockExplorers.AddressQuery | src/Info.Blockchain.API/BlockExplorer/BlockExplorer.cs:416-420 | the address query: limit, offset, filter, format=json, with no api_code |
| BlockExplorers.AddressQueryKeys | src/Info.Blockchain.API/BlockExplorer/BlockExplorer.cs:416-420 | each successive Add of the address query gets a new key, so none throws |
| BlockExplorers.ActiveQueryKeys | src/Info.Blockchain.API/BlockExplorer/BlockExplorer.cs:214-219 | each successive Add of the multiaddr query gets a new key, so none throws |
| BlockExplorers.UnspentQueryKeys | src/Info.Blockchain.API/BlockExplorer/BlockExplorer.cs:305-310 | each successive Add of the unspent query gets a new key, so none throws |
| BlockExplorers.InvalidAddressesHandler | src/Info.Blockchain.API/BlockExplorer/BlockExplorer.cs:225-233 | a message containing "Invalid Bitcoin Address" becomes ArgumentException on addressQuery; any other exception is rethrown unchanged |
| BlockExplorers.ToUniversalMillis | src/Info.Blockchain.API/BlockExplorer/BlockExplorer.cs:133 | DateTime.ToUniversalTime: a UTC value is kept; any other kind is shifted by the local offset, clamped to DateTime's range |
| BlockExplorers.UnspentGuard | src/Info.Blockchain.API/BlockExplorer/BlockExplorer.cs:289-302 | an empty or null list is refused first with ArgumentNullException, then a limit outside 1..250, then negative confirmations |
| BlockExplorers.MultiAddressChecksFirst | src/Info.Blockchain.API/BlockExplorer/BlockExplorer.cs:197-210 | an empty list or a bad limit or offset is refused whatever the transport would answer |
| BlockExplorers.MultiAddressRequest | src/Info.Blockchain.API/BlockExplorer/BlockExplorer.cs:212-223 | the multiaddr request is "multiaddr" + the rendered query + the API code |
| BlockExplorers.NoFreeOutputsIsEmpty | src/Info.Blockchain.API/BlockExplorer/BlockExplorer.cs:315-323 | on the unspent endpoint a failure whose message contains "outputs to spend" gives an empty collection |
| BlockExplorers.NoFreeOutputsResponse | src/Info.Blockchain.API/BlockExplorer/BlockExplorer.cs:317-320 | the server's "No free outputs to spend" failure carries a message that contains "outputs to spend" |
| BlockExplorers.NoFreeOutputsMessage | src/Info.Blockchain.API/BlockExplorer/BlockExplorer.cs:320 | "<reason>: No free outputs to spend" contains "outputs to spend" |
| BlockExplorers.FailedResponseNoOutputs | src/Info.Blockchain.API/BlockExplorer/BlockExplorer.cs:311-323 | when the server answers "No free outputs to spend", GetUnspentOutputsAsync returns an empty collection |
| BlockExplorers.DateTimeIsTimestamp | src/Info.Blockchain.API/BlockExplorer/BlockExplorer.cs:123-162 | a date in the past is the timestamp query for its milliseconds; both refuse an instant before the genesis block |
| BlockExplorers.FutureUtcDateRefused | src/Info.Blockchain.API/BlockExplorer/BlockExplorer.cs:133-136 | a UTC date later than now is refused with "Date must be in the past" |
| BlockExplorers.LocalDateConverted | src/Info.Blockchain.API/BlockExplorer/BlockExplorer.cs:125-138 | a local date is checked against now in universal time but sent with its own clock reading as milliseconds |
| BlockExplorers.BlockByHashChecksOnce | src/Info.Blockchain.API/BlockExplorer/BlockExplorer.cs:75-78 | GetBlockAsync's own blank check is unreachable from GetBlockByHashAsync: a blank hash is refused on "hash" whatever the server answers, and any other hash is exactly the rawblock request decoded by Block.Deserialize |
| BlockExplorers.BlockByIndexChecksOnce | src/Info.Blockchain.API/BlockExplorer/BlockExplorer.cs:88-91 | a non-negative index's text is never blank, so GetBlockByIndexAsync is exactly the rawblock request for that text |
| BlockExplorers.TooShortAddressInvalid | src/Info.Blockchain.API/BlockExplorer/BlockExplorer.cs:426-430 | on the address endpoint a message containing "too short" becomes ArgumentException on address |
| BlockExplorers.BlockExplorer.constructor | src/Info.Blockchain.API/BlockExplorer/BlockExplorer.cs:44 | a new explorer owns a new client without an API code |
| BlockExplorers.BlockExplorer.WithClient | src/Info.Blockchain.API/BlockExplorer/BlockExplorer.cs:50 | the explorer uses the client it is given |
| BlockExplorers.BlockExplorer.GetBase58AddressAsync | src/Info.Blockchain.API/BlockExplorer/BlockExplorer.cs:61-66 | the address query of GetAddressAsync |
| BlockExplorers.BlockExplorer.GetHash160AddressAsync | src/Info.Blockchain.API/BlockExplorer/BlockExplorer.cs:173-174 | the address query of GetAddressAsync |
| BlockExplorers.BlockExplorer.GetBlockByHashAsync | src/Info.Blockchain.API/BlockExplorer/BlockExplorer.cs:75-78 | a blank hash throws ArgumentNullException on hash; otherwise the block request |
| BlockExplorers.BlockExplorer.GetBlockByIndexAsync | src/Info.Blockchain.API/BlockExplorer/BlockExplorer.cs:88-91 | a negative index throws ArgumentOutOfRangeException; otherwise the block request for the index's text |
| BlockExplorers.BlockExplorer.GetBlocksAtHeightAsync | src/Info.Blockchain.API/BlockExplorer/BlockExplorer.cs:101-112 | a negative height is refused; otherwise "block-height/<h>" with format=json, decoded by Block.DeserializeMultiple |
| BlockExplorers.BlockExplorer.GetBlocksByDateTimeAsync | src/Info.Blockchain.API/BlockExplorer/BlockExplorer.cs:123-138 | refuses a date before the genesis block, then one later than now, then asks for blocks at its milliseconds |
| BlockExplorers.BlockExplorer.GetBlocksByPoolNameAsync | src/Info.Blockchain.API/BlockExplorer/BlockExplorer.cs:148 | the blocks request for the pool name |
| BlockExplorers.BlockExplorer.GetBlocksByTimestampAsync | src/Info.Blockchain.API/BlockExplorer/BlockExplorer.cs:159-162 | a timestamp before the genesis block is refused; otherwise the blocks request for it |
| BlockExplorers.BlockExplorer.GetLatestBlockAsync | src/Info.Blockchain.API/BlockExplorer/BlockExplorer.cs:181 | "latestblock" with no query, decoded generically |
| BlockExplorers.BlockExplorer.GetMultiAddressAsync | src/Info.Blockchain.API/BlockExplorer/BlockExplorer.cs:195-234 | the guards in order, the multiaddr query built by successive Adds, and the "Invalid Bitcoin Address" mapping |
| BlockExplorers.BlockExplorer.GetTransactionByHashAsync | src/Info.Blockchain.API/BlockExplorer/BlockExplorer.cs:243-247 | a blank hash throws ArgumentNullException on hash; otherwise the transaction request |
| BlockExplorers.BlockExplorer.GetTransactionByIndexAsync | src/Info.Blockchain.API/BlockExplorer/BlockExplorer.cs:258-261 | a negative index throws ArgumentOutOfRangeException; otherwise the transaction request for the index's text |
| BlockExplorers.BlockExplorer.GetUnconfirmedTransactionsAsync | src/Info.Blockchain.API/BlockExplorer/BlockExplorer.cs:268-274 | "unconfirmed-transactions" with format=json, decoded by Transaction.DeserializeMultiple |
| BlockExplorers.BlockExplorer.GetUnspentOutputsAsync | src/Info.Blockchain.API/BlockExplorer/BlockExplorer.cs:287-332 | the guards in order, the unspent query, "outputs to spend" as an empty result checked before "Invalid Bitcoin Address" |
| BlockExplorers.BlockExplorer.GetXpub | src/Info.Blockchain.API/BlockExplorer/BlockExplorer.cs:345-383 | a blank xpub, then the paging guards; the multiaddr query with active = xpub; Xpub.Deserialize; "Invalid Bitcoin Address" becomes ArgumentException on xpub |
| BlockExplorers.BlockExplorer.GetAddressAsync | src/Info.Blockchain.API/BlockExplorer/BlockExplorer.cs:399-435 | a blank address, then the paging guards with max 50; "address/<a>" with the address query; "does not validate" or "too short" becomes ArgumentException on address |
| BlockExplorers.BlockExplorer.GetBlockAsync | src/Info.Blockchain.API/BlockExplorer/BlockExplorer.cs:443-446 | a blank argument throws; otherwise "rawblock/<x>" decoded by Block.Deserialize |
| BlockExplorers.BlockExplorer.GetBlocksAsync | src/Info.Blockchain.API/BlockExplorer/BlockExplorer.cs:458-464 | "blocks/<x>" with format=json, decoded by SimpleBlock.DeserializeMultiple |
| BlockExplorers.BlockExplorer.GetTransactionAsync | src/Info.Blockchain.API/BlockExplorer/BlockExplorer.cs:472-475 | a blank argument throws; otherwise "rawtx/<x>" decoded generically |
| StatisticsExplorers.PoolsGuard | src/Info.Blockchain.API/Statistics/StatisticsExplorer.cs:106-109 | a timespan outside 1..10 is refused with ArgumentOutOfRangeException on timespan |
| StatisticsExplorers.ChartHandler | src/Info.Blockchain.API/Statistics/StatisticsExplorer.cs:76-94 | "No chart with this name" or "Not Found" becomes the unknown-chart error on chartType, checked before "Could not parse timestring", which becomes the bad-timespan error; anything else is rethrown unchanged |
| StatisticsExplorers.ChartQueryContent | src/Info.Blockchain.API/Statistics/StatisticsExplorer.cs:60-70 | the chart query is format=json, then timespan and rollingAverage each only when non-null, with no api_code |
| StatisticsExplorers.QuestionMarkChartDropsQuery | src/Info.Blockchain.API/Statistics/StatisticsExplorer.cs:74 | a chart type "?" makes the chart request "charts/?&": format, timespan and rolling average are all lost |
| StatisticsExplorers.PoolsQueryContent | src/Info.Blockchain.API/Statistics/StatisticsExplorer.cs:111-113 | the pools query is format then timespan = "<n>days" |
| StatisticsExplorers.PoolsChecksFirst | src/Info.Blockchain.API/Statistics/StatisticsExplorer.cs:106-109 | a timespan outside 1..10 is refused whatever the transport would answer |
| StatisticsExplorers.PoolsQueryRendered | src/Info.Blockchain.API/Statistics/StatisticsExplorer.cs:111-113 | the pools query renders as "?format=json&timespan=<n>days" |
| StatisticsExplorers.PoolsRequest | src/Info.Blockchain.API/Statistics/StatisticsExplorer.cs:111-115 | the pools request is "pools?format=json&timespan=<n>days" plus the API code |
| StatisticsExplorers.ChartQueryDefaults | src/Info.Blockchain.API/Statistics/StatisticsExplorer.cs:60-61 | without timespan and rolling average the chart query is just format=json |
| StatisticsExplorers.NotFoundReasonMessage | src/Info.Blockchain.API/Client/BlockchainHttpClient.cs:223 | a failure with reason "Not Found" carries a message containing "Not Found", whatever its body |
| StatisticsExplorers.NotFoundReasonIsUnknownChart | src/Info.Blockchain.API/Statistics/StatisticsExplorer.cs:74-86 | when the server answers "Not Found", GetChartAsync reports the unknown chart |
| StatisticsExplorers.TimespanFailureResponse | src/Info.Blockchain.API/Client/BlockchainHttpClient.cs:223 | a failed "Could not parse timestring" response becomes ServerApiException "Bad Request: Could not parse timestring" |
| StatisticsExplorers.TimespanMessageText | src/Info.Blockchain.API/Statistics/StatisticsExplorer.cs:78-88 | that message matches only the timespan check |
| StatisticsExplorers.TimespanMessageIsBadTimespan | src/Info.Blockchain.API/Statistics/StatisticsExplorer.cs:88-91 | the handler turns that message into the bad-timespan error |
| StatisticsExplorers.TimespanFailureIsBadTimespan | src/Info.Blockchain.API/Statistics/StatisticsExplorer.cs:72-91 | when the server cannot parse the timespan, GetChartAsync reports the bad timespan |
| StatisticsExplorers.ChartQuerySteps | src/Info.Blockchain.API/Statistics/StatisticsExplorer.cs:60-70 | each conditional Add of the chart query gets a new key, so none throws |
| StatisticsExplorers.StatisticsExplorer.constructor | src/Info.Blockchain.API/Statistics/StatisticsExplorer.cs:29 | a new explorer owns a new client without an API code |
| StatisticsExplorers.StatisticsExplorer.WithClient | src/Info.Blockchain.API/Statistics/StatisticsExplorer.cs:35 | the explorer uses the client it is given |
| StatisticsExplorers.StatisticsExplorer.GetStatsAsync | src/Info.Blockchain.API/Statistics/StatisticsExplorer.cs:42-47 | "stats" with only format=json, decoded generically |
| StatisticsExplorers.StatisticsExplorer.GetChartAsync | src/Info.Blockchain.API/Statistics/StatisticsExplorer.cs:58-95 | "charts/<type>" with the chart query, its failures mapped by the chart handler |
| StatisticsExplorers.StatisticsExplorer.BuildChartQuery | src/Info.Blockchain.API/Statistics/StatisticsExplorer.cs:60-70 | the conditional Adds leave the query equal to the chart query |
| StatisticsExplorers.StatisticsExplorer.GetPoolsAsync | src/Info.Blockchain.API/Statistics/StatisticsExplorer.cs:104-116 | the timespan guard, then "pools" with the pools query |
| ExchangeRateExplorers.FromBtcGuard | src/Info.Blockchain.API/ExchangeRates/ExchangeRateExplorer.cs:69-77 | a null value is refused with ArgumentNullException, then a value of at most zero bitcoin with ArgumentOutOfRangeException; it passes exactly when positive |
| ExchangeRateExplorers.ToBtcGuard | src/Info.Blockchain.API/ExchangeRates/ExchangeRateExplorer.cs:107-115 | a blank currency is refused with ArgumentNullException, then a value at most zero with ArgumentOutOfRangeException; it passes exactly otherwise |
| ExchangeRateExplorers.ConversionQuery | src/Info.Blockchain.API/ExchangeRates/ExchangeRateExplorer.cs:79-81 | currency then value, with no api_code |
| ExchangeRateExplorers.FromBtcChecksFirst | src/Info.Blockchain.API/ExchangeRates/ExchangeRateExplorer.cs:69-77 | a null or non-positive value is refused whatever the transport would answer |
| ExchangeRateExplorers.ToBtcChecksFirst | src/Info.Blockchain.API/ExchangeRates/ExchangeRateExplorer.cs:107-115 | a blank currency or a value at most zero is refused whatever the transport would answer |
| ExchangeRateExplorers.NaNPassesToBtcGuard | src/Info.Blockchain.API/ExchangeRates/ExchangeRateExplorer.cs:112 | NaN is not at most zero, so it passes the value check, while 0 is refused |
| ExchangeRateExplorers.SubSatoshiSentAsZero | src/Info.Blockchain.API/ExchangeRates/ExchangeRateExplorer.cs:74-81 | a positive amount below one satoshi passes the check and is sent as value=0 |
| ExchangeRateExplorers.WholeSatoshisSent | src/Info.Blockchain.API/ExchangeRates/ExchangeRateExplorer.cs:79-83 | FromSatoshis(s) is sent as value=s to "frombtc" |
| ExchangeRateExplorers.ConversionRequest | src/Info.Blockchain.API/ExchangeRates/ExchangeRateExplorer.cs:79-83 | the conversion request is the route + "?currency=<c>&value=<v>" + the API code |
| ExchangeRateExplorers.ExchangeRateExplorer.constructor | src/Info.Blockchain.API/ExchangeRates/ExchangeRateExplorer.cs:31 | a new explorer owns a new client without an API code |
| ExchangeRateExplorers.ExchangeRateExplorer.WithClient | src/Info.Blockchain.API/ExchangeRates/ExchangeRateExplorer.cs:37 | the explorer uses the client it is given |
| ExchangeRateExplorers.ExchangeRateExplorer.FromBtcAsync | src/Info.Blockchain.API/ExchangeRates/ExchangeRateExplorer.cs:67-84 | the guards, currency (default "USD") and the satoshi count added in order, then "frombtc" parsed by the double parser |
| ExchangeRateExplorers.ExchangeRateExplorer.GetTickerAsync | src/Info.Blockchain.API/ExchangeRates/ExchangeRateExplorer.cs:94 | "ticker" with no query, decoded generically |
| ExchangeRateExplorers.ExchangeRateExplorer.ToBtcAsync | src/Info.Blockchain.API/ExchangeRates/ExchangeRateExplorer.cs:105-122 | the guards, currency and the value's text added in order, then "tobtc" parsed by the double parser |
| ReceiveExplorers.CheckGapQuery | src/Info.Blockchain.API/Receive/Receive.cs:36-38 | xpub then key, with a null argument sent as empty text, and no api_code |
| ReceiveExplorers.CallbackLogQuery | src/Info.Blockchain.API/Receive/Receive.cs:111-113 | callback then key, with no api_code |
| ReceiveExplorers.XpubOrKeyHandler | src/Info.Blockchain.API/Receive/Receive.cs:44-57 | "Invalid xpub format" becomes ArgumentException on xpub, checked before "API Key is not valid", which becomes ArgumentException on key; anything else is rethrown unchanged |
| ReceiveExplorers.KeyHandler | src/Info.Blockchain.API/Receive/Receive.cs:119-127 | only "API Key is not valid" is mapped, to ArgumentException on key; anything else is rethrown unchanged |
| ReceiveExplorers.CheckGapQueryRendered | src/Info.Blockchain.API/Receive/Receive.cs:36-38 | the gap query renders as "?xpub=<x>&key=<k>" |
| ReceiveExplorers.CheckGapRequest | src/Info.Blockchain.API/Receive/Receive.cs:36-42 | the gap request is "receive/checkgap?xpub=<x>&key=<k>" plus the API code |
| ReceiveExplorers.FixedEntriesRendered | src/Info.Blockchain.API/Receive/Receive.cs:73-76 | the fixed part of the address query renders as "?xpub=<x>&callback=<c>&key=<k>" |
| ReceiveExplorers.FixedEntriesKeys | src/Info.Blockchain.API/Receive/Receive.cs:73-76 | its keys are xpub, callback, key |
| ReceiveExplorers.GenerateQueryContent | src/Info.Blockchain.API/Receive/Receive.cs:73-80 | xpub, callback and key, then gap_limit only when gapLimit has a value, holding its text; no api_code |
| ReceiveExplorers.GenerateQueryRendered | src/Info.Blockchain.API/Receive/Receive.cs:73-80 | the address query renders with "&gap_limit=<n>" at the end exactly when gapLimit has a value |
| ReceiveExplorers.GenerateRequest | src/Info.Blockchain.API/Receive/Receive.cs:73-84 | the address request is "receive" + the rendered query + the API code |
| ReceiveExplorers.BothComplaintsText | src/Info.Blockchain.API/Receive/Receive.cs:46-51 | a message can name both complaints at once |
| ReceiveExplorers.XpubComplaintFirst | src/Info.Blockchain.API/Receive/Receive.cs:46-53 | for such a message the gap and address calls report the xpub, while the callback-log call reports the key |
| ReceiveExplorers.KeyEnvelopeIsBadKey | src/Info.Blockchain.API/Receive/Receive.cs:115-124 | an error envelope "API Key is not valid" makes GetCallbackLogsAsync report the bad key |
| ReceiveExplorers.Receive.constructor | src/Info.Blockchain.API/Receive/Receive.cs:24 | the client given, or a new one without an API code when none is given |
| ReceiveExplorers.Receive.CheckAddressGapAsync | src/Info.Blockchain.API/Receive/Receive.cs:34-58 | no client-side check; the gap query built by two Adds, then "receive/checkgap" with the xpub-or-key mapping |
| ReceiveExplorers.Receive.GenerateAddressAsync | src/Info.Blockchain.API/Receive/Receive.cs:71-100 | no client-side check; the address query, then "receive" with the xpub-or-key mapping |
| ReceiveExplorers.Receive.BuildGenerateQuery | src/Info.Blockchain.API/Receive/Receive.cs:73-80 | the Adds, the last one conditional, leave the query equal to the address query |
| ReceiveExplorers.Receive.BuildFixedEntries | src/Info.Blockchain.API/Receive/Receive.cs:73-76 | three Adds leave xpub, callback, key in that order |
| ReceiveExplorers.Receive.BuildXpubAndCallback | src/Info.Blockchain.API/Receive/Receive.cs:73-75 | two Adds leave xpub, callback in that order |
| ReceiveExplorers.Receive.GetCallbackLogsAsync | src/Info.Blockchain.API/Receive/Receive.cs:109-128 | no client-side check; callback and key, then "receive/callback_log" with only the key mapping |
| Wallets.WalletRoute | src/Info.Blockchain.API/Wallet/Wallet.cs:58 | every wallet route is "merchant/<identifier>/<action>", and contains no '?' when neither part does |
| Wallets.OptionalEntry | src/Info.Blockchain.API/Wallet/Wallet.cs:154-167 | an optional parameter contributes its key exactly when it has a value |
| Wallets.NonBlank | src/Info.Blockchain.API/Wallet/Wallet.cs:154-159 | a second password or source address is sent exactly when it is not null or white space, and then unchanged |
| Wallets.FeeText | src/Info.Blockchain.API/Wallet/Wallet.cs:164-167 | a fee is sent exactly when it is not null |
| Wallets.OptionalEntryLookup | src/Info.Blockchain.API/Wallet/Wallet.cs:154-167 | an optional entry holds its value under its key and nothing under any other key |
| Wallets.BasicQueryContent | src/Info.Blockchain.API/Wallet/Wallet.cs:235-246 | the basic query is password, then second_password only when it is not null, each holding its value; no api_code, address or label |
| Wallets.PaymentOptionsContent | src/Info.Blockchain.API/Wallet/Wallet.cs:154-167 | payment options are second_password (unless blank), from (unless blank), fee (unless null), in that order, with their values |
| Wallets.SendRequiredEntries | src/Info.Blockchain.API/Wallet/Wallet.cs:150-153 | a payment starts with password, to, amount, the amount holding its text |
| Wallets.SendManyRequiredKeys | src/Info.Blockchain.API/Wallet/Wallet.cs:190-193 | a multi-payment starts with password, recipients |
| Wallets.SendQueryContent | src/Info.Blockchain.API/Wallet/Wallet.cs:150-167 | the payment query is password, to, amount, then the payment options; amount is the whole satoshi count's text; no api_code |
| Wallets.SendManyQueryContent | src/Info.Blockchain.API/Wallet/Wallet.cs:190-207 | the multi-payment query is password, recipients, then the payment options; recipients holds the JSON text; no api_code |
| Wallets.RecipientText | src/Info.Blockchain.API/Wallet/Wallet.cs:192 | a recipient serialises as its quoted address, a colon and its satoshi count, "null" for a null amount; the only failure is OverflowException |
| Wallets.RecipientTexts | src/Info.Blockchain.API/Wallet/Wallet.cs:192 | every recipient serialises, in order, exactly when each one does; otherwise OverflowException |
| Wallets.RecipientsJson | src/Info.Blockchain.API/Wallet/Wallet.cs:192 | the recipients object is "{" + the recipients joined with "," + "}", and fails exactly when a recipient does |
| Wallets.BlankAddressGuard | src/Info.Blockchain.API/Wallet/Wallet.cs:50-74 | archive and address lookup refuse exactly a null or blank address, with ArgumentNullException on address |
| Wallets.NullAddressGuard | src/Info.Blockchain.API/Wallet/Wallet.cs:223-226 | unarchive refuses exactly a null address, with ArgumentNullException on address |
| Wallets.SendGuard | src/Info.Blockchain.API/Wallet/Wallet.cs:140-148 | a payment is refused exactly when toAddress is blank (ArgumentNullException, checked first) or the amount is not positive (ArgumentException on amount) |
| Wallets.RecipientsGuard | src/Info.Blockchain.API/Wallet/Wallet.cs:185-188 | a multi-payment is refused exactly when recipients is null or empty, with ArgumentException on recipients |
| Wallets.BlankAddressOnlyUnarchived | src/Info.Blockchain.API/Wallet/Wallet.cs:223-233 | a blank but non-null address is refused by archive whatever the server would answer, but unarchive sends it |
| Wallets.SendChecksFirst | src/Info.Blockchain.API/Wallet/Wallet.cs:140-148 | a blank recipient or non-positive amount fails whatever the server would answer |
| Wallets.SendManyChecksFirst | src/Info.Blockchain.API/Wallet/Wallet.cs:185-188 | a missing or empty recipient list fails with ArgumentException whatever the server would answer |
| Wallets.BlankSecondPasswordOnlyInBasicQuery | src/Info.Blockchain.API/Wallet/Wallet.cs:154-157 | a blank second password is sent by the basic query but left out of payments |
| Wallets.WholeSatoshisSent | src/Info.Blockchain.API/Wallet/Wallet.cs:138-171 | a payment of a whole, positive satoshi count to a non-blank address is the request "merchant/<id>/payment" with the payment query holding that count |
| Wallets.OneRecipientJson | src/Info.Blockchain.API/Wallet/Wallet.cs:192 | one recipient with n satoshis serialises as {"address":n} |
| Wallets.OverflowingAmountThrows | src/Info.Blockchain.API/Wallet/Wallet.cs:192 | any recipient whose satoshi count overflows a long makes the whole multi-payment throw OverflowException |
| Wallets.WalletRequest | src/Info.Blockchain.API/Wallet/Wallet.cs:55-59 | a wallet request with a non-empty query is "merchant/<id>/<action>?<query>" plus the API code when the identifier has no '?' |
| Wallets.QuestionMarkIdentifierDropsPassword | src/Info.Blockchain.API/Wallet/Wallet.cs:88-92 | an identifier "?" makes the balance request end in "&", dropping the password query (the client's '?' rule) |
| Wallets.AddOptional | src/Info.Blockchain.API/Wallet/Wallet.cs:118-121 | an Add guarded by a null check appends the entry only when the value is present |
| Wallets.Wallet.Init | src/Info.Blockchain.API/Wallet/Wallet.cs:33-39 | the wallet keeps the client, identifier, password and second password it is given |
| Wallets.Wallet.Create | src/Info.Blockchain.API/Wallet/Wallet.cs:33-39 | a null client throws ArgumentNullException on httpClient; otherwise a new wallet with those credentials |
| Wallets.Wallet.BuildBasicQueryString | src/Info.Blockchain.API/Wallet/Wallet.cs:235-246 | a new query holding exactly the basic query |
| Wallets.Wallet.ArchiveAddressAsync | src/Info.Blockchain.API/Wallet/Wallet.cs:48-60 | the blank-address check, then "merchant/<id>/archive_address" with the basic query and the address, read by the archived decoder |
| Wallets.Wallet.GetAddressAsync | src/Info.Blockchain.API/Wallet/Wallet.cs:69-81 | the blank-address check, then "merchant/<id>/address_balance" with the basic query and the address |
| Wallets.Wallet.GetBalanceAsync | src/Info.Blockchain.API/Wallet/Wallet.cs:88-93 | "merchant/<id>/balance" with the basic query |
| Wallets.Wallet.ListAddressesAsync | src/Info.Blockchain.API/Wallet/Wallet.cs:100-107 | "merchant/<id>/list" with the basic query, read as a list of addresses |
| Wallets.Wallet.NewAddressAsync | src/Info.Blockchain.API/Wallet/Wallet.cs:115-125 | "merchant/<id>/new_address" with the basic query and label only when it is not null |
| Wallets.Wallet.AddPaymentOptions | src/Info.Blockchain.API/Wallet/Wallet.cs:154-167 | the three guarded Adds append exactly the payment options |
| Wallets.Wallet.AddSourceAndFee | src/Info.Blockchain.API/Wallet/Wallet.cs:159-167 | the two guarded Adds append exactly from and fee |
| Wallets.Wallet.Pay | src/Info.Blockchain.API/Wallet/Wallet.cs:154-171 | the payment options appended to the query, then the request on the action's route |
| Wallets.Wallet.SendAsync | src/Info.Blockchain.API/Wallet/Wallet.cs:138-172 | the payment checks, then "merchant/<id>/payment" with the payment query, failing with OverflowException if the amount overflows |
| Wallets.Wallet.NewPaymentQuery | src/Info.Blockchain.API/Wallet/Wallet.cs:150-152 | a new query holding password, to in that order |
| Wallets.Wallet.SendManyAsync | src/Info.Blockchain.API/Wallet/Wallet.cs:183-212 | the recipient check, then the recipients JSON, then "merchant/<id>/sendmany" with the multi-payment query |
| Wallets.Wallet.UnarchiveAddressAsync | src/Info.Blockchain.API/Wallet/Wallet.cs:221-233 | the null-address check, then "merchant/<id>/unarchive_address" with the basic query and the address |
| Text.IndexOf | src/Info.Blockchain.API/Client/BlockchainHttpClient.cs:105 | the position of the first occurrence of the character, -1 exactly when it does not occur |
| Text.NullText | src/Info.Blockchain.API/Client/QueryString.cs:54 | a null string is rendered as empty text, any other as itself |
| Text.TryParseLongOfIntToString | src/Info.Blockchain.API/Json/UnixEpochDateTimeOffsetConverter.cs:31 | the invariant decimal text of any long parses back to that long |
| Text.IntToStringInjective | src/Info.Blockchain.API/Json/UnixEpochDateTimeConverter.cs:46 | two integers with the same decimal text are equal |
| Text.TwoDigits | src/Info.Blockchain.API/Json/UnixEpochDateTimeOffsetConverter.cs:50 | an hour or minute field is two digits that read back as its value |
| JsonTree.Get | src/Info.Blockchain.API/Client/BlockchainHttpClient.cs:209 | an indexer lookup finds a member exactly when the key is present, and returns that member's value |
| JsonTree.Set | src/Info.Blockchain.API/Models/Block.cs:141-142 | after an indexer store the key holds the new value and every other key is unchanged |
| JsonTree.SetKeys | src/Info.Blockchain.API/Models/Block.cs:141-142 | an indexer store keeps the key order and appends a new key at the end |
| JsonTree.SetChild | src/Info.Blockchain.API/Models/Xpub.cs:47 | an indexer store succeeds exactly on an object, and then updates that key; on an array it throws ArgumentException |
| JsonTree.TokenToString | src/Info.Blockchain.API/Client/BlockchainHttpClient.cs:209 | ToObject<string> returns a string token's text, null exactly for a null token, and throws exactly for an array or object |
| JsonTree.ParseObject | src/Info.Blockchain.API/Client/BlockchainHttpClient.cs:208 | JObject.Parse succeeds exactly when the text parses to an object, and returns its members |
| JsonTree.DecodeList | src/Info.Blockchain.API/Models/SimpleBlock.cs:75 | a null token reads as null; an array reads as its items decoded one by one in order |
| JsonTree.ListOrEmpty | src/Info.Blockchain.API/Models/Transaction.cs:107 | a missing or null member reads as the empty list, an array as its items decoded in order (or the first item error), anything else fails as not a collection |
| JsonTree.BindField | src/Info.Blockchain.API/Models/WalletAddress.cs:19-20 | an absent property keeps its initial value unless Newtonsoft enforces Required.Always, which also refuses null; a present value is converted |
| JsonTree.CheckRequired | src/Info.Blockchain.API/Models/Block.cs:38 | Required.Always on properties whose values are not carried: under Newtonsoft the check passes exactly when every one is present and not null, and otherwise fails with the missing or null error of one of them; System.Text.Json always passes |

## Left out

- HTTP transport, async/await, the 100-second timeout and multipart content (BlockchainHttpClient.cs:48-52, :121, :159-162): I/O. A request is a route string handed to the `send` parameter, which returns the status, reason and body.
- The base URIs of the clients, including Receive's ".../v2" endpoint and the statistics host. They only configure the transport, and routes are modelled relative to them.
- Generic typed decoding (`JsonSerializer.Deserialize<T>`, `ToObject<T>` of a model type) and JSON text parsing: foreign library code. Both are function parameters (`decode`, `element`, `parse`). The hand-written deserialisers and converters around them are modelled.
- JSON numbers with a fraction or exponent, and the `double` fields of statistics, charts and currencies. The JSON tree holds integers only, and those records are decoded by parameters.
- ExchangeRateExplorers.ToBtcOutcome: the double's text and the `double.Parse` of both conversions' results are parameters (`format`, `parseDouble`), so culture and rounding of doubles are not modelled.
- UnixDateTimeConverter.ReadJson: a timestamp is a whole number or "not a number". A string with a fraction, such as "1.5", is not modelled, and neither is the double arithmetic of the conversion (UnixDateTimeJsonConverter.cs:74-77, :107).
- UnixDateTimeConverter.TimestampOf: a string is a number only in canonical integer form. Other text that `double.TryParse` accepts (" 12", "+12", "012", "1e3") reads as null in the model, and so does a double reader value, which the integer JSON tree never yields.
- UnixDateTimeConverter.WriteJson, UnixDateTimeConverter.WriteThenRead: in millisecond mode the source writes the double `TotalSeconds * 1000d` (UnixDateTimeJsonConverter.cs:92-98, :107). That double can differ from the whole millisecond count: 1001 ms would print as "1000.9999999999999", not "1001". The model writes the exact count, so its round trip holds only in the model.
- UnspentOutputs.Bind, Transactions.Bind, Blocks.BindDefaults: the required properties whose values the model does not carry (confirmations, tx_output_n and tx_index; hash, tx_index, relayed_by, size, time and ver; bits, block_index, mrkl_root, nonce, prev_block, size, tx and ver) are checked only for presence and null. Their values are not converted, so a value of the wrong type there is accepted by the model. When several properties fail, the model reports the first of the uncarried ones, then the carried ones in declaration order. The order in which Newtonsoft meets them in the text is not modelled.
- Blocks.DeserializeItem: an object element is patched and decoded directly. This relies on `JToken.ToString()` printing text that parses back to the same object, which the model does not prove (`Blocks.ObjectItemAsText` states the equivalence for any such text).
- BitcoinValues.Plus, BitcoinValues.Minus, BitcoinValues.Bits, BitcoinValues.MilliBits, BitcoinValues.FromBits, BitcoinValues.FromMilliBits, BitcoinValues.DivideRounded: C# decimal keeps at most 28-29 significant digits, so a result with more (10^20 BTC + 10^-28 BTC, say) is rounded in the source. The model is exact to 28 decimal places at every magnitude and reports overflow only beyond decimal's range.
- BitcoinValues.ToString: prints the canonical text of the amount. The scale that C# decimal keeps (so that 1.50 prints as "1.50") is not modelled, and neither is its 96-bit significand. Amounts are exact integers of 10^-28 bitcoin.
- Wallets.RecipientText: the JSON string literal of a recipient address, escaping included, is the parameter `quote`.
- Wallets.Wallet.SendAsync: a null `amount` (a NullReferenceException in the source) is not modelled; the amount is always a value.
- Culture: numbers that the source formats with `CultureInfo.CurrentCulture` are modelled with invariant digits, whatever the current culture.
- The wall clock and the local time zone in `GetBlocksByDateTimeAsync` (BlockExplorer.cs:125-136): "now" and the local UTC offset are parameters.
- Disposal, finalizers and `disposedValue` in the clients and explorers: resource lifetime only.
- BlockchainApiHelper, TransactionPusher, BalanceUpdate and WalletCreator: a facade that wires clients together, and wrappers around a single POST. `PostAsync` itself is modelled.
- NativeTrueTrumpsAllJsonConverter: a pass-through of the boolean token, with nothing to state beyond the token itself.
- The exception classes (ApiExceptionBase, ClientApiException, ServerApiException): reduced to the `Error` datatype, which keeps the class, parameter name, message and status.
- The pure data records (Address, Output, Input, LatestBlock, MultiAddress, StatisticsResponse, ChartResponse, CallbackLog, PaymentResponse and the like) have no logic beyond their JSON attributes. They are left to the decoding parameters. Only the fields the hand-written deserialisers touch are modelled.
- The test projects under src/Tests.

## Findings

| source | as written | input that shows it | evidently intended | confidence | as-written member | corrected member |
|---|---|---|---|---|---|---|
| src/Info.Blockchain.API/Json/UnixDateTimeJsonConverter.cs:37-43 | `GenesisBlockDate` is initialised before `Epoch`. It is computed while `Epoch` still holds `DateTime.MinValue`, so the floor is 1231006505 s after 0001-01-01, in the year 40. | `ReadJson` in millisecond mode with the number 0 (1970-01-01) is accepted, although that date is before the genesis block. | The floor is 2009-01-03T18:15:05Z (1231006505000 ms after 1970), and every earlier instant is rejected. | not executed | UnixDateTimeConverter.EpochAcceptedBelowGenesis | UnixDateTimeConverter.IntendedFloorIsGenesis |
| src/Info.Blockchain.API/Client/BlockchainHttpClient.cs:105-113 | A route that already holds '?' is extended with "&" followed by the text of the '?' position without its first digit, instead of the query. | `GetAsync` with route "x?a=1" and the query format=json requests "x?a=1&". | The query entries are appended after "&": "x?a=1&format=json". | not executed | HttpClient.QuestionMarkRouteExample | HttpClient.QuestionMarkRouteIntended |
| src/Info.Blockchain.API/BlockExplorer/BlockExplorer.cs:347-350 | The `ArgumentNullException` for a blank xpub is given the argument's value as its parameter name. | `GetXpub(null)` throws "Value cannot be null." with no parameter name. | The exception names the parameter: "Value cannot be null. (Parameter 'xpub')". | not executed | BlockExplorers.NullXpubUnnamed | BlockExplorers.NullXpubNamedIntended |
