/**
 * The exceptions the client throws or lets through, reduced to one datatype.
 * `ServerApi` is ServerApiException (message plus HTTP status), `ClientApi` is
 * ClientApiException; the others are the .NET and JSON-library exceptions the
 * modelled code raises or catches.
 */
module Errors {
  /**
   * An exception message.  The fixed texts the modelled code raises are
   * named, and `Text` spells each of them out; `Literal` is a message that is
   * composed at run time or received from the server.
   */
  datatype Message =
    | Literal(s: string)
    | ValueCannotBeNull
    | DuplicateQueryKey(key: string)
    | ReadingJObject
    | CannotConvertToString(kind: string)
    | NotACollection
    | RequiredPropertyMissing(name: string)
    | RequiredPropertyNull(name: string)
    | CannotGetValue(tokenType: string, wanted: string)
    | AddValueOutOfRange
    | UnrepresentableDateTime
    | OffsetOutOfRange
    | DefaultJsonException
    | DecimalOutOfBounds
    | BeforeGenesisBlock
    | CannotSetChildValue(typeName: string)
    | InvalidJArrayKey(key: string)
    | SettingValue(property: string, typeName: string)
    | IndexGreaterThanZero
    | BlockHeightNonNegative
    | DateBeforeGenesis
    | DateInPast
    | NoAddressesProvided
    | TransactionLimit(max: string)
    | OffsetNonNegative
    | InvalidAddresses
    | IndexPositive
    | ConfirmationsNonNegative
    | InvalidXpub
    | InvalidAddress
    | ChartDoesNotExist
    | IncorrectTimespan
    | TimespanRange
    | BtcValueNotPositive
    | ValueNotPositive
    | InvalidApiKey
    | AmountNotPositive
    | NoRecipients

  /** The characters of a message. */
  function Text(m: Message): string
  {
    match m
    case Literal(s) => s
    case ValueCannotBeNull => "Value cannot be null."
    case DuplicateQueryKey(key) => "Query string already has a value for " + key
    case ReadingJObject => "Error reading JObject from JsonReader."
    case CannotConvertToString(kind) => "Can not convert " + kind + " to String."
    case NotACollection => "Cannot deserialize the current JSON value into a collection type."
    case RequiredPropertyMissing(name) => "Required property '" + name + "' not found in JSON."
    case RequiredPropertyNull(name) => "Required property '" + name + "' expects a non-null value."
    case CannotGetValue(tokenType, wanted) => "Cannot get the value of a token type '" + tokenType + "' as a " + wanted + "."
    case AddValueOutOfRange => "Value to add was out of range."
    case UnrepresentableDateTime => "The added or subtracted value results in an un-representable DateTime."
    case OffsetOutOfRange => "Offset must be within plus or minus 14 hours."
    case DefaultJsonException => "Exception of type 'System.Text.Json.JsonException' was thrown."
    case DecimalOutOfBounds => "Either the JSON value is not in a supported format, or is out of bounds for a Decimal."
    case BeforeGenesisBlock => "No date can be before the genesis block (2009-01-03T18:15:05+00:00)"
    case CannotSetChildValue(typeName) => "Cannot set child value on " + typeName + "."
    case SettingValue(property, typeName) => "Error setting value to '" + property + "' on '" + typeName + "'."
    case InvalidJArrayKey(key) => "Set JArray values with invalid key value: \"" + key + "\". Int array index expected."
    case IndexGreaterThanZero => "Index must be greater than zero"
    case BlockHeightNonNegative => "Block height must be greater than or equal to zero"
    case DateBeforeGenesis => "Date must be greater than or equal to the genesis block creation date (2009-01-03T18:15:05+00:00)"
    case DateInPast => "Date must be in the past"
    case NoAddressesProvided => "No addresses provided"
    case TransactionLimit(max) => "transaction limit must be greater than 0 and smaller than " + max
    case OffsetNonNegative => "offset must be equal to or greater than 0"
    case InvalidAddresses => "one or more addresses provided are invalid"
    case IndexPositive => "Index must be a positive integer"
    case ConfirmationsNonNegative => "confirmations must be equal to or greater than 0"
    case InvalidXpub => "the xpub provided is invalid"
    case InvalidAddress => "address provided is invalid"
    case ChartDoesNotExist => "This chart name does not exist"
    case IncorrectTimespan => "Incorrect timespan format"
    case TimespanRange => "Timespan must be between 1 to 10"
    case BtcValueNotPositive => "BitcoinValue must represent a value higher than 0"
    case ValueNotPositive => "Value must be greater than 0"
    case InvalidApiKey => "the api key provided is invalid"
    case AmountNotPositive => "Amount sent must be greater than 0"
    case NoRecipients => "Sending bitcoin from your wallet requires at least one receipient."
  }

  datatype Error =
    | ArgumentNull(paramName: string, reason: Message)
    | ArgumentOutOfRange(paramName: string, reason: Message)
    | Argument(paramName: string, reason: Message)
    | ClientApi(message: Message)
    | ServerApi(message: Message, status: int)
    | JsonFailure(message: Message)
    | InvalidOperation(message: Message)
    | Format(message: Message)
    | Overflow
    | Transport(message: Message)

  /** HTTP status codes the client raises itself. */
  const BadRequest := 400
  const NotFound := 404

  /** .NET appends the parameter name to the message of every argument exception. */
  function ParamSuffix(paramName: string): string
  {
    if paramName == "" then "" else " (Parameter '" + paramName + "')"
  }

  /** `ex.Message`, which the explorers' catch blocks search. */
  function MessageOf(e: Error): string
  {
    match e
    case ArgumentNull(p, reason) => Text(reason) + ParamSuffix(p)
    case ArgumentOutOfRange(p, reason) => Text(reason) + ParamSuffix(p)
    case Argument(p, reason) => Text(reason) + ParamSuffix(p)
    case ClientApi(m) => Text(m)
    case ServerApi(m, _) => Text(m)
    case JsonFailure(m) => Text(m)
    case InvalidOperation(m) => Text(m)
    case Format(m) => Text(m)
    case Overflow => "Arithmetic operation resulted in an overflow."
    case Transport(m) => Text(m)
  }
}
