/**
 * Wallet: the merchant endpoints of one wallet.  Every request goes to
 * "merchant/<identifier>/<action>" and carries the wallet password; the
 * address endpoints and the two payment endpoints check their arguments
 * before the request.
 */
module Wallets {
  import opened Wrappers
  import opened Text
  import opened Errors
  import opened JsonTree
  import opened QueryStrings
  import opened HttpClient
  import opened BitcoinValues
  import opened WalletAddresses

  /** The three values a wallet is created with; null is `None`. */
  datatype Credentials = Credentials(identifier: Option<string>, password: Option<string>, secondPassword: Option<string>)

  /** The recipients of SendManyAsync in the dictionary's enumeration order; a null amount is `None`. */
  type Recipients = seq<(string, Option<BitcoinValue>)>

  /** `$"merchant/{identifier}/{action}"`: a null identifier prints nothing. */
  function WalletRoute(identifier: Option<string>, action: string): (r: string)
    ensures '?' !in NullText(identifier) && '?' !in action ==> '?' !in r
  {
    var r := "merchant/" + NullText(identifier) + "/" + action;
    assert forall i | 0 <= i < |r| :: r[i] == '?' ==> i < 9 || '?' in NullText(identifier) || '?' in action by {
      forall i | 0 <= i < |r| && r[i] == '?'
        ensures i < 9 || '?' in NullText(identifier) || '?' in action
      {
        var id := NullText(identifier);
        if 9 <= i < 9 + |id| {
          assert r[i] == id[i - 9];
        } else if i > 9 + |id| {
          assert r[i] == action[i - 10 - |id|];
        }
      }
    }
    r
  }

  /** An entry that is added only when there is a value for it. */
  function OptionalEntry(key: string, value: Option<string>): (q: Entries)
    ensures Keys(q) == if value.Some? then [key] else []
  {
    if value.Some? then [(key, value.value)] else []
  }

  /** A nullable string as the payment methods send it: only when it is not blank. */
  function NonBlank(s: Option<string>): (r: Option<string>)
    ensures r.Some? <==> !IsNullOrWhiteSpace(s)
    ensures r.Some? ==> r == s
  {
    if IsNullOrWhiteSpace(s) then None else s
  }

  /** `fee.ToString()` for a fee that is not null. */
  function FeeText(fee: Option<BitcoinValue>): (t: Option<string>)
    ensures t.Some? <==> fee.Some?
  {
    if fee.None? then None else Some(BitcoinValues.ToString(fee.value))
  }

  /** `BuildBasicQueryString()`: the password, then the second password whenever it is not null. */
  function BasicQuery(c: Credentials): Entries
  {
    [("password", NullText(c.password))] + OptionalEntry("second_password", c.secondPassword)
  }

  /** The query of the address endpoints: the basic query, then the address. */
  function AddressQuery(c: Credentials, address: string): Entries
  {
    BasicQuery(c) + [("address", address)]
  }

  /** NewAddressAsync's query: the basic query, then the label whenever it is not null. */
  function NewAddressQuery(c: Credentials, name: Option<string>): Entries
  {
    BasicQuery(c) + OptionalEntry("label", name)
  }

  /**
   * The optional part of both payment queries, in order: the second
   * password and the sending address when they are not blank, then the fee
   * in bitcoin when it is not null.
   */
  function PaymentOptions(secondPassword: Option<string>, fromAddress: Option<string>, fee: Option<BitcoinValue>): Entries
  {
    OptionalEntry("second_password", NonBlank(secondPassword)) + SourceAndFee(NonBlank(fromAddress), FeeText(fee))
  }

  /** The last two payment options: the sending address, then the fee's text. */
  function SourceAndFee(from: Option<string>, feeText: Option<string>): Entries
  {
    OptionalEntry("from", from) + OptionalEntry("fee", feeText)
  }

  /** The entries SendAsync always sends: password, recipient and amount in satoshis. */
  function SendRequired(c: Credentials, toAddress: string, satoshis: int): Entries
  {
    [("password", NullText(c.password)), ("to", toAddress), ("amount", IntToString(satoshis))]
  }

  /** SendAsync's query: the required entries, then the payment options. */
  function SendQuery(c: Credentials, toAddress: string, satoshis: int,
                     fromAddress: Option<string>, fee: Option<BitcoinValue>): Entries
  {
    SendRequired(c, toAddress, satoshis) + PaymentOptions(c.secondPassword, fromAddress, fee)
  }

  /** The entries SendManyAsync always sends: password and the recipients' JSON. */
  function SendManyRequired(c: Credentials, recipientsJson: string): Entries
  {
    [("password", NullText(c.password)), ("recipients", recipientsJson)]
  }

  /** SendManyAsync's query: the required entries, then the payment options. */
  function SendManyQuery(c: Credentials, recipientsJson: string,
                         fromAddress: Option<string>, fee: Option<BitcoinValue>): Entries
  {
    SendManyRequired(c, recipientsJson) + PaymentOptions(c.secondPassword, fromAddress, fee)
  }

  /** An optional entry holds its value under its key, and nothing under any other key. */
  lemma OptionalEntryLookup(key: string, value: Option<string>, other: string)
    ensures Lookup(OptionalEntry(key, value), key) == value
    ensures other != key ==> Lookup(OptionalEntry(key, value), other).None?
  {
  }

  /**
   * The basic query sends the password (empty for a null one) and the
   * second password exactly when it is not null, blank or not; it has room
   * for the address, the label and the API code.
   */
  lemma BasicQueryContent(c: Credentials)
    ensures Keys(BasicQuery(c)) == ["password"] + (if c.secondPassword.Some? then ["second_password"] else [])
    ensures Lookup(BasicQuery(c), "password") == Some(NullText(c.password))
    ensures Lookup(BasicQuery(c), "second_password") == c.secondPassword
    ensures ApiCodeKey !in Keys(BasicQuery(c)) && "address" !in Keys(BasicQuery(c)) && "label" !in Keys(BasicQuery(c))
  {
    var head := [("password", NullText(c.password))];
    var second := OptionalEntry("second_password", c.secondPassword);
    KeysConcat(head, second);
    LookupConcat(head, second, "second_password");
    OptionalEntryLookup("second_password", c.secondPassword, "second_password");
  }

  /**
   * The payment options: the second password and the sending address only
   * when they are not blank, the fee only when it is given, and never the
   * API code.
   */
  lemma PaymentOptionsContent(secondPassword: Option<string>, fromAddress: Option<string>, fee: Option<BitcoinValue>)
    ensures Keys(PaymentOptions(secondPassword, fromAddress, fee))
         == (if IsNullOrWhiteSpace(secondPassword) then [] else ["second_password"])
            + (if IsNullOrWhiteSpace(fromAddress) then [] else ["from"])
            + (if fee.None? then [] else ["fee"])
    ensures Lookup(PaymentOptions(secondPassword, fromAddress, fee), "second_password") == NonBlank(secondPassword)
    ensures Lookup(PaymentOptions(secondPassword, fromAddress, fee), "fee") == FeeText(fee)
    ensures ApiCodeKey !in Keys(PaymentOptions(secondPassword, fromAddress, fee))
  {
    var a := OptionalEntry("second_password", NonBlank(secondPassword));
    var b := OptionalEntry("from", NonBlank(fromAddress));
    var f := OptionalEntry("fee", FeeText(fee));
    assert PaymentOptions(secondPassword, fromAddress, fee) == a + b + f;
    KeysConcat(a, b);
    KeysConcat(a + b, f);
    LookupConcat(a + b, f, "second_password");
    LookupConcat(a, b, "second_password");
    LookupConcat(a + b, f, "fee");
    OptionalEntryLookup("second_password", NonBlank(secondPassword), "second_password");
    OptionalEntryLookup("fee", FeeText(fee), "fee");
  }

  /** The required entries of SendAsync's query. */
  lemma SendRequiredEntries(password: string, toAddress: string, amountText: string)
    ensures var required := [("password", password), ("to", toAddress), ("amount", amountText)];
            Keys(required) == ["password", "to", "amount"] && Lookup(required, "amount") == Some(amountText)
  {
    var required := [("password", password), ("to", toAddress), ("amount", amountText)];
    var last := [("amount", amountText)];
    assert required[1..][1..] == last;
    assert Lookup(required, "amount") == Lookup(required[1..], "amount") == Lookup(last, "amount");
  }

  /** The keys of the entries SendManyAsync always sends. */
  lemma SendManyRequiredKeys(c: Credentials, recipientsJson: string)
    ensures Keys(SendManyRequired(c, recipientsJson)) == ["password", "recipients"]
  {
    KeysAppend([("password", NullText(c.password))], ("recipients", recipientsJson));
    assert [("password", NullText(c.password))] + [("recipients", recipientsJson)] == SendManyRequired(c, recipientsJson);
  }

  /** SendAsync's query: password, recipient and amount first, the amount as its satoshi count, and no API code. */
  lemma SendQueryContent(c: Credentials, toAddress: string, satoshis: int,
                         fromAddress: Option<string>, fee: Option<BitcoinValue>)
    ensures Keys(SendQuery(c, toAddress, satoshis, fromAddress, fee))
         == ["password", "to", "amount"] + Keys(PaymentOptions(c.secondPassword, fromAddress, fee))
    ensures Lookup(SendQuery(c, toAddress, satoshis, fromAddress, fee), "amount") == Some(IntToString(satoshis))
    ensures ApiCodeKey !in Keys(SendQuery(c, toAddress, satoshis, fromAddress, fee))
  {
    var required := [("password", NullText(c.password)), ("to", toAddress), ("amount", IntToString(satoshis))];
    var options := PaymentOptions(c.secondPassword, fromAddress, fee);
    SendRequiredEntries(NullText(c.password), toAddress, IntToString(satoshis));
    KeysConcat(required, options);
    LookupConcat(required, options, "amount");
    PaymentOptionsContent(c.secondPassword, fromAddress, fee);
  }

  /** SendManyAsync's query: password and recipients first, the recipients as their JSON, and no API code. */
  lemma SendManyQueryContent(c: Credentials, recipientsJson: string, fromAddress: Option<string>, fee: Option<BitcoinValue>)
    ensures Keys(SendManyQuery(c, recipientsJson, fromAddress, fee))
         == ["password", "recipients"] + Keys(PaymentOptions(c.secondPassword, fromAddress, fee))
    ensures Lookup(SendManyQuery(c, recipientsJson, fromAddress, fee), "recipients") == Some(recipientsJson)
    ensures ApiCodeKey !in Keys(SendManyQuery(c, recipientsJson, fromAddress, fee))
  {
    var required := SendManyRequired(c, recipientsJson);
    var options := PaymentOptions(c.secondPassword, fromAddress, fee);
    SendManyRequiredKeys(c, recipientsJson);
    assert Lookup(required, "recipients") == Some(recipientsJson) by {
      assert required[1..] == [("recipients", recipientsJson)];
    }
    KeysConcat(required, options);
    LookupConcat(required, options, "recipients");
    PaymentOptionsContent(c.secondPassword, fromAddress, fee);
  }

  /**
   * One recipient as the converter serializes it: the quoted address, a
   * colon, then the whole satoshi count (which can throw OverflowException)
   * or "null" for a null amount.  `quote` is the JSON string literal of the
   * address, escaping included.
   */
  function RecipientText(address: string, amount: Option<BitcoinValue>, quote: string -> string): (r: Result<string, Error>)
    ensures amount.None? ==> r == Ok(quote(address) + ":null")
    ensures r.Err? ==> r.error == Overflow
  {
    match amount
    case None => Ok(quote(address) + ":null")
    case Some(v) =>
      match Satoshis(v)
      case Err(e) => Err(e)
      case Ok(n) => Ok(quote(address) + ":" + IntToString(n))
  }

  /** Every recipient serialized in order; the first amount that overflows throws. */
  function RecipientTexts(recipients: Recipients, quote: string -> string): (r: Result<seq<string>, Error>)
    ensures r.Ok? <==> forall i :: 0 <= i < |recipients| ==> RecipientText(recipients[i].0, recipients[i].1, quote).Ok?
    ensures r.Ok? ==> |r.value| == |recipients|
    ensures r.Ok? ==> forall i :: 0 <= i < |recipients| ==>
              r.value[i] == RecipientText(recipients[i].0, recipients[i].1, quote).value
    ensures r.Err? ==> r.error == Overflow
  {
    if |recipients| == 0 then Ok([])
    else
      match RecipientText(recipients[0].0, recipients[0].1, quote)
      case Err(e) => Err(e)
      case Ok(t) =>
        match RecipientTexts(recipients[1..], quote)
        case Err(e) =>
          assert exists i :: 1 <= i < |recipients| && RecipientText(recipients[i].0, recipients[i].1, quote).Err? by {
            var j :| 0 <= j < |recipients[1..]| && RecipientText(recipients[1..][j].0, recipients[1..][j].1, quote).Err?;
            assert recipients[1..][j] == recipients[j + 1];
          }
          Err(e)
        case Ok(ts) =>
          assert forall i :: 1 <= i < |recipients| ==> recipients[i] == recipients[1..][i - 1];
          Ok([t] + ts)
  }

  /** `JsonConvert.SerializeObject(recipients, Formatting.None, converter)`: a JSON object without spaces. */
  function RecipientsJson(recipients: Recipients, quote: string -> string): (r: Result<string, Error>)
    ensures r.Ok? <==> RecipientTexts(recipients, quote).Ok?
    ensures r.Ok? ==> r.value == "{" + Join(",", RecipientTexts(recipients, quote).value) + "}"
  {
    match RecipientTexts(recipients, quote)
    case Err(e) => Err(e)
    case Ok(texts) => Ok("{" + Join(",", texts) + "}")
  }

  /** The check of ArchiveAddressAsync and GetAddressAsync: the address must not be blank. */
  function BlankAddressGuard(address: Option<string>): (r: Option<Error>)
    ensures r.None? <==> !IsNullOrWhiteSpace(address)
    ensures r.Some? ==> r.value == ArgumentNull("address", ValueCannotBeNull)
  {
    if IsNullOrWhiteSpace(address) then Some(ArgumentNull("address", ValueCannotBeNull)) else None
  }

  /** UnarchiveAddressAsync's check: only a null address is refused. */
  function NullAddressGuard(address: Option<string>): (r: Option<Error>)
    ensures r.None? <==> address.Some?
    ensures r.Some? ==> r.value == ArgumentNull("address", ValueCannotBeNull)
  {
    if address.None? then Some(ArgumentNull("address", ValueCannotBeNull)) else None
  }

  /**
   * SendAsync's checks, in order: the recipient address must not be blank,
   * then the amount must be more than zero bitcoin.
   */
  function SendGuard(toAddress: Option<string>, amount: BitcoinValue): (r: Option<Error>)
    ensures r.None? <==> !IsNullOrWhiteSpace(toAddress) && GetBtc(amount) > 0
    ensures IsNullOrWhiteSpace(toAddress) ==> r == Some(ArgumentNull("toAddress", ValueCannotBeNull))
    ensures !IsNullOrWhiteSpace(toAddress) && GetBtc(amount) <= 0 ==> r == Some(Argument("amount", AmountNotPositive))
  {
    if IsNullOrWhiteSpace(toAddress) then Some(ArgumentNull("toAddress", ValueCannotBeNull))
    else if GetBtc(amount) <= 0 then Some(Argument("amount", AmountNotPositive))
    else None
  }

  /** SendManyAsync's check: the dictionary must be neither null nor empty. */
  function RecipientsGuard(recipients: Option<Recipients>): (r: Option<Error>)
    ensures r.None? <==> recipients.Some? && |recipients.value| > 0
    ensures r.Some? ==> r.value == Argument("recipients", NoRecipients)
  {
    if recipients.None? || |recipients.value| == 0 then Some(Argument("recipients", NoRecipients)) else None
  }

  /** The decoder ArchiveAddressAsync hands to GetAsync. */
  function ArchivedDecoder(parse: string -> Option<Json>): string -> Result<Option<string>, Error>
  {
    json => DeserializeArchived(json, parse)
  }

  /** The decoder UnarchiveAddressAsync hands to GetAsync. */
  function UnarchivedDecoder(parse: string -> Option<Json>): string -> Result<Option<string>, Error>
  {
    json => DeserializeUnArchived(json, parse)
  }

  /** The decoder ListAddressesAsync hands to GetAsync. */
  function ListDecoder<T>(parse: string -> Option<Json>, element: Json -> Result<T, Error>): string -> Result<seq<T>, Error>
  {
    json => DeserializeMultiple(json, parse, element)
  }

  /** `ArchiveAddressAsync(address)`: route "merchant/<id>/archive_address". */
  function ArchiveOutcome(apiCode: Option<string>, c: Credentials, address: Option<string>,
                          send: string -> Response, parse: string -> Option<Json>): Result<Option<string>, Error>
  {
    match BlankAddressGuard(address)
    case Some(e) => Err(e)
    case None =>
      GetOutcome(apiCode, Some(WalletRoute(c.identifier, "archive_address")), Some(AddressQuery(c, address.value)),
                 Some(ArchivedDecoder(parse)), ArchivedDecoder(parse), send, parse)
  }

  /** `GetAddressAsync(address)`: route "merchant/<id>/address_balance". */
  function GetAddressOutcome<T>(apiCode: Option<string>, c: Credentials, address: Option<string>,
                                decode: string -> Result<T, Error>,
                                send: string -> Response, parse: string -> Option<Json>): Result<T, Error>
  {
    match BlankAddressGuard(address)
    case Some(e) => Err(e)
    case None =>
      GetOutcome(apiCode, Some(WalletRoute(c.identifier, "address_balance")), Some(AddressQuery(c, address.value)),
                 None, decode, send, parse)
  }

  /** `GetBalanceAsync()`: route "merchant/<id>/balance". */
  function BalanceOutcome<T>(apiCode: Option<string>, c: Credentials, decode: string -> Result<T, Error>,
                             send: string -> Response, parse: string -> Option<Json>): Result<T, Error>
  {
    GetOutcome(apiCode, Some(WalletRoute(c.identifier, "balance")), Some(BasicQuery(c)), None, decode, send, parse)
  }

  /** `ListAddressesAsync()`: route "merchant/<id>/list". */
  function ListOutcome<T>(apiCode: Option<string>, c: Credentials, element: Json -> Result<T, Error>,
                          send: string -> Response, parse: string -> Option<Json>): Result<seq<T>, Error>
  {
    GetOutcome(apiCode, Some(WalletRoute(c.identifier, "list")), Some(BasicQuery(c)),
               Some(ListDecoder(parse, element)), ListDecoder(parse, element), send, parse)
  }

  /** `NewAddressAsync(name)`: route "merchant/<id>/new_address". */
  function NewAddressOutcome<T>(apiCode: Option<string>, c: Credentials, name: Option<string>,
                                decode: string -> Result<T, Error>,
                                send: string -> Response, parse: string -> Option<Json>): Result<T, Error>
  {
    GetOutcome(apiCode, Some(WalletRoute(c.identifier, "new_address")), Some(NewAddressQuery(c, name)),
               None, decode, send, parse)
  }

  /** The request both payment methods end with: the required entries and the payment options, to "merchant/<id>/<action>". */
  function PaymentOutcome<T>(apiCode: Option<string>, c: Credentials, action: string, required: Entries,
                             fromAddress: Option<string>, fee: Option<BitcoinValue>, decode: string -> Result<T, Error>,
                             send: string -> Response, parse: string -> Option<Json>): Result<T, Error>
  {
    GetOutcome(apiCode, Some(WalletRoute(c.identifier, action)),
               Some(required + PaymentOptions(c.secondPassword, fromAddress, fee)), None, decode, send, parse)
  }

  /** `SendAsync(toAddress, amount, fromAddress, fee)`: route "merchant/<id>/payment". */
  function SendOutcome<T>(apiCode: Option<string>, c: Credentials, toAddress: Option<string>, amount: BitcoinValue,
                          fromAddress: Option<string>, fee: Option<BitcoinValue>, decode: string -> Result<T, Error>,
                          send: string -> Response, parse: string -> Option<Json>): Result<T, Error>
  {
    match SendGuard(toAddress, amount)
    case Some(e) => Err(e)
    case None =>
      match Satoshis(amount)
      case Err(e) => Err(e)
      case Ok(n) => PaymentOutcome(apiCode, c, "payment", SendRequired(c, toAddress.value, n), fromAddress, fee, decode, send, parse)
  }

  /** `SendManyAsync(recipients, fromAddress, fee)`: route "merchant/<id>/sendmany". */
  function SendManyOutcome<T>(apiCode: Option<string>, c: Credentials, recipients: Option<Recipients>,
                              fromAddress: Option<string>, fee: Option<BitcoinValue>, quote: string -> string,
                              decode: string -> Result<T, Error>,
                              send: string -> Response, parse: string -> Option<Json>): Result<T, Error>
  {
    match RecipientsGuard(recipients)
    case Some(e) => Err(e)
    case None =>
      match RecipientsJson(recipients.value, quote)
      case Err(e) => Err(e)
      case Ok(json) => PaymentOutcome(apiCode, c, "sendmany", SendManyRequired(c, json), fromAddress, fee, decode, send, parse)
  }

  /** `UnarchiveAddressAsync(address)`: route "merchant/<id>/unarchive_address". */
  function UnarchiveOutcome(apiCode: Option<string>, c: Credentials, address: Option<string>,
                            send: string -> Response, parse: string -> Option<Json>): Result<Option<string>, Error>
  {
    match NullAddressGuard(address)
    case Some(e) => Err(e)
    case None =>
      GetOutcome(apiCode, Some(WalletRoute(c.identifier, "unarchive_address")), Some(AddressQuery(c, address.value)),
                 Some(UnarchivedDecoder(parse)), UnarchivedDecoder(parse), send, parse)
  }

  // ---------------------------------------------------------------------------
  // Properties of the operations

  /**
   * A blank address is refused by ArchiveAddressAsync whatever the
   * transport would answer, but UnarchiveAddressAsync sends it.
   */
  lemma BlankAddressOnlyUnarchived(apiCode: Option<string>, c: Credentials, address: string,
                                   send1: string -> Response, send2: string -> Response, parse: string -> Option<Json>)
    requires IsNullOrWhiteSpace(Some(address))
    ensures ArchiveOutcome(apiCode, c, Some(address), send1, parse) == Err(ArgumentNull("address", ValueCannotBeNull))
    ensures ArchiveOutcome(apiCode, c, Some(address), send1, parse) == ArchiveOutcome(apiCode, c, Some(address), send2, parse)
    ensures UnarchiveOutcome(apiCode, c, Some(address), send1, parse)
         == GetOutcome(apiCode, Some(WalletRoute(c.identifier, "unarchive_address")), Some(AddressQuery(c, address)),
                       Some(UnarchivedDecoder(parse)), UnarchivedDecoder(parse), send1, parse)
  {
  }

  /** A blank recipient or an amount of zero or less is refused whatever the transport would answer. */
  lemma SendChecksFirst<T>(apiCode: Option<string>, c: Credentials, toAddress: Option<string>, amount: BitcoinValue,
                           fromAddress: Option<string>, fee: Option<BitcoinValue>, decode: string -> Result<T, Error>,
                           send1: string -> Response, send2: string -> Response, parse: string -> Option<Json>)
    requires IsNullOrWhiteSpace(toAddress) || amount.btc <= 0
    ensures SendOutcome(apiCode, c, toAddress, amount, fromAddress, fee, decode, send1, parse).Err?
    ensures SendOutcome(apiCode, c, toAddress, amount, fromAddress, fee, decode, send1, parse)
         == SendOutcome(apiCode, c, toAddress, amount, fromAddress, fee, decode, send2, parse)
  {
  }

  /** A null or empty recipient dictionary is refused whatever the transport would answer. */
  lemma SendManyChecksFirst<T>(apiCode: Option<string>, c: Credentials, recipients: Option<Recipients>,
                               fromAddress: Option<string>, fee: Option<BitcoinValue>, quote: string -> string,
                               decode: string -> Result<T, Error>,
                               send1: string -> Response, send2: string -> Response, parse: string -> Option<Json>)
    requires recipients.None? || recipients.value == []
    ensures SendManyOutcome(apiCode, c, recipients, fromAddress, fee, quote, decode, send1, parse)
         == Err(Argument("recipients", NoRecipients))
    ensures SendManyOutcome(apiCode, c, recipients, fromAddress, fee, quote, decode, send1, parse)
         == SendManyOutcome(apiCode, c, recipients, fromAddress, fee, quote, decode, send2, parse)
  {
  }

  /**
   * A blank second password is sent by the basic query (every endpoint but
   * the payments) and left out of the payment queries.
   */
  lemma BlankSecondPasswordOnlyInBasicQuery(c: Credentials, fromAddress: Option<string>, fee: Option<BitcoinValue>)
    requires c.secondPassword.Some? && IsNullOrWhiteSpace(c.secondPassword)
    ensures Lookup(BasicQuery(c), "second_password") == c.secondPassword
    ensures Lookup(PaymentOptions(c.secondPassword, fromAddress, fee), "second_password").None?
  {
    BasicQueryContent(c);
    PaymentOptionsContent(c.secondPassword, fromAddress, fee);
  }

  /** A whole, positive amount of satoshis is sent as exactly that count. */
  lemma WholeSatoshisSent<T>(apiCode: Option<string>, c: Credentials, toAddress: string, satoshis: int,
                             fromAddress: Option<string>, fee: Option<BitcoinValue>, decode: string -> Result<T, Error>,
                             send: string -> Response, parse: string -> Option<Json>)
    requires !IsNullOrWhiteSpace(Some(toAddress)) && 0 < satoshis && InLong(satoshis)
    ensures SendOutcome(apiCode, c, Some(toAddress), FromSatoshis(satoshis), fromAddress, fee, decode, send, parse)
         == GetOutcome(apiCode, Some(WalletRoute(c.identifier, "payment")),
                       Some(SendQuery(c, toAddress, satoshis, fromAddress, fee)), None, decode, send, parse)
  {
    SatoshisOfFromSatoshis(satoshis);
  }

  /** One recipient of a whole number of satoshis serializes as {"<address>":<satoshis>}. */
  lemma OneRecipientJson(address: string, satoshis: int, quote: string -> string)
    requires InLong(satoshis)
    ensures RecipientsJson([(address, Some(FromSatoshis(satoshis)))], quote)
         == Ok("{" + quote(address) + ":" + IntToString(satoshis) + "}")
  {
    SatoshisOfFromSatoshis(satoshis);
    var recipients := [(address, Some(FromSatoshis(satoshis)))];
    var text := quote(address) + ":" + IntToString(satoshis);
    assert RecipientText(address, Some(FromSatoshis(satoshis)), quote) == Ok(text);
    assert recipients[0] == (address, Some(FromSatoshis(satoshis)));
    assert RecipientTexts(recipients, quote).Ok?;
    assert RecipientTexts(recipients, quote).value == [text];
    assert Join(",", [text]) == text;
    assert "{" + text + "}" == "{" + quote(address) + ":" + IntToString(satoshis) + "}";
  }

  /** An amount whose satoshi count overflows a long makes the whole serialization throw OverflowException. */
  lemma OverflowingAmountThrows(recipients: Recipients, quote: string -> string, i: nat)
    requires i < |recipients| && recipients[i].1.Some? && Satoshis(recipients[i].1.value).Err?
    ensures RecipientsJson(recipients, quote) == Err(Overflow)
  {
    assert RecipientText(recipients[i].0, recipients[i].1, quote).Err?;
  }

  /**
   * For an identifier and an action without '?', the transport is asked for
   * "merchant/<id>/<action>", the rendered query and then the API code.
   */
  lemma WalletRequest(apiCode: Option<string>, identifier: Option<string>, action: string, query: Entries)
    requires '?' !in NullText(identifier) && '?' !in action
    requires |query| > 0 && ApiCodeKey !in Keys(query)
    ensures GetRequestRoute(apiCode, Some(WalletRoute(identifier, action)), Some(query))
         == Some("merchant/" + NullText(identifier) + "/" + action + Render(query) + ApiCodeSuffix(apiCode))
  {
    RequestedRoute(apiCode, WalletRoute(identifier, action), query);
  }

  /**
   * The identifier "?" puts a '?' at index 9 of the route, so GetAsync
   * replaces the whole query, password included, by a bare "&".
   */
  lemma QuestionMarkIdentifierDropsPassword(c: Credentials)
    requires c.identifier == Some("?")
    ensures GetRequestRoute(None, Some(WalletRoute(c.identifier, "balance")), Some(BasicQuery(c)))
         == Some(WalletRoute(c.identifier, "balance") + "&")
  {
    var route := WalletRoute(c.identifier, "balance");
    assert route[9] == '?';
    QueryLostAfterQuestionMark(route, BasicQuery(c));
  }

  /** Adding only second_password leaves from and fee absent. */
  lemma SecondPasswordKeyOnly(before: seq<string>, after: seq<string>, second: Option<string>)
    requires "from" !in before && "fee" !in before
    requires after == before + if second.Some? then ["second_password"] else []
    ensures "from" !in after && "fee" !in after
  {
    assert "from" != "second_password" && "fee" != "second_password";
  }

  /** The second password's entry followed by the source and fee entries make up the payment options. */
  lemma PaymentOptionsAppended(start: Entries, added: Entries, final: Entries,
                               secondPassword: Option<string>, fromAddress: Option<string>, fee: Option<BitcoinValue>)
    requires added == start + OptionalEntry("second_password", NonBlank(secondPassword))
    requires final == added + SourceAndFee(NonBlank(fromAddress), FeeText(fee))
    ensures final == start + PaymentOptions(secondPassword, fromAddress, fee)
  {
    assert start + OptionalEntry("second_password", NonBlank(secondPassword)) + SourceAndFee(NonBlank(fromAddress), FeeText(fee))
        == start + (OptionalEntry("second_password", NonBlank(secondPassword)) + SourceAndFee(NonBlank(fromAddress), FeeText(fee)));
  }

  // ---------------------------------------------------------------------------
  // The wallet

  /** `if (value is not null) queryString.Add(key, value)` for a key the query does not hold yet. */
  method AddOptional(query: QueryString, key: string, value: Option<string>)
    requires query.Valid() && key !in Keys(query.entries)
    modifies query
    ensures query.Valid() && query.entries == old(query.entries) + OptionalEntry(key, value)
    ensures Keys(query.entries) == Keys(old(query.entries)) + if value.Some? then [key] else []
  {
    if value.Some? {
      var _ := query.Add(key, value.value);
      KeysAppend(old(query.entries), (key, value.value));
    } else {
      assert old(query.entries) + [] == old(query.entries);
    }
  }

  class Wallet {
    const httpClient: BlockchainHttpClient
    const identifier: Option<string>
    const password: Option<string>
    const secondPassword: Option<string>

    /** The values the wallet was created with. */
    function Account(): Credentials
    {
      Credentials(identifier, password, secondPassword)
    }

    /** The field assignments of `new Wallet(...)` once the client is known not to be null. */
    constructor Init(httpClient: BlockchainHttpClient, identifier: Option<string>, password: Option<string>,
                     secondPassword: Option<string>)
      ensures this.httpClient == httpClient
      ensures Account() == Credentials(identifier, password, secondPassword)
    {
      this.httpClient := httpClient;
      this.identifier := identifier;
      this.password := password;
      this.secondPassword := secondPassword;
    }

    /** `new Wallet(httpClient, identifier, password, secondPassword)`: a null client throws ArgumentNullException. */
    static method Create(httpClient: BlockchainHttpClient?, identifier: Option<string>, password: Option<string>,
                         secondPassword: Option<string>) returns (r: Result<Wallet, Error>)
      ensures httpClient == null ==> r == Err(ArgumentNull("httpClient", ValueCannotBeNull))
      ensures httpClient != null ==>
                r.Ok? && fresh(r.value) && r.value.httpClient == httpClient
                && r.value.Account() == Credentials(identifier, password, secondPassword)
    {
      if httpClient == null {
        return Err(ArgumentNull("httpClient", ValueCannotBeNull));
      }
      var wallet := new Wallet.Init(httpClient, identifier, password, secondPassword);
      r := Ok(wallet);
    }

    /** `BuildBasicQueryString()`. */
    method BuildBasicQueryString() returns (query: QueryString)
      ensures fresh(query) && query.Valid() && query.entries == BasicQuery(Account())
    {
      query := new QueryString();
      var _ := query.Add("password", NullText(password));
      if secondPassword.Some? {
        var _ := query.Add("second_password", secondPassword.value);
      }
    }

    /** `ArchiveAddressAsync(address)`. */
    method ArchiveAddressAsync(address: Option<string>, send: string -> Response, parse: string -> Option<Json>)
      returns (r: Result<Option<string>, Error>)
      ensures r == ArchiveOutcome(httpClient.apiCode, Account(), address, send, parse)
    {
      if IsNullOrWhiteSpace(address) {
        return Err(ArgumentNull("address", ValueCannotBeNull));
      }
      var query := BuildBasicQueryString();
      BasicQueryContent(Account());
      var _ := query.Add("address", address.value);
      assert query.entries == AddressQuery(Account(), address.value);
      r := httpClient.GetAsync(Some(WalletRoute(identifier, "archive_address")), query,
                               Some(ArchivedDecoder(parse)), ArchivedDecoder(parse), send, parse);
    }

    /** `GetAddressAsync(address)`. */
    method GetAddressAsync<T>(address: Option<string>, decode: string -> Result<T, Error>,
                              send: string -> Response, parse: string -> Option<Json>) returns (r: Result<T, Error>)
      ensures r == GetAddressOutcome(httpClient.apiCode, Account(), address, decode, send, parse)
    {
      if IsNullOrWhiteSpace(address) {
        return Err(ArgumentNull("address", ValueCannotBeNull));
      }
      var query := BuildBasicQueryString();
      BasicQueryContent(Account());
      var _ := query.Add("address", address.value);
      assert query.entries == AddressQuery(Account(), address.value);
      r := httpClient.GetAsync(Some(WalletRoute(identifier, "address_balance")), query, None, decode, send, parse);
    }

    /** `GetBalanceAsync()`. */
    method GetBalanceAsync<T>(decode: string -> Result<T, Error>, send: string -> Response,
                              parse: string -> Option<Json>) returns (r: Result<T, Error>)
      ensures r == BalanceOutcome(httpClient.apiCode, Account(), decode, send, parse)
    {
      var query := BuildBasicQueryString();
      r := httpClient.GetAsync(Some(WalletRoute(identifier, "balance")), query, None, decode, send, parse);
    }

    /** `ListAddressesAsync()`. */
    method ListAddressesAsync<T>(element: Json -> Result<T, Error>, send: string -> Response,
                                 parse: string -> Option<Json>) returns (r: Result<seq<T>, Error>)
      ensures r == ListOutcome(httpClient.apiCode, Account(), element, send, parse)
    {
      var query := BuildBasicQueryString();
      r := httpClient.GetAsync(Some(WalletRoute(identifier, "list")), query,
                               Some(ListDecoder(parse, element)), ListDecoder(parse, element), send, parse);
    }

    /** `NewAddressAsync(name)`. */
    method NewAddressAsync<T>(name: Option<string>, decode: string -> Result<T, Error>,
                              send: string -> Response, parse: string -> Option<Json>) returns (r: Result<T, Error>)
      ensures r == NewAddressOutcome(httpClient.apiCode, Account(), name, decode, send, parse)
    {
      var query := BuildBasicQueryString();
      BasicQueryContent(Account());
      if name.Some? {
        var _ := query.Add("label", name.value);
      }
      assert query.entries == NewAddressQuery(Account(), name);
      r := httpClient.GetAsync(Some(WalletRoute(identifier, "new_address")), query, None, decode, send, parse);
    }

    /** The optional entries both payment methods add after their required ones. */
    method AddPaymentOptions(query: QueryString, fromAddress: Option<string>, fee: Option<BitcoinValue>)
      requires query.Valid()
      requires "second_password" !in Keys(query.entries) && "from" !in Keys(query.entries) && "fee" !in Keys(query.entries)
      modifies query
      ensures query.Valid() && query.entries == old(query.entries) + PaymentOptions(secondPassword, fromAddress, fee)
    {
      ghost var start := query.entries;
      AddOptional(query, "second_password", NonBlank(secondPassword));
      ghost var added := query.entries;
      SecondPasswordKeyOnly(Keys(start), Keys(added), NonBlank(secondPassword));
      AddSourceAndFee(query, NonBlank(fromAddress), FeeText(fee));
      PaymentOptionsAppended(start, added, query.entries, secondPassword, fromAddress, fee);
    }

    /** The sending address, then the fee, each added when present. */
    static method AddSourceAndFee(query: QueryString, from: Option<string>, feeText: Option<string>)
      requires query.Valid() && "from" !in Keys(query.entries) && "fee" !in Keys(query.entries)
      modifies query
      ensures query.Valid() && query.entries == old(query.entries) + SourceAndFee(from, feeText)
    {
      ghost var start := query.entries;
      AddOptional(query, "from", from);
      AddOptional(query, "fee", feeText);
      assert start + OptionalEntry("from", from) + OptionalEntry("fee", feeText) == start + SourceAndFee(from, feeText);
    }

    /** The tail both payment methods share: add the payment options, then send the request to `action`. */
    method Pay<T>(action: string, query: QueryString, fromAddress: Option<string>, fee: Option<BitcoinValue>,
                  decode: string -> Result<T, Error>, send: string -> Response, parse: string -> Option<Json>)
      returns (r: Result<T, Error>)
      requires query.Valid()
      requires "second_password" !in Keys(query.entries) && "from" !in Keys(query.entries) && "fee" !in Keys(query.entries)
      modifies query
      ensures r == PaymentOutcome(httpClient.apiCode, Account(), action, old(query.entries), fromAddress, fee,
                                  decode, send, parse)
    {
      AddPaymentOptions(query, fromAddress, fee);
      r := httpClient.GetAsync(Some(WalletRoute(identifier, action)), query, None, decode, send, parse);
    }

    /** `SendAsync(toAddress, amount, fromAddress, fee)`. */
    method SendAsync<T>(toAddress: Option<string>, amount: BitcoinValue, fromAddress: Option<string>,
                        fee: Option<BitcoinValue>, decode: string -> Result<T, Error>,
                        send: string -> Response, parse: string -> Option<Json>) returns (r: Result<T, Error>)
      ensures r == SendOutcome(httpClient.apiCode, Account(), toAddress, amount, fromAddress, fee, decode, send, parse)
    {
      if IsNullOrWhiteSpace(toAddress) {
        return Err(ArgumentNull("toAddress", ValueCannotBeNull));
      }
      if GetBtc(amount) <= 0 {
        return Err(Argument("amount", AmountNotPositive));
      }
      var query := NewPaymentQuery(NullText(password), toAddress.value);
      var satoshis := Satoshis(amount);
      if satoshis.Err? {
        return Err(satoshis.error);
      }
      var _ := query.Add("amount", IntToString(satoshis.value));
      assert query.entries == SendRequired(Account(), toAddress.value, satoshis.value);
      SendRequiredEntries(NullText(password), toAddress.value, IntToString(satoshis.value));
      r := Pay("payment", query, fromAddress, fee, decode, send, parse);
    }

    /** SendAsync's first two additions: the password, then the recipient. */
    static method NewPaymentQuery(password: string, toAddress: string) returns (query: QueryString)
      ensures fresh(query) && query.Valid() && query.entries == [("password", password), ("to", toAddress)]
      ensures Keys(query.entries) == ["password", "to"]
    {
      query := new QueryString();
      var _ := query.Add("password", password);
      var _ := query.Add("to", toAddress);
      KeysAppend([("password", password)], ("to", toAddress));
    }

    /** `SendManyAsync(recipients, fromAddress, fee)`. */
    method SendManyAsync<T>(recipients: Option<Recipients>, fromAddress: Option<string>, fee: Option<BitcoinValue>,
                            quote: string -> string, decode: string -> Result<T, Error>,
                            send: string -> Response, parse: string -> Option<Json>) returns (r: Result<T, Error>)
      ensures r == SendManyOutcome(httpClient.apiCode, Account(), recipients, fromAddress, fee, quote, decode, send, parse)
    {
      if recipients.None? || |recipients.value| == 0 {
        return Err(Argument("recipients", NoRecipients));
      }
      var query := new QueryString();
      var _ := query.Add("password", NullText(password));
      var recipientsJson := RecipientsJson(recipients.value, quote);
      if recipientsJson.Err? {
        return Err(recipientsJson.error);
      }
      var _ := query.Add("recipients", recipientsJson.value);
      assert query.entries == SendManyRequired(Account(), recipientsJson.value);
      SendManyRequiredKeys(Account(), recipientsJson.value);
      r := Pay("sendmany", query, fromAddress, fee, decode, send, parse);
    }

    /** `UnarchiveAddressAsync(address)`. */
    method UnarchiveAddressAsync(address: Option<string>, send: string -> Response, parse: string -> Option<Json>)
      returns (r: Result<Option<string>, Error>)
      ensures r == UnarchiveOutcome(httpClient.apiCode, Account(), address, send, parse)
    {
      if address.None? {
        return Err(ArgumentNull("address", ValueCannotBeNull));
      }
      var query := BuildBasicQueryString();
      BasicQueryContent(Account());
      var _ := query.Add("address", address.value);
      assert query.entries == AddressQuery(Account(), address.value);
      r := httpClient.GetAsync(Some(WalletRoute(identifier, "unarchive_address")), query,
                               Some(UnarchivedDecoder(parse)), UnarchivedDecoder(parse), send, parse);
    }
  }
}
