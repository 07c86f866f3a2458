/**
 * Block: the full block record, the transaction patch `Deserialize` applies
 * to the parsed JSON before typed decoding, `DeserializeMultiple`, and the
 * `ReceivedTime` getter.
 */
module Blocks {
  import opened Wrappers
  import opened Errors
  import opened JsonTree
  import opened DateTimes
  import opened BitcoinValues
  import opened SimpleBlocks
  import BitcoinValueProperties
  import Transactions
  import UnixDateTimeConverter
  import Text

  /**
   * One transaction after the patch: `block_height` holds the block's
   * "height" token and `double_spend` is false; every other property keeps
   * its value.  Only an object can be patched; the first assignment throws on
   * anything else.
   */
  function PatchTransaction(tx: Json, height: Json): (r: Result<Json, Error>)
    ensures r.Ok? <==> tx.JObj?
    ensures r.Ok? ==> r.value.JObj?
    ensures r.Err? ==> r == SetChild(tx, "block_height", height)
  {
    match SetChild(tx, "block_height", height)
    case Err(e) => Err(e)
    case Ok(withHeight) => SetChild(withHeight, "double_spend", JBool(false))
  }

  /** A patched transaction carries the block's height and `double_spend: false`, and every other property as it was. */
  lemma PatchedProperties(tx: Json, height: Json)
    requires tx.JObj?
    ensures var patched := PatchTransaction(tx, height).value.members;
            Get(patched, "block_height") == Some(height)
            && Get(patched, "double_spend") == Some(JBool(false))
            && forall k :: k != "block_height" && k != "double_spend" ==> Get(patched, k) == Get(tx.members, k)
  {
  }

  /** The patch keeps the transaction's property names in order, adding a missing `block_height`, then a missing `double_spend`, last. */
  lemma PatchKeepsOrder(members: Members, height: Json)
    ensures var heightKey := if "block_height" in KeysOf(members) then [] else ["block_height"];
            var flagKey := if "double_spend" in KeysOf(members) then [] else ["double_spend"];
            KeysOf(PatchTransaction(JObj(members), height).value.members) == KeysOf(members) + heightKey + flagKey
  {
    var withHeight := Set(members, "block_height", height);
    SetKeys(members, "block_height", height);
    SetKeys(withHeight, "double_spend", JBool(false));
    assert "double_spend" != "block_height" by {
      assert "double_spend"[0] != "block_height"[0];
    }
    assert "double_spend" in KeysOf(withHeight) <==> "double_spend" in KeysOf(members) by {
      var keys := KeysOf(members);
      assert KeysOf(withHeight) == keys || KeysOf(withHeight) == keys + ["block_height"];
      assert "double_spend" in keys + ["block_height"] <==> "double_spend" in keys;
    }
    var patched := Set(withHeight, "double_spend", JBool(false));
    assert PatchTransaction(JObj(members), height) == Ok(JObj(patched));
    var heightKey: seq<string> := if "block_height" in KeysOf(members) then [] else ["block_height"];
    var flagKey: seq<string> := if "double_spend" in KeysOf(members) then [] else ["double_spend"];
    assert KeysOf(withHeight) == KeysOf(members) + heightKey;
    assert KeysOf(patched) == KeysOf(withHeight) + flagKey;
  }

  /** Where the first item that is not an object sits, or the length when all are objects. */
  function FirstNonObject(items: seq<Json>): (n: nat)
    ensures n <= |items|
    ensures forall k :: 0 <= k < n ==> items[k].JObj?
    ensures n < |items| ==> !items[n].JObj?
  {
    if |items| == 0 || !items[0].JObj? then 0 else 1 + FirstNonObject(items[1..])
  }

  /**
   * The `foreach` over the "tx" items: every item patched where it stands
   * when all are objects, otherwise the error of the first that is not.
   */
  function PatchItems(items: seq<Json>, height: Json): (r: Result<seq<Json>, Error>)
    ensures r.Ok? <==> forall k :: 0 <= k < |items| ==> items[k].JObj?
  {
    var n := FirstNonObject(items);
    if n < |items| then Err(PatchTransaction(items[n], height).error)
    else Ok(seq(|items|, k requires 0 <= k < |items| && items[k].JObj? => PatchTransaction(items[k], height).value))
  }

  /** The first non-object is found by its two defining facts. */
  lemma FirstNonObjectAt(items: seq<Json>, n: nat)
    requires n < |items| && !items[n].JObj?
    requires forall k :: 0 <= k < n ==> items[k].JObj?
    ensures FirstNonObject(items) == n
  {
  }

  /** The first `i` items of `current` are the patched originals, the rest the originals themselves. */
  ghost predicate PatchedUpTo(current: seq<Json>, original: seq<Json>, height: Json, i: nat)
  {
    |current| == |original| && i <= |original|
    && (forall k :: 0 <= k < i ==> original[k].JObj? && current[k] == PatchTransaction(original[k], height).value)
    && current[i..] == original[i..]
  }

  /** Patching the next item, an object, extends the patched prefix by one. */
  lemma PatchNext(current: seq<Json>, original: seq<Json>, height: Json, i: nat)
    requires PatchedUpTo(current, original, height, i) && i < |current|
    requires SetChild(current[i], "block_height", height).Ok?
    ensures var withHeight := SetChild(current[i], "block_height", height).value;
            var patched := SetChild(withHeight, "double_spend", JBool(false));
            patched.Ok? && PatchedUpTo(current[i := patched.value], original, height, i + 1)
  {
    assert current[i] == current[i..][0] == original[i];
    var next := current[i := PatchTransaction(original[i], height).value];
    assert next[i + 1..] == current[i + 1..] == current[i..][1..];
  }

  /** Once every item is patched, the array holds what the specification of the patch gives. */
  lemma PatchedAll(current: seq<Json>, original: seq<Json>, height: Json)
    requires PatchedUpTo(current, original, height, |original|)
    ensures PatchItems(original, height).Ok? && current == PatchItems(original, height).value
  {
  }

  /** An item that cannot be patched is the first non-object, and its error is the patch's. */
  lemma PatchStopped(current: seq<Json>, original: seq<Json>, height: Json, i: nat)
    requires PatchedUpTo(current, original, height, i) && i < |current|
    requires SetChild(current[i], "block_height", height).Err?
    ensures FirstNonObject(original) == i
    ensures PatchItems(original, height).Err?
    ensures SetChild(current[i], "block_height", height).error == PatchItems(original, height).error
  {
    assert current[i] == current[i..][0] == original[i];
    FirstNonObjectAt(original, i);
  }

  /**
   * The patch loop of `Deserialize`, in place over the "tx" array's items.
   * When an item cannot be patched, the items before it have already been
   * patched and the rest are untouched.
   */
  method PatchTransactions(txs: array<Json>, height: Json) returns (r: Outcome<Error>)
    modifies txs
    ensures r.Pass? <==> PatchItems(old(txs[..]), height).Ok?
    ensures r.Pass? ==> txs[..] == PatchItems(old(txs[..]), height).value
    ensures r.Fail? ==> r.error == PatchItems(old(txs[..]), height).error
    ensures r.Fail? ==> PatchedUpTo(txs[..], old(txs[..]), height, FirstNonObject(old(txs[..])))
  {
    ghost var original := txs[..];
    var i := 0;
    while i < txs.Length
      invariant 0 <= i <= txs.Length
      invariant PatchedUpTo(txs[..], original, height, i)
    {
      var withHeight := SetChild(txs[i], "block_height", height);
      if withHeight.Err? {
        PatchStopped(txs[..], original, height, i);
        return Fail(withHeight.error);
      }
      PatchNext(txs[..], original, height, i);
      var patched := SetChild(withHeight.value, "double_spend", JBool(false));
      txs[i] := patched.value;
      i := i + 1;
    }
    PatchedAll(txs[..], original, height);
    r := Pass;
  }

  /**
   * What `Deserialize` decodes once the object is parsed: with a "tx" array,
   * the block with every transaction patched; a "tx" object with properties
   * throws (a `JProperty` has no children to set); without "tx", or with a
   * scalar, the block as it came.
   */
  function PatchedBlock(members: Members): (r: Result<Members, Error>)
    ensures Get(members, "tx").None? ==> r == Ok(members)
    ensures r.Ok? ==> forall k :: k != "tx" ==> Get(r.value, k) == Get(members, k)
    ensures r.Ok? && Get(members, "tx").Some? && Get(members, "tx").value.JArr? ==>
              var patched := PatchItems(Get(members, "tx").value.items, GetOrNull(members, "height"));
              patched.Ok? && Get(r.value, "tx") == Some(JArr(patched.value))
  {
    match Get(members, "tx")
    case Some(JArr(items)) =>
      (match PatchItems(items, GetOrNull(members, "height"))
       case Err(e) => Err(e)
       case Ok(patched) => Ok(Set(members, "tx", JArr(patched))))
    case Some(JObj(properties)) =>
      if |properties| == 0 then Ok(members)
      else Err(InvalidOperation(CannotSetChildValue("Newtonsoft.Json.Linq.JProperty")))
    case _ => Ok(members)
  }

  /** `Deserialize(blockJson)`: parse, patch the transactions, decode the object. */
  function Deserialized<T>(blockJson: string, parse: string -> Option<Json>,
                           decode: Json -> Result<Option<T>, Error>): Result<Option<T>, Error>
  {
    match ParseObject(blockJson, parse)
    case Err(e) => Err(e)
    case Ok(members) =>
      match PatchedBlock(members)
      case Err(e) => Err(e)
      case Ok(patched) => decode(JObj(patched))
  }

  /** `Deserialize(blockJson)`, with the patch done in place on the "tx" array. */
  method Deserialize<T>(blockJson: string, parse: string -> Option<Json>,
                        decode: Json -> Result<Option<T>, Error>) returns (r: Result<Option<T>, Error>)
    ensures r == Deserialized(blockJson, parse, decode)
  {
    var parsed := ParseObject(blockJson, parse);
    if parsed.Err? {
      return Err(parsed.error);
    }
    var members := parsed.value;
    var tx := Get(members, "tx");
    if tx.Some? && tx.value.JArr? {
      var items := tx.value.items;
      var txs := new Json[|items|](i requires 0 <= i < |items| => items[i]);
      assert txs[..] == items;
      var patched := PatchTransactions(txs, GetOrNull(members, "height"));
      if patched.Fail? {
        return Err(patched.error);
      }
      members := Set(members, "tx", JArr(txs[..]));
    } else if tx.Some? && tx.value.JObj? && |tx.value.members| > 0 {
      return Err(InvalidOperation(CannotSetChildValue("Newtonsoft.Json.Linq.JProperty")));
    }
    r := decode(JObj(members));
  }

  /** A block without "tx" is decoded exactly as parsed: no patching and no error. */
  lemma NoTransactionsNoPatch<T>(blockJson: string, parse: string -> Option<Json>,
                                 decode: Json -> Result<Option<T>, Error>)
    requires ParseObject(blockJson, parse).Ok?
    requires Get(ParseObject(blockJson, parse).value, "tx").None?
    ensures Deserialized(blockJson, parse, decode) == decode(JObj(ParseObject(blockJson, parse).value))
  {
  }

  /**
   * Every transaction a patched block carries decodes with the block's height
   * and with DoubleSpend read from `false`, whatever it said before.
   */
  lemma PatchedTransactionBinds(tx: Json, height: Json, library: Library, read: Transactions.Readers)
    requires tx.JObj?
    ensures var t := Transactions.Bind(PatchTransaction(tx, height).value.members, library, read);
            t.Ok? ==> read.height(height) == Ok(t.value.blockHeight) && read.flag(JBool(false)) == Ok(t.value.doubleSpend)
  {
    PatchedProperties(tx, height);
  }

  /**
   * `Deserialize(jToken.ToString())` for one child of "blocks".  A string
   * item's text is its raw value, so a string holding block JSON is parsed,
   * patched and decoded like any block text; an object item is printed and
   * parsed back, which gives the same object; a number, bool, null or array
   * prints as text that is not a JSON object, and so does a property of an
   * object "blocks".
   */
  function DeserializeItem<T>(child: Child, parse: string -> Option<Json>,
                              decode: Json -> Result<Option<T>, Error>): (r: Result<Option<T>, Error>)
    ensures child.Item? && child.value.JStr? ==> r == Deserialized(child.value.s, parse, decode)
    ensures child.Property? || (!child.value.JObj? && !child.value.JStr?) ==> r == Err(JsonFailure(ReadingJObject))
    ensures child.Item? && child.value.JObj? && r.Ok? ==>
              PatchedBlock(child.value.members).Ok? && r == decode(JObj(PatchedBlock(child.value.members).value))
  {
    match child
    case Item(JObj(members)) =>
      (match PatchedBlock(members)
       case Err(e) => Err(e)
       case Ok(patched) => decode(JObj(patched)))
    case Item(JStr(s)) => Deserialized(s, parse, decode)
    case _ => Err(JsonFailure(ReadingJObject))
  }

  /**
   * An object item decodes exactly as `Deserialize` decodes any text that
   * parses to that object, its printed form among them.
   */
  lemma ObjectItemAsText<T>(members: Members, text: string, parse: string -> Option<Json>,
                            decode: Json -> Result<Option<T>, Error>)
    requires parse(text) == Some(JObj(members))
    ensures DeserializeItem(Item(JObj(members)), parse, decode) == Deserialized(text, parse, decode)
  {
  }

  /** The blocks of the items in order, null results dropped; the first exception propagates. */
  function DeserializeEach<T>(children: seq<Child>, parse: string -> Option<Json>, decode: Json -> Result<Option<T>, Error>): (r: Result<seq<T>, Error>)
    ensures r.Ok? ==> |r.value| <= |children|
  {
    if |children| == 0 then Ok([])
    else
      match DeserializeEach(children[..|children| - 1], parse, decode)
      case Err(e) => Err(e)
      case Ok(front) =>
        match DeserializeItem(children[|children| - 1], parse, decode)
        case Err(e) => Err(e)
        case Ok(None) => Ok(front)
        case Ok(Some(b)) => Ok(front + [b])
  }

  /** One item that throws makes the whole list throw. */
  lemma {:induction false} FailurePropagates<T>(children: seq<Child>, parse: string -> Option<Json>, decode: Json -> Result<Option<T>, Error>, i: nat)
    requires i < |children| && DeserializeItem(children[i], parse, decode).Err?
    ensures DeserializeEach(children, parse, decode).Err?
  {
    var n := |children|;
    var front := children[..n - 1];
    if i < n - 1 {
      assert front[i] == children[i];
      FailurePropagates(front, parse, decode, i);
      assert DeserializeEach(front, parse, decode).Err?;
      EachFailsAtStep(children, parse, decode);
    } else {
      assert children[n - 1] == children[i];
      EachFailsAtStep(children, parse, decode);
    }
  }

  /** The list throws when its front throws or its last item does. */
  lemma EachFailsAtStep<T>(children: seq<Child>, parse: string -> Option<Json>, decode: Json -> Result<Option<T>, Error>)
    requires |children| > 0
    requires DeserializeEach(children[..|children| - 1], parse, decode).Err?
             || DeserializeItem(children[|children| - 1], parse, decode).Err?
    ensures DeserializeEach(children, parse, decode).Err?
  {
  }

  /** When every item decodes to a block, the list holds those blocks in item order. */
  lemma {:induction false} AllBlocksKept<T>(children: seq<Child>, parse: string -> Option<Json>, decode: Json -> Result<Option<T>, Error>)
    requires forall i :: 0 <= i < |children| ==> DeserializeItem(children[i], parse, decode).Ok?
                                                 && DeserializeItem(children[i], parse, decode).value.Some?
    ensures DeserializeEach(children, parse, decode).Ok?
    ensures |DeserializeEach(children, parse, decode).value| == |children|
    ensures forall i :: 0 <= i < |children| ==>
              DeserializeEach(children, parse, decode).value[i] == DeserializeItem(children[i], parse, decode).value.value
  {
    var n := |children|;
    if n > 0 {
      var front := children[..n - 1];
      assert forall i :: 0 <= i < n - 1 ==> front[i] == children[i];
      AllBlocksKept(front, parse, decode);
      var blocks := DeserializeEach(front, parse, decode).value;
      var last := DeserializeItem(children[n - 1], parse, decode).value.value;
      assert DeserializeEach(children, parse, decode) == Ok(blocks + [last]);
      forall i | 0 <= i < n ensures (blocks + [last])[i] == DeserializeItem(children[i], parse, decode).value.value {
        if i < n - 1 {
          assert front[i] == children[i];
        }
      }
    }
  }

  /** Items that decode to null leave no trace in the list. */
  lemma NullDropped<T>(children: seq<Child>, child: Child, parse: string -> Option<Json>, decode: Json -> Result<Option<T>, Error>)
    requires DeserializeItem(child, parse, decode) == Ok(None)
    ensures DeserializeEach(children + [child], parse, decode) == DeserializeEach(children, parse, decode)
  {
    assert (children + [child])[..|children|] == children;
  }

  /**
   * `DeserializeMultiple(blocksJson)`: each item of "blocks" deserialized as
   * a block, in order, null results dropped; the empty list when "blocks" is
   * absent.
   */
  function DeserializeMultiple<T>(blocksJson: string, parse: string -> Option<Json>,
                                  decode: Json -> Result<Option<T>, Error>): (r: Result<seq<T>, Error>)
    ensures ParseObject(blocksJson, parse).Err? ==> r == Err(JsonFailure(ReadingJObject))
    ensures ParseObject(blocksJson, parse).Ok? && Get(ParseObject(blocksJson, parse).value, "blocks").None? ==> r == Ok([])
    ensures ParseObject(blocksJson, parse).Ok? && Get(ParseObject(blocksJson, parse).value, "blocks").Some? ==>
              r == DeserializeEach(Children(Get(ParseObject(blocksJson, parse).value, "blocks").value), parse, decode)
  {
    match ParseObject(blocksJson, parse)
    case Err(e) => Err(e)
    case Ok(members) =>
      match Get(members, "blocks")
      case None => Ok([])
      case Some(blocks) => DeserializeEach(Children(blocks), parse, decode)
  }

  /** The full block record, as far as its own properties go. */
  datatype Block = Block(summary: SimpleBlock, fees: Option<BitcoinValue>, receivedTime: DateTime, relayedBy: Option<string>)

  /** A block before any property is bound: no received time yet, relayed by "0.0.0.0", zero fees. */
  const Initial: Block := Block(New(), Some(BitcoinValue(0)), MinValue, Some("0.0.0.0"))

  /**
   * The `ReceivedTime` getter: the block's Time while the private field still
   * holds `DateTime.MinValue` (DateTime equality compares ticks, not kind),
   * the stored value otherwise.
   */
  function ReceivedTime(b: Block): (t: DateTime)
    ensures b.receivedTime.ms == MinValue.ms ==> t == b.summary.time
    ensures b.receivedTime.ms != MinValue.ms ==> t == b.receivedTime
  {
    if b.receivedTime.ms == MinValue.ms then b.summary.time else b.receivedTime
  }

  /** A block whose received_time was never set reports its Time. */
  lemma UnsetReceivedTimeIsTime(summary: SimpleBlock)
    ensures ReceivedTime(Initial.(summary := summary)) == summary.time
  {
  }

  /**
   * A received_time that UnixDateTimeJsonConverter read is reported as is:
   * under the floor in force or any later one, the converter never produces
   * `DateTime.MinValue`, so the getter never falls back to Time for it.
   */
  lemma ConvertedReceivedTimeReported(b: Block, unit: UnixDateTimeConverter.Unit, floor: DateTime,
                                      value: UnixDateTimeConverter.Timestamp)
    requires floor.ms >= UnixDateTimeConverter.GenesisFloor.ms
    requires UnixDateTimeConverter.ReadJson(unit, floor, value).Ok?
    requires UnixDateTimeConverter.ReadJson(unit, floor, value).value.Some?
    ensures var read := UnixDateTimeConverter.ReadJson(unit, floor, value).value.value;
            ReceivedTime(b.(receivedTime := read)) == read
  {
    UnixDateTimeConverter.ReadNeverMinValue(unit, floor, value);
  }

  /**
   * `received_time` as the libraries bind it.  The property's setter is
   * private: Newtonsoft uses it because of `[JsonProperty]` and reads the
   * value through UnixDateTimeJsonConverter in seconds, whose null result
   * cannot be stored in a DateTime; System.Text.Json does not use a private
   * setter, so the field keeps `DateTime.MinValue`.  `floor` is the genesis
   * floor in force.
   */
  function BindReceivedTime(members: Members, library: Library, floor: DateTime): (r: Result<DateTime, Error>)
    ensures library == SystemTextJson || Get(members, "received_time").None? ==> r == Ok(MinValue)
    ensures library == Newtonsoft && Get(members, "received_time").Some? ==>
              var read := UnixDateTimeConverter.ReadJson(UnixDateTimeConverter.Seconds, floor,
                            UnixDateTimeConverter.TimestampOf(ValueOf(Get(members, "received_time").value)));
              (r.Ok? <==> read.Ok? && read.value.Some?) && (r.Ok? ==> r.value == read.value.value)
  {
    match Get(members, "received_time")
    case None => Ok(MinValue)
    case Some(v) =>
      if library == SystemTextJson then Ok(MinValue)
      else
        match UnixDateTimeConverter.ReadJson(UnixDateTimeConverter.Seconds, floor, UnixDateTimeConverter.TimestampOf(ValueOf(v)))
        case Err(e) => Err(e)
        case Ok(None) => Err(JsonFailure(SettingValue("ReceivedTime", "Info.Blockchain.API.Models.Block")))
        case Ok(Some(d)) => Ok(d)
  }

  /**
   * The block's own required properties whose values the model does not
   * carry; the inherited `hash`, `height` and `time` are bound into the
   * summary the decoder supplies.
   */
  const UncarriedRequired: seq<string> := ["bits", "block_index", "mrkl_root", "nonce", "prev_block", "size", "tx", "ver"]

  /**
   * Binding the block's own properties: `UncarriedRequired` must be present
   * and not null under Newtonsoft; `fee` is required by
   * Newtonsoft and read through the library's BitcoinValue converter;
   * `received_time` is bound by Newtonsoft only; `relayed_by` is optional
   * and stays "0.0.0.0" when absent.  What ReceivedTime then reports is the
   * block's Time when nothing was bound, and the converted instant when
   * Newtonsoft bound one.
   */
  function BindDefaults(members: Members, library: Library, floor: DateTime,
                        readText: Json -> Result<Option<string>, Error>,
                        summary: SimpleBlock): (r: Result<Block, Error>)
    ensures library == Newtonsoft && Get(members, "fee").None? ==> r.Err?
    ensures r.Ok? && library == SystemTextJson && Get(members, "fee").None? ==> r.value.fees == Some(Zero)
    ensures r.Ok? && Get(members, "relayed_by").None? ==> r.value.relayedBy == Some("0.0.0.0")
    ensures BindReceivedTime(members, library, floor).Err? ==> r.Err?
    ensures r.Ok? && (library == SystemTextJson || Get(members, "received_time").None?) ==>
              ReceivedTime(r.value) == summary.time
    ensures r.Ok? && library == Newtonsoft && Get(members, "received_time").Some? && floor.ms >= UnixDateTimeConverter.GenesisFloor.ms ==>
              UnixDateTimeConverter.ReadJson(UnixDateTimeConverter.Seconds, floor,
                UnixDateTimeConverter.TimestampOf(ValueOf(Get(members, "received_time").value))) == Ok(Some(ReceivedTime(r.value)))
    ensures r.Ok? && library == Newtonsoft ==>
              forall i :: 0 <= i < |UncarriedRequired| ==>
                Get(members, UncarriedRequired[i]).Some? && Get(members, UncarriedRequired[i]) != Some(JNull)
  {
    match CheckRequired(members, UncarriedRequired, library)
    case Err(e) => Err(e)
    case Ok(_) =>
      match BindField(members, "fee", Always, library, j => BitcoinValueProperties.Read(library, j), Initial.fees)
      case Err(e) => Err(e)
      case Ok(fees) =>
        match BindReceivedTime(members, library, floor)
        case Err(e) => Err(e)
        case Ok(receivedTime) =>
          assert library == Newtonsoft && Get(members, "received_time").Some? && floor.ms >= UnixDateTimeConverter.GenesisFloor.ms ==>
                   receivedTime.ms != MinValue.ms by {
            if library == Newtonsoft && Get(members, "received_time").Some? && floor.ms >= UnixDateTimeConverter.GenesisFloor.ms {
              UnixDateTimeConverter.ReadNeverMinValue(UnixDateTimeConverter.Seconds, floor,
                UnixDateTimeConverter.TimestampOf(ValueOf(Get(members, "received_time").value)));
            }
          }
          match BindField(members, "relayed_by", Optional, library, readText, Initial.relayedBy)
          case Err(e) => Err(e)
          case Ok(relayedBy) => Ok(Block(summary, fees, receivedTime, relayedBy))
  }

  /**
   * A block JSON whose received_time is a Unix time in seconds from the
   * genesis block on reports that instant as its ReceivedTime when
   * Newtonsoft binds it, under the floor as written or the intended one.
   */
  lemma DecodedReceivedTimeReported(members: Members, floor: DateTime, seconds: int,
                                    readText: Json -> Result<Option<string>, Error>, summary: SimpleBlock)
    requires floor == UnixDateTimeConverter.GenesisFloor || floor == UnixDateTimeConverter.IntendedGenesisFloor
    requires Get(members, "received_time") == Some(JNum(seconds))
    requires UnixDateTimeConverter.GenesisBlockUnixSeconds <= seconds && InRange(seconds * 1000)
    requires BindDefaults(members, Newtonsoft, floor, readText, summary).Ok?
    ensures ReceivedTime(BindDefaults(members, Newtonsoft, floor, readText, summary).value) == DateTime(seconds * 1000, Utc)
  {
    assert Text.InLong(seconds) by {
      assert seconds * 1000 <= MaxMillis;
    }
  }
}
