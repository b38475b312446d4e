/**
 * The consumer's message normaliser: a quote payload, as the JSON deserialiser
 * delivers it, is projected onto a flat record with the four fields that the
 * PostgreSQL sink stores.
 */
module Consumer {
  import opened Wrappers

  /** A deserialised JSON value; objects map keys to values. */
  datatype Json =
    | JNull
    | JBool(b: bool)
    | JNum(n: real)
    | JStr(s: string)
    | JArr(items: seq<Json>)
    | JObj(fields: map<string, Json>)

  /**
   * What subscripting a value with a string key can raise: a `KeyError` when
   * an object lacks the key, a `TypeError` when the value is not an object
   * (a list, a string, a number, a boolean or null).
   */
  datatype LookupError = KeyError(key: string) | TypeError

  /** The flat record: the dictionary the normaliser returns. */
  type CoinRecord = map<string, Json>

  /** The top-level message keys the normaliser reads. */
  const MessageKeys: set<string> := {"quote", "name", "last_updated"}

  /** The value reached from `value` by following `path`, if every step exists. */
  function Resolve(value: Json, path: seq<string>): Option<Json>
    decreases path
  {
    if path == [] then Some(value)
    else match value
      case JObj(fields) =>
        if path[0] in fields then Resolve(fields[path[0]], path[1..]) else None
      case _ => None
  }

  /**
   * `value[key]` on a deserialised value: it yields exactly what following the
   * one-step path `[key]` reaches, and raises when that path does not exist.
   */
  function Get(value: Json, key: string): (r: Result<Json, LookupError>)
    ensures r.Ok? <==> Resolve(value, [key]).Some?
    ensures r.Ok? ==> Resolve(value, [key]) == Some(r.value)
  {
    match value
    case JObj(fields) => if key in fields then Ok(fields[key]) else Err(KeyError(key))
    case _ => Err(TypeError)
  }

  /** The dictionary literal built at the end of the normaliser: one entry per source path. */
  function MakeRecord(coin: Json, priceUsd: Json, volumeUsd: Json, updated: Json): (r: CoinRecord)
    ensures r.Keys == SourcePath.Keys
  {
    map["coin" := coin, "price_usd" := priceUsd, "volume_usd" := volumeUsd, "updated" := updated]
  }

  /**
   * The normaliser. The lookups happen in the order Python evaluates them:
   * the USD quote first, then the four dictionary entries from top to bottom,
   * so the error raised is that of the first lookup that fails.
   */
  function ExtractCoinData(message: Json): Result<CoinRecord, LookupError>
  {
    var quote :- Get(message, "quote");
    var latestQuote :- Get(quote, "USD");
    var coin :- Get(message, "name");
    var priceUsd :- Get(latestQuote, "price");
    var volumeUsd :- Get(latestQuote, "volume_24h");
    var updated :- Get(message, "last_updated");
    Ok(MakeRecord(coin, priceUsd, volumeUsd, updated))
  }

  // ---------------------------------------------------------------------------
  // An independent description of what the normaliser reads: key paths.
  // ---------------------------------------------------------------------------

  /** For each record key, the message path its value is copied from. */
  const SourcePath: map<string, seq<string>> := map[
    "coin" := ["name"],
    "price_usd" := ["quote", "USD", "price"],
    "volume_usd" := ["quote", "USD", "volume_24h"],
    "updated" := ["last_updated"]
  ]

  /** The keys of a record, and nothing else. */
  const RecordKeys: set<string> := SourcePath.Keys

  /** A message from which every record field can be read. */
  predicate Complete(message: Json)
  {
    forall k :: k in SourcePath ==> Resolve(message, SourcePath[k]).Some?
  }

  /** `Complete`, one source path at a time. */
  lemma CompleteByPath(message: Json)
    ensures Complete(message) <==>
      && Resolve(message, ["name"]).Some?
      && Resolve(message, ["quote", "USD", "price"]).Some?
      && Resolve(message, ["quote", "USD", "volume_24h"]).Some?
      && Resolve(message, ["last_updated"]).Some?
  {
    assert SourcePath.Keys == {"coin", "price_usd", "volume_usd", "updated"};
  }

  /** Following a path of length one, two or three, step by step. */
  lemma ResolveSteps(value: Json, a: string, b: string, c: string)
    ensures Resolve(value, [a]) == (if value.JObj? && a in value.fields then Some(value.fields[a]) else None)
    ensures Resolve(value, [a, b]) ==
      (if value.JObj? && a in value.fields then Resolve(value.fields[a], [b]) else None)
    ensures Resolve(value, [a, b, c]) ==
      (if value.JObj? && a in value.fields then Resolve(value.fields[a], [b, c]) else None)
  {
  }

  /** The normaliser succeeds exactly on the messages where every source path exists. */
  lemma ExtractSucceedsIffComplete(message: Json)
    ensures ExtractCoinData(message).Ok? <==> Complete(message)
  {
    CompleteByPath(message);
    ResolveSteps(message, "quote", "USD", "price");
    ResolveSteps(message, "quote", "USD", "volume_24h");
    ResolveSteps(message, "name", "", "");
    ResolveSteps(message, "last_updated", "", "");
    if message.JObj? && "quote" in message.fields {
      var quote := message.fields["quote"];
      ResolveSteps(quote, "USD", "price", "");
      ResolveSteps(quote, "USD", "volume_24h", "");
      if quote.JObj? && "USD" in quote.fields {
        ResolveSteps(quote.fields["USD"], "price", "", "");
        ResolveSteps(quote.fields["USD"], "volume_24h", "", "");
      }
    }
  }

  /**
   * On success the record has exactly the four record keys, and each value
   * is the one found at its source path, copied unchanged.
   */
  lemma ExtractCopiesSourceFields(message: Json)
    requires ExtractCoinData(message).Ok?
    ensures ExtractCoinData(message).value.Keys == RecordKeys
    ensures forall k :: k in SourcePath ==>
      Resolve(message, SourcePath[k]) == Some(ExtractCoinData(message).value[k])
  {
  }

  /** The record fields, spelled out as the consumer documents them. */
  lemma ExtractedFields(message: Json)
    requires ExtractCoinData(message).Ok?
    ensures var r := ExtractCoinData(message).value;
      && r["coin"] == message.fields["name"]
      && r["price_usd"] == message.fields["quote"].fields["USD"].fields["price"]
      && r["volume_usd"] == message.fields["quote"].fields["USD"].fields["volume_24h"]
      && r["updated"] == message.fields["last_updated"]
      && "symbol" !in r
  {
  }

  /**
   * Which error is raised: the first failing lookup in evaluation order,
   * a `TypeError` for subscripting a non-object, a `KeyError` naming the
   * missing key otherwise.
   */
  lemma ExtractErrors(message: Json)
    ensures !message.JObj? ==> ExtractCoinData(message) == Err(TypeError)
    ensures message.JObj? && "quote" !in message.fields ==>
      ExtractCoinData(message) == Err(KeyError("quote"))
    ensures message.JObj? && "quote" in message.fields ==>
      var quote := message.fields["quote"];
      && (!quote.JObj? ==> ExtractCoinData(message) == Err(TypeError))
      && (quote.JObj? && "USD" !in quote.fields ==> ExtractCoinData(message) == Err(KeyError("USD")))
      && (quote.JObj? && "USD" in quote.fields ==>
            var usd := quote.fields["USD"];
            && ("name" !in message.fields ==> ExtractCoinData(message) == Err(KeyError("name")))
            && ("name" in message.fields && !usd.JObj? ==> ExtractCoinData(message) == Err(TypeError))
            && ("name" in message.fields && usd.JObj? && "price" !in usd.fields ==>
                  ExtractCoinData(message) == Err(KeyError("price")))
            && ("name" in message.fields && usd.JObj? && "price" in usd.fields &&
                "volume_24h" !in usd.fields ==>
                  ExtractCoinData(message) == Err(KeyError("volume_24h")))
            && ("name" in message.fields && usd.JObj? && "price" in usd.fields &&
                "volume_24h" in usd.fields && "last_updated" !in message.fields ==>
                  ExtractCoinData(message) == Err(KeyError("last_updated"))))
  {
  }

  /**
   * Top-level fields the normaliser does not read (such as `symbol`) make no
   * difference to its outcome, error or record.
   */
  lemma ExtraFieldsIgnored(fields: map<string, Json>, extra: map<string, Json>)
    requires extra.Keys !! MessageKeys
    ensures ExtractCoinData(JObj(fields + extra)) == ExtractCoinData(JObj(fields))
  {
  }

  /**
   * Two messages that agree on every source path yield the same record: the
   * normaliser reads nothing else.
   */
  lemma ExtractReadsOnlySourcePaths(m1: Json, m2: Json)
    requires forall k :: k in SourcePath ==> Resolve(m1, SourcePath[k]) == Resolve(m2, SourcePath[k])
    ensures ExtractCoinData(m1).Ok? <==> ExtractCoinData(m2).Ok?
    ensures ExtractCoinData(m1).Ok? ==> ExtractCoinData(m1) == ExtractCoinData(m2)
  {
    ExtractSucceedsIffComplete(m1);
    ExtractSucceedsIffComplete(m2);
    if ExtractCoinData(m1).Ok? {
      ExtractCopiesSourceFields(m1);
      ExtractCopiesSourceFields(m2);
      var r1, r2 := ExtractCoinData(m1).value, ExtractCoinData(m2).value;
      assert forall k :: k in RecordKeys ==> r1[k] == r2[k];
      assert r1.Keys == r2.Keys;
      assert r1 == r2;
    }
  }

  // ---------------------------------------------------------------------------
  // The producer's side: the message it publishes, and the round trip.
  // ---------------------------------------------------------------------------

  /**
   * A quote message as the producer publishes it: `name`, `last_updated` and
   * `quote.USD.{price, volume_24h}`, beside any other fields at each level
   * (`symbol`, `id`, other quote currencies, `percent_change_1h`, ...).
   */
  function QuoteMessage(name: Json, price: Json, volume: Json, lastUpdated: Json,
                        others: map<string, Json>, otherQuotes: map<string, Json>,
                        otherUsd: map<string, Json>): Json
  {
    var usd := otherUsd["price" := price]["volume_24h" := volume];
    var quote := otherQuotes["USD" := JObj(usd)];
    JObj(others["quote" := JObj(quote)]["name" := name]["last_updated" := lastUpdated])
  }

  /** Normalising a published quote message gives back exactly its four fields. */
  lemma ExtractQuoteMessage(name: Json, price: Json, volume: Json, lastUpdated: Json,
                            others: map<string, Json>, otherQuotes: map<string, Json>,
                            otherUsd: map<string, Json>)
    ensures ExtractCoinData(QuoteMessage(name, price, volume, lastUpdated, others, otherQuotes, otherUsd))
      == Ok(MakeRecord(name, price, volume, lastUpdated))
  {
  }

  /** Every message the normaliser accepts is a published quote message of its record's fields. */
  lemma AcceptedIsQuoteMessage(message: Json)
    requires ExtractCoinData(message).Ok?
    ensures var r := ExtractCoinData(message).value;
      exists others, otherQuotes, otherUsd ::
        message == QuoteMessage(r["coin"], r["price_usd"], r["volume_usd"], r["updated"],
                                others, otherQuotes, otherUsd)
  {
    var r := ExtractCoinData(message).value;
    var fields := message.fields;
    var quote := fields["quote"].fields;
    var usd := quote["USD"].fields;
    var others := fields - {"quote", "name", "last_updated"};
    var otherQuotes := quote - {"USD"};
    var otherUsd := usd - {"price", "volume_24h"};
    assert otherUsd["price" := r["price_usd"]]["volume_24h" := r["volume_usd"]] == usd;
    assert otherQuotes["USD" := JObj(usd)] == quote;
    assert others["quote" := JObj(quote)]["name" := r["coin"]]["last_updated" := r["updated"]] == fields;
    assert message == QuoteMessage(r["coin"], r["price_usd"], r["volume_usd"], r["updated"],
                                   others, otherQuotes, otherUsd);
  }
}
