# XRP streaming pipeline: normaliser and dashboard conversion

This project models the two pieces of deterministic logic in a small crypto-price
streaming pipeline. A producer polls a quote API for XRP and publishes each quote
on the `coins` topic. A consumer normalises each message into a flat record for a
PostgreSQL table. A dashboard reads the table back and shows prices in a chosen
currency.

- `consumer.dfy` (module `Consumer`) models `extract_coin_data`. The message is a
  deserialised JSON value (`Json`). Python's `value[key]` is `Get`: subscripting a
  non-object raises `TypeError`, a missing key raises `KeyError(key)`. The
  normaliser `ExtractCoinData` performs the lookups in the order Python evaluates
  them, so the error it reports is that of the first lookup that fails. On success
  it returns the four-key dictionary `coin`, `price_usd`, `volume_usd`, `updated`.
  An independent description of the same projection is the table `SourcePath`
  (record key to message path) together with path resolution `Resolve`. The
  producer's side is `QuoteMessage`: a message carrying the four read fields beside
  any other fields.
- `dashboard.dfy` (module `Dashboard`) models the rate constants, `convert_price`,
  the two column derivations and the `head()` view. Prices are exact reals
  (10.7 = 107/10, 11, 6.9 = 69/10). `Rate` is a table-driven reference for the
  chain of comparisons in `ConvertPrice`. The table is an `array<Row>` changed in
  place. `DeriveDisplayColumns` adds the converted `price` column (`ApplyConvert`
  is the `Series.apply`, `AssignPriceColumn` the column assignment) and then the
  constant `currency` column. It is proved equal to the row-by-row specification
  `DeriveAll`. `Shown` is the column selection followed by `head()`.
- `wrappers.dfy` (module `Wrappers`) holds `Option` and `Result`.

## Model

| member | source | states |
|---|---|---|
| Consumer.Get | src/consumer.py:28-33 | `value[key]` succeeds exactly when the one-step path `[key]` exists in the value, and then yields the value that path reaches; the exception raised otherwise is stated by `ExtractErrors` |
| Consumer.MakeRecord | src/consumer.py:29-34 | the dictionary literal has exactly one entry per record key of the source-path table: `coin`, `price_usd`, `volume_usd`, `updated` |
| Consumer.ExtractCoinData | src/consumer.py:27-34 | no contract of its own; specified by `ExtractSucceedsIffComplete`, `ExtractCopiesSourceFields`, `ExtractedFields`, `ExtractErrors`, `ExtraFieldsIgnored`, `ExtractReadsOnlySourcePaths`, `ExtractQuoteMessage` and `AcceptedIsQuoteMessage` |
| Consumer.ExtractSucceedsIffComplete | src/consumer.py:27-34 | the normaliser succeeds if and only if `name`, `quote.USD.price`, `quote.USD.volume_24h` and `last_updated` can all be reached in the message |
| Consumer.ExtractCopiesSourceFields | src/consumer.py:28-34 | on success the record has exactly the keys `coin`, `price_usd`, `volume_usd`, `updated`, and each holds, unchanged, the value found at its source path |
| Consumer.ExtractedFields | src/consumer.py:28-33 | on success `coin` is the message's `name`, `price_usd` and `volume_usd` are `quote.USD.price` and `quote.USD.volume_24h` with no scaling, `updated` is `last_updated`, and `symbol` is not carried over |
| Consumer.ExtractErrors | src/consumer.py:28-33 | the error raised is that of the first lookup that fails, in the order `quote`, `USD`, `name`, `price`, `volume_24h`, `last_updated`: `TypeError` when that lookup subscripts a non-object, `KeyError` naming the key when it is missing |
| Consumer.ExtraFieldsIgnored | src/consumer.py:29-34 | adding top-level fields other than `quote`, `name` and `last_updated` changes neither the record nor the error |
| Consumer.ExtractReadsOnlySourcePaths | src/consumer.py:27-34 | two messages that agree on the four source paths both succeed or both fail, and on success give the same record |
| Consumer.ExtractQuoteMessage | src/consumer.py:27-34 | normalising a published quote message, whatever other fields it carries at any level, gives back exactly its name, price, volume and update time |
| Consumer.AcceptedIsQuoteMessage | src/consumer.py:27-34 | every accepted message is such a quote message built from its record's four values and some other fields |
| Dashboard.Rate | src/dashboard.py:13-15 | every rate in the table is positive, and a code outside the table gets rate 1 |
| Dashboard.ConvertPrice | src/dashboard.py:30-37 | the chain of comparisons equals multiplying by the currency's rate from the table |
| Dashboard.ConvertKnownCurrencies | src/dashboard.py:31-36 | SEK multiplies by 107/10, NOK by 11, DKK by 69/10 |
| Dashboard.ConvertIdentity | src/dashboard.py:31-37 | USD, and every code other than SEK, NOK and DKK, returns the price unchanged |
| Dashboard.OnlyUsdIsIdentity | src/dashboard.py:27-37 | among the four offered currencies, a non-zero price is unchanged exactly when USD is chosen |
| Dashboard.ConvertLinear | src/dashboard.py:30-37 | conversion is linear in the price |
| Dashboard.ConvertMonotone | src/dashboard.py:30-37 | conversion preserves and reflects the order of prices, strict and non-strict, and the sign of a price |
| Dashboard.ConvertInvertible | src/dashboard.py:30-37 | dividing a converted price by the rate gives back the dollar price |
| Dashboard.DeriveRow | src/dashboard.py:40-41 | no contract of its own; one row's share of both column assignments, specified through `DeriveAllAt` and `DeriveAllSpec` |
| Dashboard.DeriveAll | src/dashboard.py:40-41 | no contract of its own; the row-by-row specification of both column assignments, specified by `DeriveAllAt`, `DeriveAllSpec` and `DeriveAllDerived` |
| Dashboard.DeriveAllAt | src/dashboard.py:40-41 | the derived table has as many rows as the table, and its row `k` is row `k` with both columns added |
| Dashboard.DeriveAllSpec | src/dashboard.py:40-41 | after derivation the rows keep their number and order and their `coin`, `price_usd`, `updated`, `timestamp`; `price` is the converted `price_usd`; `currency` is the chosen code |
| Dashboard.DeriveAllDerived | src/dashboard.py:40-41 | after derivation every row carries both added columns |
| Dashboard.ApplyConvert | src/dashboard.py:40 | applying the conversion to a column gives a column of the same length whose entry `i` is entry `i` converted |
| Dashboard.AssignPriceColumn | src/dashboard.py:40 | each row's `price` becomes the aligned entry of the new column, and nothing else in any row changes |
| Dashboard.AssignCurrencyColumn | src/dashboard.py:41 | each row's `currency` becomes the chosen code, and nothing else in any row changes |
| Dashboard.DeriveDisplayColumns | src/dashboard.py:40-41 | the table changed in place equals the row-by-row derivation of the old table |
| Dashboard.SelectColumns | src/dashboard.py:46 | no contract of its own; the column selection `df[[...]]`, specified together with `head()` by `ShownRows` |
| Dashboard.Head | src/dashboard.py:46 | no contract of its own; `head(n)`, specified by `HeadIsPrefix` |
| Dashboard.Shown | src/dashboard.py:46 | no contract of its own; the selection followed by `head()`, specified by `ShownRows` |
| Dashboard.HeadIsPrefix | src/dashboard.py:46 | `head(n)` keeps the first `min(n, rows)` rows in order |
| Dashboard.ShownRows | src/dashboard.py:40-46 | the displayed view holds at most five rows, exactly `min(5, rows)`, and view row `i` shows row `i`'s coin, its converted price, the chosen currency and its timestamps |
| Dashboard.Refresh | src/dashboard.py:40-46 | the script derives both columns in place and returns the shown view of the derived table |

## Left out

- The producer (`src/producer.py`): the HTTPS request, the Kafka producer and the endless loop with a 40-second sleep are network I/O and scheduling. Only the shape of the message it publishes is modelled, as `QuoteMessage`.
- `src/constants.py`: it only reads environment variables.
- The stream wiring of the consumer (application, topic subscription, `apply`/`update`/`sink`, the PostgreSQL sink and the printing of each record): library calls whose behaviour is not part of this model. In particular nothing drops malformed messages: the normaliser raises, as the code does, and what the stream library then does with the exception is not modelled.
- The database connection, the SQL query and the Streamlit widgets and rendering in the dashboard. The rows read from the table are the input array; the chosen currency is a parameter.
- Floating-point behaviour: prices are exact reals, so rounding of the rate multiplications, NaN for missing prices and the float versus int distinction of the rate 11 are not captured.
- Key order of the returned dictionary: the record is a map, so the insertion order `coin`, `price_usd`, `volume_usd`, `updated` is not captured. Duplicate keys in a JSON object are likewise not representable.
- Dashboard.SelectColumns: requires both derived columns to be present, which the script always ensures. The `KeyError` that column selection raises on a table lacking them is not modelled.
- Dashboard.Head: only non-negative row counts are modelled; the script uses the default of five.
- The type of the `updated` and `timestamp` columns: they are carried through as text and never inspected.
- Time-windowed percentage changes, resampling, retries, de-duplication and an ingestion timestamp assigned by the consumer do not occur in this code and are not modelled.
