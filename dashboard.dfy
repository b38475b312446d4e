/**
 * The dashboard's computation: the stored series is read as a table, a price
 * column converted to the chosen display currency and a constant currency
 * column are added to every row, and the first rows are shown.
 * Prices are exact reals: 10.7 stands for 107/10, 6.9 for 69/10.
 */
module Dashboard {
  import opened Wrappers

  /** Exchange rates from US dollars. */
  const UsdToSek: real := 10.7
  const UsdToNok: real := 11.0
  const UsdToDkk: real := 6.9

  /** The currencies offered by the currency drop-down, in its order. */
  const CurrencyChoices: seq<string> := ["USD", "SEK", "NOK", "DKK"]

  /** How many rows the displayed view holds at most. */
  const HeadRows: nat := 5

  /** The rate table: the multiplier from US dollars for each known currency. */
  const Rates: map<string, real> := map["USD" := 1.0, "SEK" := UsdToSek, "NOK" := UsdToNok, "DKK" := UsdToDkk]

  /** The multiplier for a currency code; a code outside the table is treated as US dollars. */
  function Rate(currency: string): (rate: real)
    ensures rate > 0.0
    ensures currency !in Rates ==> rate == 1.0
  {
    if currency in Rates then Rates[currency] else 1.0
  }

  /** Converts a US-dollar price into `currency`, by a chain of comparisons. */
  function ConvertPrice(priceUsd: real, currency: string): (price: real)
    ensures price == priceUsd * Rate(currency)
  {
    if currency == "SEK" then priceUsd * UsdToSek
    else if currency == "NOK" then priceUsd * UsdToNok
    else if currency == "DKK" then priceUsd * UsdToDkk
    else priceUsd
  }

  /** The conversion for each of the three foreign currencies. */
  lemma ConvertKnownCurrencies(x: real)
    ensures ConvertPrice(x, "SEK") == x * 107.0 / 10.0
    ensures ConvertPrice(x, "NOK") == x * 11.0
    ensures ConvertPrice(x, "DKK") == x * 69.0 / 10.0
  {
  }

  /** US dollars, and every code that is not SEK, NOK or DKK, leave the price unchanged. */
  lemma ConvertIdentity(x: real, currency: string)
    ensures currency !in {"SEK", "NOK", "DKK"} ==> ConvertPrice(x, currency) == x
    ensures ConvertPrice(x, "USD") == x
  {
  }

  /** Among the offered currencies, only US dollars leave a non-zero price unchanged. */
  lemma OnlyUsdIsIdentity(x: real, currency: string)
    requires currency in CurrencyChoices
    requires x != 0.0
    ensures ConvertPrice(x, currency) == x <==> currency == "USD"
  {
  }

  /** Conversion is linear in the price. */
  lemma ConvertLinear(a: real, x: real, b: real, y: real, currency: string)
    ensures ConvertPrice(a * x + b * y, currency) ==
            a * ConvertPrice(x, currency) + b * ConvertPrice(y, currency)
  {
  }

  /** Conversion preserves the order of prices, in both directions, and their sign. */
  lemma ConvertMonotone(x: real, y: real, currency: string)
    ensures x <= y <==> ConvertPrice(x, currency) <= ConvertPrice(y, currency)
    ensures x < y <==> ConvertPrice(x, currency) < ConvertPrice(y, currency)
    ensures x >= 0.0 <==> ConvertPrice(x, currency) >= 0.0
  {
  }

  /** Conversion is undone by dividing by the currency's rate. */
  lemma ConvertInvertible(x: real, currency: string)
    ensures ConvertPrice(x, currency) / Rate(currency) == x
  {
  }

  // ---------------------------------------------------------------------------
  // The table.
  // ---------------------------------------------------------------------------

  /**
   * One row of the table read from the store: the queried columns, and the
   * two derived columns, `None` until they have been added.
   */
  datatype Row = Row(coin: string, priceUsd: real, updated: string, timestamp: string,
                     price: Option<real>, currency: Option<string>)

  /** A row of the displayed view: the selected columns, in their displayed order. */
  datatype ViewRow = ViewRow(coin: string, price: real, currency: string, updated: string, timestamp: string)

  /** A row with both derived columns added. */
  function DeriveRow(row: Row, currency: string): Row
  {
    row.(price := Some(ConvertPrice(row.priceUsd, currency)), currency := Some(currency))
  }

  /** The whole table with both derived columns added, row by row. */
  function DeriveAll(rows: seq<Row>, currency: string): seq<Row>
  {
    if rows == [] then [] else [DeriveRow(rows[0], currency)] + DeriveAll(rows[1..], currency)
  }

  /** Row `k` of the derived table is row `k` of the table, derived. */
  lemma {:induction false} DeriveAllAt(rows: seq<Row>, currency: string, k: nat)
    requires k < |rows|
    ensures |DeriveAll(rows, currency)| == |rows|
    ensures DeriveAll(rows, currency)[k] == DeriveRow(rows[k], currency)
  {
    if k > 0 {
      DeriveAllAt(rows[1..], currency, k - 1);
    } else if |rows| > 1 {
      DeriveAllAt(rows[1..], currency, 0);
    }
  }

  /**
   * The derived table has the same rows in the same order: the queried
   * columns are unchanged, `price` is the converted `price_usd`, and
   * `currency` is the chosen code.
   */
  lemma {:induction false} DeriveAllSpec(rows: seq<Row>, currency: string)
    ensures |DeriveAll(rows, currency)| == |rows|
    ensures forall k :: 0 <= k < |rows| ==>
      var d := DeriveAll(rows, currency)[k];
      && d.coin == rows[k].coin && d.priceUsd == rows[k].priceUsd
      && d.updated == rows[k].updated && d.timestamp == rows[k].timestamp
      && d.price == Some(ConvertPrice(rows[k].priceUsd, currency))
      && d.currency == Some(currency)
  {
    if rows != [] {
      DeriveAllAt(rows, currency, 0);
    }
    forall k | 0 <= k < |rows|
      ensures DeriveAll(rows, currency)[k] == DeriveRow(rows[k], currency)
    {
      DeriveAllAt(rows, currency, k);
    }
  }

  /** `Series.apply` of the conversion to the `price_usd` column. */
  method ApplyConvert(column: seq<real>, currency: string) returns (converted: seq<real>)
    ensures |converted| == |column|
    ensures forall i :: 0 <= i < |column| ==> converted[i] == ConvertPrice(column[i], currency)
  {
    converted := [];
    var i := 0;
    while i < |column|
      invariant 0 <= i <= |column|
      invariant |converted| == i
      invariant forall j :: 0 <= j < i ==> converted[j] == ConvertPrice(column[j], currency)
    {
      converted := converted + [ConvertPrice(column[i], currency)];
      i := i + 1;
    }
  }

  /** Assigns a column of prices, aligned row by row, as the table's `price` column. */
  method AssignPriceColumn(rows: array<Row>, column: seq<real>)
    requires |column| == rows.Length
    modifies rows
    ensures forall i :: 0 <= i < rows.Length ==> rows[i] == old(rows[i]).(price := Some(column[i]))
  {
    var i := 0;
    while i < rows.Length
      invariant 0 <= i <= rows.Length
      invariant forall j :: 0 <= j < i ==> rows[j] == old(rows[j]).(price := Some(column[j]))
      invariant forall j :: i <= j < rows.Length ==> rows[j] == old(rows[j])
    {
      rows[i] := rows[i].(price := Some(column[i]));
      i := i + 1;
    }
  }

  /** Assigns one currency code to the `currency` column of every row. */
  method AssignCurrencyColumn(rows: array<Row>, currency: string)
    modifies rows
    ensures forall i :: 0 <= i < rows.Length ==> rows[i] == old(rows[i]).(currency := Some(currency))
  {
    var i := 0;
    while i < rows.Length
      invariant 0 <= i <= rows.Length
      invariant forall j :: 0 <= j < i ==> rows[j] == old(rows[j]).(currency := Some(currency))
      invariant forall j :: i <= j < rows.Length ==> rows[j] == old(rows[j])
    {
      rows[i] := rows[i].(currency := Some(currency));
      i := i + 1;
    }
  }

  /**
   * Adds the converted `price` column and the constant `currency` column to
   * the table in place.
   */
  method DeriveDisplayColumns(rows: array<Row>, currency: string)
    modifies rows
    ensures rows[..] == DeriveAll(old(rows[..]), currency)
  {
    ghost var original := rows[..];
    var priceUsd := seq(rows.Length, i requires 0 <= i < rows.Length reads rows => rows[i].priceUsd);
    var converted := ApplyConvert(priceUsd, currency);
    AssignPriceColumn(rows, converted);
    AssignCurrencyColumn(rows, currency);
    DeriveAllSpec(original, currency);
    forall k | 0 <= k < rows.Length
      ensures rows[..][k] == DeriveAll(original, currency)[k]
    {
      DeriveAllAt(original, currency, k);
    }
  }

  // ---------------------------------------------------------------------------
  // The displayed view.
  // ---------------------------------------------------------------------------

  /** Every row carries both derived columns. */
  predicate Derived(rows: seq<Row>)
  {
    forall i :: 0 <= i < |rows| ==> rows[i].price.Some? && rows[i].currency.Some?
  }

  /** Selects the displayed columns `coin, price, currency, updated, timestamp` of every row. */
  function SelectColumns(rows: seq<Row>): seq<ViewRow>
    requires Derived(rows)
  {
    seq(|rows|, i requires 0 <= i < |rows| =>
      ViewRow(rows[i].coin, rows[i].price.value, rows[i].currency.value, rows[i].updated, rows[i].timestamp))
  }

  /** `head(n)` for a non-negative `n`: the first `n` rows, or all of them when there are fewer. */
  function Head<T>(rows: seq<T>, n: nat): seq<T>
  {
    if n < |rows| then rows[..n] else rows
  }

  /** The view shown: the selected columns of the first `HeadRows` rows. */
  function Shown(rows: seq<Row>): seq<ViewRow>
    requires Derived(rows)
  {
    Head(SelectColumns(rows), HeadRows)
  }

  /** `head` keeps at most `n` rows, and they are the first rows, in order. */
  lemma HeadIsPrefix<T>(rows: seq<T>, n: nat)
    ensures |Head(rows, n)| == if n < |rows| then n else |rows|
    ensures Head(rows, n) <= rows
  {
  }

  /** A derived table carries both derived columns. */
  lemma DeriveAllDerived(rows: seq<Row>, currency: string)
    ensures Derived(DeriveAll(rows, currency))
  {
  }

  /**
   * From the column derivation to the displayed view: it has at most five rows, they are the
   * first rows of the stored table in order, and each shows that row's
   * coin, converted price, the chosen currency and its timestamps.
   */
  lemma ShownRows(rows: seq<Row>, currency: string)
    ensures Derived(DeriveAll(rows, currency))
    ensures var view := Shown(DeriveAll(rows, currency));
      && |view| <= HeadRows
      && |view| == (if |rows| < HeadRows then |rows| else HeadRows)
      && forall i :: 0 <= i < |view| ==>
           view[i] == ViewRow(rows[i].coin, ConvertPrice(rows[i].priceUsd, currency), currency,
                              rows[i].updated, rows[i].timestamp)
  {
  }

  /**
   * The dashboard script from the currency choice on: derives the two columns
   * in place and returns the view it shows.
   */
  method Refresh(rows: array<Row>, currency: string) returns (view: seq<ViewRow>)
    modifies rows
    ensures rows[..] == DeriveAll(old(rows[..]), currency)
    ensures Derived(rows[..]) && view == Shown(rows[..])
  {
    DeriveDisplayColumns(rows, currency);
    DeriveAllDerived(old(rows[..]), currency);
    view := Head(SelectColumns(rows[..]), HeadRows);
  }
}
