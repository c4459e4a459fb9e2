/** `get_sales_by_county`: reads the rows in order and appends each sale to
    the list of its upper-cased county. A price that does not parse skips the
    row; a date that does not parse aborts the whole load. The two parses are
    library code and are passed in as functions. */
module Loader {

  import opened Wrappers
  import opened Basics
  import opened Text
  import opened Sales

  /** The `defaultdict(list)` the loader fills: `order` lists the counties in
      the order they were first inserted (the order a Python dict iterates
      in) and `groups` maps each to its sales. */
  datatype CountyTable = CountyTable(order: seq<string>, groups: map<string, seq<Sale>>)
  {
    ghost predicate Valid()
    {
      Distinct(order) && (forall k :: k in groups <==> k in order)
    }
  }

  /** The `ValueError` of `datetime.strptime`, which nothing catches. */
  datatype LoadError = BadDate(text: string)

  type PriceParser = string -> Option<Cents>

  type DateParser = string -> Option<Date>

  /** `counties[county].append(sale)` on a `defaultdict(list)`. */
  function Append(t: CountyTable, county: string, sale: Sale): (r: CountyTable)
    requires t.Valid()
    ensures r.Valid()
    ensures r.order == if county in t.groups then t.order else t.order + [county]
    ensures r.groups.Keys == t.groups.Keys + {county}
    ensures r.groups[county] == (if county in t.groups then t.groups[county] else []) + [sale]
    ensures forall k :: k in t.groups && k != county ==> r.groups[k] == t.groups[k]
  {
    if county in t.groups then CountyTable(t.order, t.groups[county := t.groups[county] + [sale]])
    else CountyTable(t.order + [county], t.groups[county := [sale]])
  }

  /** One iteration of the loader's loop. */
  function Step(t: CountyTable, row: Row, parsePrice: PriceParser, parseDate: DateParser)
    : Result<CountyTable, LoadError>
    requires t.Valid()
  {
    match parsePrice(row.price)
    case None => Ok(t)
    case Some(price) =>
      match parseDate(row.date)
      case None => Err(BadDate(row.date))
      case Some(date) => Ok(Append(t, Upper(row.county), Sale(date, row.item, price)))
  }

  /** The loader's result on `rows`, one row at a time from the first. */
  function Load(rows: seq<Row>, parsePrice: PriceParser, parseDate: DateParser)
    : (r: Result<CountyTable, LoadError>)
    ensures r.Ok? ==> r.value.Valid()
  {
    if rows == [] then Ok(CountyTable([], map[]))
    else
      match Load(rows[..|rows| - 1], parsePrice, parseDate)
      case Err(e) => Err(e)
      case Ok(t) => Step(t, rows[|rows| - 1], parsePrice, parseDate)
  }

  /** The loop of `get_sales_by_county`, returning the table instead of a
      `defaultdict`, or the error that escapes it. */
  method GetSalesByCounty(rows: seq<Row>, parsePrice: PriceParser, parseDate: DateParser)
    returns (r: Result<CountyTable, LoadError>)
    ensures r == Load(rows, parsePrice, parseDate)
  {
    var order: seq<string> := [];
    var groups: map<string, seq<Sale>> := map[];
    for i := 0 to |rows|
      invariant Load(rows[..i], parsePrice, parseDate) == Ok(CountyTable(order, groups))
    {
      ghost var t := CountyTable(order, groups);
      assert Load(rows[..i + 1], parsePrice, parseDate) == Step(t, rows[i], parsePrice, parseDate) by {
        assert rows[..i + 1][..i] == rows[..i];
      }
      var row := rows[i];
      var county := Upper(row.county);
      var price := parsePrice(row.price);
      if price.None? {
        continue;
      }
      var date := parseDate(row.date);
      if date.None? {
        LoadAbortsAfter(rows, i + 1, parsePrice, parseDate);
        return Err(BadDate(row.date));
      }
      var sale := Sale(date.value, row.item, price.value);
      if county in groups {
        groups := groups[county := groups[county] + [sale]];
      } else {
        order := order + [county];
        groups := groups[county := [sale]];
      }
    }
    assert rows[..|rows|] == rows;
    r := Ok(CountyTable(order, groups));
  }

  /** Once a prefix of the rows has failed, the whole load fails with the
      same error: nothing after the bad date is read. */
  lemma {:induction false} LoadAbortsAfter(rows: seq<Row>, n: nat, parsePrice: PriceParser, parseDate: DateParser)
    requires n <= |rows| && Load(rows[..n], parsePrice, parseDate).Err?
    ensures Load(rows, parsePrice, parseDate) == Load(rows[..n], parsePrice, parseDate)
    decreases |rows| - n
  {
    if n < |rows| {
      var m := |rows| - 1;
      assert rows[..m][..n] == rows[..n];
      LoadAbortsAfter(rows[..m], n, parsePrice, parseDate);
    } else {
      assert rows[..n] == rows;
    }
  }

  /** A row that stops the load: its price parses, so the date is parsed
      next, and the date does not. */
  predicate BadDateRow(row: Row, parsePrice: PriceParser, parseDate: DateParser)
  {
    parsePrice(row.price).Some? && parseDate(row.date).None?
  }

  /** The load succeeds exactly when no row has a parsed price and an
      unparsable date; a bad price alone never stops it. */
  lemma {:induction false} LoadOkIffNoBadDate(rows: seq<Row>, parsePrice: PriceParser, parseDate: DateParser)
    ensures Load(rows, parsePrice, parseDate).Ok?
        <==> forall i :: 0 <= i < |rows| ==> !BadDateRow(rows[i], parsePrice, parseDate)
  {
    if rows != [] {
      var m := |rows| - 1;
      LoadOkIffNoBadDate(rows[..m], parsePrice, parseDate);
      assert forall i :: 0 <= i < m ==> rows[..m][i] == rows[i];
    }
  }

  /** The load fails with the date of the first row whose price parses and
      whose date does not. */
  lemma LoadFailsAtFirstBadDate(rows: seq<Row>, i: nat, parsePrice: PriceParser, parseDate: DateParser)
    requires i < |rows| && BadDateRow(rows[i], parsePrice, parseDate)
    requires forall j :: 0 <= j < i ==> !BadDateRow(rows[j], parsePrice, parseDate)
    ensures Load(rows, parsePrice, parseDate) == Err(BadDate(rows[i].date))
  {
    LoadOkIffNoBadDate(rows[..i], parsePrice, parseDate);
    assert rows[..i + 1][..i] == rows[..i];
    LoadAbortsAfter(rows, i + 1, parsePrice, parseDate);
  }

  /** The sale a row contributes when both of its parses succeed. */
  function SaleOf(row: Row, parsePrice: PriceParser, parseDate: DateParser): Option<Sale>
  {
    match (parsePrice(row.price), parseDate(row.date))
    case (Some(price), Some(date)) => Some(Sale(date, row.item, price))
    case _ => None
  }

  /** Reference definition of one county's group: the sales of the rows
      whose upper-cased county is `county`, in row order. */
  function SalesFor(rows: seq<Row>, county: string, parsePrice: PriceParser, parseDate: DateParser)
    : seq<Sale>
  {
    if rows == [] then []
    else
      var row := rows[|rows| - 1];
      var sale := SaleOf(row, parsePrice, parseDate);
      SalesFor(rows[..|rows| - 1], county, parsePrice, parseDate)
        + (if sale.Some? && Upper(row.county) == county then [sale.value] else [])
  }

  /** A successful load holds, under each county, exactly the sales of that
      county's rows whose price parsed, in input order; it has a key for a
      county exactly when that county has such a row. */
  lemma {:induction false} LoadGroups(rows: seq<Row>, parsePrice: PriceParser, parseDate: DateParser)
    requires Load(rows, parsePrice, parseDate).Ok?
    ensures var t := Load(rows, parsePrice, parseDate).value;
      forall k :: (k in t.groups <==> SalesFor(rows, k, parsePrice, parseDate) != []) &&
                  (k in t.groups ==> t.groups[k] == SalesFor(rows, k, parsePrice, parseDate))
  {
    if rows != [] {
      var m := |rows| - 1;
      LoadGroups(rows[..m], parsePrice, parseDate);
    }
  }

  /** Every key of a successful load is upper case. */
  lemma {:induction false} LoadKeysUpper(rows: seq<Row>, parsePrice: PriceParser, parseDate: DateParser)
    requires Load(rows, parsePrice, parseDate).Ok?
    ensures forall k :: k in Load(rows, parsePrice, parseDate).value.groups ==> IsUpperText(k)
  {
    if rows != [] {
      LoadKeysUpper(rows[..|rows| - 1], parsePrice, parseDate);
    }
  }

  /** Reference definition of the table's iteration order: the upper-cased
      counties of the rows whose price parses, each at its first appearance. */
  function FirstSeen(rows: seq<Row>, parsePrice: PriceParser): (r: seq<string>)
  {
    if rows == [] then []
    else
      var seen := FirstSeen(rows[..|rows| - 1], parsePrice);
      var row := rows[|rows| - 1];
      var county := Upper(row.county);
      if parsePrice(row.price).Some? && county !in seen then seen + [county] else seen
  }

  /** A successful load iterates its counties in the order their first
      price-parsed row appears; this is the order `get_average_sale` walks
      and the order ties keep in the ranking. */
  lemma {:induction false} LoadOrder(rows: seq<Row>, parsePrice: PriceParser, parseDate: DateParser)
    requires Load(rows, parsePrice, parseDate).Ok?
    ensures Load(rows, parsePrice, parseDate).value.order == FirstSeen(rows, parsePrice)
  {
    if rows != [] {
      LoadOrder(rows[..|rows| - 1], parsePrice, parseDate);
    }
  }

  /** The number of sales held under the counties of `order`. */
  function SaleCount(order: seq<string>, groups: map<string, seq<Sale>>): nat
    requires forall k :: k in order ==> k in groups
  {
    if order == [] then 0
    else SaleCount(order[..|order| - 1], groups) + |groups[order[|order| - 1]]|
  }

  /** The number of rows whose price parses. */
  function PricedRows(rows: seq<Row>, parsePrice: PriceParser): nat
  {
    if rows == [] then 0
    else
      var last := if parsePrice(rows[|rows| - 1].price).Some? then 1 else 0;
      PricedRows(rows[..|rows| - 1], parsePrice) + last
  }

  lemma {:induction false} SaleCountIgnores(order: seq<string>, groups: map<string, seq<Sale>>, county: string, v: seq<Sale>)
    requires forall k :: k in order ==> k in groups
    requires county !in order
    ensures SaleCount(order, groups[county := v]) == SaleCount(order, groups)
  {
    if order != [] {
      SaleCountIgnores(order[..|order| - 1], groups, county, v);
    }
  }

  lemma {:induction false} SaleCountGrows(order: seq<string>, groups: map<string, seq<Sale>>, county: string, sale: Sale)
    requires forall k :: k in order ==> k in groups
    requires Distinct(order)
    requires county in order
    ensures SaleCount(order, groups[county := groups[county] + [sale]]) == SaleCount(order, groups) + 1
  {
    var m := |order| - 1;
    var pre := order[..m];
    if order[m] == county {
      assert county !in pre;
      SaleCountIgnores(pre, groups, county, groups[county] + [sale]);
    } else {
      assert county in pre;
      SaleCountGrows(pre, groups, county, sale);
    }
  }

  /** Appending a sale adds one to the number of sales held. */
  lemma AppendCounts(t: CountyTable, county: string, sale: Sale)
    requires t.Valid()
    ensures SaleCount(Append(t, county, sale).order, Append(t, county, sale).groups)
         == SaleCount(t.order, t.groups) + 1
  {
    if county in t.groups {
      assert county in t.order;
      SaleCountGrows(t.order, t.groups, county, sale);
    } else {
      var groups := t.groups[county := [sale]];
      var order := t.order + [county];
      assert order[..|order| - 1] == t.order;
      assert SaleCount(order, groups) == SaleCount(t.order, groups) + 1;
      SaleCountIgnores(t.order, t.groups, county, [sale]);
    }
  }

  /** A successful load holds one sale per row whose price parsed: rows
      with a bad price are left out and the rest are all kept. */
  lemma {:induction false} LoadCountsPricedRows(rows: seq<Row>, parsePrice: PriceParser, parseDate: DateParser)
    requires Load(rows, parsePrice, parseDate).Ok?
    ensures var t := Load(rows, parsePrice, parseDate).value;
      SaleCount(t.order, t.groups) == PricedRows(rows, parsePrice)
  {
    if rows != [] {
      var m := |rows| - 1;
      LoadCountsPricedRows(rows[..m], parsePrice, parseDate);
      var t := Load(rows[..m], parsePrice, parseDate).value;
      var row := rows[m];
      if parsePrice(row.price).Some? {
        var sale := Sale(parseDate(row.date).value, row.item, parsePrice(row.price).value);
        AppendCounts(t, Upper(row.county), sale);
      }
    }
  }
}
