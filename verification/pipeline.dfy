/** What `main` composes: load, aggregate, rank. The facts here follow a
    county from the rows to the report. */
module Pipeline {

  import opened Text
  import opened Sales
  import opened Loader
  import opened Aggregate
  import opened Report

  /** Every county the report lists is upper case, has at least `MinSales`
      sales, and is shown with exactly the sales of its rows whose price
      parsed, in input order, and with their mean and total. */
  lemma ListedCountiesComeFromRows(rows: seq<Row>, parsePrice: PriceParser, parseDate: DateParser)
    requires Load(rows, parsePrice, parseDate).Ok?
    ensures var t := Load(rows, parsePrice, parseDate).value;
      var ranked := TopCounties(GetAverageSale(t));
      forall i :: 0 <= i < |ranked| ==>
        var e := ranked[i];
        IsUpperText(e.key.county) &&
        e.sales == SalesFor(rows, e.key.county, parsePrice, parseDate) &&
        |e.sales| >= MinSales &&
        e.key.total == Total(e.sales) && e.key.mean == Mean(e.sales)
  {
    var t := Load(rows, parsePrice, parseDate).value;
    var entries := GetAverageSale(t);
    var ranked := TopCounties(entries);
    RankedCounties(entries);
    LoadGroups(rows, parsePrice, parseDate);
    LoadKeysUpper(rows, parsePrice, parseDate);
    forall i | 0 <= i < |ranked|
      ensures IsUpperText(ranked[i].key.county)
      ensures ranked[i].sales == SalesFor(rows, ranked[i].key.county, parsePrice, parseDate)
      ensures |ranked[i].sales| >= MinSales
      ensures ranked[i].key.total == Total(ranked[i].sales)
      ensures ranked[i].key.mean == Mean(ranked[i].sales)
    {
      assert ranked[i] in multiset(ranked);
      assert ranked[i] in multiset(entries);
      var j :| 0 <= j < |entries| && entries[j] == ranked[i];
      assert entries[j].key.county in t.order;
    }
  }
}
