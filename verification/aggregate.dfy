/** `get_average_sale`, `_calc_mean` and `_calc_total`: drop the counties
    with fewer than `MinSales` sales and attach the mean and total price to
    every other county's untouched list of sales. */
module Aggregate {

  import opened Basics
  import opened Text
  import opened Sales
  import Loader

  /** The dictionary key `(county, mean, total)`. */
  datatype Summary = Summary(county: string, mean: Cents, total: Cents)

  /** One item of the dictionary `get_average_sale` returns. */
  datatype Entry = Entry(key: Summary, sales: seq<Sale>)

  function Abs(x: int): nat { if x < 0 then -x else x }

  /** `sum(s.price for s in sales)`, exact in cents. */
  function Total(sales: seq<Sale>): Cents
  {
    if sales == [] then 0 else sales[0].price + Total(sales[1..])
  }

  /** The total of two lists laid end to end is the sum of their totals. */
  lemma {:induction false} TotalAppend(a: seq<Sale>, b: seq<Sale>)
    ensures Total(a + b) == Total(a) + Total(b)
  {
    if a == [] {
      assert a + b == b;
    } else {
      assert (a + b)[0] == a[0] && (a + b)[1..] == a[1..] + b;
      TotalAppend(a[1..], b);
    }
  }

  /** If every price lies between `lo` and `hi`, the total of `n` sales lies
      between `n * lo` and `n * hi`. */
  lemma {:induction false} TotalBounds(sales: seq<Sale>, lo: Cents, hi: Cents)
    requires forall i :: 0 <= i < |sales| ==> lo <= sales[i].price <= hi
    ensures lo * |sales| <= Total(sales) <= hi * |sales|
  {
    if sales != [] {
      TotalBounds(sales[1..], lo, hi);
      assert lo * |sales| == lo + lo * (|sales| - 1);
      assert hi * |sales| == hi + hi * (|sales| - 1);
    }
  }

  /** `num / den` rounded to the nearest integer, halves to even: the
      rounding `round` applies, here on the exact quotient. */
  function RoundHalfEven(num: int, den: int): (q: int)
    requires den > 0
    ensures 2 * Abs(q * den - num) <= den
    ensures 2 * Abs(q * den - num) == den ==> q % 2 == 0
  {
    var f, r := num / den, num % den;
    assert f * den - num == -r && 0 <= r < den;
    assert (f + 1) * den - num == den - r by {
      assert (f + 1) * den == f * den + den;
    }
    if 2 * r < den then f
    else if 2 * r > den then f + 1
    else if f % 2 == 0 then f
    else f + 1
  }

  /** `round(sum(prices) / max(1, len(prices)), 2)` in cents: the nearest
      cent to the mean; the divisor is at least one, so an empty list has
      mean zero. */
  function Mean(sales: seq<Sale>): (m: Cents)
    ensures 2 * Abs(m * Max(1, |sales|) - Total(sales)) <= Max(1, |sales|)
  {
    RoundHalfEven(Total(sales), Max(1, |sales|))
  }

  /** Between two different multiples of `n` lies at least `n`. */
  lemma {:induction false} GapTimes(a: int, b: int, n: int)
    requires a < b && n >= 1
    ensures b * n - a * n >= n
    decreases b - a
  {
    if a + 1 < b {
      GapTimes(a + 1, b, n);
      assert (a + 1) * n == a * n + n;
    } else {
      assert b * n == a * n + n;
    }
  }

  /** An integer within half of `n` of `t / n` is at least `lo` when `t`
      is at least `n * lo`, and at most `hi` when `t` is at most `n * hi`. */
  lemma RoundedBetween(m: int, n: int, t: int, lo: int, hi: int)
    requires n >= 1
    requires 2 * Abs(m * n - t) <= n
    requires lo * n <= t <= hi * n
    ensures lo <= m <= hi
  {
    if m < lo {
      GapTimes(m, lo, n);
    }
    if m > hi {
      GapTimes(hi, m, n);
    }
  }

  /** The mean of a non-empty group lies between its cheapest and its
      dearest sale. */
  lemma MeanWithinPrices(sales: seq<Sale>, lo: Cents, hi: Cents)
    requires |sales| >= 1
    requires forall i :: 0 <= i < |sales| ==> lo <= sales[i].price <= hi
    ensures lo <= Mean(sales) <= hi
  {
    TotalBounds(sales, lo, hi);
    RoundedBetween(Mean(sales), |sales|, Total(sales), lo, hi);
  }

  /** The counties of `entries`, in order. */
  function Counties(entries: seq<Entry>): (r: seq<string>)
    ensures |r| == |entries|
    ensures forall i :: 0 <= i < |entries| ==> r[i] == entries[i].key.county
  {
    if entries == [] then [] else [entries[0].key.county] + Counties(entries[1..])
  }

  /** The entry of one county that passes the threshold. */
  function MakeEntry(county: string, sales: seq<Sale>): Entry
  {
    Entry(Summary(county, Mean(sales), Total(sales)), sales)
  }

  /** The dictionary comprehension of `get_average_sale`, walking the
      counties in `order`: a county is kept exactly when it has at least
      `MinSales` sales, its entry carries its own unchanged list with the
      mean and total of that list, and no county appears twice. */
  function Summarize(order: seq<string>, groups: map<string, seq<Sale>>): (r: seq<Entry>)
    requires forall k :: k in order ==> k in groups
    ensures forall e :: e in r ==>
      e.key.county in order && e == MakeEntry(e.key.county, groups[e.key.county]) &&
      |e.sales| >= MinSales
    ensures forall k :: k in order ==> (k in Counties(r) <==> |groups[k]| >= MinSales)
    ensures Distinct(order) ==> Distinct(Counties(r))
  {
    if order == [] then []
    else
      var county := order[0];
      var rest := Summarize(order[1..], groups);
      if |groups[county]| >= MinSales then
        SummarizeStep(order, MakeEntry(county, groups[county]), rest);
        [MakeEntry(county, groups[county])] + rest
      else rest
  }

  lemma SummarizeStep(order: seq<string>, e: Entry, rest: seq<Entry>)
    requires order != [] && e.key.county == order[0]
    requires Distinct(order[1..]) ==> Distinct(Counties(rest))
    requires forall x :: x in rest ==> x.key.county in order[1..]
    ensures Distinct(order) ==> Distinct(Counties([e] + rest))
  {
    assert Counties([e] + rest) == [e.key.county] + Counties(rest);
    if Distinct(order) {
      assert Distinct(order[1..]);
      forall i | 0 <= i < |rest| ensures rest[i].key.county != e.key.county {
        assert rest[i] in rest;
        var j :| 0 <= j < |order[1..]| && order[1..][j] == rest[i].key.county;
        assert order[j + 1] == rest[i].key.county;
      }
    }
  }

  /** `get_average_sale` applied to the loader's table. */
  function GetAverageSale(t: Loader.CountyTable): seq<Entry>
    requires t.Valid()
  {
    Summarize(t.order, t.groups)
  }
}
