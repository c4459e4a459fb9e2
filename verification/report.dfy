/** `print_results`: ranks the counties by mean sale, keeps the first
    `NumTopCounties`, and for each writes a blank line, a numbered header, a
    separator and its `NumTopSales` dearest sales. The lines are returned
    instead of printed. Rendering a date as `YYYY-MM` and an amount as
    Python prints a float are library code and are passed in as functions. */
module Report {

  import opened Basics
  import opened Text
  import opened StableSort
  import opened Sales
  import opened Aggregate

  /** `datetime.strftime(date, "%Y-%m")`. */
  type DateFormatter = Date -> string

  /** `str` of a dollar amount held in cents. */
  type MoneyFormatter = Cents -> string

  const CountyWidth: nat := 52
  const ItemWidth: nat := 50
  const SeparatorWidth: nat := 60

  /** The ranking key of a county: index 1 of its summary, the mean. */
  function MeanKey(e: Entry): int { e.key.mean }

  /** The ranking key of a sale: its price. */
  function PriceKey(s: Sale): int { s.price }

  /** The counties the report lists, in the order it lists them. */
  function TopCounties(entries: seq<Entry>): seq<Entry>
  {
    Top(entries, MeanKey, NumTopCounties)
  }

  /** The sales listed under one county, in the order they are listed. */
  function TopSales(sales: seq<Sale>): seq<Sale>
  {
    Top(sales, PriceKey, NumTopSales)
  }

  /** `"-" * 60`. */
  function Separator(): (r: string)
    ensures |r| == SeparatorWidth && forall i :: 0 <= i < |r| ==> r[i] == '-'
  {
    Repeat('-', SeparatorWidth)
  }

  /** `"{counter:>02}. {county:<52} ${avg} ${total}"`. */
  function HeaderLine(counter: nat, key: Summary, money: MoneyFormatter): string
  {
    ZeroPad2(counter) + ". " + PadRight(key.county, CountyWidth)
      + " $" + money(key.mean) + " $" + money(key.total)
  }

  /** `"{date}] {item:<50} ${price}"` with the item cut to 50 characters. */
  function SaleLine(sale: Sale, yearMonth: DateFormatter, money: MoneyFormatter): string
  {
    yearMonth(sale.date) + "] " + PadRight(Truncate(sale.item, ItemWidth), ItemWidth)
      + " $" + money(sale.price)
  }

  function SaleLines(sales: seq<Sale>, yearMonth: DateFormatter, money: MoneyFormatter)
    : (r: seq<string>)
    ensures |r| == |sales|
  {
    seq(|sales|, i requires 0 <= i < |sales| => SaleLine(sales[i], yearMonth, money))
  }

  /** The lines written for the county ranked `counter`. */
  function Block(counter: nat, e: Entry, yearMonth: DateFormatter, money: MoneyFormatter)
    : seq<string>
  {
    ["", HeaderLine(counter, e.key, money), Separator()]
      + SaleLines(TopSales(e.sales), yearMonth, money)
  }

  /** One block per listed county, numbered from 1 as `enumerate(..., 1)` does. */
  function Blocks(ranked: seq<Entry>, yearMonth: DateFormatter, money: MoneyFormatter)
    : (r: seq<seq<string>>)
    ensures |r| == |ranked|
  {
    seq(|ranked|, i requires 0 <= i < |ranked| => Block(i + 1, ranked[i], yearMonth, money))
  }

  function Flatten(blocks: seq<seq<string>>): seq<string>
  {
    if blocks == [] then []
    else Flatten(blocks[..|blocks| - 1]) + blocks[|blocks| - 1]
  }

  /** Everything `print_results` writes, one string per line. */
  function ReportLines(entries: seq<Entry>, yearMonth: DateFormatter, money: MoneyFormatter)
    : seq<string>
  {
    Flatten(Blocks(TopCounties(entries), yearMonth, money))
  }

  /** The nested loops of `print_results`, collecting lines instead of
      printing them. */
  method PrintResults(entries: seq<Entry>, yearMonth: DateFormatter, money: MoneyFormatter)
    returns (lines: seq<string>)
    ensures lines == ReportLines(entries, yearMonth, money)
    ensures |lines| <= NumTopCounties * (3 + NumTopSales)
  {
    var ranked := TopCounties(entries);
    ghost var blocks := Blocks(ranked, yearMonth, money);
    lines := [];
    for i := 0 to |ranked|
      invariant lines == Flatten(blocks[..i])
    {
      var e := ranked[i];
      var top := TopSales(e.sales);
      var saleLines := [];
      for j := 0 to |top|
        invariant saleLines == SaleLines(top[..j], yearMonth, money)
      {
        assert SaleLines(top[..j + 1], yearMonth, money)
            == SaleLines(top[..j], yearMonth, money) + [SaleLine(top[j], yearMonth, money)] by {
          SaleLinesSnoc(top, j, yearMonth, money);
        }
        saleLines := saleLines + [SaleLine(top[j], yearMonth, money)];
      }
      assert blocks[i] == ["", HeaderLine(i + 1, e.key, money), Separator()] + saleLines by {
        assert top[..|top|] == top;
        BlockOf(ranked, i, yearMonth, money);
      }
      FlattenSnoc(blocks, i);
      lines := lines + (["", HeaderLine(i + 1, e.key, money), Separator()] + saleLines);
    }
    assert lines == ReportLines(entries, yearMonth, money) by {
      assert blocks[..|ranked|] == blocks;
    }
    ReportSize(entries, yearMonth, money);
  }

  lemma SaleLinesSnoc(sales: seq<Sale>, j: nat, yearMonth: DateFormatter, money: MoneyFormatter)
    requires j < |sales|
    ensures SaleLines(sales[..j + 1], yearMonth, money)
         == SaleLines(sales[..j], yearMonth, money) + [SaleLine(sales[j], yearMonth, money)]
  {
  }

  lemma FlattenSnoc(blocks: seq<seq<string>>, i: nat)
    requires i < |blocks|
    ensures Flatten(blocks[..i + 1]) == Flatten(blocks[..i]) + blocks[i]
  {
    assert blocks[..i + 1][..i] == blocks[..i];
  }

  /** Block `i` of the report (from 0) is a blank line, the header numbered
      `i + 1`, the separator, then one line per listed sale of that county,
      in the order listed. */
  lemma BlockOf(ranked: seq<Entry>, i: nat, yearMonth: DateFormatter, money: MoneyFormatter)
    requires i < |ranked|
    ensures Blocks(ranked, yearMonth, money)[i]
         == ["", HeaderLine(i + 1, ranked[i].key, money), Separator()]
            + SaleLines(TopSales(ranked[i].sales), yearMonth, money)
  {
  }

  /** Block `i` opens with a blank line, its header and the separator. */
  lemma BlockHead(ranked: seq<Entry>, yearMonth: DateFormatter, money: MoneyFormatter, i: nat)
    requires i < |ranked|
    ensures var block := Blocks(ranked, yearMonth, money)[i];
      3 <= |block| && block[0] == "" && block[1] == HeaderLine(i + 1, ranked[i].key, money)
      && block[2] == Separator()
  {
    BlockOf(ranked, i, yearMonth, money);
  }

  /** Line `3 + j` of block `i` shows the county's `j`-th listed sale. */
  lemma BlockSale(ranked: seq<Entry>, yearMonth: DateFormatter, money: MoneyFormatter, i: nat, j: nat)
    requires i < |ranked| && j < |TopSales(ranked[i].sales)|
    ensures var block := Blocks(ranked, yearMonth, money)[i];
      3 + j < |block| && block[3 + j] == SaleLine(TopSales(ranked[i].sales)[j], yearMonth, money)
  {
    var top := TopSales(ranked[i].sales);
    BlockOf(ranked, i, yearMonth, money);
    assert SaleLines(top, yearMonth, money)[j] == SaleLine(top[j], yearMonth, money);
  }

  lemma {:induction false} FlattenLength(blocks: seq<seq<string>>, width: nat)
    requires forall i :: 0 <= i < |blocks| ==> |blocks[i]| <= width
    ensures |Flatten(blocks)| <= |blocks| * width
  {
    if blocks != [] {
      FlattenLength(blocks[..|blocks| - 1], width);
    }
  }

  /** The report has one block per listed county, each of three lines plus
      one per listed sale, so never more than `NumTopCounties` blocks of at
      most `3 + NumTopSales` lines. */
  lemma ReportSize(entries: seq<Entry>, yearMonth: DateFormatter, money: MoneyFormatter)
    ensures var ranked := TopCounties(entries);
      var blocks := Blocks(ranked, yearMonth, money);
      |blocks| == Min(NumTopCounties, |entries|) &&
      (forall i :: 0 <= i < |blocks| ==>
        |blocks[i]| == 3 + Min(NumTopSales, |ranked[i].sales|)) &&
      |ReportLines(entries, yearMonth, money)| <= NumTopCounties * (3 + NumTopSales)
  {
    var ranked := TopCounties(entries);
    var blocks := Blocks(ranked, yearMonth, money);
    BlockSizes(ranked, yearMonth, money);
    FlattenLength(blocks, 3 + NumTopSales);
    assert |blocks| <= NumTopCounties;
    assert |blocks| * (3 + NumTopSales) <= NumTopCounties * (3 + NumTopSales);
  }

  lemma BlockSizes(ranked: seq<Entry>, yearMonth: DateFormatter, money: MoneyFormatter)
    ensures forall i :: 0 <= i < |ranked| ==>
      |Blocks(ranked, yearMonth, money)[i]| == 3 + Min(NumTopSales, |ranked[i].sales|)
  {
    forall i | 0 <= i < |ranked|
      ensures |Blocks(ranked, yearMonth, money)[i]| == 3 + Min(NumTopSales, |ranked[i].sales|)
    {
      BlockSize(ranked[i], i + 1, yearMonth, money);
    }
  }

  lemma BlockSize(e: Entry, counter: nat, yearMonth: DateFormatter, money: MoneyFormatter)
    ensures |Block(counter, e, yearMonth, money)| == 3 + Min(NumTopSales, |e.sales|)
  {
    assert |TopSales(e.sales)| == Min(NumTopSales, |e.sales|);
  }

  /** Where the block of the county ranked `i + 1` starts: the lines of the
      blocks before it, three each plus one per listed sale. */
  function Offset(ranked: seq<Entry>, i: nat): nat
    requires i <= |ranked|
  {
    if i == 0 then 0
    else Offset(ranked, i - 1) + 3 + Min(NumTopSales, |ranked[i - 1].sales|)
  }

  lemma {:induction false} FlattenPrefix(blocks: seq<seq<string>>, k: nat)
    requires k <= |blocks|
    ensures Flatten(blocks[..k]) <= Flatten(blocks)
    decreases |blocks| - k
  {
    if k == |blocks| {
      assert blocks[..k] == blocks;
    } else {
      var n := |blocks| - 1;
      assert blocks[..n][..k] == blocks[..k];
      FlattenPrefix(blocks[..n], k);
    }
  }

  /** Blocks of the sizes `BlockSizes` gives flatten so that block `i`
      starts at `Offset(ranked, i)`. */
  lemma {:induction false} FlattenOffset(blocks: seq<seq<string>>, ranked: seq<Entry>, i: nat)
    requires |blocks| == |ranked| && i <= |ranked|
    requires forall k :: 0 <= k < |blocks| ==> |blocks[k]| == 3 + Min(NumTopSales, |ranked[k].sales|)
    ensures |Flatten(blocks[..i])| == Offset(ranked, i)
  {
    if i > 0 {
      FlattenOffset(blocks, ranked, i - 1);
      FlattenSnoc(blocks, i - 1);
    }
  }

  /** Block `i` occupies the lines of the flattened report that start at
      `|Flatten(blocks[..i])|`. */
  lemma FlattenBlockAt(blocks: seq<seq<string>>, i: nat, o: nat)
    requires i < |blocks| && o == |Flatten(blocks[..i])|
    ensures o + |blocks[i]| <= |Flatten(blocks)| && Flatten(blocks)[o..o + |blocks[i]|] == blocks[i]
  {
    FlattenSnoc(blocks, i);
    FlattenPrefix(blocks, i + 1);
    var upto := Flatten(blocks[..i + 1]);
    assert upto[o..] == blocks[i];
    assert Flatten(blocks)[o..o + |blocks[i]|] == upto[o..];
  }

  /** Block `i`, of the sizes `BlockSizes` gives, sits in the flattened
      blocks at `Offset(ranked, i)`. */
  lemma BlocksAt(blocks: seq<seq<string>>, ranked: seq<Entry>, i: nat)
    requires |blocks| == |ranked| && i < |ranked|
    requires forall k :: 0 <= k < |blocks| ==> |blocks[k]| == 3 + Min(NumTopSales, |ranked[k].sales|)
    ensures Offset(ranked, i) + |blocks[i]| <= |Flatten(blocks)|
    ensures Flatten(blocks)[Offset(ranked, i)..Offset(ranked, i) + |blocks[i]|] == blocks[i]
  {
    FlattenOffset(blocks, ranked, i);
    FlattenBlockAt(blocks, i, Offset(ranked, i));
  }

  /** A line of a slice is the line at the slice's start plus the index. */
  lemma SliceAt(lines: seq<string>, o: nat, block: seq<string>, k: nat)
    requires o + |block| <= |lines| && lines[o..o + |block|] == block
    requires k < |block|
    ensures lines[o + k] == block[k]
  {
    assert lines[o..o + |block|][k] == lines[o + k];
  }

  /** Line `k` of block `i` is line `Offset(ranked, i) + k` of the
      flattened blocks. */
  lemma FlattenLineAt(blocks: seq<seq<string>>, ranked: seq<Entry>, i: nat, k: nat, at: nat, line: string)
    requires |blocks| == |ranked| && i < |ranked| && k < |blocks[i]| && blocks[i][k] == line
    requires forall n :: 0 <= n < |blocks| ==> |blocks[n]| == 3 + Min(NumTopSales, |ranked[n].sales|)
    requires at == Offset(ranked, i) + k
    ensures at < |Flatten(blocks)| && Flatten(blocks)[at] == line
  {
    BlocksAt(blocks, ranked, i);
    SliceAt(Flatten(blocks), Offset(ranked, i), blocks[i], k);
  }

  /** In the flattened blocks of `ranked`, block `i` starts at
      `Offset(ranked, i)` with a blank line, the header numbered `i + 1` and
      the separator. */
  lemma RankedBlockAt(ranked: seq<Entry>, yearMonth: DateFormatter, money: MoneyFormatter, i: nat)
    requires i < |ranked|
    ensures var lines := Flatten(Blocks(ranked, yearMonth, money));
      var o := Offset(ranked, i);
      o + 2 < |lines| &&
      lines[o] == "" &&
      lines[o + 1] == HeaderLine(i + 1, ranked[i].key, money) &&
      lines[o + 2] == Separator()
  {
    BlockHead(ranked, yearMonth, money, i);
    BlockSizes(ranked, yearMonth, money);
    FlattenLineAt(Blocks(ranked, yearMonth, money), ranked, i, 0, Offset(ranked, i), "");
    FlattenLineAt(Blocks(ranked, yearMonth, money), ranked, i, 1, Offset(ranked, i) + 1,
      HeaderLine(i + 1, ranked[i].key, money));
    FlattenLineAt(Blocks(ranked, yearMonth, money), ranked, i, 2, Offset(ranked, i) + 2, Separator());
  }

  /** In the flattened blocks of `ranked`, line `Offset(ranked, i) + 3 + j`
      shows the `j`-th listed sale of county `i`. */
  lemma RankedSaleLineAt(ranked: seq<Entry>, yearMonth: DateFormatter, money: MoneyFormatter, i: nat, j: nat)
    requires i < |ranked| && j < |TopSales(ranked[i].sales)|
    ensures var lines := Flatten(Blocks(ranked, yearMonth, money));
      var o := Offset(ranked, i);
      var top := TopSales(ranked[i].sales);
      o + 3 + j < |lines| &&
      lines[o + 3 + j] == SaleLine(top[j], yearMonth, money)
  {
    BlockSale(ranked, yearMonth, money, i, j);
    BlockSizes(ranked, yearMonth, money);
    FlattenLineAt(Blocks(ranked, yearMonth, money), ranked, i, 3 + j, Offset(ranked, i) + 3 + j,
      SaleLine(TopSales(ranked[i].sales)[j], yearMonth, money));
  }

  /** In the printed lines, the block of the county ranked `i + 1` starts
      at `Offset(ranked, i)` with a blank line, the header numbered `i + 1`
      and the separator. So the counters run 1, 2, ... with no gaps, each
      header right after a blank line. */
  lemma ReportBlockAt(entries: seq<Entry>, yearMonth: DateFormatter, money: MoneyFormatter, i: nat)
    requires i < |TopCounties(entries)|
    ensures var ranked := TopCounties(entries);
      var lines := ReportLines(entries, yearMonth, money);
      var o := Offset(ranked, i);
      o + 2 < |lines| &&
      lines[o] == "" &&
      lines[o + 1] == HeaderLine(i + 1, ranked[i].key, money) &&
      lines[o + 2] == Separator()
  {
    RankedBlockAt(TopCounties(entries), yearMonth, money, i);
  }

  /** The lines after the separator are the county's listed sales, in
      order: line `Offset(ranked, i) + 3 + j` shows its `j`-th listed sale. */
  lemma ReportSaleLineAt(entries: seq<Entry>, yearMonth: DateFormatter, money: MoneyFormatter, i: nat, j: nat)
    requires i < |TopCounties(entries)| && j < |TopSales(TopCounties(entries)[i].sales)|
    ensures var ranked := TopCounties(entries);
      var lines := ReportLines(entries, yearMonth, money);
      var o := Offset(ranked, i);
      var top := TopSales(ranked[i].sales);
      o + 3 + j < |lines| &&
      lines[o + 3 + j] == SaleLine(top[j], yearMonth, money)
  {
    RankedSaleLineAt(TopCounties(entries), yearMonth, money, i, j);
  }

  /** The counties listed: at most `NumTopCounties`, means non-increasing,
      no county left out has a larger mean than one listed, and counties
      with equal means keep the order in which they were passed in. */
  lemma RankedCounties(entries: seq<Entry>)
    ensures var ranked := TopCounties(entries);
      |ranked| == Min(NumTopCounties, |entries|) &&
      multiset(ranked) <= multiset(entries) &&
      (forall i, j :: 0 <= i < j < |ranked| ==> ranked[i].key.mean >= ranked[j].key.mean) &&
      (forall x, y :: x in ranked && y in multiset(entries) - multiset(ranked) ==>
        x.key.mean >= y.key.mean) &&
      (forall m :: WithKey(ranked, MeanKey, m) <= WithKey(entries, MeanKey, m))
  {
    TopLaws(entries, MeanKey, NumTopCounties);
  }

  /** The sales listed under a county: at most `NumTopSales`, prices
      non-increasing, none left out dearer than one listed, and sales of
      equal price in their input order. */
  lemma ListedSales(sales: seq<Sale>)
    ensures var top := TopSales(sales);
      |top| == Min(NumTopSales, |sales|) &&
      multiset(top) <= multiset(sales) &&
      (forall i, j :: 0 <= i < j < |top| ==> top[i].price >= top[j].price) &&
      (forall x, y :: x in top && y in multiset(sales) - multiset(top) ==> x.price >= y.price) &&
      (forall p :: WithKey(top, PriceKey, p) <= WithKey(sales, PriceKey, p))
  {
    TopLaws(sales, PriceKey, NumTopSales);
  }

  /** A header is the two-digit counter, `". "`, the county left-justified
      in 52 columns (kept whole if longer), then the mean and the total. */
  lemma HeaderLayout(counter: nat, key: Summary, money: MoneyFormatter)
    requires 1 <= counter <= 99
    ensures var line := HeaderLine(counter, key, money);
      var w := Max(CountyWidth, |key.county|);
      |line| >= 4 + w &&
      line[..2] == [DigitChar(counter / 10), DigitChar(counter % 10)] &&
      line[2..4] == ". " &&
      line[4..4 + |key.county|] == key.county &&
      (forall i :: 4 + |key.county| <= i < 4 + w ==> line[i] == ' ') &&
      line[4 + w..] == " $" + money(key.mean) + " $" + money(key.total)
  {
    ZeroPad2TwoDigits(counter);
    assert HeaderLine(counter, key, money)
        == ZeroPad2(counter) + ". " + PadRight(key.county, CountyWidth)
           + (" $" + money(key.mean) + " $" + money(key.total));
    Parts(HeaderLine(counter, key, money), ZeroPad2(counter), ". ", PadRight(key.county, CountyWidth),
      " $" + money(key.mean) + " $" + money(key.total), 2, 4, 4 + Max(CountyWidth, |key.county|));
    SliceChars(HeaderLine(counter, key, money), 4, 4 + Max(CountyWidth, |key.county|),
      PadRight(key.county, CountyWidth));
    assert HeaderLine(counter, key, money)[4..4 + |key.county|]
        == HeaderLine(counter, key, money)[4..4 + Max(CountyWidth, |key.county|)][..|key.county|];
  }

  /** A sale line is the rendered date, `"] "`, the first
      `min(50, |item|)` characters of the item padded with spaces to exactly
      50 columns, then the price. */
  lemma SaleLineLayout(sale: Sale, yearMonth: DateFormatter, money: MoneyFormatter)
    ensures var line := SaleLine(sale, yearMonth, money);
      var d := |yearMonth(sale.date)|;
      var n := Min(ItemWidth, |sale.item|);
      |line| >= d + 2 + ItemWidth &&
      line[..d] == yearMonth(sale.date) &&
      line[d..d + 2] == "] " &&
      line[d + 2..d + 2 + n] == sale.item[..n] &&
      (forall i :: d + 2 + n <= i < d + 2 + ItemWidth ==> line[i] == ' ') &&
      line[d + 2 + ItemWidth..] == " $" + money(sale.price)
  {
    var date := yearMonth(sale.date);
    var item := PadRight(Truncate(sale.item, ItemWidth), ItemWidth);
    var line := SaleLine(sale, yearMonth, money);
    assert line == date + "] " + item + " $" + money(sale.price);
    assert line[|date| + 2..|date| + 2 + ItemWidth] == item;
  }
}
