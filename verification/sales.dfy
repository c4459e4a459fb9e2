/** The records and constants of `liquor_sales.py`. Money is held in whole
    cents so that sums and means are exact. */
module Sales {

  /** How many counties the report lists. */
  const NumTopCounties: nat := 10

  /** How many sales the report lists under each county. */
  const NumTopSales: nat := 5

  /** Counties with fewer sales than this are dropped. */
  const MinSales: nat := 10

  type Cents = int

  /** A calendar date, as produced by parsing `MM/DD/YYYY`. */
  datatype Date = Date(year: int, month: int, day: int)

  /** One sale: the `Sale` named tuple (date, item, price). */
  datatype Sale = Sale(date: Date, item: string, price: Cents)

  /** One CSV row, already split into the four columns the program reads:
      `County`, `Date`, `Item Description` and `Sale (Dollars)`. */
  datatype Row = Row(county: string, date: string, item: string, price: string)
}
