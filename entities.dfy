/** The records exchanged between the HTTP handlers and the store (internal/entities). */
module Entities {
  import opened Wrappers

  const MinInt64: int := -0x8000_0000_0000_0000
  const MaxInt64: int := 0x7fff_ffff_ffff_ffff

  /** Go's int64: prices, totals and record ids. */
  newtype Int64 = x: int | -0x8000_0000_0000_0000 <= x < 0x8000_0000_0000_0000

  predicate InInt64Range(x: int) {
    MinInt64 <= x <= MaxInt64
  }

  /**
   * One subscription record. The Go type is named `Subscriptions` although it holds a single
   * record. It carries exactly five fields and no id: the id lives only in the store's key.
   * `endDate == None` is an open-ended subscription (a nil `*string`, a NULL column).
   */
  datatype Subscriptions = Subscriptions(
    serviceName: string,
    price: Int64,
    userId: string,
    startDate: string,
    endDate: Option<string>)

  /** Filters of the listing operation; every field is optional (nil means "do not filter"). */
  datatype ListFilter = ListFilter(
    userId: Option<string>,
    serviceName: Option<string>,
    startDate: Option<string>,
    endDate: Option<string>)

  /** Filters of the cost aggregation: a mandatory period and two optional equality filters. */
  datatype CostFilter = CostFilter(
    userId: Option<string>,
    serviceName: Option<string>,
    startPeriod: string,
    endPeriod: string)

  /** The JSON body `{"total_cost": ...}` of a successful cost query. */
  datatype TotalCostResponse = TotalCostResponse(totalCost: Int64)

  /** A filter that leaves every row in. */
  function NoListFilter(): ListFilter {
    ListFilter(None, None, None, None)
  }
}
