/** The record shapes of the commission engine: drivers, order entries and the two report rows. */
module Types {

  /** The conventional Some/None datatype, used for lookups that may find nothing. */
  datatype Option<T> = None | Some(value: T)

  /** A driver of the roster; only active drivers appear in reports. */
  datatype Driver = Driver(name: string, isActive: bool)

  /** One submitted order entry. `date` is meant to be YYYY-MM-DD. Counts are never negative:
      the entry form refuses a negative count before submission. */
  datatype OrderInput = OrderInput(date: string, driver: string, ordersCount: nat)

  /** One row of the daily breakdown. */
  datatype DailyReportData = DailyReportData(
    driver: string,
    ordersToday: nat,
    commissionToday: nat,
    monthTotalOrders: nat,
    monthTotalCommission: nat,
    hitThreshold: bool,
    thresholdWasCrossedToday: bool)

  /** One row of the monthly aggregate: tier 1 holds the orders up to 250, tier 2 those above. */
  datatype MonthlyReportData = MonthlyReportData(
    driver: string,
    totalOrders: nat,
    tier1Orders: nat,
    tier1Commission: nat,
    tier2Orders: nat,
    tier2Commission: nat,
    totalCommission: nat)
}
