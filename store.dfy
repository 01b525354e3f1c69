/** The demo-mode store: the `mockOrders` list and the request branches of
    `handleMockRequest` that read and change it. */
module Store {
  import opened Types
  import opened Dates
  import opened Orders
  import opened Commission
  import opened Daily

  /** The demo roster `mockDrivers`: six active drivers. */
  function MockDrivers(): (r: seq<Driver>)
    ensures |r| == 6
    ensures forall i :: 0 <= i < |r| ==> r[i].isActive
    ensures forall i, j :: 0 <= i < j < |r| ==> r[i].name != r[j].name
  {
    [ Driver("ابو خضر", true), Driver("ابو مريم", true), Driver("رمضان", true),
      Driver("بلال", true), Driver("رباح", true), Driver("سامي", true) ]
  }

  /** The entries `resetMockData` seeds the store with, all dated `today`. */
  function DemoSeed(today: string): (seed: seq<OrderInput>)
    ensures |seed| == |MockDrivers()|
    ensures forall i :: 0 <= i < |seed| ==> seed[i].date == today && seed[i].driver == MockDrivers()[i].name
  {
    [ OrderInput(today, "ابو خضر", 25), OrderInput(today, "ابو مريم", 18), OrderInput(today, "رمضان", 30),
      OrderInput(today, "بلال", 12), OrderInput(today, "رباح", 21), OrderInput(today, "سامي", 17) ]
  }

  /** The in-memory order list and the roster the reports are computed against. */
  class OrderStore {
    const drivers: seq<Driver>
    var orders: seq<OrderInput>

    /** The store as the module sets it up: the roster, and `resetMockData()` with `seed`. */
    constructor (drivers: seq<Driver>, seed: seq<OrderInput>)
      ensures this.drivers == drivers
      ensures orders == seed
    {
      this.drivers := drivers;
      new;
      ResetMockData(seed);
    }

    /** `resetMockData`: empties the list, then pushes the seed entries. */
    method ResetMockData(seed: seq<OrderInput>)
      modifies this
      ensures orders == seed
    {
      orders := [];
      orders := orders + seed;
    }

    /** The `addOrder` branch: the entry is pushed at the end, the others stay as they were. */
    method AddOrder(order: OrderInput)
      modifies this
      ensures orders == old(orders) + [order]
      ensures |orders| == |old(orders)| + 1 && orders[|orders| - 1] == order
      ensures orders[..|old(orders)|] == old(orders)
    {
      orders := orders + [order];
    }

    /** The `getMonthlyReport` branch: the engine applied to the entries whose date starts with
        `month`. */
    method GetMonthlyReport(month: string) returns (rows: seq<MonthlyReportData>)
      ensures rows == MonthlyReport(Filter(orders, InMonth(month)), drivers)
    {
      var ordersForMonth := Filter(orders, InMonth(month));
      rows := CalculateCommissions(ordersForMonth, drivers);
    }

    /** The `getDailyReport` branch: the daily breakdown of the stored entries for `date`. */
    method GetDailyReport(date: string) returns (dailyReports: seq<DailyReportData>)
      ensures dailyReports == DailyReport(orders, drivers, date)
    {
      dailyReports := BuildDailyReport(orders, drivers, date);
    }

    /** The `resetAllData` branch: the list is reseeded. */
    method ResetAllData(seed: seq<OrderInput>)
      modifies this
      ensures orders == seed
    {
      ResetMockData(seed);
    }

    /** The `resetMonthData` branch: only the entries outside `month` are kept, in their order. */
    method ResetMonthData(month: string)
      modifies this
      ensures orders == Filter(old(orders), OutsideMonth(month))
      ensures forall o :: o in orders <==> o in old(orders) && !StartsWith(o.date, month)
    {
      var ordersToKeep := Filter(orders, OutsideMonth(month));
      orders := [];
      orders := orders + ordersToKeep;
    }
  }

  /** After `resetMonthData(month)`, the report for that month has every driver at zero. */
  lemma ResetMonthClearsMonth(orders: seq<OrderInput>, month: string, drivers: seq<Driver>)
    ensures forall r :: r in MonthlyReport(Filter(Filter(orders, OutsideMonth(month)), InMonth(month)), drivers) ==>
      r.totalOrders == 0 && r.tier1Orders == 0 && r.tier2Orders == 0 && r.totalCommission == 0
  {
    var kept := Filter(Filter(orders, OutsideMonth(month)), InMonth(month));
    FilterNoneKept(Filter(orders, OutsideMonth(month)), InMonth(month));
    MonthlyReportRows(kept, drivers);
  }

  /** `resetMonthData(month)` leaves the entries of every other month as they were. */
  lemma ResetMonthKeepsOtherMonths(orders: seq<OrderInput>, month: string, other: string)
    requires |month| == |other| && month != other
    ensures Filter(Filter(orders, OutsideMonth(month)), InMonth(other)) == Filter(orders, InMonth(other))
  {
    forall o ensures InMonth(other)(o) ==> OutsideMonth(month)(o) {
      DistinctMonthsDisjoint(o.date, month, other);
    }
    FilterFilter(orders, OutsideMonth(month), InMonth(other), InMonth(other));
  }

  /** `addOrder` raises the month's total of the entry's driver by its count, and no other
      driver's or month's. */
  lemma AddOrderMonthlyEffect(orders: seq<OrderInput>, order: OrderInput, month: string, name: string)
    ensures OrdersOf(name, Filter(orders + [order], InMonth(month)))
         == OrdersOf(name, Filter(orders, InMonth(month)))
          + (if order.driver == name && StartsWith(order.date, month) then order.ordersCount else 0)
  {
    FilterConcat(orders, [order], InMonth(month));
    assert [order][1..] == [];
    assert Filter([order], InMonth(month)) == if StartsWith(order.date, month) then [order] else [];
    if StartsWith(order.date, month) {
      SumWhereSnoc(Filter(orders, InMonth(month)), order, ForDriver(name));
    } else {
      assert Filter(orders, InMonth(month)) + [] == Filter(orders, InMonth(month));
    }
  }
}
