/** The monthly tiered commission engine (`calculateCommissions`). Within one month, a
    driver's first 250 orders are paid 3 each (tier 1) and every further order 4 (tier 2). */
module Commission {
  import opened Types
  import opened Dates
  import opened Orders
  import opened Sorting

  const Tier1Limit: nat := 250
  const Tier1Rate: nat := 3
  const Tier2Rate: nat := 4

  function Min(a: int, b: int): int { if a <= b then a else b }
  function Max(a: int, b: int): int { if a <= b then b else a }

  /** `drivers.filter(d => d.isActive)`. */
  function ActiveDrivers(drivers: seq<Driver>): (r: seq<Driver>)
    ensures forall d :: d in r <==> d in drivers && d.isActive
  {
    if drivers == [] then []
    else (if drivers[0].isActive then [drivers[0]] else []) + ActiveDrivers(drivers[1..])
  }

  /** `drivers.filter(d => d.isActive).map(d => d.name)`. */
  function ActiveNames(drivers: seq<Driver>): (r: seq<string>)
    ensures forall n :: n in r <==> exists d :: d in drivers && d.isActive && d.name == n
  {
    var active := ActiveDrivers(drivers);
    var r := seq(|active|, i requires 0 <= i < |active| => active[i].name);
    assert forall n :: n in r ==> exists i :: 0 <= i < |active| && active[i].name == n;
    assert forall d :: d in active ==> d.name in r by {
      forall d | d in active ensures d.name in r {
        var i :| 0 <= i < |active| && active[i] == d;
        assert r[i] == d.name;
      }
    }
    r
  }

  /** The keys of an object filled by assigning `names` in order: each name once, at the place
      of its first assignment. */
  function Distinct(names: seq<string>): (r: seq<string>)
    ensures forall n :: n in r <==> n in names
    ensures forall i, j :: 0 <= i < j < |r| ==> r[i] != r[j]
  {
    if names == [] then []
    else
      var last := names[|names| - 1];
      var front := Distinct(names[..|names| - 1]);
      assert names == names[..|names| - 1] + [last];
      if last in front then front else front + [last]
  }

  /** The orders the entries attribute to driver `name`. */
  function ForDriver(name: string): OrderInput -> bool {
    (o: OrderInput) => o.driver == name
  }

  function OrdersOf(name: string, orders: seq<OrderInput>): nat {
    SumWhere(orders, ForDriver(name))
  }

  /** The commission a month with `total` orders earns: 3 for each of the first 250, then 4. */
  function CommissionFor(total: nat): nat {
    Tier1Rate * Min(total, Tier1Limit) + Tier2Rate * (total - Min(total, Tier1Limit))
  }

  /** The aggregate for one driver over a month's entries, tier 1 holds the first 250
      orders, tier 2 the rest. */
  function Aggregate(name: string, orders: seq<OrderInput>): MonthlyReportData {
    var total := OrdersOf(name, orders);
    var tier1 := Min(total, Tier1Limit);
    var tier2 := total - tier1;
    MonthlyReportData(name, total, tier1, Tier1Rate * tier1, tier2, Tier2Rate * tier2, CommissionFor(total))
  }

  /** The report for a month's entries: one aggregate per distinct active driver name, in roster
      order. */
  function MonthlyReport(orders: seq<OrderInput>, drivers: seq<Driver>): seq<MonthlyReportData> {
    var keys := Distinct(ActiveNames(drivers));
    seq(|keys|, i requires 0 <= i < |keys| => Aggregate(keys[i], orders))
  }

  /** A row after its entries are counted and before commissions are priced. */
  function Tally(name: string, total: nat): MonthlyReportData {
    MonthlyReportData(name, total, Min(total, Tier1Limit), 0, total - Min(total, Tier1Limit), 0, 0)
  }

  /** Every key holds the tally of `entries` for that driver. */
  ghost predicate Tallied(report: map<string, MonthlyReportData>, keys: seq<string>, entries: seq<OrderInput>) {
    && (forall k :: k in report <==> k in keys)
    && (forall k :: k in report ==> report[k] == Tally(k, OrdersOf(k, entries)))
  }

  /** One entry's tier split advances the tier-1 total to the capped running total: the split
      made entry by entry amounts to capping the month's sum at 250. */
  lemma TierSplitStep(currentTotal: nat, count: nat, tier1ForThisEntry: nat)
    requires tier1ForThisEntry == if currentTotal < Tier1Limit then Min(count, Tier1Limit - currentTotal) else 0
    ensures tier1ForThisEntry <= count
    ensures Min(currentTotal, Tier1Limit) + tier1ForThisEntry == Min(currentTotal + count, Tier1Limit)
  {
  }

  /** An entry of a driver without a row leaves every tally as it was. */
  lemma TallySkipped(report: map<string, MonthlyReportData>, keys: seq<string>, entries: seq<OrderInput>, order: OrderInput)
    requires Tallied(report, keys, entries) && order.driver !in report
    ensures Tallied(report, keys, entries + [order])
  {
    forall k | k in report ensures report[k] == Tally(k, OrdersOf(k, entries + [order])) {
      SumWhereSnoc(entries, order, ForDriver(k));
    }
  }

  /** An entry of a driver with a row, split between the tiers by the running total, moves
      that driver's row to the tally with the entry counted. */
  lemma TallyCounted(report: map<string, MonthlyReportData>, keys: seq<string>, entries: seq<OrderInput>, order: OrderInput,
                     tier1ForThisEntry: nat)
    requires Tallied(report, keys, entries) && order.driver in report
    requires var currentTotal := report[order.driver].totalOrders;
      tier1ForThisEntry == if currentTotal < Tier1Limit then Min(order.ordersCount, Tier1Limit - currentTotal) else 0
    ensures tier1ForThisEntry <= order.ordersCount
    ensures var current := report[order.driver];
      Tallied(report[order.driver := current.(
        tier1Orders := current.tier1Orders + tier1ForThisEntry,
        tier2Orders := current.tier2Orders + (order.ordersCount - tier1ForThisEntry),
        totalOrders := current.totalOrders + order.ordersCount)], keys, entries + [order])
  {
    var current := report[order.driver];
    TierSplitStep(current.totalOrders, order.ordersCount, tier1ForThisEntry);
    var updated := report[order.driver := current.(
        tier1Orders := current.tier1Orders + tier1ForThisEntry,
        tier2Orders := current.tier2Orders + (order.ordersCount - tier1ForThisEntry),
        totalOrders := current.totalOrders + order.ordersCount)];
    forall k | k in updated ensures updated[k] == Tally(k, OrdersOf(k, entries + [order])) {
      SumWhereSnoc(entries, order, ForDriver(k));
    }
  }

  /** The rows of the monthly report, one per distinct active driver, with the tier and
      commission invariants. */
  lemma MonthlyReportRows(orders: seq<OrderInput>, drivers: seq<Driver>)
    ensures var rows, keys := MonthlyReport(orders, drivers), Distinct(ActiveNames(drivers));
      && |rows| == |keys|
      && (forall n :: (exists i :: 0 <= i < |rows| && rows[i].driver == n) <==> n in ActiveNames(drivers))
      && (forall i, j :: 0 <= i < j < |rows| ==> rows[i].driver != rows[j].driver)
      && forall i :: 0 <= i < |rows| ==>
        && rows[i].driver == keys[i]
        && rows[i].totalOrders == OrdersOf(rows[i].driver, orders)
        && rows[i].tier1Orders == Min(rows[i].totalOrders, Tier1Limit)
        && rows[i].tier2Orders == Max(0, rows[i].totalOrders - Tier1Limit)
        && rows[i].tier1Orders + rows[i].tier2Orders == rows[i].totalOrders
        && rows[i].tier1Commission == Tier1Rate * rows[i].tier1Orders
        && rows[i].tier2Commission == Tier2Rate * rows[i].tier2Orders
        && rows[i].totalCommission == rows[i].tier1Commission + rows[i].tier2Commission
  {
    var rows, keys := MonthlyReport(orders, drivers), Distinct(ActiveNames(drivers));
    forall n | n in ActiveNames(drivers) ensures exists i :: 0 <= i < |rows| && rows[i].driver == n {
      var i :| 0 <= i < |keys| && keys[i] == n;
      assert rows[i].driver == n;
    }
  }

  /** The first loop of `calculateCommissions`: a zeroed row per active driver name, the keys
      in the order they were first assigned. */
  method ZeroedReport(names: seq<string>) returns (report: map<string, MonthlyReportData>, keys: seq<string>)
    ensures keys == Distinct(names)
    ensures Tallied(report, keys, [])
  {
    report, keys := map[], [];
    for i := 0 to |names|
      invariant keys == Distinct(names[..i])
      invariant forall k :: k in report <==> k in keys
      invariant forall k :: k in report ==> report[k] == MonthlyReportData(k, 0, 0, 0, 0, 0, 0)
    {
      var name := names[i];
      assert names[..i + 1] == names[..i] + [name];
      if name !in report {
        keys := keys + [name];
      }
      report := report[name := MonthlyReportData(name, 0, 0, 0, 0, 0, 0)];
    }
    assert names[..|names|] == names;
    ZeroTallies(report, keys);
  }

  /** Zeroed rows are the tallies of no entries. */
  lemma ZeroTallies(report: map<string, MonthlyReportData>, keys: seq<string>)
    requires forall k :: k in report <==> k in keys
    requires forall k :: k in report ==> report[k] == MonthlyReportData(k, 0, 0, 0, 0, 0, 0)
    ensures Tallied(report, keys, [])
  {
    forall k | k in report ensures OrdersOf(k, []) == 0 {
      assert Filter([], ForDriver(k)) == [];
    }
  }

  /** The second loop: each entry in turn, split between the tiers by its driver's running
      total; entries of drivers without a row are skipped. */
  method ApplyOrders(zeroed: map<string, MonthlyReportData>, keys: seq<string>, sortedOrders: seq<OrderInput>)
    returns (report: map<string, MonthlyReportData>)
    requires Tallied(zeroed, keys, [])
    ensures Tallied(report, keys, sortedOrders)
  {
    report := zeroed;
    assert sortedOrders[..0] == [];
    for j := 0 to |sortedOrders|
      invariant Tallied(report, keys, sortedOrders[..j])
    {
      var order := sortedOrders[j];
      assert sortedOrders[..j + 1] == sortedOrders[..j] + [order];
      if order.driver !in report {
        TallySkipped(report, keys, sortedOrders[..j], order);
        continue;
      }
      var current := report[order.driver];
      var currentTotal := current.totalOrders;
      var tier1ForThisEntry := 0;
      if currentTotal < Tier1Limit {
        var ordersToGoInTier1 := Tier1Limit - currentTotal;
        tier1ForThisEntry := Min(order.ordersCount, ordersToGoInTier1);
      }
      TallyCounted(report, keys, sortedOrders[..j], order, tier1ForThisEntry);
      var tier2ForThisEntry := order.ordersCount - tier1ForThisEntry;
      report := report[order.driver := current.(
        tier1Orders := current.tier1Orders + tier1ForThisEntry,
        tier2Orders := current.tier2Orders + tier2ForThisEntry,
        totalOrders := current.totalOrders + order.ordersCount)];
    }
    assert sortedOrders[..|sortedOrders|] == sortedOrders;
  }

  /** The third loop and `Object.values`: each row priced, the rows in key order. */
  method PriceCommissions(counted: map<string, MonthlyReportData>, keys: seq<string>)
    returns (rows: seq<MonthlyReportData>)
    requires forall k :: k in keys ==> k in counted
    requires forall i, j :: 0 <= i < j < |keys| ==> keys[i] != keys[j]
    ensures |rows| == |keys|
    ensures forall n :: 0 <= n < |keys| ==> rows[n] == Priced(counted[keys[n]])
  {
    var report := counted;
    for i := 0 to |keys|
      invariant report.Keys == counted.Keys
      invariant forall n :: 0 <= n < |keys| ==> report[keys[n]] == if n < i then Priced(counted[keys[n]]) else counted[keys[n]]
    {
      var driverName := keys[i];
      var r := report[driverName];
      var withTier1 := r.(tier1Commission := r.tier1Orders * Tier1Rate);
      var withTier2 := withTier1.(tier2Commission := withTier1.tier2Orders * Tier2Rate);
      report := report[driverName := withTier2.(totalCommission := withTier2.tier1Commission + withTier2.tier2Commission)];
    }
    rows := seq(|keys|, i requires 0 <= i < |keys| => report[keys[i]]);
  }

  /** Pricing the tallies of a month gives its aggregates. */
  lemma PricedTallies(counted: map<string, MonthlyReportData>, keys: seq<string>, orders: seq<OrderInput>)
    requires Tallied(counted, keys, orders)
    ensures forall k :: k in keys ==> k in counted
    ensures forall n :: 0 <= n < |keys| ==> Priced(counted[keys[n]]) == Aggregate(keys[n], orders)
  {
  }

  /** The prices the third loop writes into a counted row. */
  function Priced(r: MonthlyReportData): MonthlyReportData {
    r.(tier1Commission := r.tier1Orders * Tier1Rate,
       tier2Commission := r.tier2Orders * Tier2Rate,
       totalCommission := r.tier1Orders * Tier1Rate + r.tier2Orders * Tier2Rate)
  }

  /** `calculateCommissions`: zeroed rows per active driver, then the entries in date order,
      each split between the tiers by the driver's running total, then the commissions. The
      result is the closed-form aggregate: the month's orders per driver, capped at 250 in tier 1. */
  method CalculateCommissions(orders: seq<OrderInput>, drivers: seq<Driver>) returns (rows: seq<MonthlyReportData>)
    ensures rows == MonthlyReport(orders, drivers)
  {
    var report, keys := ZeroedReport(ActiveNames(drivers));
    var sortedOrders := SortByDate(orders);
    report := ApplyOrders(report, keys, sortedOrders);
    forall k ensures OrdersOf(k, sortedOrders) == OrdersOf(k, orders) {
      SumWherePermutation(sortedOrders, orders, ForDriver(k));
    }
    assert Tallied(report, keys, orders);
    PricedTallies(report, keys, orders);
    rows := PriceCommissions(report, keys);
  }

  /** The report does not depend on the order of the entries: sorting them first only fixes
      the order in which the running totals grow. */
  lemma MonthlyReportOrderIndependent(a: seq<OrderInput>, b: seq<OrderInput>, drivers: seq<Driver>)
    requires multiset(a) == multiset(b)
    ensures MonthlyReport(a, drivers) == MonthlyReport(b, drivers)
  {
    forall k ensures OrdersOf(k, a) == OrdersOf(k, b) {
      SumWherePermutation(a, b, ForDriver(k));
    }
  }

  /** An entry naming a driver who is not active, or not on the roster, changes nothing. */
  lemma UnknownDriverIgnored(a: seq<OrderInput>, o: OrderInput, b: seq<OrderInput>, drivers: seq<Driver>)
    requires o.driver !in ActiveNames(drivers)
    ensures MonthlyReport(a + [o] + b, drivers) == MonthlyReport(a + b, drivers)
  {
    var keys := Distinct(ActiveNames(drivers));
    forall i | 0 <= i < |keys| ensures OrdersOf(keys[i], a + [o] + b) == OrdersOf(keys[i], a + b) {
      SumWhereConcat(a + [o], b, ForDriver(keys[i]));
      SumWhereSnoc(a, o, ForDriver(keys[i]));
      SumWhereConcat(a, b, ForDriver(keys[i]));
    }
  }

  /** The threshold edges: 250 orders in one entry stay in tier 1; a 251st goes to tier 2. */
  lemma ThresholdEdges(name: string, date: string)
    ensures Aggregate(name, [OrderInput(date, name, 250)]).tier1Orders == 250
    ensures Aggregate(name, [OrderInput(date, name, 250)]).tier2Orders == 0
    ensures Aggregate(name, [OrderInput(date, name, 251)]).tier1Orders == 250
    ensures Aggregate(name, [OrderInput(date, name, 251)]).tier2Orders == 1
  {
    assert OrdersOf(name, [OrderInput(date, name, 250)]) == 250 by {
      SumWhereSnoc([], OrderInput(date, name, 250), ForDriver(name));
    }
    assert OrdersOf(name, [OrderInput(date, name, 251)]) == 251 by {
      SumWhereSnoc([], OrderInput(date, name, 251), ForDriver(name));
    }
  }

  /** A month of entries for driver "A": 200, 60 and 5 orders on the 1st, 10th and 15th. */
  function ThreeEntryMonthOrders(): seq<OrderInput> {
    [OrderInput("2024-05-01", "A", 200), OrderInput("2024-05-10", "A", 60), OrderInput("2024-05-15", "A", 5)]
  }

  lemma ThreeEntryMonthTotal()
    ensures OrdersOf("A", ThreeEntryMonthOrders()) == 265
  {
    var s := ThreeEntryMonthOrders();
    var e1, e2, e3 := s[0], s[1], s[2];
    var keep := ForDriver("A");
    assert s[1..] == [e2, e3] && [e2, e3][1..] == [e3] && [e3][1..] == [];
    assert Filter([e3], keep) == [e3];
    assert Filter([e2, e3], keep) == [e2, e3];
    assert Filter(s, keep) == s;
    assert TotalOrders([e3]) == 5;
    assert TotalOrders([e2, e3]) == 65;
  }

  /** That month: 250 orders in tier 1 and 15 in tier 2, paid 750 + 60. */
  lemma ThreeEntryMonth()
    ensures MonthlyReport(ThreeEntryMonthOrders(), [Driver("A", true)])
      == [MonthlyReportData("A", 265, 250, 750, 15, 60, 810)]
  {
    assert Distinct(ActiveNames([Driver("A", true)])) == ["A"];
    ThreeEntryMonthTotal();
  }
}
