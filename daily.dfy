/** The daily breakdown (`getDailyReport`): per active driver, the day's orders, the
    commission they earn given the orders earlier in the month, the threshold flags, and the
    driver's full-month totals. */
module Daily {
  import opened Types
  import opened Dates
  import opened Orders
  import opened Commission

  /** `o => o.driver === name && o.date === date`. */
  function OnDate(name: string, date: string): OrderInput -> bool {
    (o: OrderInput) => o.driver == name && o.date == date
  }

  /** `o => o.driver === name && o.date.startsWith(month) && new Date(o.date) < new Date(date)`. */
  function BeforeInMonth(name: string, month: string, date: string): OrderInput -> bool {
    (o: OrderInput) => o.driver == name && StartsWith(o.date, month) && DateBefore(o.date, date)
  }

  /** The entries of driver `name` in `month`. */
  function DriverInMonth(name: string, month: string): OrderInput -> bool {
    (o: OrderInput) => o.driver == name && StartsWith(o.date, month)
  }

  /** The day's entries and the month's entries before the day are disjoint parts of the
      driver's entries in the month of the date. */
  lemma DaySelectorsNest(name: string, date: string, o: OrderInput)
    ensures OnDate(name, date)(o) ==> DriverInMonth(name, MonthOf(date))(o)
    ensures BeforeInMonth(name, MonthOf(date), date)(o) ==> DriverInMonth(name, MonthOf(date))(o)
    ensures !(BeforeInMonth(name, MonthOf(date), date)(o) && OnDate(name, date)(o))
  {
    DateBeforeIrreflexive(o.date);
  }

  function OrdersToday(orders: seq<OrderInput>, name: string, date: string): nat {
    SumWhere(orders, OnDate(name, date))
  }

  /** The driver's orders in the month of `date`, days after `date` included. */
  function MonthTotal(orders: seq<OrderInput>, name: string, date: string): nat {
    SumWhere(orders, DriverInMonth(name, MonthOf(date)))
  }

  function TotalBeforeToday(orders: seq<OrderInput>, name: string, date: string): nat {
    SumWhere(orders, BeforeInMonth(name, MonthOf(date), date))
  }

  /** The part of the day's orders still paid at the tier-1 rate. */
  function Tier1Today(totalBeforeToday: nat, ordersToday: nat): (t: nat)
    ensures t <= ordersToday
    ensures Min(totalBeforeToday, Tier1Limit) + t == Min(totalBeforeToday + ordersToday, Tier1Limit)
  {
    Min(ordersToday, Max(0, Tier1Limit - totalBeforeToday))
  }

  /** The day's commission: between 3 and 4 per order, nothing on a day without orders, and
      exactly what the day adds to the month-to-date commission. */
  function CommissionToday(totalBeforeToday: nat, ordersToday: nat): (c: nat)
    ensures Tier1Rate * ordersToday <= c <= Tier2Rate * ordersToday
    ensures ordersToday == 0 ==> c == 0
    ensures c == CommissionFor(totalBeforeToday + ordersToday) - CommissionFor(totalBeforeToday)
  {
    if ordersToday > 0 then
      var tier1Today := Tier1Today(totalBeforeToday, ordersToday);
      var tier2Today := ordersToday - tier1Today;
      tier1Today * Tier1Rate + tier2Today * Tier2Rate
    else 0
  }

  /** The row the report builds for driver `name` on `date`. The threshold flags use the total
      through the day; the month totals are those of the whole month, days after `date`
      included. */
  function DailyRow(orders: seq<OrderInput>, name: string, date: string): (r: DailyReportData)
    ensures r.driver == name
    ensures r.thresholdWasCrossedToday ==> r.hitThreshold
    ensures r.monthTotalCommission == CommissionFor(r.monthTotalOrders)
  {
    var ordersToday := OrdersToday(orders, name, date);
    var totalBeforeToday := TotalBeforeToday(orders, name, date);
    var currentMonthTotal := totalBeforeToday + ordersToday;
    var monthTotal := MonthTotal(orders, name, date);
    DailyReportData(
      name,
      ordersToday,
      CommissionToday(totalBeforeToday, ordersToday),
      monthTotal,
      CommissionFor(monthTotal),
      currentMonthTotal >= Tier1Limit,
      totalBeforeToday < Tier1Limit && currentMonthTotal >= Tier1Limit)
  }

  /** A driver gets a row when there are orders on the day or in the month. */
  predicate HasActivity(orders: seq<OrderInput>, name: string, date: string) {
    OrdersToday(orders, name, date) > 0 || MonthTotal(orders, name, date) > 0
  }

  /** The rows for `active`, in roster order. */
  function DailyRows(active: seq<Driver>, orders: seq<OrderInput>, date: string): (r: seq<DailyReportData>)
    ensures |r| <= |active|
    ensures forall i :: 0 <= i < |r| ==> r[i].ordersToday > 0 || r[i].monthTotalOrders > 0
  {
    if active == [] then []
    else
      var d := active[|active| - 1];
      DailyRows(active[..|active| - 1], orders, date)
        + (if HasActivity(orders, d.name, date) then [DailyRow(orders, d.name, date)] else [])
  }

  /** Adding a driver at the end of the roster adds that driver's row, if any, at the end. */
  lemma DailyRowsSnoc(active: seq<Driver>, d: Driver, orders: seq<OrderInput>, date: string)
    ensures DailyRows(active + [d], orders, date)
      == DailyRows(active, orders, date) + (if HasActivity(orders, d.name, date) then [DailyRow(orders, d.name, date)] else [])
  {
    assert (active + [d])[..|active|] == active;
  }

  /** The row for `name`, from the day's sums and the driver's full-month aggregate. */
  lemma DailyRowFrom(orders: seq<OrderInput>, name: string, date: string, ordersToday: nat, totalBeforeToday: nat, monthTotal: nat)
    requires ordersToday == OrdersToday(orders, name, date)
    requires totalBeforeToday == TotalBeforeToday(orders, name, date)
    requires monthTotal == MonthTotal(orders, name, date)
    ensures HasActivity(orders, name, date) <==> ordersToday > 0 || monthTotal > 0
    ensures DailyRow(orders, name, date) == DailyReportData(
      name, ordersToday, CommissionToday(totalBeforeToday, ordersToday), monthTotal, CommissionFor(monthTotal),
      totalBeforeToday + ordersToday >= Tier1Limit,
      totalBeforeToday < Tier1Limit && totalBeforeToday + ordersToday >= Tier1Limit)
  {
  }

  function DailyReport(orders: seq<OrderInput>, drivers: seq<Driver>, date: string): seq<DailyReportData> {
    DailyRows(ActiveDrivers(drivers), orders, date)
  }

  /** `rows.find(r => r.driver === name)`. */
  function FindRow(rows: seq<MonthlyReportData>, name: string): (r: Option<MonthlyReportData>)
    ensures r.Some? ==> r.value in rows && r.value.driver == name
    ensures r.Some? ==> exists i :: 0 <= i < |rows| && rows[i] == r.value && forall j :: 0 <= j < i ==> rows[j].driver != name
    ensures r.None? <==> forall row :: row in rows ==> row.driver != name
  {
    if rows == [] then None
    else if rows[0].driver == name then Some(rows[0])
    else
      var r := FindRow(rows[1..], name);
      assert r.Some? ==> exists i :: 0 <= i < |rows| && rows[i] == r.value && forall j :: 0 <= j < i ==> rows[j].driver != name by {
        if r.Some? {
          var k :| 0 <= k < |rows[1..]| && rows[1..][k] == r.value && forall j :: 0 <= j < k ==> rows[1..][j].driver != name;
          assert rows[k + 1] == r.value;
          assert forall j :: 0 <= j < k + 1 ==> rows[j].driver != name by {
            forall j | 0 <= j < k + 1 ensures rows[j].driver != name {
              if j > 0 {
                assert rows[j] == rows[1..][j - 1];
              }
            }
          }
        }
      }
      r
  }

  /** The monthly report holds the aggregate of every active driver, and of no one else. */
  lemma FindInMonthlyReport(orders: seq<OrderInput>, drivers: seq<Driver>, name: string)
    ensures FindRow(MonthlyReport(orders, drivers), name)
      == if name in ActiveNames(drivers) then Some(Aggregate(name, orders)) else None
  {
    MonthlyReportRows(orders, drivers);
    var rows := MonthlyReport(orders, drivers);
    assert forall row :: row in rows ==> row == Aggregate(row.driver, orders);
    if name in ActiveNames(drivers) {
      var i :| 0 <= i < |rows| && rows[i].driver == name;
      assert rows[i] in rows;
    }
  }

  /** The month totals of a daily row are those of the driver's row in the monthly report of
      the month of `date`. */
  lemma MonthTotalInMonthlyReport(orders: seq<OrderInput>, drivers: seq<Driver>, name: string, date: string)
    requires name in ActiveNames(drivers)
    ensures var row := FindRow(MonthlyReport(Filter(orders, InMonth(MonthOf(date))), drivers), name);
      && row.Some?
      && row.value.totalOrders == MonthTotal(orders, name, date)
      && row.value.totalCommission == CommissionFor(MonthTotal(orders, name, date))
  {
    FindInMonthlyReport(Filter(orders, InMonth(MonthOf(date))), drivers, name);
    FilterOfInMonth(orders, MonthOf(date), name);
  }

  /** What one row says: the day's orders; a commission between 3 and 4 per order that is
      the day's addition to the month-to-date commission; the threshold reached through the
      day and crossed on it; month totals that include at least every order through the day. */
  lemma DailyRowFacts(orders: seq<OrderInput>, name: string, date: string)
    ensures var r := DailyRow(orders, name, date);
      var before, today := TotalBeforeToday(orders, name, date), OrdersToday(orders, name, date);
      && r.driver == name
      && r.ordersToday == today
      && Tier1Rate * today <= r.commissionToday <= Tier2Rate * today
      && r.commissionToday == CommissionFor(before + today) - CommissionFor(before)
      && (r.hitThreshold <==> before + today >= Tier1Limit)
      && (r.thresholdWasCrossedToday <==> before < Tier1Limit <= before + today)
      && (r.thresholdWasCrossedToday ==> r.hitThreshold)
      && r.monthTotalOrders >= before + today
      && (r.hitThreshold ==> r.monthTotalOrders >= Tier1Limit)
      && r.monthTotalCommission == CommissionFor(r.monthTotalOrders)
  {
    var month := MonthOf(date);
    forall o
      ensures BeforeInMonth(name, month, date)(o) ==> DriverInMonth(name, month)(o)
      ensures OnDate(name, date)(o) ==> DriverInMonth(name, month)(o)
      ensures !(BeforeInMonth(name, month, date)(o) && OnDate(name, date)(o))
    {
      DaySelectorsNest(name, date, o);
    }
    SumWhereDisjointWithin(orders, BeforeInMonth(name, month, date), OnDate(name, date), DriverInMonth(name, month));
  }

  /** The orders of one driver within the month's entries are those of the entries that are
      both the driver's and the month's. */
  lemma FilterOfInMonth(orders: seq<OrderInput>, month: string, name: string)
    ensures OrdersOf(name, Filter(orders, InMonth(month)))
         == SumWhere(orders, DriverInMonth(name, month))
  {
    FilterFilter(orders, InMonth(month), ForDriver(name), DriverInMonth(name, month));
  }

  /** The rows are exactly those of the active drivers with activity, each the row built for
      that driver. */
  lemma {:induction false} DailyRowsCharacterized(active: seq<Driver>, orders: seq<OrderInput>, date: string)
    ensures forall r :: r in DailyRows(active, orders, date) ==>
      exists d :: d in active && HasActivity(orders, d.name, date) && r == DailyRow(orders, d.name, date)
    ensures forall d :: d in active ==>
      (HasActivity(orders, d.name, date) <==>
       exists r :: r in DailyRows(active, orders, date) && r.driver == d.name)
  {
    if active != [] {
      var front := active[..|active| - 1];
      var d := active[|active| - 1];
      DailyRowsCharacterized(front, orders, date);
      assert active == front + [d];
      var rows := DailyRows(active, orders, date);
      forall e | e in active && HasActivity(orders, e.name, date)
        ensures exists r :: r in rows && r.driver == e.name
      {
        if e in front {
          var r :| r in DailyRows(front, orders, date) && r.driver == e.name;
          assert r in rows;
        } else {
          assert DailyRow(orders, e.name, date) in rows;
        }
      }
    }
  }

  /** The daily report: one row for each active driver with orders that day or that month,
      and nothing else. */
  lemma DailyReportRows(orders: seq<OrderInput>, drivers: seq<Driver>, date: string)
    ensures forall r :: r in DailyReport(orders, drivers, date) ==>
      && r.driver in ActiveNames(drivers)
      && r == DailyRow(orders, r.driver, date)
      && (r.ordersToday > 0 || r.monthTotalOrders > 0)
    ensures forall d :: d in drivers && d.isActive ==>
      ((OrdersToday(orders, d.name, date) > 0 || MonthTotal(orders, d.name, date) > 0) <==>
       exists r :: r in DailyReport(orders, drivers, date) && r.driver == d.name)
  {
    DailyRowsCharacterized(ActiveDrivers(drivers), orders, date);
  }

  /** Within one month the threshold is crossed on at most one day: once it is reached, every
      later day of the month has it reached already before its own orders. */
  lemma ThresholdCrossedOnce(orders: seq<OrderInput>, name: string, day1: string, day2: string)
    requires MonthOf(day1) == MonthOf(day2)
    requires DateBefore(day1, day2)
    ensures DailyRow(orders, name, day1).hitThreshold ==> DailyRow(orders, name, day2).hitThreshold
    ensures DailyRow(orders, name, day1).hitThreshold ==> !DailyRow(orders, name, day2).thresholdWasCrossedToday
    ensures !(DailyRow(orders, name, day1).thresholdWasCrossedToday && DailyRow(orders, name, day2).thresholdWasCrossedToday)
  {
    var month := MonthOf(day1);
    assert StartsWith(day1, month);
    forall o
      ensures BeforeInMonth(name, month, day1)(o) ==> BeforeInMonth(name, month, day2)(o)
      ensures OnDate(name, day1)(o) ==> BeforeInMonth(name, month, day2)(o)
      ensures !(BeforeInMonth(name, month, day1)(o) && OnDate(name, day1)(o))
    {
      DateBeforeIrreflexive(o.date);
      if DateBefore(o.date, day1) {
        DateBeforeTransitive(o.date, day1, day2);
      }
    }
    SumWhereDisjointWithin(orders, BeforeInMonth(name, month, day1), OnDate(name, day1), BeforeInMonth(name, month, day2));
  }

  /** 200, 60 and 5 orders on the 1st, 10th and 15th: on the 10th the driver crosses the
      threshold, earns 50 * 3 + 10 * 4, and sees the whole month's 265 orders and 810. */
  lemma CrossingDayOfThreeEntryMonth()
    ensures DailyReport(ThreeEntryMonthOrders(), [Driver("A", true)], "2024-05-10")
      == [DailyReportData("A", 60, 190, 265, 810, true, true)]
  {
    ThreeEntryMonthRow();
    DailyReportOfOneDriver(ThreeEntryMonthOrders(), Driver("A", true), "2024-05-10");
  }

  lemma ThreeEntryMonthRow()
    ensures HasActivity(ThreeEntryMonthOrders(), "A", "2024-05-10")
    ensures DailyRow(ThreeEntryMonthOrders(), "A", "2024-05-10") == DailyReportData("A", 60, 190, 265, 810, true, true)
  {
    var s, day := ThreeEntryMonthOrders(), "2024-05-10";
    ThreeEntryMonthToday();
    ThreeEntryMonthBefore();
    ThreeEntryMonthWhole();
    DailyRowFrom(s, "A", day, 60, 200, 265);
    assert CommissionToday(200, 60) == 190;
    assert CommissionFor(265) == 810;
  }

  /** With a roster of one active driver, the report is that driver's row or nothing. */
  lemma DailyReportOfOneDriver(orders: seq<OrderInput>, d: Driver, date: string)
    requires d.isActive
    ensures DailyReport(orders, [d], date)
      == if HasActivity(orders, d.name, date) then [DailyRow(orders, d.name, date)] else []
  {
    assert ActiveDrivers([d]) == [d] by {
      assert [d][1..] == [];
    }
    assert [d][..0] == [];
    assert DailyRows([], orders, date) == [];
  }

  lemma ThreeEntryMonthToday()
    ensures OrdersToday(ThreeEntryMonthOrders(), "A", "2024-05-10") == 60
  {
    var s, day := ThreeEntryMonthOrders(), "2024-05-10";
    var e1, e2, e3 := s[0], s[1], s[2];
    var keep := OnDate("A", day);
    assert e1.date[8] != day[8] && e3.date[9] != day[9];
    assert !keep(e1) && keep(e2) && !keep(e3);
    assert s[1..] == [e2, e3] && [e2, e3][1..] == [e3] && [e3][1..] == [];
    assert Filter([e3], keep) == [];
    assert Filter([e2, e3], keep) == [e2];
    assert TotalOrders([e2]) == 60;
  }

  lemma ThreeEntryMonthBefore()
    ensures TotalBeforeToday(ThreeEntryMonthOrders(), "A", "2024-05-10") == 200
  {
    var s, day := ThreeEntryMonthOrders(), "2024-05-10";
    var e1, e2, e3 := s[0], s[1], s[2];
    assert MonthOf(day) == "2024-05";
    ThreeEntryMonthDates();
    var keep := BeforeInMonth("A", "2024-05", day);
    assert StartsWith(e1.date, "2024-05");
    assert keep(e1) && !keep(e2) && !keep(e3);
    assert s[1..] == [e2, e3] && [e2, e3][1..] == [e3] && [e3][1..] == [];
    assert Filter([e3], keep) == [];
    assert Filter([e2, e3], keep) == [];
    assert TotalOrders([e1]) == 200;
  }

  lemma ThreeEntryMonthWhole()
    ensures MonthTotal(ThreeEntryMonthOrders(), "A", "2024-05-10") == 265
  {
    assert MonthOf("2024-05-10") == "2024-05";
    FilterOfInMonth(ThreeEntryMonthOrders(), "2024-05", "A");
    ThreeEntryMonthInMonth();
    ThreeEntryMonthTotal();
  }

  lemma ThreeEntryMonthDates()
    ensures DateBefore("2024-05-01", "2024-05-10")
    ensures !DateBefore("2024-05-10", "2024-05-10")
    ensures !DateBefore("2024-05-15", "2024-05-10")
  {
    MayKey("2024-05-01", 1);
    MayKey("2024-05-10", 10);
    MayKey("2024-05-15", 15);
  }

  /** The key of a day of May 2024 whose day number is written with two digits. */
  lemma MayKey(date: string, day: nat)
    requires |date| == 10 && date[..8] == "2024-05-" && 1 <= day <= 31
    requires date[8] == ('0' as int + day / 10) as char && date[9] == ('0' as int + day % 10) as char
    ensures DateKey(date) == Some(20240500 + day)
  {
    assert date[0] == '2' && date[1] == '0' && date[2] == '2' && date[3] == '4' by {
      assert date[..8][0] == date[0] && date[..8][1] == date[1] && date[..8][2] == date[2] && date[..8][3] == date[3];
    }
    assert date[4] == '-' && date[5] == '0' && date[6] == '5' && date[7] == '-' by {
      assert date[..8][4] == date[4] && date[..8][5] == date[5] && date[..8][6] == date[6] && date[..8][7] == date[7];
    }
  }

  lemma ThreeEntryMonthInMonth()
    ensures Filter(ThreeEntryMonthOrders(), InMonth("2024-05")) == ThreeEntryMonthOrders()
  {
    var s := ThreeEntryMonthOrders();
    var e1, e2, e3 := s[0], s[1], s[2];
    var keep := InMonth("2024-05");
    assert keep(e1) && keep(e2) && keep(e3);
    assert s[1..] == [e2, e3] && [e2, e3][1..] == [e3] && [e3][1..] == [];
    assert Filter([e3], keep) == [e3];
    assert Filter([e2, e3], keep) == [e2, e3];
  }

  /** The body of the `getDailyReport` branch over the entries `orders`: the full-month report
      of the month of `date`, then one row per active driver with activity. */
  method BuildDailyReport(orders: seq<OrderInput>, drivers: seq<Driver>, date: string)
    returns (dailyReports: seq<DailyReportData>)
    ensures dailyReports == DailyReport(orders, drivers, date)
  {
    var month := MonthOf(date);
    var allMonthOrders := Filter(orders, InMonth(month));
    var fullMonthReports := CalculateCommissions(allMonthOrders, drivers);
    var active := ActiveDrivers(drivers);
    forall d | d in active
      ensures MonthRowFor(FindRow(fullMonthReports, d.name), orders, d.name, date)
    {
      assert d.name in ActiveNames(drivers);
      MonthTotalInMonthlyReport(orders, drivers, d.name, date);
    }
    dailyReports := CollectDailyRows(orders, active, date, month, fullMonthReports);
  }

  /** `row` is the driver's monthly row, with the month totals a daily row shows. */
  predicate MonthRowFor(row: Option<MonthlyReportData>, orders: seq<OrderInput>, name: string, date: string) {
    row.Some? && row.value.totalOrders == MonthTotal(orders, name, date)
    && row.value.totalCommission == CommissionFor(MonthTotal(orders, name, date))
  }

  /** The loop of the `getDailyReport` branch over the active drivers, in roster order. */
  method CollectDailyRows(orders: seq<OrderInput>, active: seq<Driver>, date: string, month: string,
                          fullMonthReports: seq<MonthlyReportData>)
    returns (dailyReports: seq<DailyReportData>)
    requires month == MonthOf(date)
    requires forall d :: d in active ==> MonthRowFor(FindRow(fullMonthReports, d.name), orders, d.name, date)
    ensures dailyReports == DailyRows(active, orders, date)
  {
    dailyReports := [];
    for i := 0 to |active|
      invariant dailyReports == DailyRows(active[..i], orders, date)
    {
      var driver := active[i];
      assert active[..i + 1] == active[..i] + [driver];
      DailyRowsSnoc(active[..i], driver, orders, date);
      var row := DriverDailyRow(orders, driver.name, date, month, fullMonthReports);
      if row.Some? {
        dailyReports := dailyReports + [row.value];
      }
    }
    assert active[..|active|] == active;
  }

  /** The loop body of `getDailyReport` for one active driver: the row it pushes, if any. */
  method DriverDailyRow(orders: seq<OrderInput>, name: string, date: string, month: string,
                        fullMonthReports: seq<MonthlyReportData>)
    returns (row: Option<DailyReportData>)
    requires month == MonthOf(date)
    requires MonthRowFor(FindRow(fullMonthReports, name), orders, name, date)
    ensures row == if HasActivity(orders, name, date) then Some(DailyRow(orders, name, date)) else None
  {
    var ordersToday := TotalOrders(Filter(orders, OnDate(name, date)));
    var totalBeforeToday := TotalOrders(Filter(orders, BeforeInMonth(name, month, date)));
    var currentMonthTotal := totalBeforeToday + ordersToday;
    var hitThreshold := currentMonthTotal >= Tier1Limit;
    var thresholdWasCrossedToday := totalBeforeToday < Tier1Limit && currentMonthTotal >= Tier1Limit;
    var commissionToday := 0;
    if ordersToday > 0 {
      var ordersToGoInTier1 := Max(0, Tier1Limit - totalBeforeToday);
      var tier1Today := Min(ordersToday, ordersToGoInTier1);
      var tier2Today := ordersToday - tier1Today;
      commissionToday := tier1Today * Tier1Rate + tier2Today * Tier2Rate;
    }
    assert commissionToday == CommissionToday(totalBeforeToday, ordersToday);
    var driverMonthReport := FindRow(fullMonthReports, name);
    DailyRowFrom(orders, name, date, ordersToday, totalBeforeToday, driverMonthReport.value.totalOrders);
    if ordersToday > 0 || (driverMonthReport.Some? && driverMonthReport.value.totalOrders > 0) {
      row := Some(DailyReportData(
        name,
        ordersToday,
        commissionToday,
        if driverMonthReport.Some? then driverMonthReport.value.totalOrders else 0,
        if driverMonthReport.Some? then driverMonthReport.value.totalCommission else 0,
        hitThreshold,
        thresholdWasCrossedToday));
    } else {
      row := None;
    }
  }
}
