# Driver commission tracker: demo-mode engine and order store

This project models the demo-mode back end of a delivery-driver commission tracker. That back
end keeps an in-memory list of order entries, each saying that a driver delivered some orders
on a day. From that list it computes two reports:

- **Monthly report.** Within a month, each driver's first 250 orders are paid 3 each (tier 1)
  and every further order 4 (tier 2).
- **Daily breakdown.** For one day: the day's orders, the commission those orders earn given
  the driver's earlier orders that month, whether the 250 threshold has been reached and
  whether it was crossed that day, and the driver's full-month totals.

The files follow the program's structure:

- `types.dfy`: the record shapes `Driver`, `OrderInput`, `DailyReportData` and
  `MonthlyReportData`.
- `dates.dfy`: how `new Date(..)` compares `YYYY-MM-DD` strings (every other string is
  treated as NaN), and the month selectors `substring(0, 7)` and `startsWith`.
- `orders.dfy`: the `filter` and `reduce` steps over entry lists, and their algebra.
- `sorting.dfy`: the date-sorted copy made before the tier split.
- `commission.dfy`: `calculateCommissions`, written as its three loops (zeroed rows; the
  per-entry tier split in date order; the pricing pass). It is proved equal to a closed-form
  report: per active driver, tier 1 = min(total, 250), tier 2 = the rest.
- `daily.dfy`: the `getDailyReport` branch, written as its loop over the active drivers. It is
  proved equal to a row-by-row specification, and the threshold and commission properties are
  proved about that specification.
- `store.dfy`: the `mockOrders` list as a class with the request branches that read and
  change it (`addOrder`, `getMonthlyReport`, `getDailyReport`, `resetAllData`,
  `resetMonthData`) and `resetMockData`.

Modelling choices:

- The driver roster is a parameter (`drivers`), not the module-level `mockDrivers`.
- The seed entries of `resetMockData` are a parameter. `Store.DemoSeed(today)` gives the
  source's six entries for a given day.
- Driver names are not assumed distinct. Assigning names as object keys keeps each name once,
  at its first position, and `Commission.Distinct` models exactly that.
- Dates are compared the way `new Date` compares them. A string of the exact shape
  `YYYY-MM-DD`, with month 1-12 and day 1-31, has a time value. Every other string is
  treated as NaN, and every comparison with NaN is false.
- Counts are `nat`. Negative counts are rejected before submission (`App.tsx:94`).

A daily row's `monthTotalOrders` and `monthTotalCommission` are copied from the full-month
report (`services/apiService.ts:137-145`), so entries on days after the date are included.
`Daily.DailyRow` does the same, and `Daily.CrossingDayOfThreeEntryMonth` shows 265 orders on
2024-05-10, not the 260 ordered through that day.

## Model

| member | source | states |
|---|---|---|
| Commission.ActiveDrivers | services/apiService.ts:114 | the drivers iterated are exactly the roster's active drivers |
| Commission.ActiveNames | services/apiService.ts:50 | a name is listed iff some active roster driver bears it |
| Commission.Distinct | services/apiService.ts:48-60 | the keys of the row object: every assigned name, each once, and no other |
| Commission.ZeroedReport | services/apiService.ts:48-60 | the first loop leaves one zeroed row per distinct active name, keys in first-assignment order |
| Commission.TierSplitStep | services/apiService.ts:67-76 | one entry's tier-1 part never exceeds its count, and it advances the driver's tier-1 total to min(running total, 250) |
| Commission.TallySkipped | services/apiService.ts:65 | an entry for a driver without a row changes no row |
| Commission.TallyCounted | services/apiService.ts:67-80 | an entry for a driver with a row turns that row into the tally with the entry counted: total + count, tier 1 capped at 250, tier 2 the rest |
| Commission.ApplyOrders | services/apiService.ts:64-81 | after the second loop, each row holds its driver's sum over all entries, with tier 1 = min(sum, 250) and tier 2 = sum - tier 1 |
| Commission.PriceCommissions | services/apiService.ts:83-90 | the third loop and `Object.values`: one row per key in key order, tier 1 priced at 3, tier 2 at 4, total their sum |
| Commission.PricedTallies | services/apiService.ts:83-88 | pricing a month's tallies yields the closed-form aggregate of each driver |
| Commission.CalculateCommissions | services/apiService.ts:47-91 | the per-entry fold over the date-sorted copy equals the closed-form monthly report |
| Commission.MonthlyReportRows | services/apiService.ts:50-88 | one row per distinct active driver and no other; each row has totalOrders = driver's sum, tier1 = min(total, 250), tier2 = max(0, total - 250), tier1 + tier2 = total, commissions 3 x tier1, 4 x tier2 and their sum |
| Commission.MonthlyReportOrderIndependent | services/apiService.ts:62 | entry lists that are permutations of each other give the same monthly report |
| Commission.UnknownDriverIgnored | services/apiService.ts:65 | an entry for a driver who is inactive or not on the roster changes no row |
| Commission.ThresholdEdges | services/apiService.ts:71-76 | 250 orders are all tier 1; the 251st is tier 2 |
| Commission.ThreeEntryMonth | services/apiService.ts:47-91 | entries of 200, 60 and 5 orders in May give 265 orders, 250 + 15 split, 750 + 60 = 810 |
| Dates.DateKey | services/apiService.ts:62 | a date string has a time value iff it is a well-formed `YYYY-MM-DD`, and the key decodes back to its year, month and day, so distinct days get distinct keys |
| Dates.DateBefore | services/apiService.ts:121 | `new Date(a) < new Date(b)` holds only when both dates have a time value: NaN on either side gives false |
| Dates.DateBeforeIsCalendarOrder | services/apiService.ts:121 | on well-formed dates, `new Date(a) < new Date(b)` is the lexicographic (year, month, day) order |
| Dates.MonthOf | services/apiService.ts:108 | `date.substring(0, 7)` is a prefix of the date, of length min(7, length) |
| Dates.StartsWith | services/apiService.ts:109 | `s.startsWith(p)` holds iff `p` is no longer than `s` and agrees with it at every position |
| Orders.InMonth | services/apiService.ts:109 | for a seven-character month, an entry is selected iff its date is at least seven characters long and its `substring(0, 7)` is that month |
| Orders.OutsideMonth | services/apiService.ts:167 | selects exactly the entries that the month's selector rejects |
| Orders.TotalConcat | services/apiService.ts:116 | the `reduce` sum of a concatenation is the sum of the two parts |
| Orders.TotalOrdersBounds | services/apiService.ts:123 | the `reduce` sum is at least every entry's count, and zero exactly when every count is zero |
| Orders.Filter | services/apiService.ts:109 | the kept entries are exactly the input's entries that satisfy the predicate |
| Orders.FilterConcat | services/apiService.ts:167 | filtering keeps the entries' relative order: it distributes over concatenation |
| Orders.FilterFilter | services/apiService.ts:156 | filtering by one predicate and then another is filtering by both |
| Orders.SumWherePermutation | services/apiService.ts:62 | the sum of the kept counts does not depend on the entries' order |
| Orders.SumWhereDisjointWithin | services/apiService.ts:115-123 | the sums of two disjoint selections within a third add up to at most the third's sum |
| Sorting.InsertPermutes | services/apiService.ts:62 | an insertion step adds exactly the inserted entry |
| Sorting.InsertSorted | services/apiService.ts:62 | an insertion step keeps the list in key order |
| Sorting.SortKey | services/apiService.ts:62 | the comparator's key is -1 exactly for dates without a time value, and never below -1 |
| Sorting.SortKeyFollowsDates | services/apiService.ts:62 | one date is before another iff its key is non-negative and smaller |
| Sorting.SortBy | services/apiService.ts:62 | the sort returns a permutation of its input in ascending key order |
| Sorting.SortByDate | services/apiService.ts:62 | the sorted copy is a permutation of the entries in ascending date order: no entry follows one with a strictly later date |
| Daily.DaySelectorsNest | services/apiService.ts:115-122 | the day's filter (`OnDate`, line 115) and the before-the-day filter (`BeforeInMonth`, lines 118-122) select disjoint parts of the driver's entries in the month of the date |
| Daily.Tier1Today | services/apiService.ts:131-132 | the day's tier-1 part is at most the day's orders, and added to the capped total before the day it gives min(total through the day, 250) |
| Daily.CommissionToday | services/apiService.ts:129-135 | the day's commission lies between 3 and 4 per order, is 0 on a day without orders, and is exactly what the day adds to the month-to-date commission |
| Daily.DailyRowFacts | services/apiService.ts:115-135 | a row's hitThreshold holds iff before + today >= 250; thresholdWasCrossedToday iff before < 250 <= before + today, which implies hitThreshold; month totals cover at least the orders through the day |
| Daily.ThresholdCrossedOnce | services/apiService.ts:118-127 | within a month, once a day has hit the threshold every later day has too, no later day crosses it, and no two days both cross it |
| Daily.DailyRow | services/apiService.ts:125-148 | the row carries the driver's name, a crossing today implies the threshold is hit, and the month commission is the tiered commission of the month total |
| Daily.DailyRows | services/apiService.ts:114-150 | rows for the active drivers in roster order: at most one per driver, each with orders today or in the month |
| Daily.FindRow | services/apiService.ts:137 | `find` returns the first row with that driver, and nothing iff no such row exists |
| Daily.FindInMonthlyReport | services/apiService.ts:137 | in the monthly report, `find` returns the driver's aggregate iff the driver is an active roster name |
| Daily.MonthTotalInMonthlyReport | services/apiService.ts:108-110 | an active driver's monthly row exists and its totals equal the month totals a daily row shows |
| Daily.DailyRowsCharacterized | services/apiService.ts:114-149 | every row belongs to an active driver with activity, and such a driver has a row iff it has activity |
| Daily.DailyReportRows | services/apiService.ts:139-149 | the report has a row for an active driver iff it has orders that day or that month, each being that driver's row |
| Daily.DriverDailyRow | services/apiService.ts:115-149 | one pass of the loop body pushes the driver's row exactly when the driver has activity |
| Daily.CollectDailyRows | services/apiService.ts:112-150 | the loop yields the rows of the active drivers with activity, in roster order |
| Daily.BuildDailyReport | services/apiService.ts:106-152 | the branch returns the daily report of the stored entries |
| Daily.CrossingDayOfThreeEntryMonth | services/apiService.ts:106-152 | for 200, 60 and 5 orders on May 1, 10 and 15, the May 10 row says 60 orders, 190 commission, 265 month orders, 810 month commission, threshold hit and crossed |
| Store.MockDrivers | services/apiService.ts:16-23 | the demo roster: six active drivers with pairwise distinct names |
| Store.DemoSeed | services/apiService.ts:37-42 | the seed has one entry per demo driver, all dated today |
| Store.OrderStore.constructor | services/apiService.ts:25-44 | the store starts with the roster and the seed entries |
| Store.OrderStore.ResetMockData | services/apiService.ts:35-43 | the list is emptied and then holds exactly the seed entries |
| Store.OrderStore.AddOrder | services/apiService.ts:102-103 | the entry is appended at the end and the earlier entries are unchanged |
| Store.OrderStore.GetMonthlyReport | services/apiService.ts:154-158 | the engine applied to the entries whose date starts with the month |
| Store.OrderStore.GetDailyReport | services/apiService.ts:106-152 | the daily report of the stored entries for the date |
| Store.OrderStore.ResetAllData | services/apiService.ts:160-161 | the list holds exactly the seed entries |
| Store.OrderStore.ResetMonthData | services/apiService.ts:164-169 | exactly the entries outside the month remain, in their original order |
| Store.ResetMonthClearsMonth | services/apiService.ts:164-169 | after a month reset, that month's report has every driver at zero orders and zero commission |
| Store.ResetMonthKeepsOtherMonths | services/apiService.ts:167 | a month reset leaves the entries of every other month of the same selector length as they were |
| Store.AddOrderMonthlyEffect | services/apiService.ts:102-103 | appending an entry raises only its own driver's and month's total, by its count |

## Left out

- The `apiRequest` transport (`fetch`, JSON parsing, error wrapping), `getMonthlyReportCsvUrl` and `isDemoMode` are network and configuration plumbing.
- The `getDrivers` branch returns the roster unchanged. The roster is a parameter here.
- `getMockDate` reads the clock in the Asia/Riyadh time zone. Today's date is an input, the `today` of `Store.DemoSeed`.
- The simulated delay, Promises, `async` and `console.log` are left out, along with the unknown-endpoint rejection. None of them changes the data.
- The React UI (`App.tsx`) is presentation and floating-point formatting.
- Dates.DateKey: treats as NaN the other forms of the ECMAScript date-time string format, which JavaScript gives a time value. These are `YYYY`, `YYYY-MM` and date-times such as `2024-05-10T08:00Z`. With them, an entry dated `2024-05` counts toward the month's total but, unlike in JavaScript, not toward the orders before a day of that month.
- Dates.DateKey: does not model what engines do with day numbers past the end of a month (such as `2024-02-30`) or with non-ISO strings that `new Date` accepts. Engines differ there. The reports compare dates only within one month, where rolling over into the next month keeps the same order.
- Sorting.SortByDate: records whose date has no time value are placed first. JavaScript leaves their position to the engine, because the comparator returns NaN. This cannot change a result: `Commission.MonthlyReportOrderIndependent` shows that the report does not depend on the order of the entries.
- `Object.values` lists integer-like keys (a driver named "12") before the others. Names that clash with `Object.prototype` members (such as `__proto__`) also behave differently in `!monthlyReportData[order.driver]`. Object keys are modelled as insertion-ordered strings.
- `orders_count` is a JavaScript number. Fractional values are not modelled, and negative values are excluded by the `nat` type.
- The sort's copy of the input: entry lists are values here, so no caller-visible list can be changed by the sort.
