# Sales ledger reports

A model of the sales-aggregation script `src/index.js`. The script reads a
CSV ledger of sales lines and prints five reports:

- the total of all line totals;
- the total per month;
- the most popular item of each month, by summed quantity;
- the item of each month with the highest summed revenue;
- the minimum, maximum and mean order quantity of each item in each month.

The model starts from the parsed ledger, a sequence of `Sale` records. Each
record holds a date, an item name, a unit price, a quantity and a line total.
Money is counted in integer cents. A month is a `MonthKey` (year, month).

A JavaScript object used as a dictionary is modelled as `OrderedDict.Dict`.
It holds the keys in the order of their first assignment, plus a map from
key to value. Assigning a key that is already present keeps its position.
That order decides which of two tied items wins, and the order of every report.

The script fills its reports with `forEach` and `for...in` loops that
update objects in place. Those loops are modelled as methods with loops:

- `MonthWiseSales` and `GroupSums` (the first pass of both top-item reports);
- `PickLeaders` (the second pass of both);
- `ItemOrders` and `SummarizeOrders` (the two passes of the statistics report).

Each method is proved against specification functions on the records:

- `Months`, `Items`, `InMonth` and `OfItem` give the groupings in order of first occurrence;
- `Sum` and `Quantities` give what is added up or listed;
- `Leader` is the `reduce` that picks a month's item;
- `Min`, `Max` and `Mean` are the statistics.

The lemmas then prove what those functions mean.

Modules:

- `OrderedDict`: insertion-ordered dictionaries.
- `Records`: records, groupings and their membership lemmas.
- `TopItem`: the running-maximum fold over a month's entries.
- `Statistics`: min, max and mean of a quantity list.
- `Reports`: the five reports, their loops and the properties that join them.

A month in which no item's summed quantity (or revenue) is positive gets
the empty string, not its first item: the running pair starts at `['', 0]`
and is replaced only on a strict `>` (src/index.js:41-42, 63-64;
`TopItem.AllZeroGivesEmpty`).

## Model

| member | source | states |
|---|---|---|
| Reports.TotalSalesOrderFree | src/index.js:7-12 | the total sales (left-to-right sum of line totals, 0 for no records) do not depend on the order of the records |
| Records.SumPermutation | src/index.js:8-11 | summing a metric gives the same result for any permutation of the records |
| Records.SumAppend | src/index.js:8-11 | summing over a concatenation is the sum of the two parts |
| Reports.MonthWiseSales | src/index.js:14-23 | the result has exactly one key per month that occurs, in order of first occurrence; each value is that month's summed line totals; the values add up to the total sales |
| Reports.MonthTotalsStep | src/index.js:20 | one more record adds its line total to its month (starting from 0 when the month is new) and keeps every other month's total and the key order |
| Reports.MonthlyAddsUp | src/index.js:7-23 | over any repeat-free list of months that covers the ledger, the monthly totals add up to the total sales |
| Reports.SumValuesIsMonthlySum | src/index.js:15-22 | a dictionary holding the monthly totals sums to the sum of the monthly totals over its keys |
| Reports.GroupSums | src/index.js:26-37 | the first pass of the top-item reports yields, per month in order of first occurrence, the month's items in order of first occurrence with their summed quantity (or line total) |
| Reports.GroupedTotals | src/index.js:27-37 | after any prefix of the records the grouping holds exactly the months seen, their items, and the per-(month, item) sums |
| Reports.TallyStep | src/index.js:34-36 | one more record creates its month's object if absent and adds its metric to its item, starting from 0, leaving all other entries alone |
| Reports.InnerTotalsStep | src/index.js:35-36 | in a month's object, one more record adds its metric to its item's total and appends the item if it is new |
| Reports.TotalsAreItemSums | src/index.js:34-36 | a month's object built by the first pass maps each of the month's items to its summed metric, and nothing else |
| Reports.PickLeaders | src/index.js:39-43 | the second pass gives every month of the grouping, in the same order, the name its `reduce` ends with, and no other key |
| Reports.CrownStep | src/index.js:40-42 | handling one more month appends it with its leader and keeps the earlier months' leaders |
| Reports.LeadersAreTopItems | src/index.js:40-43 | each name picked from a grouping built from the ledger is that month's top item |
| Reports.MostPopularItemEachMonth | src/index.js:25-46 | one key per month, in order of first occurrence; the value is the first-seen item with the largest positive summed quantity, or the empty string when no summed quantity is positive |
| Reports.ItemsGeneratingMostRevenue | src/index.js:48-68 | the same as the most popular item, over summed line totals |
| Reports.TopItemUnique | src/index.js:41-42 | the top-item specification admits exactly one answer per month |
| TopItem.LeaderBounds | src/index.js:41-42 | the running pair's value is never negative and bounds every total; when it is 0 the name is the empty string |
| TopItem.LeaderFacts | src/index.js:41-42 | a positive running pair names an entry with exactly that total, and every entry before it has a strictly smaller total |
| TopItem.LeaderIsLeader | src/index.js:41-42 | the fold's answer is either the empty string with no positive total, or the first entry whose total is positive and maximal |
| TopItem.LeaderUnique | src/index.js:41-42 | at most one name satisfies that description |
| TopItem.TieGoesToFirst | src/index.js:41-42 | for any entries, if one has a positive maximal total and every entry before it is smaller, the fold answers that entry, whatever later entries tie with it |
| TopItem.AllZeroGivesEmpty | src/index.js:41-42 | for any entries whose totals are all zero or negative, the answer is the empty string |
| TopItem.Leader | src/index.js:41-42 | the `reduce` over a month's entries in insertion order, starting at `('', 0)` and replacing the pair only on a strictly greater total (no ensures; its meaning is `LeaderIsLeader`) |
| Reports.LeaderOf | src/index.js:41-42 | the name `Object.entries(obj).reduce(...)[0]` ends with for one month's object (no ensures; its meaning is `LeadersAreTopItems`) |
| Reports.ItemOrders | src/index.js:71-82 | the first pass of the statistics report lists, per month and item in order of first occurrence, the quantities of their records in input order |
| Reports.RecordedOrders | src/index.js:72-82 | after any prefix of the records the lists hold exactly the months and items seen and their quantities in input order |
| Reports.RecordStep | src/index.js:79-81 | one more record creates its month's object if absent, creates its item's list if absent and appends its quantity |
| Reports.PushStep | src/index.js:80-81 | in a month's object, one more record appends its quantity to its item's list, created empty when new |
| Reports.OrdersHaveShape | src/index.js:79-81 | every month of the lists has at least one item and every item at least one quantity |
| Reports.SummarizeOrders | src/index.js:84-95 | the second pass gives every month of the lists, in the same order, an object with every item of the month, in the same order, holding the minimum, maximum and mean of its list |
| Reports.EnterStep | src/index.js:92-93 | storing one more item's statistics creates the month's object at its first item and keeps everything stored before |
| Reports.StatsOfRecords | src/index.js:85-93 | statistics taken over a month's lists are the statistics of that month's records of each item |
| Reports.MinMaxAvgOrdersOfPopularItems | src/index.js:70-98 | one key per month in order of first occurrence; in each, one key per item of the month in order of first occurrence, holding min, max and mean of that item's quantities in the month |
| Reports.PairListed | src/index.js:79-81 | a (month, item) pair gets an entry exactly when some record has that month and item |
| Reports.ReportedStats | src/index.js:87-93 | the reported minimum and maximum are quantities of the item's orders, the mean lies between them, and the mean is the item's summed quantity over its number of orders |
| Reports.TotalQuantities | src/index.js:90 | adding up a list of quantities gives the summed quantity of the records |
| Reports.AverageOrder | src/index.js:90 | the mean is the summed quantity divided by the number of orders |
| Reports.AllReports | src/index.js:101-105 | the month-wise, most-popular, highest-revenue and statistics reports list the same months in the same order, and the month-wise totals add up to the total sales |
| Statistics.Min | src/index.js:88 | the minimum is an element of the list and no element is smaller |
| Statistics.Max | src/index.js:89 | the maximum is an element of the list and no element is larger |
| Statistics.StatsBounds | src/index.js:87-90 | min and max are elements that bound the whole list; min ≤ mean ≤ max |
| Statistics.MeanTimesCount | src/index.js:90 | the mean times the number of orders is the summed quantity |
| Statistics.TotalAtLeast | src/index.js:90 | a sum of n numbers is at least n times any lower bound |
| Statistics.TotalAtMost | src/index.js:90 | a sum of n numbers is at most n times any upper bound |
| Statistics.PenInJanuary | src/index.js:87-93 | orders of 10 and 3 give min 3, max 10 and mean 6.5 |
| Records.Months | src/index.js:19-20 | the month keys of the ledger are listed without repeats |
| Records.MonthsMembers | src/index.js:19-20 | a month is listed exactly when some record falls in it (no zero-filled months) |
| Records.ItemsMembers | src/index.js:31-36 | an item is listed exactly when some record names it |
| Records.InMonthMembers | src/index.js:16-21 | the records of a month are exactly the records whose date falls in it |
| Records.InMonth | src/index.js:16-21 | a month has records exactly when it is listed |
| Records.OfItem | src/index.js:31-36 | an item has records exactly when it is listed |
| Records.Quantities | src/index.js:77-81 | the list of quantities has one entry per record, in input order |
| OrderedDict.PutFacts | src/index.js:20 | assigning a key keeps the dictionary well formed, stores the value, leaves the other keys' values alone, appends the key only when it is new |
| OrderedDict.AddNew | src/index.js:20 | the keys after an assignment are the old keys and the assigned key, and there is at most one more of them |
| OrderedDict.PutNew | src/index.js:20 | assigning a key that is not there yet keeps the dictionary well formed and appends the key at the end of the order |
| OrderedDict.PutExisting | src/index.js:20 | assigning a key that is already there keeps the dictionary well formed and leaves the order as it was |
| OrderedDict.Empty | src/index.js:15 | the literal `{}` is well formed, with no keys and no entries |
| OrderedDict.Dict.Put | src/index.js:20 | `obj[k] = v`: the key appended to the order when new, the value stored (no ensures; its properties are `PutFacts`, `PutNew`, `PutExisting`) |
| OrderedDict.Dict.Get | src/index.js:20 | `obj[k] \|\| d`: the stored value, or the default when the key holds none (no ensures) |
| Records.Items | src/index.js:31-36 | the items of the records, listed once each in order of first occurrence, without repeats |
| Records.ItemsFirstOrder | src/index.js:34-36 | of two listed items, the earlier listed one has a record before any record of the later one |
| Records.MonthsFirstOrder | src/index.js:19-20 | of two listed months, the earlier listed one has a record before any record of the later one |
| Records.Sum | src/index.js:8-11 | left-to-right sum of a record metric starting at 0 (no ensures; its properties are `SumAppend`, `SumPermutation`) |
| Reports.TotalSales | src/index.js:7-12 | `totalSales`: the left-to-right sum of every line total, 0 for no records (no ensures; its properties are `TotalSalesOrderFree`, `MonthlyAddsUp`) |
| Reports.AddSale | src/index.js:20 | one step of the month-wise loop: `sales[month] = (sales[month] \|\| 0) + total` (no ensures; its property is `MonthTotalsStep`) |
| Reports.Bump | src/index.js:35-36 | one step inside a month's object: the item's total, 0 when new, plus the record's metric (no ensures; its property is `InnerTotalsStep`) |
| Reports.Tally | src/index.js:34-36 | one step of the grouping loop, creating the month's object when absent; also lines 57-58 (no ensures; its property is `TallyStep`) |
| Reports.Crown | src/index.js:42 | one step of the second loop: the month gets its leader's name (no ensures; its property is `CrownStep`) |
| Reports.Push | src/index.js:80-81 | the item's list, created empty when new, with the record's quantity appended (no ensures; its property is `PushStep`) |
| Reports.Record | src/index.js:79-81 | one step of the order-list loop, creating the month's object when absent (no ensures; its property is `RecordStep`) |
| Reports.Enter | src/index.js:92-93 | one step of the statistics loop: the month's object created when absent, the item's statistics stored (no ensures; its property is `EnterStep`) |
| Statistics.Total | src/index.js:90 | `quantities.reduce((sum, q) => sum + q, 0)` (no ensures; its properties are `TotalAtLeast`, `TotalAtMost`, `Reports.TotalQuantities`) |
| Statistics.Mean | src/index.js:90 | the total divided by the length, as an exact real (no ensures; its properties are `MeanTimesCount`, `StatsBounds`) |
| Statistics.Stats | src/index.js:87-93 | the `{ min, max, avg }` record of a non-empty list (no ensures; its property is `StatsBounds`) |

## Left out

- Reading the CSV file and dropping its header (src/index.js:1-4), and printing the reports (src/index.js:101-105), are I/O. The model takes the parsed records as input; `AllReports` stands for the five calls.
- Splitting a line on commas, and `parseInt`/`parseFloat` with their `NaN` on empty or malformed fields, are left out. This includes the empty last line that splitting on newlines can leave. Records are assumed well formed.
- Rendering a date's month with `new Date(...)` and `toLocaleString` is left out. It depends on the host's locale and time zone, so a date near a month boundary can land in a neighbouring month. This library code is not part of the model. The key is the (year, month) of the record's date.
- Line totals and revenue are summed as exact integer cents, not as IEEE doubles, so rounding in the sums is not modelled. The mean is an exact real.
- `Object.entries` and `for...in` list integer-like keys (an item named `"42"`, say) first, in ascending order, before all other keys. The model uses first-insertion order for every key.
- Keys inherited from `Object.prototype` (an item named `constructor`, say) are left out. They make `obj[item]` non-empty before the first assignment.
- `Math.min(...quantities)` and `Math.max(...quantities)` (src/index.js:88-89) spread the list into call arguments, so a very long list of one item's orders in one month throws a `RangeError` in V8. `Statistics.Min` and `Statistics.Max` have no length limit, so the model does not capture that error path.
- Calling `Math.min`/`Math.max` on an empty list cannot happen here: every list gets at least one quantity (`Reports.OrdersHaveShape`). `Statistics.Min`, `Max` and `Mean` therefore require a non-empty list.
- The script's objects are never aliased or mutated after they are returned, so each report is a value of type `Dict`.
- The guard at src/index.js:35 treats a running total of `0` as missing and resets it to `0`. This changes neither the value nor the key order, so the model writes it as `Get(item, 0)` in `Reports.Bump`.
