/**
  The five reducers of the sales ledger. Each folds the parsed records, in
  input order, into one summary; the monthly ones build JavaScript-style
  dictionaries whose key order is the order of first insertion.
 */
module Reports {
  import opened OrderedDict
  import opened Records
  import opened TopItem
  import opened Statistics

  // ---------------------------------------------------------------------------
  // Total sales

  /** `totalSales`: the left-to-right sum of every line total, 0 for no records. */
  function TotalSales(data: seq<Sale>): int {
    Sum(data, LineTotal)
  }

  /** Reordering the ledger does not change the total. */
  lemma TotalSalesOrderFree(a: seq<Sale>, b: seq<Sale>)
    requires multiset(a) == multiset(b)
    ensures TotalSales(a) == TotalSales(b)
  {
    SumPermutation(a, b, LineTotal);
  }

  // ---------------------------------------------------------------------------
  // Month-wise sales

  /** The sum of `values[k]` over the keys `ks`, in order. */
  function SumValues<K(!new)>(ks: seq<K>, values: map<K, int>): int
    requires forall k :: k in ks ==> k in values
  {
    if ks == [] then 0
    else
      assert forall k :: k in ks[..|ks| - 1] ==> k in ks;
      SumValues(ks[..|ks| - 1], values) + values[ks[|ks| - 1]]
  }

  /** The monthly totals of `data`, summed over the months `ks`. */
  function MonthlySum(data: seq<Sale>, ks: seq<MonthKey>): int {
    if ks == [] then 0 else MonthlySum(data, ks[..|ks| - 1]) + TotalSales(InMonth(data, ks[|ks| - 1]))
  }

  /** One record more adds its line total to the months' sum exactly once, if its month is listed. */
  lemma {:induction false} MonthlySumSnoc(data: seq<Sale>, r: Sale, ks: seq<MonthKey>)
    requires Distinct(ks)
    ensures MonthlySum(data + [r], ks) == MonthlySum(data, ks) + if r.Month() in ks then r.total else 0
  {
    if ks != [] {
      var init, k := ks[..|ks| - 1], ks[|ks| - 1];
      assert ks == init + [k];
      MonthlySumSnoc(data, r, init);
      InMonthSnoc(data, r, k);
      SumSnoc(InMonth(data, k), r, LineTotal);
    }
  }

  lemma {:induction false} MonthlySumEmpty(ks: seq<MonthKey>)
    ensures MonthlySum([], ks) == 0
  {
    if ks != [] {
      MonthlySumEmpty(ks[..|ks| - 1]);
    }
  }

  /** Summed over any list of distinct months that covers the ledger, the monthly totals give the total. */
  lemma {:induction false} MonthlyAddsUp(data: seq<Sale>, ks: seq<MonthKey>)
    requires Distinct(ks)
    requires forall m :: m in Months(data) ==> m in ks
    ensures MonthlySum(data, ks) == TotalSales(data)
    decreases |data|
  {
    if data == [] {
      MonthlySumEmpty(ks);
    } else {
      var init, r := data[..|data| - 1], data[|data| - 1];
      assert data == init + [r];
      MonthsSnoc(init, r);
      MonthlyAddsUp(init, ks);
      MonthlySumSnoc(init, r, ks);
      SumSnoc(init, r, LineTotal);
    }
  }

  /** A dictionary whose values are the monthly totals sums to `MonthlySum`. */
  lemma {:induction false} SumValuesIsMonthlySum(data: seq<Sale>, ks: seq<MonthKey>, values: map<MonthKey, int>)
    requires forall k :: k in ks ==> k in values && values[k] == TotalSales(InMonth(data, k))
    ensures SumValues(ks, values) == MonthlySum(data, ks)
  {
    if ks != [] {
      assert forall k :: k in ks[..|ks| - 1] ==> k in ks;
      SumValuesIsMonthlySum(data, ks[..|ks| - 1], values);
    }
  }

  /** `sales` is what the loop of `monthWiseSales` holds after the records `d`. */
  ghost predicate MonthTotalsOf(sales: Dict<MonthKey, int>, d: seq<Sale>) {
    && sales.Valid()
    && sales.keys == Months(d)
    && forall m {:trigger sales.entries[m]} :: m in sales.entries ==> sales.entries[m] == TotalSales(InMonth(d, m))
  }

  /** One step of the loop of `monthWiseSales`: the record's month total, 0 when new, grows by its line total. */
  function AddSale(sales: Dict<MonthKey, int>, r: Sale): Dict<MonthKey, int> {
    sales.Put(r.Month(), sales.Get(r.Month(), 0) + r.total)
  }

  /** One record more keeps the loop's meaning. */
  lemma MonthTotalsStep(sales: Dict<MonthKey, int>, data: seq<Sale>, i: int)
    requires 0 <= i < |data|
    requires MonthTotalsOf(sales, data[..i])
    ensures MonthTotalsOf(AddSale(sales, data[i]), data[..i + 1])
  {
    MonthsAt(data, i);
    PutValid(sales, data[i].Month(), sales.Get(data[i].Month(), 0) + data[i].total);
    forall m | m in AddSale(sales, data[i]).entries
      ensures AddSale(sales, data[i]).entries[m]
              == TotalSales(InMonth(data[..i + 1], m))
    {
      MonthTotalAt(sales, data, i, m);
    }
    MonthTotalsIntro(AddSale(sales, data[i]), data[..i + 1]);
  }

  lemma MonthTotalsIntro(sales: Dict<MonthKey, int>, d: seq<Sale>)
    requires sales.Valid()
    requires sales.keys == Months(d)
    requires forall m :: m in sales.entries ==> sales.entries[m] == TotalSales(InMonth(d, m))
    ensures MonthTotalsOf(sales, d)
  {
  }

  lemma MonthTotalAt(sales: Dict<MonthKey, int>, data: seq<Sale>, i: int, m: MonthKey)
    requires 0 <= i < |data|
    requires MonthTotalsOf(sales, data[..i])
    requires m in AddSale(sales, data[i]).entries
    ensures AddSale(sales, data[i]).entries[m]
            == TotalSales(InMonth(data[..i + 1], m))
  {
    InMonthAt(data, i, m);
    if m == data[i].Month() {
      SumSnoc(InMonth(data[..i], m), data[i], LineTotal);
    }
  }

  /**
    `monthWiseSales`: one entry per month that occurs, in order of first
    occurrence, holding that month's line totals; the entries add up to
    the total sales.
   */
  method MonthWiseSales(data: seq<Sale>) returns (sales: Dict<MonthKey, int>)
    ensures sales.Valid() && sales.keys == Months(data)
    ensures forall m :: m in sales.entries ==> sales.entries[m] == TotalSales(InMonth(data, m))
    ensures SumValues(sales.keys, sales.entries) == TotalSales(data)
  {
    sales := Empty();
    for i := 0 to |data|
      invariant MonthTotalsOf(sales, data[..i])
    {
      MonthTotalsStep(sales, data, i);
      sales := AddSale(sales, data[i]);
    }
    assert data[..|data|] == data;
    SumValuesIsMonthlySum(data, sales.keys, sales.entries);
    MonthlyAddsUp(data, sales.keys);
  }

  // ---------------------------------------------------------------------------
  // Per (month, item) grouping shared by the two top-item reducers

  /** `counts` is what the per-item loop holds after the records `s` of one month. */
  ghost predicate ItemTotalsOf(counts: Dict<string, int>, s: seq<Sale>, metric: Metric) {
    && counts.Valid()
    && counts.keys == Items(s)
    && forall it {:trigger Sum(OfItem(s, it), metric)} :: it in counts.entries ==> counts.entries[it] == Sum(OfItem(s, it), metric)
  }

  /** `groups` is what the grouping loop holds after the records `data`. */
  ghost predicate MonthItemTotals(groups: Dict<MonthKey, Dict<string, int>>, data: seq<Sale>, metric: Metric) {
    && groups.Valid()
    && groups.keys == Months(data)
    && forall m {:trigger groups.entries[m]} :: m in groups.entries ==> ItemTotalsOf(groups.entries[m], InMonth(data, m), metric)
  }

  /** One record added to its month's object: its item's total, 0 when new, grows by the record's metric. */
  function Bump(counts: Dict<string, int>, r: Sale, metric: Metric): Dict<string, int> {
    counts.Put(r.item, counts.Get(r.item, 0) + Measure(r, metric))
  }

  /** One record added to the grouping; a month seen for the first time starts as an empty object. */
  function Tally(groups: Dict<MonthKey, Dict<string, int>>, r: Sale, metric: Metric): Dict<MonthKey, Dict<string, int>> {
    groups.Put(r.Month(), Bump(groups.Get(r.Month(), Empty()), r, metric))
  }

  /** The grouping after the records `s`, one `Tally` per record from the left. */
  function Grouped(s: seq<Sale>, metric: Metric): Dict<MonthKey, Dict<string, int>> {
    if s == [] then Empty() else Tally(Grouped(s[..|s| - 1], metric), s[|s| - 1], metric)
  }

  /** The grouping holds, for every month and item, the metric summed over that month's records of the item. */
  lemma {:induction false} GroupedTotals(s: seq<Sale>, metric: Metric)
    ensures MonthItemTotals(Grouped(s, metric), s, metric)
  {
    if s != [] {
      var init, r := s[..|s| - 1], s[|s| - 1];
      assert s == init + [r];
      GroupedTotals(init, metric);
      TallyStep(Grouped(init, metric), init, r, metric);
    }
  }

  lemma GroupedStep(data: seq<Sale>, i: int, metric: Metric)
    requires 0 <= i < |data|
    ensures Grouped(data[..i + 1], metric) == Tally(Grouped(data[..i], metric), data[i], metric)
  {
    assert data[..i + 1][..i] == data[..i];
  }

  /** One record more: `Tally` keeps the grouping up to date. */
  lemma TallyStep(groups: Dict<MonthKey, Dict<string, int>>, d: seq<Sale>, r: Sale, metric: Metric)
    requires MonthItemTotals(groups, d, metric)
    ensures MonthItemTotals(Tally(groups, r, metric), d + [r], metric)
  {
    var month := r.Month();
    var counts := groups.Get(month, Empty());
    assert ItemTotalsOf(counts, InMonth(d, month), metric);
    InnerTotalsStep(counts, InMonth(d, month), r, metric);
    InMonthSnoc(d, r, month);
    PutFacts(groups, month, Bump(counts, r, metric));
    MonthsSnoc(d, r);
    var next := Tally(groups, r, metric);
    forall m | m in next.entries && m != month
      ensures ItemTotalsOf(next.entries[m], InMonth(d + [r], m), metric)
    {
      InMonthSnoc(d, r, m);
    }
  }

  /** One record more for a month: `Bump` keeps that month's item totals up to date. */
  lemma InnerTotalsStep(counts: Dict<string, int>, s: seq<Sale>, r: Sale, metric: Metric)
    requires ItemTotalsOf(counts, s, metric)
    ensures ItemTotalsOf(Bump(counts, r, metric), s + [r], metric)
  {
    var next := Bump(counts, r, metric);
    PutFacts(counts, r.item, counts.Get(r.item, 0) + Measure(r, metric));
    ItemsSnoc(s, r);
    forall it | it in next.entries
      ensures next.entries[it] == Sum(OfItem(s + [r], it), metric)
    {
      BumpedTotal(counts, s, r, metric, it);
    }
  }

  /** One item's total after `Bump`. */
  lemma BumpedTotal(counts: Dict<string, int>, s: seq<Sale>, r: Sale, metric: Metric, it: string)
    requires ItemTotalsOf(counts, s, metric)
    requires it in Bump(counts, r, metric).entries
    ensures Bump(counts, r, metric).entries[it] == Sum(OfItem(s + [r], it), metric)
  {
    OfItemSnoc(s, r, it);
    if it == r.item {
      SumSnoc(OfItem(s, it), r, metric);
      if r.item !in counts.entries {
        assert OfItem(s, it) == [];
      }
    }
  }

  /**
    The first loop of `mostPopularItemEachMonth` (summing quantities) and of
    `itemsGeneratingMostRevenue` (summing line totals): for every month, in
    order of first occurrence, the items of that month in order of first
    occurrence, each with its summed metric.
   */
  method GroupSums(data: seq<Sale>, metric: Metric) returns (groups: Dict<MonthKey, Dict<string, int>>)
    ensures groups == Grouped(data, metric)
    ensures MonthItemTotals(groups, data, metric)
  {
    groups := Empty();
    for i := 0 to |data|
      invariant groups == Grouped(data[..i], metric)
    {
      groups := Tally(groups, data[i], metric);
      GroupedStep(data, i, metric);
    }
    assert data[..|data|] == data;
    GroupedTotals(data, metric);
  }

  // ---------------------------------------------------------------------------
  // Most popular item and highest-revenue item of each month

  /** The summed metric of each item of `s`: the object whose entries the month's `reduce` walks. */
  function ItemSums(s: seq<Sale>, metric: Metric): map<string, int> {
    map it | it in Items(s) :: Sum(OfItem(s, it), metric)
  }

  /** A month's object built by the grouping loop holds exactly `ItemSums`. */
  lemma TotalsAreItemSums(counts: Dict<string, int>, s: seq<Sale>, metric: Metric)
    requires ItemTotalsOf(counts, s, metric)
    ensures counts.entries == ItemSums(s, metric)
  {
  }

  /**
    The answer for the month whose records are `s`: the first item, in order
    of first occurrence, whose summed metric is positive and maximal, or the
    empty string when no item's sum is positive.
   */
  ghost predicate IsTopItem(best: string, s: seq<Sale>, metric: Metric) {
    IsLeader(best, Items(s), ItemSums(s, metric))
  }

  /** `Object.entries(obj).reduce(...)[0]`: the name the month's fold ends with. */
  function LeaderOf(counts: Dict<string, int>): string
    requires counts.Valid()
  {
    Leader(counts.keys, counts.entries).0
  }

  /** `groups` is well formed and so is each month's inner dictionary. */
  ghost predicate Groups(groups: Dict<MonthKey, Dict<string, int>>) {
    && groups.Valid()
    && forall m :: m in groups.entries ==> groups.entries[m].Valid()
  }

  /** One step of the second loop: the `i`-th month gets the name of its leader. */
  function Crown(leaders: Dict<MonthKey, string>, groups: Dict<MonthKey, Dict<string, int>>, i: int): Dict<MonthKey, string>
    requires Groups(groups)
    requires 0 <= i < |groups.keys|
  {
    leaders.Put(groups.keys[i], LeaderOf(groups.entries[groups.keys[i]]))
  }

  /** `leaders` is what the second loop holds after the first `i` months. */
  ghost predicate LeadersUpTo(leaders: Dict<MonthKey, string>, groups: Dict<MonthKey, Dict<string, int>>, i: int)
    requires Groups(groups)
    requires 0 <= i <= |groups.keys|
  {
    && leaders.Valid()
    && leaders.keys == groups.keys[..i]
    && forall m {:trigger leaders.entries[m]} :: m in leaders.entries ==>
         m in groups.entries && leaders.entries[m] == LeaderOf(groups.entries[m])
  }

  lemma CrownStep(leaders: Dict<MonthKey, string>, groups: Dict<MonthKey, Dict<string, int>>, i: int)
    requires Groups(groups)
    requires 0 <= i < |groups.keys|
    requires LeadersUpTo(leaders, groups, i)
    ensures LeadersUpTo(Crown(leaders, groups, i), groups, i + 1)
  {
    DistinctNotBefore(groups.keys, i);
    PutNew(leaders, groups.keys[i], LeaderOf(groups.entries[groups.keys[i]]));
    assert groups.keys[..i + 1] == groups.keys[..i] + [groups.keys[i]];
  }

  /** The second loop of both reducers: each month's entries folded to the name of their leader. */
  method PickLeaders(groups: Dict<MonthKey, Dict<string, int>>) returns (leaders: Dict<MonthKey, string>)
    requires Groups(groups)
    ensures leaders.Valid() && leaders.keys == groups.keys
    ensures forall m :: m in leaders.entries ==>
              m in groups.entries && leaders.entries[m] == LeaderOf(groups.entries[m])
  {
    leaders := Empty();
    for i := 0 to |groups.keys|
      invariant LeadersUpTo(leaders, groups, i)
    {
      CrownStep(leaders, groups, i);
      leaders := Crown(leaders, groups, i);
    }
    assert groups.keys[..|groups.keys|] == groups.keys;
  }

  /** The leaders of a grouping built from `data` are the months' top items. */
  lemma LeadersAreTopItems(groups: Dict<MonthKey, Dict<string, int>>, data: seq<Sale>, metric: Metric,
                           leaders: Dict<MonthKey, string>)
    requires MonthItemTotals(groups, data, metric)
    requires forall m :: m in leaders.entries ==>
               m in groups.entries && leaders.entries[m] == LeaderOf(groups.entries[m])
    ensures forall m :: m in leaders.entries ==> IsTopItem(leaders.entries[m], InMonth(data, m), metric)
  {
    forall m | m in leaders.entries
      ensures IsTopItem(leaders.entries[m], InMonth(data, m), metric)
    {
      var s := InMonth(data, m);
      TotalsAreItemSums(groups.entries[m], s, metric);
      LeaderIsLeader(Items(s), ItemSums(s, metric));
    }
  }

  /**
    `mostPopularItemEachMonth`: for every month, in order of first
    occurrence, the first item with the largest positive total quantity, or
    the empty string when no item's total quantity is positive.
   */
  method MostPopularItemEachMonth(data: seq<Sale>) returns (popular: Dict<MonthKey, string>)
    ensures popular.Valid() && popular.keys == Months(data)
    ensures forall m :: m in popular.entries ==> IsTopItem(popular.entries[m], InMonth(data, m), Quantity)
  {
    var itemCounts := GroupSums(data, Quantity);
    popular := PickLeaders(itemCounts);
    LeadersAreTopItems(itemCounts, data, Quantity, popular);
  }

  /**
    `itemsGeneratingMostRevenue`: for every month, in order of first
    occurrence, the first item with the largest positive revenue, or the
    empty string when no item's revenue is positive.
   */
  method ItemsGeneratingMostRevenue(data: seq<Sale>) returns (top: Dict<MonthKey, string>)
    ensures top.Valid() && top.keys == Months(data)
    ensures forall m :: m in top.entries ==> IsTopItem(top.entries[m], InMonth(data, m), LineTotal)
  {
    var revenue := GroupSums(data, LineTotal);
    top := PickLeaders(revenue);
    LeadersAreTopItems(revenue, data, LineTotal, top);
  }

  /** The top item of a month is determined by its records: the specification admits one answer. */
  lemma TopItemUnique(a: string, b: string, s: seq<Sale>, metric: Metric)
    requires IsTopItem(a, s, metric) && IsTopItem(b, s, metric)
    ensures a == b
  {
    LeaderUnique(a, b, Items(s), ItemSums(s, metric));
  }

  // ---------------------------------------------------------------------------
  // Minimum, maximum and average order of each item in each month

  /** `itemOrders[month][item].push(quantity)`, the list created empty for an item seen for the first time. */
  function Push(lists: Dict<string, seq<int>>, r: Sale): Dict<string, seq<int>> {
    lists.Put(r.item, lists.Get(r.item, []) + [r.quantity])
  }

  /** One record added to the order lists; a month seen for the first time starts as an empty object. */
  function Record(orders: Dict<MonthKey, Dict<string, seq<int>>>, r: Sale): Dict<MonthKey, Dict<string, seq<int>>> {
    orders.Put(r.Month(), Push(orders.Get(r.Month(), Empty()), r))
  }

  /** The order lists after the records `s`, one `Record` per record from the left. */
  function Recorded(s: seq<Sale>): Dict<MonthKey, Dict<string, seq<int>>> {
    if s == [] then Empty() else Record(Recorded(s[..|s| - 1]), s[|s| - 1])
  }

  /** `lists` is what the per-item lists of one month hold after that month's records `s`. */
  ghost predicate ItemOrdersOf(lists: Dict<string, seq<int>>, s: seq<Sale>) {
    && lists.Valid()
    && lists.keys == Items(s)
    && forall it {:trigger Quantities(OfItem(s, it))} :: it in lists.entries ==> lists.entries[it] == Quantities(OfItem(s, it))
  }

  /** `orders` is what the first loop of `minMaxAvgOrdersOfPopularItems` holds after the records `data`. */
  ghost predicate MonthItemOrders(orders: Dict<MonthKey, Dict<string, seq<int>>>, data: seq<Sale>) {
    && orders.Valid()
    && orders.keys == Months(data)
    && forall m {:trigger orders.entries[m]} :: m in orders.entries ==> ItemOrdersOf(orders.entries[m], InMonth(data, m))
  }

  /** The lists hold, for every month and item, the quantities of that month's records of the item, in input order. */
  lemma {:induction false} RecordedOrders(s: seq<Sale>)
    ensures MonthItemOrders(Recorded(s), s)
  {
    if s != [] {
      var init, r := s[..|s| - 1], s[|s| - 1];
      assert s == init + [r];
      RecordedOrders(init);
      RecordStep(Recorded(init), init, r);
    }
  }

  lemma RecordedStep(data: seq<Sale>, i: int)
    requires 0 <= i < |data|
    ensures Recorded(data[..i + 1]) == Record(Recorded(data[..i]), data[i])
  {
    assert data[..i + 1][..i] == data[..i];
  }

  /** One record more: `Record` keeps the lists up to date. */
  lemma RecordStep(orders: Dict<MonthKey, Dict<string, seq<int>>>, d: seq<Sale>, r: Sale)
    requires MonthItemOrders(orders, d)
    ensures MonthItemOrders(Record(orders, r), d + [r])
  {
    var month := r.Month();
    var lists := orders.Get(month, Empty());
    assert ItemOrdersOf(lists, InMonth(d, month));
    PushStep(lists, InMonth(d, month), r);
    InMonthSnoc(d, r, month);
    PutFacts(orders, month, Push(lists, r));
    MonthsSnoc(d, r);
    var next := Record(orders, r);
    forall m | m in next.entries && m != month
      ensures ItemOrdersOf(next.entries[m], InMonth(d + [r], m))
    {
      InMonthSnoc(d, r, m);
    }
  }

  /** One record more for a month: `Push` keeps that month's lists up to date. */
  lemma PushStep(lists: Dict<string, seq<int>>, s: seq<Sale>, r: Sale)
    requires ItemOrdersOf(lists, s)
    ensures ItemOrdersOf(Push(lists, r), s + [r])
  {
    var next := Push(lists, r);
    PutFacts(lists, r.item, lists.Get(r.item, []) + [r.quantity]);
    ItemsSnoc(s, r);
    forall it | it in next.entries
      ensures next.entries[it] == Quantities(OfItem(s + [r], it))
    {
      PushedList(lists, s, r, it);
    }
  }

  /** One item's list after `Push`. */
  lemma PushedList(lists: Dict<string, seq<int>>, s: seq<Sale>, r: Sale, it: string)
    requires ItemOrdersOf(lists, s)
    requires it in Push(lists, r).entries
    ensures Push(lists, r).entries[it] == Quantities(OfItem(s + [r], it))
  {
    OfItemSnoc(s, r, it);
    if it == r.item {
      QuantitiesSnoc(OfItem(s, it), r);
      if r.item !in lists.entries {
        assert OfItem(s, it) == [];
      }
    }
  }

  /** The first loop of `minMaxAvgOrdersOfPopularItems`: every order quantity, listed per month and item. */
  method ItemOrders(data: seq<Sale>) returns (orders: Dict<MonthKey, Dict<string, seq<int>>>)
    ensures orders == Recorded(data)
    ensures MonthItemOrders(orders, data)
  {
    orders := Empty();
    for i := 0 to |data|
      invariant orders == Recorded(data[..i])
    {
      orders := Record(orders, data[i]);
      RecordedStep(data, i);
    }
    assert data[..|data|] == data;
    RecordedOrders(data);
  }

  /** What the first loop leaves: every month has at least one item, every item at least one order. */
  ghost predicate OrdersShape(orders: Dict<MonthKey, Dict<string, seq<int>>>) {
    && orders.Valid()
    && forall m {:trigger orders.entries[m]} :: m in orders.entries ==>
         && orders.entries[m].Valid()
         && |orders.entries[m].keys| > 0
         && forall it {:trigger orders.entries[m].entries[it]} :: it in orders.entries[m].entries ==> |orders.entries[m].entries[it]| > 0
  }

  /** `if (!itemStats[month]) itemStats[month] = {}; itemStats[month][item] = st`. */
  function Enter(stats: Dict<MonthKey, Dict<string, OrderStats>>, month: MonthKey, item: string, st: OrderStats)
    : Dict<MonthKey, Dict<string, OrderStats>>
  {
    stats.Put(month, stats.Get(month, Empty()).Put(item, st))
  }

  /** `st` holds the statistics of the order lists of the items `its`, in that order, and nothing else. */
  ghost predicate StatsFor(st: Dict<string, OrderStats>, lists: Dict<string, seq<int>>, its: seq<string>) {
    && st.Valid()
    && st.keys == its
    && forall it {:trigger st.entries[it]} :: it in st.entries ==>
         it in lists.entries && |lists.entries[it]| > 0 && st.entries[it] == Stats(lists.entries[it])
  }

  /** The items of month `m` the second loop has handled when it is at month `i`, item `j`. */
  function Handled(orders: Dict<MonthKey, Dict<string, seq<int>>>, i: int, j: int, m: MonthKey): seq<string>
    requires m in orders.entries
  {
    var its := orders.entries[m].keys;
    if 0 <= i < |orders.keys| && m == orders.keys[i] && 0 <= j <= |its| then its[..j] else its
  }

  /** The state of the second loop at month `i`, item `j`; at `j == 0` the month's object does not exist yet. */
  ghost predicate Progress(stats: Dict<MonthKey, Dict<string, OrderStats>>, orders: Dict<MonthKey, Dict<string, seq<int>>>, i: int, j: int) {
    && 0 <= i <= |orders.keys|
    && 0 <= j
    && (j > 0 ==> i < |orders.keys| && orders.keys[i] in orders.entries && j <= |orders.entries[orders.keys[i]].keys|)
    && stats.Valid()
    && stats.keys == orders.keys[..i] + (if j > 0 then [orders.keys[i]] else [])
    && forall m {:trigger stats.entries[m]} :: m in stats.entries ==>
         m in orders.entries && StatsFor(stats.entries[m], orders.entries[m], Handled(orders, i, j, m))
  }

  /** One item more in the month's object. */
  lemma StatsForStep(st: Dict<string, OrderStats>, lists: Dict<string, seq<int>>, j: int)
    requires lists.Valid()
    requires 0 <= j < |lists.keys|
    requires |lists.entries[lists.keys[j]]| > 0
    requires StatsFor(st, lists, lists.keys[..j])
    ensures StatsFor(st.Put(lists.keys[j], Stats(lists.entries[lists.keys[j]])), lists, lists.keys[..j + 1])
  {
    var item := lists.keys[j];
    DistinctNotBefore(lists.keys, j);
    PutNew(st, item, Stats(lists.entries[item]));
    assert lists.keys[..j + 1] == lists.keys[..j] + [item];
  }

  /** The inner loop's body at month `i`, item `j`. */
  function EnterAt(stats: Dict<MonthKey, Dict<string, OrderStats>>, orders: Dict<MonthKey, Dict<string, seq<int>>>, i: int, j: int)
    : Dict<MonthKey, Dict<string, OrderStats>>
    requires OrdersShape(orders)
    requires 0 <= i < |orders.keys|
    requires 0 <= j < |orders.entries[orders.keys[i]].keys|
  {
    var lists := orders.entries[orders.keys[i]];
    Enter(stats, orders.keys[i], lists.keys[j], Stats(lists.entries[lists.keys[j]]))
  }

  /** `Progress` at an item `j > 0` of month `i`, from the month's object and the other months. */
  lemma ProgressIntro(stats: Dict<MonthKey, Dict<string, OrderStats>>, orders: Dict<MonthKey, Dict<string, seq<int>>>, i: int, j: int)
    requires 0 <= i < |orders.keys|
    requires orders.keys[i] in orders.entries
    requires 0 < j <= |orders.entries[orders.keys[i]].keys|
    requires stats.Valid()
    requires stats.keys == orders.keys[..i] + [orders.keys[i]]
    requires StatsFor(stats.entries[orders.keys[i]], orders.entries[orders.keys[i]], orders.entries[orders.keys[i]].keys[..j])
    requires forall m :: m in stats.entries && m != orders.keys[i] ==>
               m in orders.entries && StatsFor(stats.entries[m], orders.entries[m], orders.entries[m].keys)
    ensures Progress(stats, orders, i, j)
  {
  }

  /** Entering a statistic keeps the month order: the month is appended at its first item. */
  lemma EnterKeys(stats: Dict<MonthKey, Dict<string, OrderStats>>, orders: Dict<MonthKey, Dict<string, seq<int>>>, i: int, j: int)
    requires OrdersShape(orders)
    requires Progress(stats, orders, i, j)
    requires i < |orders.keys|
    requires j < |orders.entries[orders.keys[i]].keys|
    ensures EnterAt(stats, orders, i, j).Valid()
    ensures EnterAt(stats, orders, i, j).keys == orders.keys[..i] + [orders.keys[i]]
  {
    var month := orders.keys[i];
    DistinctNotBefore(orders.keys, i);
    var inner := EnterAt(stats, orders, i, j).entries[month];
    if j == 0 {
      PutNew(stats, month, inner);
    } else {
      PutExisting(stats, month, inner);
    }
  }

  /** The month's object gains the statistic of item `j`. */
  lemma EnterMonth(stats: Dict<MonthKey, Dict<string, OrderStats>>, orders: Dict<MonthKey, Dict<string, seq<int>>>, i: int, j: int)
    requires OrdersShape(orders)
    requires Progress(stats, orders, i, j)
    requires i < |orders.keys|
    requires j < |orders.entries[orders.keys[i]].keys|
    ensures StatsFor(EnterAt(stats, orders, i, j).entries[orders.keys[i]], orders.entries[orders.keys[i]],
                     orders.entries[orders.keys[i]].keys[..j + 1])
  {
    var month := orders.keys[i];
    var lists := orders.entries[month];
    DistinctNotBefore(orders.keys, i);
    assert StatsFor(stats.Get(month, Empty()), lists, lists.keys[..j]);
    StatsForStep(stats.Get(month, Empty()), lists, j);
  }

  /** The other months' objects are untouched and complete. */
  lemma EnterOthers(stats: Dict<MonthKey, Dict<string, OrderStats>>, orders: Dict<MonthKey, Dict<string, seq<int>>>, i: int, j: int)
    requires OrdersShape(orders)
    requires Progress(stats, orders, i, j)
    requires i < |orders.keys|
    requires j < |orders.entries[orders.keys[i]].keys|
    ensures forall m :: m in EnterAt(stats, orders, i, j).entries && m != orders.keys[i] ==>
              m in orders.entries && StatsFor(EnterAt(stats, orders, i, j).entries[m], orders.entries[m], orders.entries[m].keys)
  {
    forall m | m in EnterAt(stats, orders, i, j).entries && m != orders.keys[i]
      ensures m in orders.entries && StatsFor(EnterAt(stats, orders, i, j).entries[m], orders.entries[m], orders.entries[m].keys)
    {
      assert m in stats.entries;
      assert Handled(orders, i, j, m) == orders.entries[m].keys;
    }
  }

  /** The inner loop's body keeps `Progress`. */
  lemma EnterStep(stats: Dict<MonthKey, Dict<string, OrderStats>>, orders: Dict<MonthKey, Dict<string, seq<int>>>, i: int, j: int)
    requires OrdersShape(orders)
    requires Progress(stats, orders, i, j)
    requires i < |orders.keys|
    requires j < |orders.entries[orders.keys[i]].keys|
    ensures var lists := orders.entries[orders.keys[i]];
      Progress(Enter(stats, orders.keys[i], lists.keys[j], Stats(lists.entries[lists.keys[j]])), orders, i, j + 1)
  {
    EnterKeys(stats, orders, i, j);
    EnterMonth(stats, orders, i, j);
    EnterOthers(stats, orders, i, j);
    ProgressIntro(EnterAt(stats, orders, i, j), orders, i, j + 1);
  }

  /** After a month's last item the outer loop moves on. */
  lemma NextMonth(stats: Dict<MonthKey, Dict<string, OrderStats>>, orders: Dict<MonthKey, Dict<string, seq<int>>>, i: int)
    requires OrdersShape(orders)
    requires 0 <= i < |orders.keys|
    requires Progress(stats, orders, i, |orders.entries[orders.keys[i]].keys|)
    ensures Progress(stats, orders, i + 1, 0)
  {
    var month := orders.keys[i];
    assert orders.entries[month].keys[..|orders.entries[month].keys|] == orders.entries[month].keys;
    assert orders.keys[..i + 1] == orders.keys[..i] + [month];
    DistinctNotBefore(orders.keys, i);
  }

  /**
    The second loop of `minMaxAvgOrdersOfPopularItems`: for every month and
    every item of it, in the order of the lists, the minimum, maximum and
    mean of the item's order quantities.
   */
  method SummarizeOrders(orders: Dict<MonthKey, Dict<string, seq<int>>>) returns (stats: Dict<MonthKey, Dict<string, OrderStats>>)
    requires OrdersShape(orders)
    ensures stats.Valid() && stats.keys == orders.keys
    ensures forall m :: m in stats.entries ==> m in orders.entries && StatsFor(stats.entries[m], orders.entries[m], orders.entries[m].keys)
  {
    stats := Empty();
    for i := 0 to |orders.keys|
      invariant Progress(stats, orders, i, 0)
    {
      var month := orders.keys[i];
      var lists := orders.entries[month];
      for j := 0 to |lists.keys|
        invariant Progress(stats, orders, i, j)
      {
        var item := lists.keys[j];
        var quantities := lists.entries[item];
        var min, max, avg := Min(quantities), Max(quantities), Mean(quantities);
        EnterStep(stats, orders, i, j);
        stats := Enter(stats, month, item, OrderStats(min, max, avg));
      }
      NextMonth(stats, orders, i);
    }
    assert orders.keys[..|orders.keys|] == orders.keys;
  }

  /** The order lists built from `data` have the shape the second loop relies on. */
  lemma OrdersHaveShape(orders: Dict<MonthKey, Dict<string, seq<int>>>, data: seq<Sale>)
    requires MonthItemOrders(orders, data)
    ensures OrdersShape(orders)
  {
    forall m | m in orders.entries
      ensures && orders.entries[m].Valid()
              && |orders.entries[m].keys| > 0
              && forall it :: it in orders.entries[m].entries ==> |orders.entries[m].entries[it]| > 0
    {
      var s := InMonth(data, m);
      assert ItemOrdersOf(orders.entries[m], s);
      ItemsNonEmpty(s);
      forall it | it in orders.entries[m].entries
        ensures |orders.entries[m].entries[it]| > 0
      {
        assert |Quantities(OfItem(s, it))| == |OfItem(s, it)|;
      }
    }
  }

  /**
    For the month whose records are `s`: one entry per item, in order of
    first occurrence, holding the minimum, maximum and mean of that item's
    order quantities.
   */
  ghost predicate ItemStatsOf(st: Dict<string, OrderStats>, s: seq<Sale>) {
    && st.Valid()
    && st.keys == Items(s)
    && forall it {:trigger st.entries[it]} :: it in st.entries ==>
         |OfItem(s, it)| > 0 && st.entries[it] == Stats(Quantities(OfItem(s, it)))
  }

  /** Statistics taken over a month's order lists are the statistics of the month's records. */
  lemma StatsOfRecords(st: Dict<string, OrderStats>, lists: Dict<string, seq<int>>, s: seq<Sale>)
    requires StatsFor(st, lists, lists.keys)
    requires ItemOrdersOf(lists, s)
    ensures ItemStatsOf(st, s)
  {
    forall it | it in st.entries
      ensures |OfItem(s, it)| > 0 && st.entries[it] == Stats(Quantities(OfItem(s, it)))
    {
      assert lists.entries[it] == Quantities(OfItem(s, it));
    }
  }

  /**
    `minMaxAvgOrdersOfPopularItems`: for every month, in order of first
    occurrence, and every item of that month, in order of first occurrence,
    the smallest, the largest and the mean quantity of its orders.
   */
  method MinMaxAvgOrdersOfPopularItems(data: seq<Sale>) returns (itemStats: Dict<MonthKey, Dict<string, OrderStats>>)
    ensures itemStats.Valid() && itemStats.keys == Months(data)
    ensures forall m :: m in itemStats.entries ==> ItemStatsOf(itemStats.entries[m], InMonth(data, m))
  {
    var itemOrders := ItemOrders(data);
    OrdersHaveShape(itemOrders, data);
    itemStats := SummarizeOrders(itemOrders);
    forall m | m in itemStats.entries
      ensures ItemStatsOf(itemStats.entries[m], InMonth(data, m))
    {
      StatsOfRecords(itemStats.entries[m], itemOrders.entries[m], InMonth(data, m));
    }
  }

  /** Adding up a list of quantities gives the summed quantity of the records. */
  lemma {:induction false} TotalQuantities(s: seq<Sale>)
    ensures Total(Quantities(s)) == Sum(s, Quantity)
  {
    if s != [] {
      var init := s[..|s| - 1];
      assert Quantities(s)[..|s| - 1] == Quantities(init);
      TotalQuantities(init);
    }
  }

  /**
    An item's mean order is its total quantity, the number
    `mostPopularItemEachMonth` ranks the month's items by, divided by its
    number of orders.
   */
  lemma AverageOrder(s: seq<Sale>, it: string)
    requires |OfItem(s, it)| > 0
    ensures Stats(Quantities(OfItem(s, it))).avg == Sum(OfItem(s, it), Quantity) as real / |OfItem(s, it)| as real
  {
    TotalQuantities(OfItem(s, it));
  }

  /** A (month, item) pair has an entry in the per-item reports exactly when some record has that month and item. */
  lemma PairListed(data: seq<Sale>, m: MonthKey, it: string)
    ensures it in Items(InMonth(data, m)) <==> exists x :: x in data && x.Month() == m && x.item == it
  {
    ItemsMembers(InMonth(data, m), it);
    forall x
      ensures x in InMonth(data, m) <==> x in data && x.Month() == m
    {
      InMonthMembers(data, m, x);
    }
  }

  /** Every entry of the statistics report: min and max are orders of the item, the mean lies between them and is total over count. */
  lemma ReportedStats(st: Dict<string, OrderStats>, s: seq<Sale>, it: string)
    requires ItemStatsOf(st, s)
    requires it in st.entries
    ensures st.entries[it].min in Quantities(OfItem(s, it)) && st.entries[it].max in Quantities(OfItem(s, it))
    ensures st.entries[it].min as real <= st.entries[it].avg <= st.entries[it].max as real
    ensures st.entries[it].avg == Sum(OfItem(s, it), Quantity) as real / |OfItem(s, it)| as real
  {
    StatsBounds(Quantities(OfItem(s, it)));
    AverageOrder(s, it);
  }

  /**
    The five reports of one ledger, as the script prints them: the four
    monthly reports list the same months in the same order, and the monthly
    totals add up to the total sales.
   */
  method AllReports(data: seq<Sale>)
    returns (total: int, sales: Dict<MonthKey, int>, popular: Dict<MonthKey, string>,
             top: Dict<MonthKey, string>, itemStats: Dict<MonthKey, Dict<string, OrderStats>>)
    ensures total == TotalSales(data)
    ensures sales.keys == popular.keys == top.keys == itemStats.keys == Months(data)
    ensures sales.Valid() && SumValues(sales.keys, sales.entries) == total
  {
    total := TotalSales(data);
    sales := MonthWiseSales(data);
    popular := MostPopularItemEachMonth(data);
    top := ItemsGeneratingMostRevenue(data);
    itemStats := MinMaxAvgOrdersOfPopularItems(data);
  }
}
