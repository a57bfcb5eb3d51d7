/**
  The parsed sales ledger and the groupings every reducer is specified by.
  Each grouping is a fold from the left over the records (the last record is
  the one added last), so that a loop over `data[..i]` can be tied to it.
 */
module Records {
  import opened OrderedDict

  /** A calendar date; a time of day, if the ledger had one, plays no part in grouping. */
  datatype Date = Date(year: int, month: int, day: int)

  /**
    The month a date falls in, the key the ledger is grouped by. The source
    renders it as a long month name and a year; two dates of the same month
    and year always give the same key.
   */
  datatype MonthKey = MonthKey(year: int, month: int)

  function KeyOf(d: Date): MonthKey {
    MonthKey(d.year, d.month)
  }

  /**
    One line of the ledger: date, item, unit price, quantity and line total.
    Money is counted in cents. The unit price is carried but never read.
   */
  datatype Sale = Sale(date: Date, item: string, unitPrice: int, quantity: int, total: int) {
    function Month(): MonthKey {
      KeyOf(date)
    }
  }

  /** The number a reducer accumulates from one record. */
  datatype Metric = Quantity | LineTotal

  function Measure(r: Sale, metric: Metric): int {
    match metric
    case Quantity => r.quantity
    case LineTotal => r.total
  }

  /** Left-to-right sum of the metric over the records, starting at 0. */
  function Sum(s: seq<Sale>, metric: Metric): int {
    if s == [] then 0 else Sum(s[..|s| - 1], metric) + Measure(s[|s| - 1], metric)
  }

  /** The months that occur in `s`, each once, in the order of their first record. */
  function Months(s: seq<Sale>): (r: seq<MonthKey>)
    ensures Distinct(r)
  {
    if s == [] then []
    else
      AddNewDistinct(Months(s[..|s| - 1]), s[|s| - 1].Month());
      AddNew(Months(s[..|s| - 1]), s[|s| - 1].Month())
  }

  /** The items that occur in `s`, each once, in the order of their first record. */
  function Items(s: seq<Sale>): (r: seq<string>)
    ensures Distinct(r)
  {
    if s == [] then []
    else
      AddNewDistinct(Items(s[..|s| - 1]), s[|s| - 1].item);
      AddNew(Items(s[..|s| - 1]), s[|s| - 1].item)
  }

  /** The records of month `m`, in input order. */
  function InMonth(s: seq<Sale>, m: MonthKey): (r: seq<Sale>)
    ensures |r| > 0 <==> m in Months(s)
  {
    if s == [] then []
    else if s[|s| - 1].Month() == m then InMonth(s[..|s| - 1], m) + [s[|s| - 1]]
    else InMonth(s[..|s| - 1], m)
  }

  /** The records of item `it`, in input order. */
  function OfItem(s: seq<Sale>, it: string): (r: seq<Sale>)
    ensures |r| > 0 <==> it in Items(s)
  {
    if s == [] then []
    else if s[|s| - 1].item == it then OfItem(s[..|s| - 1], it) + [s[|s| - 1]]
    else OfItem(s[..|s| - 1], it)
  }

  /** The quantity of each record, in input order. */
  function Quantities(s: seq<Sale>): (r: seq<int>)
    ensures |r| == |s|
    ensures forall i :: 0 <= i < |s| ==> r[i] == s[i].quantity
  {
    if s == [] then [] else Quantities(s[..|s| - 1]) + [s[|s| - 1].quantity]
  }

  // One record more at the end of the ledger, for each grouping.

  lemma SumSnoc(s: seq<Sale>, r: Sale, metric: Metric)
    ensures Sum(s + [r], metric) == Sum(s, metric) + Measure(r, metric)
  {
    assert (s + [r])[..|s|] == s;
  }

  lemma MonthsSnoc(s: seq<Sale>, r: Sale)
    ensures Months(s + [r]) == AddNew(Months(s), r.Month())
  {
    assert (s + [r])[..|s|] == s;
  }

  lemma ItemsSnoc(s: seq<Sale>, r: Sale)
    ensures Items(s + [r]) == AddNew(Items(s), r.item)
  {
    assert (s + [r])[..|s|] == s;
  }

  lemma InMonthSnoc(s: seq<Sale>, r: Sale, m: MonthKey)
    ensures InMonth(s + [r], m) == if r.Month() == m then InMonth(s, m) + [r] else InMonth(s, m)
  {
    assert (s + [r])[..|s|] == s;
  }

  lemma OfItemSnoc(s: seq<Sale>, r: Sale, it: string)
    ensures OfItem(s + [r], it) == if r.item == it then OfItem(s, it) + [r] else OfItem(s, it)
  {
    assert (s + [r])[..|s|] == s;
  }

  lemma MonthsAt(data: seq<Sale>, i: int)
    requires 0 <= i < |data|
    ensures Months(data[..i + 1]) == AddNew(Months(data[..i]), data[i].Month())
  {
    assert data[..i + 1][..i] == data[..i];
  }

  lemma InMonthAt(data: seq<Sale>, i: int, m: MonthKey)
    requires 0 <= i < |data|
    ensures InMonth(data[..i + 1], m) == if data[i].Month() == m then InMonth(data[..i], m) + [data[i]] else InMonth(data[..i], m)
  {
    assert data[..i + 1][..i] == data[..i];
  }

  lemma QuantitiesSnoc(s: seq<Sale>, r: Sale)
    ensures Quantities(s + [r]) == Quantities(s) + [r.quantity]
  {
  }

  /** A month is listed exactly when some record falls in it. */
  lemma {:induction false} MonthsMembers(s: seq<Sale>, m: MonthKey)
    ensures m in Months(s) <==> exists x :: x in s && x.Month() == m
  {
    if s != [] {
      var init, r := s[..|s| - 1], s[|s| - 1];
      assert s == init + [r];
      MonthsMembers(init, m);
    }
  }

  /** An item is listed exactly when some record names it. */
  lemma {:induction false} ItemsMembers(s: seq<Sale>, it: string)
    ensures it in Items(s) <==> exists x :: x in s && x.item == it
  {
    if s != [] {
      var init, r := s[..|s| - 1], s[|s| - 1];
      assert s == init + [r];
      ItemsMembers(init, it);
    }
  }

  /** The records of a month are the records whose date falls in it. */
  lemma {:induction false} InMonthMembers(s: seq<Sale>, m: MonthKey, x: Sale)
    ensures x in InMonth(s, m) <==> x in s && x.Month() == m
  {
    if s != [] {
      var init, r := s[..|s| - 1], s[|s| - 1];
      assert s == init + [r];
      InMonthMembers(init, m, x);
    }
  }

  /**
    Items are listed in order of first occurrence: any record of a later
    listed item comes after some record of an earlier listed one.
   */
  lemma {:induction false} ItemsFirstOrder(s: seq<Sale>, p: int, q: int, x: int)
    requires 0 <= p < q < |Items(s)|
    requires 0 <= x < |s| && s[x].item == Items(s)[q]
    ensures exists y :: 0 <= y < x && s[y].item == Items(s)[p]
  {
    var init, r := s[..|s| - 1], s[|s| - 1];
    assert s == init + [r];
    ItemsSnoc(init, r);
    var before := Items(init);
    if r.item !in before {
      // The new item sits at the end of the list.
      assert Items(s) == before + [r.item];
      assert Items(s)[|before|] == r.item;
    }
    if x == |s| - 1 {
      if r.item in before {
        ItemsMembers(init, r.item);
        var x' :| x' in init && x'.item == r.item;
        var k :| 0 <= k < |init| && init[k] == x';
        ItemsFirstOrder(init, p, q, k);
      } else {
        assert q == |before|;
        ItemsMembers(init, before[p]);
        var y' :| y' in init && y'.item == before[p];
        var k :| 0 <= k < |init| && init[k] == y';
        assert s[k].item == Items(s)[p];
      }
    } else {
      assert init[x] == s[x];
      ItemsMembers(init, s[x].item);
      assert s[x].item in before;
      assert q < |before|;
      ItemsFirstOrder(init, p, q, x);
      var y :| 0 <= y < x && init[y].item == before[p];
      assert s[y] == init[y];
    }
  }

  /**
    Months are listed in order of first occurrence: any record of a later
    listed month comes after some record of an earlier listed one.
   */
  lemma {:induction false} MonthsFirstOrder(s: seq<Sale>, p: int, q: int, x: int)
    requires 0 <= p < q < |Months(s)|
    requires 0 <= x < |s| && s[x].Month() == Months(s)[q]
    ensures exists y :: 0 <= y < x && s[y].Month() == Months(s)[p]
  {
    var init, r := s[..|s| - 1], s[|s| - 1];
    assert s == init + [r];
    MonthsSnoc(init, r);
    var before := Months(init);
    if r.Month() !in before {
      // The new month sits at the end of the list.
      assert Months(s) == before + [r.Month()];
      assert Months(s)[|before|] == r.Month();
    }
    if x == |s| - 1 {
      if r.Month() in before {
        MonthsMembers(init, r.Month());
        var x' :| x' in init && x'.Month() == r.Month();
        var k :| 0 <= k < |init| && init[k] == x';
        MonthsFirstOrder(init, p, q, k);
      } else {
        assert q == |before|;
        MonthsMembers(init, before[p]);
        var y' :| y' in init && y'.Month() == before[p];
        var k :| 0 <= k < |init| && init[k] == y';
        assert s[k].Month() == Months(s)[p];
      }
    } else {
      assert init[x] == s[x];
      MonthsMembers(init, s[x].Month());
      assert s[x].Month() in before;
      assert q < |before|;
      MonthsFirstOrder(init, p, q, x);
      var y :| 0 <= y < x && init[y].Month() == before[p];
      assert s[y] == init[y];
    }
  }

  /** A non-empty ledger names at least one item. */
  lemma ItemsNonEmpty(s: seq<Sale>)
    requires |s| > 0
    ensures |Items(s)| > 0
  {
    assert s[|s| - 1].item in Items(s);
  }

  /** Summing a concatenation sums its parts. */
  lemma {:induction false} SumAppend(a: seq<Sale>, b: seq<Sale>, metric: Metric)
    ensures Sum(a + b, metric) == Sum(a, metric) + Sum(b, metric)
    decreases |b|
  {
    if b == [] {
      assert a + b == a;
    } else {
      var b' := b[..|b| - 1];
      assert a + b == (a + b') + [b[|b| - 1]];
      assert b == b' + [b[|b| - 1]];
      SumSnoc(a + b', b[|b| - 1], metric);
      SumSnoc(b', b[|b| - 1], metric);
      SumAppend(a, b', metric);
    }
  }

  /** The sum does not depend on the order of the records. */
  lemma {:induction false} SumPermutation(a: seq<Sale>, b: seq<Sale>, metric: Metric)
    requires multiset(a) == multiset(b)
    ensures Sum(a, metric) == Sum(b, metric)
    decreases |a|
  {
    if a == [] {
      assert |b| == |multiset(b)| == 0;
    } else {
      var a' := a[..|a| - 1];
      var x := a[|a| - 1];
      assert a == a' + [x];
      assert x in multiset(b);
      var j :| 0 <= j < |b| && b[j] == x;
      var b' := b[..j] + b[j + 1..];
      assert b == b[..j] + [x] + b[j + 1..];
      assert multiset(b') == multiset(b) - multiset{x};
      assert multiset(a') == multiset(a) - multiset{x};
      SumPermutation(a', b', metric);
      SumSnoc(a', x, metric);
      SumAppend(b[..j] + [x], b[j + 1..], metric);
      SumSnoc(b[..j], x, metric);
      SumAppend(b[..j], b[j + 1..], metric);
    }
  }
}
