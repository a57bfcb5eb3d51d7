/**
  The statistics of one (month, item) group: the smallest and largest
  quantity of its list and the arithmetic mean as an unrounded real.
 */
module Statistics {

  datatype OrderStats = OrderStats(min: int, max: int, avg: real)

  /** `Math.min(...qs)`. */
  function Min(qs: seq<int>): (r: int)
    requires |qs| > 0
    ensures r in qs
    ensures forall q :: q in qs ==> r <= q
  {
    if |qs| == 1 then qs[0]
    else
      var m := Min(qs[..|qs| - 1]);
      assert forall q :: q in qs ==> q in qs[..|qs| - 1] || q == qs[|qs| - 1];
      if qs[|qs| - 1] < m then qs[|qs| - 1] else m
  }

  /** `Math.max(...qs)`. */
  function Max(qs: seq<int>): (r: int)
    requires |qs| > 0
    ensures r in qs
    ensures forall q :: q in qs ==> q <= r
  {
    if |qs| == 1 then qs[0]
    else
      var m := Max(qs[..|qs| - 1]);
      assert forall q :: q in qs ==> q in qs[..|qs| - 1] || q == qs[|qs| - 1];
      if qs[|qs| - 1] > m then qs[|qs| - 1] else m
  }

  /** `qs.reduce((sum, q) => sum + q, 0)`. */
  function Total(qs: seq<int>): int {
    if qs == [] then 0 else Total(qs[..|qs| - 1]) + qs[|qs| - 1]
  }

  /** `qs.reduce(...) / qs.length`, without rounding. */
  function Mean(qs: seq<int>): real
    requires |qs| > 0
  {
    Total(qs) as real / |qs| as real
  }

  /** The statistics of a non-empty quantity list. */
  function Stats(qs: seq<int>): OrderStats
    requires |qs| > 0
  {
    OrderStats(Min(qs), Max(qs), Mean(qs))
  }

  /** A sum of `n` numbers is at least `n` times any lower bound. */
  lemma {:induction false} TotalAtLeast(qs: seq<int>, lo: int)
    requires forall q :: q in qs ==> lo <= q
    ensures |qs| * lo <= Total(qs)
  {
    if qs != [] {
      var init := qs[..|qs| - 1];
      assert forall q :: q in init ==> q in qs;
      TotalAtLeast(init, lo);
      assert qs[|qs| - 1] in qs;
      assert |qs| * lo == |init| * lo + lo;
    }
  }

  /** A sum of `n` numbers is at most `n` times any upper bound. */
  lemma {:induction false} TotalAtMost(qs: seq<int>, hi: int)
    requires forall q :: q in qs ==> q <= hi
    ensures Total(qs) <= |qs| * hi
  {
    if qs != [] {
      var init := qs[..|qs| - 1];
      assert forall q :: q in init ==> q in qs;
      TotalAtMost(init, hi);
      assert qs[|qs| - 1] in qs;
      assert |qs| * hi == |init| * hi + hi;
    }
  }

  /**
    The minimum and maximum are values of the list that bound all of it,
    and the mean lies between them.
   */
  lemma StatsBounds(qs: seq<int>)
    requires |qs| > 0
    ensures var s := Stats(qs);
      && s.min in qs && s.max in qs
      && (forall q :: q in qs ==> s.min <= q <= s.max)
      && s.min as real <= s.avg <= s.max as real
  {
    TotalAtLeast(qs, Min(qs));
    TotalAtMost(qs, Max(qs));
    MeanBetween(Total(qs), |qs|, Min(qs), Max(qs));
  }

  /** The mean times the number of orders is the summed quantity. */
  lemma MeanTimesCount(qs: seq<int>)
    requires |qs| > 0
    ensures Mean(qs) * |qs| as real == Total(qs) as real
  {
    DivTimes(Total(qs) as real, |qs| as real);
  }

  /** Dividing a sum that lies between `n * lo` and `n * hi` by `n` gives a value between `lo` and `hi`. */
  lemma MeanBetween(sum: int, n: int, lo: int, hi: int)
    requires n > 0
    requires n * lo <= sum <= n * hi
    ensures lo as real <= sum as real / n as real <= hi as real
  {
    var r := n as real;
    assert (n * lo) as real == r * lo as real;
    assert (n * hi) as real == r * hi as real;
  }

  lemma DivTimes(sum: real, n: real)
    requires n != 0.0
    ensures sum / n * n == sum
  {
  }

  /** Two orders of 10 and 3 units give min 3, max 10 and mean 6.5. */
  lemma PenInJanuary()
    ensures Stats([10, 3]) == OrderStats(3, 10, 6.5)
  {
    assert Total([10, 3]) == 13 by {
      assert [10, 3][..1] == [10];
      assert [10][..0] == [];
    }
  }
}
