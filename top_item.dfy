/**
  The per-month argmax of the source: a fold over a month's (item, total)
  entries in insertion order with a running pair that starts at `('', 0)`
  and is replaced only by an entry whose total is strictly greater.
 */
module TopItem {

  /** The running pair after folding over `items`, looking each total up in `totals`. */
  function Leader(items: seq<string>, totals: map<string, int>): (string, int)
    requires forall it :: it in items ==> it in totals
  {
    if items == [] then ("", 0)
    else
      var last := items[|items| - 1];
      var best := Leader(items[..|items| - 1], totals);
      if totals[last] > best.1 then (last, totals[last]) else best
  }

  /**
    What the fold's answer means: either no total is positive and the answer
    is the empty string, or the answer is an item with a positive total that
    no other total exceeds and that every item seen before it falls short of.
   */
  ghost predicate IsLeader(best: string, items: seq<string>, totals: map<string, int>)
    requires forall it :: it in items ==> it in totals
  {
    || (best == "" && forall j :: 0 <= j < |items| ==> totals[items[j]] <= 0)
    || exists i :: 0 <= i < |items| && items[i] == best && IsFirstMaximum(i, items, totals)
  }

  /** `items[i]` has a positive total, the largest, and the first index that has it. */
  ghost predicate IsFirstMaximum(i: int, items: seq<string>, totals: map<string, int>)
    requires 0 <= i < |items|
    requires forall it :: it in items ==> it in totals
  {
    && totals[items[i]] > 0
    && (forall j :: 0 <= j < |items| ==> totals[items[j]] <= totals[items[i]])
    && (forall j :: 0 <= j < i ==> totals[items[j]] < totals[items[i]])
  }

  /** The running pair's value is not negative, bounds every total, and is 0 only with the empty string. */
  lemma {:induction false} LeaderBounds(items: seq<string>, totals: map<string, int>)
    requires forall it :: it in items ==> it in totals
    ensures var best := Leader(items, totals);
      && best.1 >= 0
      && (forall j :: 0 <= j < |items| ==> totals[items[j]] <= best.1)
      && (best.1 == 0 ==> best.0 == "")
  {
    if items != [] {
      var init := items[..|items| - 1];
      assert forall it :: it in init ==> it in items;
      LeaderBounds(init, totals);
      assert forall j :: 0 <= j < |init| ==> items[j] == init[j];
    }
  }

  /** A positive running pair is a real entry, and every item before it has a smaller total. */
  lemma {:induction false} LeaderFacts(items: seq<string>, totals: map<string, int>)
    requires forall it :: it in items ==> it in totals
    ensures var best := Leader(items, totals);
      best.1 > 0 ==> exists i :: 0 <= i < |items| && items[i] == best.0 && totals[best.0] == best.1
                                 && forall j :: 0 <= j < i ==> totals[items[j]] < best.1
  {
    if items != [] {
      var init := items[..|items| - 1];
      var last := items[|items| - 1];
      assert forall it :: it in init ==> it in items;
      LeaderFacts(init, totals);
      var best := Leader(init, totals);
      if totals[last] > best.1 {
        LeaderBounds(init, totals);
        assert items[|items| - 1] == last;
        assert forall j :: 0 <= j < |init| ==> items[j] == init[j];
      } else if best.1 > 0 {
        var i :| 0 <= i < |init| && init[i] == best.0 && totals[best.0] == best.1
                 && forall j :: 0 <= j < i ==> totals[init[j]] < best.1;
        assert items[i] == best.0;
        assert forall j :: 0 <= j < i ==> items[j] == init[j];
      }
    }
  }

  /** The fold computes the leader. */
  lemma LeaderIsLeader(items: seq<string>, totals: map<string, int>)
    requires forall it :: it in items ==> it in totals
    ensures IsLeader(Leader(items, totals).0, items, totals)
  {
    LeaderBounds(items, totals);
    LeaderFacts(items, totals);
    var best := Leader(items, totals);
    if best.1 > 0 {
      var i :| 0 <= i < |items| && items[i] == best.0 && totals[best.0] == best.1
               && forall j :: 0 <= j < i ==> totals[items[j]] < best.1;
      assert IsFirstMaximum(i, items, totals);
    }
  }

  /** There is only one leader, so the predicate is a complete specification of the fold. */
  lemma LeaderUnique(a: string, b: string, items: seq<string>, totals: map<string, int>)
    requires forall it :: it in items ==> it in totals
    requires IsLeader(a, items, totals) && IsLeader(b, items, totals)
    ensures a == b
  {
    if exists j :: 0 <= j < |items| && totals[items[j]] > 0 {
      var i1 :| 0 <= i1 < |items| && items[i1] == a && IsFirstMaximum(i1, items, totals);
      var i2 :| 0 <= i2 < |items| && items[i2] == b && IsFirstMaximum(i2, items, totals);
      assert !(i1 < i2) && !(i2 < i1);
    }
  }

  /**
    Ties go to the first: if `items[i]` has a positive, maximal total and
    every item before it falls short, the fold answers `items[i]`, whatever
    the items after it that equal its total.
   */
  lemma TieGoesToFirst(items: seq<string>, totals: map<string, int>, i: int)
    requires forall it :: it in items ==> it in totals
    requires 0 <= i < |items| && IsFirstMaximum(i, items, totals)
    ensures Leader(items, totals).0 == items[i]
  {
    LeaderIsLeader(items, totals);
    assert IsLeader(items[i], items, totals);
    LeaderUnique(Leader(items, totals).0, items[i], items, totals);
  }

  /** When no total is positive the answer is the initial empty string, not the first item. */
  lemma AllZeroGivesEmpty(items: seq<string>, totals: map<string, int>)
    requires forall it :: it in items ==> it in totals
    requires forall j :: 0 <= j < |items| ==> totals[items[j]] <= 0
    ensures Leader(items, totals).0 == ""
  {
    LeaderBounds(items, totals);
    LeaderFacts(items, totals);
  }
}
