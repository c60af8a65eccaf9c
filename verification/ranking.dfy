/** Ordering estimates by total cost (`calculations.sort((a, b) =>
    a.totalCost - b.totalCost)` in src/utils/costCalculator.ts). The
    comparator sort of JavaScript is stable, so estimates of equal cost keep
    their relative order; the model is a stable insertion sort. */
module Ranking {
  import opened Types

  /** Each estimate costs at most as much as the next one. */
  predicate SortedByCost(s: seq<CostEstimate>) {
    |s| <= 1 || (s[0].totalCost <= s[1].totalCost && SortedByCost(s[1..]))
  }

  /** Sorted by cost means every estimate costs at most as much as every
      later one, and conversely. */
  lemma {:induction false} SortedByCostIsOrdered(s: seq<CostEstimate>)
    ensures SortedByCost(s) <==> forall i, j :: 0 <= i < j < |s| ==> s[i].totalCost <= s[j].totalCost
  {
    if |s| > 1 {
      SortedByCostIsOrdered(s[1..]);
      if SortedByCost(s) {
        forall i, j | 0 <= i < j < |s| ensures s[i].totalCost <= s[j].totalCost {
          assert s[j] == s[1..][j - 1];
          if i > 0 {
            assert s[i] == s[1..][i - 1];
          } else if j > 1 {
            assert s[1] == s[1..][0];
          }
        }
      } else {
        if s[0].totalCost <= s[1].totalCost {
          var k, l :| 0 <= k < l < |s[1..]| && s[1..][k].totalCost > s[1..][l].totalCost;
          assert s[k + 1].totalCost > s[l + 1].totalCost;
        }
      }
    }
  }

  /** The estimates of `s` whose total is exactly `c`, in their order in `s`. */
  function WithCost(s: seq<CostEstimate>, c: real): seq<CostEstimate> {
    if |s| == 0 then []
    else (if s[0].totalCost == c then [s[0]] else []) + WithCost(s[1..], c)
  }

  /** `WithCost` keeps exactly the estimates of cost `c`. */
  lemma {:induction false} WithCostMembers(s: seq<CostEstimate>, c: real)
    ensures forall e :: e in WithCost(s, c) <==> e in s && e.totalCost == c
  {
    if |s| > 0 {
      WithCostMembers(s[1..], c);
      assert forall e :: e in s <==> e == s[0] || e in s[1..];
    }
  }

  /** Places `x` in front of the first estimate that costs at least as much,
      so that `x` precedes every estimate of equal cost. */
  function Insert(x: CostEstimate, s: seq<CostEstimate>): (r: seq<CostEstimate>)
    requires SortedByCost(s)
    ensures SortedByCost(r)
    ensures |r| == |s| + 1
    ensures r[0] == x || (|s| > 0 && r[0] == s[0])
  {
    if |s| == 0 || x.totalCost <= s[0].totalCost then [x] + s
    else
      var rest := Insert(x, s[1..]);
      assert ([s[0]] + rest)[1..] == rest;
      [s[0]] + rest
  }

  /** Inserting adds exactly `x`: the result is a permutation of `s` and `x`. */
  lemma {:induction false} InsertPermutes(x: CostEstimate, s: seq<CostEstimate>)
    requires SortedByCost(s)
    ensures multiset(Insert(x, s)) == multiset(s) + multiset{x}
  {
    if |s| > 0 && x.totalCost > s[0].totalCost {
      InsertPermutes(x, s[1..]);
      assert s == [s[0]] + s[1..];
    }
  }

  /** `WithCost` of a sequence with a known first element. */
  lemma WithCostCons(e: CostEstimate, s: seq<CostEstimate>, c: real)
    ensures WithCost([e] + s, c) == (if e.totalCost == c then [e] else []) + WithCost(s, c)
  {
    assert ([e] + s)[1..] == s;
  }

  /** Inserting `x` adds it in front of the estimates of its cost and leaves
      every other cost class as it was. */
  lemma {:induction false} InsertWithCost(x: CostEstimate, s: seq<CostEstimate>, c: real)
    requires SortedByCost(s)
    ensures WithCost(Insert(x, s), c) == (if x.totalCost == c then [x] else []) + WithCost(s, c)
  {
    if |s| == 0 || x.totalCost <= s[0].totalCost {
      WithCostCons(x, s, c);
    } else {
      var rest := Insert(x, s[1..]);
      assert Insert(x, s) == [s[0]] + rest;
      InsertWithCost(x, s[1..], c);
      WithCostCons(s[0], rest, c);
      WithCostCons(s[0], s[1..], c);
      assert s == [s[0]] + s[1..];
      var head := if s[0].totalCost == c then [s[0]] else [];
      var mine := if x.totalCost == c then [x] else [];
      assert head == [] || mine == [];
      assert head + (mine + WithCost(s[1..], c)) == mine + (head + WithCost(s[1..], c));
    }
  }

  /** Stable insertion sort by total cost. */
  function SortByCost(s: seq<CostEstimate>): (r: seq<CostEstimate>)
    ensures SortedByCost(r)
    ensures |r| == |s|
  {
    if |s| == 0 then []
    else Insert(s[0], SortByCost(s[1..]))
  }

  /** Sorting permutes: the result holds the same estimates, as often. */
  lemma {:induction false} SortByCostPermutes(s: seq<CostEstimate>)
    ensures multiset(SortByCost(s)) == multiset(s)
  {
    if |s| > 0 {
      SortByCostPermutes(s[1..]);
      InsertPermutes(s[0], SortByCost(s[1..]));
      assert s == [s[0]] + s[1..];
    }
  }

  /** Sorting is stable: the estimates of each cost keep their original
      relative order. */
  lemma {:induction false} SortByCostStable(s: seq<CostEstimate>, c: real)
    ensures WithCost(SortByCost(s), c) == WithCost(s, c)
  {
    if |s| > 0 {
      SortByCostStable(s[1..], c);
      InsertWithCost(s[0], SortByCost(s[1..]), c);
    }
  }

  /** The first estimate of a sorted permutation is a cheapest one. */
  lemma SortedHeadIsCheapest(s: seq<CostEstimate>, e: CostEstimate)
    requires e in s
    ensures SortByCost(s)[0].totalCost <= e.totalCost
  {
    var r := SortByCost(s);
    SortByCostPermutes(s);
    assert e in multiset(r);
    var j :| 0 <= j < |r| && r[j] == e;
    SortedByCostIsOrdered(r);
  }

  /** A sorted sequence is left as it is: sorting is idempotent. */
  lemma {:induction false} SortSortedIsIdentity(s: seq<CostEstimate>)
    requires SortedByCost(s)
    ensures SortByCost(s) == s
  {
    if |s| > 0 {
      SortSortedIsIdentity(s[1..]);
      assert SortByCost(s) == Insert(s[0], s[1..]);
    }
  }
}
