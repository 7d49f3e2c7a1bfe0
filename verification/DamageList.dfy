/**
  Splitting the total damage of a condition into single hits of falling strength.
 */
module DamageList {

  import opened Basics

  function Sum(list: seq<int>): int {
    if list == [] then 0 else Sum(list[..|list| - 1]) + list[|list| - 1]
  }

  lemma {:induction false} SumAppend(list: seq<int>, x: int)
    ensures Sum(list + [x]) == Sum(list) + x
  {
    assert (list + [x])[..|list|] == list;
  }

  predicate NonIncreasing(list: seq<int>) {
    forall i, j :: 0 <= i < j < |list| ==> list[i] >= list[j]
  }

  function AbsReal(x: real): real { if x < 0.0 then -x else x }

  /** Whether one more hit of strength i brings the sum relatively closer to the target.
      Dividing by a zero target makes both sides infinite, and neither is closer. */
  predicate Closer(sum: int, i: int, med: int) {
    med != 0 &&
    AbsReal(1.0 - (sum + i) as real / med as real) < AbsReal(1.0 - sum as real / med as real)
  }

  lemma {:induction false} SignOfProduct(d: real, m: real)
    requires m > 0.0
    ensures d * m > 0.0 <==> d > 0.0
    ensures d * m == 0.0 <==> d == 0.0
  {
    if d < 0.0 {
      assert (-d) * m > 0.0;
    }
  }

  lemma {:induction false} QuotientIs(u: real, x: real, m: real)
    requires m > 0.0 && u * m == x
    ensures u == x / m
  {
    assert (u - x / m) * m == x - (x / m) * m == 0.0;
    SignOfProduct(u - x / m, m);
  }

  lemma {:induction false} QuotientOrder(x: real, y: real, m: real)
    requires m > 0.0
    ensures x / m < y / m <==> x < y
  {
    assert (y / m - x / m) * m == y - x;
    SignOfProduct(y / m - x / m, m);
  }

  lemma {:induction false} QuotientSize(x: real, m: real)
    requires m > 0.0
    ensures AbsReal(x / m) == AbsReal(x) / m
  {
    SignOfProduct(x / m, m);
    assert (x / m) * m == x;
    assert (-(x / m)) * m == -x;
    QuotientIs(-(x / m), -x, m);
  }

  lemma {:induction false} FromOne(x: real, m: real)
    requires m > 0.0
    ensures 1.0 - x / m == (m - x) / m
  {
    assert (1.0 - x / m) * m == m - (x / m) * m == m - x;
    QuotientIs(1.0 - x / m, m - x, m);
  }

  /** In whole numbers: the sum is more than half a hit below the target. */
  lemma {:induction false} CloserMeans(sum: int, i: int, med: int)
    requires med >= 0 && i > 0 && sum > 0
    ensures Closer(sum, i, med) <==> i < 2 * (med - sum)
  {
    if med > 0 {
      var m := med as real;
      var a, b := (med - sum - i) as real, (med - sum) as real;
      FromOne((sum + i) as real, m);
      FromOne(sum as real, m);
      QuotientSize(a, m);
      QuotientSize(b, m);
      QuotientOrder(AbsReal(a), AbsReal(b), m);
    }
  }

  /** The part of the total that should be dealt when n of the strengths are used up. */
  function Target(amount: nat, start: nat, n: nat): nat
    requires start > 0
  {
    (n * amount) / start
  }

  lemma {:induction false} DivBounds(x: nat, d: nat)
    requires d > 0
    ensures d * (x / d) <= x < d * (x / d) + d
  {
  }

  lemma {:induction false} ProductNotPositive(s: nat, d: int)
    ensures d <= 0 ==> s * d <= 0
  {
    if d <= 0 {
      assert s * (-d) >= 0;
    }
  }

  /** Floors of d apart values are d apart. */
  lemma {:induction false} FloorGap(s: nat, p: int, q: int, gap: int)
    requires s > 0 && s * p + s * gap < s * q + s
    ensures p + gap <= q
  {
    assert s * (q + 1 - p - gap) == s * q + s - s * p - s * gap;
    ProductNotPositive(s, q + 1 - p - gap);
  }

  lemma {:induction false} TargetGrows(amount: nat, start: nat, n: nat)
    requires start > 0 && n > 0
    ensures Target(amount, start, n - 1) <= Target(amount, start, n)
    ensures amount >= start * (start + 1) ==> Target(amount, start, n - 1) + start + 1 <= Target(amount, start, n)
  {
    var x := (n - 1) * amount;
    assert n * amount == x + amount;
    DivBounds(x, start);
    DivBounds(x + amount, start);
    var p, q := x / start, (x + amount) / start;
    FloorGap(start, p, q, 0);
    if amount >= start * (start + 1) {
      FloorGap(start, p, q, start + 1);
    }
  }

  lemma {:induction false} TargetAtEnd(amount: nat, start: nat)
    requires start > 0
    ensures Target(amount, start, start) == amount && Target(amount, start, 0) == 0
  {
    var q := (start * amount) / start;
    DivBounds(start * amount, start);
    FloorGap(start, amount, q, 0);
    FloorGap(start, q, amount, 0);
  }

  /** The sum start + (start - 1) + ... down to n strengths. */
  function Used(start: nat, n: nat): nat
    requires n <= start
  {
    if n == 0 then 0 else Used(start, n - 1) + (start + 1 - n)
  }

  lemma {:induction false} UsedUp(start: nat, n: nat)
    requires n <= start
    ensures 2 * Used(start, n) == n * (2 * start + 1 - n)
  {
    if n > 0 {
      UsedUp(start, n - 1);
      assert (n - 1) * (2 * start + 2 - n) + 2 * (start + 1 - n) == n * (2 * start + 1 - n);
    }
  }

  /** Hits of strength i, at least one, until the sum is within half a hit of the target. */
  ghost predicate Nearest(before: int, after: int, i: int, med: int) {
    && i > 0 && after > before && (after - before) % i == 0 && 2 * (med - after) <= i
    && (after == before + i || 2 * (after - med) < i)
  }

  /** There is only one such number of hits. */
  lemma {:induction false} NearestIsOne(before: int, a: int, b: int, i: int, med: int)
    requires Nearest(before, a, i, med) && Nearest(before, b, i, med)
    ensures a == b
  {
    var k, l := (a - before) / i, (b - before) / i;
    Whole(a - before, i);
    Whole(b - before, i);
    if k < l {
      Further(k, l, i);
    } else if l < k {
      Further(l, k, i);
    }
  }

  lemma {:induction false} Whole(d: int, i: int)
    requires i > 0 && d % i == 0
    ensures d == d / i * i
  {
  }

  lemma {:induction false} Further(k: int, l: int, i: int)
    requires k < l && i > 0
    ensures k * i + i <= l * i
    decreases l - k
  {
    assert l * i == (l - 1) * i + i;
    if k < l - 1 { Further(k, l - 1, i); }
  }

  function Times(k: nat, i: int): int { if k == 0 then 0 else Times(k - 1, i) + i }

  lemma {:induction false} TimesIs(k: nat, i: int)
    ensures Times(k, i) == k * i
  {
    if k > 0 { TimesIs(k - 1, i); }
  }

  /** After k hits of strength i, at least one. */
  lemma {:induction false} NowNearest(before: int, after: int, i: int, med: int, k: nat)
    requires i > 0 && k > 0 && after == before + Times(k, i) && 2 * (med - after) <= i
    requires after == before + i || 2 * (after - med) < i
    ensures Nearest(before, after, i, med) && Hits(before, after, i) == seq(k, _ => i)
  {
    TimesIs(k, i);
    Multiples(k, i);
    Further(0, k, i);
  }

  lemma {:induction false} Multiples(k: nat, i: int)
    requires i > 0
    ensures k * i % i == 0 && k * i / i == k
  {
    var q, r := k * i / i, k * i % i;
    assert q * i + r == k * i;
    if q < k { Further(q, k, i); } else if k < q { Further(k, q, i); }
  }

  /** The hits of one strength. */
  function Hits(before: int, after: int, i: int): seq<int> {
    if i > 0 && after > before then seq((after - before) / i, _ => i) else []
  }

  /** The hits of the first n strengths, whose sums are given. */
  function HitsUpTo(sums: seq<int>, start: int, n: nat): seq<int> {
    if n == 0 || n >= |sums| then [] else HitsUpTo(sums, start, n - 1) + Hits(sums[n - 1], sums[n], start + 1 - n)
  }

  lemma {:induction false} SameHits(sums: seq<int>, s: int, start: int, n: nat)
    requires n < |sums|
    ensures HitsUpTo(sums + [s], start, n) == HitsUpTo(sums, start, n)
  {
    if n > 0 { SameHits(sums, s, start, n - 1); }
  }

  /** The hits: every strength from `start` down to 1 occurs, none before a weaker one,
      and together they deal the amount, with an excess that vanishes for large amounts. */
  method GenerateDamageList(amount0: int, start: int) returns (list: seq<int>, ghost sums: seq<int>)
    ensures start <= 0 ==> list == []
    ensures NonIncreasing(list)
    ensures forall v :: 1 <= v <= start ==> v in list
    ensures forall v :: v in list ==> 1 <= v <= start
    ensures start > 0 ==> Abs(amount0) <= Sum(list) <= Abs(amount0) + start * (start + 1) / 2
    ensures start > 0 && Abs(amount0) >= start * (start + 1) ==> Sum(list) == Abs(amount0)
    ensures start > 0 ==>
              && |sums| == start + 1 && sums[0] == 0 && list == HitsUpTo(sums, start, start)
              && forall n :: 1 <= n <= start ==> Nearest(sums[n - 1], sums[n], start + 1 - n, n * Abs(amount0) / start)
  {
    sums, list := [0], [];
    if start <= 0 {
      return;
    }
    list, sums := DealAll(Abs(amount0), start);
    BegunAll(list, Sum(list), sums, Abs(amount0), start);
  }

  /** The loop over the strengths. */
  method DealAll(amount: nat, start: nat) returns (list: seq<int>, ghost sums: seq<int>)
    requires start > 0
    ensures Begun(list, Sum(list), sums, amount, start, start)
  {
    sums, list := [0], [];
    var sum := 0;
    var i := start;
    BegunFirst(amount, start);
    hide *;
    while i > 0
      invariant 0 <= i <= start && Begun(list, sum, sums, amount, start, start - i)
    {
      sum, list := DealStrength(list, sum, i, amount, start, sums);
      sums := sums + [sum];
      i := i - 1;
    }
    BegunMeans(list, sum, sums, amount, start, start);
  }

  /** The hits of one strength. */
  method DealStrength(list0: seq<int>, sum0: int, i: int, amount: nat, start: nat, ghost sums: seq<int>) returns (sum: int, list: seq<int>)
    requires 0 < i <= start && Begun(list0, sum0, sums, amount, start, start - i)
    ensures Begun(list, sum, sums + [sum], amount, start, start + 1 - i)
  {
    BegunMeans(list0, sum0, sums, amount, start, start - i);
    hide *;
    var n := start + 1 - i;
    sum, list := HitsOf(list0, sum0, i, Target(amount, start, n));
    BegunStep(list0, sum0, list, sum, sums, amount, start, n);
  }

  lemma {:induction false} BegunFirst(amount: nat, start: nat)
    requires start > 0
    ensures Begun([], 0, [0], amount, start, 0)
  {
    TargetAtEnd(amount, start);
  }

  lemma {:induction false} BegunAll(list: seq<int>, sum: int, sums: seq<int>, amount: nat, start: nat)
    requires Begun(list, sum, sums, amount, start, start)
    ensures NonIncreasing(list) && forall v :: v in list <==> 1 <= v <= start
    ensures amount <= Sum(list) <= amount + start * (start + 1) / 2
    ensures amount >= start * (start + 1) ==> Sum(list) == amount
    ensures |sums| == start + 1 && sums[0] == 0 && list == HitsUpTo(sums, start, start)
    ensures forall n :: 1 <= n <= start ==> Nearest(sums[n - 1], sums[n], start + 1 - n, n * amount / start)
  {
    UsedUp(start, start);
    TargetAtEnd(amount, start);
    assert forall n: nat :: Target(amount, start, n) == n * amount / start;
    hide NonIncreasing, Sum, HitsUpTo, Nearest, Used, Target;
  }

  /** After the first n strengths. */
  ghost predicate Begun(list: seq<int>, sum: int, sums: seq<int>, amount: nat, start: nat, n: nat) {
    && n <= start && start > 0 && sum == Sum(list) && NonIncreasing(list)
    && (forall v :: v in list <==> start - n < v <= start)
    && Bounded(sum, amount, start, n) && Summed(list, sum, sums, amount, start, n)
  }

  /** How far the sum is from its target. */
  ghost predicate Bounded(sum: int, amount: nat, start: nat, n: nat) {
    && n <= start && start > 0 && sum >= 0
    && sum <= Target(amount, start, n) + Used(start, n)
    && (n > 0 ==> Target(amount, start, n) - sum <= (start - n + 1) / 2)
    && (amount >= start * (start + 1) ==> 2 * (sum - Target(amount, start, n)) <= start - n + 1)
    && (n == start && amount >= start * (start + 1) ==> sum == amount)
  }

  /** The list consists of the hits that lead from each sum to the next. */
  ghost predicate Summed(list: seq<int>, sum: int, sums: seq<int>, amount: nat, start: nat, n: nat) {
    && start > 0 && |sums| == n + 1 && sums[0] == 0 && sums[n] == sum && list == HitsUpTo(sums, start, n)
    && forall m :: 1 <= m <= n ==> Nearest(sums[m - 1], sums[m], start + 1 - m, Target(amount, start, m))
  }

  lemma {:induction false} BegunMeans(list: seq<int>, sum: int, sums: seq<int>, amount: nat, start: nat, n: nat)
    requires Begun(list, sum, sums, amount, start, n)
    ensures sum >= 0 && sum == Sum(list) && NonIncreasing(list) && forall v :: v in list ==> v > start - n
  {
  }

  lemma {:induction false} BegunStep(list0: seq<int>, sum0: int, list: seq<int>, sum: int, sums0: seq<int>, amount: nat, start: nat, n: nat)
    requires 1 <= n <= start && Begun(list0, sum0, sums0, amount, start, n - 1)
    requires var i, med := start + 1 - n, Target(amount, start, n);
             && sum == Sum(list) && NonIncreasing(list) && (forall v :: v in list <==> v in list0 || v == i)
             && 2 * (med - sum) <= i && (sum == sum0 + i || 2 * (sum - med) < i)
             && sum > sum0 && (i == 1 && sum0 < med ==> sum == med)
             && Nearest(sum0, sum, i, med) && list == list0 + Hits(sum0, sum, i)
    ensures Begun(list, sum, sums0 + [sum], amount, start, n)
  {
    hide Target, Nearest, Hits, NonIncreasing, Sum, Bounded, Summed;
    BoundedStep(sum0, sum, amount, start, n);
    SummedStep(list0, sum0, list, sum, sums0, amount, start, n);
  }

  lemma {:induction false} BoundedStep(sum0: int, sum: int, amount: nat, start: nat, n: nat)
    requires 1 <= n <= start && Bounded(sum0, amount, start, n - 1)
    requires var i, med := start + 1 - n, Target(amount, start, n);
             && 2 * (med - sum) <= i && (sum == sum0 + i || 2 * (sum - med) < i)
             && sum > sum0 && (i == 1 && sum0 < med ==> sum == med)
    ensures Bounded(sum, amount, start, n)
  {
    TargetGrows(amount, start, n);
    TargetAtEnd(amount, start);
    hide Target;
  }

  lemma {:induction false} SummedStep(list0: seq<int>, sum0: int, list: seq<int>, sum: int, sums0: seq<int>, amount: nat, start: nat, n: nat)
    requires 1 <= n <= start && Summed(list0, sum0, sums0, amount, start, n - 1)
    requires Nearest(sum0, sum, start + 1 - n, Target(amount, start, n)) && list == list0 + Hits(sum0, sum, start + 1 - n)
    ensures Summed(list, sum, sums0 + [sum], amount, start, n)
  {
    var sums := sums0 + [sum];
    hide Target, Nearest, Hits;
    SameHits(sums0, sum, start, n - 1);
    assert HitsUpTo(sums, start, n) == HitsUpTo(sums, start, n - 1) + Hits(sums[n - 1], sums[n], start + 1 - n);
    hide HitsUpTo;
  }

  /** The do-while loop: hits of strength i until one more would not bring the sum closer. */
  method HitsOf(list0: seq<int>, sum0: int, i: int, med: nat) returns (sum: int, list: seq<int>)
    requires i > 0 && sum0 >= 0 && sum0 == Sum(list0) && NonIncreasing(list0)
    requires forall v :: v in list0 ==> v > i
    ensures sum == Sum(list) && NonIncreasing(list)
    ensures forall v :: v in list <==> v in list0 || v == i
    ensures 2 * (med - sum) <= i
    ensures sum == sum0 + i || 2 * (sum - med) < i
    ensures sum > sum0 && (i == 1 && sum0 < med ==> sum == med)
    ensures Nearest(sum0, sum, i, med) && list == list0 + Hits(sum0, sum, i)
  {
    hide Sum, Nearest, Hits;
    ghost var k: nat := 0;
    sum, list := sum0, list0;
    assert forall k :: 0 <= k < |list0| ==> list0[k] in list0;
    var again := true;
    while again
      invariant !again ==> list != list0
      invariant sum == Sum(list) && sum >= sum0 && NonIncreasing(list)
      invariant forall k :: 0 <= k < |list| ==> list[k] >= i
      invariant list0 <= list && forall k :: |list0| <= k < |list| ==> list[k] == i
      invariant |list| == |list0| ==> sum == sum0 && again
      invariant |list| > |list0| ==> sum > sum0 && (again <==> i < 2 * (med - sum))
      invariant sum == sum0 || sum == sum0 + i || 2 * (sum - med) < i
      invariant i == 1 && sum0 < med ==> sum <= med
      invariant k == |list| - |list0| && sum == sum0 + Times(k, i)
      decreases |list| == |list0|, 2 * (med - sum)
    {
      SumAppend(list, i);
      sum := sum + i;
      list := list + [i];
      k := k + 1;
      CloserMeans(sum, i, med);
      again := Closer(sum, i, med);
    }
    NowNearest(sum0, sum, i, med, k);
    assert list == list0 + seq(k, _ => i);
    assert forall v :: v in list <==> v in list0 || v == i by {
      assert list[|list0|] == i;
      assert forall k :: 0 <= k < |list0| ==> list[k] == list0[k];
    }
  }
}
