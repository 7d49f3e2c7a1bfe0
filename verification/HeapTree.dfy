/** What lies in a container at every depth, over the linked objects: who is below whom, and how many. */
module HeapTree {

  import opened ItemHeap
  import opened ItemMoves

  /** `x` is `to` or lies in it, at any depth. */
  ghost predicate Under(m: Shape, rank: Ranks, to: Item, x: Item)
    requires Ranked(m, rank)
  {
    x in m && to in Above(m, rank, x)
  }

  lemma {:induction false} UnderStep(m: Shape, rank: Ranks, to: Item, x: Item)
    requires Ranked(m, rank) && x in m
    ensures Under(m, rank, to, x) <==> x == to || (m[x].parent != null && Under(m, rank, to, m[x].parent))
  {
    AboveIs(m, rank, x);
    AboveNull(m, rank);
  }

  /** How many items lie in `c` at every depth, and itself. */
  ghost function Nodes(m: Shape, rank: Ranks, c: Item): nat
    requires Linked(m) && Ranked(m, rank) && c in m
    decreases rank[c], 1, 0
  {
    BelowRanks(m, rank, c);
    1 + ListNodes(m, rank, m[c].list, rank[c])
  }

  ghost function ListNodes(m: Shape, rank: Ranks, l: seq<Item>, bound: nat): nat
    requires Linked(m) && Ranked(m, rank) && forall x :: x in l ==> x in m && rank[x] < bound
    decreases bound, 0, |l|
  {
    if l == [] then 0 else Nodes(m, rank, l[0]) + ListNodes(m, rank, l[1..], bound)
  }

  ghost function QueueNodes(m: Shape, rank: Ranks, q: seq<Item>): nat
    requires Linked(m) && Ranked(m, rank) && forall x :: x in q ==> x in m
  {
    if q == [] then 0 else Nodes(m, rank, q[0]) + QueueNodes(m, rank, q[1..])
  }

  lemma {:induction false} NodesJoin(m: Shape, rank: Ranks, q: seq<Item>, r: seq<Item>)
    requires Linked(m) && Ranked(m, rank) && (forall x :: x in q ==> x in m) && (forall x :: x in r ==> x in m)
    ensures QueueNodes(m, rank, q + r) == QueueNodes(m, rank, q) + QueueNodes(m, rank, r)
  {
    if q == [] {
      assert q + r == r;
    } else {
      assert (q + r)[1..] == q[1..] + r;
      NodesJoin(m, rank, q[1..], r);
    }
  }

  lemma {:induction false} OneMoreNode(m: Shape, rank: Ranks, q: seq<Item>, x: Item)
    requires Linked(m) && Ranked(m, rank) && x in m && forall y :: y in q ==> y in m
    ensures QueueNodes(m, rank, q + [x]) == QueueNodes(m, rank, q) + Nodes(m, rank, x)
  {
    NodesJoin(m, rank, q, [x]);
    assert [x][1..] == [];
    assert QueueNodes(m, rank, []) == 0;
  }

  lemma {:induction false} NodesSplit(m: Shape, rank: Ranks, l: seq<Item>, x: Item, bound: nat)
    requires Linked(m) && Ranked(m, rank) && x in m && rank[x] < bound && forall y :: y in l ==> y in m && rank[y] < bound
    ensures ListNodes(m, rank, l + [x], bound) == ListNodes(m, rank, l, bound) + Nodes(m, rank, x)
  {
    if l == [] {
      assert (l + [x])[1..] == [];
      assert ListNodes(m, rank, [], bound) == 0;
    } else {
      assert (l + [x])[1..] == l[1..] + [x];
      NodesSplit(m, rank, l[1..], x, bound);
    }
  }
}
