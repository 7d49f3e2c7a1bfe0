/**
  Looking for an item in a container, over the linked objects: breadth first, by identity.
 */
module HeapSearch {

  import opened ItemHeap
  import opened ItemMoves
  import opened HeapTree

  /** The containers among the items that are not empty; only these are queued. */
  function FullKids(m: Shape, l: seq<Item>): seq<Item>
    requires forall x :: x in l ==> x in m
  {
    if l == [] then []
    else
      var x := l[|l| - 1];
      FullKids(m, l[..|l| - 1]) + if m[x].list != [] then [x] else []
  }

  ghost predicate AreFull(m: Shape, l: seq<Item>, k: seq<Item>)
    requires forall x :: x in l ==> x in m
  {
    (forall x :: x in k ==> x in l && m[x].list != []) && (forall x :: x in l ==> (m[x].list != [] ==> x in k))
  }

  lemma {:induction false} FullKidsIn(m: Shape, l: seq<Item>)
    requires forall x :: x in l ==> x in m
    ensures AreFull(m, l, FullKids(m, l))
  {
    if l != [] {
      FullKidsIn(m, l[..|l| - 1]);
      assert l == l[..|l| - 1] + [l[|l| - 1]];
    }
  }

  lemma {:induction false} FullNodes(m: Shape, rank: Ranks, l: seq<Item>, bound: nat)
    requires Linked(m) && Ranked(m, rank) && forall x :: x in l ==> x in m && rank[x] < bound
    ensures forall x :: x in FullKids(m, l) ==> x in m
    ensures QueueNodes(m, rank, FullKids(m, l)) <= ListNodes(m, rank, l, bound)
  {
    FullKidsIn(m, l);
    if l != [] {
      var k, x := l[..|l| - 1], l[|l| - 1];
      assert l == k + [x];
      FullNodes(m, rank, k, bound);
      NodesSplit(m, rank, k, x, bound);
      FullKidsIn(m, k);
      OneMoreNode(m, rank, FullKids(m, k), x);
      assert FullKids(m, l) == if m[x].list != [] then FullKids(m, k) + [x] else FullKids(m, k);
    }
  }

  /** What the search knows: all below that is not looked at yet is below what is queued. */
  ghost predicate Searching(m: Shape, rank: Ranks, to: Item, seen: set<Item>, over: seq<Item>, item: Item) {
    && Linked(m) && Ranked(m, rank) && to in m
    && (to in seen || to in over || m[to].list == [])
    && (forall x :: x in over ==> Under(m, rank, to, x))
    && (forall s :: s in seen ==> LookedAt(m, rank, to, seen, over, item, s))
  }

  /** The item does not lie in `s`, and what lies there and is not empty is seen or queued. */
  ghost predicate LookedAt(m: Shape, rank: Ranks, to: Item, seen: set<Item>, over: seq<Item>, item: Item, s: Item)
    requires Ranked(m, rank)
  {
    && Under(m, rank, to, s) && item !in m[s].list
    && forall x :: x in m[s].list ==> x in m && (m[x].list != [] ==> x in seen || x in over)
  }

  lemma {:induction false} SearchStep(m: Shape, rank: Ranks, to: Item, seen: set<Item>, over: seq<Item>, item: Item)
    requires Searching(m, rank, to, seen, over, item) && over != []
    ensures var c := over[0];
            && c in m && Listed(m, c) && Under(m, rank, to, c)
            && (item !in m[c].list ==> Searching(m, rank, to, seen + {c}, over[1..] + FullKids(m, m[c].list), item))
            && (forall x :: x in over[1..] + FullKids(m, m[c].list) ==> x in m)
            && (forall x :: x in over ==> x in m)
            && QueueNodes(m, rank, over[1..] + FullKids(m, m[c].list)) < QueueNodes(m, rank, over)
  {
    var c := over[0];
    assert Under(m, rank, to, c);
    assert forall x :: x in over[1..] ==> x in over;
    forall x | x in over ensures x in m {
      assert Under(m, rank, to, x);
    }
    BelowRanks(m, rank, c);
    FullKidsIn(m, m[c].list);
    FullNodes(m, rank, m[c].list, rank[c]);
    NodesJoin(m, rank, over[1..], FullKids(m, m[c].list));
    var more := over[1..] + FullKids(m, m[c].list);
    forall x | x in more ensures Under(m, rank, to, x) {
      if x !in over { UnderStep(m, rank, to, x); }
    }
    assert forall x :: x in over ==> x == c || x in more;
    if item !in m[c].list {
      forall s | s in seen + {c} ensures LookedAt(m, rank, to, seen + {c}, more, item, s) {
        if s in seen { assert LookedAt(m, rank, to, seen, over, item, s); }
      }
    }
  }

  /** When nothing is queued any more, every container below that is not empty was looked at. */
  lemma {:induction false} SeenAll(m: Shape, rank: Ranks, to: Item, seen: set<Item>, item: Item, p: Item)
    requires Searching(m, rank, to, seen, [], item) && Under(m, rank, to, p) && m[p].list != []
    ensures p in seen
    decreases Higher(rank, p)
  {
    if p != to {
      UnderStep(m, rank, to, p);
      assert UpOk(m, p);
      var q := m[p].parent;
      AboveIs(m, rank, p);
      SeenAll(m, rank, to, seen, item, q);
      assert LookedAt(m, rank, to, seen, [], item, q);
    }
  }

  lemma {:induction false} NotBelow(m: Shape, rank: Ranks, to: Item, seen: set<Item>, item: Item)
    requires Searching(m, rank, to, seen, [], item) && item in m && item != to
    ensures !Under(m, rank, to, item)
  {
    UnderStep(m, rank, to, item);
    assert UpOk(m, item);
    if m[item].parent != null {
      NotIn(m, rank, to, seen, item, m[item].parent);
    }
  }

  lemma {:induction false} NotIn(m: Shape, rank: Ranks, to: Item, seen: set<Item>, item: Item, p: Item)
    requires Searching(m, rank, to, seen, [], item) && p in m
    ensures Under(m, rank, to, p) ==> item !in m[p].list
  {
    if Under(m, rank, to, p) && m[p].list != [] {
      SeenAll(m, rank, to, seen, item, p);
      assert LookedAt(m, rank, to, seen, [], item, p);
    }
  }

  lemma {:induction false} FoundBelow(m: Shape, rank: Ranks, to: Item, c: Item, item: Item)
    requires Linked(m) && Ranked(m, rank) && to in m && Under(m, rank, to, c) && item in m[c].list
    ensures Under(m, rank, to, item) && item != to
  {
    BelowRanks(m, rank, c);
    UnderStep(m, rank, to, item);
    UnderRank(m, rank, to, c);
  }

  lemma {:induction false} UnderRank(m: Shape, rank: Ranks, to: Item, c: Item)
    requires Ranked(m, rank) && Under(m, rank, to, c)
    ensures to in m && rank[c] <= rank[to]
  {
  }

  /** Looks through the items of a container; queues the containers that are not empty. */
  method LookFor(g: Game, c: Item, item: Item, over: seq<Item>) returns (found: bool, over': seq<Item>)
    requires g.Valid() && c in g.world
    ensures found <==> item in c.itemlist
    ensures Listed(g.Now(), c) && (!found ==> over' == over + FullKids(g.Now(), c.itemlist))
  {
    ListIn(g.Now(), c);
    hide Good;
    over', found := over, false;
    var cur := 0;
    while cur < |c.itemlist|
      invariant 0 <= cur <= |c.itemlist| && item !in c.itemlist[..cur]
      invariant over' == over + FullKids(g.Now(), c.itemlist[..cur])
    {
      var x := c.itemlist[cur];
      assert c.itemlist[..cur + 1][..cur] == c.itemlist[..cur] && x in c.itemlist;
      assert c.itemlist[..cur + 1] == c.itemlist[..cur] + [x];
      if x == item {
        return true, over';
      }
      if x.itemlist != [] {
        over' := over' + [x];
      }
      cur := cur + 1;
    }
    assert c.itemlist[..cur] == c.itemlist;
  }

  /** The very item is somewhere below the container, at any depth. */
  method IsHoldingItem(g: Game, container: Item, item: Item) returns (found: bool)
    requires g.Valid() && container in g.world && item in g.world
    ensures found <==> item != container && Under(g.Now(), g.rank, container, item)
  {
    ghost var m, rank := g.Now(), g.rank;
    ghost var seen: set<Item> := {};
    UnderStep(m, rank, container, container);
    var over := if container.itemlist != [] then [container] else [];
    found := false;
    while over != []
      invariant Searching(m, rank, container, seen, over, item) && forall x :: x in over ==> x in m
      decreases QueueNodes(m, rank, over)
    {
      var c := over[0];
      SearchStep(m, rank, container, seen, over, item);
      hide Good, Searching, QueueNodes, Under;
      found, over := LookFor(g, c, item, over[1..]);
      if found {
        FoundBelow(m, rank, container, c, item);
        return;
      }
      seen := seen + {c};
    }
    if item != container {
      NotBelow(m, rank, container, seen, item);
    }
  }
}
