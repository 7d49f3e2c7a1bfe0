/**
  Item trees as values, and the breadth-first iterator over a container's contents.
 */
module ItemTree {

  import opened Basics

  /** What one item is by itself: type, count and serialized attributes. */
  datatype Record = Record(itemType: nat, count: nat, attributes: seq<int>, container: bool)

  datatype Tree = Tree(record: Record, contents: seq<Tree>)

  // ---------- sizes ----------

  /** How many items a forest has, roots included. */
  function Size(ts: seq<Tree>): nat {
    if ts == [] then 0 else 1 + Size(ts[0].contents) + Size(ts[1..])
  }

  lemma {:induction false} SizeConcat(a: seq<Tree>, b: seq<Tree>)
    ensures Size(a + b) == Size(a) + Size(b)
  {
    if a == [] {
      assert a + b == b;
    } else {
      assert (a + b)[1..] == a[1..] + b;
      SizeConcat(a[1..], b);
    }
  }

  // ---------- three orders on the items below a forest ----------

  /** Depth first: each root, then everything below it. */
  function Preorder(ts: seq<Tree>): seq<Tree> {
    if ts == [] then [] else [ts[0]] + Preorder(ts[0].contents) + Preorder(ts[1..])
  }

  /** The next level: the contents of all, left to right. */
  function Children(ts: seq<Tree>): seq<Tree> {
    if ts == [] then [] else ts[0].contents + Children(ts[1..])
  }

  lemma {:induction false} ChildrenAreFewer(ts: seq<Tree>)
    ensures Size(Children(ts)) + |ts| == Size(ts)
  {
    if ts != [] {
      ChildrenAreFewer(ts[1..]);
      SizeConcat(ts[0].contents, Children(ts[1..]));
    }
  }

  /** Breadth first, by definition: level after level. */
  function LevelOrder(ts: seq<Tree>): seq<Tree>
    decreases Size(ts)
  {
    ChildrenAreFewer(ts);
    if ts == [] then [] else Children(ts) + LevelOrder(Children(ts))
  }

  /** Breadth first, the way a queue does it. */
  function QueueOrder(queue: seq<Tree>): seq<Tree>
    decreases Size(queue)
  {
    if queue == [] then []
    else
      SizeConcat(queue[1..], queue[0].contents);
      queue[0].contents + QueueOrder(queue[1..] + queue[0].contents)
  }

  lemma {:induction false} ChildrenUnfold(ts: seq<Tree>)
    requires ts != []
    ensures Children(ts) == ts[0].contents + Children(ts[1..])
  {
  }

  lemma {:induction false} QueueAdvances(a: seq<Tree>, b: seq<Tree>)
    ensures QueueOrder(a + b) == Children(a) + QueueOrder(b + Children(a))
    decreases |a|
  {
    if a == [] {
      assert a + b == b && b + Children(a) == b;
    } else {
      QueueUnfolds(a + b);
      ChildrenUnfold(a);
      hide QueueOrder, Children;
      var first, rest := a[0].contents, Children(a[1..]);
      assert (a + b)[1..] == a[1..] + b && (a + b)[0] == a[0];
      Regroup(a[1..], b, first);
      QueueAdvances(a[1..], b + first);
      Regroup(b, first, rest);
      Regroup(first, rest, QueueOrder(b + (first + rest)));
    }
  }

  /** The queue visits level after level. */
  lemma {:induction false} QueueIsLevelOrder(ts: seq<Tree>)
    ensures QueueOrder(ts) == LevelOrder(ts)
    decreases Size(ts)
  {
    if ts != [] {
      assert ts + [] == ts && [] + Children(ts) == Children(ts);
      QueueAdvances(ts, []);
      ChildrenAreFewer(ts);
      QueueIsLevelOrder(Children(ts));
    }
  }

  /** Items without contents may be left out of the queue. */
  lemma {:induction false} QueueSkipsLeaf(a: seq<Tree>, leaf: Tree, b: seq<Tree>)
    requires leaf.contents == []
    ensures QueueOrder(a + [leaf] + b) == QueueOrder(a + b)
    decreases Size(a) + Size(b)
  {
    if a == [] {
      assert (a + [leaf] + b)[1..] + [] == b && a + b == b;
    } else {
      var q := a + [leaf] + b;
      assert q[1..] + a[0].contents == a[1..] + [leaf] + (b + a[0].contents);
      assert (a + b)[1..] + a[0].contents == a[1..] + (b + a[0].contents);
      SizeConcat(b, a[0].contents);
      QueueSkipsLeaf(a[1..], leaf, b + a[0].contents);
    }
  }

  lemma {:induction false} PreorderByLevels(ts: seq<Tree>)
    ensures multiset(Preorder(ts)) == multiset(ts) + multiset(Preorder(Children(ts)))
  {
    if ts != [] {
      PreorderByLevels(ts[1..]);
      PreorderConcat(ts[0].contents, Children(ts[1..]));
      assert ts == [ts[0]] + ts[1..];
    }
  }

  lemma {:induction false} PreorderConcat(a: seq<Tree>, b: seq<Tree>)
    ensures Preorder(a + b) == Preorder(a) + Preorder(b)
  {
    if a == [] {
      assert a + b == b;
    } else {
      assert (a + b)[1..] == a[1..] + b;
      PreorderConcat(a[1..], b);
    }
  }

  /** Breadth first meets every item below exactly as often as it is there. */
  lemma {:induction false} LevelOrderIsComplete(ts: seq<Tree>)
    ensures multiset(ts) + multiset(LevelOrder(ts)) == multiset(Preorder(ts))
    decreases Size(ts)
  {
    if ts != [] {
      ChildrenAreFewer(ts);
      PreorderByLevels(ts);
      LevelOrderIsComplete(Children(ts));
    }
  }

  lemma {:induction false} PreorderSize(ts: seq<Tree>)
    ensures |Preorder(ts)| == Size(ts)
  {
    if ts != [] {
      PreorderSize(ts[0].contents);
      PreorderSize(ts[1..]);
    }
  }

  // ---------- the iterator ----------

  class ContainerIterator {
    var over: seq<Tree>
    var cur: nat

    /** Everything still to be visited, in order. */
    ghost function Remaining(): seq<Tree>
      requires Valid()
      reads this
    {
      ToVisit(over, cur)
    }

    ghost predicate Valid()
      reads this
    {
      && (forall c :: c in over ==> c.contents != [])
      && (over != [] ==> cur < |over[0].contents|)
    }

    constructor (container: Tree)
      ensures Valid() && Remaining() == LevelOrder([container])
    {
      over, cur := [], 0;
      if container.contents != [] {
        over := [container];
      }
      new;
      QueueIsLevelOrder([container]);
      assert [container][1..] + container.contents == container.contents;
      if container.contents != [] {
        assert over[1..] + over[0].contents[0..] == container.contents;
      } else {
        assert QueueOrder([container]) == [];
      }
    }

    predicate HasNext()
      reads this
      ensures Valid() && !HasNext() ==> Remaining() == []
    {
      over != []
    }

    function Current(): (item: Tree)
      requires Valid() && HasNext()
      reads this
      ensures Remaining() != [] && Remaining()[0] == item
    {
      over[0].contents[cur]
    }

    method Advance()
      requires Valid() && HasNext()
      modifies this
      ensures Valid()
      ensures old(Remaining()) == [old(Current())] + Remaining()
    {
      hide ToVisit;
      VisitOne(over, cur);
      if over[0].contents[cur].contents != [] {
        over := over + [over[0].contents[cur]];
      }
      cur := cur + 1;
      if cur == |over[0].contents| {
        NextContainer(over, cur);
        over := over[1..];
        if over != [] {
          cur := 0;
        }
      }
    }
  }

  /** What an iterator with these fields has still to visit. */
  ghost function ToVisit(over: seq<Tree>, cur: nat): seq<Tree>
    requires over != [] ==> cur <= |over[0].contents|
  {
    if over == [] then []
    else over[0].contents[cur..] + QueueOrder(over[1..] + over[0].contents[cur..])
  }

  lemma {:induction false} VisitOne(over: seq<Tree>, cur: nat)
    requires over != [] && cur < |over[0].contents|
    ensures var item := over[0].contents[cur];
            ToVisit(over, cur) ==
              [item] + ToVisit(if item.contents != [] then over + [item] else over, cur + 1)
  {
    hide QueueOrder;
    var item, q, rest := over[0].contents[cur], over[1..], over[0].contents[cur + 1..];
    assert over[0].contents[cur..] == [item] + rest;
    assert q + ([item] + rest) == q + [item] + rest;
    ghost var all := QueueOrder(q + [item] + rest);
    assert ToVisit(over, cur) == ([item] + rest) + all;
    assert ([item] + rest) + all == [item] + (rest + all);
    if item.contents == [] {
      QueueSkipsLeaf(q, item, rest);
      assert ToVisit(over, cur + 1) == rest + all;
    } else {
      assert (over + [item])[1..] == q + [item];
      assert ToVisit(over + [item], cur + 1) == rest + all;
    }
  }

  lemma {:induction false} NextContainer(over: seq<Tree>, cur: nat)
    requires over != [] && cur == |over[0].contents|
    ensures ToVisit(over, cur) == ToVisit(over[1..], 0)
    ensures over[1..] == [] ==> ToVisit(over, cur) == ToVisit(over[1..], cur)
  {
    hide QueueOrder;
    var q := over[1..];
    assert over[0].contents[cur..] == [] && q + [] == q;
    QueueUnfolds(q);
    if q != [] {
      assert q[0].contents[0..] == q[0].contents;
    }
  }

  lemma {:induction false} QueueUnfolds(q: seq<Tree>)
    ensures q == [] ==> QueueOrder(q) == []
    ensures q != [] ==> QueueOrder(q) == q[0].contents + QueueOrder(q[1..] + q[0].contents)
  {
  }

  /** Below one container, breadth first and depth first meet the same items. */
  lemma {:induction false} BelowByLevels(container: Tree)
    ensures multiset(LevelOrder([container])) == multiset(Preorder(container.contents))
    ensures |LevelOrder([container])| == Size(container.contents)
  {
    var a, b := LevelOrder([container]), Preorder(container.contents);
    LevelOrderIsComplete([container]);
    assert Preorder([container]) == [container] + b by {
      assert [container][1..] == [];
    }
    hide *;
    assert multiset([container] + b) == multiset([container]) + multiset(b);
    SameAfterRoot(multiset([container]), multiset(a), multiset(b));
    PreorderSize(container.contents);
    assert |multiset(a)| == |a| && |multiset(b)| == |b|;
  }

  lemma {:induction false} SameAfterRoot<T>(r: multiset<T>, a: multiset<T>, b: multiset<T>)
    requires r + a == r + b
    ensures a == b
  {
    assert a == (r + a) - r;
    assert b == (r + b) - r;
  }

  /** Counts the items held, at any depth. */
  method GetItemHoldingCount(container: Tree) returns (counter: nat)
    ensures counter == Size(container.contents)
  {
    hide LevelOrder, ToVisit, Size;
    counter := 0;
    var it := new ContainerIterator(container);
    while it.HasNext()
      invariant it.Valid() && counter + |it.Remaining()| == |LevelOrder([container])|
      decreases |it.Remaining()|
    {
      it.Advance();
      counter := counter + 1;
    }
    BelowByLevels(container);
  }

  lemma {:induction false} InBoth(a: seq<Tree>, b: seq<Tree>, t: Tree)
    requires multiset(a) == multiset(b)
    ensures t in a <==> t in b
  {
    assert (t in a <==> t in multiset(a)) && (t in b <==> t in multiset(b));
  }

  /** Whether the item is somewhere below the container. */
  method IsHoldingItem(container: Tree, item: Tree) returns (found: bool)
    ensures found <==> item in Preorder(container.contents)
  {
    hide LevelOrder, Preorder, ToVisit;
    var it := new ContainerIterator(container);
    BelowByLevels(container);
    InBoth(LevelOrder([container]), Preorder(container.contents), item);
    while it.HasNext()
      invariant it.Valid()
      invariant item in LevelOrder([container]) <==> item in it.Remaining()
      decreases |it.Remaining()|
    {
      if it.Current() == item {
        return true;
      }
      it.Advance();
    }
    found := false;
  }
}
