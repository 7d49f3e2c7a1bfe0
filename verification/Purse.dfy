/**
  Paying: the coins in a container and all that lies in it are looked up breadth first, sorted
  by worth, and taken from the cheapest stack on until the amount is met.
 */
module Purse {

  import opened Basics
  import opened ItemHeap
  import opened HeapTree
  import opened ItemMoves
  import opened ItemAdding
  import opened Money

  // ---------- the worth of a tree ----------

  /** The worth of all coins that lie in `c`, at every depth. */
  ghost function TreeWorth(m: Shape, rank: Ranks, c: Item): nat
    requires Linked(m) && Ranked(m, rank) && c in m
    decreases rank[c], 1, 0
  {
    BelowRanks(m, rank, c);
    ListWorth(m, rank, m[c].list, rank[c])
  }

  ghost function ListWorth(m: Shape, rank: Ranks, l: seq<Item>, bound: nat): nat
    requires Linked(m) && Ranked(m, rank) && forall x :: x in l ==> x in m && rank[x] < bound
    decreases bound, 0, |l|
  {
    if l == [] then 0
    else (if l[0].container then TreeWorth(m, rank, l[0]) else Worth(m[l[0]])) + ListWorth(m, rank, l[1..], bound)
  }

  ghost function QueueWorth(m: Shape, rank: Ranks, q: seq<Item>): nat
    requires Linked(m) && Ranked(m, rank) && forall x :: x in q ==> x in m
  {
    if q == [] then 0 else TreeWorth(m, rank, q[0]) + QueueWorth(m, rank, q[1..])
  }

  lemma {:induction false} QueueJoin(m: Shape, rank: Ranks, q: seq<Item>, r: seq<Item>)
    requires Linked(m) && Ranked(m, rank) && (forall x :: x in q ==> x in m) && (forall x :: x in r ==> x in m)
    ensures QueueWorth(m, rank, q + r) == QueueWorth(m, rank, q) + QueueWorth(m, rank, r)
  {
    if q == [] {
      assert q + r == r;
    } else {
      assert (q + r)[1..] == q[1..] + r;
      QueueJoin(m, rank, q[1..], r);
    }
  }

  // ---------- coins sorted by worth ----------

  datatype Entry = Entry(worth: nat, item: Item)

  /** A map from worth to items keeps entries of equal worth in the order they came. */
  function Emplace(s: seq<Entry>, e: Entry): seq<Entry> {
    if s == [] || e.worth < s[0].worth then [e] + s else [s[0]] + Emplace(s[1..], e)
  }

  function SumWorth(s: seq<Entry>): nat {
    if s == [] then 0 else s[0].worth + SumWorth(s[1..])
  }

  ghost predicate Sorted(s: seq<Entry>) {
    forall i, j :: 0 <= i < j < |s| ==> s[i].worth <= s[j].worth
  }

  ghost predicate Unique(s: seq<Entry>) {
    forall i, j :: 0 <= i < j < |s| ==> s[i].item != s[j].item
  }

  lemma {:induction false} EmplaceIn(s: seq<Entry>, e: Entry)
    ensures forall d :: d in Emplace(s, e) <==> d == e || d in s
    ensures SumWorth(Emplace(s, e)) == SumWorth(s) + e.worth
  {
    if s != [] && e.worth >= s[0].worth {
      EmplaceIn(s[1..], e);
      assert s == [s[0]] + s[1..];
    } else {
      assert ([e] + s)[1..] == s;
    }
  }

  lemma {:induction false} EmplaceHas(s: seq<Entry>, e: Entry, d: Entry)
    requires d in Emplace(s, e)
    ensures d == e || d in s
  {
    EmplaceIn(s, e);
  }

  lemma {:induction false} EmplaceSorted(s: seq<Entry>, e: Entry)
    requires Sorted(s)
    ensures Sorted(Emplace(s, e))
  {
    if s != [] && e.worth >= s[0].worth {
      EmplaceSorted(s[1..], e);
      EmplaceIn(s[1..], e);
      var t := Emplace(s[1..], e);
      assert forall d :: d in t ==> s[0].worth <= d.worth;
      assert forall j :: 0 <= j < |t| ==> t[j] in t;
    }
  }

  lemma {:induction false} EmplaceUnique(s: seq<Entry>, e: Entry)
    requires Unique(s) && forall d :: d in s ==> d.item != e.item
    ensures Unique(Emplace(s, e))
  {
    if s != [] && e.worth >= s[0].worth {
      EmplaceUnique(s[1..], e);
      EmplaceIn(s[1..], e);
      UniqueAlso(Emplace(s[1..], e), s[0]);
    } else {
      UniqueAlso(s, e);
    }
  }

  lemma {:induction false} UniqueAlso(s: seq<Entry>, e: Entry)
    requires Unique(s) && forall d :: d in s ==> d.item != e.item
    ensures Unique([e] + s)
  {
    assert forall j :: 0 <= j < |s| ==> s[j] in s;
  }

  // ---------- looking through one container ----------

  function Kids(l: seq<Item>): seq<Item> {
    if l == [] then []
    else
      var x := l[|l| - 1];
      Kids(l[..|l| - 1]) + if x.container then [x] else []
  }

  function EmplaceAll(s: seq<Entry>, m: Shape, l: seq<Item>): seq<Entry>
    requires forall x :: x in l ==> x in m
  {
    if l == [] then s
    else
      var x := l[|l| - 1];
      var t := EmplaceAll(s, m, l[..|l| - 1]);
      if !x.container && Worth(m[x]) != 0 then Emplace(t, Entry(Worth(m[x]), x)) else t
  }

  ghost predicate AreKids(l: seq<Item>, k: seq<Item>) {
    (forall x :: x in k ==> x in l && x.container) && (forall x :: x in l ==> (x.container ==> x in k))
  }

  ghost predicate Apart(k: seq<Item>, l: seq<Item>) {
    forall x :: x in k ==> x !in l
  }

  lemma {:induction false} DistinctJoin(k: seq<Item>, l: seq<Item>)
    requires Distinct(k) && Distinct(l) && Apart(k, l)
    ensures Distinct(k + l)
  {
    var s := k + l;
    forall i, j | 0 <= i < j < |s| ensures s[i] != s[j] {
      if i < |k| <= j { assert s[i] in k && s[j] in l; }
    }
  }

  lemma {:induction false} KidsIn(l: seq<Item>)
    ensures AreKids(l, Kids(l))
    ensures Distinct(l) ==> Distinct(Kids(l))
  {
    if l != [] {
      var k := l[..|l| - 1];
      KidsIn(k);
      assert l == k + [l[|l| - 1]];
    }
  }

  ghost predicate IsCoin(m: Shape, e: Entry) {
    e.item in m && !e.item.container && e.worth == Worth(m[e.item]) > 0
  }

  lemma {:induction false} EmplaceAllIn(s: seq<Entry>, m: Shape, l: seq<Item>)
    requires forall x :: x in l ==> x in m
    ensures forall e :: e in EmplaceAll(s, m, l) ==> e in s || (e.item in l && IsCoin(m, e))
    ensures Sorted(s) ==> Sorted(EmplaceAll(s, m, l))
  {
    if l != [] {
      var k, x := l[..|l| - 1], l[|l| - 1];
      EmplaceAllIn(s, m, k);
      assert l == k + [x];
      var t, e := EmplaceAll(s, m, k), Entry(Worth(m[x]), x);
      if !x.container && Worth(m[x]) != 0 {
        EmplaceIn(t, e);
        assert IsCoin(m, e);
        var u := Emplace(t, e);
        assert EmplaceAll(s, m, l) == u;
        assert x in l && forall y :: y in k ==> y in l;
        forall d | d in u ensures d in s || (d.item in l && IsCoin(m, d)) {
          EmplaceHas(t, e, d);
        }
        if Sorted(s) { EmplaceSorted(t, e); }
      } else {
        assert EmplaceAll(s, m, l) == t;
      }
    }
  }

  lemma {:induction false} EmplaceAllUnique(s: seq<Entry>, m: Shape, l: seq<Item>)
    requires (forall x :: x in l ==> x in m) && Distinct(l)
    requires Unique(s) && forall e :: e in s ==> e.item !in l
    ensures Unique(EmplaceAll(s, m, l))
  {
    if l != [] {
      var k, x := l[..|l| - 1], l[|l| - 1];
      assert l == k + [x] && x !in k;
      EmplaceAllUnique(s, m, k);
      EmplaceAllIn(s, m, k);
      if !x.container && Worth(m[x]) != 0 {
        EmplaceUnique(EmplaceAll(s, m, k), Entry(Worth(m[x]), x));
      }
    }
  }

  lemma {:induction false} ListSplit(m: Shape, rank: Ranks, l: seq<Item>, x: Item, bound: nat)
    requires Linked(m) && Ranked(m, rank) && x in m && rank[x] < bound && forall y :: y in l ==> y in m && rank[y] < bound
    ensures ListWorth(m, rank, l + [x], bound) ==
            ListWorth(m, rank, l, bound) + if x.container then TreeWorth(m, rank, x) else Worth(m[x])
  {
    if l == [] {
      assert (l + [x])[1..] == [];
      assert ListWorth(m, rank, [], bound) == 0;
    } else {
      assert (l + [x])[1..] == l[1..] + [x];
      ListSplit(m, rank, l[1..], x, bound);
    }
  }

  /** The coins found in a list and the worth of the containers found make up its worth. */
  lemma {:induction false} Looked(m: Shape, rank: Ranks, s: seq<Entry>, l: seq<Item>, bound: nat)
    requires Linked(m) && Ranked(m, rank) && forall y :: y in l ==> y in m && rank[y] < bound
    ensures forall x :: x in Kids(l) ==> x in m
    ensures SumWorth(EmplaceAll(s, m, l)) + QueueWorth(m, rank, Kids(l)) == SumWorth(s) + ListWorth(m, rank, l, bound)
    ensures QueueNodes(m, rank, Kids(l)) <= ListNodes(m, rank, l, bound)
  {
    KidsIn(l);
    if l != [] {
      var k, x := l[..|l| - 1], l[|l| - 1];
      assert l == k + [x];
      Looked(m, rank, s, k, bound);
      ListSplit(m, rank, k, x, bound);
      NodesSplit(m, rank, k, x, bound);
      KidsIn(k);
      LookedOne(m, rank, EmplaceAll(s, m, k), Kids(k), x);
      assert Kids(l) == if x.container then Kids(k) + [x] else Kids(k);
      assert EmplaceAll(s, m, l) == if !x.container && Worth(m[x]) != 0
                                    then Emplace(EmplaceAll(s, m, k), Entry(Worth(m[x]), x)) else EmplaceAll(s, m, k);
    }
  }

  lemma {:induction false} LookedOne(m: Shape, rank: Ranks, s: seq<Entry>, q: seq<Item>, x: Item)
    requires Linked(m) && Ranked(m, rank) && x in m && forall y :: y in q ==> y in m
    ensures if x.container then
              && QueueWorth(m, rank, q + [x]) == QueueWorth(m, rank, q) + TreeWorth(m, rank, x)
              && QueueNodes(m, rank, q + [x]) == QueueNodes(m, rank, q) + Nodes(m, rank, x)
            else
              SumWorth(Emplace(s, Entry(Worth(m[x]), x))) == SumWorth(s) + Worth(m[x])
  {
    EmplaceIn(s, Entry(Worth(m[x]), x));
    if x.container {
      QueueJoin(m, rank, q, [x]);
      OneMoreNode(m, rank, q, x);
      assert [x][1..] == [];
      assert QueueWorth(m, rank, []) == 0;
    }
  }

  // ---------- breadth first ----------

  /** What is known while containers are looked through: `seen` are done, `rest` are to come. */
  ghost predicate Frontier(m: Shape, rank: Ranks, to: Item, seen: set<Item>, rest: seq<Item>, coins: seq<Entry>) {
    && Linked(m) && Ranked(m, rank) && to in m
    && (forall x :: x in rest ==> Waits(m, rank, to, seen, x))
    && Distinct(rest)
    && (forall x :: x in seen ==> x in m && (x == to || m[x].parent in seen))
    && (forall x :: x in seen ==> Under(m, rank, to, x))
    && (forall e :: e in coins ==> IsCoin(m, e) && m[e.item].parent in seen)
    && Unique(coins) && Sorted(coins)
  }

  ghost predicate Waits(m: Shape, rank: Ranks, to: Item, seen: set<Item>, x: Item)
    requires m.Keys == rank.Keys && to in m
  {
    x in m && x !in seen && (x == to || (m[x].parent in seen && rank[x] < rank[to]))
  }

  lemma {:induction false} FrontierStart(m: Shape, rank: Ranks, to: Item)
    requires Linked(m) && Ranked(m, rank) && to in m
    ensures Frontier(m, rank, to, {}, [to], [])
  {
  }

  lemma {:induction false} FrontierStep(m: Shape, rank: Ranks, to: Item, seen: set<Item>, rest: seq<Item>, coins: seq<Entry>)
    requires Frontier(m, rank, to, seen, rest, coins) && rest != []
    ensures var c := rest[0];
            && c in m && (forall x :: x in m[c].list ==> x in m)
            && Frontier(m, rank, to, seen + {c}, rest[1..] + Kids(m[c].list), EmplaceAll(coins, m, m[c].list))
  {
    var c := rest[0];
    assert Waits(m, rank, to, seen, c);
    BelowRanks(m, rank, c);
    assert ListOk(m, c);
    UnderStep(m, rank, to, c);
    FrontierRest(m, rank, to, seen, rest);
    var l := m[c].list;
    EmplaceAllIn(coins, m, l);
    forall e | e in coins ensures e.item !in l {
      assert m[e.item].parent in seen;
    }
    EmplaceAllUnique(coins, m, l);
  }

  lemma {:induction false} FrontierRest(m: Shape, rank: Ranks, to: Item, seen: set<Item>, rest: seq<Item>)
    requires Frontier(m, rank, to, seen, rest, []) && rest != []
    ensures var c := rest[0];
            && c in m
            && Distinct(rest[1..] + Kids(m[c].list))
            && forall x :: x in rest[1..] + Kids(m[c].list) ==> Waits(m, rank, to, seen + {c}, x)
  {
    var c := rest[0];
    assert Waits(m, rank, to, seen, c);
    BelowRanks(m, rank, c);
    assert ListOk(m, c);
    KidsIn(m[c].list);
    var k, r := Kids(m[c].list), rest[1..];
    forall x | x in r ensures Waits(m, rank, to, seen + {c}, x) && x !in k {
      assert Waits(m, rank, to, seen, x);
    }
    forall x | x in k ensures Waits(m, rank, to, seen + {c}, x) {
      assert x in m[c].list;
    }
    assert Apart(r, k);
    DistinctJoin(r, k);
  }

  // ---------- the order among stacks of equal worth ----------

  /** The entries of this worth, in order. */
  function OfWorth(s: seq<Entry>, w: nat): seq<Entry> {
    if s == [] then [] else (if s[0].worth == w then [s[0]] else []) + OfWorth(s[1..], w)
  }

  lemma {:induction false} OfWorthJoin(s: seq<Entry>, t: seq<Entry>, w: nat)
    ensures OfWorth(s + t, w) == OfWorth(s, w) + OfWorth(t, w)
  {
    if s == [] {
      assert s + t == t;
    } else {
      assert (s + t)[1..] == s[1..] + t && (s + t)[0] == s[0];
      OfWorthJoin(s[1..], t, w);
      var first := if s[0].worth == w then [s[0]] else [];
      assert OfWorth(s + t, w) == first + OfWorth(s[1..] + t, w);
      Regroup(first, OfWorth(s[1..], w), OfWorth(t, w));
    }
  }

  lemma {:induction false} NoneOfWorth(s: seq<Entry>, w: nat)
    requires forall e :: e in s ==> e.worth != w
    ensures OfWorth(s, w) == []
  {
    if s != [] { NoneOfWorth(s[1..], w); }
  }

  /** An entry comes after those of equal worth. */
  lemma {:induction false} EmplaceStable(s: seq<Entry>, e: Entry, w: nat)
    requires Sorted(s)
    ensures OfWorth(Emplace(s, e), w) == OfWorth(s, w) + OfWorth([e], w)
  {
    if s == [] {
    } else if e.worth < s[0].worth {
      assert ([e] + s)[1..] == s && [e][1..] == [];
      if e.worth == w { NoneOfWorth(s, w); }
    } else {
      EmplaceStable(s[1..], e, w);
      var t := Emplace(s[1..], e);
      assert ([s[0]] + t)[1..] == t;
    }
  }

  /** The coins in a list, in its order. */
  function CoinsIn(m: Shape, l: seq<Item>): seq<Entry>
    requires forall x :: x in l ==> x in m
  {
    if l == [] then []
    else
      var x := l[|l| - 1];
      CoinsIn(m, l[..|l| - 1]) + if !x.container && Worth(m[x]) != 0 then [Entry(Worth(m[x]), x)] else []
  }

  lemma {:induction false} EmplaceAllStable(s: seq<Entry>, m: Shape, l: seq<Item>, w: nat)
    requires (forall x :: x in l ==> x in m) && Sorted(s)
    ensures OfWorth(EmplaceAll(s, m, l), w) == OfWorth(s, w) + OfWorth(CoinsIn(m, l), w)
  {
    if l != [] {
      var k, x := l[..|l| - 1], l[|l| - 1];
      EmplaceAllStable(s, m, k, w);
      EmplaceAllIn(s, m, k);
      if !x.container && Worth(m[x]) != 0 {
        var e := Entry(Worth(m[x]), x);
        EmplaceStable(EmplaceAll(s, m, k), e, w);
        OfWorthJoin(CoinsIn(m, k), [e], w);
        Regroup(OfWorth(s, w), OfWorth(CoinsIn(m, k), w), OfWorth([e], w));
      } else {
        assert CoinsIn(m, k) + [] == CoinsIn(m, k);
      }
    }
  }

  lemma {:induction false} FewerNodes(m: Shape, rank: Ranks, q: seq<Item>)
    requires Linked(m) && Ranked(m, rank) && q != [] && forall x :: x in q ==> x in m
    ensures Listed(m, q[0]) && forall x :: x in q[1..] + Kids(m[q[0]].list) ==> x in m
    ensures QueueNodes(m, rank, q[1..] + Kids(m[q[0]].list)) < QueueNodes(m, rank, q)
  {
    BelowRanks(m, rank, q[0]);
    Looked(m, rank, [], m[q[0]].list, rank[q[0]]);
    NodesJoin(m, rank, q[1..], Kids(m[q[0]].list));
  }

  /** The coins in the order in which they are met: one container after the other, those that lie in
      it queued behind. */
  ghost function Visit(m: Shape, rank: Ranks, q: seq<Item>): seq<Entry>
    requires Linked(m) && Ranked(m, rank) && forall x :: x in q ==> x in m
    decreases QueueNodes(m, rank, q)
  {
    if q == [] then []
    else
      FewerNodes(m, rank, q);
      CoinsIn(m, m[q[0]].list) + Visit(m, rank, q[1..] + Kids(m[q[0]].list))
  }

  /** Among equals, the coins found come in the order in which they are met. */
  ghost predicate AsMet(m: Shape, rank: Ranks, to: Item, rest: seq<Item>, coins: seq<Entry>)
    requires Linked(m) && Ranked(m, rank) && to in m && forall x :: x in rest ==> x in m
  {
    forall w: nat :: OfWorth(coins, w) + OfWorth(Visit(m, rank, rest), w) == OfWorth(Visit(m, rank, [to]), w)
  }

  lemma {:induction false} MetStart(m: Shape, rank: Ranks, to: Item)
    requires Linked(m) && Ranked(m, rank) && to in m
    ensures AsMet(m, rank, to, [to], [])
  {
    hide Visit;
    forall w: nat ensures OfWorth([], w) + OfWorth(Visit(m, rank, [to]), w) == OfWorth(Visit(m, rank, [to]), w) {
      NoneOfWorth([], w);
    }
  }

  lemma {:induction false} MetStep(m: Shape, rank: Ranks, to: Item, rest: seq<Item>, coins: seq<Entry>)
    requires Linked(m) && Ranked(m, rank) && to in m && rest != [] && (forall x :: x in rest ==> x in m) && Sorted(coins)
    requires AsMet(m, rank, to, rest, coins)
    ensures Listed(m, rest[0]) && forall x :: x in rest[1..] + Kids(m[rest[0]].list) ==> x in m
    ensures AsMet(m, rank, to, rest[1..] + Kids(m[rest[0]].list), EmplaceAll(coins, m, m[rest[0]].list))
  {
    FewerNodes(m, rank, rest);
    var l := m[rest[0]].list;
    var more, found := rest[1..] + Kids(l), CoinsIn(m, l);
    forall w: nat
      ensures OfWorth(EmplaceAll(coins, m, l), w) + OfWorth(Visit(m, rank, more), w) == OfWorth(Visit(m, rank, [to]), w)
    {
      EmplaceAllStable(coins, m, l, w);
      OfWorthJoin(found, Visit(m, rank, more), w);
      Regroup(OfWorth(coins, w), OfWorth(found, w), OfWorth(Visit(m, rank, more), w));
    }
  }

  lemma {:induction false} MetAll(m: Shape, rank: Ranks, to: Item, coins: seq<Entry>)
    requires Linked(m) && Ranked(m, rank) && to in m && AsMet(m, rank, to, [], coins)
    ensures forall w: nat :: OfWorth(coins, w) == OfWorth(Visit(m, rank, [to]), w)
  {
    forall w: nat ensures OfWorth(coins, w) == OfWorth(Visit(m, rank, [to]), w) {
      assert OfWorth(Visit(m, rank, []), w) == [];
    }
  }

  // ---------- collecting ----------

  /** Adds the containers and the coins that lie in `c` to those found. */
  method LookIn(g: Game, c: Item, containers: seq<Item>, coins: seq<Entry>)
    returns (containers': seq<Item>, coins': seq<Entry>, count: nat)
    requires g.Valid() && c in g.world
    ensures Listed(g.Now(), c) && containers' == containers + Kids(c.itemlist)
    ensures coins' == EmplaceAll(coins, g.Now(), c.itemlist) && count == SumWorth(coins') - SumWorth(coins)
  {
    ListIn(g.Now(), c);
    hide Good, Emplace, SumWorth;
    containers', coins', count := containers, coins, 0;
    var i := 0;
    while i < |c.itemlist|
      invariant 0 <= i <= |c.itemlist|
      invariant containers' == containers + Kids(c.itemlist[..i])
      invariant coins' == EmplaceAll(coins, g.Now(), c.itemlist[..i]) && count == SumWorth(coins') - SumWorth(coins)
    {
      var x := c.itemlist[i];
      assert c.itemlist[..i + 1][..i] == c.itemlist[..i] && x in c.itemlist;
      if x.container {
        containers' := containers' + [x];
      } else {
        var worth := Worth(x.Look());
        if worth != 0 {
          EmplaceIn(coins', Entry(worth, x));
          count := count + worth;
          coins' := Emplace(coins', Entry(worth, x));
        }
      }
      i := i + 1;
    }
    assert c.itemlist[..i] == c.itemlist;
  }

  /** All of `s` are coins that lie in containers, each once. */
  ghost predicate Coins(m: Shape, s: seq<Entry>) {
    Unique(s) && forall e :: e in s ==> IsCoin(m, e) && m[e.item].parent != null
  }

  /** Finds every coin in a container and what lies in it, sorted by worth. */
  method Collect(g: Game, to: Item) returns (coins: seq<Entry>, moneyCount: nat)
    requires g.Valid() && to in g.world
    ensures moneyCount == SumWorth(coins) && Sorted(coins) && Coins(g.Now(), coins) && AllCoins(g.Now(), g.rank, to, coins)
  {
    hide AsMet, Visit, OfWorth, Good, Linked, Ranked, Frontier, QueueWorth, QueueNodes, TreeWorth, SumWorth, Coins, CoinsUnder, Emplace;
    ghost var m, rank := g.Now(), g.rank;
    GoodParts(m, rank, WeightsOf(g.world));
    FrontierStart(m, rank, to);
    QueueOne(m, rank, to);
    MetStart(m, rank, to);
    NoWorth();
    ghost var seen: set<Item> := {};
    var containers := [to];
    coins, moneyCount := [], 0;
    while |containers| > 0
      invariant Frontier(m, rank, to, seen, containers, coins)
      invariant (forall x :: x in containers ==> x in m) && AsMet(m, rank, to, containers, coins)
      invariant moneyCount == SumWorth(coins)
      invariant moneyCount + QueueWorth(m, rank, containers) == TreeWorth(m, rank, to)
      decreases QueueNodes(m, rank, containers)
    {
      var c := containers[0];
      FoundSorted(m, rank, to, seen, containers, coins);
      MetStep(m, rank, to, containers, coins);
      CollectStep(m, rank, to, seen, containers, coins);
      var more;
      containers, coins, more := LookIn(g, c, containers[1..], coins);
      moneyCount := moneyCount + more;
      seen := seen + {c};
    }
    NoQueue(m, rank);
    MetAll(m, rank, to, coins);
    FoundUnder(m, rank, to, seen, coins);
    NowAll(m, rank, to, coins);
  }

  /** The coins are all that lie in `to` at every depth; among equals they come as they are met. */
  ghost predicate AllCoins(m: Shape, rank: Ranks, to: Item, coins: seq<Entry>) {
    && Linked(m) && Ranked(m, rank) && to in m && SumWorth(coins) == TreeWorth(m, rank, to)
    && CoinsUnder(m, rank, to, coins) && forall w: nat :: OfWorth(coins, w) == OfWorth(Visit(m, rank, [to]), w)
  }

  lemma {:induction false} NowAll(m: Shape, rank: Ranks, to: Item, coins: seq<Entry>)
    requires Linked(m) && Ranked(m, rank) && to in m && SumWorth(coins) == TreeWorth(m, rank, to)
    requires CoinsUnder(m, rank, to, coins) && forall w: nat :: OfWorth(coins, w) == OfWorth(Visit(m, rank, [to]), w)
    ensures AllCoins(m, rank, to, coins)
  {
  }

  lemma {:induction false} FoundSorted(m: Shape, rank: Ranks, to: Item, seen: set<Item>, rest: seq<Item>, coins: seq<Entry>)
    requires Frontier(m, rank, to, seen, rest, coins)
    ensures Sorted(coins)
  {
  }

  lemma {:induction false} NoWorth()
    ensures SumWorth([]) == 0
  {
  }

  lemma {:induction false} NoQueue(m: Shape, rank: Ranks)
    requires Linked(m) && Ranked(m, rank)
    ensures QueueWorth(m, rank, []) == 0
  {
  }

  ghost predicate CoinsUnder(m: Shape, rank: Ranks, to: Item, s: seq<Entry>)
    requires Ranked(m, rank)
  {
    forall e :: e in s ==> Under(m, rank, to, e.item)
  }

  lemma {:induction false} FoundUnder(m: Shape, rank: Ranks, to: Item, seen: set<Item>, coins: seq<Entry>)
    requires Frontier(m, rank, to, seen, [], coins)
    ensures CoinsUnder(m, rank, to, coins) && Coins(m, coins) && Sorted(coins)
  {
    forall e | e in coins ensures Under(m, rank, to, e.item) {
      UnderStep(m, rank, to, e.item);
    }
  }

  lemma {:induction false} QueueOne(m: Shape, rank: Ranks, to: Item)
    requires Linked(m) && Ranked(m, rank) && to in m
    ensures QueueWorth(m, rank, [to]) == TreeWorth(m, rank, to)
  {
    assert [to][1..] == [];
    assert QueueWorth(m, rank, []) == 0;
  }

  lemma {:induction false} CollectStep(m: Shape, rank: Ranks, to: Item, seen: set<Item>, rest: seq<Item>, coins: seq<Entry>)
    requires Frontier(m, rank, to, seen, rest, coins) && rest != [] && forall x :: x in rest ==> x in m
    ensures rest[0] in m && Listed(m, rest[0])
    ensures var c := rest[0];
            var more, coins' := rest[1..] + Kids(m[c].list), EmplaceAll(coins, m, m[c].list);
            && Frontier(m, rank, to, seen + {c}, more, coins') && (forall x :: x in more ==> x in m)
            && SumWorth(coins') + QueueWorth(m, rank, more) == SumWorth(coins) + QueueWorth(m, rank, rest)
            && QueueNodes(m, rank, more) < QueueNodes(m, rank, rest)
  {
    var c := rest[0];
    FrontierStep(m, rank, to, seen, rest, coins);
    BelowRanks(m, rank, c);
    Looked(m, rank, coins, m[c].list, rank[c]);
    QueueJoin(m, rank, rest[1..], Kids(m[c].list));
    NodesJoin(m, rank, rest[1..], Kids(m[c].list));
  }

  // ---------- what paying leaves alone ----------

  /** `to` and all that lies in it. */
  ghost function Inside(m: Shape, rank: Ranks, to: Item): set<Item>
    requires Ranked(m, rank)
  {
    set x | x in m && Under(m, rank, to, x)
  }

  /** Nothing outside changed at all, and whatever lies in something has not moved. */
  ghost predicate Framed(m: Shape, n: Shape, inside: set<Item>) {
    m.Keys <= n.Keys && forall z {:trigger FramedAt(m, n, inside, z)} :: z in m ==> FramedAt(m, n, inside, z)
  }

  ghost predicate FramedAt(m: Shape, n: Shape, inside: set<Item>, z: Item)
    requires z in m && z in n
  {
    (z !in inside ==> n[z] == m[z]) && (n[z].parent == m[z].parent || n[z].parent == null)
  }

  /** A set that contains `to`, what lies in it directly, and with an item all between it and `to`. */
  ghost predicate Closed(m: Shape, to: Item, inside: set<Item>) {
    && to in inside
    && forall z {:trigger ClosedAt(m, to, inside, z)} :: z in m ==> ClosedAt(m, to, inside, z)
  }

  ghost predicate ClosedAt(m: Shape, to: Item, inside: set<Item>, z: Item)
    requires z in m
  {
    && (m[z].parent == to ==> z in inside)
    && (z in inside && z != to ==> m[z].parent != null && m[z].parent in inside)
  }

  lemma {:induction false} InsideClosed(m: Shape, rank: Ranks, to: Item)
    requires Ranked(m, rank) && to in m
    ensures Closed(m, to, Inside(m, rank, to))
  {
    UnderStep(m, rank, to, to);
    forall z | z in m ensures ClosedAt(m, to, Inside(m, rank, to), z) {
      UnderStep(m, rank, to, z);
    }
  }

  lemma {:induction false} FrameStart(m: Shape, inside: set<Item>)
    ensures Framed(m, m, inside)
  {
    forall z | z in m ensures FramedAt(m, m, inside, z) {
    }
  }

  lemma {:induction false} FrameGive(m0: Shape, m: Shape, n: Shape, to: Item, inside: set<Item>)
    requires Framed(m0, m, inside) && Closed(m0, to, inside) && Kept(m, n) && Local(m, n, {to}, null)
    ensures Framed(m0, n, inside)
  {
    forall z | z in m0 ensures FramedAt(m0, n, inside, z) {
      assert FramedAt(m0, m, inside, z) && ClosedAt(m0, to, inside, z) && LocalAt(m, n, {to}, null, z);
    }
  }

  /** Only a coin and the list it was in changed. */
  ghost predicate OnlyCoin(m: Shape, n: Shape, x: Item)
    requires x in m
  {
    && n.Keys == m.Keys
    && (forall z :: z in m && z != x && z != m[x].parent ==> n[z] == m[z])
    && (forall z :: z in m ==> n[z].parent == m[z].parent || n[z].parent == null)
  }

  lemma {:induction false} FrameTake(m0: Shape, m: Shape, n: Shape, to: Item, inside: set<Item>, x: Item)
    requires Framed(m0, m, inside) && Closed(m0, to, inside) && x in m0 && x in inside && x != to
    requires m[x].parent != null && OnlyCoin(m, n, x)
    ensures Framed(m0, n, inside)
  {
    assert FramedAt(m0, m, inside, x) && ClosedAt(m0, to, inside, x);
    forall z | z in m0 ensures FramedAt(m0, n, inside, z) {
      assert FramedAt(m0, m, inside, z);
    }
  }

  // ---------- paying ----------

  /** `m` with so much of an item taken out of where it lies. */
  ghost function Taken(m: Shape, x: Item, count: nat): Shape {
    if x in m && m[x].parent != null && m[x].parent in m && (m[x].kind.stackable ==> count <= m[x].count)
    then TakenOut(m, m[x].parent, x, count) else m
  }

  /** `m` with all these stacks taken out. */
  ghost function TakenAll(m: Shape, s: seq<Entry>): Shape {
    if s == [] then m
    else
      var k, x := TakenAll(m, s[..|s| - 1]), s[|s| - 1].item;
      if x in k then Taken(k, x, k[x].count) else k
  }

  /** What paying did: the stacks there were, how many of them went whole before the last one, and the
      change that was given. */
  datatype Receipt = Receipt(coins: seq<Entry>, last: nat, gifts: seq<Gift>, mid: Shape)

  /** The last stack goes whole if it is worth what is left; else the change is given, in as few coins
      as can be, and then as many coins of the stack go as are worth more than what is left. */
  ghost predicate Settles(owner: Owner, to: Item, flags: Flags, mint: Mint, m: Shape, n: Shape, e: Entry, left: nat,
                          gifts: seq<Gift>, mid: Shape, tile: seq<Pile>, tile': seq<Pile>) {
    && e.item in m
    && if e.worth == left then n == Taken(m, e.item, m[e.item].count) && tile' == tile && gifts == []
       else
         var unit := Unit(m[e.item].kind);
         && Ledger(owner, to, flags, gifts, m, mid, Stacks(mint, Minted(Back(unit, left))), tile, tile')
         && n == Taken(mid, e.item, Enough(unit, left))
  }

  /** So many coins are worth more than what is left, and one less are not. */
  function Enough(unit: nat, left: nat): nat { if unit == 0 then 0 else left / unit + 1 }

  /** What is given back for them. */
  function Back(unit: nat, left: nat): nat { Max(0, unit * Enough(unit, left) - left) }

  /** The cheapest stacks go first, whole, while they are worth less than the amount. */
  ghost predicate PaidBy(owner: Owner, to: Item, flags: Flags, mint: Mint, m: Shape, n: Shape, money: nat, r: Receipt,
                         tile: seq<Pile>, tile': seq<Pile>) {
    && Sorted(r.coins) && Coins(m, r.coins) && r.last < |r.coins|
    && var before := SumWorth(r.coins[..r.last]);
       && before < money <= before + r.coins[r.last].worth
       && Settles(owner, to, flags, mint, TakenAll(m, r.coins[..r.last]), n, r.coins[r.last], money - before, r.gifts, r.mid,
                  tile, tile')
  }

  lemma {:induction false} TakenMore(m: Shape, s: seq<Entry>, i: nat)
    requires i < |s|
    ensures SumWorth(s[..i + 1]) == SumWorth(s[..i]) + s[i].worth
    ensures var k := TakenAll(m, s[..i]);
            TakenAll(m, s[..i + 1]) == if s[i].item in k then Taken(k, s[i].item, k[s[i].item].count) else k
  {
    assert s[..i + 1][..i] == s[..i];
    SumMore(s[..i], s[i]);
    assert s[..i + 1] == s[..i] + [s[i]];
  }

  lemma {:induction false} SumMore(s: seq<Entry>, e: Entry)
    ensures SumWorth(s + [e]) == SumWorth(s) + e.worth
  {
    if s == [] {
      assert (s + [e])[1..] == [];
      assert SumWorth([]) == 0;
    } else {
      assert (s + [e])[1..] == s[1..] + [e];
      SumMore(s[1..], e);
    }
  }

  lemma {:induction false} CoinGone(m: Shape, n: Shape, rank: Ranks, w: Weights, x: Item, count: nat, code: Code, s: seq<Entry>)
    requires Good(m, rank, w) && x in m && m[x].parent != null && !x.container && Unit(m[x].kind) > 0 && 1 <= count <= m[x].count
    requires Coins(m, s) && (forall e :: e in s ==> e.item != x)
    requires RemoveDone(m, n, x, count, false, code)
    ensures Held(n) == Held(m) - Unit(m[x].kind) * count
    ensures Coins(n, s) && OnlyCoin(m, n, x) && n == Taken(m, x, count)
  {
    assert UpOk(m, x);
    var c := m[x].parent;
    hide Good, Total;
    RemovedMeans(m, n, rank, c, x, count);
    assert ListOk(m, c);
    assert Value(m[x].kind) == Unit(m[x].kind);
    forall e | e in s ensures IsCoin(n, e) && n[e.item].parent != null {
      assert IsCoin(m, e);
    }
  }

  /** Takes so many coins of a stack away; other coins stay. */
  method TakeCoins(g: Game, x: Item, count: int, ghost s: seq<Entry>)
    requires g.Valid() && x in g.world && x.parent != null && !x.container && Unit(x.kind) > 0
    requires count == -1 || 1 <= count <= x.count
    requires Coins(g.Now(), s) && forall e :: e in s ==> e.item != x
    modifies g.world
    ensures g.Valid() && Coins(g.Now(), s) && OnlyCoin(old(g.Now()), g.Now(), x)
    ensures Held(g.Now()) == Held(old(g.Now())) - old(Unit(x.kind)) * (if count == -1 then old(x.count) else count)
    ensures g.Now() == Taken(old(g.Now()), x, if count == -1 then old(x.count) else count)
  {
    ghost var m, w := g.Now(), WeightsOf(g.world);
    StackLow(m, x);
    ghost var n := if count == -1 then x.count else count;
    hide Good, Held, Coins, RemoveDone, OnlyCoin, Taken;
    var code := g.InternalRemoveItem(x, count, false);
    CoinGone(m, g.Now(), g.rank, w, x, n, code, s);
  }

  /** A stack worth more than the amount: the coins to take are enough, and too much by at most one. */
  lemma {:induction false} ChangeFor(unit: nat, count: nat, money: nat)
    requires unit > 0 && count > 0 && money < unit * count
    ensures unit * count / count == unit
    ensures var n := money / unit + 1; 1 <= n <= count && 0 < unit * n - money <= unit
  {
    assert unit * count / count == unit by { Quotient(unit, count); }
    var q := money / unit;
    assert money == unit * q + money % unit;
    MulLe(count, q, unit);
    assert unit * (q + 1) == unit * q + unit;
  }

  lemma {:induction false} SmallUnit(kind: Kind)
    ensures Unit(kind) <= 10000
  {
  }

  lemma {:induction false} Quotient(unit: nat, count: nat)
    requires count > 0
    ensures unit * count / count == unit
  {
    var q := unit * count / count;
    assert unit * count == q * count + unit * count % count;
    MulLe(q + 1, unit, count);
    MulLe(unit + 1, q, count);
  }

  lemma {:induction false} MulLe(a: nat, b: nat, c: nat)
    ensures a <= b ==> c * a <= c * b
  {
  }

  /** Pays the amount from one stack that is worth more and gives the change. */
  method PayAndChange(g: Game, to: Item, x: Item, worth: nat, money: nat, flags: Flags, mint: Mint, tile: seq<Pile>,
                      ghost m0: Shape, ghost inside: set<Item>)
    returns (tile': seq<Pile>, ghost gifts: seq<Gift>, ghost mid: Shape)
    requires Framed(m0, g.Now(), inside) && Closed(m0, to, inside) && x in m0 && x in inside
    requires g.Valid() && to in g.world && to.container && Monotone(g.owner, to) && mint.Valid()
    requires x in g.world && x.parent != null && !x.container && Unit(x.kind) > 0 && worth == Worth(x.Look()) > money
    modifies g`rank, g`world, g.world
    ensures g.Valid() && old(g.world) <= g.world && fresh(g.world - old(g.world))
    ensures Held(g.Now()) + TileWorth(tile') == Held(old(g.Now())) + TileWorth(tile) - money
    ensures Framed(m0, g.Now(), inside)
    ensures Settles(g.owner, to, flags, mint, old(g.Now()), g.Now(), Entry(worth, x), money, gifts, mid, tile, tile')
  {
    hide Framed, Closed, Ledger, Stacks, Taken, Unit, Minted, StacksFit;
    ghost var m := g.Now();
    Seen(g.world, x);
    ghost var unit := Unit(x.kind);
    SmallUnit(x.kind);
    ChangeFor(unit, x.count, money);
    var each := worth / x.count;
    var removeCount := money / each + 1;
    var change := each * removeCount - money;
    assert removeCount == Enough(unit, money) && change == Back(unit, money);
    SmallFits(change);
    MintedExact(change);
    hide Back, Enough;
    hide Good, Given, Held, Coins, Kept, Local, OnlyCoin, StacksFit, Minted, Right;
    tile', gifts := AddMoney(g, to, change, flags, mint, tile);
    GivenKeeps(m, g.Now(), to, tile, tile', mint, Minted(change), x);
    NoCoins(g.Now());
    FrameGive(m0, m, g.Now(), to, inside);
    mid := g.Now();
    TakeCoins(g, x, removeCount, []);
    FrameTake(m0, mid, g.Now(), to, inside, x);
  }

  lemma {:induction false} NoCoins(m: Shape)
    ensures Coins(m, [])
  {
  }

  lemma {:induction false} GivenKeeps(m: Shape, n: Shape, to: Item, tile: seq<Pile>, tile': seq<Pile>, mint: Mint, c: Change, x: Item)
    requires Given(m, n, to, tile, tile', Stacks(mint, c)) && x in m && m[x].parent != null && mint.Valid()
    ensures x in n && n[x].kind == m[x].kind && n[x].parent == m[x].parent && n[x].count >= m[x].count
    ensures Held(n) + TileWorth(tile') == Held(m) + TileWorth(tile) + ChangeWorth(c)
    ensures Kept(m, n) && Local(m, n, {to}, null)
  {
    StacksTotal(mint, c, Value);
    hide Stacks, Local;
  }

  lemma {:induction false} NextCoin(m: Shape, s: seq<Entry>, i: nat)
    requires i < |s| && Coins(m, s[i..])
    ensures s[i].item in m && IsCoin(m, s[i]) && m[s[i].item].parent != null && Unit(m[s[i].item].kind) > 0
    ensures Coins(m, s[i + 1..]) && (forall e :: e in s[i + 1..] ==> e.item != s[i].item)
    ensures SumWorth(s[i..]) == s[i].worth + SumWorth(s[i + 1..])
  {
    assert s[i..][0] == s[i] && s[i..][1..] == s[i + 1..];
    assert s[i] in s[i..];
  }

  /** Takes whole stacks while they are worth less than what is left, then settles the last. */
  method Pay(g: Game, to: Item, money: nat, coins: seq<Entry>, flags: Flags, mint: Mint, tile: seq<Pile>,
             ghost m0: Shape, ghost inside: set<Item>)
    returns (tile': seq<Pile>, ghost r: Receipt)
    requires g.Valid() && to in g.world && to.container && Monotone(g.owner, to) && mint.Valid()
    requires 0 < money <= SumWorth(coins) && Coins(g.Now(), coins) && CoinsInside(m0, inside, coins) && Sorted(coins)
    requires m0 == g.Now() && Framed(m0, g.Now(), inside) && Closed(m0, to, inside)
    modifies g`rank, g`world, g.world
    ensures g.Valid() && old(g.world) <= g.world && fresh(g.world - old(g.world))
    ensures Held(g.Now()) + TileWorth(tile') == Held(old(g.Now())) + TileWorth(tile) - money
    ensures Framed(m0, g.Now(), inside)
    ensures PaidBy(g.owner, to, flags, mint, m0, g.Now(), money, r, tile, tile') && r.coins == coins
  {
    hide Good, Held, Coins, CoinsInside, Framed, Closed, TileWorth, Sorted, PaidBy, Paying;
    tile' := tile;
    var left := money;
    var i, paid := 0, false;
    r := Receipt(coins, 0, [], m0);
    PayingFirst(g.owner, to, flags, mint, m0, coins, money, tile, inside);
    hide SumWorth;
    while i < |coins| && !paid
      invariant 0 <= i <= |coins| && r.coins == coins
      invariant g.Valid() && old(g.world) <= g.world && fresh(g.world - old(g.world))
      invariant Paying(g.owner, to, flags, mint, m0, g.Now(), coins, i, money, left, paid, tile, tile', r, inside)
    {
      left, paid, tile', r := PayNext(g, to, money, coins, i, left, flags, mint, tile, tile', r, m0, inside);
      i := i + 1;
    }
    PayingLast(g.owner, to, flags, mint, m0, g.Now(), coins, i, money, left, paid, tile, tile', r, inside);
  }

  /** How far paying has come: `i` stacks are taken whole and so much is left, or all is paid. */
  ghost predicate Paying(owner: Owner, to: Item, flags: Flags, mint: Mint, m: Shape, n: Shape, coins: seq<Entry>, i: int, money: nat,
                         left: nat, paid: bool, tile: seq<Pile>, tile': seq<Pile>, r: Receipt, inside: set<Item>) {
    && 0 <= i <= |coins| && Framed(m, n, inside)
    && Held(n) + TileWorth(tile') == Held(m) + TileWorth(tile) - (money - if paid then 0 else left)
    && if paid then PaidBy(owner, to, flags, mint, m, n, money, r, tile, tile')
       else
         && Coins(n, coins[i..]) && 0 < left <= SumWorth(coins[i..])
         && n == TakenAll(m, coins[..i]) && tile' == tile && left + SumWorth(coins[..i]) == money
  }

  lemma {:induction false} PayingFirst(owner: Owner, to: Item, flags: Flags, mint: Mint, m: Shape, coins: seq<Entry>, money: nat,
                                       tile: seq<Pile>, inside: set<Item>)
    requires Framed(m, m, inside) && Coins(m, coins) && 0 < money <= SumWorth(coins)
    ensures Paying(owner, to, flags, mint, m, m, coins, 0, money, money, false, tile, tile, Receipt(coins, 0, [], m), inside)
  {
    assert coins[0..] == coins;
    NothingTaken(m, coins);
    hide Framed, Held, Coins, TileWorth, PaidBy;
  }

  lemma {:induction false} PayingLast(owner: Owner, to: Item, flags: Flags, mint: Mint, m: Shape, n: Shape, coins: seq<Entry>, i: int,
                                      money: nat, left: nat, paid: bool, tile: seq<Pile>, tile': seq<Pile>, r: Receipt, inside: set<Item>)
    requires Paying(owner, to, flags, mint, m, n, coins, i, money, left, paid, tile, tile', r, inside) && (i == |coins| || paid)
    ensures Held(n) + TileWorth(tile') == Held(m) + TileWorth(tile) - money
    ensures Framed(m, n, inside) && PaidBy(owner, to, flags, mint, m, n, money, r, tile, tile')
  {
    NoWorth();
    assert coins[|coins|..] == [];
    hide Framed, Held, Coins, TileWorth, PaidBy, SumWorth, TakenAll;
  }

  /** The next stack. */
  method PayNext(g: Game, to: Item, money: nat, coins: seq<Entry>, i: nat, left: nat, flags: Flags, mint: Mint, ghost tile: seq<Pile>,
                 tile0: seq<Pile>, ghost r: Receipt, ghost m0: Shape, ghost inside: set<Item>)
    returns (left': nat, paid: bool, tile': seq<Pile>, ghost r': Receipt)
    requires g.Valid() && to in g.world && to.container && Monotone(g.owner, to) && mint.Valid() && i < |coins|
    requires Coins(m0, coins) && CoinsInside(m0, inside, coins) && Sorted(coins) && Closed(m0, to, inside)
    requires Paying(g.owner, to, flags, mint, m0, g.Now(), coins, i, money, left, false, tile, tile0, r, inside)
    modifies g`rank, g`world, g.world
    ensures g.Valid() && old(g.world) <= g.world && fresh(g.world - old(g.world)) && r'.coins == coins
    ensures Paying(g.owner, to, flags, mint, m0, g.Now(), coins, i + 1, money, left', paid, tile, tile', r', inside)
  {
    hide Good, Held, Coins, CoinsInside, Framed, Closed, TileWorth, Settles, TakenAll, Sorted, PaidBy;
    hide SumWorth, IsCoin, Unit, Ledger, Taken, Emplace;
    NextCoin(g.Now(), coins, i);
    CoinInside(m0, inside, coins, i);
    Seen(g.world, coins[i].item);
    TakenMore(m0, coins, i);
    ghost var gifts, mid;
    left', paid, tile', gifts, mid := PayOne(g, to, coins[i], coins[i + 1..], left, flags, mint, tile0, m0, inside);
    r' := Receipt(coins, i, gifts, mid);
    PaidNow(g.owner, to, flags, mint, m0, g.Now(), money, r', tile, tile', paid);
  }

  lemma {:induction false} PaidNow(owner: Owner, to: Item, flags: Flags, mint: Mint, m: Shape, n: Shape, money: nat, r: Receipt,
                                   tile: seq<Pile>, tile': seq<Pile>, paid: bool)
    requires paid ==> Sorted(r.coins) && Coins(m, r.coins) && r.last < |r.coins|
    requires paid ==>
               var before := SumWorth(r.coins[..r.last]);
               && before < money <= before + r.coins[r.last].worth
               && Settles(owner, to, flags, mint, TakenAll(m, r.coins[..r.last]), n, r.coins[r.last], money - before, r.gifts, r.mid,
                          tile, tile')
    ensures paid ==> PaidBy(owner, to, flags, mint, m, n, money, r, tile, tile')
  {
  }

  lemma {:induction false} NothingTaken(m: Shape, s: seq<Entry>)
    ensures TakenAll(m, s[..0]) == m && SumWorth(s[..0]) == 0
  {
  }

  /** One stack: all of it and go on, part of it and change, or all of it and done. */
  method PayOne(g: Game, to: Item, e: Entry, ghost s: seq<Entry>, left: nat, flags: Flags, mint: Mint, tile: seq<Pile>,
                ghost m0: Shape, ghost inside: set<Item>)
    returns (left': nat, paid: bool, tile': seq<Pile>, ghost gifts: seq<Gift>, ghost mid: Shape)
    requires g.Valid() && to in g.world && to.container && Monotone(g.owner, to) && mint.Valid()
    requires IsCoin(g.Now(), e) && e.item.parent != null && Unit(e.item.kind) > 0 && left > 0
    requires Coins(g.Now(), s) && forall d :: d in s ==> d.item != e.item
    requires Framed(m0, g.Now(), inside) && Closed(m0, to, inside) && e.item in m0 && e.item in inside
    modifies g`rank, g`world, g.world
    ensures g.Valid() && old(g.world) <= g.world && fresh(g.world - old(g.world)) && Framed(m0, g.Now(), inside)
    ensures paid <==> e.worth >= left
    ensures !paid ==> Coins(g.Now(), s) && left' == left - e.worth && tile' == tile
    ensures !paid ==> g.Now() == Taken(old(g.Now()), e.item, old(e.item.count))
    ensures paid ==> Settles(g.owner, to, flags, mint, old(g.Now()), g.Now(), e, left, gifts, mid, tile, tile')
    ensures Held(g.Now()) + TileWorth(tile') == Held(old(g.Now())) + TileWorth(tile) - if paid then left else e.worth
  {
    hide Good, Held, Coins, Framed, Closed, TileWorth, Taken;
    left', paid, tile', gifts, mid := left, false, tile, [], g.Now();
    if e.worth < left {
      TakeWhole(g, to, e, s, m0, inside);
      left' := left - e.worth;
    } else if e.worth > left {
      tile', gifts, mid := PayAndChange(g, to, e.item, e.worth, left, flags, mint, tile, m0, inside);
      paid := true;
    } else {
      TakeWhole(g, to, e, s, m0, inside);
      paid := true;
    }
  }

  ghost predicate CoinsInside(m: Shape, inside: set<Item>, s: seq<Entry>) {
    forall e :: e in s ==> e.item in m && e.item in inside
  }

  lemma {:induction false} CoinInside(m: Shape, inside: set<Item>, s: seq<Entry>, i: nat)
    requires CoinsInside(m, inside, s) && i < |s|
    ensures s[i].item in m && s[i].item in inside
  {
    assert s[i] in s;
  }

  lemma {:induction false} AllInside(m: Shape, rank: Ranks, to: Item, s: seq<Entry>)
    requires Ranked(m, rank) && AllCoins(m, rank, to, s)
    ensures CoinsInside(m, Inside(m, rank, to), s)
  {
  }

  lemma {:induction false} AllAre(m: Shape, rank: Ranks, to: Item, s: seq<Entry>)
    requires Linked(m) && Ranked(m, rank) && to in m && AllCoins(m, rank, to, s)
    ensures SumWorth(s) == TreeWorth(m, rank, to)
  {
  }

  /** Takes a whole stack of coins away. */
  method TakeWhole(g: Game, to: Item, e: Entry, ghost s: seq<Entry>, ghost m0: Shape, ghost inside: set<Item>)
    requires g.Valid() && to.container && IsCoin(g.Now(), e) && e.item.parent != null && Unit(e.item.kind) > 0
    requires Coins(g.Now(), s) && forall d :: d in s ==> d.item != e.item
    requires Framed(m0, g.Now(), inside) && Closed(m0, to, inside) && e.item in m0 && e.item in inside
    modifies g.world
    ensures g.Valid() && Coins(g.Now(), s) && Framed(m0, g.Now(), inside)
    ensures Held(g.Now()) == Held(old(g.Now())) - e.worth
    ensures g.Now() == Taken(old(g.Now()), e.item, old(e.item.count))
  {
    hide Good, Held, Coins, Framed, Closed, OnlyCoin, Taken;
    ghost var m := g.Now();
    assert e.worth == Unit(e.item.kind) * e.item.count;
    TakeCoins(g, e.item, -1, s);
    FrameTake(m0, m, g.Now(), to, inside, e.item);
  }

  /** Pays an amount with the coins in a container and all that lies in it: refused exactly if they
      are worth less, and then nothing changes; else the worth of all coins, with the change that
      landed on the tile, falls by exactly the amount.  The cheapest stacks go first; only the last of
      them may be changed. */
  method RemoveMoney(g: Game, to: Item, money: nat, flags: Flags, mint: Mint, tile: seq<Pile>)
    returns (ok: bool, tile': seq<Pile>, ghost r: Receipt)
    requires g.Valid() && to in g.world && to.container && Monotone(g.owner, to) && mint.Valid()
    modifies g`rank, g`world, g.world
    ensures g.Valid() && old(g.world) <= g.world && fresh(g.world - old(g.world))
    ensures ok <==> money <= TreeWorth(old(g.Now()), old(g.rank), to)
    ensures !ok ==> g.Now() == old(g.Now()) && tile' == tile
    ensures ok ==> Held(g.Now()) + TileWorth(tile') == Held(old(g.Now())) + TileWorth(tile) - money
    ensures Framed(old(g.Now()), g.Now(), Inside(old(g.Now()), old(g.rank), to))
    ensures ok && money == 0 ==> g.Now() == old(g.Now()) && tile' == tile
    ensures ok && money > 0 ==>
              && AllCoins(old(g.Now()), old(g.rank), to, r.coins)
              && PaidBy(g.owner, to, flags, mint, old(g.Now()), g.Now(), money, r, tile, tile')
  {
    r := Receipt([], 0, [], g.Now());
    tile' := tile;
    ghost var m0, inside := g.Now(), Inside(g.Now(), g.rank, to);
    hide Inside, Closed, Framed, TreeWorth, PaidBy, Sorted, Coins, CoinsUnder, Held, SumWorth, AllCoins;
    InsideClosed(m0, g.rank, to);
    FrameStart(m0, inside);
    if money == 0 {
      return true, tile', r;
    }
    var coins, moneyCount := Collect(g, to);
    if moneyCount < money {
      return false, tile', r;
    }
    AllInside(m0, g.rank, to, coins);
    AllAre(m0, g.rank, to, coins);
    hide Good, CoinsInside;
    tile', r := Pay(g, to, money, coins, flags, mint, tile, m0, inside);
    ok := true;
  }
}
