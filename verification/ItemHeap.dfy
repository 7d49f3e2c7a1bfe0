/**
  Items and containers as linked objects: parent pointers, item lists and the weight that
  every container caches for all that lies below it.
 */
module ItemHeap {

  /** What makes two items equal: id and attributes; the rest is looked up by id. */
  datatype Kind = Kind(id: nat, attributes: int, stackable: bool, rune: bool, weight: nat, pickupable: bool, moveable: bool)

  /** What is known of an item apart from the cached weight. */
  datatype Thing = Thing(kind: Kind, count: nat, parent: Item?, list: seq<Item>) {
    function OwnWeight(): nat {
      if kind.stackable then kind.weight * (if count > 1 then count else 1) else kind.weight
    }
  }

  type Shape = map<Item, Thing>
  type Ranks = map<Item, nat>
  type Weights = map<Item, int>

  // ---------- a forest ----------

  ghost predicate Distinct(l: seq<Item>) {
    forall i, j :: 0 <= i < j < |l| ==> l[i] != l[j]
  }

  /** Parents and lists agree: an item is in exactly the list of its parent, once. */
  ghost predicate Linked(m: Shape) {
    && (forall x {:trigger UpOk(m, x)} :: x in m ==> UpOk(m, x))
    && (forall c {:trigger ListOk(m, c)} :: c in m ==> ListOk(m, c))
  }

  ghost predicate UpOk(m: Shape, x: Item)
    requires x in m
  {
    var p := m[x].parent;
    p != null ==> p in m && x in m[p].list
  }

  ghost predicate ListOk(m: Shape, c: Item)
    requires c in m
  {
    && Distinct(m[c].list)
    && (m[c].list != [] ==> c.container)
    && (m[c].kind.stackable ==> !c.container)
    && forall x :: x in m[c].list ==> x in m && m[x].parent == c
  }

  /** Nothing lies inside itself: ranks grow from an item to what it lies in. */
  ghost predicate Ranked(m: Shape, rank: Ranks) {
    && m.Keys == rank.Keys
    && forall x {:trigger RankOk(m, rank, x)} :: x in m ==> RankOk(m, rank, x)
  }

  ghost predicate RankOk(m: Shape, rank: Ranks, x: Item)
    requires x in m && x in rank
  {
    var p := m[x].parent;
    p != null ==> p in m && p in rank && rank[x] < rank[p]
  }

  ghost function Higher(rank: Ranks, x: Item): set<Item>
    requires x in rank
  {
    set y | y in rank && rank[y] > rank[x]
  }

  /** `c` and all that it lies in. */
  ghost function Above(m: Shape, rank: Ranks, c: Item?): (r: set<Item>)
    requires Ranked(m, rank) && (c != null ==> c in m)
    ensures r <= m.Keys && (c != null ==> forall y :: y in r ==> rank[y] >= rank[c])
    decreases if c == null then {} else Higher(rank, c), c != null
  {
    if c == null then {}
    else
      var p := m[c].parent;
      assert RankOk(m, rank, c);
      assert p != null ==> p in Higher(rank, c) && p !in Higher(rank, p) && Higher(rank, p) <= Higher(rank, c);
      {c} + Above(m, rank, p)
  }

  // ---------- weights ----------

  function Gross(m: Shape, w: Weights, x: Item): int
    requires x in m && x in w
  {
    m[x].OwnWeight() + w[x]
  }

  function Load(m: Shape, w: Weights, l: seq<Item>): int
    requires forall x :: x in l ==> x in m && x in w
  {
    if l == [] then 0 else Gross(m, w, l[0]) + Load(m, w, l[1..])
  }

  /** Every cached weight is right, but that of `c`, which lacks `diff`. */
  ghost predicate Off(m: Shape, w: Weights, c: Item?, diff: int) {
    && Linked(m) && m.Keys == w.Keys
    && forall y {:trigger Lacks(m, w, y, c, diff)} :: y in m ==> Lacks(m, w, y, c, diff)
  }

  /** The cached weight of `y`, and what it lacks if it is `c`, is the weight of what lies in it. */
  ghost predicate Lacks(m: Shape, w: Weights, y: Item, c: Item?, diff: int)
    requires y in m && y in w
  {
    && (forall x :: x in m[y].list ==> x in m && x in w)
    && w[y] + (if y == c then diff else 0) == Load(m, w, m[y].list)
  }

  ghost predicate Weighted(m: Shape, w: Weights) { Off(m, w, null, 0) }

  lemma {:induction false} LoadSame(m: Shape, w: Weights, n: Shape, v: Weights, l: seq<Item>)
    requires forall x :: x in l ==> x in m && x in w && x in n && x in v && Gross(m, w, x) == Gross(n, v, x)
    ensures Load(m, w, l) == Load(n, v, l)
  {
    if l != [] { LoadSame(m, w, n, v, l[1..]); }
  }

  lemma {:induction false} LoadChange(m: Shape, w: Weights, n: Shape, v: Weights, l: seq<Item>, x: Item)
    requires Distinct(l) && x in l
    requires forall y :: y in l ==> y in m && y in w && y in n && y in v && (y != x ==> Gross(m, w, y) == Gross(n, v, y))
    ensures Load(n, v, l) == Load(m, w, l) + Gross(n, v, x) - Gross(m, w, x)
  {
    if l[0] == x {
      LoadSame(m, w, n, v, l[1..]);
    } else {
      LoadChange(m, w, n, v, l[1..], x);
    }
  }

  lemma {:induction false} LoadWithout(m: Shape, w: Weights, l: seq<Item>, k: nat)
    requires k < |l| && forall x :: x in l ==> x in m && x in w
    ensures Load(m, w, l[..k] + l[k + 1..]) == Load(m, w, l) - Gross(m, w, l[k])
  {
    if k == 0 {
      assert l[..k] + l[k + 1..] == l[1..];
    } else {
      LoadWithout(m, w, l[1..], k - 1);
      assert (l[..k] + l[k + 1..])[1..] == l[1..][..k - 1] + l[1..][k..];
    }
  }

  /** The weights after `diff` is pushed up from `c`. */
  ghost function Raise(w: Weights, above: set<Item>, diff: int): (r: Weights)
    ensures r.Keys == w.Keys
  {
    map x | x in w :: if x in above then w[x] + diff else w[x]
  }

  /** Pushing the difference up makes every cached weight right again. */
  lemma {:induction false} RaiseFixes(m: Shape, rank: Ranks, w: Weights, c: Item, diff: int)
    requires Ranked(m, rank) && c in m && Off(m, w, c, diff)
    ensures Weighted(m, Raise(w, Above(m, rank, c), diff))
    decreases Higher(rank, c)
  {
    hide Off, Linked, Load, Ranked;
    KeysOf(m, rank, w, c, diff);
    var w1 := w[c := w[c] + diff];
    var p := m[c].parent;
    OffStep(m, rank, w, c, diff);
    if p == null {
      assert Above(m, rank, c) == {c};
      assert Raise(w, {c}, diff) == w1;
    } else {
      RaiseFixes(m, rank, w1, p, diff);
      assert Raise(w, {c} + Above(m, rank, p), diff) == Raise(w1, Above(m, rank, p), diff);
    }
  }

  lemma {:induction false} KeysOf(m: Shape, rank: Ranks, w: Weights, c: Item, diff: int)
    requires Ranked(m, rank) && c in m && Off(m, w, c, diff)
    ensures m.Keys == w.Keys == rank.Keys
    ensures var p := m[c].parent;
            p != null ==> p in m && c !in Above(m, rank, p) && Higher(rank, p) < Higher(rank, c)
  {
    var p := m[c].parent;
    assert RankOk(m, rank, c);
    if p != null {
      assert p in Higher(rank, c) && p !in Higher(rank, p);
    }
  }

  lemma {:induction false} OffStep(m: Shape, rank: Ranks, w: Weights, c: Item, diff: int)
    requires Ranked(m, rank) && c in m && Off(m, w, c, diff)
    ensures Off(m, w[c := w[c] + diff], m[c].parent, if m[c].parent == null then 0 else diff)
  {
    hide Lacks, Load;
    var w1 := w[c := w[c] + diff];
    forall y | y in m ensures Lacks(m, w1, y, m[c].parent, if m[c].parent == null then 0 else diff) {
      OffMovesUp(m, rank, w, c, diff, y);
    }
  }

  lemma {:induction false} OffMovesUp(m: Shape, rank: Ranks, w: Weights, c: Item, diff: int, y: Item)
    requires Ranked(m, rank) && c in m && y in m && Off(m, w, c, diff)
    ensures Lacks(m, w[c := w[c] + diff], y, m[c].parent, if m[c].parent == null then 0 else diff)
  {
    var w1 := w[c := w[c] + diff];
    assert ListOk(m, y) && Lacks(m, w, y, c, diff);
    if y == m[c].parent {
      assert UpOk(m, c);
      LoadChange(m, w, m, w1, m[y].list, c);
    } else {
      assert c !in m[y].list;
      LoadSame(m, w, m, w1, m[y].list);
    }
  }

  // ---------- what lies below, summed by recursion ----------

  lemma {:induction false} BelowRanks(m: Shape, rank: Ranks, c: Item)
    requires Linked(m) && Ranked(m, rank) && c in m
    ensures forall x :: x in m[c].list ==> x in m && m[x].parent == c && rank[x] < rank[c]
  {
    assert ListOk(m, c);
    forall x | x in m[c].list ensures x in m && m[x].parent == c && rank[x] < rank[c] {
      assert RankOk(m, rank, x);
    }
  }

  /** The weight of an item with all that lies in it, at every depth. */
  ghost function DeepWeight(m: Shape, rank: Ranks, x: Item): int
    requires Linked(m) && Ranked(m, rank) && x in m
    decreases rank[x], 1, 0
  {
    BelowRanks(m, rank, x);
    m[x].OwnWeight() + DeepSum(m, rank, m[x].list, rank[x])
  }

  ghost function DeepSum(m: Shape, rank: Ranks, l: seq<Item>, bound: nat): int
    requires Linked(m) && Ranked(m, rank) && forall x :: x in l ==> x in m && rank[x] < bound
    decreases bound, 0, |l|
  {
    if l == [] then 0 else DeepWeight(m, rank, l[0]) + DeepSum(m, rank, l[1..], bound)
  }

  /** The cached weight of every container is the recursive sum of its contents. */
  lemma {:induction false} CachedIsDeep(m: Shape, rank: Ranks, w: Weights, x: Item)
    requires Ranked(m, rank) && Weighted(m, w) && x in m
    ensures Gross(m, w, x) == DeepWeight(m, rank, x)
    decreases rank[x], 1, 0
  {
    assert ListOk(m, x) && Lacks(m, w, x, null, 0);
    BelowRanks(m, rank, x);
    LoadIsDeep(m, rank, w, m[x].list, rank[x]);
  }

  lemma {:induction false} LoadIsDeep(m: Shape, rank: Ranks, w: Weights, l: seq<Item>, bound: nat)
    requires Ranked(m, rank) && Weighted(m, w) && forall x :: x in l ==> x in m && rank[x] < bound
    ensures Load(m, w, l) == DeepSum(m, rank, l, bound)
    decreases bound, 0, |l|
  {
    if l != [] {
      CachedIsDeep(m, rank, w, l[0]);
      LoadIsDeep(m, rank, w, l[1..], bound);
    }
  }

  // ---------- changing the forest ----------

  /** Stacks hold one to a hundred. */
  ghost predicate Stacked(m: Shape) {
    forall x {:trigger StackOk(m[x])} :: x in m ==> StackOk(m[x])
  }

  ghost predicate StackOk(t: Thing) { t.kind.stackable ==> 1 <= t.count <= 100 }

  lemma {:induction false} SameStacks(m: Shape, n: Shape)
    requires Stacked(m) && n.Keys == m.Keys && forall x :: x in n ==> n[x].kind == m[x].kind && n[x].count == m[x].count
    ensures Stacked(n)
  {
    forall x | x in n ensures StackOk(n[x]) {
      assert StackOk(m[x]);
    }
  }

  lemma {:induction false} AboveAgree(m: Shape, r: Ranks, n: Shape, s: Ranks, c: Item?)
    requires Ranked(m, r) && Ranked(n, s) && (c != null ==> c in m)
    requires forall y :: y in Above(m, r, c) ==> y in n && n[y].parent == m[y].parent
    ensures c != null ==> c in n
    ensures Above(m, r, c) == Above(n, s, c)
    decreases if c == null then {} else Higher(r, c), c != null
  {
    if c != null {
      var p := m[c].parent;
      assert c in Above(m, r, c);
      assert RankOk(m, r, c);
      assert p != null ==> p in Higher(r, c) && p !in Higher(r, p) && Higher(r, p) <= Higher(r, c);
      AboveAgree(m, r, n, s, p);
    }
  }

  /** `x` put in front of what lies in `c`. */
  ghost function Attach(m: Shape, c: Item, x: Item): (r: Shape)
    requires c in m && x in m
    ensures r.Keys == m.Keys
  {
    m[x := m[x].(parent := c)][c := m[c].(list := [x] + m[c].list)]
  }

  /** Ranks with those above `c` moved beyond `x`. */
  ghost function Lift(rank: Ranks, above: set<Item>, n: nat): (r: Ranks)
    ensures r.Keys == rank.Keys
  {
    map y | y in rank :: if y in above then rank[y] + n else rank[y]
  }

  lemma {:induction false} AttachLinked(m: Shape, c: Item, x: Item)
    requires Linked(m) && c in m && x in m && x != c && m[x].parent == null && c.container
    ensures Linked(Attach(m, c, x))
  {
    var n := Attach(m, c, x);
    assert ListOk(m, c);
    forall y | y in n ensures ListOk(n, y) {
      assert ListOk(m, y);
    }
    forall y | y in n ensures UpOk(n, y) {
      assert UpOk(m, y);
      assert n[c].list[0] == x;
    }
  }

  /** What is put somewhere that does not lie in it keeps the containment a forest. */
  lemma {:induction false} AttachRanked(m: Shape, rank: Ranks, c: Item, x: Item)
    requires Ranked(m, rank) && c in m && x in m && x != c && m[x].parent == null
    requires x !in Above(m, rank, c)
    ensures Ranked(Attach(m, c, x), Lift(rank, Above(m, rank, c), rank[x] + 1))
  {
    var n := Attach(m, c, x);
    var above := Above(m, rank, c);
    forall y | y in n ensures RankOk(n, Lift(rank, above, rank[x] + 1), y) {
      assert RankOk(m, rank, y);
      if y != x { AboveClosed(m, rank, c, y); }
    }
  }

  lemma {:induction false} AboveClosed(m: Shape, rank: Ranks, c: Item?, y: Item)
    requires Ranked(m, rank) && (c != null ==> c in m)
    ensures y in Above(m, rank, c) ==> y in m && (m[y].parent != null ==> m[y].parent in Above(m, rank, c))
    decreases if c == null then {} else Higher(rank, c), c != null
  {
    if c != null {
      var p := m[c].parent;
      assert RankOk(m, rank, c);
      assert p != null ==> p in Higher(rank, c) && p !in Higher(rank, p) && Higher(rank, p) <= Higher(rank, c);
      AboveClosed(m, rank, p, y);
    }
  }

  lemma {:induction false} AttachWeight(m: Shape, w: Weights, c: Item, x: Item)
    requires Weighted(m, w) && c in m && x in m && x != c && m[x].parent == null && c.container
    ensures Off(Attach(m, c, x), w, c, Gross(m, w, x))
  {
    var n := Attach(m, c, x);
    AttachLinked(m, c, x);
    forall y | y in n ensures Lacks(n, w, y, c, Gross(m, w, x)) {
      assert Lacks(m, w, y, null, 0);
      LoadSame(m, w, n, w, m[y].list);
      if y == c { assert n[c].list[1..] == m[c].list; }
    }
  }

  /** Item number `k` of `c` taken out. */
  ghost function Detach(m: Shape, c: Item, k: nat): (r: Shape)
    requires c in m && k < |m[c].list| && m[c].list[k] in m
    ensures r.Keys == m.Keys
  {
    var x := m[c].list[k];
    m[x := m[x].(parent := null)][c := m[c].(list := m[c].list[..k] + m[c].list[k + 1..])]
  }

  lemma {:induction false} DetachLinked(m: Shape, c: Item, k: nat)
    requires Linked(m) && c in m && k < |m[c].list| && m[c].list[k] in m && m[c].list[k] != c
    ensures Linked(Detach(m, c, k))
  {
    assert ListOk(m, c);
    var n, x := Detach(m, c, k), m[c].list[k];
    assert forall y :: y in n[c].list <==> y in m[c].list && y != x;
    forall y | y in n ensures ListOk(n, y) && UpOk(n, y) {
      assert ListOk(m, y) && UpOk(m, y);
    }
  }

  lemma {:induction false} DetachWeight(m: Shape, w: Weights, c: Item, k: nat)
    requires Weighted(m, w) && c in m && k < |m[c].list| && m[c].list[k] in m && m[c].list[k] != c
    ensures Off(Detach(m, c, k), w, c, -Gross(m, w, m[c].list[k]))
  {
    var n, x := Detach(m, c, k), m[c].list[k];
    DetachLinked(m, c, k);
    hide Lacks, Linked;
    forall y | y in n ensures Lacks(n, w, y, c, -Gross(m, w, x)) {
      DetachLacks(m, w, c, k, y);
    }
  }

  lemma {:induction false} DetachLacks(m: Shape, w: Weights, c: Item, k: nat, y: Item)
    requires Weighted(m, w) && c in m && k < |m[c].list| && m[c].list[k] in m && m[c].list[k] != c && y in m
    requires Linked(Detach(m, c, k))
    ensures Lacks(Detach(m, c, k), w, y, c, -Gross(m, w, m[c].list[k]))
  {
    var n := Detach(m, c, k);
    assert Lacks(m, w, y, null, 0) && ListOk(n, y);
    hide Linked, Off;
    LoadSame(m, w, n, w, n[y].list);
    if y == c { LoadWithout(m, w, m[c].list, k); }
  }

  /** `x` turned into so many of another kind. */
  ghost function Retype(m: Shape, x: Item, kind: Kind, count: nat): (r: Shape)
    requires x in m
    ensures r.Keys == m.Keys
  {
    m[x := m[x].(kind := kind, count := count)]
  }

  lemma {:induction false} RetypeLinked(m: Shape, x: Item, kind: Kind, count: nat)
    requires Linked(m) && x in m && (kind.stackable ==> !x.container)
    ensures Linked(Retype(m, x, kind, count))
  {
    var n := Retype(m, x, kind, count);
    forall y | y in n ensures ListOk(n, y) && UpOk(n, y) {
      assert ListOk(m, y) && UpOk(m, y);
    }
  }

  lemma {:induction false} RetypeWeight(m: Shape, w: Weights, x: Item, kind: Kind, count: nat)
    requires Weighted(m, w) && x in m && (kind.stackable ==> !x.container)
    ensures var n := Retype(m, x, kind, count);
            Off(n, w, m[x].parent, if m[x].parent == null then 0 else n[x].OwnWeight() - m[x].OwnWeight())
  {
    var n := Retype(m, x, kind, count);
    var diff := n[x].OwnWeight() - m[x].OwnWeight();
    RetypeLinked(m, x, kind, count);
    forall y | y in n ensures Lacks(n, w, y, m[x].parent, if m[x].parent == null then 0 else diff) {
      assert Lacks(m, w, y, null, 0) && ListOk(m, y) && UpOk(m, x);
      if y == m[x].parent { LoadChange(m, w, n, w, m[y].list, x); }
      else { LoadSame(m, w, n, w, m[y].list); }
    }
  }

  /** Containment is a forest, cached weights are right and stacks within bounds. */
  ghost predicate Good(m: Shape, rank: Ranks, w: Weights) {
    m.Keys == w.Keys && Linked(m) && Ranked(m, rank) && Weighted(m, w) && Stacked(m)
  }

  ghost function AttachRank(m: Shape, rank: Ranks, c: Item, x: Item): Ranks
    requires Ranked(m, rank) && c in m && x in m
  {
    Lift(rank, Above(m, rank, c), rank[x] + 1)
  }

  lemma {:induction false} AttachGood(m: Shape, rank: Ranks, w: Weights, c: Item, x: Item)
    requires Good(m, rank, w) && c in m && x in m && m[x].parent == null && c.container && x !in Above(m, rank, c)
    ensures c != x
    ensures var n, r := Attach(m, c, x), AttachRank(m, rank, c, x);
            && Ranked(n, r) && Above(n, r, c) == Above(m, rank, c)
            && Good(n, r, Raise(w, Above(n, r, c), Gross(m, w, x)))
  {
    var n, r := Attach(m, c, x), AttachRank(m, rank, c, x);
    AttachAbove(m, rank, c, x);
    SameStacks(m, n);
    hide Off, Stacked, Linked, Above, Ranked, Gross, Raise, AttachRank;
    AttachLinked(m, c, x);
    AttachWeight(m, w, c, x);
    RaiseFixes(n, r, w, c, Gross(m, w, x));
  }

  lemma {:induction false} AttachAbove(m: Shape, rank: Ranks, c: Item, x: Item)
    requires Ranked(m, rank) && c in m && x in m && m[x].parent == null && x !in Above(m, rank, c)
    ensures c != x && Ranked(Attach(m, c, x), AttachRank(m, rank, c, x))
    ensures Above(Attach(m, c, x), AttachRank(m, rank, c, x), c) == Above(m, rank, c)
  {
    assert c in Above(m, rank, c);
    AttachRanked(m, rank, c, x);
    hide Lift;
    AboveAgree(m, rank, Attach(m, c, x), AttachRank(m, rank, c, x), c);
  }

  lemma {:induction false} DetachGood(m: Shape, rank: Ranks, w: Weights, c: Item, k: nat)
    requires Good(m, rank, w) && c in m && k < |m[c].list|
    ensures m[c].list[k] in m && m[c].list[k] != c && m[m[c].list[k]].parent == c
    ensures Good(Detach(m, c, k), rank, Raise(w, Above(m, rank, c), -Gross(m, w, m[c].list[k])))
  {
    DetachAbove(m, rank, c, k);
    DetachLinked(m, c, k);
    SameStacks(m, Detach(m, c, k));
    hide *;
    var x := m[c].list[k];
    DetachWeight(m, w, c, k);
    RaiseFixes(Detach(m, c, k), rank, w, c, -Gross(m, w, x));
  }

  lemma {:induction false} DetachAbove(m: Shape, rank: Ranks, c: Item, k: nat)
    requires Linked(m) && Ranked(m, rank) && c in m && k < |m[c].list|
    ensures m[c].list[k] in m && m[c].list[k] != c && m[m[c].list[k]].parent == c
    ensures Ranked(Detach(m, c, k), rank)
    ensures Above(m, rank, c) == Above(Detach(m, c, k), rank, c)
  {
    BelowRanks(m, rank, c);
    assert m[c].list[k] in m[c].list;
    var n := Detach(m, c, k);
    forall y | y in n ensures RankOk(n, rank, y) {
      assert RankOk(m, rank, y);
    }
    AboveAgree(m, rank, Detach(m, c, k), rank, c);
  }

  lemma {:induction false} RetypeGood(m: Shape, rank: Ranks, w: Weights, x: Item, kind: Kind, count: nat)
    requires Good(m, rank, w) && x in m && m[x].parent != null
    requires kind.stackable ==> !x.container && 1 <= count <= 100
    ensures var n, p := Retype(m, x, kind, count), m[x].parent;
            && p in m && Ranked(n, rank)
            && Good(n, rank, Raise(w, Above(n, rank, p), n[x].OwnWeight() - m[x].OwnWeight()))
  {
    var n, p := Retype(m, x, kind, count), m[x].parent;
    RetypeLinked(m, x, kind, count);
    assert UpOk(m, x);
    forall y | y in n ensures RankOk(n, rank, y) {
      assert RankOk(m, rank, y);
    }
    forall y | y in n ensures StackOk(n[y]) {
      assert StackOk(m[y]);
    }
    hide Off, Linked, Above, Ranked, Gross, Raise, Stacked, Retype;
    RetypeWeight(m, w, x, kind, count);
    RaiseFixes(n, rank, w, p, n[x].OwnWeight() - m[x].OwnWeight());
  }

  // ---------- replacing an item ----------

  /** `x` put in the place of item number `k` of `c`, which still points to `c`. */
  ghost function HalfSwap(m: Shape, c: Item, k: nat, x: Item): (r: Shape)
    requires c in m && x in m && k < |m[c].list|
    ensures r.Keys == m.Keys
  {
    m[c := m[c].(list := m[c].list[k := x])][x := m[x].(parent := c)]
  }

  ghost function Swap(m: Shape, c: Item, k: nat, x: Item): (r: Shape)
    requires c in m && x in m && k < |m[c].list| && m[c].list[k] in m
    ensures r.Keys == m.Keys
  {
    var n := HalfSwap(m, c, k, x);
    n[m[c].list[k] := n[m[c].list[k]].(parent := null)]
  }

  lemma {:induction false} SwapMeans(m: Shape, c: Item, k: nat, x: Item)
    requires c in m && x in m && k < |m[c].list| && m[c].list[k] in m
    ensures var h := HalfSwap(m, c, k, x);
            Swap(m, c, k, x) == h[m[c].list[k] := h[m[c].list[k]].(parent := null)]
  {
  }

  lemma {:induction false} LoadSet(m: Shape, w: Weights, l: seq<Item>, k: nat, x: Item)
    requires k < |l| && (forall y :: y in l ==> y in m && y in w) && x in m && x in w
    ensures forall y :: y in l[k := x] ==> y in m && y in w
    ensures Load(m, w, l[k := x]) == Load(m, w, l) - Gross(m, w, l[k]) + Gross(m, w, x)
  {
    if k == 0 {
      assert l[k := x][1..] == l[1..];
    } else {
      LoadSet(m, w, l[1..], k - 1, x);
      assert l[k := x][1..] == l[1..][k - 1 := x];
    }
  }

  lemma {:induction false} SwapLinked(m: Shape, c: Item, k: nat, x: Item)
    requires Linked(m) && c in m && x in m && x != c && m[x].parent == null && k < |m[c].list|
    requires m[c].list[k] in m && m[c].list[k] != c
    ensures Linked(Swap(m, c, k, x))
  {
    assert ListOk(m, c);
    var n, gone := Swap(m, c, k, x), m[c].list[k];
    assert n[c].list[k] == x && gone != x;
    assert forall y :: y in m[c].list && y != gone ==> y in n[c].list by {
      forall y | y in m[c].list && y != gone ensures y in n[c].list {
        var i :| 0 <= i < |m[c].list| && m[c].list[i] == y;
        assert n[c].list[i] == y;
      }
    }
    forall y | y in n ensures ListOk(n, y) && UpOk(n, y) {
      assert ListOk(m, y) && UpOk(m, y);
    }
  }

  lemma {:induction false} SwapLacks(m: Shape, w: Weights, c: Item, k: nat, x: Item, y: Item)
    requires Weighted(m, w) && c in m && x in m && x != c && m[x].parent == null && k < |m[c].list|
    requires m[c].list[k] in m && m[c].list[k] != c && y in m
    ensures Lacks(Swap(m, c, k, x), w, y, c, Gross(m, w, x) - Gross(m, w, m[c].list[k]))
  {
    var n := Swap(m, c, k, x);
    assert Lacks(m, w, y, null, 0);
    hide Linked, Off;
    if y == c { LoadSet(m, w, m[c].list, k, x); }
    assert forall z :: z in n[y].list ==> z in m && z in w;
    LoadSame(m, w, n, w, n[y].list);
  }

  lemma {:induction false} SwapRanked(m: Shape, rank: Ranks, c: Item, k: nat, x: Item)
    requires Linked(m) && Ranked(m, rank) && c in m && x in m && m[x].parent == null && k < |m[c].list|
    requires x !in Above(m, rank, c)
    ensures x != c && m[c].list[k] in m && m[c].list[k] != c && m[c].list[k] != x
    ensures var r := AttachRank(m, rank, c, x);
            && Ranked(HalfSwap(m, c, k, x), r) && Ranked(Swap(m, c, k, x), r)
            && Above(HalfSwap(m, c, k, x), r, c) == Above(Swap(m, c, k, x), r, c)
  {
    BelowRanks(m, rank, c);
    assert m[c].list[k] in m[c].list;
    AttachAbove(m, rank, c, x);
    var r, t, h, n := AttachRank(m, rank, c, x), Attach(m, c, x), HalfSwap(m, c, k, x), Swap(m, c, k, x);
    forall y | y in m ensures RankOk(h, r, y) && RankOk(n, r, y) {
      assert RankOk(t, r, y);
    }
    hide AttachRank;
    assert RankOk(h, r, m[c].list[k]);
    AboveAgree(h, r, n, r, c);
  }

  lemma {:induction false} SwapGood(m: Shape, rank: Ranks, w: Weights, c: Item, k: nat, x: Item)
    requires Good(m, rank, w) && c in m && x in m && m[x].parent == null && k < |m[c].list|
    requires x !in Above(m, rank, c)
    ensures x != c && m[c].list[k] in m && m[c].list[k] != c && m[c].list[k] != x
    ensures var h, r, diff := HalfSwap(m, c, k, x), AttachRank(m, rank, c, x), Gross(m, w, x) - Gross(m, w, m[c].list[k]);
            && Ranked(h, r)
            && Good(Swap(m, c, k, x), r, Raise(w, Above(h, r, c), diff))
  {
    SwapRanked(m, rank, c, k, x);
    SwapWeight(m, w, c, k, x);
    SameStacks(m, Swap(m, c, k, x));
    hide Off, Linked, Ranked, Above, Gross, Raise, AttachRank, Stacked, Swap, HalfSwap;
    RaiseFixes(Swap(m, c, k, x), AttachRank(m, rank, c, x), w, c, Gross(m, w, x) - Gross(m, w, m[c].list[k]));
  }

  lemma {:induction false} SwapWeight(m: Shape, w: Weights, c: Item, k: nat, x: Item)
    requires Weighted(m, w) && c in m && x in m && x != c && m[x].parent == null && k < |m[c].list|
    requires m[c].list[k] in m && m[c].list[k] != c
    ensures Linked(Swap(m, c, k, x))
    ensures Off(Swap(m, c, k, x), w, c, Gross(m, w, x) - Gross(m, w, m[c].list[k]))
  {
    SwapLinked(m, c, k, x);
    hide Lacks, Linked;
    forall y | y in m ensures Lacks(Swap(m, c, k, x), w, y, c, Gross(m, w, x) - Gross(m, w, m[c].list[k])) {
      SwapLacks(m, w, c, k, x, y);
    }
  }

  class Item {
    const container: bool
    const capacity: nat
    const unlocked: bool
    var kind: Kind
    var count: nat
    var parent: Item?
    var itemlist: seq<Item>
    var totalWeight: int

    constructor (kind: Kind, count: nat, container: bool, capacity: nat, unlocked: bool)
      ensures Look() == Thing(kind, count, null, []) && totalWeight == 0
      ensures this.container == container && this.capacity == capacity && this.unlocked == unlocked
    {
      this.kind, this.count := kind, count;
      this.container, this.capacity, this.unlocked := container, capacity, unlocked;
      parent, itemlist, totalWeight := null, [], 0;
    }

    function Look(): Thing
      reads this
    {
      Thing(kind, count, parent, itemlist)
    }

    function GetWeight(): int
      reads this
    {
      Look().OwnWeight() + totalWeight
    }

    method SetParent(p: Item?, ghost world: set<Item>)
      requires this in world
      modifies this`parent
      ensures parent == p && WeightsOf(world) == old(WeightsOf(world))
      ensures ShapeOf(world) == old(ShapeOf(world))[this := old(ShapeOf(world))[this].(parent := p)]
    {
      parent := p;
    }

    method SetList(l: seq<Item>, ghost world: set<Item>)
      requires this in world
      modifies this`itemlist
      ensures itemlist == l && WeightsOf(world) == old(WeightsOf(world))
      ensures ShapeOf(world) == old(ShapeOf(world))[this := old(ShapeOf(world))[this].(list := l)]
    {
      itemlist := l;
    }

    /** Pushes a change of weight up to everything that this container lies in. */
    method UpdateItemWeight(diff: int, ghost world: set<Item>, ghost rank: Ranks)
      requires this in world && Ranked(ShapeOf(world), rank)
      modifies world`totalWeight
      ensures ShapeOf(world) == old(ShapeOf(world))
      ensures WeightsOf(world) == Raise(old(WeightsOf(world)), Above(ShapeOf(world), rank, this), diff)
      decreases Higher(rank, this)
    {
      hide Above, Higher, Ranked, Raise;
      ghost var m, w := ShapeOf(world), WeightsOf(world);
      AboveStep(m, rank, w, this, diff);
      totalWeight := totalWeight + diff;
      assert ShapeOf(world) == m;
      assert WeightsOf(world) == w[this := w[this] + diff];
      if parent != null {
        parent.UpdateItemWeight(diff, world, rank);
      }
    }

    /** The place of `x` in this container, or -1. */
    method GetThingIndex(x: Item) returns (index: int)
      ensures -1 <= index < |itemlist|
      ensures index >= 0 ==> itemlist[index] == x
      ensures index == -1 <==> x !in itemlist
    {
      index := 0;
      while index < |itemlist|
        invariant 0 <= index <= |itemlist| && x !in itemlist[..index]
      {
        if itemlist[index] == x {
          return;
        }
        index := index + 1;
      }
      assert itemlist[..index] == itemlist;
      index := -1;
    }

    /** Puts a free item in front; a place beyond the capacity drops it silently. */
    method AddThing(index: int, x: Item, ghost world: set<Item>, ghost rank: Ranks) returns (ghost rank': Ranks)
      requires this in world && container && x in world && x.parent == null
      requires Good(ShapeOf(world), rank, WeightsOf(world)) && x !in Above(ShapeOf(world), rank, this)
      modifies world
      ensures index >= capacity ==> ShapeOf(world) == old(ShapeOf(world))
      ensures index < capacity ==> ShapeOf(world) == Attach(old(ShapeOf(world)), this, x)
      ensures Good(ShapeOf(world), rank', WeightsOf(world))
    {
      if index >= capacity {
        rank' := rank;
        return;
      }
      rank' := InternalAddThing(x, world, rank);
    }

    method InternalAddThing(x: Item, ghost world: set<Item>, ghost rank: Ranks) returns (ghost rank': Ranks)
      requires this in world && container && x in world && x.parent == null
      requires Good(ShapeOf(world), rank, WeightsOf(world)) && x !in Above(ShapeOf(world), rank, this)
      modifies world
      ensures ShapeOf(world) == Attach(old(ShapeOf(world)), this, x)
      ensures Good(ShapeOf(world), rank', WeightsOf(world))
    {
      hide Good, Above, Ranked, Raise, AttachRank, Higher, ShapeOf, WeightsOf, Attach;
      ghost var m, w := ShapeOf(world), WeightsOf(world);
      GoodParts(m, rank, w);
      Seen(world, x);
      AttachGood(m, rank, w, this, x);
      rank' := AttachRank(m, rank, this, x);
      Link(x, world);
      UpdateItemWeight(x.GetWeight(), world, rank');
    }

    method Link(x: Item, ghost world: set<Item>)
      requires this in world && x in world && x != this
      modifies this`itemlist, x`parent
      ensures ShapeOf(world) == Attach(old(ShapeOf(world)), this, x)
      ensures WeightsOf(world) == old(WeightsOf(world)) && x.GetWeight() == old(x.GetWeight())
    {
      hide ShapeOf, WeightsOf;
      Seen(world, x);
      Seen(world, this);
      x.SetParent(this, world);
      SetList([x] + itemlist, world);
    }

    /** Changes the item and pushes up the change of weight. */
    method Change(x: Item, kind: Kind, count: nat, ghost world: set<Item>, ghost rank: Ranks)
      requires this in world && x in world && Good(ShapeOf(world), rank, WeightsOf(world)) && x.parent == this
      requires kind.stackable ==> !x.container && 1 <= count <= 100
      modifies world
      ensures Good(ShapeOf(world), rank, WeightsOf(world))
      ensures ShapeOf(world) == Retype(old(ShapeOf(world)), x, kind, count)
    {
      hide Good, Above, Ranked, Raise, Higher;
      ghost var m, w := ShapeOf(world), WeightsOf(world);
      RetypeGood(m, rank, w, x, kind, count);
      var oldWeight := x.GetWeight();
      x.kind := kind;
      x.count := count;
      assert ShapeOf(world) == Retype(m, x, kind, count);
      assert WeightsOf(world) == w;
      UpdateItemWeight(x.GetWeight() - oldWeight, world, rank);
    }

    /** Takes the item at this place out, with all that lies in it. */
    method TakeOut(index: nat, ghost world: set<Item>, ghost rank: Ranks)
      requires this in world && index < |itemlist| && Good(ShapeOf(world), rank, WeightsOf(world))
      modifies world
      ensures Good(ShapeOf(world), rank, WeightsOf(world))
      ensures Detached(old(ShapeOf(world)), ShapeOf(world), this, index)
    {
      hide Good, Above, Ranked, Raise, Higher, ShapeOf, WeightsOf;
      ghost var m, w := ShapeOf(world), WeightsOf(world);
      GoodParts(m, rank, w);
      Seen(world, this);
      DetachGood(m, rank, w, this, index);
      var x := itemlist[index];
      Seen(world, x);
      UpdateItemWeight(-x.GetWeight(), world, rank);
      Unlink(x, index, world);
    }

    method Unlink(x: Item, index: nat, ghost world: set<Item>)
      requires this in world && x in world && x != this && index < |itemlist| && itemlist[index] == x
      modifies this`itemlist, x`parent
      ensures Detached(old(ShapeOf(world)), ShapeOf(world), this, index) && WeightsOf(world) == old(WeightsOf(world))
    {
      hide ShapeOf, WeightsOf;
      Seen(world, this);
      Seen(world, x);
      x.SetParent(null, world);
      SetList(itemlist[..index] + itemlist[index + 1..], world);
    }

    /** Changes an item that lies here into so many of another kind. */
    method UpdateThing(x: Item, kind: Kind, count: nat, ghost world: set<Item>, ghost rank: Ranks)
      requires this in world && x in world && Good(ShapeOf(world), rank, WeightsOf(world))
      requires kind.stackable ==> !x.container && 1 <= count <= 100
      modifies world
      ensures Good(ShapeOf(world), rank, WeightsOf(world))
      ensures ShapeOf(world) ==
              if x in old(itemlist) then Retype(old(ShapeOf(world)), x, kind, count) else old(ShapeOf(world))
    {
      hide Good;
      var index := GetThingIndex(x);
      if index == -1 {
        return;
      }
      ChildOf(ShapeOf(world), rank, WeightsOf(world), this, x);
      Change(x, kind, count, world, rank);
    }

    /** Takes some of a stack or the whole item out of this container. */
    method RemoveThing(x: Item, n: nat, ghost world: set<Item>, ghost rank: Ranks)
      requires this in world && x in world && Good(ShapeOf(world), rank, WeightsOf(world))
      requires x.kind.stackable ==> 0 < n <= x.count
      modifies world
      ensures Good(ShapeOf(world), rank, WeightsOf(world))
      ensures Removed(old(ShapeOf(world)), ShapeOf(world), this, x, n)
    {
      hide Good;
      var index := GetThingIndex(x);
      if index == -1 {
        return;
      }
      ChildOf(ShapeOf(world), rank, WeightsOf(world), this, x);
      if x.kind.stackable && n != x.count {
        Change(x, x.kind, x.count - n, world, rank);
      } else {
        ghost var m, w := ShapeOf(world), WeightsOf(world);
        TakeOut(index, world, rank);
        DetachedIsRemoved(m, ShapeOf(world), rank, w, this, index, n);
      }
    }

    /** Puts a free item in the place of another, which becomes free. */
    method ReplaceThing(index: nat, x: Item, ghost world: set<Item>, ghost rank: Ranks) returns (ghost rank': Ranks)
      requires this in world && x in world && x.parent == null
      requires Good(ShapeOf(world), rank, WeightsOf(world)) && x !in Above(ShapeOf(world), rank, this)
      modifies world
      ensures index >= |old(itemlist)| ==> ShapeOf(world) == old(ShapeOf(world))
      ensures index < |old(itemlist)| ==>
                old(itemlist)[index] in world && ShapeOf(world) == Swap(old(ShapeOf(world)), this, index, x)
      ensures Good(ShapeOf(world), rank', WeightsOf(world))
    {
      rank' := rank;
      if index < |itemlist| {
        rank' := ReplaceAt(index, x, world, rank);
      }
    }

    /** Puts `x` in the place of another and pushes up the difference in weight. */
    method PutInPlace(index: nat, x: Item, replaced: Item, ghost world: set<Item>, ghost rank: Ranks)
      requires this in world && x in world && x != this && index < |itemlist|
      requires replaced in world && replaced != x && replaced != this
      requires Ranked(HalfSwap(ShapeOf(world), this, index, x), rank)
      modifies world
      ensures ShapeOf(world) == HalfSwap(old(ShapeOf(world)), this, index, x)
      ensures WeightsOf(world) ==
              Raise(old(WeightsOf(world)), Above(ShapeOf(world), rank, this), old(x.GetWeight() - replaced.GetWeight()))
    {
      hide ShapeOf, WeightsOf, Ranked, Raise, Above, Higher;
      Seen(world, this);
      Seen(world, x);
      SetList(itemlist[index := x], world);
      x.SetParent(this, world);
      UpdateItemWeight(x.GetWeight() - replaced.GetWeight(), world, rank);
    }

    method ReplaceAt(index: nat, x: Item, ghost world: set<Item>, ghost rank: Ranks) returns (ghost rank': Ranks)
      requires this in world && x in world && x.parent == null && index < |itemlist|
      requires Good(ShapeOf(world), rank, WeightsOf(world)) && x !in Above(ShapeOf(world), rank, this)
      modifies world
      ensures old(itemlist)[index] in world && ShapeOf(world) == Swap(old(ShapeOf(world)), this, index, x)
      ensures Good(ShapeOf(world), rank', WeightsOf(world))
    {
      hide Good, Above, Ranked, Raise, Higher, AttachRank, HalfSwap, Swap, ShapeOf, WeightsOf;
      ghost var m, w := ShapeOf(world), WeightsOf(world);
      GoodParts(m, rank, w);
      var replaced := itemlist[index];
      Seen(world, this);
      Seen(world, x);
      SwapGood(m, rank, w, this, index, x);
      Seen(world, replaced);
      SwapMeans(m, this, index, x);
      rank' := AttachRank(m, rank, this, x);
      PutInPlace(index, x, replaced, world, rank');
      replaced.SetParent(null, world);
    }
  }

  /** `n` is `m` with `count` of `x` taken out of `c`: nothing if it is not there, part of a
      stack, or all of it. */
  ghost predicate Removed(m: Shape, n: Shape, c: Item, x: Item, count: nat)
    requires c in m && x in m && (m[x].kind.stackable ==> count <= m[x].count)
  {
    n == TakenOut(m, c, x, count)
  }

  ghost function TakenOut(m: Shape, c: Item, x: Item, count: nat): Shape
    requires c in m && x in m && (m[x].kind.stackable ==> count <= m[x].count)
  {
    if x !in m[c].list then m
    else if m[x].kind.stackable && count != m[x].count then Retype(m, x, m[x].kind, m[x].count - count)
    else m[x := m[x].(parent := null)][c := m[c].(list := Without(m[c].list, x))]
  }

  /** The list without the first `x`, in the same order. */
  ghost function Without(l: seq<Item>, x: Item): seq<Item> {
    if l == [] then [] else if l[0] == x then l[1..] else [l[0]] + Without(l[1..], x)
  }

  lemma {:induction false} WithoutAt(l: seq<Item>, k: nat)
    requires Distinct(l) && k < |l|
    ensures Without(l, l[k]) == l[..k] + l[k + 1..]
  {
    if k > 0 {
      WithoutAt(l[1..], k - 1);
      assert l[0] != l[k] && l[1..][..k - 1] == l[1..k];
      assert [l[0]] + (l[1..k] + l[k + 1..]) == l[..k] + l[k + 1..];
    }
  }

  lemma {:induction false} DetachedIsRemoved(m: Shape, n: Shape, rank: Ranks, w: Weights, c: Item, k: nat, count: nat)
    requires Good(m, rank, w) && Detached(m, n, c, k)
    requires var x := m[c].list[k]; m[x].kind.stackable ==> count == m[x].count
    ensures Removed(m, n, c, m[c].list[k], count)
  {
    assert ListOk(m, c);
    WithoutAt(m[c].list, k);
  }

  ghost predicate Detached(m: Shape, n: Shape, c: Item, k: nat) {
    c in m && k < |m[c].list| && m[c].list[k] in m && n == Detach(m, c, k)
  }

  lemma {:induction false} GoodParts(m: Shape, rank: Ranks, w: Weights)
    requires Good(m, rank, w)
    ensures Linked(m) && Ranked(m, rank) && m.Keys == w.Keys
  {
  }

  lemma {:induction false} ChildOf(m: Shape, rank: Ranks, w: Weights, c: Item, x: Item)
    requires Good(m, rank, w) && c in m && x in m[c].list
    ensures x in m && m[x].parent == c && (m[x].kind.stackable ==> !x.container && m[x].count <= 100)
  {
    assert ListOk(m, c) && ListOk(m, x) && StackOk(m[x]);
  }

  ghost function ShapeOf(world: set<Item>): Shape
    reads world
  {
    map x | x in world :: x.Look()
  }

  ghost function WeightsOf(world: set<Item>): Weights
    reads world
  {
    map x | x in world :: x.totalWeight
  }

  lemma {:induction false} Seen(world: set<Item>, x: Item)
    requires x in world
    ensures ShapeOf(world).Keys == WeightsOf(world).Keys == world
    ensures ShapeOf(world)[x] == x.Look() && WeightsOf(world)[x] == x.totalWeight
  {
  }

  /** Pushing up from `c` is adding at `c`, then pushing up from its parent. */
  lemma {:induction false} AboveStep(m: Shape, rank: Ranks, w: Weights, c: Item, diff: int)
    requires Ranked(m, rank) && c in m && m.Keys == w.Keys
    ensures var p := m[c].parent;
            if p == null then
              Raise(w, Above(m, rank, c), diff) == w[c := w[c] + diff]
            else
              && p in m && Higher(rank, p) < Higher(rank, c)
              && Raise(w, Above(m, rank, c), diff) == Raise(w[c := w[c] + diff], Above(m, rank, p), diff)
  {
    var p := m[c].parent;
    assert RankOk(m, rank, c);
    if p == null {
      assert Above(m, rank, c) == {c};
    } else {
      assert p in Higher(rank, c) && p !in Higher(rank, p);
      assert Above(m, rank, c) == {c} + Above(m, rank, p);
    }
  }
}
