/**
  What the answers of the queries and of a move mean, without the way they are computed.
 */
module MoveLaws {

  import opened Basics
  import opened ItemHeap
  import opened ItemMoves
  import opened ItemAdding

  // ---------- above ----------

  /** A way up from `c` to `x`, from each item to what it lies in. */
  ghost predicate WayUp(m: Shape, path: seq<Item>, c: Item, x: Item) {
    && path != [] && path[0] == c && path[|path| - 1] == x
    && (forall i :: 0 <= i < |path| ==> path[i] in m)
    && forall i :: 0 <= i < |path| - 1 ==> m[path[i]].parent == path[i + 1]
  }

  /** An item is above exactly if some way leads up to it. */
  lemma {:induction false} AboveHasWay(m: Shape, rank: Ranks, c: Item, x: Item) returns (path: seq<Item>)
    requires Ranked(m, rank) && c in m && x in Above(m, rank, c)
    ensures WayUp(m, path, c, x)
    decreases Higher(rank, c)
  {
    AboveIs(m, rank, c);
    path := [c];
    if x != c {
      AboveNull(m, rank);
      var p := m[c].parent;
      var up := AboveHasWay(m, rank, p, x);
      path := [c] + up;
      WayOn(m, up, c, p, x);
    }
  }

  lemma {:induction false} WayOn(m: Shape, up: seq<Item>, c: Item, p: Item, x: Item)
    requires c in m && m[c].parent == p && WayUp(m, up, p, x)
    ensures WayUp(m, [c] + up, c, x)
  {
    var path := [c] + up;
    forall i | 0 <= i < |path| - 1 ensures m[path[i]].parent == path[i + 1] {
      if i > 0 { assert path[i] == up[i - 1] && path[i + 1] == up[i]; }
    }
  }

  lemma {:induction false} WayIsAbove(m: Shape, rank: Ranks, path: seq<Item>, c: Item, x: Item)
    requires Ranked(m, rank) && c in m && WayUp(m, path, c, x)
    ensures x in Above(m, rank, c)
    decreases |path|
  {
    AboveIs(m, rank, c);
    if |path| > 1 {
      assert m[path[0]].parent == path[1];
      WayIsAbove(m, rank, path[1..], path[1], x);
    }
  }

  // ---------- room ----------

  /** A stack in `c` that `x` may fill up. */
  ghost predicate Fillable(m: Shape, rank: Ranks, owner: Owner, c: Item, x: Item, y: Item)
    requires Ranked(m, rank) && c in m && x in m && y in m
  {
    && y != x && m[y].kind == m[x].kind && m[y].count < 100
    && c.unlocked && m[x].kind.pickupable && x !in Above(m, rank, c) && owner(c, m[x].kind, 100 - m[y].count) == NoError
  }

  /** What the slots in use take up of a hundred each: a stack that may be filled its count, any other all. */
  ghost function Used(m: Shape, rank: Ranks, owner: Owner, c: Item, x: Item, l: seq<Item>): nat
    requires Ranked(m, rank) && c in m && x in m && forall y :: y in l ==> y in m
  {
    if l == [] then 0
    else (if Fillable(m, rank, owner, c, x, l[0]) then m[l[0]].count else 100) + Used(m, rank, owner, c, x, l[1..])
  }

  lemma {:induction false} UsedAlso(m: Shape, rank: Ranks, owner: Owner, c: Item, x: Item, l: seq<Item>, y: Item)
    requires Ranked(m, rank) && c in m && x in m && y in m && forall z :: z in l ==> z in m
    ensures Used(m, rank, owner, c, x, l + [y]) ==
            Used(m, rank, owner, c, x, l) + if Fillable(m, rank, owner, c, x, y) then m[y].count else 100
  {
    hide Fillable;
    if l == [] {
      assert (l + [y])[1..] == [];
      assert Used(m, rank, owner, c, x, []) == 0;
    } else {
      assert (l + [y])[1..] == l[1..] + [y];
      UsedAlso(m, rank, owner, c, x, l[1..], y);
    }
  }

  lemma {:induction false} RoomAndUsed(m: Shape, rank: Ranks, owner: Owner, c: Item, x: Item, l: seq<Item>)
    requires Ranked(m, rank) && c in m && x in m && forall y :: y in l ==> y in m
    ensures StackRoom(m, rank, owner, c, l, x) + Used(m, rank, owner, c, x, l) == 100 * |l|
  {
    if l != [] {
      var k, y := l[..|l| - 1], l[|l| - 1];
      assert l == k + [y];
      RoomAndUsed(m, rank, owner, c, x, k);
      UsedAlso(m, rank, owner, c, x, k, y);
      hide Above;
    }
  }

  /** What is used and what there is room for make up a hundred for each slot. */
  lemma {:induction false} RoomIsWhatIsLeft(m: Shape, rank: Ranks, owner: Owner, c: Item, x: Item)
    requires Linked(m) && Ranked(m, rank) && c in m && x in m && m[x].kind.stackable
    ensures Listed(m, c)
    ensures MaxCount(m, rank, owner, c, WHEREEVER, x) + Used(m, rank, owner, c, x, m[c].list) ==
            100 * Max(c.capacity, |m[c].list|)
  {
    ListIn(m, c);
    RoomAndUsed(m, rank, owner, c, x, m[c].list);
  }

  /** At an index only the stack there is looked at, and an item that is no stack needs a free slot. */
  lemma {:induction false} RoomAt(m: Shape, rank: Ranks, owner: Owner, c: Item, index: int, x: Item)
    requires Linked(m) && Ranked(m, rank) && c in m && x in m
    ensures Listed(m, c)
    ensures var max := MaxCount(m, rank, owner, c, index, x);
            && (!m[x].kind.stackable ==> max + |m[c].list| == Max(c.capacity, |m[c].list|))
            && (m[x].kind.stackable && 0 <= index < |m[c].list| && m[c].list[index] != x ==>
                  max + 100 * |m[c].list| + Used(m, rank, owner, c, x, [m[c].list[index]]) ==
                  100 * Max(c.capacity, |m[c].list|) + 100)
            && (m[x].kind.stackable && index != WHEREEVER && !(0 <= index < |m[c].list|) ==>
                  max + 100 * |m[c].list| == 100 * Max(c.capacity, |m[c].list|))
  {
    ListIn(m, c);
    hide Above;
    if 0 <= index < |m[c].list| {
      assert Used(m, rank, owner, c, x, [m[c].list[index]][1..]) == 0;
    }
  }

  // ---------- moves ----------

  /** The destination takes so many of `x` as far as its owner, its lock and containment say. */
  ghost predicate Welcome(m: Shape, rank: Ranks, owner: Owner, p: Place, x: Item, n: nat)
    requires Ranked(m, rank) && p.container in m && x in m
  {
    && p.container.unlocked && m[x].kind.pickupable && x !in Above(m, rank, p.container)
    && (p.index == WHEREEVER ==> |m[p.container].list| < p.container.capacity)
    && owner(p.container, m[x].kind, n) == NoError
  }

  /** `a` of `x` may leave `from`. */
  ghost predicate MayLeave(m: Shape, from: Item, x: Item, a: nat, anyway: bool)
    requires from in m && x in m
  {
    x in m[from].list && a > 0 && (m[x].kind.stackable ==> a <= m[x].count) && (m[x].kind.moveable || anyway)
  }

  /** How many would go: of a stack no more than asked and no more than there is room for, of a rune
      all as far as there is room; an item that is no stack if a slot is free. */
  ghost predicate IsAmount(t: Thing, n: nat, max: nat, a: nat) {
    && a <= max
    && (t.kind.stackable && !t.kind.rune ==> a <= n && (a == n || a == max))
    && (t.kind.stackable && t.kind.rune ==> a <= t.count && (a == t.count || a == max))
    && (!t.kind.stackable ==> a == max)
  }

  /** A move carries something over exactly if the item is not dropped on itself, is welcome, may
      leave, and does not go into what is being traded; then it is the whole amount. */
  lemma {:induction false} MovesExactly(m: Shape, rank: Ranks, owner: Owner, from: Item, route: Route, x: Item, n: nat,
                                        trade: Item?, a: nat)
    requires Linked(m) && Ranked(m, rank) && from in m && x in m && route.place.container in m
    requires IsAmount(m[x], n, MaxCount(m, rank, owner, route.place.container, route.place.index, x), a)
    ensures var p := route.place;
            Granted(m, rank, owner, from, route, x, n, trade) ==
              if p.item != x && Welcome(m, rank, owner, p, x, n) && MayLeave(m, from, x, a, route.flags.ignoreNotMoveable)
                 && (trade == null || trade !in Above(m, rank, p.container)) then a else 0
  {
    hide Above, MaxCount;
  }

  /** The answer is that of the first check that fails; without error is an item dropped on itself and
      a move of all that was asked. */
  lemma {:induction false} MoveAnswers(m: Shape, rank: Ranks, owner: Owner, from: Item, route: Route, x: Item, n: nat,
                                       trade: Item?, a: nat)
    requires Linked(m) && Ranked(m, rank) && from in m && x in m && route.place.container in m
    requires IsAmount(m[x], n, MaxCount(m, rank, owner, route.place.container, route.place.index, x), a)
    ensures var p, code := route.place, MoveCode(m, rank, owner, from, route, x, n, trade);
            var max := MaxCount(m, rank, owner, p.container, p.index, x);
            var moved := Granted(m, rank, owner, from, route, x, n, trade);
            var welcome := p.item != x && Welcome(m, rank, owner, p, x, n);
            var may, mayAnyway := MayLeave(m, from, x, a, route.flags.ignoreNotMoveable), MayLeave(m, from, x, a, true);
            var traded := trade != null && trade in Above(m, rank, p.container);
            && (code == NoError <==> p.item == x || (moved > 0 && (m[x].kind.stackable ==> n <= max)))
            && (moved > 0 && m[x].kind.stackable && max < n ==> code == ContainerNotEnoughRoom)
            && (p.item != x && !welcome ==> code == AddCode(m, rank, owner, p.container, p.index == WHEREEVER, x, n) != NoError)
            && (welcome && max == 0 && n > 0 ==> code == ContainerNotEnoughRoom)
            && (welcome && max > 0 && !mayAnyway ==> code == NotPossible)
            && (welcome && max > 0 && mayAnyway && !may ==> code == NotMoveable)
            && (welcome && max > 0 && may && traded ==> code == NotEnoughRoom)
  {
    hide Above, MaxCount;
  }

  // ---------- adding ----------

  /** Adding is granted exactly if the item is welcome at its place and there is room for all of it
      in the container asked. */
  lemma {:induction false} AddsExactly(m: Shape, rank: Ranks, owner: Owner, to: Item, index: int, x: Item, stacking: bool)
    requires Linked(m) && Ranked(m, rank) && to in m && x in m && to.container
    ensures var p, code := Destination(m, to, index, x, stacking), AddResult(m, rank, owner, to, index, x, stacking);
            && p.container in m
            && var welcome := Welcome(m, rank, owner, p, x, m[x].count);
               var room := if m[x].kind.stackable then m[x].count <= MaxCount(m, rank, owner, to, WHEREEVER, x)
                           else |m[to].list| < to.capacity;
               && (code == NoError <==> welcome && room)
               && (welcome && !room ==> code == ContainerNotEnoughRoom)
               && (!welcome ==> code == AddCode(m, rank, owner, p.container, p.index == WHEREEVER, x, m[x].count))
  {
    DestinationOk(m, to, index, x, stacking);
    hide Above, Destination;
  }
}
