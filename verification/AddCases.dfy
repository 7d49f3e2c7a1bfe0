/**
  Adding items: concrete bags in which, with stacking off, something is left over or a plain item
  makes the bag overfull, and one in which a rune is lost.
 */
module AddCases {

  import opened ItemHeap
  import opened ItemMoves
  import opened ItemAdding
  import opened RuneMoves

  const COIN := Kind(2148, 0, true, false, 10, true, true)
  const SWORD := Kind(2376, 0, false, false, 3500, true, true)

  function NoStacking(): Flags { Flags(true, false) }

  /** Two slots, both taken by the items given, and an item that lies nowhere. */
  ghost function Bag(bag: Item, a: Item, s: Thing, b: Item, t: Thing, x: Item, count: nat): Shape {
    map[bag := Thing(BAG, 1, null, [a, b]), a := s, b := t, x := Thing(COIN, count, null, [])]
  }

  /** Ten coins are added where a sword lies: fifty coins in the bag take ten more, but stacking is
      off, so the coins get a place of their own. */
  lemma {:induction false} CoinsOverfillBag(bag: Item, a: Item, b: Item, x: Item)
    requires bag != a && bag != b && bag != x && a != b && a != x && b != x
    requires bag.container && bag.unlocked && bag.capacity == 2 && !a.container && !b.container && !x.container
    ensures var m := Bag(bag, a, Thing(COIN, 50, bag, []), b, Thing(SWORD, 1, bag, []), x, 10);
            var rank := map[bag := 1, a := 0, b := 0, x := 0];
            && Linked(m) && Ranked(m, rank)
            && AddResult(m, rank, Anything, bag, 1, x, false) == NoError
            && AddOverfills(m, Destination(m, bag, 1, x, false), x)
  {
    var m := Bag(bag, a, Thing(COIN, 50, bag, []), b, Thing(SWORD, 1, bag, []), x, 10);
    var rank := map[bag := 1, a := 0, b := 0, x := 0];
    BagOk(m, rank, bag, a, b, x);
    assert Destination(m, bag, 1, x, false) == Place(bag, 1, b);
  }

  /** Eighty coins are added to fifty: the bag has room for a hundred on two stacks, but with
      stacking off only the first is filled, and thirty remain. */
  lemma {:induction false} CoinsRemain(bag: Item, a: Item, b: Item, x: Item)
    requires bag != a && bag != b && bag != x && a != b && a != x && b != x
    requires bag.container && bag.unlocked && bag.capacity == 2 && !a.container && !b.container && !x.container
    ensures var m := Bag(bag, a, Thing(COIN, 50, bag, []), b, Thing(COIN, 50, bag, []), x, 80);
            var rank := map[bag := 1, a := 0, b := 0, x := 0];
            && Linked(m) && Ranked(m, rank)
            && AddResult(m, rank, Anything, bag, 0, x, false) == NoError
            && Remains(m, bag, Destination(m, bag, 0, x, false), x, NoStacking()) == 30
  {
    var m := Bag(bag, a, Thing(COIN, 50, bag, []), b, Thing(COIN, 50, bag, []), x, 80);
    var rank := map[bag := 1, a := 0, b := 0, x := 0];
    BagOk(m, rank, bag, a, b, x);
    assert Destination(m, bag, 0, x, false) == Place(bag, 0, a);
  }

  /** The room in such a bag is that on its stacks. */
  lemma {:induction false} BagOk(m: Shape, rank: Ranks, bag: Item, a: Item, b: Item, x: Item)
    requires bag != a && bag != b && bag != x && a != b && a != x && b != x
    requires bag.container && bag.unlocked && bag.capacity == 2 && !a.container && !b.container && !x.container
    requires rank == map[bag := 1, a := 0, b := 0, x := 0] && m.Keys == {bag, a, b, x}
    requires m[bag] == Thing(BAG, 1, null, [a, b])
    requires m[a].parent == m[b].parent == bag && m[x].parent == null && m[a].list == m[b].list == m[x].list == []
    requires m[x].kind == COIN
    ensures Linked(m) && Ranked(m, rank)
    ensures Above(m, rank, bag) == {bag}
    ensures MaxCount(m, rank, Anything, bag, WHEREEVER, x) ==
            (if Fits(m, a, x) then 100 - m[a].count else 0) + if Fits(m, b, x) then 100 - m[b].count else 0
  {
    forall y | y in m ensures UpOk(m, y) && ListOk(m, y) && RankOk(m, rank, y) {
    }
    assert Above(m, rank, bag) == {bag} by { AboveIs(m, rank, bag); AboveNull(m, rank); }
    var l := m[bag].list;
    assert l == [] + [a] + [b];
    NoRoom(m, rank, Anything, bag, x);
    RoomAlso(m, rank, Anything, bag, [], a, x);
    RoomAlso(m, rank, Anything, bag, [] + [a], b, x);
  }

  /** Three stacks of runes in a bag with two slots, as moving a rune leaves them, and a rune that
      lies nowhere. */
  ghost function RuneBag(bag: Item, a: Item, b: Item, c: Item, x: Item): Shape {
    map[bag := Thing(BAG, 1, null, [a, b, c]), a := Thing(OTHER_RUNE, 1, bag, []), b := Thing(OTHER_RUNE, 1, bag, []),
        c := Thing(RUNE, 50, bag, []), x := Thing(RUNE, 10, null, [])]
  }

  ghost predicate SmallBag(bag: Item, a: Item, b: Item, c: Item, x: Item) {
    && bag != a && bag != b && bag != c && bag != x && a != b && a != c && a != x && b != c && b != x && c != x
    && bag.container && bag.unlocked && bag.capacity == 2 && !a.container && !b.container && !c.container && !x.container
  }

  /** Ten runes are added: the stack with room lies beyond the capacity, runes never go onto a stack,
      and the runes are gone, with neither an error nor a remainder. */
  lemma {:induction false} RunesVanish(bag: Item, a: Item, b: Item, c: Item, x: Item)
    requires SmallBag(bag, a, b, c, x)
    ensures var m, rank := RuneBag(bag, a, b, c, x), map[bag := 1, a := 0, b := 0, c := 0, x := 0];
            && Linked(m) && Ranked(m, rank)
            && AddResult(m, rank, Anything, bag, WHEREEVER, x, true) == NoError
            && forall n, code, remainder ::
                 AddDone(m, n, rank, Anything, bag, WHEREEVER, x, NoFlags(), false, code, remainder) ==>
                   code == NoError && remainder == 0 && SameTotals(m, n)
  {
    var m, rank := RuneBag(bag, a, b, c, x), map[bag := 1, a := 0, b := 0, c := 0, x := 0];
    RuneBagOk(m, rank, bag, a, b, c, x);
    hide Linked, Ranked, Above, MaxCount, Destination, SameTotals, Local, WithinCapacity, Gained;
    forall n, code, remainder
      | AddDone(m, n, rank, Anything, bag, WHEREEVER, x, NoFlags(), false, code, remainder)
      ensures code == NoError && remainder == 0 && SameTotals(m, n)
    {
      NothingGained(m, n, RUNE);
    }
  }

  /** No slot is free, but the stack of the kind has room. */
  lemma {:induction false} RuneBagOk(m: Shape, rank: Ranks, bag: Item, a: Item, b: Item, c: Item, x: Item)
    requires SmallBag(bag, a, b, c, x)
    requires rank == map[bag := 1, a := 0, b := 0, c := 0, x := 0] && m == RuneBag(bag, a, b, c, x)
    ensures Linked(m) && Ranked(m, rank)
    ensures Above(m, rank, bag) == {bag}
    ensures MaxCount(m, rank, Anything, bag, WHEREEVER, x) >= 50
    ensures Destination(m, bag, WHEREEVER, x, true) == Place(bag, 2, c)
  {
    RuneBagLinked(m, rank, bag, a, b, c, x);
    assert Above(m, rank, bag) == {bag} by { AboveIs(m, rank, bag); AboveNull(m, rank); }
    var l := m[bag].list;
    assert l == [a, b] + [c] && !Fits(m, a, x) && !Fits(m, b, x) && Fits(m, c, x);
    hide Linked, Ranked, Above;
    FirstFitIs(m, l, x);
    RoomAlso(m, rank, Anything, bag, [a, b], c, x);
  }

  lemma {:induction false} RuneBagLinked(m: Shape, rank: Ranks, bag: Item, a: Item, b: Item, c: Item, x: Item)
    requires SmallBag(bag, a, b, c, x)
    requires rank == map[bag := 1, a := 0, b := 0, c := 0, x := 0] && m == RuneBag(bag, a, b, c, x)
    ensures Linked(m) && Ranked(m, rank)
  {
    forall y | y in m ensures UpOk(m, y) && ListOk(m, y) && RankOk(m, rank, y) {
    }
  }

  lemma {:induction false} NothingGained(m: Shape, n: Shape, kind: Kind)
    ensures Gained(m, n, kind, 0) ==> SameTotals(m, n)
  {
  }
}
