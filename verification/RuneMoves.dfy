/**
  Runes count as stackable when room is looked for but never merge.  Two concrete moves show what
  comes of it.
 */
module RuneMoves {

  import opened ItemHeap
  import opened ItemMoves

  const RUNE := Kind(2268, 0, true, true, 120, true, true)
  const BAG := Kind(1987, 0, false, false, 800, true, true)

  function Anything(c: Item, k: Kind, n: nat): Code { NoError }

  function NoFlags(): Flags { Flags(false, false) }

  /** A bag with one slot holds a rune; another rune moved there makes it hold two. */
  ghost function FullBag(bag: Item, from: Item, a: Item, b: Item): Shape {
    map[bag := Thing(BAG, 1, null, [a]), from := Thing(BAG, 1, null, [b]),
        a := Thing(RUNE, 5, bag, []), b := Thing(RUNE, 3, from, [])]
  }

  lemma {:induction false} RuneOverfillsBag(bag: Item, from: Item, a: Item, b: Item)
    requires bag != from && bag != a && bag != b && from != a && from != b && a != b
    requires bag.container && bag.unlocked && bag.capacity == 1 && from.container && !a.container && !b.container
    ensures var m, rank := FullBag(bag, from, a, b), map[bag := 1, from := 1, a := 0, b := 0];
            && Linked(m) && Ranked(m, rank)
            && var route := Resolve(m, bag, WHEREEVER, b, NoFlags(), MAP_MAX_LAYERS);
               && PlaceOk(m, route.place, b)
               && Granted(m, rank, Anything, from, route, b, 3, null) == 3
               && Overfills(m, from, route.place, b, 3)
  {
    var m, rank := FullBag(bag, from, a, b), map[bag := 1, from := 1, a := 0, b := 0];
    forall x | x in m ensures UpOk(m, x) && ListOk(m, x) && RankOk(m, rank, x) {
    }
    assert FirstFit(m, m[bag].list, b) == 0;
    var route := Resolve(m, bag, WHEREEVER, b, NoFlags(), MAP_MAX_LAYERS);
    assert route == Route(Place(bag, 0, a), NoFlags());
    ResolveOk(m, bag, WHEREEVER, b, NoFlags(), MAP_MAX_LAYERS);
    assert Above(m, rank, bag) == {bag} by { AboveIs(m, rank, bag); AboveNull(m, rank); }
    assert MaxCount(m, rank, Anything, bag, 0, b) == 95;
  }

  const OTHER_RUNE := Kind(2273, 0, true, true, 120, true, true)

  /** A bag with two slots that holds two runes of different kinds, and one rune of each elsewhere. */
  ghost function TwoRunes(bag: Item, from: Item, o: Item, a: Item, q: Item, b: Item): Shape {
    map[bag := Thing(BAG, 1, null, [o, a]), from := Thing(BAG, 1, null, [q, b]),
        o := Thing(OTHER_RUNE, 1, bag, []), a := Thing(RUNE, 5, bag, []),
        q := Thing(OTHER_RUNE, 2, from, []), b := Thing(RUNE, 3, from, [])]
  }

  ghost predicate Apart(bag: Item, from: Item, o: Item, a: Item, q: Item, b: Item) {
    && |{bag, from, o, a, q, b}| == 6
    && bag != from && bag != o && bag != a && bag != q && bag != b && from != o && from != a && from != q && from != b
    && o != a && o != q && o != b && a != q && a != b && q != b
    && bag.container && bag.unlocked && bag.capacity == 2 && from.container
    && !o.container && !a.container && !q.container && !b.container
  }

  /** The first move is granted and makes the bag overfull. */
  lemma {:induction false} FirstRuneMoves(bag: Item, from: Item, o: Item, a: Item, q: Item, b: Item)
    requires Apart(bag, from, o, a, q, b)
    ensures var m, rank := TwoRunes(bag, from, o, a, q, b), map[bag := 1, from := 1, o := 0, a := 0, q := 0, b := 0];
            && Linked(m) && Ranked(m, rank)
            && var route := Resolve(m, bag, WHEREEVER, q, NoFlags(), MAP_MAX_LAYERS);
               && route.place == Place(bag, 0, o) && PlaceOk(m, route.place, q)
               && Granted(m, rank, Anything, from, route, q, 2, null) == 2
               && Overfills(m, from, route.place, q, 2)
  {
    var m, rank := TwoRunes(bag, from, o, a, q, b), map[bag := 1, from := 1, o := 0, a := 0, q := 0, b := 0];
    TwoRunesOk(bag, from, o, a, q, b);
    assert m[bag].list == [o, a] && FirstFit(m, m[bag].list, q) == 0;
    hide Linked, Ranked;
    var route := Resolve(m, bag, WHEREEVER, q, NoFlags(), MAP_MAX_LAYERS);
    assert route == Route(Place(bag, 0, o), NoFlags());
    ResolveOk(m, bag, WHEREEVER, q, NoFlags(), MAP_MAX_LAYERS);
    assert Above(m, rank, bag) == {bag} by { AboveIs(m, rank, bag); AboveNull(m, rank); }
    assert MaxCount(m, rank, Anything, bag, 0, q) == 99;
  }

  lemma {:induction false} TwoRunesOk(bag: Item, from: Item, o: Item, a: Item, q: Item, b: Item)
    requires Apart(bag, from, o, a, q, b)
    ensures var m, rank := TwoRunes(bag, from, o, a, q, b), map[bag := 1, from := 1, o := 0, a := 0, q := 0, b := 0];
            Linked(m) && Ranked(m, rank)
  {
    var m, rank := TwoRunes(bag, from, o, a, q, b), map[bag := 1, from := 1, o := 0, a := 0, q := 0, b := 0];
    forall x | x in m ensures UpOk(m, x) && ListOk(m, x) && RankOk(m, rank, x) {
    }
  }

  /** In whatever state `n` that move leaves, the next rune moved there is directed to its like in
      the third place, beyond the two slots, and lost. */
  lemma {:induction false} SecondRuneIsLost(bag: Item, from: Item, o: Item, a: Item, q: Item, b: Item, n: Shape, rank: Ranks, y: Item)
    requires Apart(bag, from, o, a, q, b)
    requires Carried(TwoRunes(bag, from, o, a, q, b), n, from, Place(bag, 0, o), q, 2, y)
    requires Linked(n) && Ranked(n, rank)
    ensures from in n && b in n && bag in n
    ensures var route := Resolve(n, bag, WHEREEVER, b, NoFlags(), MAP_MAX_LAYERS);
            && PlaceOk(n, route.place, b)
            && Granted(n, rank, Anything, from, route, b, 3, null) == 3
            && Lost(n, route.place, b, 3)
  {
    hide Carried, TwoRunes, Linked, Ranked, Above, FirstFit;
    AfterFirst(bag, from, o, a, q, b, n, y);
    ResolveOk(n, bag, WHEREEVER, b, NoFlags(), MAP_MAX_LAYERS);
    ThirdPlace(n, [y, o, a], b);
    var route := Resolve(n, bag, WHEREEVER, b, NoFlags(), MAP_MAX_LAYERS);
    assert route == Route(Place(bag, 2, a), NoFlags());
    AboveIs(n, rank, bag);
    AboveNull(n, rank);
    assert MaxCount(n, rank, Anything, bag, 2, b) == 95;
  }

  lemma {:induction false} ThirdPlace(n: Shape, l: seq<Item>, b: Item)
    requires |l| == 3 && b in n && forall y :: y in l ==> y in n
    requires !Fits(n, l[0], b) && !Fits(n, l[1], b) && Fits(n, l[2], b)
    ensures FirstFit(n, l, b) == 2
  {
    FirstFitIs(n, l, b);
  }

  lemma {:induction false} AfterFirst(bag: Item, from: Item, o: Item, a: Item, q: Item, b: Item, n: Shape, y: Item)
    requires Apart(bag, from, o, a, q, b)
    requires Carried(TwoRunes(bag, from, o, a, q, b), n, from, Place(bag, 0, o), q, 2, y)
    ensures n.Keys == {bag, from, o, a, q, b, y} && y !in {bag, from, o, a, q, b}
    ensures n[bag] == Thing(BAG, 1, null, [y, o, a]) && n[from] == Thing(BAG, 1, null, [b])
    ensures n[y] == Thing(OTHER_RUNE, 2, bag, []) && n[o] == Thing(OTHER_RUNE, 1, bag, [])
    ensures n[a] == Thing(RUNE, 5, bag, []) && n[b] == Thing(RUNE, 3, from, [])
  {
    hide Total, Moved;
    var m := TwoRunes(bag, from, o, a, q, b);
    assert m[from].list == [q, b] && Without([q, b], q) == [b];
    assert FilledShape(m, from, Place(bag, 0, o), q, 2) == TakenOut(m, from, q, 2);
    assert [y] + [o, a] == [y, o, a];
  }
}
