/**
  Coins: paying from all stacks in a container and what lies in it, and giving change in the
  fewest kinds of coins.
 */
module Money {

  import opened Basics
  import opened ItemHeap
  import opened ItemMoves
  import opened ItemAdding

  const GOLD_COIN := 2148
  const PLATINUM_COIN := 2152
  const CRYSTAL_COIN := 2160

  /** What one coin is worth; the coin types are stackable and no runes. */
  function Unit(kind: Kind): nat {
    if !kind.stackable || kind.rune then 0
    else if kind.id == GOLD_COIN then 1
    else if kind.id == PLATINUM_COIN then 100
    else if kind.id == CRYSTAL_COIN then 10000
    else 0
  }

  function Worth(t: Thing): nat { Unit(t.kind) * t.count }

  function Value(kind: Kind): int { Unit(kind) }

  /** The worth of all coins that lie in containers. */
  ghost function Held(m: Shape): int { Total(m, Value) }

  // ---------- coins dropped on the tile ----------

  datatype Pile = Pile(kind: Kind, count: nat)

  /** The total over all piles, for any measure of kinds. */
  function TileTotal(tile: seq<Pile>, f: Measure): int {
    if tile == [] then 0
    else TileTotal(tile[..|tile| - 1], f) + f(tile[|tile| - 1].kind) * tile[|tile| - 1].count
  }

  function TileWorth(tile: seq<Pile>): int { TileTotal(tile, Value) }

  lemma {:induction false} TileMore(tile: seq<Pile>, p: Pile, f: Measure)
    ensures TileTotal(tile + [p], f) == TileTotal(tile, f) + f(p.kind) * p.count
  {
    assert (tile + [p])[..|tile|] == tile;
  }

  // ---------- giving money ----------

  /** The item table's coin types. */
  datatype Mint = Mint(gold: Kind, platinum: Kind, crystal: Kind) {
    predicate Valid() { Unit(gold) == 1 && Unit(platinum) == 100 && Unit(crystal) == 10000 }
  }

  /** One stack given: a new item is added, or dropped on the tile if that is refused. */
  datatype Gift = Gift(before: Shape, rank: Ranks, item: Item, pile: Pile, code: Code, after: Shape)

  ghost predicate Adds(owner: Owner, to: Item, flags: Flags, s: Gift) {
    && s.item !in s.before && 1 <= s.pile.count <= 100 && Unit(s.pile.kind) > 0
    && AddDone(s.before[s.item := Thing(s.pile.kind, s.pile.count, null, [])], s.after, s.rank, owner, to, WHEREEVER, s.item,
               flags, false, s.code, 0)
  }

  /** One gift after the other leads from `m` to `n`. */
  ghost predicate Gives(owner: Owner, to: Item, flags: Flags, gifts: seq<Gift>, m: Shape, n: Shape) {
    if gifts == [] then n == m
    else
      var s := gifts[|gifts| - 1];
      Adds(owner, to, flags, s) && s.after == n && Gives(owner, to, flags, gifts[..|gifts| - 1], m, s.before)
  }

  function Piles(gifts: seq<Gift>): seq<Pile> {
    if gifts == [] then [] else Piles(gifts[..|gifts| - 1]) + [gifts[|gifts| - 1].pile]
  }

  /** What was refused lies on the tile. */
  function Refused(gifts: seq<Gift>): seq<Pile> {
    if gifts == [] then []
    else
      var s := gifts[|gifts| - 1];
      Refused(gifts[..|gifts| - 1]) + if s.code != NoError then [s.pile] else []
  }

  /** What was given so far: these piles, one after the other; what was refused is on the tile. */
  ghost predicate Ledger(owner: Owner, to: Item, flags: Flags, gifts: seq<Gift>, m: Shape, n: Shape, piles: seq<Pile>,
                         tile: seq<Pile>, tile': seq<Pile>) {
    Gives(owner, to, flags, gifts, m, n) && Piles(gifts) == piles && tile' == tile + Refused(gifts)
  }

  lemma {:induction false} LedgerStarts(owner: Owner, to: Item, flags: Flags, m: Shape, tile: seq<Pile>)
    ensures Ledger(owner, to, flags, [], m, m, [], tile, tile)
  {
  }

  lemma {:induction false} LedgerGrows(owner: Owner, to: Item, flags: Flags, gifts: seq<Gift>, m: Shape, piles: seq<Pile>,
                                       tile: seq<Pile>, tile': seq<Pile>, s: Gift)
    requires Ledger(owner, to, flags, gifts, m, s.before, piles, tile, tile') && Adds(owner, to, flags, s)
    ensures Ledger(owner, to, flags, gifts + [s], m, s.after, piles + [s.pile], tile,
                   if s.code != NoError then tile' + [s.pile] else tile')
  {
    hide Adds, Ledger;
    LedgerParts(owner, to, flags, gifts, m, s.before, piles, tile, tile');
    OneMoreGift(owner, to, flags, gifts, m, s);
    Regroup(tile, Refused(gifts), [s.pile]);
    assert Refused(gifts) + [] == Refused(gifts);
    hide Gives, Piles, Refused;
    NowLedger(owner, to, flags, gifts + [s], m, s.after, piles + [s.pile], tile, if s.code != NoError then tile' + [s.pile] else tile');
  }

  lemma {:induction false} LedgerParts(owner: Owner, to: Item, flags: Flags, gifts: seq<Gift>, m: Shape, n: Shape, piles: seq<Pile>,
                                       tile: seq<Pile>, tile': seq<Pile>)
    requires Ledger(owner, to, flags, gifts, m, n, piles, tile, tile')
    ensures Gives(owner, to, flags, gifts, m, n) && Piles(gifts) == piles && tile' == tile + Refused(gifts)
  {
  }

  lemma {:induction false} NowLedger(owner: Owner, to: Item, flags: Flags, gifts: seq<Gift>, m: Shape, n: Shape, piles: seq<Pile>,
                                     tile: seq<Pile>, tile': seq<Pile>)
    requires Gives(owner, to, flags, gifts, m, n) && Piles(gifts) == piles && tile' == tile + Refused(gifts)
    ensures Ledger(owner, to, flags, gifts, m, n, piles, tile, tile')
  {
  }

  lemma {:induction false} OneMoreGift(owner: Owner, to: Item, flags: Flags, gifts: seq<Gift>, m: Shape, s: Gift)
    requires Gives(owner, to, flags, gifts, m, s.before) && Adds(owner, to, flags, s)
    ensures Gives(owner, to, flags, gifts + [s], m, s.after)
    ensures Piles(gifts + [s]) == Piles(gifts) + [s.pile]
    ensures Refused(gifts + [s]) == Refused(gifts) + if s.code != NoError then [s.pile] else []
  {
    hide Adds;
    assert (gifts + [s])[..|gifts|] == gifts;
  }

  /** A new stack of coins is added, or dropped on the tile if it is refused. */
  method GiveCoins(g: Game, to: Item, kind: Kind, count: nat, flags: Flags, tile: seq<Pile>, ghost l: Log)
    returns (tile': seq<Pile>, ghost l': Log)
    requires g.Valid() && to in g.world && to.container && Monotone(g.owner, to)
    requires Unit(kind) > 0 && 1 <= count <= 100 && l.Holds(g.owner, to, flags, g.Now(), tile)
    modifies g`rank, g`world, g.world
    ensures g.Valid() && old(g.world) <= g.world && fresh(g.world - old(g.world))
    ensures l'.Holds(g.owner, to, flags, g.Now(), tile') && l'.Follows(l, [Pile(kind, count)])
  {
    hide Good, Gained, Kept, Local, Monotone, AddDone, Ledger, Adds;
    ghost var m := g.Now();
    var y := NewCoin(g, kind, count);
    ghost var m1, r := g.Now(), g.rank;
    var code, remainder := InternalAddItem(g, to, y, WHEREEVER, flags, false);
    NoRemainder(m, m1, g.Now(), r, g.owner, to, y, kind, count, flags, code, remainder);
    tile' := if code != NoError then tile + [Pile(kind, count)] else tile;
    ghost var s := Gift(m, r, y, Pile(kind, count), code, g.Now());
    LedgerGrows(g.owner, to, flags, l.gifts, l.start, l.piles, l.tile, tile, s);
    l' := l.(gifts := l.gifts + [s], piles := l.piles + [s.pile]);
  }

  /** A gift anywhere leaves no remainder. */
  lemma {:induction false} NoRemainder(m: Shape, m1: Shape, n: Shape, rank: Ranks, owner: Owner, to: Item, y: Item, kind: Kind,
                                       count: nat, flags: Flags, code: Code, remainder: nat)
    requires y !in m && m1 == m[y := Thing(kind, count, null, [])] && 1 <= count <= 100 && Unit(kind) > 0
    requires y in m1 && AddDone(m1, n, rank, owner, to, WHEREEVER, y, flags, false, code, remainder)
    ensures Adds(owner, to, flags, Gift(m, rank, y, Pile(kind, count), code, n))
  {
    if code == NoError { AnywhereFits(m1, rank, owner, to, y, flags); }
    hide AddResult, Linked, Ranked, Destination, Gained, Local, WithinCapacity, Settled, Remains, Unit;
  }

  /** What was given since the start, in order. */
  datatype Log = Log(gifts: seq<Gift>, start: Shape, piles: seq<Pile>, tile: seq<Pile>) {
    ghost predicate Holds(owner: Owner, to: Item, flags: Flags, now: Shape, tile': seq<Pile>) {
      Ledger(owner, to, flags, gifts, start, now, piles, tile, tile')
    }

    /** The same log with more piles. */
    predicate Follows(l: Log, more: seq<Pile>) {
      start == l.start && tile == l.tile && piles == l.piles + more
    }
  }

  method NewCoin(g: Game, kind: Kind, count: nat) returns (y: Item)
    requires g.Valid() && 1 <= count <= 100
    modifies g`rank, g`world
    ensures g.Valid() && fresh(y) && g.world == old(g.world) + {y} && y.parent == null
    ensures y.kind == kind && y.count == count
    ensures y !in old(g.Now()) && y in g.Now() && g.Now() == old(g.Now())[y := Thing(kind, count, null, [])]
  {
    y := g.CreateStack(kind, count);
    Seen(g.world, y);
  }

  /** What one gift changes. */
  lemma {:induction false} AddsMeans(owner: Owner, to: Item, flags: Flags, s: Gift)
    requires Adds(owner, to, flags, s)
    ensures Kept(s.before, s.after) && Local(s.before, s.after, {to}, null) && 1 <= s.pile.count <= 100
    ensures forall f: Measure :: Total(s.after, f) == Total(s.before, f) + if s.code == NoError then f(s.pile.kind) * s.pile.count else 0
  {
    var m, y, n := s.before, s.item, s.after;
    var m1 := m[y := Thing(s.pile.kind, s.pile.count, null, [])];
    var d := if s.code == NoError then s.pile.count else 0;
    StaysHere(m1, to, y, !flags.ignoreAutoStack);
    NewGain(m, y, m1[y], s.pile.kind);
    LocalNothing(m1, {to}, y);
    assert {to, to} == {to};
    LocalNew(m, m1, n, {to}, y);
    hide Local, Settled, WithinCapacity;
    if s.code == NoError {
      GainedThen(m, m1, n, s.pile.kind, 0, d);
    }
  }

  const TWO_32 := 0x1_0000_0000
  const TWO_16 := 0x1_0000
  const LIMIT := 4294970000

  /** The count of a new stack, which is made from sixteen bits, at least one, and kept in eight. */
  function StackCount(n: nat): nat {
    var c := n % TWO_16;
    (if c == 0 then 1 else c) % 256
  }

  /** Crystal coins, platinum coins and gold coins for an amount, in the widths of the program. */
  datatype Change = Change(crystal: nat, platinum: nat, gold: nat)

  function CrystalCoins(money: nat): nat { money / 10000 % TWO_32 }

  /** What is left of the amount; the product is taken in 32 bits. */
  function LeftMoney(money: nat): nat { money - CrystalCoins(money) * 10000 % TWO_32 }

  function PlatinumCoins(left: nat): nat { left / 100 % TWO_16 }

  function RestMoney(left: nat): nat { left - PlatinumCoins(left) * 100 }

  /** The coins in a new stack, if one is made. */
  function StackOf(n: nat): nat { if n != 0 then StackCount(n) else 0 }

  function Minted(money: nat): Change {
    var left := LeftMoney(money);
    Change(CrystalCoins(money), StackOf(PlatinumCoins(left)), StackOf(RestMoney(left)))
  }

  function ChangeWorth(c: Change): nat { 10000 * c.crystal + 100 * c.platinum + c.gold }

  lemma {:induction false} SmallStack(n: nat)
    requires 1 <= n <= 100
    ensures StackCount(n) == n
  {
  }

  lemma {:induction false} Crystals(money: nat)
    requires money < LIMIT
    ensures CrystalCoins(money) == money / 10000 && LeftMoney(money) == money - 10000 * CrystalCoins(money) < 10000
  {
    var c := money / 10000;
    assert c * 10000 < TWO_32 && c < TWO_32;
  }

  lemma {:induction false} Platinums(left: nat)
    requires left < 10000
    ensures PlatinumCoins(left) == left / 100 < 100 && RestMoney(left) == left - 100 * PlatinumCoins(left) < 100
    ensures StackOf(PlatinumCoins(left)) == PlatinumCoins(left) && StackOf(RestMoney(left)) == RestMoney(left)
  {
    hide StackCount;
    var p := PlatinumCoins(left);
    if p != 0 { SmallStack(p); }
    if left - 100 * p != 0 { SmallStack(left - 100 * p); }
  }

  /** Below the limit the coins are worth the amount and no stack is over a hundred. */
  lemma {:induction false} MintedExact(money: nat)
    requires money < LIMIT
    ensures var c := Minted(money);
            ChangeWorth(c) == money && c.crystal == money / 10000 && c.platinum < 100 && c.gold < 100
  {
    Crystals(money);
    Platinums(LeftMoney(money));
  }

  /** At the limit the product of crystal coins wraps and 4096 gold too many are given. */
  lemma {:induction false} MintedWraps()
    ensures Minted(LIMIT) == Change(429497, 40, 96) && ChangeWorth(Minted(LIMIT)) == LIMIT + 4096
  {
    assert LIMIT / 10000 == 429497;
    assert (429497 * 10000) % TWO_32 == 2704;
    assert (LIMIT - 2704) / 100 == 42949672 && 42949672 % TWO_16 == 23592;
    assert (LIMIT - 2704 - 2359200) % TWO_16 == 96;
  }

  /** How often the product of crystal coins wraps. */
  function Wraps(money: nat): nat { money / 10000 * 10000 / TWO_32 }

  /** The coins are worth the amount exactly if their number fits and the product does not wrap, or
      wraps a multiple of 25 times and the amount leaves a gold coin. */
  ghost predicate Right(money: nat) {
    money < 10000 * TWO_32 && (Wraps(money) == 0 || (Wraps(money) % 25 == 0 && money % 100 != 0))
  }

  lemma {:induction false} MintedExactly(money: nat)
    ensures ChangeWorth(Minted(money)) == money <==> Right(money)
  {
    if money >= 10000 * TWO_32 {
      TooMany(money);
    } else {
      FitsIn(money);
      hide Minted;
      if Wraps(money) == 0 {
        MintedUnwrapped(money);
      } else if Wraps(money) % 25 == 0 {
        MintedWrapped(money, Wraps(money) / 25);
      } else if ChangeWorth(Minted(money)) == money {
        MintedWrong(money);
      }
    }
  }

  lemma {:induction false} FitsIn(money: nat)
    requires money < 10000 * TWO_32
    ensures (money / 10000) % TWO_32 == money / 10000
  {
  }

  /** More crystal coins than fit: too few are given. */
  lemma {:induction false} TooMany(money: nat)
    requires money >= 10000 * TWO_32
    ensures ChangeWorth(Minted(money)) < money
  {
    var c := money / 10000;
    assert c >= TWO_32 && c % TWO_32 <= c - TWO_32;
    hide Minted;
    SmallChange(money);
  }

  lemma {:induction false} SmallChange(money: nat)
    ensures Minted(money).crystal == (money / 10000) % TWO_32 && Minted(money).platinum < 256 && Minted(money).gold < 256
  {
  }

  /** What is left over of an amount that fits. */
  lemma {:induction false} LeftOver(money: nat)
    requires money < 10000 * TWO_32
    ensures CrystalCoins(money) == money / 10000 && LeftMoney(money) == money % 10000 + Wraps(money) * TWO_32
  {
    FitsIn(money);
    var c := money / 10000;
    assert c * 10000 == Wraps(money) * TWO_32 + (c * 10000) % TWO_32;
    assert money == c * 10000 + money % 10000;
  }

  lemma {:induction false} MintedUnwrapped(money: nat)
    requires money < 10000 * TWO_32 && Wraps(money) == 0
    ensures ChangeWorth(Minted(money)) == money
  {
    LeftOver(money);
    hide CrystalCoins, LeftMoney, PlatinumCoins, RestMoney, StackOf, Wraps;
    Platinums(LeftMoney(money));
    HundredsOf(money);
  }

  /** After 25 wraps the amount left over is off by a multiple of 100 times 2^30. */
  lemma {:induction false} MintedWrapped(money: nat, j: nat)
    requires money < 10000 * TWO_32 && j > 0 && Wraps(money) == 25 * j
    ensures ChangeWorth(Minted(money)) == money <==> money % 100 != 0
  {
    hide CrystalCoins, LeftMoney, PlatinumCoins, RestMoney, StackOf, Wraps;
    LeftOver(money);
    WrappedLeft(money % 10000, j);
    HundredsOf(money);
  }

  lemma {:induction false} HundredsOf(money: nat)
    ensures money == money / 10000 * 10000 + money % 10000 && money % 10000 % 100 == money % 100
    ensures money % 10000 == 100 * (money % 10000 / 100) + money % 10000 % 100
  {
  }

  lemma {:induction false} WrappedLeft(r: nat, j: nat)
    requires r < 10000 && j > 0
    ensures var left := r + 25 * j * TWO_32;
            StackOf(PlatinumCoins(left)) == r / 100 && StackOf(RestMoney(left)) == if r % 100 == 0 then 1 else r % 100
  {
    hide StackCount;
    var left := r + 25 * j * TWO_32;
    assert left == r + 100 * (j * 0x4000_0000);
    Hundreds(r, j);
    if r / 100 != 0 { SmallStack(r / 100); }
    assert left - r / 100 * 100 == r % 100 + j * 1638400 * TWO_16;
    LastCoins(r % 100, j);
  }

  lemma {:induction false} LastCoins(r: nat, j: nat)
    requires r < 100 && j > 0
    ensures var rest := r + j * 1638400 * TWO_16;
            rest > 0 && StackCount(rest) == if r == 0 then 1 else r
  {
    Sixteen(r, j * 1638400);
  }

  lemma {:induction false} Hundreds(r: nat, j: nat)
    requires r < 10000
    ensures ((r + 100 * (j * 0x4000_0000)) / 100) % TWO_16 == r / 100
  {
    assert (r + 100 * (j * 0x4000_0000)) / 100 == r / 100 + j * 0x4000_0000;
    assert j * 0x4000_0000 == (j * 0x4000) * TWO_16;
    Sixteen(r / 100, j * 0x4000);
  }

  lemma {:induction false} Sixteen(a: nat, n: nat)
    requires a < TWO_16
    ensures (a + n * TWO_16) % TWO_16 == a
  {
  }

  /** Else platinum coins and gold coins cannot make up for what is left over. */
  lemma {:induction false} MintedWrong(money: nat)
    requires money < 10000 * TWO_32 && Wraps(money) > 0 && ChangeWorth(Minted(money)) == money
    ensures Wraps(money) % 25 == 0
  {
    LeftOver(money);
    SmallChange(money);
    PlatinumByte(LeftMoney(money) / 100);
    hide CrystalCoins, LeftMoney, PlatinumCoins, RestMoney, StackOf, StackCount, Wraps;
    HundredsOf(money);
    var k, r := Wraps(money), money % 10000;
    var left := r + k * TWO_32;
    var q, s := left / 100, left % 100;
    var p, g := Minted(money).platinum, Minted(money).gold;
    assert 100 * p + g == r;
    var u := q / 256;
    assert q == 256 * u + p;
    assert s - g == 256 * (k * 0x100_0000 - 100 * u);
    Multiple(s - g, k * 0x100_0000 - 100 * u);
    assert k * 0x40_0000 == 25 * u;
    NoFactor(k, u);
  }

  /** The platinum coins are the last byte of their number. */
  lemma {:induction false} PlatinumByte(q: nat)
    ensures StackOf(q % TWO_16) == q % 256
  {
    var p := q % TWO_16;
    assert q == p + 256 * (256 * (q / TWO_16));
    LastByte(p, 256 * (q / TWO_16));
    assert p < TWO_16 && p % TWO_16 == p;
  }

  lemma {:induction false} LastByte(p: nat, n: nat)
    ensures (p + 256 * n) % 256 == p % 256
  {
  }

  lemma {:induction false} Multiple(d: int, n: int)
    requires d == 256 * n && -256 < d < 256
    ensures n == 0
  {
  }

  lemma {:induction false} NoFactor(k: nat, u: nat)
    requires k * 0x40_0000 == 25 * u
    ensures k % 25 == 0
  {
    var v := u - 167772 * k;
    assert 4 * k == 25 * v;
    assert k == 25 * (19 * v - 3 * k);
  }

  /** What dropping and adding coins changes. */
  ghost predicate Given(m: Shape, n: Shape, to: Item, tile: seq<Pile>, tile': seq<Pile>, piles: seq<Pile>) {
    && Kept(m, n) && Local(m, n, {to}, null)
    && (forall f: Measure :: Total(n, f) + TileTotal(tile', f) == Total(m, f) + TileTotal(tile, f) + TileTotal(piles, f))
    && tile <= tile' && forall i :: |tile| <= i < |tile'| ==> 1 <= tile'[i].count <= 100
  }

  /** Gifts lose nothing of what is given, whatever is counted. */
  lemma {:induction false} GivesMean(owner: Owner, to: Item, flags: Flags, gifts: seq<Gift>, m: Shape, n: Shape, tile: seq<Pile>)
    requires Gives(owner, to, flags, gifts, m, n)
    ensures Given(m, n, to, tile, tile + Refused(gifts), Piles(gifts))
  {
    hide Given, Adds;
    if gifts == [] {
      GivenNothing(m, to, tile);
      assert tile + [] == tile;
    } else {
      var s, k := gifts[|gifts| - 1], gifts[..|gifts| - 1];
      GivesMean(owner, to, flags, k, m, s.before, tile);
      AddsMeans(owner, to, flags, s);
      hide Gives, Kept, Local;
      GivenMore(m, s.before, n, to, tile, tile + Refused(k), Piles(k), s.pile, s.code != NoError);
      Regroup(tile, Refused(k), [s.pile]);
      assert Refused(k) + [] == Refused(k);
    }
  }

  lemma {:induction false} GivenNothing(m: Shape, to: Item, tile: seq<Pile>)
    ensures Given(m, m, to, tile, tile, [])
  {
    LocalNothing(m, {to}, null);
  }

  lemma {:induction false} GivenMore(m: Shape, n: Shape, o: Shape, to: Item, tile: seq<Pile>, t1: seq<Pile>, piles: seq<Pile>,
                                     p: Pile, refused: bool)
    requires Given(m, n, to, tile, t1, piles) && Kept(n, o) && Local(n, o, {to}, null) && 1 <= p.count <= 100
    requires forall f: Measure :: Total(o, f) == Total(n, f) + if !refused then f(p.kind) * p.count else 0
    ensures Given(m, o, to, tile, if refused then t1 + [p] else t1, piles + [p])
  {
    LocalJoin(m, n, o, {to});
    hide Local;
    var t2 := if refused then t1 + [p] else t1;
    forall f: Measure ensures Total(o, f) + TileTotal(t2, f) == Total(m, f) + TileTotal(tile, f) + TileTotal(piles + [p], f) {
      TileMore(t1, p, f);
      TileMore(piles, p, f);
    }
  }

  // ---------- the stacks for an amount ----------

  /** So many coins in stacks of a hundred, the last one what is left. */
  function Rolls(kind: Kind, n: nat): seq<Pile> {
    if n == 0 then [] else [Pile(kind, Min(100, n))] + Rolls(kind, n - Min(100, n))
  }

  function One(kind: Kind, n: nat): seq<Pile> { if n == 0 then [] else [Pile(kind, n)] }

  /** The stacks that are made, in order. */
  function Stacks(mint: Mint, c: Change): seq<Pile> {
    Rolls(mint.crystal, c.crystal) + One(mint.platinum, c.platinum) + One(mint.gold, c.gold)
  }

  /** As few stacks as a hundred each allow: all but the last are full. */
  lemma {:induction false} RollsAre(kind: Kind, n: nat)
    ensures var l := Rolls(kind, n);
            && |l| == (n + 99) / 100
            && (forall i :: 0 <= i < |l| ==> l[i].kind == kind && 1 <= l[i].count <= 100)
            && (forall i :: 0 <= i < |l| - 1 ==> l[i].count == 100)
            && forall f: Measure :: TileTotal(l, f) == f(kind) * n
  {
    if n != 0 {
      var k: nat := Min(100, n);
      RollsAre(kind, n - k);
      var l := Rolls(kind, n - k);
      forall f: Measure ensures TileTotal([Pile(kind, k)] + l, f) == f(kind) * n {
        TileJoin([Pile(kind, k)], l, f);
        OneTotal(Pile(kind, k), f);
        assert f(kind) * n == f(kind) * k + f(kind) * (n - k);
      }
    }
  }

  lemma {:induction false} OneTotal(p: Pile, f: Measure)
    ensures TileTotal([p], f) == f(p.kind) * p.count
  {
    TileMore([], p, f);
    assert [] + [p] == [p];
  }

  lemma {:induction false} TileJoin(a: seq<Pile>, b: seq<Pile>, f: Measure)
    ensures TileTotal(a + b, f) == TileTotal(a, f) + TileTotal(b, f)
  {
    if b == [] {
      assert a + b == a;
    } else {
      var k, p := b[..|b| - 1], b[|b| - 1];
      TileJoin(a, k, f);
      TileMore(a + k, p, f);
      TileMore(k, p, f);
      assert a + b == a + k + [p] && b == k + [p];
    }
  }

  /** The stacks hold exactly that many coins of each kind. */
  lemma {:induction false} StacksTotal(mint: Mint, c: Change, f: Measure)
    ensures TileTotal(Stacks(mint, c), f) == f(mint.crystal) * c.crystal + f(mint.platinum) * c.platinum + f(mint.gold) * c.gold
  {
    var h, p, g := Rolls(mint.crystal, c.crystal), One(mint.platinum, c.platinum), One(mint.gold, c.gold);
    RollsAre(mint.crystal, c.crystal);
    TileJoin(h + p, g, f);
    TileJoin(h, p, f);
    OneTotal(Pile(mint.platinum, c.platinum), f);
    OneTotal(Pile(mint.gold, c.gold), f);
    hide Rolls;
  }

  /** A new stack of so many coins holds 1 to 100. */
  ghost predicate StackFits(n: nat) { n != 0 ==> 1 <= StackCount(n) <= 100 }

  /** The stacks of platinum and gold coins for an amount hold 1 to 100. */
  ghost predicate StacksFit(money: nat) {
    var left := LeftMoney(money);
    StackFits(PlatinumCoins(left)) && StackFits(RestMoney(left))
  }

  /** Below the limit they do. */
  lemma {:induction false} SmallFits(money: nat)
    requires money < LIMIT
    ensures StacksFit(money)
  {
    Crystals(money);
    Platinums(LeftMoney(money));
  }

  /** A stack of so many coins, if any, in the widths of the program. */
  method GiveSome(g: Game, to: Item, kind: Kind, n: nat, flags: Flags, tile: seq<Pile>, ghost l: Log)
    returns (tile': seq<Pile>, ghost l': Log)
    requires g.Valid() && to in g.world && to.container && Monotone(g.owner, to)
    requires Unit(kind) > 0 && StackFits(n) && l.Holds(g.owner, to, flags, g.Now(), tile)
    modifies g`rank, g`world, g.world
    ensures g.Valid() && old(g.world) <= g.world && fresh(g.world - old(g.world))
    ensures l'.Holds(g.owner, to, flags, g.Now(), tile') && l'.Follows(l, One(kind, StackOf(n)))
  {
    hide Good, Ledger, StackCount;
    tile', l' := tile, l;
    assert l.piles + [] == l.piles;
    if n != 0 {
      tile', l' := GiveCoins(g, to, kind, StackCount(n), flags, tile, l);
    }
  }

  /** Crystal coins in stacks of at most a hundred. */
  method GiveCrystals(g: Game, to: Item, coins: nat, flags: Flags, mint: Mint, tile: seq<Pile>, ghost l: Log)
    returns (tile': seq<Pile>, ghost l': Log)
    requires g.Valid() && to in g.world && to.container && Monotone(g.owner, to) && mint.Valid()
    requires l.Holds(g.owner, to, flags, g.Now(), tile)
    modifies g`rank, g`world, g.world
    ensures g.Valid() && old(g.world) <= g.world && fresh(g.world - old(g.world))
    ensures l'.Holds(g.owner, to, flags, g.Now(), tile') && l'.Follows(l, Rolls(mint.crystal, coins))
  {
    hide Good, Ledger, StackCount, Rolls;
    tile', l' := tile, l;
    var crystalCoins := coins;
    ghost var given: seq<Pile> := [];
    assert l.piles + [] == l.piles;
    while crystalCoins > 0
      invariant 0 <= crystalCoins <= coins
      invariant g.Valid() && old(g.world) <= g.world && fresh(g.world - old(g.world))
      invariant l'.Holds(g.owner, to, flags, g.Now(), tile') && l'.Follows(l, given)
      invariant given + Rolls(mint.crystal, crystalCoins) == Rolls(mint.crystal, coins)
    {
      var count := Min(100, crystalCoins);
      SmallStack(count);
      RollsStep(mint.crystal, crystalCoins);
      ghost var more := One(mint.crystal, count);
      Regroup(given, more, Rolls(mint.crystal, crystalCoins - count));
      Regroup(l.piles, given, more);
      tile', l' := GiveSome(g, to, mint.crystal, count, flags, tile', l');
      given := given + more;
      crystalCoins := crystalCoins - count;
    }
    RollsStep(mint.crystal, 0);
  }

  lemma {:induction false} RollsStep(kind: Kind, n: nat)
    ensures n == 0 ==> Rolls(kind, n) == []
    ensures n > 0 ==> Rolls(kind, n) == One(kind, Min(100, n)) + Rolls(kind, n - Min(100, n))
  {
  }

  /** Gives an amount in crystal, platinum and gold coins, as few stacks as can be; a stack lands on the
      tile exactly if adding it is refused. */
  method AddMoney(g: Game, to: Item, money: nat, flags: Flags, mint: Mint, tile: seq<Pile>)
    returns (tile': seq<Pile>, ghost gifts: seq<Gift>)
    requires g.Valid() && to in g.world && to.container && Monotone(g.owner, to) && mint.Valid() && StacksFit(money)
    modifies g`rank, g`world, g.world
    ensures g.Valid() && old(g.world) <= g.world && fresh(g.world - old(g.world))
    ensures Ledger(g.owner, to, flags, gifts, old(g.Now()), g.Now(), Stacks(mint, Minted(money)), tile, tile')
    ensures Given(old(g.Now()), g.Now(), to, tile, tile', Stacks(mint, Minted(money)))
    ensures forall f: Measure ::
              Total(g.Now(), f) + TileTotal(tile', f) ==
              Total(old(g.Now()), f) + TileTotal(tile, f) + f(mint.crystal) * Minted(money).crystal
              + f(mint.platinum) * Minted(money).platinum + f(mint.gold) * Minted(money).gold
    ensures ChangeWorth(Minted(money)) == money <==> Right(money)
  {
    hide *;
    MintedExactly(money);
    tile', gifts := AddCoins(g, to, money, flags, mint, tile);
    LedgerMeans(g.owner, to, flags, gifts, old(g.Now()), g.Now(), mint, Minted(money), tile, tile');
  }

  /** The stacks, one after the other. */
  method AddCoins(g: Game, to: Item, money: nat, flags: Flags, mint: Mint, tile: seq<Pile>)
    returns (tile': seq<Pile>, ghost gifts: seq<Gift>)
    requires g.Valid() && to in g.world && to.container && Monotone(g.owner, to) && mint.Valid() && StacksFit(money)
    modifies g`rank, g`world, g.world
    ensures g.Valid() && old(g.world) <= g.world && fresh(g.world - old(g.world))
    ensures Ledger(g.owner, to, flags, gifts, old(g.Now()), g.Now(), Stacks(mint, Minted(money)), tile, tile')
  {
    tile', gifts := tile, [];
    LedgerStarts(g.owner, to, flags, g.Now(), tile);
    hide Good, Stacks, StackCount, StackFits, CrystalCoins, LeftMoney, PlatinumCoins, RestMoney, Ledger;
    if money == 0 {
      NothingMinted(mint, money);
      return;
    }
    ghost var l := Log([], g.Now(), [], tile);
    var crystalCoins := CrystalCoins(money);
    var left := LeftMoney(money);
    var platinumCoins := PlatinumCoins(left);
    tile', l := GiveAll(g, to, crystalCoins, platinumCoins, RestMoney(left), flags, mint, tile, l);
    gifts := l.gifts;
  }

  lemma {:induction false} NothingMinted(mint: Mint, money: nat)
    requires money == 0
    ensures Stacks(mint, Minted(money)) == []
  {
    hide Minted;
    MintedExact(money);
  }

  lemma {:induction false} LedgerMeans(owner: Owner, to: Item, flags: Flags, gifts: seq<Gift>, m: Shape, n: Shape, mint: Mint, c: Change,
                                       tile: seq<Pile>, tile': seq<Pile>)
    requires Ledger(owner, to, flags, gifts, m, n, Stacks(mint, c), tile, tile')
    ensures Given(m, n, to, tile, tile', Stacks(mint, c))
    ensures forall f: Measure ::
              Total(n, f) + TileTotal(tile', f) == Total(m, f) + TileTotal(tile, f) + f(mint.crystal) * c.crystal
                                                   + f(mint.platinum) * c.platinum + f(mint.gold) * c.gold
  {
    GivesMean(owner, to, flags, gifts, m, n, tile);
    hide Ledger, Stacks;
    forall f: Measure
      ensures Total(n, f) + TileTotal(tile', f) == Total(m, f) + TileTotal(tile, f) + f(mint.crystal) * c.crystal
                                                   + f(mint.platinum) * c.platinum + f(mint.gold) * c.gold
    {
      StacksTotal(mint, c, f);
    }
  }

  /** Crystal coins, platinum coins and the rest in gold, one kind after the other. */
  method GiveAll(g: Game, to: Item, crystal: nat, platinum: nat, rest: nat, flags: Flags, mint: Mint, tile: seq<Pile>, ghost l: Log)
    returns (tile': seq<Pile>, ghost l': Log)
    requires g.Valid() && to in g.world && to.container && Monotone(g.owner, to) && mint.Valid()
    requires StackFits(platinum) && StackFits(rest) && l.Holds(g.owner, to, flags, g.Now(), tile)
    modifies g`rank, g`world, g.world
    ensures g.Valid() && old(g.world) <= g.world && fresh(g.world - old(g.world))
    ensures l'.Holds(g.owner, to, flags, g.Now(), tile')
    ensures l'.Follows(l, Stacks(mint, Change(crystal, StackOf(platinum), StackOf(rest))))
  {
    hide Good, Ledger, StackCount, StackFits, Rolls, One;
    tile', l' := GiveCrystals(g, to, crystal, flags, mint, tile, l);
    tile', l' := GiveSome(g, to, mint.platinum, platinum, flags, tile', l');
    tile', l' := GiveSome(g, to, mint.gold, rest, flags, tile', l');
    ghost var h, p, c := Rolls(mint.crystal, crystal), One(mint.platinum, StackOf(platinum)), One(mint.gold, StackOf(rest));
    Regroup(l.piles, h, p);
    Regroup(l.piles, h + p, c);
  }
}
