/** Whole runs of moves: what single moves keep, any number of them keeps. */
module MoveRuns {

  import opened Basics
  import opened ItemHeap
  import opened ItemMoves
  import opened ItemAdding

  /** A move as a client may ask for it: items and containers by their numbers in a list of what
      the client knows. */
  datatype Order = Order(from: nat, to: nat, index: int, x: nat, n: nat, flags: Flags, trade: Option<nat>)

  predicate Names(o: Order, known: seq<Item>) {
    && o.from < |known| && o.to < |known| && o.x < |known| && known[o.to].container
    && (o.trade.Some? ==> o.trade.value < |known|)
  }

  function Traded(o: Order, known: seq<Item>): Item?
    requires Names(o, known)
  {
    if o.trade.None? then null else known[o.trade.value]
  }

  /** All items, how they are ranked, and those the client knows. */
  datatype State = State(shape: Shape, rank: Ranks, known: seq<Item>)

  ghost predicate Known(s: State) {
    forall x :: x in s.known ==> x in s.shape
  }

  /** What one order does: one that names nothing the client knows is refused; after any other the
      client also knows the item that was moved or made. */
  ghost predicate Does(owner: Owner, s: State, o: Order, t: State, code: Code, moved: Item?) {
    if !Names(o, s.known) then t == s && code == NotPossible && moved == null
    else
      && Known(s) && Linked(s.shape) && Ranked(s.shape, s.rank)
      && t.known == s.known + (if moved == null then [] else [moved])
      && CarriedOut(owner, s, o, t.shape, code, moved)
  }

  ghost predicate CarriedOut(owner: Owner, s: State, o: Order, n: Shape, code: Code, moved: Item?)
    requires Names(o, s.known) && Known(s) && Linked(s.shape) && Ranked(s.shape, s.rank)
  {
    var m, from, to, x, trade := s.shape, s.known[o.from], s.known[o.to], s.known[o.x], Traded(o, s.known);
    var route := Resolve(m, to, o.index, x, o.flags, MAP_MAX_LAYERS);
    && PlaceOk(m, route.place, x)
    && var amount := Granted(m, s.rank, owner, from, route, x, o.n, trade);
       && code == MoveCode(m, s.rank, owner, from, route, x, o.n, trade)
       && Carried(m, n, from, route.place, x, amount, moved) && Handed(m, n, route.place, x, amount, moved)
  }

  /** Each order leads from one state to the next. */
  ghost predicate Runs(owner: Owner, trace: seq<State>, orders: seq<Order>, codes: seq<Code>, moved: seq<Item?>) {
    && |codes| <= |orders| && |moved| == |codes| && |trace| == |codes| + 1
    && forall i {:trigger orders[i]} :: 0 <= i < |codes| ==> Does(owner, trace[i], orders[i], trace[i + 1], codes[i], moved[i])
  }

  ghost predicate NoRune(t: Thing) { !(t.kind.stackable && t.kind.rune) }

  ghost predicate NoRunes(m: Shape) {
    forall x {:trigger NoRune(m[x])} :: x in m ==> NoRune(m[x])
  }

  /** A move makes no item of a new kind. */
  lemma {:induction false} KindsStay(m: Shape, n: Shape, from: Item, place: Place, x: Item, moved: nat, y: Item?)
    requires x in m && PlaceOk(m, place, x) && Carried(m, n, from, place, x, moved, y) && NoRunes(m)
    ensures NoRunes(n)
  {
    hide Moved, Fell, SameTotals, NoRunes, TakenOut;
    if moved > 0 {
      if m[x].kind.stackable {
        FilledKinds(m, from, place, x, moved);
        AddedKinds(m, n, from, place, x, moved, y);
      } else {
        TakenKinds(m, from, x, 1);
        AttachKinds(TakenOut(m, from, x, 1), place.container, x);
      }
    }
  }

  lemma {:induction false} TakenKinds(m: Shape, from: Item, x: Item, amount: nat)
    requires from in m && x in m && (m[x].kind.stackable ==> amount <= m[x].count) && NoRunes(m)
    ensures var n := TakenOut(m, from, x, amount);
            NoRunes(n) && n.Keys == m.Keys && n[x].kind == m[x].kind
  {
    var n := TakenOut(m, from, x, amount);
    forall z | z in n ensures NoRune(n[z]) {
      assert NoRune(m[z]);
    }
  }

  lemma {:induction false} AttachKinds(m: Shape, c: Item, x: Item)
    requires c in m && x in m && NoRunes(m)
    ensures NoRunes(Attach(m, c, x))
  {
    var n := Attach(m, c, x);
    forall z | z in n ensures NoRune(n[z]) {
      assert NoRune(m[z]);
    }
  }

  lemma {:induction false} FilledKinds(m: Shape, from: Item, place: Place, x: Item, amount: nat)
    requires from in m && x in m && (place.item != null ==> place.item in m) && amount <= m[x].count && NoRunes(m)
    ensures NoRunes(FilledShape(m, from, place, x, amount))
  {
    TakenKinds(m, from, x, amount);
    var m1, n := TakenOut(m, from, x, amount), FilledShape(m, from, place, x, amount);
    hide TakenOut;
    forall z | z in n ensures NoRune(n[z]) {
      assert NoRune(m1[z]);
    }
  }

  lemma {:induction false} AddedKinds(m: Shape, n: Shape, from: Item, place: Place, x: Item, moved: nat, y: Item?)
    requires x in m && PlaceOk(m, place, x) && StackWent(m, n, from, place, x, moved, y) && NoRunes(m)
    requires NoRunes(FilledShape(m, from, place, x, moved))
    ensures NoRunes(n)
  {
    assert NoRune(m[x]);
    var m2 := FilledShape(m, from, place, x, moved);
    hide FilledShape, Moved, Fell, PlaceOk;
    forall z | z in n ensures NoRune(n[z]) {
      if z in m2 { assert NoRune(m2[z]); }
    }
  }

  lemma {:induction false} TotalsThen(m: Shape, n: Shape, o: Shape)
    requires SameTotals(m, n) && SameTotals(n, o)
    ensures SameTotals(m, o)
  {
  }

  lemma {:induction false} AtRest(m: Shape)
    ensures SameTotals(m, m) && WithinCapacity(m, m)
  {
  }

  ghost function StateOf(g: Game, known: seq<Item>): State
    reads g, g.world
  {
    State(g.Now(), g.rank, known)
  }

  lemma {:induction false} NowKnows(g: Game, known: seq<Item>)
    requires g.Valid()
    ensures Known(StateOf(g, known)) <==> forall x :: x in known ==> x in g.world
    ensures Linked(g.Now()) && Ranked(g.Now(), g.rank)
  {
  }

  lemma {:induction false} HandedIn(m: Shape, n: Shape, place: Place, x: Item, amount: nat, moved: Item?)
    requires x in m && (place.item != null ==> place.item in m) && Handed(m, n, place, x, amount, moved)
    ensures moved != null ==> moved in n
  {
  }

  /** An order that names what the client knows, among items none of which is a rune. */
  method MoveOne(g: Game, known: seq<Item>, o: Order) returns (code: Code, moved: Item?)
    requires g.Valid() && NoRunes(g.Now()) && Known(StateOf(g, known)) && Names(o, known)
    modifies g`rank, g`world, g.world
    ensures g.Valid() && old(g.world) <= g.world && fresh(g.world - old(g.world))
    ensures NoRunes(g.Now()) && SameTotals(old(g.Now()), g.Now()) && WithinCapacity(old(g.Now()), g.Now())
    ensures Known(old(StateOf(g, known))) && Linked(old(g.Now())) && Ranked(old(g.Now()), old(g.rank))
    ensures CarriedOut(g.owner, old(StateOf(g, known)), o, g.Now(), code, moved)
    ensures old(g.Now()).Keys <= g.Now().Keys && (moved != null ==> moved in g.world)
  {
    ghost var m := g.Now();
    NowKnows(g, known);
    var from, to, x, trade := known[o.from], known[o.to], known[o.x], Traded(o, known);
    assert NoRune(m[x]);
    ghost var place := Resolve(m, to, o.index, x, o.flags, MAP_MAX_LAYERS).place;
    hide Good, Resolve, Granted, Carried, Handed, SameTotals, WithinCapacity, NoRunes, PlaceOk;
    ghost var amount;
    code, moved, amount := g.InternalMoveItem(from, to, o.index, x, o.n, o.flags, trade);
    KindsStay(m, g.Now(), from, place, x, amount, moved);
    HandedIn(m, g.Now(), place, x, amount, moved);
  }

  /** One order; the client goes on to know what was moved. */
  method TakeOrder(g: Game, known: seq<Item>, o: Order) returns (code: Code, moved: Item?, known': seq<Item>)
    requires g.Valid() && NoRunes(g.Now()) && Known(StateOf(g, known))
    modifies g`rank, g`world, g.world
    ensures g.Valid() && old(g.world) <= g.world && fresh(g.world - old(g.world))
    ensures NoRunes(g.Now()) && SameTotals(old(g.Now()), g.Now()) && WithinCapacity(old(g.Now()), g.Now())
    ensures Known(StateOf(g, known')) && Does(g.owner, old(StateOf(g, known)), o, StateOf(g, known'), code, moved)
    ensures old(g.Now()).Keys <= g.Now().Keys
  {
    hide Good, SameTotals, WithinCapacity, NoRunes, CarriedOut;
    if !Names(o, known) {
      AtRest(g.Now());
      return NotPossible, null, known;
    }
    NowKnows(g, known);
    code, moved := MoveOne(g, known, o);
    known' := known + if moved == null then [] else [moved];
    NowKnows(g, known');
  }

  /** After any run of moves, of items known before and of those made in the run, containment is a
      forest, every cached weight is right, every stack within bounds, each kind as numerous as
      before, and no container overfull that was not. */
  method MoveAll(g: Game, known: seq<Item>, orders: seq<Order>)
    returns (codes: seq<Code>, moved: seq<Item?>, known': seq<Item>, ghost trace: seq<State>)
    requires g.Valid() && NoRunes(g.Now()) && Known(StateOf(g, known))
    modifies g`rank, g`world, g.world
    ensures g.Valid() && |codes| == |orders| && Runs(g.owner, trace, orders, codes, moved)
    ensures trace[0] == old(StateOf(g, known)) && trace[|orders|] == StateOf(g, known')
    ensures SameTotals(old(g.Now()), g.Now()) && WithinCapacity(old(g.Now()), g.Now())
  {
    hide Good, SameTotals, WithinCapacity, NoRunes, Does, Known;
    codes, moved, known', trace := [], [], known, [StateOf(g, known)];
    AtRest(g.Now());
    while |codes| < |orders|
      invariant g.Valid() && NoRunes(g.Now()) && Known(StateOf(g, known'))
      invariant old(g.world) <= g.world && fresh(g.world - old(g.world))
      invariant old(g.Now()).Keys <= g.Now().Keys
      invariant Runs(g.owner, trace, orders, codes, moved)
      invariant trace[0] == old(StateOf(g, known)) && trace[|codes|] == StateOf(g, known')
      invariant SameTotals(old(g.Now()), g.Now()) && WithinCapacity(old(g.Now()), g.Now())
    {
      ghost var m := g.Now();
      var code, item;
      code, item, known' := TakeOrder(g, known', orders[|codes|]);
      TotalsThen(old(g.Now()), m, g.Now());
      WithinThen(old(g.Now()), m, g.Now());
      codes, moved, trace := codes + [code], moved + [item], trace + [StateOf(g, known')];
    }
  }
}
