/**
  Adding items to containers: a stack is spread over the stacks that have room, by a recursive
  call for each remainder.
 */
module ItemAdding {

  import opened Basics
  import opened ItemHeap
  import opened ItemMoves

  /** The carrier of `c` takes any amount less than one that it takes. */
  ghost predicate Monotone(owner: Owner, c: Item) {
    forall k, n: nat, n': nat :: owner(c, k, n) == NoError && n' <= n ==> owner(c, k, n') == NoError
  }

  /** The answer to adding the whole of `x`. */
  ghost function AddResult(m: Shape, rank: Ranks, owner: Owner, to: Item, index: int, x: Item, autoStack: bool): Code
    requires Linked(m) && Ranked(m, rank) && to in m && x in m && to.container
  {
    DestinationOk(m, to, index, x, autoStack);
    var p := Destination(m, to, index, x, autoStack);
    var code := AddCode(m, rank, owner, p.container, p.index == WHEREEVER, x, m[x].count);
    var max := MaxCount(m, rank, owner, to, WHEREEVER, x);
    if code != NoError then code
    else if (if m[x].kind.stackable then max < m[x].count else max == 0) then ContainerNotEnoughRoom
    else NoError
  }

  /** The stack at this place takes some of `x`. */
  ghost predicate TakesSome(m: Shape, p: Place, x: Item)
    requires x in m
  {
    m[x].kind.stackable && p.item != null && p.item in m && m[p.item].kind == m[x].kind && m[p.item].count < 100
  }

  lemma {:induction false} RoomNone(m: Shape, rank: Ranks, owner: Owner, c: Item, l: seq<Item>, x: Item)
    requires Ranked(m, rank) && c in m && x in m && forall y :: y in l ==> y in m && !Fits(m, y, x)
    ensures StackRoom(m, rank, owner, c, l, x) == 0
  {
    if l != [] { RoomNone(m, rank, owner, c, l[..|l| - 1], x); }
  }

  /** An item that does not go onto a stack finds a free slot, but for runes or where stacking is off. */
  lemma {:induction false} AddFits(m: Shape, rank: Ranks, owner: Owner, to: Item, index: int, x: Item)
    requires Linked(m) && Ranked(m, rank) && to in m && x in m && to.container && m[x].parent == null
    requires m[x].kind.stackable ==> m[x].count > 0
    requires AddResult(m, rank, owner, to, index, x, true) == NoError
    ensures var p := Destination(m, to, index, x, true);
            PlaceOk(m, p, x) && (!TakesSome(m, p, x) ==> |m[p.container].list| < p.container.capacity)
  {
    DestinationOk(m, to, index, x, true);
    ListIn(m, to);
    var p := Destination(m, to, index, x, true);
    hide Linked, Ranked, Above;
    if p.container == to && p.index != WHEREEVER && m[x].kind.stackable && !TakesSome(m, p, x) {
      RoomNone(m, rank, owner, to, m[to].list, x);
    }
  }

  // ---------- the remainder ----------

  /** `m` with stack `t` filled up and the remainder of `x` as a new item `y`. */
  ghost function Topped(m: Shape, t: Item, y: Item, kind: Kind, rest: nat): Shape
    requires t in m
  {
    Retype(m, t, kind, 100)[y := Thing(kind, rest, null, [])]
  }

  /** The answers for the remainder are those for the item, by amount. */
  ghost predicate SameAnswers(m: Shape, rank: Ranks, m3: Shape, rank3: Ranks, owner: Owner, c: Item, x: Item, y: Item)
    requires Ranked(m, rank) && Ranked(m3, rank3) && c in m && c in m3 && x in m && y in m3
  {
    forall n: nat :: AddCode(m3, rank3, owner, c, false, y, n) == AddCode(m, rank, owner, c, false, x, n)
  }

  lemma {:induction false} RoomAfter(m: Shape, rank: Ranks, m3: Shape, rank3: Ranks, owner: Owner, c: Item, l: seq<Item>,
                                     x: Item, y: Item, t: Item, rest: nat)
    requires Ranked(m, rank) && Ranked(m3, rank3) && c in m && x in m && t in m && y !in m
    requires m3 == Topped(m, t, y, m[x].kind, rest) && m[t].count <= 100
    requires SameAnswers(m, rank, m3, rank3, owner, c, x, y)
    requires Distinct(l) && forall z :: z in l ==> z in m && z != x
    ensures forall z :: z in l ==> z in m3
    ensures StackRoom(m3, rank3, owner, c, l, y) >=
            StackRoom(m, rank, owner, c, l, x) - if t in l then 100 - m[t].count else 0
  {
    if l != [] {
      var z := l[|l| - 1];
      var rest' := l[..|l| - 1];
      assert l == rest' + [z] && z !in rest';
      RoomAfter(m, rank, m3, rank3, owner, c, rest', x, y, t, rest);
      RoomAlso(m, rank, owner, c, rest', z, x);
      RoomAlso(m3, rank3, owner, c, rest', z, y);
    }
  }

  lemma {:induction false} Topping(m: Shape, rank: Ranks, w: Weights, owner: Owner, c: Item, x: Item, y: Item, t: Item, rest: nat)
    requires Good(m, rank, w) && c in m && x in m && m[x].parent == null && y !in m && t in m[c].list && t in m
    requires m[t].kind == m[x].kind && m[x].kind.stackable && x !in Above(m, rank, c)
    requires var m3 := Topped(m, t, y, m[x].kind, rest); Ranked(m3, rank[y := 0])
    ensures SameAnswers(m, rank, Topped(m, t, y, m[x].kind, rest), rank[y := 0], owner, c, x, y)
    ensures y !in Above(Topped(m, t, y, m[x].kind, rest), rank[y := 0], c)
  {
    var m3 := Topped(m, t, y, m[x].kind, rest);
    AboveAgree(m, rank, m3, rank[y := 0], c);
  }

  lemma {:induction false} RemainderRoom(m: Shape, rank: Ranks, w: Weights, owner: Owner, to: Item, x: Item, y: Item, t: Item)
    requires Good(m, rank, w) && to in m && x in m && m[x].parent == null && y !in m && t in m[to].list && t in m
    requires m[t].kind == m[x].kind && m[x].kind.stackable && x !in Above(m, rank, to)
    requires m[t].count < 100 && m[x].count > 100 - m[t].count
    requires var m3 := Topped(m, t, y, m[x].kind, m[x].count - (100 - m[t].count));
             Linked(m3) && Ranked(m3, rank[y := 0])
    ensures var m3 := Topped(m, t, y, m[x].kind, m[x].count - (100 - m[t].count));
            && MaxCount(m3, rank[y := 0], owner, to, WHEREEVER, y) >=
               MaxCount(m, rank, owner, to, WHEREEVER, x) - (100 - m[t].count)
            && y !in Above(m3, rank[y := 0], to) && m3[to] == m[to]
  {
    var rest := m[x].count - (100 - m[t].count);
    var m3 := Topped(m, t, y, m[x].kind, rest);
    assert ListOk(m, to) && ListOk(m, t);
    Topping(m, rank, w, owner, to, x, y, t, rest);
    BelowRanks(m, rank, to);
    hide Linked, Ranked, Above, AddCode, SameAnswers;
    RoomAfter(m, rank, m3, rank[y := 0], owner, to, m[to].list, x, y, t, rest);
  }

  /** After a stack is filled up, the remainder is taken as well; with stacking off, exactly if a
      slot is free. */
  lemma {:induction false} RemainderFits(m: Shape, rank: Ranks, w: Weights, owner: Owner, to: Item, index: int, x: Item, y: Item,
                                         autoStack: bool)
    requires Good(m, rank, w) && to in m && x in m && to.container && m[x].parent == null && y !in m
    requires m[x].kind.stackable && Monotone(owner, to)
    requires AddResult(m, rank, owner, to, index, x, autoStack) == NoError
    requires var p := Destination(m, to, index, x, autoStack);
             && TakesSome(m, p, x) && 100 - m[p.item].count < m[x].count
             && var m3 := Topped(m, p.item, y, m[x].kind, m[x].count - (100 - m[p.item].count));
                Linked(m3) && Ranked(m3, rank[y := 0])
    ensures var p := Destination(m, to, index, x, autoStack);
            var m3 := Topped(m, p.item, y, m[x].kind, m[x].count - (100 - m[p.item].count));
            && to in m3
            && AddResult(m3, rank[y := 0], owner, to, WHEREEVER, y, autoStack) ==
               if !autoStack && |m[to].list| >= to.capacity then ContainerNotEnoughRoom else NoError
  {
    DestinationOk(m, to, index, x, autoStack);
    var p := Destination(m, to, index, x, autoStack);
    var rest := m[x].count - (100 - m[p.item].count);
    var m3, r3 := Topped(m, p.item, y, m[x].kind, rest), rank[y := 0];
    ListIn(m, to);
    assert p.container == to && p.item in m[to].list;
    RemainderRoom(m, rank, w, owner, to, x, y, p.item);
    DestinationOk(m3, to, WHEREEVER, y, autoStack);
    ListIn(m3, to);
    var p3 := Destination(m3, to, WHEREEVER, y, autoStack);
    assert p3.container == to && (!autoStack ==> p3.index == WHEREEVER);
    assert owner(to, m[x].kind, rest) == NoError;
    hide Linked, Ranked, Above, Destination;
    if autoStack && p3.index == WHEREEVER {
      RoomNone(m3, r3, owner, to, m3[to].list, y);
    }
  }

  // ---------- adding ----------

  /** Containers hold so many more of a kind and the same of every other. */
  ghost predicate Gained(m: Shape, n: Shape, kind: Kind, d: int) {
    Kept(m, n) && forall f :: Total(n, f) == Total(m, f) + f(kind) * d
  }

  /** Whatever lay in a container still does, and no stack got smaller. */
  ghost predicate Kept(m: Shape, n: Shape) {
    && m.Keys <= n.Keys
    && forall z :: z in m && m[z].parent != null ==> n[z].kind == m[z].kind && n[z].parent == m[z].parent && n[z].count >= m[z].count
  }

  /** Nothing changed but in front of the lists of `here`, on stacks that lie there, and at `x`. */
  ghost predicate Local(m: Shape, n: Shape, here: set<Item>, x: Item?) {
    m.Keys <= n.Keys && forall z {:trigger LocalAt(m, n, here, x, z)} :: z in m ==> LocalAt(m, n, here, x, z)
  }

  ghost predicate LocalAt(m: Shape, n: Shape, here: set<Item>, x: Item?, z: Item)
    requires z in m && z in n
  {
    && Ends(m[z].list, n[z].list) && (z !in here ==> n[z].list == m[z].list)
    && (z != x && m[z].parent !in here ==> n[z] == m[z].(list := n[z].list))
  }

  ghost predicate Ends(k: seq<Item>, l: seq<Item>) {
    |k| <= |l| && l[|l| - |k|..] == k
  }

  lemma {:induction false} LocalNothing(m: Shape, here: set<Item>, x: Item?)
    ensures Local(m, m, here, x)
  {
    forall z | z in m ensures LocalAt(m, m, here, x, z) {
    }
  }

  lemma {:induction false} LocalAttach(m: Shape, c: Item, x: Item, here: set<Item>)
    requires c in m && x in m && c != x && m[x].parent == null && c in here
    ensures Local(m, Attach(m, c, x), here, x)
  {
    var n := Attach(m, c, x);
    forall z | z in m ensures LocalAt(m, n, here, x, z) {
      assert n[c].list[1..] == m[c].list;
    }
  }

  lemma {:induction false} LocalFill(m: Shape, t: Item, count: nat, here: set<Item>, x: Item?)
    requires t in m && m[t].parent in here
    ensures Local(m, Retype(m, t, m[t].kind, count), here, x)
  {
    var n := Retype(m, t, m[t].kind, count);
    forall z | z in m ensures LocalAt(m, n, here, x, z) {
    }
  }

  lemma {:induction false} LocalTopped(m: Shape, t: Item, y: Item, kind: Kind, rest: nat, here: set<Item>, x: Item?)
    requires t in m && m[t].parent in here && y !in m && m[t].kind == kind
    ensures Local(m, Topped(m, t, y, kind, rest), here, x)
  {
    var n := Topped(m, t, y, kind, rest);
    forall z | z in m ensures LocalAt(m, n, here, x, z) {
    }
  }

  /** Adding a remainder `y` that was not there before leaves the rest to the same places. */
  lemma {:induction false} LocalThen(m: Shape, m3: Shape, n: Shape, here: set<Item>, x: Item, y: Item)
    requires Local(m, m3, here, x) && Local(m3, n, here, y) && y !in m
    ensures Local(m, n, here, x)
  {
    forall z | z in m ensures LocalAt(m, n, here, x, z) {
      assert LocalAt(m, m3, here, x, z) && LocalAt(m3, n, here, y, z);
      var k, l, o := m[z].list, m3[z].list, n[z].list;
      assert o[|o| - |k|..] == o[|o| - |l|..][|l| - |k|..];
    }
  }

  lemma {:induction false} LocalJoin(m: Shape, n: Shape, o: Shape, here: set<Item>)
    requires Local(m, n, here, null) && Local(n, o, here, null)
    ensures Local(m, o, here, null)
  {
    forall z | z in m ensures LocalAt(m, o, here, null, z) {
      assert LocalAt(m, n, here, null, z) && LocalAt(n, o, here, null, z);
      var k, l, p := m[z].list, n[z].list, o[z].list;
      assert p[|p| - |k|..] == p[|p| - |l|..][|l| - |k|..];
    }
  }

  /** Adding a new item `y` changes nothing else. */
  lemma {:induction false} LocalNew(m: Shape, m1: Shape, n: Shape, here: set<Item>, y: Item)
    requires y !in m && y in m1 && m1 == m[y := m1[y]] && Local(m1, n, here, y)
    ensures Local(m, n, here, null)
  {
    forall z | z in m ensures LocalAt(m, n, here, null, z) {
      assert LocalAt(m1, n, here, y, z);
    }
  }

  lemma {:induction false} GainedThen(m: Shape, n: Shape, o: Shape, kind: Kind, d: int, e: int)
    requires Gained(m, n, kind, d) && Gained(n, o, kind, e)
    ensures Gained(m, o, kind, d + e)
  {
    forall f: Measure ensures Total(o, f) == Total(m, f) + f(kind) * (d + e) {
      assert f(kind) * (d + e) == f(kind) * d + f(kind) * e;
    }
  }

  lemma {:induction false} AttachGain(m: Shape, c: Item, x: Item)
    requires c in m && x in m && c != x && m[x].parent == null
    ensures Gained(m, Attach(m, c, x), m[x].kind, m[x].count)
    ensures WithinCapacity(m, Attach(m, c, x)) <==> |m[c].list| < c.capacity
  {
    var n := Attach(m, c, x);
    assert c in n && |n[c].list| == |m[c].list| + 1;
    forall f: Measure ensures Total(n, f) == Total(m, f) + f(m[x].kind) * m[x].count {
      AttachTotal(m, c, x, f);
    }
  }

  lemma {:induction false} FillGain(m: Shape, t: Item, count: nat)
    requires t in m && m[t].parent != null && count >= m[t].count
    ensures Gained(m, Retype(m, t, m[t].kind, count), m[t].kind, count - m[t].count)
    ensures WithinCapacity(m, Retype(m, t, m[t].kind, count))
  {
    forall f: Measure ensures Total(Retype(m, t, m[t].kind, count), f) == Total(m, f) + f(m[t].kind) * (count - m[t].count) {
      RecountTotal(m, t, count, f);
    }
  }

  lemma {:induction false} NewGain(m: Shape, y: Item, t: Thing, kind: Kind)
    requires y !in m && t.parent == null && t.list == []
    ensures Gained(m, m[y := t], kind, 0) && WithinCapacity(m, m[y := t])
  {
    forall f: Measure ensures Total(m[y := t], f) == Total(m, f) + f(kind) * 0 {
      TotalPut(m, y, t, f);
    }
  }

  lemma {:induction false} WithinThen(m: Shape, n: Shape, o: Shape)
    requires m.Keys <= n.Keys && WithinCapacity(m, n) && WithinCapacity(n, o)
    ensures WithinCapacity(m, o)
  {
  }

  /** A rune directed to a stack that lies beyond the capacity is dropped. */
  ghost predicate RuneLost(m: Shape, p: Place, x: Item)
    requires x in m
  {
    m[x].kind.stackable && m[x].kind.rune && p.index >= p.container.capacity
  }

  /** Asks for the place and whether all of `x` may go there. */
  method CheckAdd(g: Game, to: Item, x: Item, index: int, autoStack: bool) returns (code: Code, place: Place)
    requires g.Valid() && to in g.world && x in g.world && to.container
    ensures place == Destination(g.Now(), to, index, x, autoStack) && PlaceOk(g.Now(), place, x)
    ensures code == AddResult(g.Now(), g.rank, g.owner, to, index, x, autoStack)
  {
    DestinationOk(g.Now(), to, index, x, autoStack);
    place := g.QueryDestination(to, index, x, autoStack);
    hide Good, Destination, AddCode, MaxCount, Linked, Ranked;
    code := g.QueryAdd(place.container, place.index, x, x.count);
    if code != NoError {
      return;
    }
    var max;
    code, max := g.QueryMaxCount(to, WHEREEVER, x, x.count);
  }

  /** Some of `x` goes onto the stack at this place; runes never do. */
  ghost predicate Onto(m: Shape, p: Place, x: Item)
    requires x in m
  {
    !m[x].kind.rune && TakesSome(m, p, x)
  }

  /** What finds no place: with stacking off and the container full, all that does not go onto the stack. */
  ghost function Remains(m: Shape, to: Item, p: Place, x: Item, flags: Flags): nat
    requires x in m && to in m
  {
    if Onto(m, p, x) && flags.ignoreAutoStack && |m[to].list| >= to.capacity
    then Max(0, m[x].count - (100 - m[p.item].count)) else 0
  }

  /** An item that goes to a place of its own in a container that is full. */
  ghost predicate AddOverfills(m: Shape, p: Place, x: Item)
    requires x in m && p.container in m
  {
    !Onto(m, p, x) && p.index < p.container.capacity <= |m[p.container].list|
  }

  /** An item that may go anywhere leaves no remainder and, but for runes, overfills nothing. */
  lemma {:induction false} AnywhereFits(m: Shape, rank: Ranks, owner: Owner, to: Item, x: Item, flags: Flags)
    requires Linked(m) && Ranked(m, rank) && to in m && x in m && to.container && m[x].parent == null && StackOk(m[x])
    requires AddResult(m, rank, owner, to, WHEREEVER, x, !flags.ignoreAutoStack) == NoError
    ensures var p := Destination(m, to, WHEREEVER, x, !flags.ignoreAutoStack);
            && p.container == to && Remains(m, to, p, x, flags) == 0
            && (!(m[x].kind.stackable && m[x].kind.rune) ==> !AddOverfills(m, p, x))
  {
    StaysHere(m, to, x, !flags.ignoreAutoStack);
    if !flags.ignoreAutoStack { AddFits(m, rank, owner, to, WHEREEVER, x); }
    else { ListIn(m, to); }
  }

  /** With stacking on, only runes overfill a container, and nothing remains. */
  lemma {:induction false} StackingFits(m: Shape, rank: Ranks, owner: Owner, to: Item, index: int, x: Item)
    requires Linked(m) && Ranked(m, rank) && to in m && x in m && to.container && m[x].parent == null && StackOk(m[x])
    requires AddResult(m, rank, owner, to, index, x, true) == NoError
    ensures var p := Destination(m, to, index, x, true);
            && p.container in m && Remains(m, to, p, x, Flags(false, false)) == 0
            && (AddOverfills(m, p, x) ==> m[x].kind.stackable && m[x].kind.rune)
  {
    AddFits(m, rank, owner, to, index, x);
  }

  /** What adding does: refused, it changes nothing; else containers gain all of `x` but for what
      remains, and a container gets overfull exactly if it was full and the item got a place of its own. */
  ghost predicate AddDone(m: Shape, n: Shape, rank: Ranks, owner: Owner, to: Item, index: int, x: Item, flags: Flags,
                          test: bool, code: Code, remainder: nat)
  {
    && Linked(m) && Ranked(m, rank) && to in m && x in m && to.container
    && code == AddResult(m, rank, owner, to, index, x, !flags.ignoreAutoStack)
    && if code != NoError || test then n == m && remainder == 0
       else AddedAt(m, n, to, Destination(m, to, index, x, !flags.ignoreAutoStack), x, flags, remainder)
  }

  ghost predicate AddedAt(m: Shape, n: Shape, to: Item, p: Place, x: Item, flags: Flags, remainder: nat)
    requires x in m && to in m
  {
    && remainder == Remains(m, to, p, x, flags)
    && Gained(m, n, m[x].kind, if RuneLost(m, p, x) then 0 else m[x].count - remainder)
    && Local(m, n, {to, p.container}, x)
    && p.container in m && (WithinCapacity(m, n) <==> !AddOverfills(m, p, x))
    && Settled(m, n, to, p, x, !flags.ignoreAutoStack)
  }

  /** What goes onto no stack lies in front at its place, or nowhere if that is beyond the capacity; what
      does fills the stack at its place first. */
  ghost predicate Settled(m: Shape, n: Shape, to: Item, p: Place, x: Item, stacking: bool)
    requires x in m && to in m && p.container in m
  {
    if !Onto(m, p, x) then n == if p.index < p.container.capacity then Attach(m, p.container, x) else m
    else m.Keys <= n.Keys && Listed(m, to) && Spread(m, n, to, p.item, x, stacking)
  }

  /** Stack `t` is filled as far as it goes.  What goes there whole adds nothing to any list; the rest
      fills the other stacks in their order, if stacking is on, and only what is left when all are
      full is one new item in front. */
  ghost predicate Spread(m: Shape, n: Shape, to: Item, t: Item, x: Item, stacking: bool)
    requires x in m && t in m && Listed(m, to) && m.Keys <= n.Keys
  {
    && n[t].count == Min(100, m[t].count + m[x].count)
    && (m[x].count <= 100 - m[t].count ==> Untouched(m, n, to, t))
    && (forall s :: s in m[to].list ==> OnlyFilled(m, n, to, t, x, s, stacking))
    && (stacking ==> InOrder(m, n, to, t, x))
    && (n[to].list == m[to].list || NewInFront(m, n, to, t, x, stacking))
  }

  ghost predicate Untouched(m: Shape, n: Shape, to: Item, t: Item)
    requires Listed(m, to) && m.Keys <= n.Keys
  {
    && n.Keys == m.Keys && (forall z :: z in m ==> n[z].list == m[z].list)
    && forall s :: s in m[to].list && s != t ==> n[s] == m[s]
  }

  ghost predicate OnlyFilled(m: Shape, n: Shape, to: Item, t: Item, x: Item, s: Item, stacking: bool)
    requires x in m && Listed(m, to) && m.Keys <= n.Keys && s in m
  {
    && m[s].count <= n[s].count
    && (n[s].count > m[s].count ==> n[s].count <= 100 && (s == t || (stacking && HasRoom(m, to, x, s))))
  }

  ghost predicate InOrder(m: Shape, n: Shape, to: Item, t: Item, x: Item)
    requires x in m && Listed(m, to) && m.Keys <= n.Keys
  {
    var l := m[to].list;
    forall i, j :: 0 <= i < j < |l| && l[i] != t && l[j] != t && HasRoom(m, to, x, l[i]) && n[l[j]].count > m[l[j]].count ==>
                     n[l[i]].count == 100
  }

  ghost predicate NewInFront(m: Shape, n: Shape, to: Item, t: Item, x: Item, stacking: bool)
    requires x in m && t in m && Listed(m, to) && m.Keys <= n.Keys
  {
    && n[to].list != [] && n[to].list[1..] == m[to].list
    && var y := n[to].list[0];
       && y !in m && y in n && n[y].kind == m[x].kind && n[y].parent == to
       && 0 < n[y].count <= m[x].count - (100 - m[t].count)
       && (stacking ==> forall s :: s in m[to].list && HasRoom(m, to, x, s) ==> n[s].count == 100)
  }

  /** The item goes to its place as it is. */
  ghost predicate GoesWhole(m: Shape, rank: Ranks, owner: Owner, to: Item, index: int, x: Item, flags: Flags)
    requires Linked(m) && Ranked(m, rank) && to in m && x in m && to.container
  {
    var p := Destination(m, to, index, x, !flags.ignoreAutoStack);
    && AddResult(m, rank, owner, to, index, x, !flags.ignoreAutoStack) == NoError
    && m[x].parent == null && StackOk(m[x])
    && ((m[x].kind.stackable && m[x].kind.rune) || !TakesSome(m, p, x))
  }

  lemma {:induction false} WholeDone(m: Shape, rank: Ranks, owner: Owner, to: Item, index: int, x: Item, flags: Flags)
    requires Linked(m) && Ranked(m, rank) && to in m && x in m && to.container && GoesWhole(m, rank, owner, to, index, x, flags)
    ensures var p := Destination(m, to, index, x, !flags.ignoreAutoStack);
            && p.container in m && p.container.container && x !in Above(m, rank, p.container)
            && var n := if p.index < p.container.capacity then Attach(m, p.container, x) else m;
               AddDone(m, n, rank, owner, to, index, x, flags, false, NoError, 0)
  {
    var p := Destination(m, to, index, x, !flags.ignoreAutoStack);
    DestinationOk(m, to, index, x, !flags.ignoreAutoStack);
    AboveIs(m, rank, p.container);
    AttachGain(m, p.container, x);
    assert p.container.unlocked;
    LocalAttach(m, p.container, x, {to, p.container});
    LocalNothing(m, {to, p.container}, x);
    hide Linked, Ranked, Above, Destination, Attach, Local;
  }

  method PutWhole(g: Game, to: Item, x: Item, index: int, flags: Flags, place: Place)
    requires g.Valid() && to in g.world && x in g.world && to.container
    requires GoesWhole(g.Now(), g.rank, g.owner, to, index, x, flags)
    requires place == Destination(g.Now(), to, index, x, !flags.ignoreAutoStack)
    modifies g`rank, g.world
    ensures g.Valid() && g.world == old(g.world)
    ensures AddDone(old(g.Now()), g.Now(), old(g.rank), g.owner, to, index, x, flags, false, NoError, 0)
  {
    ghost var m := g.Now();
    assert m[x].parent == x.parent;
    WholeDone(m, g.rank, g.owner, to, index, x, flags);
    hide Good, AddDone, Destination, Above;
    g.Put(place.container, place.index, x);
  }

  // ---------- onto a stack ----------

  /** Some of the item goes onto the stack at its place. */
  ghost predicate GoesOnto(m: Shape, rank: Ranks, w: Weights, owner: Owner, to: Item, index: int, x: Item, flags: Flags)
  {
    && Good(m, rank, w) && to in m && x in m && to.container
    && AddResult(m, rank, owner, to, index, x, !flags.ignoreAutoStack) == NoError
    && m[x].parent == null && m[x].kind.stackable && !m[x].kind.rune && 1 <= m[x].count <= 100
    && TakesSome(m, Destination(m, to, index, x, !flags.ignoreAutoStack), x)
    && Monotone(owner, to)
  }

  lemma {:induction false} OntoMeans(m: Shape, rank: Ranks, w: Weights, owner: Owner, to: Item, index: int, x: Item, flags: Flags)
    requires GoesOnto(m, rank, w, owner, to, index, x, flags)
    ensures var p := Destination(m, to, index, x, !flags.ignoreAutoStack);
            && p.container == to && p.item != null && p.item in m && p.item in m[to].list && p.item != x
            && m[p.item].kind == m[x].kind && m[p.item].count < 100 && m[p.item].parent == to
            && !RuneLost(m, p, x) && Onto(m, p, x)
            && AddResult(m, rank, owner, to, index, x, !flags.ignoreAutoStack) == NoError
  {
    DestinationOk(m, to, index, x, !flags.ignoreAutoStack);
    ListIn(m, to);
    assert ListOk(m, to);
  }

  lemma {:induction false} OntoParts(m: Shape, rank: Ranks, w: Weights, owner: Owner, to: Item, index: int, x: Item, flags: Flags)
    requires GoesOnto(m, rank, w, owner, to, index, x, flags)
    ensures Good(m, rank, w) && to in m && x in m && to.container && Monotone(owner, to)
    ensures Linked(m) && Ranked(m, rank) && 1 <= m[x].count <= 100 && m[x].kind.stackable
  {
  }

  /** Stack `t` takes all of `x`. */
  ghost predicate AllDue(m: Shape, rank: Ranks, w: Weights, owner: Owner, to: Item, index: int, x: Item, flags: Flags, t: Item)
  {
    && GoesOnto(m, rank, w, owner, to, index, x, flags)
    && t == Destination(m, to, index, x, !flags.ignoreAutoStack).item && t in m
    && m[x].count <= 100 - m[t].count
  }

  /** All of the item went onto the stack. */
  lemma {:induction false} OntoDone(m: Shape, rank: Ranks, w: Weights, owner: Owner, to: Item, index: int, x: Item, flags: Flags,
                                    t: Item)
    requires AllDue(m, rank, w, owner, to, index, x, flags, t) && x in m && t in m
    ensures AddDone(m, Retype(m, t, m[x].kind, m[t].count + m[x].count), rank, owner, to, index, x, flags, false, NoError, 0)
  {
    hide AllDue, GoesOnto, Good, Linked, Ranked, Destination, AddResult, Local, Gained, WithinCapacity, Onto, Retype, RuneLost, Spread;
    AllParts(m, rank, w, owner, to, index, x, flags, t);
    FillGain(m, t, m[t].count + m[x].count);
    LocalFill(m, t, m[t].count + m[x].count, {to, to}, x);
    AllSettles(m, to, t, x, !flags.ignoreAutoStack);
  }

  lemma {:induction false} AllParts(m: Shape, rank: Ranks, w: Weights, owner: Owner, to: Item, index: int, x: Item, flags: Flags,
                                    t: Item)
    requires AllDue(m, rank, w, owner, to, index, x, flags, t)
    ensures Good(m, rank, w) && Linked(m) && Ranked(m, rank) && to in m && to.container && t in m && x in m
    ensures t in m[to].list && m[t].kind.stackable && m[t].kind == m[x].kind && m[t].parent == to
    ensures m[x].count <= 100 - m[t].count && m[t].count < 100 && t != x
    ensures AddResult(m, rank, owner, to, index, x, !flags.ignoreAutoStack) == NoError
    ensures var p := Destination(m, to, index, x, !flags.ignoreAutoStack);
            p.container == to && p.item == t && Onto(m, p, x) && !RuneLost(m, p, x)
  {
    OntoParts(m, rank, w, owner, to, index, x, flags);
    OntoMeans(m, rank, w, owner, to, index, x, flags);
  }

  /** The stack is full and the remainder is a new item `y`. */
  ghost predicate RestLeft(m: Shape, m3: Shape, rank: Ranks, w: Weights, w3: Weights, owner: Owner, to: Item, index: int,
                           x: Item, flags: Flags, y: Item, t: Item, rest: nat)
  {
    && GoesOnto(m, rank, w, owner, to, index, x, flags) && y !in m
    && t == Destination(m, to, index, x, !flags.ignoreAutoStack).item && t in m
    && rest == m[x].count - (100 - m[t].count) && rest > 0
    && m3 == Topped(m, t, y, m[x].kind, rest) && Good(m3, rank[y := 0], w3)
  }

  lemma {:induction false} RestParts(m: Shape, m3: Shape, rank: Ranks, w: Weights, w3: Weights, owner: Owner, to: Item, index: int,
                                     x: Item, flags: Flags, y: Item, t: Item, rest: nat)
    requires RestLeft(m, m3, rank, w, w3, owner, to, index, x, flags, y, t, rest)
    ensures Linked(m) && Ranked(m, rank) && to in m && x in m && to.container && m[x].count <= 100
    ensures Linked(m3) && Ranked(m3, rank[y := 0]) && to in m3 && y in m3
    ensures GoesOnto(m, rank, w, owner, to, index, x, flags) && Good(m3, rank[y := 0], w3) && y !in m && t in m
    ensures t == Destination(m, to, index, x, !flags.ignoreAutoStack).item && m3 == Topped(m, t, y, m[x].kind, rest)
    ensures rest == m[x].count - (100 - m[t].count) && rest > 0
  {
    hide Linked, Ranked, Destination, AddResult, TakesSome;
  }

  lemma {:induction false} RestMeans(m: Shape, m3: Shape, rank: Ranks, w: Weights, w3: Weights, owner: Owner, to: Item, index: int,
                                     x: Item, flags: Flags, y: Item, t: Item, rest: nat)
    requires RestLeft(m, m3, rank, w, w3, owner, to, index, x, flags, y, t, rest)
    ensures Linked(m) && Ranked(m, rank) && to in m && x in m && to.container
    ensures Linked(m3) && Ranked(m3, rank[y := 0]) && to in m3 && y in m3 && m3[y] == Thing(m[x].kind, rest, null, [])
    ensures AddResult(m, rank, owner, to, index, x, !flags.ignoreAutoStack) == NoError
    ensures AddResult(m3, rank[y := 0], owner, to, WHEREEVER, y, !flags.ignoreAutoStack) ==
            if flags.ignoreAutoStack && |m[to].list| >= to.capacity then ContainerNotEnoughRoom else NoError
    ensures var p := Destination(m, to, index, x, !flags.ignoreAutoStack);
            Onto(m, p, x) && p.item == t && rest == m[x].count - (100 - m[t].count) && 0 < rest <= 100
    ensures Destination(m, to, index, x, !flags.ignoreAutoStack).container == to
    ensures Destination(m3, to, WHEREEVER, y, !flags.ignoreAutoStack).container == to
    ensures Local(m, m3, {to, to}, x) && y !in m && IsTopped(m, m3, to, t, x, y) && to.unlocked
    ensures Gained(m, m3, m[x].kind, m[x].count - rest) && WithinCapacity(m, m3) && m.Keys <= m3.Keys && !m[x].kind.rune
  {
    hide RestLeft, GoesOnto, Good, Gained, WithinCapacity, Linked, Ranked, Destination, AddResult, Local, Onto, Topped;
    RestParts(m, m3, rank, w, w3, owner, to, index, x, flags, y, t, rest);
    OntoMeans(m, rank, w, owner, to, index, x, flags);
    ToppedGain(m, t, y, m[x].kind, rest);
    LocalTopped(m, t, y, m[x].kind, rest, {to, to}, x);
    StaysHere(m3, to, y, !flags.ignoreAutoStack);
    IsToppedNow(m, m3, rank, w, w3, owner, to, index, x, flags, y, t, rest);
    RemainderGoes(m, rank, w, w3, owner, to, index, x, flags, y);
  }

  lemma {:induction false} IsToppedNow(m: Shape, m3: Shape, rank: Ranks, w: Weights, w3: Weights, owner: Owner, to: Item, index: int,
                                       x: Item, flags: Flags, y: Item, t: Item, rest: nat)
    requires RestLeft(m, m3, rank, w, w3, owner, to, index, x, flags, y, t, rest)
    ensures IsTopped(m, m3, to, t, x, y) && to.unlocked
  {
    RestParts(m, m3, rank, w, w3, owner, to, index, x, flags, y, t, rest);
    OntoMeans(m, rank, w, owner, to, index, x, flags);
    hide RestLeft, Good, Linked, Ranked, Destination, Topped, MaxCount, Above, TakesSome;
  }

  /** An item that may go anywhere in a container does not lead elsewhere. */
  lemma {:induction false} StaysHere(m: Shape, to: Item, y: Item, autoStack: bool)
    requires Linked(m) && to in m && y in m
    ensures Destination(m, to, WHEREEVER, y, autoStack).container == to
  {
    ListIn(m, to);
  }

  lemma {:induction false} RestAdded(m: Shape, m3: Shape, n: Shape, rank: Ranks, w: Weights, w3: Weights, owner: Owner, to: Item,
                                     index: int, x: Item, flags: Flags, y: Item, t: Item, rest: nat, remainder: nat)
    requires RestLeft(m, m3, rank, w, w3, owner, to, index, x, flags, y, t, rest)
    requires Linked(m) && Ranked(m, rank) && to in m && x in m && to.container
    requires Linked(m3) && Ranked(m3, rank[y := 0]) && to in m3 && y in m3
    requires AddDone(m3, n, rank[y := 0], owner, to, WHEREEVER, y, flags, false, NoError, remainder)
    ensures AddDone(m, n, rank, owner, to, index, x, flags, false, NoError, 0)
  {
    hide RestLeft, Linked, Ranked, Destination, AddResult, Gained, WithinCapacity, Local;
    hide Settled, Spread, Leads, IsTopped;
    RestMeans(m, m3, rank, w, w3, owner, to, index, x, flags, y, t, rest);
    DestinationLeads(m3, to, WHEREEVER, y, !flags.ignoreAutoStack);
    RestSettles(m, m3, n, to, t, x, y, Destination(m3, to, WHEREEVER, y, !flags.ignoreAutoStack), !flags.ignoreAutoStack);
    NowSettled(m, n, to, Destination(m, to, index, x, !flags.ignoreAutoStack), x, !flags.ignoreAutoStack);
    AnywhereFits(m3, rank[y := 0], owner, to, y, flags);
    LocalThen(m, m3, n, {to, to}, x, y);
    GainedThen(m, m3, n, m[x].kind, m[x].count - rest, rest);
    WithinThen(m, m3, n);
  }

  lemma {:induction false} RestDone(m: Shape, m3: Shape, n: Shape, rank: Ranks, w: Weights, w3: Weights, owner: Owner, to: Item,
                                    index: int, x: Item, flags: Flags, y: Item, t: Item, rest: nat, code: Code, remainder: nat)
    requires RestLeft(m, m3, rank, w, w3, owner, to, index, x, flags, y, t, rest)
    requires Linked(m3) && Ranked(m3, rank[y := 0]) && to in m3 && y in m3 && to.container
    requires AddDone(m3, n, rank[y := 0], owner, to, WHEREEVER, y, flags, false, code, remainder)
    ensures Linked(m) && Ranked(m, rank) && to in m && x in m
    ensures AddDone(m, n, rank, owner, to, index, x, flags, false, NoError, if code != NoError then rest else 0)
  {
    hide *;
    RestMeans(m, m3, rank, w, w3, owner, to, index, x, flags, y, t, rest);
    if code != NoError {
      RestRefused(m, m3, n, rank, w, w3, owner, to, index, x, flags, y, t, rest, code, remainder);
    } else {
      RestAdded(m, m3, n, rank, w, w3, owner, to, index, x, flags, y, t, rest, remainder);
    }
  }

  lemma {:induction false} RestRefused(m: Shape, m3: Shape, n: Shape, rank: Ranks, w: Weights, w3: Weights, owner: Owner, to: Item,
                                       index: int, x: Item, flags: Flags, y: Item, t: Item, rest: nat, code: Code, remainder: nat)
    requires RestLeft(m, m3, rank, w, w3, owner, to, index, x, flags, y, t, rest)
    requires Linked(m) && Ranked(m, rank) && to in m && x in m && to.container
    requires Linked(m3) && Ranked(m3, rank[y := 0]) && to in m3 && y in m3 && code != NoError
    requires AddDone(m3, n, rank[y := 0], owner, to, WHEREEVER, y, flags, false, code, remainder)
    ensures AddDone(m, n, rank, owner, to, index, x, flags, false, NoError, rest)
  {
    hide RestLeft, Linked, Ranked, Destination, AddResult, Gained, WithinCapacity, Local, Settled, Spread, IsTopped;
    RestMeans(m, m3, rank, w, w3, owner, to, index, x, flags, y, t, rest);
    RestStays(m, m3, to, t, x, y);
    NowSettled(m, m3, to, Destination(m, to, index, x, !flags.ignoreAutoStack), x, false);
  }

  lemma {:induction false} NowSettled(m: Shape, n: Shape, to: Item, p: Place, x: Item, stacking: bool)
    requires x in m && to in m && p.container in m && Onto(m, p, x) && Listed(m, to) && m.Keys <= n.Keys
    requires Spread(m, n, to, p.item, x, stacking)
    ensures Settled(m, n, to, p, x, stacking)
  {
  }

  lemma {:induction false} RemainderGoes(m: Shape, rank: Ranks, w: Weights, w3: Weights, owner: Owner, to: Item, index: int,
                                         x: Item, flags: Flags, y: Item)
    requires GoesOnto(m, rank, w, owner, to, index, x, flags) && y !in m
    requires var t := Destination(m, to, index, x, !flags.ignoreAutoStack).item;
             && 100 - m[t].count < m[x].count
             && Good(Topped(m, t, y, m[x].kind, m[x].count - (100 - m[t].count)), rank[y := 0], w3)
    ensures var t := Destination(m, to, index, x, !flags.ignoreAutoStack).item;
            var m3 := Topped(m, t, y, m[x].kind, m[x].count - (100 - m[t].count));
            && to in m3
            && AddResult(m3, rank[y := 0], owner, to, WHEREEVER, y, !flags.ignoreAutoStack) ==
               if flags.ignoreAutoStack && |m[to].list| >= to.capacity then ContainerNotEnoughRoom else NoError
  {
    RemainderFits(m, rank, w, owner, to, index, x, y, !flags.ignoreAutoStack);
  }

  // ---------- where the rest goes ----------

  lemma {:induction false} AllSettles(m: Shape, to: Item, t: Item, x: Item, stacking: bool)
    requires Linked(m) && to in m && x in m && t in m[to].list && t in m && t != x
    requires m[t].count < 100 && 0 <= m[x].count <= 100 - m[t].count
    ensures Listed(m, to) && Spread(m, Retype(m, t, m[x].kind, m[t].count + m[x].count), to, t, x, stacking)
  {
    ListIn(m, to);
    hide Linked;
  }

  /** The stack is full, nothing else has changed but that the rest is a new item. */
  ghost predicate IsTopped(m: Shape, m3: Shape, to: Item, t: Item, x: Item, y: Item) {
    && Linked(m) && to in m && x in m && m[x].parent == null && t in m[to].list && t in m && t != x && y !in m
    && m[t].count < 100 && m[x].count > 100 - m[t].count && m[t].kind == m[x].kind
    && m3 == Topped(m, t, y, m[x].kind, m[x].count - (100 - m[t].count)) && m[x].kind.stackable && !m[x].kind.rune
  }

  lemma {:induction false} ToppedRoom(m: Shape, m3: Shape, to: Item, t: Item, x: Item, y: Item)
    requires IsTopped(m, m3, to, t, x, y)
    ensures Listed(m, to) && m3.Keys == m.Keys + {y} && m3[to].list == m[to].list && x !in m[to].list && Distinct(m[to].list)
    ensures m3[t].count == 100 && Listed(m3, to) && m3[y] == Thing(m[x].kind, m[x].count - (100 - m[t].count), null, [])
    ensures forall s :: s in m && s != t ==> m3[s].count == m[s].count
    ensures forall s :: s in m[to].list ==> (HasRoom(m3, to, y, s) <==> s != t && HasRoom(m, to, x, s))
  {
    ListIn(m, to);
    assert ListOk(m, to);
    hide Linked;
  }

  lemma {:induction false} ToppedSizes(m: Shape, m3: Shape, to: Item, t: Item, x: Item, y: Item)
    requires IsTopped(m, m3, to, t, x, y)
    ensures x in m && t in m && m[t].count < 100 && m[x].count > 100 - m[t].count && m[t].kind == m[x].kind
  {
    hide Linked, Topped;
  }

  lemma {:induction false} RestStays(m: Shape, m3: Shape, to: Item, t: Item, x: Item, y: Item)
    requires IsTopped(m, m3, to, t, x, y)
    ensures Listed(m, to) && m.Keys <= m3.Keys && Spread(m, m3, to, t, x, false)
  {
    ToppedRoom(m, m3, to, t, x, y);
    hide IsTopped, HasRoom;
  }

  /** No other stack has room: the rest is a new item in front. */
  lemma {:induction false} RestInFront(m: Shape, m3: Shape, n: Shape, to: Item, t: Item, x: Item, y: Item, stacking: bool)
    requires IsTopped(m, m3, to, t, x, y) && to in m3 && y in m3
    requires stacking ==> forall s :: s in m3[to].list ==> !HasRoom(m3, to, y, s)
    requires n == Attach(m3, to, y)
    ensures Listed(m, to) && m.Keys <= n.Keys && Spread(m, n, to, t, x, stacking)
  {
    ToppedRoom(m, m3, to, t, x, y);
    ToppedSizes(m, m3, to, t, x, y);
    hide IsTopped, HasRoom, Untouched;
    assert n[to].list[1..] == m[to].list;
  }

  /** The first of the other stacks with room takes some of the rest, and so on. */
  lemma {:induction false} RestSpreads(m: Shape, m3: Shape, n: Shape, to: Item, t: Item, x: Item, y: Item, p: Place)
    requires IsTopped(m, m3, to, t, x, y) && to in m3 && y in m3 && AtFirst(m3, p, to, y)
    requires m3.Keys <= n.Keys && Listed(m3, to) && p.item in m3 && Spread(m3, n, to, p.item, y, true)
    ensures Listed(m, to) && m.Keys <= n.Keys && Spread(m, n, to, t, x, true)
  {
    ToppedRoom(m, m3, to, t, x, y);
    assert n[t].count == 100 by { assert OnlyFilled(m3, n, to, p.item, y, t, true); }
    RestOrder(m, m3, n, to, t, x, y, p);
    forall s | s in m[to].list ensures OnlyFilled(m, n, to, t, x, s, true) {
      assert OnlyFilled(m3, n, to, p.item, y, s, true);
    }
    hide IsTopped;
  }

  lemma {:induction false} RestOrder(m: Shape, m3: Shape, n: Shape, to: Item, t: Item, x: Item, y: Item, p: Place)
    requires IsTopped(m, m3, to, t, x, y) && to in m3 && y in m3 && AtFirst(m3, p, to, y)
    requires m3.Keys <= n.Keys && Listed(m3, to) && p.item in m3 && Spread(m3, n, to, p.item, y, true)
    ensures Listed(m, to) && m.Keys <= n.Keys && InOrder(m, n, to, t, x)
  {
    ToppedRoom(m, m3, to, t, x, y);
    hide IsTopped;
    var l := m[to].list;
    forall i, j | 0 <= i < j < |l| && l[i] != t && l[j] != t && HasRoom(m, to, x, l[i]) && n[l[j]].count > m[l[j]].count
      ensures n[l[i]].count == 100
    {
      assert HasRoom(m3, to, y, l[i]);
      assert l[j] in m3[to].list && l[i] in l;
      NotFirst(m3, p, to, y, i, j);
      if l[i] == p.item {
        FirstFilled(m3, n, to, y, p, l[j]);
      }
    }
  }

  /** What comes after a stack with room is not the first. */
  lemma {:induction false} NotFirst(m: Shape, p: Place, c: Item, x: Item, i: int, j: int)
    requires c in m && x in m && AtFirst(m, p, c, x) && Distinct(m[c].list) && 0 <= i < j < |m[c].list|
    ensures HasRoom(m, c, x, m[c].list[i]) ==> m[c].list[j] != p.item
  {
  }

  lemma {:induction false} RestSettles(m: Shape, m3: Shape, n: Shape, to: Item, t: Item, x: Item, y: Item, p: Place, stacking: bool)
    requires IsTopped(m, m3, to, t, x, y) && to in m3 && y in m3 && to.unlocked
    requires Leads(m3, p, to, WHEREEVER, y, stacking) && p.container == to && -1 < to.capacity
    requires Settled(m3, n, to, p, y, stacking)
    ensures Listed(m, to) && m.Keys <= n.Keys && Spread(m, n, to, t, x, stacking)
  {
    ToppedRoom(m, m3, to, t, x, y);
    WhichRest(m3, to, y, p, stacking);
    hide Leads, Spread, IsTopped, AtFirst, HasRoom;
    if stacking && Joins(m3, to, y) {
      RestSpreads(m, m3, n, to, t, x, y, p);
    } else {
      RestInFront(m, m3, n, to, t, x, y, stacking);
    }
  }

  lemma {:induction false} WhichRest(m: Shape, to: Item, y: Item, p: Place, stacking: bool)
    requires to in m && y in m && to.unlocked && Leads(m, p, to, WHEREEVER, y, stacking)
    requires m[y].kind.stackable && !m[y].kind.rune && m[y].parent == null && Listed(m, to)
    ensures if stacking && Joins(m, to, y) then AtFirst(m, p, to, y) && Onto(m, p, y) && p.item in m
            else p == Place(to, WHEREEVER, null) && !Onto(m, p, y) && (stacking ==> forall s :: s in m[to].list ==> !HasRoom(m, to, y, s))
  {
  }

  /** If any other stack grew, the first is full. */
  lemma {:induction false} FirstFilled(m: Shape, n: Shape, to: Item, x: Item, p: Place, s: Item)
    requires to in m && x in m && AtFirst(m, p, to, x) && m.Keys <= n.Keys && Listed(m, to) && p.item in m
    requires Spread(m, n, to, p.item, x, true) && s in m[to].list && s != p.item && n[s].count > m[s].count
    ensures n[p.item].count == 100
  {
  }

  lemma {:induction false} ToppedGain(m: Shape, t: Item, y: Item, kind: Kind, rest: nat)
    requires t in m && m[t].parent != null && y !in m && m[t].kind == kind && m[t].count <= 100
    ensures var m3 := Topped(m, t, y, kind, rest);
            && Gained(m, m3, kind, 100 - m[t].count) && WithinCapacity(m, m3)
            && m.Keys <= m3.Keys && y in m3 && m3[y] == Thing(kind, rest, null, [])
  {
    var m2, m3 := Retype(m, t, kind, 100), Topped(m, t, y, kind, rest);
    FillGain(m, t, 100);
    NewGain(m2, y, m3[y], kind);
    hide Gained;
    GainedThen(m, m2, m3, kind, 100 - m[t].count, 0);
    WithinThen(m, m2, m3);
  }

  // ---------- the operation ----------

  /** Adds `x` to a container or to where that leads; the remainder is what could not be placed. */
  method InternalAddItem(g: Game, to: Item, x: Item, index: int, flags: Flags, test: bool) returns (code: Code, remainder: nat)
    requires g.Valid() && to in g.world && x in g.world && to.container && x.parent == null && Monotone(g.owner, to)
    modifies g`rank, g`world, g.world
    ensures g.Valid() && old(g.world) <= g.world && fresh(g.world - old(g.world))
    ensures AddDone(old(g.Now()), g.Now(), old(g.rank), g.owner, to, index, x, flags, test, code, remainder)
    decreases x.count, 2
  {
    var place;
    code, place := CheckAdd(g, to, x, index, !flags.ignoreAutoStack);
    remainder := 0;
    if code != NoError || test {
      return;
    }
    WayToGo(g, to, x, index, flags, place);
    hide Good, AddDone, GoesOnto, GoesWhole, Destination, PlaceOk;
    if x.kind.stackable && !x.kind.rune && place.item != null && x.kind == place.item.kind && place.item.count < 100 {
      remainder := AddOnto(g, to, x, index, flags, place);
    } else {
      PutWhole(g, to, x, index, flags, place);
    }
  }

  /** Onto the stack at the place, or as a whole. */
  lemma {:induction false} WayToGo(g: Game, to: Item, x: Item, index: int, flags: Flags, place: Place)
    requires g.Valid() && to in g.world && x in g.world && to.container && x.parent == null && Monotone(g.owner, to)
    requires place == Destination(g.Now(), to, index, x, !flags.ignoreAutoStack) && PlaceOk(g.Now(), place, x)
    requires AddResult(g.Now(), g.rank, g.owner, to, index, x, !flags.ignoreAutoStack) == NoError
    ensures if x.kind.stackable && !x.kind.rune && place.item != null && x.kind == place.item.kind && place.item.count < 100
            then GoesOnto(g.Now(), g.rank, WeightsOf(g.world), g.owner, to, index, x, flags)
            else GoesWhole(g.Now(), g.rank, g.owner, to, index, x, flags)
  {
    hide Destination, AddResult;
    assert StackOk(g.Now()[x]);
    assert g.Now()[x] == x.Look() && (place.item != null ==> g.Now()[place.item] == place.item.Look());
  }

  method AddOnto(g: Game, to: Item, x: Item, index: int, flags: Flags, place: Place) returns (remainder: nat)
    requires GoesOnto(g.Now(), g.rank, WeightsOf(g.world), g.owner, to, index, x, flags)
    requires place == Destination(g.Now(), to, index, x, !flags.ignoreAutoStack)
    modifies g`rank, g`world, g.world
    ensures g.Valid() && old(g.world) <= g.world && fresh(g.world - old(g.world))
    ensures AddDone(old(g.Now()), g.Now(), old(g.rank), g.owner, to, index, x, flags, false, NoError, remainder)
    decreases x.count, 1
  {
    OntoDue(g, to, index, x, flags, place.item);
    hide Good, GoesOnto, AddDone, AllDue, RestDue, Destination, Monotone;
    var n := Min(100 - place.item.count, x.count);
    if n == x.count {
      FillAll(g, to, x, index, flags, place.item);
      remainder := 0;
    } else {
      remainder := AddRest(g, to, x, index, flags, place.item, x.count - n);
    }
  }

  lemma {:induction false} OntoDue(g: Game, to: Item, index: int, x: Item, flags: Flags, t: Item?)
    requires GoesOnto(g.Now(), g.rank, WeightsOf(g.world), g.owner, to, index, x, flags)
    requires t == Destination(g.Now(), to, index, x, !flags.ignoreAutoStack).item
    ensures g.Valid() && t != null && t in g.world && x in g.world && t.count < 100 && 1 <= x.count <= 100
    ensures to in g.world && to.container && Monotone(g.owner, to)
    ensures if x.count <= 100 - t.count then AllDue(g.Now(), g.rank, WeightsOf(g.world), g.owner, to, index, x, flags, t)
            else RestDue(g.Now(), g.rank, WeightsOf(g.world), g.owner, to, index, x, flags, t, x.count - (100 - t.count))
  {
    OntoParts(g.Now(), g.rank, WeightsOf(g.world), g.owner, to, index, x, flags);
    OntoMeans(g.Now(), g.rank, WeightsOf(g.world), g.owner, to, index, x, flags);
    hide GoesOnto, Good, Destination, Onto;
  }

  method FillAll(g: Game, to: Item, x: Item, index: int, flags: Flags, t: Item)
    requires AllDue(g.Now(), g.rank, WeightsOf(g.world), g.owner, to, index, x, flags, t)
    modifies g.world
    ensures g.Valid() && AddDone(old(g.Now()), g.Now(), g.rank, g.owner, to, index, x, flags, false, NoError, 0)
  {
    hide AllDue, Good, AddDone;
    AllParts(g.Now(), g.rank, WeightsOf(g.world), g.owner, to, index, x, flags, t);
    OntoDone(g.Now(), g.rank, WeightsOf(g.world), g.owner, to, index, x, flags, t);
    g.Fill(to, t, x.count);
  }

  /** Stack `t` takes less than all of `x`; so many are left. */
  ghost predicate RestDue(m: Shape, rank: Ranks, w: Weights, owner: Owner, to: Item, index: int, x: Item, flags: Flags,
                          t: Item, rest: nat)
  {
    && GoesOnto(m, rank, w, owner, to, index, x, flags)
    && t == Destination(m, to, index, x, !flags.ignoreAutoStack).item && t in m
    && 0 < rest == m[x].count - (100 - m[t].count) < m[x].count
  }

  method AddRest(g: Game, to: Item, x: Item, index: int, flags: Flags, t: Item, rest: nat) returns (remainder: nat)
    requires g.Valid() && to in g.world && to.container && Monotone(g.owner, to) && rest < x.count
    requires RestDue(g.Now(), g.rank, WeightsOf(g.world), g.owner, to, index, x, flags, t, rest)
    modifies g`rank, g`world, g.world
    ensures g.Valid() && old(g.world) <= g.world && fresh(g.world - old(g.world))
    ensures AddDone(old(g.Now()), g.Now(), old(g.rank), g.owner, to, index, x, flags, false, NoError, remainder)
    decreases x.count, 0
  {
    hide Good, RestDue, RestLeft, AddDone, Monotone;
    ghost var m, r, w := g.Now(), g.rank, WeightsOf(g.world);
    var y := TopUp(g, to, x, index, flags, t, rest);
    remainder := AddRemainder(g, to, x, index, flags, y, t, rest, m, r, w);
  }

  lemma {:induction false} DueParts(m: Shape, rank: Ranks, w: Weights, owner: Owner, to: Item, index: int, x: Item, flags: Flags,
                                    t: Item, rest: nat)
    requires RestDue(m, rank, w, owner, to, index, x, flags, t, rest)
    ensures GoesOnto(m, rank, w, owner, to, index, x, flags) && Good(m, rank, w) && to in m && x in m && t in m
    ensures t in m[to].list && m[t].kind == m[x].kind && m[t].kind.stackable && m[t].count < 100 && t != x
    ensures 0 < rest == m[x].count - (100 - m[t].count) <= 100
  {
    OntoParts(m, rank, w, owner, to, index, x, flags);
    OntoMeans(m, rank, w, owner, to, index, x, flags);
  }

  /** Adds the remainder by itself; what it refuses is the remainder of the whole. */
  method AddRemainder(g: Game, to: Item, x: Item, index: int, flags: Flags, y: Item, t: Item, rest: nat,
                      ghost m: Shape, ghost rank: Ranks, ghost w: Weights)
    returns (remainder: nat)
    requires g.Valid() && to in g.world && to.container && Monotone(g.owner, to) && g.rank == rank[y := 0]
    requires y in g.world && y.parent == null && y.count == rest
    requires RestLeft(m, g.Now(), rank, w, WeightsOf(g.world), g.owner, to, index, x, flags, y, t, rest)
    modifies g`rank, g`world, g.world
    ensures g.Valid() && old(g.world) <= g.world && fresh(g.world - old(g.world))
    ensures AddDone(m, g.Now(), rank, g.owner, to, index, x, flags, false, NoError, remainder)
    decreases rest, 3
  {
    hide Good, RestLeft, AddDone, Linked, Ranked;
    ghost var m3, w3 := g.Now(), WeightsOf(g.world);
    RestMeans(m, m3, rank, w, w3, g.owner, to, index, x, flags, y, t, rest);
    var code, rem := InternalAddItem(g, to, y, WHEREEVER, flags, false);
    remainder := if code != NoError then rest else 0;
    RestDone(m, m3, g.Now(), rank, w, w3, g.owner, to, index, x, flags, y, t, rest, code, rem);
  }

  /** Fills the stack up and makes an item of the rest. */
  method TopUp(g: Game, to: Item, x: Item, index: int, flags: Flags, t: Item, rest: nat) returns (y: Item)
    requires RestDue(g.Now(), g.rank, WeightsOf(g.world), g.owner, to, index, x, flags, t, rest)
    modifies g`rank, g`world, g.world
    ensures g.Valid() && fresh(y) && g.world == old(g.world) + {y} && g.rank == old(g.rank)[y := 0]
    ensures y.count == rest && y.parent == null
    ensures RestLeft(old(g.Now()), g.Now(), old(g.rank), old(WeightsOf(g.world)), WeightsOf(g.world), g.owner, to, index, x, flags, y, t, rest)
  {
    ghost var m := g.Now();
    DueParts(m, g.rank, WeightsOf(g.world), g.owner, to, index, x, flags, t, rest);
    hide RestDue, GoesOnto, Good, Destination;
    g.Fill(to, t, 100 - t.count);
    y := g.CreateStack(x.kind, rest);
    Seen(g.world, y);
  }
}
