/**
  Moving items between containers: the queries of a container, the move itself and the
  adding and removing of items.  The carrier of a container (a player, a tile or an outer
  container) answers by a fixed function of the container, the kind and the amount.
 */
module ItemMoves {

  import opened Basics
  import opened ItemHeap
  import opened Sums

  datatype Code =
    | NoError
    | NotPossible
    | CannotPickup
    | ThisIsImpossible
    | ContainerNotEnoughRoom
    | NotMoveable
    | NotEnoughRoom
    | Refused(code: nat)

  type Owner = (Item, Kind, nat) -> Code

  const WHEREEVER := -1
  const MOVE_UP := 254
  const ADD_WHEREVER := 255
  const MAP_MAX_LAYERS := 16

  // ---------- how many there are ----------

  /** A value for each piece of a kind: one for the kinds that are counted, or what a coin is worth. */
  type Measure = Kind -> int

  /** What an item adds to the total; only what lies in a container counts. */
  function Part(t: Thing, f: Measure): int {
    if t.parent != null then f(t.kind) * t.count else 0
  }

  ghost function Parts(m: Shape, f: Measure): map<Item, int> {
    map x | x in m :: Part(m[x], f)
  }

  /** The total over all that lies in containers. */
  ghost function Total(m: Shape, f: Measure): int { Sum(Parts(m, f)) }

  lemma {:induction false} TotalPut(m: Shape, x: Item, t: Thing, f: Measure)
    ensures Total(m[x := t], f) == Total(m, f) + Part(t, f) - (if x in m then Part(m[x], f) else 0)
  {
    assert Parts(m[x := t], f) == Parts(m, f)[x := Part(t, f)];
    SumPut(Parts(m, f), x, Part(t, f));
  }

  lemma {:induction false} AttachTotal(m: Shape, c: Item, x: Item, f: Measure)
    requires c in m && x in m && c != x && m[x].parent == null
    ensures Total(Attach(m, c, x), f) == Total(m, f) + f(m[x].kind) * m[x].count
  {
    var n := m[x := m[x].(parent := c)];
    TotalPut(m, x, n[x], f);
    TotalPut(n, c, m[c].(list := [x] + m[c].list), f);
  }

  lemma {:induction false} DetachTotal(m: Shape, c: Item, i: nat, f: Measure)
    requires c in m && i < |m[c].list| && m[c].list[i] in m && c != m[c].list[i] && m[m[c].list[i]].parent != null
    ensures var x := m[c].list[i];
            Total(Detach(m, c, i), f) == Total(m, f) - f(m[x].kind) * m[x].count
  {
    var x := m[c].list[i];
    var n := m[x := m[x].(parent := null)];
    TotalPut(m, x, n[x], f);
    TotalPut(n, c, m[c].(list := m[c].list[..i] + m[c].list[i + 1..]), f);
  }

  lemma {:induction false} RecountTotal(m: Shape, x: Item, count: nat, f: Measure)
    requires x in m && m[x].parent != null
    ensures Total(Retype(m, x, m[x].kind, count), f) == Total(m, f) + f(m[x].kind) * (count - m[x].count)
  {
    TotalPut(m, x, m[x].(count := count), f);
    hide Total;
    Distributes(f(m[x].kind), count, m[x].count);
  }

  lemma {:induction false} Distributes(a: int, b: int, c: int)
    ensures a * (b - c) == a * b - a * c
  {
  }

  // ---------- the queries ----------

  /** May `n` of `x` go into `c`?  An item does not go into itself or what lies in it. */
  ghost function AddCode(m: Shape, rank: Ranks, owner: Owner, c: Item, wherever: bool, x: Item, n: nat): Code
    requires Ranked(m, rank) && c in m && x in m
  {
    if !c.unlocked then NotPossible
    else if !m[x].kind.pickupable then CannotPickup
    else if x in Above(m, rank, c) then ThisIsImpossible
    else if wherever && |m[c].list| >= c.capacity then ContainerNotEnoughRoom
    else owner(c, m[x].kind, n)
  }

  function Fits(m: Shape, y: Item, x: Item): bool
    requires y in m && x in m
  {
    y != x && m[y].kind == m[x].kind && m[y].count < 100
  }

  /** The room on stacks of the same kind, as far as the carrier takes each filling. */
  ghost function StackRoom(m: Shape, rank: Ranks, owner: Owner, c: Item, l: seq<Item>, x: Item): nat
    requires Ranked(m, rank) && c in m && x in m && forall y :: y in l ==> y in m
  {
    if l == [] then 0
    else
      var y := l[|l| - 1];
      (if Fits(m, y, x) && AddCode(m, rank, owner, c, false, x, 100 - m[y].count) == NoError then 100 - m[y].count else 0)
      + StackRoom(m, rank, owner, c, l[..|l| - 1], x)
  }

  lemma {:induction false} NoRoom(m: Shape, rank: Ranks, owner: Owner, c: Item, x: Item)
    requires Ranked(m, rank) && c in m && x in m
    ensures StackRoom(m, rank, owner, c, [], x) == 0
  {
  }

  lemma {:induction false} RoomAlso(m: Shape, rank: Ranks, owner: Owner, c: Item, l: seq<Item>, y: Item, x: Item)
    requires Ranked(m, rank) && c in m && x in m && y in m && forall z :: z in l ==> z in m
    ensures StackRoom(m, rank, owner, c, l + [y], x) == StackRoom(m, rank, owner, c, l, x) +
      if Fits(m, y, x) && AddCode(m, rank, owner, c, false, x, 100 - m[y].count) == NoError then 100 - m[y].count else 0
  {
    assert (l + [y])[..|l|] == l;
  }

  function FreeSlots(m: Shape, c: Item): nat
    requires c in m
  {
    Max(c.capacity - |m[c].list|, 0)
  }

  /** How many of `x` there is room for. */
  ghost function MaxCount(m: Shape, rank: Ranks, owner: Owner, c: Item, index: int, x: Item): nat
    requires Ranked(m, rank) && Linked(m) && c in m && x in m
  {
    assert ListOk(m, c);
    if !m[x].kind.stackable then FreeSlots(m, c)
    else if index == WHEREEVER then FreeSlots(m, c) * 100 + StackRoom(m, rank, owner, c, m[c].list, x)
    else if 0 <= index < |m[c].list| then
      var y := m[c].list[index];
      FreeSlots(m, c) * 100 +
        if m[y].kind == m[x].kind && m[y].count < 100 && AddCode(m, rank, owner, c, false, x, 100 - m[y].count) == NoError
        then 100 - m[y].count else 0
    else FreeSlots(m, c) * 100
  }

  function RemoveCode(m: Shape, c: Item, x: Item, n: nat, ignoreNotMoveable: bool): Code
    requires c in m && x in m
  {
    if x !in m[c].list then NotPossible
    else if n == 0 || (m[x].kind.stackable && n > m[x].count) then NotPossible
    else if !m[x].kind.moveable && !ignoreNotMoveable then NotMoveable
    else NoError
  }

  datatype Place = Place(container: Item, index: int, item: Item?)

  /** The first stack that takes some of `x`, or the length of the list. */
  function FirstFit(m: Shape, l: seq<Item>, x: Item): (i: nat)
    requires x in m && forall y :: y in l ==> y in m
    ensures i <= |l| && (i < |l| ==> Fits(m, l[i], x)) && forall j :: 0 <= j < i ==> !Fits(m, l[j], x)
  {
    if l == [] then 0 else if Fits(m, l[0], x) then 0 else 1 + FirstFit(m, l[1..], x)
  }

  lemma {:induction false} FirstFitIs(m: Shape, l: seq<Item>, x: Item)
    requires x in m && forall y :: y in l ==> y in m
    ensures var i := FirstFit(m, l, x);
            i <= |l| && (i < |l| ==> Fits(m, l[i], x)) && forall j :: 0 <= j < i ==> !Fits(m, l[j], x)
  {
  }

  /** Where an item dropped on place `index` of `c` is to go. */
  ghost function Destination(m: Shape, c: Item, index: int, x: Item, autoStack: bool): Place
    requires Linked(m) && c in m && x in m
  {
    assert ListOk(m, c) && UpOk(m, c);
    if !c.unlocked then Place(c, index, null)
    else if index == MOVE_UP then Place(if m[c].parent != null then m[c].parent else c, WHEREEVER, null)
    else
      var at := if index == ADD_WHEREVER || index >= c.capacity then WHEREEVER else index;
      var fit := FirstFit(m, m[c].list, x);
      if autoStack && m[x].kind.stackable && m[x].parent != c && fit < |m[c].list| then Place(c, fit, m[c].list[fit])
      else if 0 <= at < |m[c].list| then
        if m[c].list[at].container then Place(m[c].list[at], WHEREEVER, null)
        else Place(c, at, m[c].list[at])
      else Place(c, at, null)
  }

  // ---------- where a move leads ----------

  datatype Flags = Flags(ignoreAutoStack: bool, ignoreNotMoveable: bool)
  datatype Route = Route(place: Place, flags: Flags)

  /** The destination is asked until it no longer leads elsewhere; flags are lost on the way. */
  ghost function Resolve(m: Shape, c: Item, index: int, x: Item, flags: Flags, layers: nat): Route
    requires Linked(m) && c in m && x in m
    decreases layers
  {
    ListIn(m, c);
    var p := Destination(m, c, index, x, !flags.ignoreAutoStack);
    if p.container == c then Route(p, flags)
    else if layers <= 1 then Route(p, Flags(false, false))
    else Resolve(m, p.container, p.index, x, Flags(false, false), layers - 1)
  }

  /** A place names an item only if it is there; a place beyond the capacity is that of a stack to fill. */
  ghost predicate PlaceOk(m: Shape, p: Place, x: Item)
    requires x in m
  {
    && p.container in m && p.container.container
    && (p.item != null ==> 0 <= p.index < |m[p.container].list| && m[p.container].list[p.index] == p.item && p.item in m)
    && (p.container.unlocked && 0 <= p.index < |m[p.container].list| ==> p.item != null)
    && (p.container.unlocked && p.index >= p.container.capacity ==>
          p.item != null && m[x].kind.stackable && Fits(m, p.item, x))
  }

  lemma {:induction false} DestinationOk(m: Shape, c: Item, index: int, x: Item, autoStack: bool)
    requires Linked(m) && c in m && x in m && c.container
    ensures PlaceOk(m, Destination(m, c, index, x, autoStack), x)
    ensures var p := Destination(m, c, index, x, autoStack);
            autoStack && c.unlocked && index != MOVE_UP && p.container == c && m[x].kind.stackable && m[x].parent != c
            && (p.item == null || m[p.item].kind != m[x].kind || m[p.item].count >= 100) ==>
              forall y :: y in m[c].list && y in m ==> !Fits(m, y, x)
  {
    ListIn(m, c);
    assert UpOk(m, c) && ListOk(m, c);
    if m[c].parent != null { assert ListOk(m, m[c].parent); }
  }

  lemma {:induction false} ResolveOk(m: Shape, c: Item, index: int, x: Item, flags: Flags, layers: nat)
    requires Linked(m) && c in m && x in m && c.container
    ensures PlaceOk(m, Resolve(m, c, index, x, flags, layers).place, x)
    decreases layers
  {
    DestinationOk(m, c, index, x, !flags.ignoreAutoStack);
    var p := Destination(m, c, index, x, !flags.ignoreAutoStack);
    if p.container != c && layers > 1 {
      ResolveOk(m, p.container, p.index, x, Flags(false, false), layers - 1);
    }
  }

  // ---------- where an item lands, from the lists alone ----------

  /** A stack in `c`, other than `x`, that has room for some of it. */
  ghost predicate HasRoom(m: Shape, c: Item, x: Item, y: Item)
    requires c in m && x in m
  {
    y in m[c].list && y in m && y != x && m[y].kind == m[x].kind && m[y].count < 100
  }

  /** `x` comes from elsewhere and some stack in `c` has room for it. */
  ghost predicate Joins(m: Shape, c: Item, x: Item)
    requires c in m && x in m
  {
    m[x].kind.stackable && m[x].parent != c && exists y :: y in m[c].list && HasRoom(m, c, x, y)
  }

  /** The place is the first stack in `c` with room. */
  ghost predicate AtFirst(m: Shape, p: Place, c: Item, x: Item)
    requires c in m && x in m
  {
    && p.container == c && 0 <= p.index < |m[c].list| && p.item == m[c].list[p.index] && HasRoom(m, c, x, p.item)
    && forall j :: 0 <= j < p.index ==> !HasRoom(m, c, x, m[c].list[j])
  }

  /** The place is in `c`: the first stack with room, or in front. */
  ghost predicate Into(m: Shape, p: Place, c: Item, x: Item)
    requires c in m && x in m
  {
    if c.unlocked && Joins(m, c, x) then AtFirst(m, p, c, x) else p == Place(c, WHEREEVER, null)
  }

  /** The index names an item that lies in the container. */
  predicate NamesItem(m: Shape, c: Item, index: int)
    requires c in m
  {
    index != ADD_WHEREVER && 0 <= index < |m[c].list| && index < c.capacity
  }

  /** A stack with room first; then the container at the index, or the item there; else in front. */
  ghost predicate LeadsTo(m: Shape, p: Place, to: Item, index: int, x: Item, stacking: bool)
    requires to in m && x in m
  {
    if index == MOVE_UP then
      if m[to].parent in m then Into(m, p, m[to].parent, x) else p == Place(to, WHEREEVER, null)
    else if stacking && Joins(m, to, x) then AtFirst(m, p, to, x)
    else if NamesItem(m, to, index) && m[to].list[index] in m then
      var y := m[to].list[index];
      if y.container then Into(m, p, y, x) else p == Place(to, index, y)
    else p.container == to && p.item == null && p.index < to.capacity
  }

  /** The container in which what does not merge ends: the one above, the one at the index if no stack
      takes the item, else the one asked for. */
  ghost function Target(m: Shape, to: Item, index: int, x: Item, stacking: bool): Item
    requires to in m && x in m
  {
    if index == MOVE_UP then (if m[to].parent != null then m[to].parent else to)
    else if !(stacking && Joins(m, to, x)) && NamesItem(m, to, index) && m[to].list[index].container then m[to].list[index]
    else to
  }

  lemma {:induction false} LeadsToTarget(m: Shape, p: Place, to: Item, index: int, x: Item, stacking: bool)
    requires Linked(m) && to in m && x in m && LeadsTo(m, p, to, index, x, stacking)
    ensures p.container == Target(m, to, index, x, stacking)
  {
    ListIn(m, to);
  }

  /** What was moved is where it should be: on the stack at the place as far as there is room, the
      rest, or an item that is no stack, in front of what lies there.  Only the rest of a rune whose
      place is beyond the capacity is nowhere. */
  ghost predicate Arrived(m: Shape, n: Shape, from: Item, p: Place, x: Item, moved: nat, y: Item?)
    requires x in m && p.container in m && (p.item != null ==> p.item in m)
  {
    && m.Keys <= n.Keys
    && if !m[x].kind.stackable then
         y == x && n[x] == m[x].(parent := p.container) && n[p.container].list == [x] + Left(m, from, p.container, x, moved)
       else
         && TakenAndGrown(m, n, from, p, x, moved)
         && if Grown(m, p, x, moved) == moved then
              y == x && n.Keys == m.Keys && n[p.container].list == Left(m, from, p.container, x, moved)
            else
              && y != null && y !in m && n.Keys == m.Keys + {y}
              && NewLies(m, n, from, p, x, moved, y)
  }

  /** What else lies in the destination, in the same order. */
  ghost function Left(m: Shape, from: Item, c: Item, x: Item, moved: nat): seq<Item>
    requires c in m && x in m
  {
    if from == c && (m[x].kind.stackable ==> moved == m[x].count) then Without(m[c].list, x) else m[c].list
  }

  /** By how much the stack at the place grows: up to a hundred; runes never merge. */
  function Grown(m: Shape, p: Place, x: Item, moved: nat): int
    requires x in m && (p.item != null ==> p.item in m)
  {
    if p.item != null && m[p.item].kind == m[x].kind && !m[x].kind.rune then Min(100 - m[p.item].count, moved) else 0
  }

  ghost predicate TakenAndGrown(m: Shape, n: Shape, from: Item, p: Place, x: Item, moved: nat)
    requires x in m && (p.item != null ==> p.item in m) && m.Keys <= n.Keys
  {
    && (p.item != null ==> n[p.item].count == m[p.item].count + Grown(m, p, x, moved))
    && moved <= m[x].count
    && n[x] == if moved == m[x].count then m[x].(parent := null) else m[x].(count := m[x].count - moved)
  }

  ghost predicate NewLies(m: Shape, n: Shape, from: Item, p: Place, x: Item, moved: nat, y: Item)
    requires x in m && (p.item != null ==> p.item in m) && p.container in m && m.Keys <= n.Keys && y in n
  {
    var rest := moved - Grown(m, p, x, moved);
    && n[y].kind == m[x].kind && n[y].count == rest && n[y].list == []
    && if p.index < p.container.capacity
       then n[y].parent == p.container && n[p.container].list == [y] + Left(m, from, p.container, x, moved)
       else n[y].parent == null && n[p.container].list == Left(m, from, p.container, x, moved)
  }

  lemma {:induction false} JoinsAtFit(m: Shape, c: Item, x: Item)
    requires Linked(m) && c in m && x in m
    ensures Listed(m, c)
    ensures var i := FirstFit(m, m[c].list, x);
            && ((exists y :: y in m[c].list && HasRoom(m, c, x, y)) <==> i < |m[c].list|)
            && (i < |m[c].list| ==> AtFirst(m, Place(c, i, m[c].list[i]), c, x))
  {
    ListIn(m, c);
    var l := m[c].list;
    FirstFitIs(m, l, x);
    var i := FirstFit(m, l, x);
    if i < |l| {
      assert HasRoom(m, c, x, l[i]);
    }
  }

  /** What one container answers: nothing but itself if it is locked; up; a stack with room; the
      container or the item at the index; or itself, in front. */
  ghost predicate Leads(m: Shape, p: Place, c: Item, index: int, x: Item, stacking: bool)
    requires c in m && x in m
  {
    && (!c.unlocked ==> p == Place(c, index, null))
    && (c.unlocked && index == MOVE_UP ==> p == Place(if m[c].parent != null then m[c].parent else c, WHEREEVER, null))
    && (c.unlocked && index != MOVE_UP && stacking && Joins(m, c, x) ==> AtFirst(m, p, c, x))
    && (c.unlocked && index != MOVE_UP && !(stacking && Joins(m, c, x)) && NamesItem(m, c, index) ==>
          p == if m[c].list[index].container then Place(m[c].list[index], WHEREEVER, null)
               else Place(c, index, m[c].list[index]))
    && (c.unlocked && index != MOVE_UP && !(stacking && Joins(m, c, x)) && !NamesItem(m, c, index) ==>
          p == Place(c, if index == ADD_WHEREVER || index >= c.capacity then WHEREEVER else index, null))
  }

  lemma {:induction false} DestinationLeads(m: Shape, c: Item, index: int, x: Item, stacking: bool)
    requires Linked(m) && c in m && x in m
    ensures Leads(m, Destination(m, c, index, x, stacking), c, index, x, stacking)
  {
    JoinsAtFit(m, c, x);
  }

  lemma {:induction false} FirstLead(m: Shape, rank: Ranks, c: Item, index: int, x: Item, stacking: bool)
    requires Linked(m) && Ranked(m, rank) && c in m && x in m
    ensures Leads(m, Destination(m, c, index, x, stacking), c, index, x, stacking)
    ensures Listed(m, c) && c !in m[c].list && m[c].parent != c && (m[c].parent != null ==> m[c].parent in m)
  {
    DestinationLeads(m, c, index, x, stacking);
    ListIn(m, c);
    BelowRanks(m, rank, c);
    assert UpOk(m, c) && RankOk(m, rank, c);
  }

  /** A container asked for any place does not lead elsewhere. */
  lemma {:induction false} LeadsInto(m: Shape, rank: Ranks, c: Item, x: Item, flags: Flags, layers: nat)
    requires Linked(m) && Ranked(m, rank) && c in m && x in m
    ensures !flags.ignoreAutoStack ==> Into(m, Resolve(m, c, WHEREEVER, x, flags, layers).place, c, x)
    ensures Resolve(m, c, WHEREEVER, x, flags, layers).flags == flags
  {
    if c.unlocked { FirstLead(m, rank, c, WHEREEVER, x, !flags.ignoreAutoStack); }
  }

  /** The chain of redirections ends after one step, where the lists say. */
  lemma {:induction false} ResolveLeads(m: Shape, rank: Ranks, to: Item, index: int, x: Item, flags: Flags)
    requires Linked(m) && Ranked(m, rank) && to in m && x in m
    ensures var p := Resolve(m, to, index, x, flags, MAP_MAX_LAYERS).place;
            if to.unlocked then LeadsTo(m, p, to, index, x, !flags.ignoreAutoStack) else p == Place(to, index, null)
    ensures var r := Resolve(m, to, index, x, flags, MAP_MAX_LAYERS);
            r.flags == if r.place.container == to then flags else Flags(false, false)
  {
    if to.unlocked {
      FirstLead(m, rank, to, index, x, !flags.ignoreAutoStack);
      var p := Destination(m, to, index, x, !flags.ignoreAutoStack);
      hide Linked, Ranked, Destination, Joins;
      if p.container != to {
        LeadsInto(m, rank, p.container, x, Flags(false, false), MAP_MAX_LAYERS - 1);
      }
    }
  }

  /** How much a move carries over; nothing if it is refused. */
  ghost function Granted(m: Shape, rank: Ranks, owner: Owner, from: Item, route: Route, x: Item, n: nat, trade: Item?): nat
    requires Linked(m) && Ranked(m, rank) && from in m && x in m && route.place.container in m
  {
    var p := route.place;
    var max := MaxCount(m, rank, owner, p.container, p.index, x);
    var amount := Amount(m[x], n, max);
    if p.item == x then 0
    else if AddCode(m, rank, owner, p.container, p.index == WHEREEVER, x, n) != NoError then 0
    else if RemoveCode(m, from, x, amount, route.flags.ignoreNotMoveable) != NoError then 0
    else if trade != null && trade in Above(m, rank, p.container) then 0
    else amount
  }

  /** The answer to a move: the first check that refuses, or too little room for all of it. */
  ghost function MoveCode(m: Shape, rank: Ranks, owner: Owner, from: Item, route: Route, x: Item, n: nat, trade: Item?): Code
    requires Linked(m) && Ranked(m, rank) && from in m && x in m && route.place.container in m
  {
    var p := route.place;
    var max := MaxCount(m, rank, owner, p.container, p.index, x);
    var add := AddCode(m, rank, owner, p.container, p.index == WHEREEVER, x, n);
    var remove := RemoveCode(m, from, x, Amount(m[x], n, max), route.flags.ignoreNotMoveable);
    if p.item == x then NoError
    else if add != NoError then add
    else if max == 0 && (m[x].kind.stackable ==> n > 0) then ContainerNotEnoughRoom
    else if remove != NoError then remove
    else if trade != null && trade in Above(m, rank, p.container) then NotEnoughRoom
    else if m[x].kind.stackable && max < n then ContainerNotEnoughRoom
    else NoError
  }

  function Amount(t: Thing, n: nat, max: nat): nat {
    if t.kind.stackable then Min(if t.kind.rune then t.count else n, max) else max
  }

  /** Whatever does not merge finds a free slot, but for runes. */
  lemma {:induction false} GrantedFits(m: Shape, rank: Ranks, owner: Owner, from: Item, route: Route, x: Item, n: nat, trade: Item?)
    requires Linked(m) && Ranked(m, rank) && from in m && x in m && PlaceOk(m, route.place, x)
    ensures var a, p := Granted(m, rank, owner, from, route, x, n, trade), route.place;
            && (a > 0 ==> x in m[from].list && p.item != x && x !in Above(m, rank, p.container))
            && (a > 0 && m[x].kind.stackable ==> a <= m[x].count)
            && (a > 0 && !(m[x].kind.rune && m[x].kind.stackable) && (m[x].kind.stackable ==> a > Merged(m, p, x, a)) ==>
                  p.index < p.container.capacity && |m[p.container].list| < p.container.capacity)
  {
    ListIn(m, route.place.container);
    hide Above;
  }

  // ---------- what a step changes ----------

  /** Containers hold so many fewer of a kind and the same of every other. */
  ghost predicate Fell(m: Shape, n: Shape, kind: Kind, d: int) {
    forall f :: Total(n, f) == Total(m, f) - f(kind) * d
  }

  ghost predicate Partial(m: Shape, x: Item, n: nat)
    requires x in m
  {
    m[x].kind.stackable && n != m[x].count
  }

  lemma {:induction false} RemovedMeans(m: Shape, n: Shape, rank: Ranks, c: Item, x: Item, count: nat)
    requires Linked(m) && Ranked(m, rank) && c in m && x in m[c].list && x in m && (m[x].kind.stackable ==> count <= m[x].count)
    requires Removed(m, n, c, x, count)
    ensures x != c && n.Keys == m.Keys && m[x].parent == c
    ensures Partial(m, x, count) ==> n == Retype(m, x, m[x].kind, m[x].count - count)
    ensures !Partial(m, x, count) ==> n[x] == m[x].(parent := null)
    ensures !Partial(m, x, count) ==> n[c] == m[c].(list := n[c].list) && |n[c].list| == |m[c].list| - 1
    ensures !Partial(m, x, count) ==> forall y :: y in n[c].list <==> y in m[c].list && y != x
    ensures forall z :: z in m && z != x && z != c ==> n[z] == m[z]
    ensures Fell(m, n, m[x].kind, if m[x].kind.stackable then count else m[x].count)
  {
    BelowRanks(m, rank, c);
    assert ListOk(m, c);
    if Partial(m, x, count) {
      forall f: Measure ensures Total(n, f) == Total(m, f) - f(m[x].kind) * count {
        RecountTotal(m, x, m[x].count - count, f);
        Distributes(f(m[x].kind), 0, count);
      }
    } else {
      var i :| 0 <= i < |m[c].list| && m[c].list[i] == x;
      WithoutAt(m[c].list, i);
      assert n == Detach(m, c, i);
      forall f: Measure ensures Total(n, f) == Total(m, f) - f(m[x].kind) * m[x].count {
        DetachTotal(m, c, i, f);
      }
    }
  }

  // ---------- the game ----------

  class Game {
    const owner: Owner
    ghost var world: set<Item>
    ghost var rank: Ranks

    constructor (owner: Owner)
      ensures Valid() && world == {} && this.owner == owner
    {
      this.owner := owner;
      world, rank := {}, map[];
    }

    ghost function Now(): Shape
      reads this, world
    {
      ShapeOf(world)
    }

    ghost predicate Valid()
      reads this, world
    {
      Good(ShapeOf(world), rank, WeightsOf(world))
    }

    /** The weight of every item, as cached, is the recursive sum of all that lies in it. */
    lemma {:induction false} WeightIsDeep(x: Item)
      requires Valid() && x in world
      ensures x.GetWeight() == DeepWeight(Now(), rank, x)
    {
      CachedIsDeep(Now(), rank, WeightsOf(world), x);
    }

    method QueryAdd(c: Item, index: int, x: Item, n: nat) returns (r: Code)
      requires Valid() && c in world && x in world
      ensures r == AddCode(Now(), rank, owner, c, index == WHEREEVER, x, n)
      ensures var asked := c.unlocked && x.kind.pickupable && x !in Above(Now(), rank, c);
              var free := index != WHEREEVER || |c.itemlist| < c.capacity;
              && (asked && free ==> r == owner(c, x.kind, n))
              && (asked && !free ==> r == ContainerNotEnoughRoom)
              && (!asked ==> r == if !c.unlocked then NotPossible else if x.kind.pickupable then ThisIsImpossible else CannotPickup)
    {
      if !c.unlocked {
        return NotPossible;
      }
      if !x.kind.pickupable {
        return CannotPickup;
      }
      AboveIs(Now(), rank, c);
      hide Above, Higher;
      if x == c {
        return ThisIsImpossible;
      }
      var inside := LiesIn(c.parent, x);
      if inside {
        return ThisIsImpossible;
      }
      if index == WHEREEVER && |c.itemlist| >= c.capacity {
        return ContainerNotEnoughRoom;
      }
      return owner(c, x.kind, n);
    }

    /** Is `x` among `start` and what that lies in? */
    method LiesIn(start: Item?, x: Item) returns (r: bool)
      requires Valid() && (start != null ==> start in world) && x in world
      ensures r <==> x in Above(Now(), rank, start)
    {
      hide Above, Higher;
      var cylinder := start;
      while cylinder != null
        invariant cylinder != null ==> cylinder in world
        invariant x in Above(Now(), rank, cylinder) <==> x in Above(Now(), rank, start)
        decreases if cylinder == null then {} else Higher(rank, cylinder), cylinder != null
      {
        AboveIs(Now(), rank, cylinder);
        if cylinder == x {
          return true;
        }
        cylinder := cylinder.parent;
      }
      AboveNull(Now(), rank);
      return false;
    }

    method QueryMaxCount(c: Item, index: int, x: Item, n: nat) returns (r: Code, max: nat)
      requires Valid() && c in world && x in world
      ensures max == MaxCount(Now(), rank, owner, c, index, x)
      ensures r == if (if x.kind.stackable then max < n else max == 0) then ContainerNotEnoughRoom else NoError
    {
      ListIn(Now(), c);
      hide AddCode, Above;
      ghost var m := Now();
      assert m[c].list == c.itemlist && m[x].kind == x.kind;
      var freeSlots: nat := Max(c.capacity - |c.itemlist|, 0);
      assert freeSlots == FreeSlots(m, c);
      if x.kind.stackable {
        var room: nat := 0;
        if index == WHEREEVER {
          room := AllStacks(c, x);
        } else if 0 <= index < |c.itemlist| {
          var y := c.itemlist[index];
          assert y in c.itemlist && m[y].kind == y.kind && m[y].count == y.count;
          if x.kind == y.kind && y.count < 100 {
            var q := QueryAdd(c, index, x, 100 - y.count);
            if q == NoError {
              room := 100 - y.count;
            }
          }
        }
        max := freeSlots * 100 + room;
        r := if max < n then ContainerNotEnoughRoom else NoError;
      } else {
        max := freeSlots;
        r := if max == 0 then ContainerNotEnoughRoom else NoError;
      }
    }

    /** Looks through all stacks for room. */
    method AllStacks(c: Item, x: Item) returns (room: nat)
      requires Valid() && c in world && x in world
      ensures Listed(Now(), c) && room == StackRoom(Now(), rank, owner, c, c.itemlist, x)
    {
      hide Good, AddCode, Linked, Ranked, Above, StackRoom;
      GoodParts(Now(), rank, WeightsOf(world));
      ListIn(Now(), c);
      NoRoom(Now(), rank, owner, c, x);
      room := 0;
      var slotIndex := 0;
      var i := 0;
      while i < |c.itemlist|
        invariant 0 <= slotIndex <= i <= |c.itemlist|
        invariant room == StackRoom(Now(), rank, owner, c, c.itemlist[..i], x)
      {
        var y := c.itemlist[i];
        assert c.itemlist[..i + 1] == c.itemlist[..i] + [y];
        assert y in c.itemlist;
        RoomAlso(Now(), rank, owner, c, c.itemlist[..i], y, x);
        if y != x && y.kind == x.kind && y.count < 100 {
          var more := RoomOn(c, y, x, slotIndex);
          room := room + more;
          slotIndex := slotIndex + 1;
        }
        i := i + 1;
      }
      assert c.itemlist[..i] == c.itemlist;
    }

    /** The room on one stack, if the carrier takes as much. */
    method RoomOn(c: Item, y: Item, x: Item, slotIndex: nat) returns (room: nat)
      requires Valid() && c in world && x in world && y in world && y.count < 100
      ensures room == if AddCode(Now(), rank, owner, c, false, x, 100 - y.count) == NoError then 100 - y.count else 0
    {
      hide Good, AddCode, Above;
      var q := QueryAdd(c, slotIndex, x, 100 - y.count);
      room := if q == NoError then 100 - y.count else 0;
    }

    method QueryRemove(c: Item, x: Item, n: nat, ignoreNotMoveable: bool) returns (r: Code)
      requires Valid() && c in world && x in world
      ensures r == RemoveCode(Now(), c, x, n, ignoreNotMoveable)
      ensures r == NoError <==>
                x in c.itemlist && n > 0 && (x.kind.stackable ==> n <= x.count) && (x.kind.moveable || ignoreNotMoveable)
      ensures r == NotMoveable <==>
                x in c.itemlist && n > 0 && (x.kind.stackable ==> n <= x.count) && !x.kind.moveable && !ignoreNotMoveable
      ensures r in {NoError, NotMoveable, NotPossible}
    {
      var index := c.GetThingIndex(x);
      if index == -1 {
        return NotPossible;
      }
      if n == 0 || (x.kind.stackable && n > x.count) {
        return NotPossible;
      }
      if !x.kind.moveable && !ignoreNotMoveable {
        return NotMoveable;
      }
      return NoError;
    }

    method QueryDestination(c: Item, index: int, x: Item, autoStack: bool) returns (place: Place)
      requires Valid() && c in world && x in world
      ensures place == Destination(Now(), c, index, x, autoStack) && Leads(Now(), place, c, index, x, autoStack)
    {
      ListIn(Now(), c);
      DestinationLeads(Now(), c, index, x, autoStack);
      hide Leads;
      if !c.unlocked {
        return Place(c, index, null);
      }
      if index == MOVE_UP {
        return Place(if c.parent != null then c.parent else c, WHEREEVER, null);
      }
      var at := index;
      if index == ADD_WHEREVER {
        at := WHEREEVER;
      } else if index >= c.capacity {
        at := WHEREEVER;
      }
      if autoStack && x.kind.stackable && x.parent != c {
        var fit := FindFit(c, x);
        if fit < |c.itemlist| {
          return Place(c, fit, c.itemlist[fit]);
        }
      }
      if at != WHEREEVER && 0 <= at < |c.itemlist| {
        if c.itemlist[at].container {
          return Place(c.itemlist[at], WHEREEVER, null);
        }
        return Place(c, at, c.itemlist[at]);
      }
      return Place(c, at, null);
    }

    method FindFit(c: Item, x: Item) returns (i: nat)
      requires Valid() && c in world && x in world
      ensures Listed(Now(), c) && i == FirstFit(Now(), c.itemlist, x)
    {
      ListIn(Now(), c);
      ghost var m, l := Now(), c.itemlist;
      FirstFitIs(m, l, x);
      hide Good, Linked, FirstFit;
      i := 0;
      while i < |c.itemlist|
        invariant i <= |c.itemlist|
        invariant forall j :: 0 <= j < i ==> !Fits(m, l[j], x)
      {
        var y := c.itemlist[i];
        assert y in l && m[y] == y.Look() && m[x] == x.Look();
        if y != x && y.kind == x.kind && y.count < 100 {
          return;
        }
        i := i + 1;
      }
    }

    // ---------- single steps ----------

    /** A new item or container that lies nowhere yet. */
    method Create(kind: Kind, count: nat, container: bool, capacity: nat, unlocked: bool) returns (y: Item)
      requires Valid() && (kind.stackable ==> !container && 1 <= count <= 100)
      modifies this`world, this`rank
      ensures Valid() && fresh(y) && world == old(world) + {y} && rank == old(rank)[y := 0]
      ensures Now() == old(Now())[y := Thing(kind, count, null, [])]
      ensures y.container == container && y.capacity == capacity && y.unlocked == unlocked
    {
      ghost var m, w := Now(), WeightsOf(world);
      hide Good;
      y := new Item(kind, count, container, capacity, unlocked);
      NewGood(m, rank, w, y, Thing(kind, count, null, []));
      world := world + {y};
      rank := rank[y := 0];
      assert Now() == m[y := Thing(kind, count, null, [])];
      assert WeightsOf(world) == w[y := 0];
    }

    method CreateStack(kind: Kind, count: nat) returns (y: Item)
      requires Valid() && (kind.stackable ==> 1 <= count <= 100)
      modifies this`world, this`rank
      ensures Valid() && fresh(y) && world == old(world) + {y} && rank == old(rank)[y := 0]
      ensures Now() == old(Now())[y := Thing(kind, count, null, [])]
    {
      hide Good;
      y := Create(kind, count, false, 0, false);
    }

    method Take(c: Item, x: Item, n: nat)
      requires Valid() && c in world && x in world && (x.kind.stackable ==> 0 < n <= x.count)
      modifies world
      ensures Valid() && Removed(old(Now()), Now(), c, x, n)
    {
      hide Good, Removed;
      c.RemoveThing(x, n, world, rank);
    }

    method Put(c: Item, index: int, x: Item)
      requires Valid() && c in world && x in world && c.container && x.parent == null && x !in Above(Now(), rank, c)
      modifies this`rank, world
      ensures Valid() && Now() == if index < c.capacity then Attach(old(Now()), c, x) else old(Now())
    {
      hide Good, Above;
      rank := c.AddThing(index, x, world, rank);
    }

    method Fill(c: Item, x: Item, n: nat)
      requires Valid() && c in world && x in world && x in c.itemlist && x.kind.stackable && x.count + n <= 100
      modifies world
      ensures Valid() && Now() == Retype(old(Now()), x, old(x.kind), old(x.count) + n)
    {
      ChildOf(Now(), rank, WeightsOf(world), c, x);
      StackLow(Now(), x);
      hide Good;
      c.UpdateThing(x, x.kind, x.count + n, world, rank);
    }

    // ---------- moving ----------

    /** Moves an item that is no stack, with all that lies in it. */
    method MoveWhole(from: Item, dest: Item, index: int, x: Item, n: nat)
      requires Valid() && from in world && dest in world && x in from.itemlist && x in world && !x.kind.stackable
      requires dest.container && index < dest.capacity && x !in Above(Now(), rank, dest)
      modifies this`rank, world
      ensures Valid()
      ensures WentWhole(old(Now()), Now(), from, dest, x)
      ensures Moved(old(Now()), Now(), from, dest, x, null, true, true)
      ensures SameTotals(old(Now()), Now())
    {
      ghost var m, r := Now(), rank;
      assert Linked(m) && Ranked(m, rank) && m[x] == x.Look() && m[from].list == from.itemlist;
      hide Good, Above, Linked, Ranked, Removed, ShapeOf, Moved;
      Take(from, x, n);
      ghost var m1 := Now();
      WholeOut(m, m1, rank, from, dest, x, n);
      Seen(world, x);
      Put(dest, index, x);
      WholeMoved(m, m1, r, from, dest, x, n);
    }

    /** A new item put in front of what lies in `c`, or lost if its place is beyond the capacity. */
    method PutNew(c: Item, index: int, kind: Kind, count: nat) returns (y: Item)
      requires Valid() && c in world && c.container && (kind.stackable ==> 1 <= count <= 100)
      modifies this`rank, this`world, world
      ensures Valid() && fresh(y) && world == old(world) + {y}
      ensures Now() == Added(old(Now()), c, index, y, Thing(kind, count, null, []))
    {
      hide Good, Above, Ranked, ShapeOf, WeightsOf;
      ghost var m, r := Now(), rank;
      GoodParts(m, r, WeightsOf(world));
      Seen(world, c);
      y := CreateStack(kind, count);
      GoodParts(Now(), rank, WeightsOf(world));
      NewAbove(m, r, c, y, Thing(kind, count, null, []));
      Seen(world, y);
      Put(c, index, y);
    }

    lemma {:induction false} TakesNow(from: Item, place: Place, x: Item, amount: nat)
      requires Valid() && from in world && x in from.itemlist && x in world && x.kind.stackable
      requires 1 <= amount <= x.count && PlaceOk(Now(), place, x) && place.item != x
      ensures Takes(Now(), rank, from, place, x, amount)
    {
      StackLow(Now(), x);
      assert place.item != null ==> StackOk(Now()[place.item]);
    }

    /** Takes some of a stack away; the stack at the destination stays as it was. */
    method TakeStack(from: Item, place: Place, x: Item, amount: nat)
      requires Valid() && Takes(Now(), rank, from, place, x, amount)
      modifies world
      ensures Valid() && Removed(old(Now()), Now(), from, x, amount)
      ensures place.item != null ==>
                && place.item in world && place.container in world && place.item in place.container.itemlist
                && place.item.kind == old(Now())[place.item].kind && place.item.count == old(Now())[place.item].count
    {
      hide Good, Removed, Total;
      ghost var m := Now();
      Take(from, x, amount);
      hide Takes;
      StillThere(m, Now(), rank, from, place, x, amount);
    }

    /** Takes some of a stack away and puts as much of it as goes onto the stack at the destination. */
    method TakeAndFill(from: Item, place: Place, x: Item, amount: nat) returns (n: nat)
      requires Valid() && Takes(Now(), rank, from, place, x, amount) && Merges(Now(), place, x)
      modifies world
      ensures Valid() && n == Merged(old(Now()), place, x, amount)
      ensures Filled(old(Now()), Now(), from, place, x, amount)
    {
      hide Good, Takes, Removed, Filled, Total, ShapeOf;
      ghost var m := Now();
      TakesMeans(m, rank, from, place, x, amount);
      TakeStack(from, place, x, amount);
      ghost var m1 := Now();
      Seen(world, place.item);
      n := Min(100 - place.item.count, amount);
      Fill(place.container, place.item, n);
      SomeFilled(m, m1, rank, from, place, x, amount);
    }

    /** Takes some of a stack away that goes onto no other. */
    method TakeOnly(from: Item, place: Place, x: Item, amount: nat)
      requires Valid() && Takes(Now(), rank, from, place, x, amount) && !Merges(Now(), place, x)
      modifies world
      ensures Valid() && Filled(old(Now()), Now(), from, place, x, amount)
    {
      ghost var m := Now();
      hide Good, Takes, Removed, Filled, Total;
      TakeStack(from, place, x, amount);
      NoneFilled(m, Now(), rank, from, place, x, amount);
    }

    method TakeStep(from: Item, place: Place, x: Item, amount: nat) returns (rest: nat)
      requires Valid() && Takes(Now(), rank, from, place, x, amount)
      modifies world
      ensures Valid() && rest == amount - Merged(old(Now()), place, x, amount)
      ensures Filled(old(Now()), Now(), from, place, x, amount)
    {
      hide Good, Takes, Filled;
      TakesMeans(Now(), rank, from, place, x, amount);
      if !x.kind.rune && place.item != null && x.kind == place.item.kind {
        var n := TakeAndFill(from, place, x, amount);
        rest := amount - n;
      } else {
        TakeOnly(from, place, x, amount);
        rest := amount;
      }
    }

    method PutRest(ghost m: Shape, from: Item, place: Place, x: Item, amount: nat, kind: Kind, rest: nat) returns (y: Item)
      requires Valid() && x in m && place.container in m && place.container.container && (place.item != null ==> place.item in m)
      requires Filled(m, Now(), from, place, x, amount) && 0 < rest == amount - Merged(m, place, x, amount) <= amount <= 100
      requires kind == m[x].kind
      modifies this`rank, this`world, world
      ensures Valid() && fresh(y) && world == old(world) + {y}
      ensures StackWent(m, Now(), from, place, x, amount, y) && y !in m
    {
      ghost var m2 := Now();
      assert m2.Keys == m.Keys == world;
      hide Good, Filled, StackWent, Merged, Added;
      y := PutNew(place.container, place.index, kind, rest);
      StackMoved(m, m2, from, place, x, amount, y);
    }

    /** Moves some of a stack: first onto the stack at the destination, the rest as a new item. */
    method MoveStack(from: Item, place: Place, x: Item, amount: nat) returns (moveItem: Item)
      requires Valid() && Takes(Now(), rank, from, place, x, amount)
      modifies this`rank, this`world, world
      ensures Valid() && old(world) <= world && fresh(world - old(world))
      ensures StackWent(old(Now()), Now(), from, place, x, amount, moveItem)
      ensures Handed(old(Now()), Now(), place, x, amount, moveItem)
    {
      hide Good, Filled, Takes, StackWent;
      TakesMeans(Now(), rank, from, place, x, amount);
      hide Merged, Handed;
      ghost var m := Now();
      var kind := x.kind;
      assert kind == m[x].kind;
      var rest := TakeStep(from, place, x, amount);
      if rest > 0 {
        moveItem := PutRest(m, from, place, x, amount, kind, rest);
      } else {
        moveItem := x;
        AllMerged(m, Now(), from, place, x, amount);
      }
      NowHanded(m, Now(), place, x, amount, moveItem);
    }

    /** Takes some of an item, or all of it for -1, out of the container in which it lies. */
    method InternalRemoveItem(x: Item, count: int, test: bool) returns (code: Code)
      requires Valid() && x in world && count >= -1
      modifies world
      ensures Valid()
      ensures RemoveDone(old(Now()), Now(), x, if count == -1 then old(x.count) else count, test, code)
    {
      ParentIn(x);
      hide Good, Removed;
      if x.parent == null {
        return NotPossible;
      }
      var n: nat := if count == -1 then x.count else count;
      code := QueryRemove(x.parent, x, n, true);
      if code == NoError && !test {
        Take(x.parent, x, n);
      }
    }

    lemma {:induction false} ParentIn(x: Item)
      requires Valid() && x in world
      ensures x.parent != null ==> x.parent in world && x in x.parent.itemlist
    {
      assert UpOk(Now(), x);
    }

    /** Asks the destination until it no longer leads elsewhere. */
    method FindPlace(to: Item, index: int, x: Item, flags: Flags) returns (route: Route)
      requires Valid() && to in world && x in world && to.container
      ensures route == Resolve(Now(), to, index, x, flags, MAP_MAX_LAYERS)
    {
      ghost var m := Now();
      assert Linked(m);
      hide Good, Destination, Linked;
      var toCylinder := to;
      route := Route(Place(to, index, null), flags);
      var floorN := 0;
      while true
        invariant 0 <= floorN < MAP_MAX_LAYERS
        invariant toCylinder in world && toCylinder.container
        invariant Resolve(m, to, index, x, flags, MAP_MAX_LAYERS) ==
                    Resolve(m, toCylinder, route.place.index, x, route.flags, MAP_MAX_LAYERS - floorN)
        decreases MAP_MAX_LAYERS - floorN
      {
        var place := QueryDestination(toCylinder, route.place.index, x, !route.flags.ignoreAutoStack);
        DestinationOk(m, toCylinder, route.place.index, x, !route.flags.ignoreAutoStack);
        if place.container == toCylinder {
          return Route(place, route.flags);
        }
        toCylinder := place.container;
        route := Route(place, Flags(false, false));
        floorN := floorN + 1;
        if floorN >= MAP_MAX_LAYERS {
          return;
        }
      }
    }

    /** Checks a move and says how much of it can be done. */
    method CheckMove(from: Item, route: Route, x: Item, n: nat, trade: Item?) returns (code: Code, amount: nat, all: bool)
      requires Valid() && from in world && x in world && PlaceOk(Now(), route.place, x)
      requires trade != null ==> trade in world
      ensures amount == Granted(Now(), rank, owner, from, route, x, n, trade)
      ensures var result := MoveCode(Now(), rank, owner, from, route, x, n, trade);
              result == if amount > 0 && x.kind.stackable && !all then ContainerNotEnoughRoom else code
    {
      hide Good, AddCode, MaxCount, Above;
      var p := route.place;
      amount, all := 0, false;
      if x == p.item {
        return NoError, 0, false;
      }
      code := QueryAdd(p.container, p.index, x, n);
      if code != NoError {
        return;
      }
      var maxCode, max := QueryMaxCount(p.container, p.index, x, n);
      if maxCode != NoError && max == 0 {
        return maxCode, 0, false;
      }
      var m := Amount(x.Look(), n, max);
      code := QueryRemove(from, x, m, route.flags.ignoreNotMoveable);
      if code != NoError {
        return;
      }
      if trade != null {
        var inside := LiesIn(p.container, trade);
        if inside {
          return NotEnoughRoom, 0, false;
        }
      }
      return NoError, m, n <= max;
    }

    /** Moves `n` of `x` from a container to another place; `moved` says how many it were.  They arrive
        where the lists lead.  Nothing is lost or made but by a rune whose place is beyond the
        capacity, and no container gets overfull but by a rune that is taken for one that merges. */
    method InternalMoveItem(from: Item, to: Item, index: int, x: Item, n: nat, flags: Flags, trade: Item?)
      returns (code: Code, moveItem: Item?, ghost moved: nat)
      requires Valid() && from in world && to in world && x in world && to.container
      requires trade != null ==> trade in world
      modifies this`rank, this`world, world
      ensures Valid() && old(world) <= world && fresh(world - old(world))
      ensures var m := old(Now());
              var p := Resolve(m, to, index, x, flags, MAP_MAX_LAYERS).place;
              && PlaceOk(m, p, x)
              && moved == Granted(m, old(rank), owner, from, Resolve(m, to, index, x, flags, MAP_MAX_LAYERS), x, n, trade)
              && code == MoveCode(m, old(rank), owner, from, Resolve(m, to, index, x, flags, MAP_MAX_LAYERS), x, n, trade)
              && Carried(m, Now(), from, p, x, moved, moveItem) && Handed(m, Now(), p, x, moved, moveItem)
              && (SameTotals(m, Now()) <==> !Lost(m, p, x, moved))
              && (WithinCapacity(m, Now()) <==> !Overfills(m, from, p, x, moved))
              && (moved > 0 ==>
                    && to.unlocked && LeadsTo(m, p, to, index, x, !flags.ignoreAutoStack)
                    && Arrived(m, Now(), from, p, x, moved, moveItem))
      ensures moved > 0 && !old(x.kind.stackable) ==>
                x.parent == Target(old(Now()), to, index, x, !flags.ignoreAutoStack)
    {
      ghost var m, r, w := Now(), rank, WeightsOf(world);
      assert Linked(m) && Ranked(m, r) && m[x] == x.Look();
      hide Good, Linked, Ranked, LeadsTo, Arrived, Target, Resolve, Granted, MoveCode, Carried, Handed, SameTotals, WithinCapacity, Overfills, Lost;
      code, moveItem, moved := DoMove(from, to, index, x, n, flags, trade);
      MoveConserves(m, Now(), r, owner, from, Resolve(m, to, index, x, flags, MAP_MAX_LAYERS), x, n, trade, moveItem);
      MoveLands(m, Now(), r, w, owner, from, to, index, x, n, flags, trade, moveItem);
      assert Now()[x] == x.Look();
    }

    method DoMove(from: Item, to: Item, index: int, x: Item, n: nat, flags: Flags, trade: Item?)
      returns (code: Code, moveItem: Item?, ghost moved: nat)
      requires Valid() && from in world && to in world && x in world && to.container
      requires trade != null ==> trade in world
      modifies this`rank, this`world, world
      ensures Valid() && old(world) <= world && fresh(world - old(world))
      ensures var m := old(Now());
              var p := Resolve(m, to, index, x, flags, MAP_MAX_LAYERS).place;
              && PlaceOk(m, p, x)
              && moved == Granted(m, old(rank), owner, from, Resolve(m, to, index, x, flags, MAP_MAX_LAYERS), x, n, trade)
              && code == MoveCode(m, old(rank), owner, from, Resolve(m, to, index, x, flags, MAP_MAX_LAYERS), x, n, trade)
              && Carried(m, Now(), from, p, x, moved, moveItem) && Handed(m, Now(), p, x, moved, moveItem)
    {
      hide Good, Resolve, Granted, MoveCode, StackWent, Moved, Total;
      var route := FindPlace(to, index, x, flags);
      ghost var m := Now();
      ResolveIsOk(to, index, x, flags);
      var amount, all;
      code, amount, all := CheckMove(from, route, x, n, trade);
      moved := amount;
      moveItem := null;
      if amount == 0 {
        return;
      }
      GrantedIsOk(from, route, x, n, trade);
      if x.kind.stackable {
        moveItem := MoveStack(from, route.place, x, amount);
        if !all {
          code := ContainerNotEnoughRoom;
        }
      } else {
        MoveWhole(from, route.place.container, route.place.index, x, amount);
        moveItem := x;
      }
    }

    lemma {:induction false} ResolveIsOk(to: Item, index: int, x: Item, flags: Flags)
      requires Valid() && to in world && x in world && to.container
      ensures PlaceOk(Now(), Resolve(Now(), to, index, x, flags, MAP_MAX_LAYERS).place, x)
    {
      ResolveOk(Now(), to, index, x, flags, MAP_MAX_LAYERS);
    }

    lemma {:induction false} GrantedIsOk(from: Item, route: Route, x: Item, n: nat, trade: Item?)
      requires Valid() && from in world && x in world && PlaceOk(Now(), route.place, x)
      ensures var a, p := Granted(Now(), rank, owner, from, route, x, n, trade), route.place;
              && (a > 0 && x.kind.stackable ==> Takes(Now(), rank, from, p, x, a))
              && (a > 0 && !x.kind.stackable ==>
                    && x in from.itemlist && p.container in world && p.container.container
                    && p.index < p.container.capacity && x !in Above(Now(), rank, p.container))
    {
      GrantedFits(Now(), rank, owner, from, route, x, n, trade);
      var a := Granted(Now(), rank, owner, from, route, x, n, trade);
      hide Granted;
      if a > 0 && x.kind.stackable {
        TakesNow(from, route.place, x, a);
      }
    }
  }

  /** What a move of so many does: nothing, a stack in part or as a whole, or an item. */
  ghost predicate Carried(m: Shape, n: Shape, from: Item, place: Place, x: Item, moved: nat, moveItem: Item?)
    requires x in m && (place.item != null ==> place.item in m)
  {
    if moved == 0 then n == m
    else if m[x].kind.stackable then StackWent(m, n, from, place, x, moved, moveItem)
    else
      && from in m && place.container in m && WentWhole(m, n, from, place.container, x)
      && Moved(m, n, from, place.container, x, null, true, true) && SameTotals(m, n)
  }

  /** The item a caller goes on with: none if nothing moves, a new one for what does not merge of a
      stack, else the item itself. */
  ghost predicate Handed(m: Shape, n: Shape, place: Place, x: Item, moved: nat, moveItem: Item?)
    requires x in m && (place.item != null ==> place.item in m)
  {
    if moved == 0 then moveItem == null
    else
      && moveItem != null && moveItem in n
      && if m[x].kind.stackable && Merged(m, place, x, moved) < moved then moveItem !in m else moveItem == x
  }

  lemma {:induction false} NowHanded(m: Shape, n: Shape, place: Place, x: Item, amount: nat, y: Item)
    requires x in m && (place.item != null ==> place.item in m) && m[x].kind.stackable && amount > 0 && y in n
    requires if Merged(m, place, x, amount) < amount then y !in m else y == x
    ensures Handed(m, n, place, x, amount, y)
  {
  }

  /** The item is in front in the destination and gone from where it was. */
  ghost predicate WentWhole(m: Shape, n: Shape, from: Item, dest: Item, x: Item)
    requires x in m && from in m && dest in m
  {
    !m[x].kind.stackable && n == Attach(TakenOut(m, from, x, 1), dest, x)
  }

  /** What removing does: refused, it changes nothing; else so many left the container. */
  ghost predicate RemoveDone(m: Shape, n: Shape, x: Item, count: nat, test: bool, code: Code)
    requires x in m
  {
    var c := m[x].parent;
    if c == null || c !in m then code == NotPossible && n == m
    else
      && code == RemoveCode(m, c, x, count, true)
      && if code != NoError || test then n == m else Removed(m, n, c, x, count)
  }

  ghost predicate SameTotals(m: Shape, n: Shape) {
    forall f: Measure :: Total(n, f) == Total(m, f)
  }

  /** No container got more than it may hold, or than it held. */
  ghost predicate WithinCapacity(m: Shape, n: Shape) {
    forall c :: c in m && c in n ==> |n[c].list| <= Max(|m[c].list|, c.capacity)
  }

  /** A rune is directed to a stack that lies beyond the capacity of an overfull container. */
  ghost predicate Lost(m: Shape, place: Place, x: Item, moved: nat)
    requires x in m
  {
    moved > 0 && m[x].kind.stackable && m[x].kind.rune && place.index >= place.container.capacity
  }

  /** A rune is directed to a stack in a full container, onto which it does not go. */
  ghost predicate Overfills(m: Shape, from: Item, place: Place, x: Item, moved: nat)
    requires x in m && place.container in m
  {
    var dest := place.container;
    && moved > 0 && m[x].kind.stackable && m[x].kind.rune
    && place.index < dest.capacity <= |m[dest].list|
    && !(from == dest && moved == m[x].count)
  }

  /** Every move conserves the number of each kind and keeps to the capacities, exactly but for
      the two cases of a rune. */
  lemma {:induction false} MoveConserves(m: Shape, n: Shape, rank: Ranks, owner: Owner, from: Item, route: Route, x: Item, count: nat, trade: Item?, y: Item?)
    requires Linked(m) && Ranked(m, rank) && from in m && x in m && PlaceOk(m, route.place, x)
    requires Carried(m, n, from, route.place, x, Granted(m, rank, owner, from, route, x, count, trade), y)
    ensures var moved := Granted(m, rank, owner, from, route, x, count, trade);
            && (SameTotals(m, n) <==> !Lost(m, route.place, x, moved))
            && (WithinCapacity(m, n) <==> !Overfills(m, from, route.place, x, moved))
  {
    GrantedFits(m, rank, owner, from, route, x, count, trade);
    var moved, p := Granted(m, rank, owner, from, route, x, count, trade), route.place;
    hide Granted, Linked, Ranked, Above, Carried, SameTotals, WithinCapacity, Lost, Overfills;
    MoveTotals(m, n, from, p, x, moved, y);
    MoveSizes(m, n, from, p, x, moved, y);
  }

  /** What a granted move carries arrives where the lists lead. */
  lemma {:induction false} MoveLands(m: Shape, n: Shape, rank: Ranks, w: Weights, owner: Owner, from: Item, to: Item, index: int,
                                     x: Item, count: nat, flags: Flags, trade: Item?, y: Item?)
    requires Good(m, rank, w) && Linked(m) && Ranked(m, rank) && from in m && to in m && x in m
    requires var r := Resolve(m, to, index, x, flags, MAP_MAX_LAYERS);
             && PlaceOk(m, r.place, x)
             && var moved := Granted(m, rank, owner, from, r, x, count, trade);
                Carried(m, n, from, r.place, x, moved, y) && Handed(m, n, r.place, x, moved, y)
    ensures var r := Resolve(m, to, index, x, flags, MAP_MAX_LAYERS);
            var moved := Granted(m, rank, owner, from, r, x, count, trade);
            moved > 0 ==>
              && to.unlocked && LeadsTo(m, r.place, to, index, x, !flags.ignoreAutoStack)
              && Arrived(m, n, from, r.place, x, moved, y)
              && (!m[x].kind.stackable ==> x in n && n[x].parent == Target(m, to, index, x, !flags.ignoreAutoStack))
  {
    var r := Resolve(m, to, index, x, flags, MAP_MAX_LAYERS);
    var moved := Granted(m, rank, owner, from, r, x, count, trade);
    if moved > 0 {
      GrantedMeans(m, rank, w, owner, from, r, x, count, trade);
      ResolveLeads(m, rank, to, index, x, flags);
      hide Resolve, Granted, Linked, Ranked, LeadsTo, Arrived, Good, StackWent, Takes, Target, Moved;
      LeadsToTarget(m, r.place, to, index, x, !flags.ignoreAutoStack);
      if m[x].kind.stackable {
        StackArrives(m, n, rank, from, r.place, x, moved, y);
      } else {
        WholeArrives(m, n, rank, from, r.place, x, moved);
        ArrivedWhole(m, n, from, r.place, x, moved, y);
      }
    }
  }

  lemma {:induction false} ArrivedWhole(m: Shape, n: Shape, from: Item, p: Place, x: Item, moved: nat, y: Item?)
    requires x in m && p.container in m && (p.item != null ==> p.item in m) && Arrived(m, n, from, p, x, moved, y)
    ensures !m[x].kind.stackable ==> x in n && n[x].parent == p.container
  {
  }

  lemma {:induction false} GrantedMeans(m: Shape, rank: Ranks, w: Weights, owner: Owner, from: Item, route: Route, x: Item,
                                        n: nat, trade: Item?)
    requires Good(m, rank, w) && Linked(m) && Ranked(m, rank) && from in m && x in m && PlaceOk(m, route.place, x)
    ensures var a, p := Granted(m, rank, owner, from, route, x, n, trade), route.place;
            a > 0 ==>
              && p.container.unlocked && x in m[from].list && x != p.container
              && (m[x].kind.stackable ==> Takes(m, rank, from, p, x, a))
  {
    GrantedFits(m, rank, owner, from, route, x, n, trade);
    AboveIs(m, rank, route.place.container);
    assert StackOk(m[x]) && (route.place.item != null ==> StackOk(m[route.place.item]));
    hide Above;
  }

  lemma {:induction false} MoveTotals(m: Shape, n: Shape, from: Item, p: Place, x: Item, moved: nat, y: Item?)
    requires x in m && PlaceOk(m, p, x) && Carried(m, n, from, p, x, moved, y)
    requires moved > 0 && m[x].kind.stackable && !m[x].kind.rune && moved > Merged(m, p, x, moved) ==> p.index < p.container.capacity
    ensures SameTotals(m, n) <==> !Lost(m, p, x, moved)
  {
    hide Total, FilledShape, IsMoved, WentWhole, Moved;
    if moved > 0 && m[x].kind.stackable {
      if Lost(m, p, x, moved) {
        var one := (k: Kind) => 1;
        assert one(m[x].kind) == 1 && Total(n, one) != Total(m, one);
      }
    }
  }

  lemma {:induction false} MoveSizes(m: Shape, n: Shape, from: Item, p: Place, x: Item, moved: nat, y: Item?)
    requires x in m && PlaceOk(m, p, x) && Carried(m, n, from, p, x, moved, y)
    requires moved > 0 && !(m[x].kind.rune && m[x].kind.stackable) && (m[x].kind.stackable ==> moved > Merged(m, p, x, moved)) ==>
               |m[p.container].list| < p.container.capacity
    ensures WithinCapacity(m, n) <==> !Overfills(m, from, p, x, moved)
  {
    hide Total, FilledShape, IsMoved, WentWhole;
    if Overfills(m, from, p, x, moved) {
      assert p.container in n && |n[p.container].list| > Max(|m[p.container].list|, p.container.capacity);
    }
  }

  lemma {:induction false} StackArrives(m: Shape, n: Shape, rank: Ranks, from: Item, p: Place, x: Item, moved: nat, y: Item?)
    requires Takes(m, rank, from, p, x, moved) && StackWent(m, n, from, p, x, moved, y) && Handed(m, n, p, x, moved, y)
    ensures p.container in m && Arrived(m, n, from, p, x, moved, y)
  {
    FilledArrives(m, rank, from, p, x, moved);
    TakesMeans(m, rank, from, p, x, moved);
    hide Takes, Moved, Fell, FilledShape;
  }

  lemma {:induction false} FilledArrives(m: Shape, rank: Ranks, from: Item, p: Place, x: Item, moved: nat)
    requires Takes(m, rank, from, p, x, moved)
    ensures var n := FilledShape(m, from, p, x, moved);
            && p.container in m && n.Keys == m.Keys && TakenAndGrown(m, n, from, p, x, moved)
            && n[p.container].list == Left(m, from, p.container, x, moved) && Grown(m, p, x, moved) == Merged(m, p, x, moved)
            && x != p.container
  {
    BelowRanks(m, rank, from);
    BelowRanks(m, rank, p.container);
    assert ListOk(m, from) && ListOk(m, p.container) && ListOk(m, x);
    hide Linked, Ranked;
  }

  lemma {:induction false} WholeArrives(m: Shape, n: Shape, rank: Ranks, from: Item, p: Place, x: Item, moved: nat)
    requires Linked(m) && Ranked(m, rank) && from in m && x in m[from].list && x in m && PlaceOk(m, p, x) && x != p.container
    requires WentWhole(m, n, from, p.container, x)
    ensures Arrived(m, n, from, p, x, moved, x)
  {
    BelowRanks(m, rank, from);
    assert ListOk(m, from) && ListOk(m, p.container);
    hide Linked, Ranked;
  }

  /** What did not merge is a new item in front in the destination, if any is left. */
  ghost predicate IsMoved(m: Shape, m2: Shape, n: Shape, place: Place, kind: Kind, rest: int, y: Item?) {
    && place.container in m2
    && if rest > 0 then y != null && y !in m && n == Added(m2, place.container, place.index, y, Thing(kind, rest, null, []))
       else n == m2
  }

  /** The amount left stack `x`; all of it lies in the destination now, unless the place of what
      did not merge is beyond the capacity. */
  ghost predicate StackWent(m: Shape, n: Shape, from: Item, place: Place, x: Item, amount: nat, y: Item?)
    requires x in m && (place.item != null ==> place.item in m)
  {
    var rest := amount - Merged(m, place, x, amount);
    && from in m && place.container in m && amount <= m[x].count
    && IsMoved(m, FilledShape(m, from, place, x, amount), n, place, m[x].kind, rest, y)
    && Moved(m, n, from, place.container, x, place.item, amount == m[x].count, rest > 0 && place.index < place.container.capacity)
    && Fell(m, n, m[x].kind, Dropped(m, place, x, amount))
  }

  /** The amount can be taken from stack `x` in `from` and put in this place. */
  ghost predicate Takes(m: Shape, rank: Ranks, from: Item, place: Place, x: Item, amount: nat) {
    && Linked(m) && Ranked(m, rank)
    && from in m && x in m[from].list && x in m && m[x].kind.stackable && 1 <= amount <= m[x].count <= 100
    && PlaceOk(m, place, x) && place.item != x && (place.item != null ==> StackOk(m[place.item]))
  }

  lemma {:induction false} TakesMeans(m: Shape, rank: Ranks, from: Item, place: Place, x: Item, amount: nat)
    requires Takes(m, rank, from, place, x, amount)
    ensures x in m && m[x].kind.stackable && 0 < amount <= m[x].count <= 100
    ensures place.item != null ==> place.item in m && (m[place.item].kind == m[x].kind ==> m[place.item].count <= 100)
    ensures place.container in m && place.container.container
    ensures 0 <= Merged(m, place, x, amount) <= amount
  {
  }

  lemma {:induction false} StillThere(m: Shape, m1: Shape, rank: Ranks, from: Item, place: Place, x: Item, amount: nat)
    requires Takes(m, rank, from, place, x, amount) && Removed(m, m1, from, x, amount)
    ensures x in m1 && m1[x].kind == m[x].kind && m1.Keys == m.Keys
    ensures place.item != null ==> place.item in m1[place.container].list && m1[place.item].kind == m[place.item].kind
                                   && m1[place.item].count == m[place.item].count
  {
    RemovedMeans(m, m1, rank, from, x, amount);
    assert place.item != null ==> place.item in m[place.container].list;
    BelowRanks(m, rank, place.container);
  }

  ghost predicate Merges(m: Shape, place: Place, x: Item)
    requires x in m && (place.item != null ==> place.item in m)
  {
    !m[x].kind.rune && place.item != null && m[x].kind == m[place.item].kind
  }

  lemma {:induction false} NoneFilled(m: Shape, m1: Shape, rank: Ranks, from: Item, place: Place, x: Item, amount: nat)
    requires Takes(m, rank, from, place, x, amount) && Removed(m, m1, from, x, amount)
    requires !Merges(m, place, x)
    ensures Filled(m, m1, from, place, x, amount)
  {
    RemovedIsMoved(m, m1, rank, from, place.container, x, amount, place.item);
    RemovedMeans(m, m1, rank, from, x, amount);
    hide Linked, Ranked, Removed, Moved, Total, Retype;
  }

  lemma {:induction false} SomeFilled(m: Shape, m1: Shape, rank: Ranks, from: Item, place: Place, x: Item, amount: nat)
    requires Takes(m, rank, from, place, x, amount) && Removed(m, m1, from, x, amount)
    requires Merges(m, place, x)
    ensures place.item in m1
    ensures var y := place.item;
            Filled(m, Retype(m1, y, m1[y].kind, m1[y].count + Merged(m, place, x, amount)), from, place, x, amount)
  {
    hide Takes, Removed, Moved, Fell, TakenOut, FilledShape, MergedNat;
    TakesMeans(m, rank, from, place, x, amount);
    SomeLeft(m, m1, rank, from, place, x, amount);
    var n, y := Merged(m, place, x, amount), place.item;
    FilledIs(m, m1, from, place, x, amount);
    hide Merged, Merges;
    RefillIsMoved(m, m1, from, place.container, x, y, amount == m[x].count, m1[y].count + n);
    GrownTotals(m, m1, m[x].kind, amount, y, n);
  }

  lemma {:induction false} FilledIs(m: Shape, m1: Shape, from: Item, place: Place, x: Item, amount: nat)
    requires from in m && x in m && (place.item != null ==> place.item in m) && amount <= m[x].count
    requires m1 == TakenOut(m, from, x, amount) && Merges(m, place, x) && place.item in m1 && Merged(m, place, x, amount) >= 0
    ensures var y := place.item;
            FilledShape(m, from, place, x, amount) == Retype(m1, y, m1[y].kind, m1[y].count + Merged(m, place, x, amount))
  {
  }

  lemma {:induction false} SomeLeft(m: Shape, m1: Shape, rank: Ranks, from: Item, place: Place, x: Item, amount: nat)
    requires Takes(m, rank, from, place, x, amount) && Removed(m, m1, from, x, amount)
    requires place.item != null && place.item in m && m[place.item].kind == m[x].kind
    ensures from in m && m1 == TakenOut(m, from, x, amount) && m1.Keys == m.Keys && m1[x].kind == m[x].kind
    ensures m1[place.item] == m[place.item] && m[place.item].parent != null && place.item != x
    ensures Moved(m, m1, from, place.container, x, place.item, amount == m[x].count, false)
    ensures Fell(m, m1, m[x].kind, amount)
  {
    RemovedIsMoved(m, m1, rank, from, place.container, x, amount, place.item);
    ChildNow(m, rank, from, place.container, x, place.item);
    RemovedMeans(m, m1, rank, from, x, amount);
    hide Moved, Fell;
  }

  lemma {:induction false} GrownTotals(m: Shape, m1: Shape, kind: Kind, amount: nat, y: Item, n: nat)
    requires y in m1 && m1[y].parent != null && m1[y].kind == kind
    requires Fell(m, m1, kind, amount)
    ensures Fell(m, Retype(m1, y, kind, m1[y].count + n), kind, amount - n)
  {
    hide Total;
    forall f: Measure ensures Total(Retype(m1, y, kind, m1[y].count + n), f) == Total(m, f) - f(kind) * (amount - n) {
      RecountTotal(m1, y, m1[y].count + n, f);
      Distributes(f(kind), amount, n);
    }
  }

  lemma {:induction false} RemovedIsMoved(m: Shape, m1: Shape, rank: Ranks, from: Item, dest: Item, x: Item, amount: nat, onto: Item?)
    requires Linked(m) && Ranked(m, rank) && from in m && dest in m && x in m[from].list && x in m
    requires m[x].kind.stackable && amount <= m[x].count && Removed(m, m1, from, x, amount)
    ensures Moved(m, m1, from, dest, x, onto, amount == m[x].count, false)
  {
    RemovedMeans(m, m1, rank, from, x, amount);
    hide Linked, Ranked, Removed, Total;
  }

  lemma {:induction false} RefillIsMoved(m: Shape, m1: Shape, from: Item, dest: Item, x: Item, y: Item, whole: bool, count: nat)
    requires Moved(m, m1, from, dest, x, y, whole, false) && y in m
    ensures Moved(m, Retype(m1, y, m1[y].kind, count), from, dest, x, y, whole, false)
  {
  }

  lemma {:induction false} ChildNow(m: Shape, rank: Ranks, from: Item, c: Item, x: Item, y: Item)
    requires Linked(m) && Ranked(m, rank) && c in m && y in m[c].list && x in m && from in m && x in m[from].list
    requires y in m && m[x].kind.stackable && m[y].kind == m[x].kind
    ensures m[y].parent == c && y != c && x != from && y != from
  {
    BelowRanks(m, rank, c);
    BelowRanks(m, rank, from);
    assert ListOk(m, y) && ListOk(m, from);
  }

  lemma {:induction false} StackMoved(m: Shape, m2: Shape, from: Item, place: Place, x: Item, amount: nat, y: Item)
    requires x in m && (place.item != null ==> place.item in m) && place.container in m && y !in m
    requires Filled(m, m2, from, place, x, amount)
    requires amount > Merged(m, place, x, amount) >= 0
    ensures place.container in m2
    ensures var rest := amount - Merged(m, place, x, amount);
            var n := Added(m2, place.container, place.index, y, Thing(m[x].kind, rest, null, []));
            StackWent(m, n, from, place, x, amount, y)
  {
    hide Filled, Moved, Fell, FilledShape, Added, Merged;
    FilledParts(m, m2, from, place, x, amount);
    var rest := amount - Merged(m, place, x, amount);
    var t := Thing(m[x].kind, rest, null, []);
    AddedFell(m, m2, m[x].kind, rest, place.container, place.index, y);
    AddedMoved(m, m2, from, place, x, amount == m[x].count, y, t);
  }

  lemma {:induction false} AddedFell(m: Shape, m2: Shape, kind: Kind, rest: nat, c: Item, index: int, y: Item)
    requires Fell(m, m2, kind, rest) && c in m2 && y !in m2
    ensures Fell(m, Added(m2, c, index, y, Thing(kind, rest, null, [])), kind, if index < c.capacity then 0 else rest)
  {
    var t := Thing(kind, rest, null, []);
    var n := Added(m2, c, index, y, t);
    forall f: Measure ensures Total(n, f) == Total(m, f) - f(kind) * (if index < c.capacity then 0 else rest) {
      TotalPut(m2, y, t, f);
      AttachTotal(m2[y := t], c, y, f);
    }
  }

  lemma {:induction false} AddedMoved(m: Shape, m2: Shape, from: Item, place: Place, x: Item, whole: bool, y: Item, t: Thing)
    requires Moved(m, m2, from, place.container, x, place.item, whole, false) && m2.Keys == m.Keys && y !in m && t.list == []
    ensures place.container in m2
    ensures Moved(m, Added(m2, place.container, place.index, y, t), from, place.container, x, place.item, whole,
                  place.index < place.container.capacity)
  {
  }

  lemma {:induction false} AllMerged(m: Shape, m2: Shape, from: Item, place: Place, x: Item, amount: nat)
    requires x in m && (place.item != null ==> place.item in m)
    requires Filled(m, m2, from, place, x, amount) && amount == Merged(m, place, x, amount)
    ensures StackWent(m, m2, from, place, x, amount, x)
  {
  }

  ghost function Added(m: Shape, c: Item, index: int, y: Item, t: Thing): Shape
    requires c in m
  {
    if index < c.capacity then Attach(m[y := t], c, y) else m[y := t]
  }

  ghost function FilledShape(m: Shape, from: Item, place: Place, x: Item, amount: nat): Shape
    requires from in m && x in m && (place.item != null ==> place.item in m) && amount <= m[x].count
  {
    var m1, t := TakenOut(m, from, x, amount), place.item;
    if Merges(m, place, x) && t in m1 then Retype(m1, t, m1[t].kind, m1[t].count + MergedNat(m, place, x, amount)) else m1
  }

  ghost function MergedNat(m: Shape, place: Place, x: Item, amount: nat): nat
    requires x in m && (place.item != null ==> place.item in m)
  {
    Max(0, Merged(m, place, x, amount))
  }

  /** `m2` is `m` with the amount taken from `x` and as much of it as goes put onto the stack there. */
  ghost predicate Filled(m: Shape, m2: Shape, from: Item, place: Place, x: Item, amount: nat)
    requires x in m && (place.item != null ==> place.item in m)
  {
    && Moved(m, m2, from, place.container, x, place.item, amount == m[x].count, false)
    && m2.Keys == m.Keys && m2[x].kind == m[x].kind
    && amount <= m[x].count && m2 == FilledShape(m, from, place, x, amount)
    && Fell(m, m2, m[x].kind, amount - Merged(m, place, x, amount))
  }

  lemma {:induction false} FilledParts(m: Shape, m2: Shape, from: Item, place: Place, x: Item, amount: nat)
    requires x in m && (place.item != null ==> place.item in m) && Filled(m, m2, from, place, x, amount)
    ensures Moved(m, m2, from, place.container, x, place.item, amount == m[x].count, false)
    ensures from in m && m2.Keys == m.Keys && amount <= m[x].count && m2 == FilledShape(m, from, place, x, amount)
    ensures Fell(m, m2, m[x].kind, amount - Merged(m, place, x, amount))
  {
  }

  lemma {:induction false} NewAbove(m: Shape, rank: Ranks, c: Item, y: Item, t: Thing)
    requires Ranked(m, rank) && Ranked(m[y := t], rank[y := 0]) && y !in m && c in m
    ensures y !in Above(m[y := t], rank[y := 0], c)
  {
    AboveAgree(m, rank, m[y := t], rank[y := 0], c);
  }

  /** How much of the amount goes onto the stack at the destination; runes never do. */
  function Merged(m: Shape, place: Place, x: Item, amount: nat): int
    requires x in m && (place.item != null ==> place.item in m)
  {
    if !m[x].kind.rune && place.item != null && m[x].kind == m[place.item].kind
    then Min(100 - m[place.item].count, amount) else 0
  }

  /** What a move loses: the rest, if its place is beyond the capacity. */
  function Dropped(m: Shape, place: Place, x: Item, amount: nat): int
    requires x in m && (place.item != null ==> place.item in m)
  {
    if place.index >= place.container.capacity then amount - Merged(m, place, x, amount) else 0
  }

  lemma {:induction false} WholeOut(m: Shape, m1: Shape, rank: Ranks, from: Item, dest: Item, x: Item, n: nat)
    requires Linked(m) && Ranked(m, rank) && Ranked(m1, rank) && from in m && x in m[from].list && x in m && dest in m
    requires !m[x].kind.stackable && Removed(m, m1, from, x, n) && x !in Above(m, rank, dest)
    ensures x !in Above(m1, rank, dest) && m1[x].parent == null && dest in m1
  {
    RemovedMeans(m, m1, rank, from, x, n);
    RemovedAbove(m, m1, rank, from, dest, x);
  }

  lemma {:induction false} WholeMoved(m: Shape, m1: Shape, rank: Ranks, from: Item, dest: Item, x: Item, n: nat)
    requires Linked(m) && Ranked(m, rank) && from in m && x in m[from].list && x in m && dest in m && x != dest
    requires !m[x].kind.stackable && Removed(m, m1, from, x, n)
    ensures dest in m1 && x in m1 && WentWhole(m, Attach(m1, dest, x), from, dest, x)
    ensures Moved(m, Attach(m1, dest, x), from, dest, x, null, true, true)
    ensures SameTotals(m, Attach(m1, dest, x))
  {
    RemovedMeans(m, m1, rank, from, x, n);
    hide Linked, Ranked, Removed;
    forall f: Measure ensures Total(Attach(m1, dest, x), f) == Total(m, f) {
      AttachTotal(m1, dest, x, f);
    }
  }

  /** How lists and items may differ after a move: `x` left `from` as a whole or in part, `dest`
      got one more item or not, and the stack `onto` may have grown. */
  ghost predicate Moved(m: Shape, n: Shape, from: Item, dest: Item, x: Item, onto: Item?, whole: bool, added: bool) {
    && m.Keys <= n.Keys
    && from in m && dest in m && x in m
    && (forall c :: c in m ==>
          |n[c].list| == |m[c].list| - (if c == from && whole then 1 else 0) + (if c == dest && added then 1 else 0))
    && (forall z :: z in m && z != x && z != from && z != dest && z != onto ==> n[z] == m[z])
    && (forall z :: z in m && z != x && z != onto ==> n[z] == m[z].(list := n[z].list))
  }

  lemma {:induction false} RemovedAbove(m: Shape, n: Shape, rank: Ranks, c: Item, dest: Item, x: Item)
    requires Linked(m) && Ranked(m, rank) && Ranked(n, rank) && c in m && dest in m && n.Keys == m.Keys
    requires x !in Above(m, rank, dest)
    requires forall z :: z in m && z != x ==> n[z].parent == m[z].parent
    ensures Above(n, rank, dest) == Above(m, rank, dest)
  {
    AboveAgree(m, rank, n, rank, dest);
  }

  lemma {:induction false} StackLow(m: Shape, x: Item)
    requires Stacked(m) && x in m && m[x].kind.stackable
    ensures 1 <= m[x].count <= 100
  {
    assert StackOk(m[x]);
  }

  lemma {:induction false} NewGood(m: Shape, rank: Ranks, w: Weights, y: Item, t: Thing)
    requires Good(m, rank, w) && y !in m && t.parent == null && t.list == []
    requires t.kind.stackable ==> !y.container && 1 <= t.count <= 100
    ensures Good(m[y := t], rank[y := 0], w[y := 0])
  {
    var n, r, v := m[y := t], rank[y := 0], w[y := 0];
    forall x | x in n ensures ListOk(n, x) && UpOk(n, x) && RankOk(n, r, x) && StackOk(n[x]) {
      if x != y { assert ListOk(m, x) && UpOk(m, x) && RankOk(m, rank, x) && StackOk(m[x]); }
    }
    forall x | x in n ensures Lacks(n, v, x, null, 0) {
      if x != y {
        assert Lacks(m, w, x, null, 0);
        LoadSame(m, w, n, v, m[x].list);
      }
    }
  }

  ghost predicate Listed(m: Shape, c: Item) {
    c in m && forall y :: y in m[c].list ==> y in m
  }

  lemma {:induction false} ListIn(m: Shape, c: Item)
    requires Linked(m) && c in m
    ensures Listed(m, c)
    ensures m[c].parent != null ==> m[c].parent in m
  {
    assert ListOk(m, c) && UpOk(m, c);
  }

  lemma {:induction false} AboveNull(m: Shape, rank: Ranks)
    requires Ranked(m, rank)
    ensures Above(m, rank, null) == {}
  {
  }

  lemma {:induction false} AboveIs(m: Shape, rank: Ranks, c: Item)
    requires Ranked(m, rank) && c in m
    ensures var p := m[c].parent;
            && (p != null ==> p in m && Higher(rank, p) < Higher(rank, c))
            && Above(m, rank, c) == {c} + Above(m, rank, p)
  {
    AboveStep(m, rank, map x | x in m :: 0, c, 0);
  }
}
