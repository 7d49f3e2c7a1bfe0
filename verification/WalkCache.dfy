/**
  The walkability cache of a creature: a 23 by 23 window of tiles around it, kept up to
  date by shifting the window when the creature steps and by rereading single tiles.
 */
module WalkCache {

  import opened Basics

  const MAX_WIDTH := 11
  const MAX_HEIGHT := 11
  const MAP_WIDTH := 2 * MAX_WIDTH + 1
  const MAP_HEIGHT := 2 * MAX_HEIGHT + 1

  /** Whether the creature may enter the tile at (x, y, z): the tile exists and accepts it. */
  type World = (int, int, int) -> bool

  /** Window contents by row and column. */
  type Grid = (int, int) -> bool

  predicate InWindow(r: int, c: int) { 0 <= r < MAP_HEIGHT && 0 <= c < MAP_WIDTH }

  predicate Centre(r: int, c: int) { r == MAX_HEIGHT && c == MAX_WIDTH }

  /** What a full reread of the window around (x, y, z) gives. */
  function Fresh(w: World, x: int, y: int, z: int): Grid {
    (r, c) => w(x + c - MAX_WIDTH, y + r - MAX_HEIGHT, z)
  }

  /** The window agrees with a full reread everywhere but on the creature's own tile. */
  ghost predicate Accurate(g: Grid, w: World, x: int, y: int, z: int) {
    forall r, c :: InWindow(r, c) && !Centre(r, c) ==> g(r, c) == Fresh(w, x, y, z)(r, c)
  }

  // ---------- one step, cell by cell ----------

  /** The window after its rows moved; (sx, sy) is new position minus old position. */
  function RowsMoved(g: Grid, f: Grid, sy: int, r: int, c: int): bool {
    if sy < 0 then (if r == 0 then f(r, c) else g(r - 1, c))
    else if sy > 0 then (if r == MAP_HEIGHT - 1 then f(r, c) else g(r + 1, c))
    else g(r, c)
  }

  /** The window after its columns moved too.  The rows from |sy| on move, because the
      distance the code computes is never negative. */
  function ColumnsMoved(g: Grid, f: Grid, sx: int, sy: int, r: int, c: int): bool {
    if sx > 0 then
      if c == MAP_WIDTH - 1 then f(r, c)
      else RowsMoved(g, f, sy, r, if r >= Abs(sy) then c + 1 else c)
    else if sx < 0 then
      if c == 0 then f(r, c)
      else RowsMoved(g, f, sy, r, if r >= Abs(sy) then c - 1 else c)
    else RowsMoved(g, f, sy, r, c)
  }

  /** The window after the step: the tile just left is reread last. */
  function Stepped(g: Grid, f: Grid, sx: int, sy: int): Grid {
    (r, c) =>
      if r == MAX_HEIGHT - sy && c == MAX_WIDTH - sx then f(r, c)
      else ColumnsMoved(g, f, sx, sy, r, c)
  }

  predicate OneTile(sx: int, sy: int) { -1 <= sx <= 1 && -1 <= sy <= 1 }

  predicate SouthDiagonal(sx: int, sy: int) { sy == 1 && sx != 0 }

  /** A step changes what the creature may enter only on the two tiles it touches. */
  ghost predicate StepOf(before: World, after: World, x: int, y: int, z: int, sx: int, sy: int) {
    forall px, py :: (px, py) != (x, y) && (px, py) != (x + sx, y + sy) ==>
                       after(px, py, z) == before(px, py, z)
  }

  /** Cells that a step always gets right: all of them, or all but the first and the last
      row when the step is a southern diagonal. */
  predicate Dependable(sx: int, sy: int, r: int) {
    SouthDiagonal(sx, sy) ==> 0 < r < MAP_HEIGHT - 1
  }

  /** Cells that come into the window with the step. */
  predicate Entering(sx: int, sy: int, r: int, c: int) {
    || (sx > 0 && c == MAP_WIDTH - 1) || (sx < 0 && c == 0)
    || (sy < 0 && r == 0) || (sy > 0 && r == MAP_HEIGHT - 1)
  }

  lemma {:induction false} CellMoved(g: Grid, f: Grid, sx: int, sy: int, r: int, c: int)
    requires OneTile(sx, sy) && InWindow(r, c) && Dependable(sx, sy, r)
    ensures ColumnsMoved(g, f, sx, sy, r, c) == if Entering(sx, sy, r, c) then f(r, c) else g(r + sy, c + sx)
  {
  }

  lemma {:induction false} StepAt(g: Grid, before: World, after: World, x: int, y: int, z: int,
               sx: int, sy: int, r: int, c: int)
    requires OneTile(sx, sy) && Accurate(g, before, x, y, z)
    requires StepOf(before, after, x, y, z, sx, sy)
    requires InWindow(r, c) && !Centre(r, c) && Dependable(sx, sy, r)
    ensures var f := Fresh(after, x + sx, y + sy, z); Stepped(g, f, sx, sy)(r, c) == f(r, c)
  {
    var f := Fresh(after, x + sx, y + sy, z);
    CellMoved(g, f, sx, sy, r, c);
    hide RowsMoved, ColumnsMoved, Accurate, StepOf, Fresh;
    if !(r == MAX_HEIGHT - sy && c == MAX_WIDTH - sx) && !Entering(sx, sy, r, c) {
      KeptCell(g, before, after, x, y, z, sx, sy, r, c);
    }
  }

  /** What was right of a tile that the step does not touch still is, one step away in the window. */
  lemma {:induction false} KeptCell(g: Grid, before: World, after: World, x: int, y: int, z: int,
                                    sx: int, sy: int, r: int, c: int)
    requires Accurate(g, before, x, y, z) && StepOf(before, after, x, y, z, sx, sy)
    requires InWindow(r + sy, c + sx) && !Centre(r + sy, c + sx) && !Centre(r, c)
    ensures g(r + sy, c + sx) == Fresh(after, x + sx, y + sy, z)(r, c)
  {
    var r', c' := r + sy, c + sx;
    var px, py := x + c' - MAX_WIDTH, y + r' - MAX_HEIGHT;
    assert g(r', c') == Fresh(before, x, y, z)(r', c') == before(px, py, z);
    assert (px, py) != (x, y) && (px, py) != (x + sx, y + sy);
  }

  /** Any step but a southern diagonal keeps the window accurate. */
  lemma {:induction false} StepKeepsAccurate(g: Grid, before: World, after: World, x: int, y: int, z: int, sx: int, sy: int)
    requires OneTile(sx, sy) && !SouthDiagonal(sx, sy)
    requires Accurate(g, before, x, y, z) && StepOf(before, after, x, y, z, sx, sy)
    ensures Accurate(Stepped(g, Fresh(after, x + sx, y + sy, z), sx, sy), after, x + sx, y + sy, z)
  {
    var f := Fresh(after, x + sx, y + sy, z);
    forall r, c | InWindow(r, c) && !Centre(r, c)
      ensures Stepped(g, f, sx, sy)(r, c) == f(r, c)
    {
      StepAt(g, before, after, x, y, z, sx, sy, r, c);
    }
  }

  /** The step (sx, sy) keeps every accurate window accurate, whatever the map looks like. */
  ghost predicate AlwaysAccurate(sx: int, sy: int) {
    forall g: Grid, before: World, after: World, x: int, y: int, z: int
      {:trigger Accurate(g, before, x, y, z), StepOf(before, after, x, y, z, sx, sy)} ::
      Accurate(g, before, x, y, z) && StepOf(before, after, x, y, z, sx, sy) ==>
      Accurate(Stepped(g, Fresh(after, x + sx, y + sy, z), sx, sy), after, x + sx, y + sy, z)
  }

  /** A map on which a southern diagonal leaves a wrong answer behind: everything is open
      but one tile in the second row of the window. */
  lemma {:induction false} SouthDiagonalGoesWrong(sx: int)
    requires sx == 1 || sx == -1
    ensures !AlwaysAccurate(sx, 1)
  {
    var w: World := (px, py, pz) => !(px == 0 && py == 1 - MAX_HEIGHT);
    var g := Fresh(w, 0, 0, 0);
    assert Accurate(g, w, 0, 0, 0);
    assert StepOf(w, w, 0, 0, 0, sx, 1);
    var f := Fresh(w, sx, 1, 0);
    var s := Stepped(g, f, sx, 1);
    // that tile is now in row 0, and row 0 was not moved sideways
    var c := MAX_WIDTH;
    assert s(0, c) == ColumnsMoved(g, f, sx, 1, 0, c) == RowsMoved(g, f, 1, 0, c) == g(1, c);
    assert f(0, c) == true;
    assert InWindow(0, c) && !Centre(0, c);
    assert !Accurate(s, w, sx, 1, 0);
  }

  /** Exactly the southern diagonals break the window. */
  lemma {:induction false} AccurateExactlyWhen(sx: int, sy: int)
    requires OneTile(sx, sy)
    ensures AlwaysAccurate(sx, sy) <==> !SouthDiagonal(sx, sy)
  {
    if SouthDiagonal(sx, sy) {
      SouthDiagonalGoesWrong(sx);
    } else {
      forall g: Grid, before: World, after: World, x: int, y: int, z: int
        | Accurate(g, before, x, y, z) && StepOf(before, after, x, y, z, sx, sy)
        ensures Accurate(Stepped(g, Fresh(after, x + sx, y + sy, z), sx, sy), after, x + sx, y + sy, z)
      {
        StepKeepsAccurate(g, before, after, x, y, z, sx, sy);
      }
    }
  }

  // ---------- the creature ----------

  class Creature {
    const localMapCache: array2<bool>
    var x: int
    var y: int
    var z: int

    constructor (w: World, x: int, y: int, z: int)
      ensures Valid() && fresh(localMapCache) && (this.x, this.y, this.z) == (x, y, z)
      ensures Holds(Fresh(w, x, y, z))
    {
      this.x, this.y, this.z := x, y, z;
      localMapCache := new bool[MAP_HEIGHT, MAP_WIDTH];
      new;
      UpdateMapCache(w);
    }

    ghost predicate Valid() {
      localMapCache.Length0 == MAP_HEIGHT && localMapCache.Length1 == MAP_WIDTH
    }

    /** The cache array holds exactly this window. */
    ghost predicate Holds(g: Grid)
      requires Valid()
      reads localMapCache
    {
      forall r, c :: InWindow(r, c) ==> localMapCache[r, c] == g(r, c)
    }

    method UpdateMapCache(w: World)
      requires Valid()
      modifies localMapCache
      ensures Holds(Fresh(w, x, y, z))
    {
      ghost var f := Fresh(w, x, y, z);
      for dy := -MAX_HEIGHT to MAX_HEIGHT + 1
        invariant forall r, c :: InWindow(r, c) && r < dy + MAX_HEIGHT ==> localMapCache[r, c] == f(r, c)
      {
        RefreshRow(w, dy + MAX_HEIGHT);
      }
    }

    /** Rereads one tile, if it is in the window. */
    method UpdateTileCache(w: World, px: int, py: int, pz: int)
      requires Valid()
      modifies localMapCache
      ensures forall r, c :: InWindow(r, c) ==>
                localMapCache[r, c] ==
                  if pz == z && r == MAX_HEIGHT + py - y && c == MAX_WIDTH + px - x
                  then w(px, py, pz) else old(localMapCache[r, c])
    {
      if pz == z {
        var dx, dy := px - x, py - y;
        if Abs(dx) <= MAX_WIDTH && Abs(dy) <= MAX_HEIGHT {
          localMapCache[MAX_HEIGHT + dy, MAX_WIDTH + dx] := w(px, py, pz);
        }
      }
    }

    method RefreshRow(w: World, row: int)
      requires Valid() && 0 <= row < MAP_HEIGHT
      modifies localMapCache
      ensures forall r, c :: InWindow(r, c) ==>
                localMapCache[r, c] == if r == row then Fresh(w, x, y, z)(r, c) else old(localMapCache[r, c])
    {
      for dx := -MAX_WIDTH to MAX_WIDTH + 1
        invariant forall r, c :: InWindow(r, c) ==>
                    localMapCache[r, c] ==
                      if r == row && c < dx + MAX_WIDTH then Fresh(w, x, y, z)(r, c)
                      else old(localMapCache[r, c])
      {
        UpdateTileCache(w, x + dx, y + row - MAX_HEIGHT, z);
      }
    }

    method RefreshColumn(w: World, column: int)
      requires Valid() && 0 <= column < MAP_WIDTH
      modifies localMapCache
      ensures forall r, c :: InWindow(r, c) ==>
                localMapCache[r, c] == if c == column then Fresh(w, x, y, z)(r, c) else old(localMapCache[r, c])
    {
      for dy := -MAX_HEIGHT to MAX_HEIGHT + 1
        invariant forall r, c :: InWindow(r, c) ==>
                    localMapCache[r, c] ==
                      if c == column && r < dy + MAX_HEIGHT then Fresh(w, x, y, z)(r, c)
                      else old(localMapCache[r, c])
      {
        UpdateTileCache(w, x + column - MAX_WIDTH, y + dy, z);
      }
    }

    method CopyRow(from: int, to: int)
      requires Valid() && 0 <= from < MAP_HEIGHT && 0 <= to < MAP_HEIGHT
      modifies localMapCache
      ensures forall r, c :: InWindow(r, c) ==>
                localMapCache[r, c] == old(localMapCache[if r == to then from else r, c])
    {
      forall c | 0 <= c < MAP_WIDTH {
        localMapCache[to, c] := localMapCache[from, c];
      }
    }

    /** All rows one down, the first row kept. */
    method ShiftSouth()
      requires Valid()
      modifies localMapCache
      ensures forall r, c :: InWindow(r, c) ==>
                localMapCache[r, c] == old(localMapCache[if r == 0 then r else r - 1, c])
    {
      var row := MAP_HEIGHT - 1;
      while row > 0
        invariant 0 <= row < MAP_HEIGHT
        invariant forall r, c :: InWindow(r, c) ==>
                    localMapCache[r, c] == old(localMapCache[if r > row then r - 1 else r, c])
      {
        row := row - 1;
        CopyRow(row, row + 1);
      }
    }

    /** All rows one up, the last row kept. */
    method ShiftNorth()
      requires Valid()
      modifies localMapCache
      ensures forall r, c :: InWindow(r, c) ==>
                localMapCache[r, c] == old(localMapCache[if r == MAP_HEIGHT - 1 then r else r + 1, c])
    {
      for row := 0 to MAP_HEIGHT - 1
        invariant forall r, c :: InWindow(r, c) ==>
                    localMapCache[r, c] == old(localMapCache[if r < row then r + 1 else r, c])
      {
        CopyRow(row + 1, row);
      }
    }

    method ShiftRowWest(row: int)
      requires Valid() && 0 <= row < MAP_HEIGHT
      modifies localMapCache
      ensures forall r, c :: InWindow(r, c) ==>
                localMapCache[r, c] == old(localMapCache[r, if r == row && c < MAP_WIDTH - 1 then c + 1 else c])
    {
      for column := 0 to MAP_WIDTH - 1
        invariant forall r, c :: InWindow(r, c) && r != row ==> localMapCache[r, c] == old(localMapCache[r, c])
        invariant forall c :: 0 <= c < column ==> localMapCache[row, c] == old(localMapCache[row, c + 1])
        invariant forall c :: column <= c < MAP_WIDTH ==> localMapCache[row, c] == old(localMapCache[row, c])
      {
        localMapCache[row, column] := localMapCache[row, column + 1];
      }
    }

    method ShiftRowEast(row: int)
      requires Valid() && 0 <= row < MAP_HEIGHT
      modifies localMapCache
      ensures forall r, c :: InWindow(r, c) ==>
                localMapCache[r, c] == old(localMapCache[r, if r == row && c > 0 then c - 1 else c])
    {
      var column := MAP_WIDTH - 1;
      while column > 0
        invariant 0 <= column < MAP_WIDTH
        invariant forall r, c :: InWindow(r, c) && (r != row || c <= column) ==>
                    localMapCache[r, c] == old(localMapCache[r, c])
        invariant forall c :: column < c < MAP_WIDTH ==>
                    localMapCache[row, c] == old(localMapCache[row, c - 1])
      {
        column := column - 1;
        localMapCache[row, column + 1] := localMapCache[row, column];
      }
    }

    /** The rows from `starty` on, one column over. */
    method ShiftColumns(east: bool, starty: int)
      requires Valid() && 0 <= starty < MAP_HEIGHT
      modifies localMapCache
      ensures forall r, c :: InWindow(r, c) ==>
                localMapCache[r, c] == old(localMapCache[r, Moved(east, starty, MAP_HEIGHT, r, c)])
    {
      for row := starty to MAP_HEIGHT
        invariant forall r, c :: InWindow(r, c) ==>
                    localMapCache[r, c] == old(localMapCache[r, Moved(east, starty, row, r, c)])
      {
        if east {
          ShiftRowWest(row);
        } else {
          ShiftRowEast(row);
        }
      }
    }

    /** The creature's own move to the position its fields now hold. */
    method OnOwnMove(w: World, oldX: int, oldY: int, oldZ: int, teleport: bool, ghost g: Grid)
      requires Valid() && Holds(g)
      requires !teleport && oldZ == z ==> OneTile(x - oldX, y - oldY)
      modifies localMapCache
      ensures teleport || oldZ != z ==> Holds(Fresh(w, x, y, z))
      ensures !teleport && oldZ == z ==> Holds(Stepped(g, Fresh(w, x, y, z), x - oldX, y - oldY))
    {
      if teleport || oldZ != z {
        UpdateMapCache(w);
      } else {
        OnOwnStep(w, oldX, oldY, g);
      }
    }

    /** A step on the same floor shifts the window instead of rereading all of it. */
    method OnOwnStep(w: World, oldX: int, oldY: int, ghost g: Grid)
      requires Valid() && Holds(g) && OneTile(x - oldX, y - oldY)
      modifies localMapCache
      ensures Holds(Stepped(g, Fresh(w, x, y, z), x - oldX, y - oldY))
    {
      hide RowsMoved, ColumnsMoved;
      MoveRows(w, oldY, g);
      MoveColumns(w, oldX, oldY, g);
      UpdateTileCache(w, oldX, oldY, z);
    }

    method MoveRows(w: World, oldY: int, ghost g: Grid)
      requires Valid() && Holds(g) && -1 <= y - oldY <= 1
      modifies localMapCache
      ensures forall r, c :: InWindow(r, c) ==>
                localMapCache[r, c] == RowsMoved(g, Fresh(w, x, y, z), y - oldY, r, c)
    {
      if oldY > y {
        ShiftSouth();
        RefreshRow(w, 0);
      } else if oldY < y {
        ShiftNorth();
        RefreshRow(w, MAP_HEIGHT - 1);
      }
    }

    method MoveColumns(w: World, oldX: int, oldY: int, ghost g: Grid)
      requires Valid() && OneTile(x - oldX, y - oldY)
      requires forall r, c :: InWindow(r, c) ==>
                 localMapCache[r, c] == RowsMoved(g, Fresh(w, x, y, z), y - oldY, r, c)
      modifies localMapCache
      ensures forall r, c :: InWindow(r, c) ==>
                localMapCache[r, c] == ColumnsMoved(g, Fresh(w, x, y, z), x - oldX, y - oldY, r, c)
    {
      hide RowsMoved;
      var dy := Abs(oldY - y);
      if oldX < x {
        ShiftColumns(true, dy);
        RefreshColumn(w, MAP_WIDTH - 1);
      } else if oldX > x {
        ShiftColumns(false, dy);
        RefreshColumn(w, 0);
      }
    }

    /** 1: may be entered, 0: may not, 2: not known from the cache. */
    method GetWalkCache(useCacheMap: bool, px: int, py: int, pz: int, ghost w: World) returns (answer: int)
      requires Valid()
      requires HoldsAround(Fresh(w, x, y, z))
      ensures !useCacheMap ==> answer == 2
      ensures useCacheMap && pz != z ==> answer == 0
      ensures useCacheMap && (px, py, pz) == (x, y, z) ==> answer == 1
      ensures useCacheMap && pz == z && (px, py) != (x, y) ==>
                answer == if Abs(px - x) <= MAX_WIDTH && Abs(py - y) <= MAX_HEIGHT
                          then (if w(px, py, pz) then 1 else 0) else 2
    {
      if !useCacheMap {
        return 2;
      }
      if z != pz {
        return 0;
      }
      if px == x && py == y {
        return 1;
      }
      var dx := px - x;
      if Abs(dx) <= MAX_WIDTH {
        var dy := py - y;
        if Abs(dy) <= MAX_HEIGHT {
          return if localMapCache[MAX_HEIGHT + dy, MAX_WIDTH + dx] then 1 else 0;
        }
      }
      return 2;
    }

    /** The position and the cache are those of the state. */
    ghost predicate Is(s: State)
      requires Valid()
      reads this, localMapCache
    {
      (x, y, z) == (s.x, s.y, s.z) && Holds(s.window)
    }

    /** One thing that happens to the creature or to the map around it. */
    method Take(e: Event, ghost s: State)
      requires Valid() && Is(s) && (e.Step? ==> OneTile(e.sx, e.sy))
      modifies this, localMapCache
      ensures Valid() && Is(After(s, e))
    {
      hide Stepped;
      var oldX, oldY, oldZ := x, y, z;
      match e
      case Step(sx, sy, w) =>
        x, y := x + sx, y + sy;
        OnOwnMove(w, oldX, oldY, oldZ, false, s.window);
      case Jump(toX, toY, toZ, w) =>
        x, y, z := toX, toY, toZ;
        OnOwnMove(w, oldX, oldY, oldZ, true, s.window);
      case Tile(px, py, pz, w) =>
        UpdateTileCache(w, px, py, pz);
    }

    /** All that happens in a run; without a southern diagonal a cache that was right stays right. */
    method TakeAll(es: seq<Event>, ghost s: State)
      requires Valid() && Is(s) && forall e :: e in es && e.Step? ==> OneTile(e.sx, e.sy)
      modifies this, localMapCache
      ensures Valid() && Is(Run(s, es))
      ensures PossibleRun(s, es) && NoSouthDiagonal(es) && (Good(s) || (es != [] && es[0].Jump?)) ==>
                HoldsAround(Fresh(Run(s, es).world, x, y, z))
    {
      hide After, Good;
      ghost var now := s;
      for i := 0 to |es|
        invariant Is(now) && Run(now, es[i..]) == Run(s, es)
      {
        assert es[i..][1..] == es[i + 1..];
        Take(es[i], now);
        now := After(now, es[i]);
      }
      assert es[|es|..] == [];
      RightAfter(s, es);
      IsRight(Run(s, es));
    }

    lemma {:induction false} IsRight(s: State)
      requires Valid() && Is(s)
      ensures Good(s) ==> HoldsAround(Fresh(s.world, x, y, z))
    {
    }

    /** The cache holds this window everywhere but on the creature's own tile. */
    ghost predicate HoldsAround(g: Grid)
      requires Valid()
      reads localMapCache
    {
      forall r, c :: InWindow(r, c) && !Centre(r, c) ==> localMapCache[r, c] == g(r, c)
    }
  }

  /** The column a cell is taken from while the rows in [starty, endy) are moved. */
  function Moved(east: bool, starty: int, endy: int, r: int, c: int): int {
    if r < starty || r >= endy then c
    else if east then (if c < MAP_WIDTH - 1 then c + 1 else c)
    else (if c > 0 then c - 1 else c)
  }

  // ---------- whole runs ----------

  /** A creature, its window and the map around it. */
  datatype State = State(x: int, y: int, z: int, window: Grid, world: World)

  /** What can happen: an own step, a teleport or floor change, or a change on a tile that
      the creature is told about (another creature or an item comes or goes). */
  datatype Event =
    | Step(sx: int, sy: int, world: World)
    | Jump(x: int, y: int, z: int, world: World)
    | Tile(x: int, y: int, z: int, world: World)

  ghost predicate Possible(s: State, e: Event) {
    match e
    case Step(sx, sy, w) => OneTile(sx, sy) && StepOf(s.world, w, s.x, s.y, s.z, sx, sy)
    case Jump(_, _, _, _) => true
    case Tile(px, py, pz, w) =>
      forall qx, qy, qz :: (qx, qy, qz) != (px, py, pz) ==> w(qx, qy, qz) == s.world(qx, qy, qz)
  }

  function After(s: State, e: Event): State {
    match e
    case Step(sx, sy, w) =>
      State(s.x + sx, s.y + sy, s.z, Stepped(s.window, Fresh(w, s.x + sx, s.y + sy, s.z), sx, sy), w)
    case Jump(x, y, z, w) => State(x, y, z, Fresh(w, x, y, z), w)
    case Tile(px, py, pz, w) => s.(window := Reread(s, e), world := w)
  }

  function Reread(s: State, e: Event): Grid
    requires e.Tile?
  {
    (r, c) =>
      if e.z == s.z && r == MAX_HEIGHT + e.y - s.y && c == MAX_WIDTH + e.x - s.x
      then e.world(e.x, e.y, e.z) else s.window(r, c)
  }

  ghost predicate PossibleRun(s: State, es: seq<Event>)
    decreases |es|
  {
    es == [] || (Possible(s, es[0]) && PossibleRun(After(s, es[0]), es[1..]))
  }

  function Run(s: State, es: seq<Event>): State
    decreases |es|
  {
    if es == [] then s else Run(After(s, es[0]), es[1..])
  }

  ghost predicate Good(s: State) { Accurate(s.window, s.world, s.x, s.y, s.z) }

  lemma {:induction false} EventKeepsGood(s: State, e: Event)
    requires Good(s) && Possible(s, e) && !(e.Step? && SouthDiagonal(e.sx, e.sy))
    ensures Good(After(s, e))
  {
    hide Stepped, StepOf, Accurate, Fresh;
    match e
    case Step(sx, sy, w) => StepKeepsAccurate(s.window, s.world, w, s.x, s.y, s.z, sx, sy);
    case Jump(x, y, z, w) => FreshIsAccurate(w, x, y, z);
    case Tile(px, py, pz, w) => TileKeepsGood(s, e);
  }

  lemma {:induction false} FreshIsAccurate(w: World, x: int, y: int, z: int)
    ensures Accurate(Fresh(w, x, y, z), w, x, y, z)
  {
  }

  lemma {:induction false} TileKeepsGood(s: State, e: Event)
    requires Good(s) && Possible(s, e) && e.Tile?
    ensures Good(After(s, e))
  {
    var t := After(s, e);
    forall r, c | InWindow(r, c) && !Centre(r, c)
      ensures t.window(r, c) == Fresh(t.world, t.x, t.y, t.z)(r, c)
    {
      var qx, qy := s.x + c - MAX_WIDTH, s.y + r - MAX_HEIGHT;
      assert s.window(r, c) == Fresh(s.world, s.x, s.y, s.z)(r, c) == s.world(qx, qy, s.z);
      if (qx, qy, s.z) != (e.x, e.y, e.z) {
        assert t.world(qx, qy, s.z) == s.world(qx, qy, s.z);
      }
    }
  }

  predicate NoSouthDiagonal(es: seq<Event>) {
    forall i :: 0 <= i < |es| && es[i].Step? ==> !SouthDiagonal(es[i].sx, es[i].sy)
  }

  /** Over any run without a southern diagonal the window stays accurate. */
  lemma {:induction false} RunKeepsGood(s: State, es: seq<Event>)
    requires Good(s) && PossibleRun(s, es) && NoSouthDiagonal(es)
    ensures Good(Run(s, es))
    decreases |es|
  {
    if es != [] {
      EventKeepsGood(s, es[0]);
      RunKeepsGood(After(s, es[0]), es[1..]);
    }
  }

  /** A teleport or floor change repairs whatever an earlier southern diagonal spoiled. */
  lemma {:induction false} RunAfterJump(s: State, es: seq<Event>)
    requires es != [] && es[0].Jump? && PossibleRun(s, es) && NoSouthDiagonal(es)
    ensures Good(Run(s, es))
  {
    var e := es[0];
    assert Good(After(s, e));
    RunKeepsGood(After(s, e), es[1..]);
  }

  lemma {:induction false} RightAfter(s: State, es: seq<Event>)
    ensures PossibleRun(s, es) && NoSouthDiagonal(es) && (Good(s) || (es != [] && es[0].Jump?)) ==> Good(Run(s, es))
  {
    if PossibleRun(s, es) && NoSouthDiagonal(es) {
      if Good(s) {
        RunKeepsGood(s, es);
      } else if es != [] && es[0].Jump? {
        RunAfterJump(s, es);
      }
    }
  }
}
