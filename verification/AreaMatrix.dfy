/**
  Combat areas: a matrix of tiles with a marked centre, and the copies of it turned for
  the other directions.
 */
module AreaMatrix {

  import opened Basics

  datatype Operation = Rotate90 | Rotate180 | Rotate270

  /** (x, y) turned by the rotation matrix of the operation, with its exact entries. */
  function Turn(op: Operation, x: int, y: int): (int, int) {
    match op
    case Rotate90 => (-y, x)
    case Rotate180 => (-x, -y)
    case Rotate270 => (y, -x)
  }

  function TurnBack(op: Operation, x: int, y: int): (int, int) {
    match op
    case Rotate90 => (y, -x)
    case Rotate180 => (-x, -y)
    case Rotate270 => (-y, x)
  }

  class MatrixArea {
    const rows: nat
    const cols: nat
    const data: array2<bool>
    var centerX: int
    var centerY: int

    constructor (rows: nat, cols: nat)
      ensures this.rows == rows && this.cols == cols && centerX == 0 && centerY == 0
      ensures Valid() && fresh(data)
      ensures forall y, x :: 0 <= y < rows && 0 <= x < cols ==> !data[y, x]
    {
      this.rows, this.cols := rows, cols;
      centerX, centerY := 0, 0;
      data := new bool[rows, cols]((_, _) => false);
    }

    ghost predicate Valid() {
      data.Length0 == rows && data.Length1 == cols
    }

    predicate CentreInside()
      reads this
    {
      0 <= centerX < cols && 0 <= centerY < rows
    }

    /** Whether the tile at this offset from the centre is part of the area. */
    predicate Covers(dx: int, dy: int)
      requires Valid()
      reads this, data
    {
      0 <= centerY + dy < rows && 0 <= centerX + dx < cols && data[centerY + dy, centerX + dx]
    }

    method SetCenter(y: int, x: int)
      modifies this
      ensures centerY == y && centerX == x
    {
      centerY, centerX := y, x;
    }
  }

  /** The cell of the input that a rotation puts into cell (r, c) of the output, if any of
      the cells counted as done goes there. */
  ghost predicate TurnedFrom(input: MatrixArea, op: Operation, centre: int, r: int, c: int, x1: int, y1: int)
    requires input.Valid()
    reads input, input.data
  {
    var (dx, dy) := TurnBack(op, c - centre, r - centre);
    var x, y := input.centerX + dx, input.centerY + dy;
    0 <= x < input.cols && 0 <= y < input.rows && (x < x1 || (x == x1 && y < y1)) && input.data[y, x]
  }

  /** Every write of a rotation stays inside an output twice as large as the input. */
  lemma {:induction false} RotationInBounds(input: MatrixArea, op: Operation, y: int, x: int)
    requires input.Valid() && input.CentreInside()
    requires 0 <= y < input.rows && 0 <= x < input.cols
    ensures var m := Max(input.cols, input.rows);
            var (rx, ry) := Turn(op, x - input.centerX, y - input.centerY);
            0 <= ry + m - 1 < 2 * m && 0 <= rx + m - 1 < 2 * m
  {
  }

  method Rotate(input: MatrixArea, output: MatrixArea, op: Operation)
    requires input.Valid() && output.Valid() && input.data != output.data && input != output
    requires input.CentreInside()
    requires output.rows == output.cols == 2 * Max(input.cols, input.rows)
    requires forall r, c :: 0 <= r < output.rows && 0 <= c < output.cols ==> !output.data[r, c]
    modifies output, output.data
    ensures IsTurned(input, output, op) && output.CentreInside()
  {
    var rotateCenter := output.cols / 2 - 1;
    for x := 0 to input.cols
      invariant forall r, c :: 0 <= r < output.rows && 0 <= c < output.cols ==>
                  (output.data[r, c] <==> TurnedFrom(input, op, rotateCenter, r, c, x, 0))
    {
      RotateColumn(input, output, op, x, rotateCenter);
    }
    output.SetCenter(rotateCenter, rotateCenter);
    RotationDone(input, output, op);
  }

  /** The output covers exactly the turned offsets around its centre. */
  ghost predicate IsTurned(input: MatrixArea, output: MatrixArea, op: Operation)
    requires input.Valid() && output.Valid()
    reads input, input.data, output, output.data
  {
    forall dx, dy :: output.Covers(dx, dy) <==> input.Covers(TurnBack(op, dx, dy).0, TurnBack(op, dx, dy).1)
  }

  method RotateColumn(input: MatrixArea, output: MatrixArea, op: Operation, x: nat, rotateCenter: int)
    requires input.Valid() && output.Valid() && input.data != output.data && input != output
    requires input.CentreInside() && x < input.cols
    requires output.rows == output.cols == 2 * Max(input.cols, input.rows)
    requires rotateCenter == Max(input.cols, input.rows) - 1
    requires forall r, c :: 0 <= r < output.rows && 0 <= c < output.cols ==>
               (output.data[r, c] <==> TurnedFrom(input, op, rotateCenter, r, c, x, 0))
    modifies output.data
    ensures forall r, c :: 0 <= r < output.rows && 0 <= c < output.cols ==>
              (output.data[r, c] <==> TurnedFrom(input, op, rotateCenter, r, c, x + 1, 0))
  {
    for y := 0 to input.rows
      invariant forall r, c :: 0 <= r < output.rows && 0 <= c < output.cols ==>
                  (output.data[r, c] <==> TurnedFrom(input, op, rotateCenter, r, c, x, y))
    {
      hide TurnedFrom, Turn;
      RotationInBounds(input, op, y, x);
      var (rx, ry) := Turn(op, x - input.centerX, y - input.centerY);
      forall r, c
        ensures TurnedFrom(input, op, rotateCenter, r, c, x, y + 1) <==>
                if r == ry + rotateCenter && c == rx + rotateCenter then input.data[y, x]
                else TurnedFrom(input, op, rotateCenter, r, c, x, y)
      {
        OneMoreTurned(input, op, rotateCenter, r, c, x, y);
      }
      output.data[ry + rotateCenter, rx + rotateCenter] := input.data[y, x];
    }
  }

  lemma {:induction false} OneMoreTurned(input: MatrixArea, op: Operation, centre: int, r: int, c: int, x: int, y: int)
    requires input.Valid() && 0 <= x < input.cols && 0 <= y < input.rows
    ensures var (rx, ry) := Turn(op, x - input.centerX, y - input.centerY);
            TurnedFrom(input, op, centre, r, c, x, y + 1) <==>
            if r == ry + centre && c == rx + centre then input.data[y, x]
            else TurnedFrom(input, op, centre, r, c, x, y)
  {
  }

  lemma {:induction false} RotationDone(input: MatrixArea, output: MatrixArea, op: Operation)
    requires input.Valid() && output.Valid() && input.CentreInside()
    requires output.rows == output.cols == 2 * Max(input.cols, input.rows)
    requires output.centerX == output.centerY == Max(input.cols, input.rows) - 1
    requires forall r, c :: 0 <= r < output.rows && 0 <= c < output.cols ==>
               (output.data[r, c] <==> TurnedFrom(input, op, output.centerX, r, c, input.cols, 0))
    ensures forall dx, dy ::
              output.Covers(dx, dy) <==> input.Covers(TurnBack(op, dx, dy).0, TurnBack(op, dx, dy).1)
  {
    forall dx, dy
      ensures output.Covers(dx, dy) <==> input.Covers(TurnBack(op, dx, dy).0, TurnBack(op, dx, dy).1)
    {
      var (ox, oy) := TurnBack(op, dx, dy);
      if input.Covers(ox, oy) {
        RotationInBounds(input, op, input.centerY + oy, input.centerX + ox);
      }
    }
  }

  /** What mirroring covers: the mirror image, off by the difference of columns and rows. */
  ghost predicate IsMirrored(input: MatrixArea, output: MatrixArea)
    requires input.Valid() && output.Valid()
    reads input, input.data, output, output.data
  {
    forall dx, dy :: output.Covers(dx, dy) <==> input.Covers(input.cols - input.rows - dx, dy)
  }

  /** What flipping covers: the flipped image, off by the difference of rows and columns. */
  ghost predicate IsFlipped(input: MatrixArea, output: MatrixArea)
    requires input.Valid() && output.Valid()
    reads input, input.data, output, output.data
  {
    forall dx, dy :: output.Covers(dx, dy) <==> input.Covers(dx, input.rows - input.cols - dy)
  }

  /** Left and right exchanged.  The new centre column is computed from the row count. */
  method MirrorArea(input: MatrixArea, output: MatrixArea)
    requires input.Valid() && output.Valid() && input.data != output.data && input != output
    requires input.rows <= output.rows && input.cols <= output.cols
    requires forall r, c :: 0 <= r < output.rows && 0 <= c < output.cols ==> !output.data[r, c]
    modifies output, output.data
    ensures IsMirrored(input, output)
  {
    for y := 0 to input.rows
      invariant forall r, c :: 0 <= r < output.rows && 0 <= c < output.cols ==>
                  (output.data[r, c] <==> r < y && c < input.cols && input.data[r, input.cols - 1 - c])
    {
      for rx := 0 to input.cols
        invariant forall r, c :: 0 <= r < output.rows && 0 <= c < output.cols ==>
                    (output.data[r, c] <==>
                     (r < y || (r == y && c < rx)) && c < input.cols && input.data[r, input.cols - 1 - c])
      {
        output.data[y, rx] := input.data[y, input.cols - 1 - rx];
      }
    }
    output.SetCenter(input.centerY, input.rows - 1 - input.centerX);
  }

  /** Top and bottom exchanged.  The new centre row is computed from the column count. */
  method FlipArea(input: MatrixArea, output: MatrixArea)
    requires input.Valid() && output.Valid() && input.data != output.data && input != output
    requires input.rows <= output.rows && input.cols <= output.cols
    requires forall r, c :: 0 <= r < output.rows && 0 <= c < output.cols ==> !output.data[r, c]
    modifies output, output.data
    ensures IsFlipped(input, output)
  {
    for x := 0 to input.cols
      invariant forall r, c :: 0 <= r < output.rows && 0 <= c < output.cols ==>
                  (output.data[r, c] <==> c < x && r < input.rows && input.data[input.rows - 1 - r, c])
    {
      for ry := 0 to input.rows
        invariant forall r, c :: 0 <= r < output.rows && 0 <= c < output.cols ==>
                    (output.data[r, c] <==>
                     (c < x || (c == x && r < ry)) && r < input.rows && input.data[input.rows - 1 - r, c])
      {
        output.data[ry, x] := input.data[input.rows - 1 - ry, x];
      }
    }
    output.SetCenter(input.cols - 1 - input.centerY, input.centerX);
  }

  // ---------- when mirroring and flipping are right ----------

  ghost predicate Empty(area: MatrixArea)
    requires area.Valid()
    reads area, area.data
  {
    forall dx, dy :: !area.Covers(dx, dy)
  }

  /** An area that looks the same some way over does so over and over. */
  lemma {:induction false} ShiftedOften(area: MatrixArea, sx: int, sy: int, dx: int, dy: int, k: nat)
    requires area.Valid() && area.Covers(dx, dy)
    requires forall x, y :: area.Covers(x, y) ==> area.Covers(x + sx, y + sy)
    ensures area.Covers(dx + k * sx, dy + k * sy)
  {
    if k > 0 {
      ShiftedOften(area, sx, sy, dx, dy, k - 1);
      assert dx + (k - 1) * sx + sx == dx + k * sx && dy + (k - 1) * sy + sy == dy + k * sy;
    }
  }

  /** No area that covers anything looks the same some way over. */
  lemma {:induction false} ShiftMeansEmpty(area: MatrixArea, sx: int, sy: int, dx: int, dy: int)
    requires area.Valid() && (sx != 0 || sy != 0)
    requires forall x, y :: area.Covers(x, y) ==> area.Covers(x + sx, y + sy)
    ensures !area.Covers(dx, dy)
  {
    if area.Covers(dx, dy) {
      var k := area.cols + area.rows;
      ShiftedOften(area, sx, sy, dx, dy, k);
      Multiples(sx, k);
      Multiples(sy, k);
      assert false;
    }
  }

  /** The mirrored area is the mirror image exactly if the area is square or empty. */
  lemma {:induction false} MirrorExactly(input: MatrixArea, output: MatrixArea)
    requires input.Valid() && output.Valid()
    requires IsMirrored(input, output)
    ensures (forall dx, dy :: output.Covers(dx, dy) <==> input.Covers(-dx, dy))
       <==> input.rows == input.cols || Empty(input)
  {
    var shift := input.cols - input.rows;
    if shift == 0 {
      forall dx, dy
        ensures output.Covers(dx, dy) <==> input.Covers(-dx, dy)
      {
        assert input.cols - input.rows - dx == -dx;
      }
    } else if forall dx, dy :: output.Covers(dx, dy) <==> input.Covers(-dx, dy) {
      forall x, y | input.Covers(x, y)
        ensures input.Covers(x + shift, y + 0)
      {
        assert output.Covers(-x, y) <==> input.Covers(-(-x), y);
        assert output.Covers(-x, y) <==> input.Covers(shift - (-x), y);
      }
      forall dx, dy
        ensures !input.Covers(dx, dy)
      {
        ShiftMeansEmpty(input, shift, 0, dx, dy);
      }
    }
  }

  /** The flipped area is the flipped image exactly if the area is square or empty. */
  lemma {:induction false} FlipExactly(input: MatrixArea, output: MatrixArea)
    requires input.Valid() && output.Valid()
    requires IsFlipped(input, output)
    ensures (forall dx, dy :: output.Covers(dx, dy) <==> input.Covers(dx, -dy))
       <==> input.rows == input.cols || Empty(input)
  {
    var shift := input.rows - input.cols;
    if shift == 0 {
      forall dx, dy
        ensures output.Covers(dx, dy) <==> input.Covers(dx, -dy)
      {
        assert input.rows - input.cols - dy == -dy;
      }
    } else if forall dx, dy :: output.Covers(dx, dy) <==> input.Covers(dx, -dy) {
      forall x, y | input.Covers(x, y)
        ensures input.Covers(x + 0, y + shift)
      {
        assert output.Covers(x, -y) <==> input.Covers(x, -(-y));
        assert output.Covers(x, -y) <==> input.Covers(x, shift - (-y));
      }
      forall dx, dy
        ensures !input.Covers(dx, dy)
      {
        ShiftMeansEmpty(input, 0, shift, dx, dy);
      }
    }
  }

  // ---------- setting areas up ----------

  /** The cells of the area are those of the list, row by row: 1 and 3 are part of it, and the last 2 or
      3 is the centre, or the first cell if there is none. */
  ghost predicate Describes(list: seq<nat>, rows: nat, area: MatrixArea)
    requires rows > 0
    reads area, area.data
  {
    && area.Valid() && area.rows == rows && area.cols == |list| / rows
    && (forall y, x :: 0 <= y < area.rows && 0 <= x < area.cols ==>
          0 <= Cell(y, x, area.cols) < |list| &&
          (area.data[y, x] <==> list[Cell(y, x, area.cols)] in {1, 3}))
    && (|list| > 0 ==> area.CentreInside())
    && CentreIs(list, |list|, area.centerY, area.centerX, area.cols)
  }

  /** Of the first n cells the last one marked as centre is this one, or none is and this is the first. */
  ghost predicate CentreIs(list: seq<nat>, n: nat, y: int, x: int, cols: int)
    requires n <= |list|
  {
    var c := Cell(y, x, cols);
    || (0 <= c < n && list[c] in {2, 3} && forall i :: c < i < n ==> list[i] !in {2, 3})
    || (y == 0 && x == 0 && forall i :: 0 <= i < n ==> list[i] !in {2, 3})
  }

  /** The area that a list of cells describes. */
  method CreateArea(list: seq<nat>, rows: nat) returns (area: MatrixArea)
    requires rows > 0 && |list| % rows == 0
    ensures area.Valid() && fresh(area) && fresh(area.data)
    ensures Describes(list, rows, area)
  {
    hide Cell;
    var cols := |list| / rows;
    area := new MatrixArea(rows, cols);
    var x: nat, y: nat := 0, 0;
    CellsFill(|list|, rows, cols);
    CellSteps(0, 0, cols);
    for i := 0 to |list|
      invariant y <= rows && (cols > 0 ==> x < cols)
      invariant i == Cell(y, x, cols)
      invariant area.Valid() && fresh(area) && fresh(area.data) && area.rows == rows && area.cols == cols
      invariant |list| > 0 ==> area.CentreInside()
      invariant forall r, c :: 0 <= r < rows && 0 <= c < cols ==>
                  (area.data[r, c] <==> Cell(r, c, cols) < i && list[Cell(r, c, cols)] in {1, 3})
      invariant CentreIs(list, i, area.centerY, area.centerX, cols)
    {
      CellSteps(y, x, cols);
      CellInside(y, x, rows, cols);
      CellsDiffer(y, x, rows, cols);
      var value := list[i];
      if value == 1 || value == 3 {
        area.data[y, x] := true;
      }
      if value == 2 || value == 3 {
        area.SetCenter(y, x);
      }
      x := x + 1;
      if cols == x {
        x, y := 0, y + 1;
      }
    }
  }

  /** Where cell (y, x) stands in the list. */
  function Cell(y: int, x: int, cols: int): int { y * cols + x }

  lemma {:induction false} CellBound(r: nat, c: nat, rows: nat, cols: nat)
    requires r < rows && c < cols
    ensures 0 <= Cell(r, c, cols) < rows * cols
  {
    var left := rows - 1 - r;
    assert left * cols >= 0 && r * cols >= 0;
    assert (left + 1 + r) * cols == left * cols + cols + r * cols;
  }

  lemma {:induction false} CellsFill(n: nat, rows: nat, cols: nat)
    requires rows > 0 && n % rows == 0 && cols == n / rows
    ensures n == rows * cols && (n > 0 ==> cols > 0)
    ensures forall r, c :: 0 <= r < rows && 0 <= c < cols ==> 0 <= Cell(r, c, cols) < n
  {
    assert n == rows * cols;
    hide Cell;
    forall r, c | 0 <= r < rows && 0 <= c < cols
      ensures 0 <= Cell(r, c, cols) < n
    {
      CellBound(r, c, rows, cols);
    }
  }

  lemma {:induction false} CellSteps(y: int, x: int, cols: int)
    ensures Cell(0, 0, cols) == 0 && Cell(y, x + 1, cols) == Cell(y, x, cols) + 1
    ensures Cell(y + 1, 0, cols) == Cell(y, cols, cols)
  {
    assert (y + 1) * cols == y * cols + cols;
  }

  /** A position in the list that is not the end is a cell. */
  lemma {:induction false} CellInside(y: nat, x: nat, rows: nat, cols: nat)
    requires y <= rows && x < cols && Cell(y, x, cols) < rows * cols
    ensures y < rows
  {
  }

  lemma {:induction false} Multiples(d: int, cols: nat)
    ensures d >= 1 ==> d * cols >= cols
    ensures d <= -1 ==> d * cols <= 0 - cols
  {
    if d >= 1 {
      assert (d - 1) * cols >= 0;
    }
    if d <= -1 {
      assert (-d - 1) * cols >= 0;
    }
  }

  lemma {:induction false} SameCell(r: nat, c: nat, y: nat, x: nat, cols: nat)
    requires c < cols && x < cols && Cell(r, c, cols) == Cell(y, x, cols)
    ensures r == y && c == x
  {
    assert (r - y) * cols == r * cols - y * cols == x - c;
    Multiples(r - y, cols);
  }

  lemma {:induction false} CellsDiffer(y: nat, x: nat, rows: nat, cols: nat)
    requires x < cols
    ensures forall r, c :: 0 <= r < rows && 0 <= c < cols && Cell(r, c, cols) == Cell(y, x, cols) ==> r == y && c == x
  {
    hide Cell;
    forall r, c | 0 <= r < rows && 0 <= c < cols && Cell(r, c, cols) == Cell(y, x, cols)
      ensures r == y && c == x
    {
      SameCell(r, c, y, x, cols);
    }
  }

  /** One row of two tiles, of which the centre is covered: its mirror image covers the centre,
      but mirroring it covers the tile beside. */
  method MirrorOneRow() returns (input: MatrixArea, output: MatrixArea)
    ensures input.Valid() && output.Valid() && input.rows == 1 && input.cols == 2
    ensures forall dx, dy :: input.Covers(dx, dy) <==> dx == 0 && dy == 0
    ensures forall dx, dy :: output.Covers(dx, dy) <==> dx == 1 && dy == 0
  {
    var list: seq<nat> := [3, 0];
    input := CreateArea(list, 1);
    assert list[Cell(0, 0, 2)] == 3 && list[Cell(0, 1, 2)] == 0;
    output := new MatrixArea(4, 4);
    MirrorArea(input, output);
  }

  /** The four areas of a spell: as drawn for north, turned for the others. */
  method SetupArea(list: seq<nat>, rows: nat) returns (north: MatrixArea, east: MatrixArea, south: MatrixArea, west: MatrixArea)
    requires rows > 0 && |list| > 0 && |list| % rows == 0
    ensures north.Valid() && east.Valid() && south.Valid() && west.Valid() && Describes(list, rows, north)
    ensures forall dx, dy ::
              && (east.Covers(dx, dy) <==> north.Covers(dy, -dx))
              && (south.Covers(dx, dy) <==> north.Covers(-dx, -dy))
              && (west.Covers(dx, dy) <==> north.Covers(-dy, dx))
  {
    hide IsTurned, Max, CentreIs;
    north := CreateArea(list, rows);
    south := Turned(north, Rotate180);
    east := Turned(north, Rotate90);
    west := Turned(north, Rotate270);
    TurnsMean(north, east, south, west);
  }

  /** A new area, twice as large, with the turned one in it. */
  method Turned(input: MatrixArea, op: Operation) returns (output: MatrixArea)
    requires input.Valid() && input.CentreInside()
    ensures output.Valid() && fresh(output) && fresh(output.data) && IsTurned(input, output, op)
  {
    hide IsTurned;
    var maxOutput := Max(input.cols, input.rows) * 2;
    output := new MatrixArea(maxOutput, maxOutput);
    Rotate(input, output, op);
  }

  lemma {:induction false} TurnsMean(north: MatrixArea, east: MatrixArea, south: MatrixArea, west: MatrixArea)
    requires north.Valid() && east.Valid() && south.Valid() && west.Valid()
    requires IsTurned(north, east, Rotate90) && IsTurned(north, south, Rotate180) && IsTurned(north, west, Rotate270)
    ensures forall dx, dy ::
              && (east.Covers(dx, dy) <==> north.Covers(dy, -dx))
              && (south.Covers(dx, dy) <==> north.Covers(-dx, -dy))
              && (west.Covers(dx, dy) <==> north.Covers(-dy, dx))
  {
    forall dx, dy
      ensures east.Covers(dx, dy) <==> north.Covers(dy, -dx)
      ensures south.Covers(dx, dy) <==> north.Covers(-dx, -dy)
      ensures west.Covers(dx, dy) <==> north.Covers(-dy, dx)
    {
      assert TurnBack(Rotate90, dx, dy) == (dy, -dx);
      assert TurnBack(Rotate180, dx, dy) == (-dx, -dy);
      assert TurnBack(Rotate270, dx, dy) == (-dy, dx);
    }
  }

  /** The four diagonal areas.  For a square area each is the mirror image it should be. */
  method SetupExtArea(list: seq<nat>, rows: nat)
    returns (nw: MatrixArea, ne: MatrixArea, sw: MatrixArea, se: MatrixArea)
    requires rows > 0 && |list| > 0 && |list| % rows == 0
    ensures nw.Valid() && ne.Valid() && sw.Valid() && se.Valid() && Describes(list, rows, nw)
    ensures var skew := nw.cols - nw.rows;
            forall dx, dy ::
              && (ne.Covers(dx, dy) <==> nw.Covers(skew - dx, dy))
              && (sw.Covers(dx, dy) <==> nw.Covers(dx, -skew - dy))
              && (se.Covers(dx, dy) <==> nw.Covers(-dx, -skew - dy))
  {
    hide IsMirrored, IsFlipped, Max, CentreIs;
    nw := CreateArea(list, rows);
    var maxOutput := Max(nw.cols, nw.rows) * 2;
    MaxCovers(nw.cols, nw.rows);
    ne := new MatrixArea(maxOutput, maxOutput);
    MirrorArea(nw, ne);
    sw := new MatrixArea(maxOutput, maxOutput);
    FlipArea(nw, sw);
    se := new MatrixArea(maxOutput, maxOutput);
    MirrorArea(sw, se);
    DiagonalsMean(nw, ne, sw, se);
  }

  lemma {:induction false} MaxCovers(a: nat, b: nat)
    ensures a <= Max(a, b) * 2 && b <= Max(a, b) * 2
  {
  }

  lemma {:induction false} DiagonalsMean(nw: MatrixArea, ne: MatrixArea, sw: MatrixArea, se: MatrixArea)
    requires nw.Valid() && ne.Valid() && sw.Valid() && se.Valid() && sw.rows == sw.cols
    requires IsMirrored(nw, ne) && IsFlipped(nw, sw) && IsMirrored(sw, se)
    ensures var skew := nw.cols - nw.rows;
            forall dx, dy ::
              && (ne.Covers(dx, dy) <==> nw.Covers(skew - dx, dy))
              && (sw.Covers(dx, dy) <==> nw.Covers(dx, -skew - dy))
              && (se.Covers(dx, dy) <==> nw.Covers(-dx, -skew - dy))
  {
    forall dx, dy
      ensures ne.Covers(dx, dy) <==> nw.Covers(nw.cols - nw.rows - dx, dy)
      ensures sw.Covers(dx, dy) <==> nw.Covers(dx, -(nw.cols - nw.rows) - dy)
      ensures se.Covers(dx, dy) <==> nw.Covers(-dx, -(nw.cols - nw.rows) - dy)
    {
      assert nw.rows - nw.cols - dy == -(nw.cols - nw.rows) - dy;
      assert sw.cols - sw.rows - dx == -dx;
      assert se.Covers(dx, dy) <==> sw.Covers(-dx, dy);
    }
  }
}
