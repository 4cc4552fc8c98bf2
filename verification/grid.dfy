/** The grid map shared by both raycasters: its constants, the size check
    run at startup, and the guarded cell lookup used by the ray stepper and
    by the 3D collision test. */
module Grid {
  import opened Python

  const WIDTH: int := 960
  const HEIGHT: int := 480
  const MAP_SIZE: int := 8
  /** `int((WIDTH / 2) / MAP_SIZE)`, i.e. 60 world units per cell. */
  const TILE_SIZE: int := 60
  /** `int(MAP_SIZE * TILE_SIZE)`, i.e. 480 depth steps per ray. */
  const MAX_DEPTH: int := 480

  /** `math.pi` as the double Python uses. */
  const PI: real := 3.141592653589793
  const FOV: real := PI / 3.0
  const HALF_FOV: real := FOV / 2.0

  /** The map is a Python list of strings; `'1'` is a wall, `'.'` empty. */
  type Map = seq<string>

  const WALL: char := '1'

  /** Every row has MAP_SIZE cells and there are MAP_SIZE rows. The startup
      check does not establish this (see MapSizeAccepted). */
  predicate Rectangular(m: Map) {
    |m| == MAP_SIZE && forall r :: 0 <= r < |m| ==> |m[r]| == MAP_SIZE
  }

  /** The startup check `(len(mMap) != MAP_SIZE) | (len(mMap[0]) != MAP_SIZE)`:
      Ok(true) lets the program start, Ok(false) prints a message and exits.
      `|` is not short-circuiting, so an empty map raises IndexError. */
  function CheckMapSize(m: Map): (r: Outcome<bool>)
    ensures r == IndexError <==> m == []
    ensures r == Ok(true) ==> |m| == MAP_SIZE && |m[0]| == MAP_SIZE
  {
    if m == [] then IndexError
    else Ok(!((|m| != MAP_SIZE) || (|m[0]| != MAP_SIZE)))
  }

  /** The check accepts exactly the maps with MAP_SIZE rows whose first row
      has MAP_SIZE characters; it looks at no other row. */
  lemma MapSizeAccepted(m: Map)
    ensures CheckMapSize(m) == Ok(true) <==> |m| == MAP_SIZE && |m[0]| == MAP_SIZE
  {
  }

  /** Replacing any row other than the first does not change the verdict. */
  lemma OtherRowsUnchecked(m: Map, r: int, row: string)
    requires 1 <= r < |m|
    ensures CheckMapSize(m[r := row]) == CheckMapSize(m)
  {
  }

  /** A map the check accepts although it is not rectangular; the first
      `drawMap` then raises IndexError, at `mMap[1][1]`. */
  lemma {:induction false} RaggedMapAccepted()
    ensures var m := ["11111111", "1", "", "1", "1", "1", "1", "1"];
            CheckMapSize(m) == Ok(true) && !Rectangular(m) && DrawMapRaises(m)
  {
    var m := ["11111111", "1", "", "1", "1", "1", "1", "1"];
    assert |m[1]| != MAP_SIZE;
    assert CellAt(m, 1, 1).IndexError?;
  }

  /** The upper-bound test `(row < MAP_SIZE) & (col < MAP_SIZE)`; there is
      no lower-bound test. */
  predicate BoundsTest(row: int, col: int) {
    row < MAP_SIZE && col < MAP_SIZE
  }

  /** `mMap[row][col]` with Python's indexing. */
  function CellAt(m: Map, row: int, col: int): (r: Outcome<char>)
    ensures Rectangular(m) ==>
              (r.Ok? <==> -MAP_SIZE <= row < MAP_SIZE && -MAP_SIZE <= col < MAP_SIZE)
    ensures Rectangular(m) && r.Ok? ==> r.value == m[row % MAP_SIZE][col % MAP_SIZE]
  {
    match Index(m, row)
    case IndexError => IndexError
    case Ok(line) => Index(line, col)
  }

  /** A negative row passes the bounds test and reads a row from the end of
      the map: the last row for -1, and an IndexError below -MAP_SIZE. */
  lemma NegativeRowsWrap(m: Map, col: int)
    requires Rectangular(m) && 0 <= col < MAP_SIZE
    ensures BoundsTest(-1, col) && CellAt(m, -1, col) == Ok(m[MAP_SIZE - 1][col])
    ensures BoundsTest(-MAP_SIZE - 1, col) && CellAt(m, -MAP_SIZE - 1, col) == IndexError
  {
  }

  /** The cell holding the world point (x, y):
      `(int(y / TILE_SIZE), int(x / TILE_SIZE))`. */
  function CellOf(x: real, y: real): (int, int) {
    (Trunc(y / TILE_SIZE as real), Trunc(x / TILE_SIZE as real))
  }

  /** For a point right of and below the map's corner, CellOf is the cell
      whose square contains it; a coordinate less than one cell negative
      still maps to index 0, because `int()` truncates toward zero. */
  lemma CellOfContains(x: real, y: real)
    ensures var rc := CellOf(x, y);
            (0.0 <= y ==> rc.0 as real * TILE_SIZE as real <= y < (rc.0 + 1) as real * TILE_SIZE as real) &&
            (0.0 <= x ==> rc.1 as real * TILE_SIZE as real <= x < (rc.1 + 1) as real * TILE_SIZE as real) &&
            (-(TILE_SIZE as real) < y < 0.0 ==> rc.0 == 0) &&
            (-(TILE_SIZE as real) < x < 0.0 ==> rc.1 == 0)
  {
    TruncTile(y);
    TruncTile(x);
  }

  lemma TruncTile(v: real)
    ensures var t := Trunc(v / TILE_SIZE as real);
            (0.0 <= v ==> t as real * TILE_SIZE as real <= v < (t + 1) as real * TILE_SIZE as real) &&
            (-(TILE_SIZE as real) < v < 0.0 ==> t == 0)
  {
    assert TILE_SIZE == 60;
    var q := v / 60.0;
    assert q * 60.0 == v;
  }

  /** What the guarded lookup at a point yields: nothing when the bounds
      test fails, the piece read when it passes, or the IndexError raised by
      reading it. */
  datatype Sighting = Unchecked | Piece(row: int, col: int, piece: char) | Raised

  /** `if (row < MAP_SIZE) & (col < MAP_SIZE): piece = mMap[row][col]` at the
      cell of (x, y). */
  function LookAt(m: Map, x: real, y: real): (s: Sighting)
    ensures s == Unchecked <==> !BoundsTest(CellOf(x, y).0, CellOf(x, y).1)
    ensures s == Raised <==>
              BoundsTest(CellOf(x, y).0, CellOf(x, y).1) && CellAt(m, CellOf(x, y).0, CellOf(x, y).1) == IndexError
    ensures s.Piece? ==> (s.row, s.col) == CellOf(x, y) && CellAt(m, s.row, s.col) == Ok(s.piece)
  {
    var (row, col) := CellOf(x, y);
    if BoundsTest(row, col) then
      match CellAt(m, row, col)
      case IndexError => Raised
      case Ok(p) => Piece(row, col, p)
    else Unchecked
  }

  /** On a rectangular map, no lookup raises IndexError while the point lies
      less than MAP_SIZE + 1 cells to the left of or above the map. */
  lemma NoIndexErrorNearMap(m: Map, x: real, y: real)
    requires Rectangular(m)
    requires -((MAP_SIZE + 1) * TILE_SIZE) as real < x && -((MAP_SIZE + 1) * TILE_SIZE) as real < y
    ensures LookAt(m, x, y) != Raised
  {
    var (row, col) := CellOf(x, y);
    assert -MAP_SIZE <= row by {
      assert -((MAP_SIZE + 1) as real) < y / TILE_SIZE as real;
    }
    assert -MAP_SIZE <= col by {
      assert -((MAP_SIZE + 1) as real) < x / TILE_SIZE as real;
    }
  }

  /** `drawMap` reads `mMap[row][col]` for every row and col in
      `range(MAP_SIZE)`, and some such read raises IndexError. */
  ghost predicate DrawMapRaises(m: Map) {
    exists r, c :: 0 <= r < MAP_SIZE && 0 <= c < MAP_SIZE && CellAt(m, r, c).IndexError?
  }

  /** The reads of `drawMap`, row by row and column by column, without the
      rectangles it draws. `ok` is false when a read raised IndexError,
      which ends the program. */
  method DrawMap(m: Map) returns (ok: bool)
    ensures ok <==> !DrawMapRaises(m)
  {
    for row := 0 to MAP_SIZE
      invariant forall r, c :: 0 <= r < row && 0 <= c < MAP_SIZE ==> !CellAt(m, r, c).IndexError?
    {
      for col := 0 to MAP_SIZE
        invariant forall r, c :: 0 <= r < row && 0 <= c < MAP_SIZE ==> !CellAt(m, r, c).IndexError?
        invariant forall c :: 0 <= c < col ==> !CellAt(m, row, c).IndexError?
      {
        var piece := CellAt(m, row, col);
        if piece.IndexError? {
          return false;
        }
      }
    }
    return true;
  }

  /** On a map the size check accepted, `drawMap` raises exactly when some
      row is shorter than MAP_SIZE. */
  lemma DrawMapRaisesOnShortRow(m: Map)
    requires CheckMapSize(m) == Ok(true)
    ensures DrawMapRaises(m) <==> exists r :: 0 <= r < MAP_SIZE && |m[r]| < MAP_SIZE
  {
    if DrawMapRaises(m) {
      var r, c :| 0 <= r < MAP_SIZE && 0 <= c < MAP_SIZE && CellAt(m, r, c).IndexError?;
      assert Index(m, r) == Ok(m[r]);
      assert |m[r]| < MAP_SIZE;
    }
    if r :| 0 <= r < MAP_SIZE && |m[r]| < MAP_SIZE {
      assert Index(m, r) == Ok(m[r]);
      assert CellAt(m, r, MAP_SIZE - 1).IndexError?;
    }
  }

  /** The map literal of the 2D raycaster. */
  const MAP_2D: Map := [
    "11111111",
    "1..1...1",
    "1..1...1",
    "1....111",
    "1......1",
    "1...1..1",
    "1...1..1",
    "11111111"
  ]

  /** The map literal of the 3D raycaster. */
  const MAP_3D: Map := [
    "11111111",
    "1..1...1",
    "1......1",
    "111..111",
    "111....1",
    "1...1..1",
    "1...1..1",
    "11111111"
  ]

  /** Both literals pass the startup check and are rectangular. */
  lemma LiteralMapsAccepted()
    ensures CheckMapSize(MAP_2D) == Ok(true) && Rectangular(MAP_2D) && !DrawMapRaises(MAP_2D)
    ensures CheckMapSize(MAP_3D) == Ok(true) && Rectangular(MAP_3D) && !DrawMapRaises(MAP_3D)
  {
    DrawMapRaisesOnShortRow(MAP_2D);
    DrawMapRaisesOnShortRow(MAP_3D);
  }
}
