/** The ray stepper both raycasters run inside `cast_rays`: march an integer
    depth from 0 to MAX_DEPTH - 1 along a ray and stop at the first depth
    whose sample cell passes the upper-bound test and holds a wall. Also the
    fan of rays spread across the field of view. */
module Stepper {
  import opened Python
  import opened Grid

  /** A ray from the player's position (x, y) with the sine and cosine of
      its angle; `math.sin` and `math.cos` are not modelled, their values
      are inputs. */
  datatype Ray = Ray(x: real, y: real, sin: real, cos: real)

  /** How the search along one ray ends: a wall at a depth and cell, no wall
      within MAX_DEPTH steps, or an IndexError raised at a depth. */
  datatype RayOutcome = Hit(depth: nat, row: int, col: int) | NoHit | Crashed(depth: nat)

  /** The sample point at depth d:
      `(player_x - sin(a) * depth, player_y + cos(a) * depth)`. */
  function SamplePoint(ray: Ray, d: int): (real, real) {
    (ray.x - ray.sin * d as real, ray.y + ray.cos * d as real)
  }

  /** With a genuine sine and cosine, the sample at depth d lies at distance
      d from the player: the depth counts world units along the ray. */
  lemma SampleAtDistance(ray: Ray, d: int)
    requires ray.sin * ray.sin + ray.cos * ray.cos == 1.0
    ensures var p := SamplePoint(ray, d);
            (p.0 - ray.x) * (p.0 - ray.x) + (p.1 - ray.y) * (p.1 - ray.y) == (d * d) as real
  {
    var s, c, e := ray.sin, ray.cos, d as real;
    assert (s * e) * (s * e) + (c * e) * (c * e) == (s * s + c * c) * (e * e);
  }

  /** The guarded cell lookup at the sample point of depth d. */
  function ProbeAt(m: Map, ray: Ray, d: int): Sighting {
    var p := SamplePoint(ray, d);
    LookAt(m, p.0, p.1)
  }

  /** A sighting that ends the march: a wall piece, or an IndexError. */
  predicate Blocks(s: Sighting) {
    s == Raised || (s.Piece? && s.piece == WALL)
  }

  /** The search from depth `from` on, the way the depth loop runs it. */
  function SearchFrom(m: Map, ray: Ray, from: int): RayOutcome
    requires 0 <= from
    decreases MAX_DEPTH - from
  {
    if from >= MAX_DEPTH then NoHit
    else match ProbeAt(m, ray, from)
      case Raised => Crashed(from)
      case Piece(row, col, p) =>
        if p == WALL then Hit(from, row, col) else SearchFrom(m, ray, from + 1)
      case Unchecked => SearchFrom(m, ray, from + 1)
  }

  /** The outcome of casting one ray. */
  function FirstHit(m: Map, ray: Ray): RayOutcome {
    SearchFrom(m, ray, 0)
  }

  /** No depth in [lo, hi) blocks the ray. */
  ghost predicate ClearBetween(m: Map, ray: Ray, lo: int, hi: int) {
    forall e :: lo <= e < hi ==> !Blocks(ProbeAt(m, ray, e))
  }

  /** `r` is the outcome of a least-depth search from `from`: the least depth
      in [from, MAX_DEPTH) that blocks the ray decides it, and NoHit means no
      depth there blocks it. */
  ghost predicate LeastBlocking(m: Map, ray: Ray, from: int, r: RayOutcome) {
    match r
    case NoHit => ClearBetween(m, ray, from, MAX_DEPTH)
    case Hit(d, row, col) =>
      from <= d < MAX_DEPTH && ProbeAt(m, ray, d) == Piece(row, col, WALL) && ClearBetween(m, ray, from, d)
    case Crashed(d) =>
      from <= d < MAX_DEPTH && ProbeAt(m, ray, d) == Raised && ClearBetween(m, ray, from, d)
  }

  lemma {:induction false} SearchFromIsLeast(m: Map, ray: Ray, from: int)
    requires 0 <= from
    ensures LeastBlocking(m, ray, from, SearchFrom(m, ray, from))
    decreases MAX_DEPTH - from
  {
    if from < MAX_DEPTH {
      var s := ProbeAt(m, ray, from);
      if !Blocks(s) {
        SearchFromIsLeast(m, ray, from + 1);
        var r := SearchFrom(m, ray, from + 1);
        assert SearchFrom(m, ray, from) == r;
        match r
        case NoHit =>
        case Hit(d, _, _) =>
          assert ClearBetween(m, ray, from, d);
        case Crashed(d) =>
          assert ClearBetween(m, ray, from, d);
      }
    }
  }

  /** At most one outcome is a least-depth outcome. */
  lemma LeastBlockingUnique(m: Map, ray: Ray, from: int, r1: RayOutcome, r2: RayOutcome)
    requires LeastBlocking(m, ray, from, r1) && LeastBlocking(m, ray, from, r2)
    ensures r1 == r2
  {
    if r1.Hit? || r1.Crashed? {
      var d1 := r1.depth;
      assert Blocks(ProbeAt(m, ray, d1));
      if r2.Hit? || r2.Crashed? {
        var d2 := r2.depth;
        assert Blocks(ProbeAt(m, ray, d2));
        assert !(d1 < d2) && !(d2 < d1);
      }
    }
  }

  /** The ray reports exactly the least depth in [0, MAX_DEPTH) whose cell
      passes the bounds test and holds a wall (or raises), and NoHit exactly
      when there is none. */
  lemma FirstHitIsLeast(m: Map, ray: Ray, r: RayOutcome)
    ensures FirstHit(m, ray) == r <==> LeastBlocking(m, ray, 0, r)
  {
    SearchFromIsLeast(m, ray, 0);
    if LeastBlocking(m, ray, 0, r) {
      LeastBlockingUnique(m, ray, 0, r, FirstHit(m, ray));
    }
  }

  /** A hit is always on a cell that passed the upper-bound test, at a depth
      within the march. */
  lemma HitPassesBoundsTest(m: Map, ray: Ray)
    requires FirstHit(m, ray).Hit?
    ensures var r := FirstHit(m, ray);
            0 <= r.depth < MAX_DEPTH && BoundsTest(r.row, r.col) &&
            (r.row, r.col) == CellOf(SamplePoint(ray, r.depth).0, SamplePoint(ray, r.depth).1) &&
            CellAt(m, r.row, r.col) == Ok(WALL)
  {
    SearchFromIsLeast(m, ray, 0);
  }

  lemma ProbeAtCell(m: Map, ray: Ray, d: int, x: real, y: real)
    requires x == ray.x - ray.sin * d as real && y == ray.y + ray.cos * d as real
    ensures ProbeAt(m, ray, d) == LookAt(m, x, y)
  {
    var p := SamplePoint(ray, d);
    assert p.0 == x && p.1 == y;
  }

  /** The inner `for depth in range(MAX_DEPTH)` loop of `cast_rays`, with its
      `break` at the first wall. */
  method CastRay(m: Map, ray: Ray) returns (r: RayOutcome)
    ensures r == FirstHit(m, ray)
  {
    for depth := 0 to MAX_DEPTH
      invariant SearchFrom(m, ray, depth) == FirstHit(m, ray)
    {
      var targetX := ray.x - ray.sin * depth as real;
      var targetY := ray.y + ray.cos * depth as real;
      var targetRow := Trunc(targetY / TILE_SIZE as real);
      var targetCol := Trunc(targetX / TILE_SIZE as real);
      ghost var probe := ProbeAt(m, ray, depth);
      ProbeAtCell(m, ray, depth, targetX, targetY);
      if targetRow < MAP_SIZE && targetCol < MAP_SIZE {
        var targetPiece := CellAt(m, targetRow, targetCol);
        if targetPiece.IndexError? {
          assert probe == Raised;
          return Crashed(depth);
        }
        assert probe == Piece(targetRow, targetCol, targetPiece.value);
        if targetPiece.value == WALL {
          return Hit(depth, targetRow, targetCol);
        }
      } else {
        assert probe == Unchecked;
      }
    }
    return NoHit;
  }

  /** On a map without any wall piece the ray never reports a hit. */
  lemma {:induction false} NoWallNoHit(m: Map, ray: Ray, from: int)
    requires 0 <= from
    requires forall r, c :: 0 <= r < |m| && 0 <= c < |m[r]| ==> m[r][c] != WALL
    ensures !SearchFrom(m, ray, from).Hit?
    decreases MAX_DEPTH - from
  {
    if from < MAX_DEPTH {
      var s := ProbeAt(m, ray, from);
      if s.Piece? {
        var line := Index(m, s.row);
        assert line.Ok? && line.value == m[s.row % |m|];
        assert s.piece == line.value[s.col % |line.value|];
      }
      NoWallNoHit(m, ray, from + 1);
    }
  }

  /** The all-empty 8 by 8 map. */
  const OPEN_MAP: Map := seq(MAP_SIZE, _ => "........")

  /** From a position on the map or right of and below it, with a genuine
      sine and cosine, a ray over the all-empty map marches the full depth
      and reports no hit. */
  lemma {:induction false} OpenMapNoHit(ray: Ray, from: int)
    requires 0 <= from
    requires 0.0 <= ray.x && 0.0 <= ray.y
    requires -1.0 <= ray.sin <= 1.0 && -1.0 <= ray.cos <= 1.0
    ensures SearchFrom(OPEN_MAP, ray, from) == NoHit
    decreases MAX_DEPTH - from
  {
    if from < MAX_DEPTH {
      OpenMapProbe(ray, from);
      OpenMapNoHit(ray, from + 1);
    }
  }

  /** One step of OpenMapNoHit: the sample point stays within reach of the
      map, so the lookup neither raises nor finds a wall. */
  lemma OpenMapProbe(ray: Ray, d: int)
    requires 0 <= d < MAX_DEPTH
    requires 0.0 <= ray.x && 0.0 <= ray.y
    requires -1.0 <= ray.sin <= 1.0 && -1.0 <= ray.cos <= 1.0
    ensures !Blocks(ProbeAt(OPEN_MAP, ray, d))
  {
    var p := SamplePoint(ray, d);
    ScaledBySineBound(ray.sin, d);
    ScaledBySineBound(ray.cos, d);
    assert -540.0 < p.0 && -540.0 < p.1;
    assert Rectangular(OPEN_MAP);
    NoIndexErrorNearMap(OPEN_MAP, p.0, p.1);
    var s := LookAt(OPEN_MAP, p.0, p.1);
    if s.Piece? {
      assert s.piece == OPEN_MAP[s.row % MAP_SIZE][s.col % MAP_SIZE];
    }
  }

  /** From the start position (240, 240) of the 3D map, a ray pointing
      along +y crosses the empty cell (4, 4) and hits the wall (5, 4) at
      depth 60, the distance to that cell's near edge. */
  lemma StartRayHitsWallBelow()
    ensures FirstHit(MAP_3D, Ray(240.0, 240.0, 0.0, 1.0)) == Hit(60, 5, 4)
  {
    var ray := Ray(240.0, 240.0, 0.0, 1.0);
    forall e | 0 <= e < 60
      ensures !Blocks(ProbeAt(MAP_3D, ray, e))
    {
      StartRayClear(e);
    }
    CellOfContains(240.0, 300.0);
    assert CellOf(240.0, 300.0) == (5, 4);
    assert ProbeAt(MAP_3D, ray, 60) == LookAt(MAP_3D, 240.0, 300.0);
    assert LeastBlocking(MAP_3D, ray, 0, Hit(60, 5, 4));
    FirstHitIsLeast(MAP_3D, ray, Hit(60, 5, 4));
  }

  lemma StartRayClear(e: int)
    requires 0 <= e < 60
    ensures !Blocks(ProbeAt(MAP_3D, Ray(240.0, 240.0, 0.0, 1.0), e))
  {
    CellOfContains(240.0, 240.0 + e as real);
    assert CellOf(240.0, 240.0 + e as real) == (4, 4);
    assert ProbeAt(MAP_3D, Ray(240.0, 240.0, 0.0, 1.0), e) == LookAt(MAP_3D, 240.0, 240.0 + e as real);
  }

  /** A ray cast from above the map reports a hit on a wrapped cell: at
      depth 0 the row is int(-1.5) = -1, which passes the upper-bound test
      and reads the last row of the map. */
  lemma RayHitsWrappedCell()
    ensures FirstHit(MAP_3D, Ray(240.0, -90.0, 0.0, -1.0)) == Hit(0, -1, 4)
  {
    var ray := Ray(240.0, -90.0, 0.0, -1.0);
    assert CellOf(240.0, -90.0) == (-1, 4);
    assert ProbeAt(MAP_3D, ray, 0) == LookAt(MAP_3D, 240.0, -90.0);
  }

  lemma ScaledBySineBound(v: real, d: int)
    requires -1.0 <= v <= 1.0 && 0 <= d
    ensures -(d as real) <= v * d as real <= d as real
  {
    if v >= 0.0 {
      assert v * d as real <= 1.0 * d as real;
    } else {
      assert (-v) * d as real <= 1.0 * d as real;
    }
  }

  /** The angle of ray i: `player_angle - HALF_FOV + i * step`. */
  function RayAngle(angle: real, step: real, i: int): real {
    angle - HALF_FOV + i as real * step
  }

  /** Adding the step to ray j's angle gives ray j + 1's, as
      `start_angle += STEP_ANGLE` does. */
  lemma RayAngleNext(angle: real, step: real, j: int)
    ensures RayAngle(angle, step, j) + step == RayAngle(angle, step, j + 1)
  {
    assert (j + 1) as real * step == j as real * step + step;
  }

  /** The fan of n rays, with step FOV / n, covers [angle - HALF_FOV,
      angle + HALF_FOV): the first ray at its left edge, none at or past its
      right edge. */
  lemma FanSpansFov(angle: real, n: int, i: int)
    requires 0 <= i < n
    ensures RayAngle(angle, FOV / n as real, 0) == angle - HALF_FOV
    ensures angle - HALF_FOV <= RayAngle(angle, FOV / n as real, i) < angle + HALF_FOV
  {
    var step := FOV / n as real;
    assert step * n as real == FOV;
    assert 0.0 < step;
    assert 0.0 <= i as real * step;
    assert ((n - 1) - i) as real * step >= 0.0;
    assert (n - 1) as real * step == FOV - step;
    assert i as real * step < FOV;
  }

  /** Ray j of the fan, cast from the player's position at RayAngle(angle, step, j). */
  function RayAt(x: real, y: real, angle: real, step: real, sin: real -> real, cos: real -> real, j: int): Ray {
    var a := RayAngle(angle, step, j);
    Ray(x, y, sin(a), cos(a))
  }

  /** The outcome every ray of the fan would have, were all n of them cast. */
  function AllRays(m: Map, x: real, y: real, angle: real, n: nat, step: real,
                   sin: real -> real, cos: real -> real): seq<RayOutcome> {
    seq(n, k requires 0 <= k < n => FirstHit(m, RayAt(x, y, angle, step, sin, cos, k)))
  }

  /** Ray j of the fan, cast from a start angle that has reached its angle. */
  lemma AllRaysAt(m: Map, x: real, y: real, angle: real, n: nat, step: real,
                  sin: real -> real, cos: real -> real, j: int, startAngle: real)
    requires 0 <= j < n && startAngle == RayAngle(angle, step, j)
    ensures AllRays(m, x, y, angle, n, step, sin, cos)[j] == FirstHit(m, Ray(x, y, sin(startAngle), cos(startAngle)))
  {
  }

  /** The rays `cast_rays` actually gets through: an IndexError ends the
      whole call, so the rays after the first one that raises are never
      cast. */
  function UpToCrash(rays: seq<RayOutcome>): seq<RayOutcome> {
    if rays == [] then []
    else if rays[0].Crashed? then [rays[0]]
    else [rays[0]] + UpToCrash(rays[1..])
  }

  /** UpToCrash keeps a prefix of the rays: all of them when none raises,
      and otherwise exactly those up to and including the first that raises. */
  lemma {:induction false} UpToCrashIsPrefix(rays: seq<RayOutcome>)
    ensures var kept := UpToCrash(rays);
            |kept| <= |rays| && (rays != [] ==> kept != []) &&
            kept == rays[..|kept|] &&
            (forall k :: 0 <= k < |kept| - 1 ==> !kept[k].Crashed?) &&
            (|kept| < |rays| ==> kept[|kept| - 1].Crashed?)
  {
    if rays != [] && !rays[0].Crashed? {
      UpToCrashIsPrefix(rays[1..]);
      var rest := UpToCrash(rays[1..]);
      assert UpToCrash(rays) == [rays[0]] + rest;
      assert rest == rays[1..][..|rest|];
    }
  }

  /** Past a prefix with no IndexError, UpToCrash goes on from where the
      prefix ends. */
  lemma {:induction false} UpToCrashAfter(rays: seq<RayOutcome>, j: int)
    requires 0 <= j <= |rays|
    requires forall k :: 0 <= k < j ==> !rays[k].Crashed?
    ensures UpToCrash(rays) == rays[..j] + UpToCrash(rays[j..])
  {
    if j > 0 {
      UpToCrashAfter(rays[1..], j - 1);
      assert rays[1..][j - 1..] == rays[j..];
      assert [rays[0]] + rays[1..][..j - 1] == rays[..j];
    }
  }

  /** The first j rays of `all` have been cast and none of them raised. */
  ghost predicate CastSoFar(all: seq<RayOutcome>, rays: seq<RayOutcome>, j: int) {
    0 <= j <= |all| && rays == all[..j] && forall k :: 0 <= k < j ==> !all[k].Crashed?
  }

  /** Casting ray j either keeps the fan going or, on an IndexError, ends
      it with exactly the rays UpToCrash keeps. */
  lemma CastNext(all: seq<RayOutcome>, rays: seq<RayOutcome>, j: int)
    requires CastSoFar(all, rays, j) && j < |all|
    ensures all[j].Crashed? ==> rays + [all[j]] == UpToCrash(all)
    ensures !all[j].Crashed? ==> CastSoFar(all, rays + [all[j]], j + 1)
  {
    if all[j].Crashed? {
      UpToCrashAfter(all, j);
      assert UpToCrash(all[j..]) == [all[j]];
    } else {
      assert all[..j + 1] == all[..j] + [all[j]];
    }
  }

  /** Once every ray is cast without an IndexError, the fan is complete. */
  lemma CastAll(all: seq<RayOutcome>, rays: seq<RayOutcome>)
    requires CastSoFar(all, rays, |all|)
    ensures rays == UpToCrash(all)
  {
    UpToCrashAfter(all, |all|);
    assert all[|all|..] == [];
  }

  /** The outcomes of one `cast_rays` call with n rays spaced `step` apart. */
  function Fan(m: Map, x: real, y: real, angle: real, n: nat, step: real,
               sin: real -> real, cos: real -> real): seq<RayOutcome> {
    UpToCrash(AllRays(m, x, y, angle, n, step, sin, cos))
  }

  /** Each ray of the fan is searched as FirstHit prescribes at its own
      angle; the call stops early only at a ray that raised. */
  lemma FanRays(m: Map, x: real, y: real, angle: real, n: nat, step: real,
                sin: real -> real, cos: real -> real)
    ensures var rays := Fan(m, x, y, angle, n, step, sin, cos);
            |rays| <= n && (n > 0 ==> rays != []) &&
            (forall k :: 0 <= k < |rays| ==> rays[k] == FirstHit(m, RayAt(x, y, angle, step, sin, cos, k))) &&
            (forall k :: 0 <= k < |rays| - 1 ==> !rays[k].Crashed?) &&
            (|rays| < n ==> rays[|rays| - 1].Crashed?)
  {
    var all := AllRays(m, x, y, angle, n, step, sin, cos);
    UpToCrashIsPrefix(all);
    var rays := UpToCrash(all);
    forall k | 0 <= k < |rays|
      ensures rays[k] == FirstHit(m, RayAt(x, y, angle, step, sin, cos, k))
    {
      assert rays[k] == all[k];
    }
  }

  /** The call ended with an IndexError. */
  predicate EndsInCrash(rays: seq<RayOutcome>) {
    |rays| > 0 && rays[|rays| - 1].Crashed?
  }
}
