/** The 3D raycaster: the top-down map on the left half of the window and,
    on the right half, one shaded vertical slice per ray that hits a wall.
    The player is pushed back out of walls by reversing the last move. */
module Raycast3D {
  import opened Python
  import opened Grid
  import opened Stepper
  import opened Movement
  import opened Projection

  /** A slice, or none for a ray that did not hit. */
  datatype Option<+T> = None | Some(value: T)

  /** The slice drawn for ray i: one for a hit, none otherwise. */
  function SliceOf(i: nat, r: RayOutcome, cosOffset: real): (s: Option<Slice>)
    requires 0.0 <= cosOffset
    ensures s.Some? <==> r.Hit?
    ensures r.Hit? ==> s.value.shade == Shade(r.depth) && s.value.x == HALF_WIDTH + i * SCALE
  {
    if r.Hit? then Some(Project(i, r.depth, cosOffset)) else None
  }

  /** The cosine is non-negative at every ray's offset from the facing
      direction. */
  ghost predicate CosNonNegativeOnFan(cos: real -> real) {
    forall i :: 0 <= i < RAYS_NUM ==> 0.0 <= cos(Offset(i))
  }

  /** A cosine that is non-negative within HALF_FOV (a sixth of pi) of 0,
      as the real cosine is, meets CosNonNegativeOnFan, because every
      ray's offset lies in that range. */
  lemma CosNonNegativeNearFacing(cos: real -> real)
    requires forall a :: -HALF_FOV < a <= HALF_FOV ==> 0.0 <= cos(a)
    ensures CosNonNegativeOnFan(cos)
  {
    forall i | 0 <= i < RAYS_NUM
      ensures 0.0 <= cos(Offset(i))
    {
      OffsetWithinHalfFov(i);
    }
  }

  /** Slice i is the one ray i calls for, for every ray cast so far. */
  ghost predicate SlicesMatch(rays: seq<RayOutcome>, slices: seq<Option<Slice>>, cos: real -> real)
    requires CosNonNegativeOnFan(cos)
  {
    |slices| == |rays| <= RAYS_NUM &&
    forall i :: 0 <= i < |rays| ==> slices[i] == SliceOf(i, rays[i], cos(Offset(i)))
  }

  /** Appending the next ray and its slice keeps the two lists matched. */
  lemma SlicesExtend(rays: seq<RayOutcome>, slices: seq<Option<Slice>>, cos: real -> real,
                     r: RayOutcome, s: Option<Slice>)
    requires CosNonNegativeOnFan(cos) && SlicesMatch(rays, slices, cos) && |rays| < RAYS_NUM
    requires s == SliceOf(|rays|, r, cos(Offset(|rays|)))
    ensures SlicesMatch(rays + [r], slices + [s], cos)
  {
  }

  /** `cast_rays` of the 3D script: the fan loop around CastRay; for a hit
      it computes the shade from the raw depth, corrects the depth by the
      cosine of `player_angle - start_angle`, clamps the wall height to
      WIDTH and yields the slice rectangle. */
  method CastRays(mMap: Map, playerX: real, playerY: real, playerAngle: real,
                  sin: real -> real, cos: real -> real)
    returns (rays: seq<RayOutcome>, slices: seq<Option<Slice>>)
    requires CosNonNegativeOnFan(cos)
    ensures rays == Fan(mMap, playerX, playerY, playerAngle, RAYS_NUM, STEP_ANGLE, sin, cos)
    ensures |slices| == |rays| <= RAYS_NUM
    ensures forall i :: 0 <= i < |rays| ==> slices[i] == SliceOf(i, rays[i], cos(Offset(i)))
  {
    ghost var all := AllRays(mMap, playerX, playerY, playerAngle, RAYS_NUM, STEP_ANGLE, sin, cos);
    var startAngle := playerAngle - HALF_FOV;
    rays, slices := [], [];
    for ray := 0 to RAYS_NUM
      invariant startAngle == RayAngle(playerAngle, STEP_ANGLE, ray)
      invariant CastSoFar(all, rays, ray)
      invariant SlicesMatch(rays, slices, cos)
    {
      var r := CastRay(mMap, Ray(playerX, playerY, sin(startAngle), cos(startAngle)));
      AllRaysAt(mMap, playerX, playerY, playerAngle, RAYS_NUM, STEP_ANGLE, sin, cos, ray, startAngle);
      OffsetOfStart(playerAngle, startAngle, ray);
      var slice := SliceFor(ray, r, cos(playerAngle - startAngle));
      CastNext(all, rays, ray);
      SlicesExtend(rays, slices, cos, r, slice);
      rays, slices := rays + [r], slices + [slice];
      if r.Crashed? {
        return;
      }
      RayAngleNext(playerAngle, STEP_ANGLE, ray);
      startAngle := startAngle + STEP_ANGLE;
    }
    CastAll(all, rays);
  }

  /** The angle between ray j and the facing direction, as the loop
      computes it from its running start angle. */
  lemma OffsetOfStart(playerAngle: real, startAngle: real, j: int)
    requires startAngle == RayAngle(playerAngle, STEP_ANGLE, j)
    ensures playerAngle - startAngle == Offset(j)
  {
  }

  /** The body of `cast_rays` after the depth loop: a slice for a hit and
      nothing otherwise. It computes in statements what SliceOf defines as
      a value, as the script does. */
  method SliceFor(ray: nat, r: RayOutcome, cosOffset: real) returns (slice: Option<Slice>)
    requires 0.0 <= cosOffset
    ensures slice == SliceOf(ray, r, cosOffset)
  {
    slice := None;
    if r.Hit? {
      var projected := ProjectHit(ray, r.depth, cosOffset);
      slice := Some(projected);
    }
  }

  /** The hit branch of `cast_rays`: the shade from the raw depth, the
      fish-eye correction, the clamped wall height and the rectangle of the
      slice. The statements mirror the script line by line, and the
      contract ties them to the Project formula. */
  method ProjectHit(ray: nat, depth: nat, cosOffset: real) returns (slice: Slice)
    requires 0.0 <= cosOffset
    ensures slice == Project(ray, depth, cosOffset)
  {
    var c := Trunc(255.0 / (1.0 + (depth * depth) as real * 0.0001));
    var correctedDepth := depth as real * cosOffset;
    var wallHeight := HEIGHT_SCALE / (correctedDepth + EPSILON);
    if wallHeight > WIDTH as real {
      wallHeight := WIDTH as real;
    }
    slice := Slice(HALF_WIDTH + Trunc((ray * SCALE) as real), HALF_HEIGHT - Trunc(wallHeight / 2.0),
                   SCALE, Trunc(wallHeight), c);
  }

  /** What `isCollidingWalls()` returns: True, False, or None (falsy) when
      the player's cell fails the upper-bound test and nothing is returned. */
  datatype PyBool = PyTrue | PyFalse | PyNone

  /** `isCollidingWalls` at the player position (x, y). */
  function IsCollidingWalls(mMap: Map, x: real, y: real): (r: Outcome<PyBool>)
    ensures r == Ok(PyTrue) <==>
              BoundsTest(CellOf(x, y).0, CellOf(x, y).1) && CellAt(mMap, CellOf(x, y).0, CellOf(x, y).1) == Ok(WALL)
    ensures r == Ok(PyNone) <==> !BoundsTest(CellOf(x, y).0, CellOf(x, y).1)
    ensures r == IndexError <==>
              BoundsTest(CellOf(x, y).0, CellOf(x, y).1) && CellAt(mMap, CellOf(x, y).0, CellOf(x, y).1) == IndexError
  {
    match LookAt(mMap, x, y)
    case Unchecked => Ok(PyNone)
    case Raised => IndexError
    case Piece(_, _, piece) => Ok(if piece == WALL then PyTrue else PyFalse)
  }

  /** The collision block at the top of the main loop: when the player's
      cell is a wall, undo a step in the direction the `player_walkForward`
      flag remembers, at the current angle. */
  function AfterCollision(mMap: Map, x: real, y: real, angle: real, walkForward: bool,
                          sin: real -> real, cos: real -> real): Outcome<(real, real)> {
    match IsCollidingWalls(mMap, x, y)
    case IndexError => IndexError
    case Ok(hit) =>
      if hit == PyTrue then Ok(Step(x, y, sin(angle), cos(angle), !walkForward)) else Ok((x, y))
  }

  /** When the last move stepped the player into a wall and the angle has
      not changed since, the reversal puts the player back exactly where the
      move started. */
  lemma CollisionUndoesLastStep(mMap: Map, x0: real, y0: real, angle: real, forward: bool,
                                sin: real -> real, cos: real -> real)
    requires var p := Step(x0, y0, sin(angle), cos(angle), forward);
             IsCollidingWalls(mMap, p.0, p.1) == Ok(PyTrue)
    ensures var p := Step(x0, y0, sin(angle), cos(angle), forward);
            AfterCollision(mMap, p.0, p.1, angle, forward, sin, cos) == Ok((x0, y0))
  {
    StepReversed(x0, y0, sin(angle), cos(angle), forward);
  }

  /** Outside a wall, whether the test said False or None, nothing moves. */
  lemma NoCollisionNoChange(mMap: Map, x: real, y: real, angle: real, walkForward: bool,
                            sin: real -> real, cos: real -> real)
    requires IsCollidingWalls(mMap, x, y) != Ok(PyTrue) && IsCollidingWalls(mMap, x, y).Ok?
    ensures AfterCollision(mMap, x, y, angle, walkForward, sin, cos) == Ok((x, y))
  {
  }

  /** The flag `player_walkForward` after the W/S block. */
  function WalkForwardAfter(walkForward: bool, keys: Keys): (f: bool)
    ensures keys.w || keys.s ==> f == keys.w
    ensures !keys.w && !keys.s ==> f == walkForward
  {
    if keys.w then true else if keys.s then false else walkForward
  }

  /** Across one pass of the main loop: the keys turn the player and then
      move it, and the collision block at the top of the next pass sees the
      same angle, so if the move ended inside a wall it puts the player back
      exactly where the move started. */
  lemma NextCollisionUndoesMove(mMap: Map, x: real, y: real, angle: real, walkForward: bool,
                                keys: Keys, sin: real -> real, cos: real -> real)
    requires keys.w || keys.s
    requires var a := Turn(angle, keys);
             var p := Move(x, y, sin(a), cos(a), keys);
             IsCollidingWalls(mMap, p.0, p.1) == Ok(PyTrue)
    ensures var a := Turn(angle, keys);
            var p := Move(x, y, sin(a), cos(a), keys);
            AfterCollision(mMap, p.0, p.1, a, WalkForwardAfter(walkForward, keys), sin, cos) == Ok((x, y))
  {
    var a := Turn(angle, keys);
    CollisionUndoesLastStep(mMap, x, y, a, keys.w, sin, cos);
  }

  /** Reversal is not idempotent: while the player stays inside a wall,
      each pass of the main loop steps back once more. Facing +y with
      `player_walkForward` set, a player in the wall cell (0, 0) of the 3D
      map moves back 2 units, and again on the next pass. */
  lemma CollisionRepeats(sin: real -> real, cos: real -> real)
    requires sin(0.0) == 0.0 && cos(0.0) == 1.0
    ensures AfterCollision(MAP_3D, 30.0, 30.0, 0.0, true, sin, cos) == Ok((30.0, 28.0))
    ensures AfterCollision(MAP_3D, 30.0, 28.0, 0.0, true, sin, cos) == Ok((30.0, 26.0))
  {
    assert CellOf(30.0, 30.0) == (0, 0);
    assert CellOf(30.0, 28.0) == (0, 0);
  }

  /** The module-level state of the 3D script. */
  class Game {
    var mMap: Map
    var playerX: real
    var playerY: real
    var playerAngle: real
    var walkForward: bool

    /** The script's start: the map literal has passed the size check, and
        the player stands at (WIDTH // 4, HEIGHT // 2) facing `math.pi`
        with `player_walkForward` set. */
    constructor (layout: Map)
      requires CheckMapSize(layout) == Ok(true)
      ensures mMap == layout && walkForward
      ensures playerX == (WIDTH / 4) as real && playerY == (HEIGHT / 2) as real && playerAngle == PI
    {
      mMap := layout;
      playerX := (WIDTH / 4) as real;
      playerY := (HEIGHT / 2) as real;
      playerAngle := PI;
      walkForward := true;
    }

    /** Lines 168-174 of the main loop. `alive` is false when the lookup
        raised IndexError, which ends the program with the state as it was.
        The updates repeat the script's in-place `-=` and `+=`; the contract
        ties them to AfterCollision and so to Movement.Step. */
    method ResolveCollision(sin: real -> real, cos: real -> real) returns (alive: bool)
      modifies this`playerX, this`playerY
      ensures var after := AfterCollision(mMap, old(playerX), old(playerY), playerAngle, walkForward, sin, cos);
              alive == after.Ok? &&
              (playerX, playerY) == (if alive then after.value else (old(playerX), old(playerY)))
      ensures mMap == old(mMap)
    {
      var colliding := IsCollidingWalls(mMap, playerX, playerY);
      if colliding.IndexError? {
        return false;
      }
      if colliding.value == PyTrue {
        if walkForward {
          playerX := playerX - -sin(playerAngle) * PLAYER_MOVE_SPEED;
          playerY := playerY - cos(playerAngle) * PLAYER_MOVE_SPEED;
        } else {
          playerX := playerX + -sin(playerAngle) * PLAYER_MOVE_SPEED;
          playerY := playerY + cos(playerAngle) * PLAYER_MOVE_SPEED;
        }
      }
      return true;
    }

    /** Lines 193-206 of the main loop: turn first, then step along the new
        facing direction, remembering in `walkForward` which way the last
        step went. The updates repeat the script's in-place ones; the
        contract ties them to Turn, Move and WalkForwardAfter. */
    method ApplyKeys(keys: Keys, sin: real -> real, cos: real -> real)
      modifies this`playerX, this`playerY, this`playerAngle, this`walkForward
      ensures playerAngle == Turn(old(playerAngle), keys)
      ensures (playerX, playerY) == Move(old(playerX), old(playerY), sin(playerAngle), cos(playerAngle), keys)
      ensures walkForward == WalkForwardAfter(old(walkForward), keys)
      ensures mMap == old(mMap)
    {
      if keys.left {
        playerAngle := playerAngle - LOOK_SENSITIVITY;
      } else if keys.right {
        playerAngle := playerAngle + LOOK_SENSITIVITY;
      }
      assert playerAngle == Turn(old(playerAngle), keys);
      if keys.w {
        playerX := playerX + -sin(playerAngle) * PLAYER_MOVE_SPEED;
        playerY := playerY + cos(playerAngle) * PLAYER_MOVE_SPEED;
        walkForward := true;
      } else if keys.s {
        playerX := playerX - -sin(playerAngle) * PLAYER_MOVE_SPEED;
        playerY := playerY - cos(playerAngle) * PLAYER_MOVE_SPEED;
        walkForward := false;
      }
    }

    /** One pass of the main loop, without its drawing and event handling:
        collision, then the map reads of `drawMap`, then ray casting from
        the corrected position, then the keys. An IndexError in any of the
        first three ends the program. */
    method Tick(keys: Keys, sin: real -> real, cos: real -> real)
      returns (alive: bool, rays: seq<RayOutcome>, slices: seq<Option<Slice>>)
      requires CosNonNegativeOnFan(cos)
      modifies this`playerX, this`playerY, this`playerAngle, this`walkForward
      ensures var after := AfterCollision(mMap, old(playerX), old(playerY), old(playerAngle), old(walkForward), sin, cos);
              after.IndexError? ==>
                !alive && rays == [] && slices == [] &&
                playerX == old(playerX) && playerY == old(playerY)
      ensures var after := AfterCollision(mMap, old(playerX), old(playerY), old(playerAngle), old(walkForward), sin, cos);
              after.Ok? && DrawMapRaises(mMap) ==>
                !alive && rays == [] && slices == [] && (playerX, playerY) == after.value
      ensures var after := AfterCollision(mMap, old(playerX), old(playerY), old(playerAngle), old(walkForward), sin, cos);
              after.Ok? && !DrawMapRaises(mMap) ==>
                rays == Fan(mMap, after.value.0, after.value.1, old(playerAngle), RAYS_NUM, STEP_ANGLE, sin, cos) &&
                alive == !EndsInCrash(rays) &&
                (!alive ==> (playerX, playerY) == after.value)
      ensures var after := AfterCollision(mMap, old(playerX), old(playerY), old(playerAngle), old(walkForward), sin, cos);
              alive ==>
                playerAngle == Turn(old(playerAngle), keys) &&
                (playerX, playerY) == Move(after.value.0, after.value.1, sin(playerAngle), cos(playerAngle), keys) &&
                walkForward == WalkForwardAfter(old(walkForward), keys)
      ensures !alive ==> playerAngle == old(playerAngle) && walkForward == old(walkForward)
      ensures |slices| == |rays| <= RAYS_NUM
      ensures forall i :: 0 <= i < |rays| ==> slices[i] == SliceOf(i, rays[i], cos(Offset(i)))
      ensures mMap == old(mMap)
    {
      alive := ResolveCollision(sin, cos);
      if !alive {
        rays, slices := [], [];
        return;
      }
      alive := DrawMap(mMap);
      if !alive {
        rays, slices := [], [];
        return;
      }
      rays, slices := CastRays(mMap, playerX, playerY, playerAngle, sin, cos);
      if EndsInCrash(rays) {
        alive := false;
        return;
      }
      ApplyKeys(keys, sin, cos);
    }
  }
}
