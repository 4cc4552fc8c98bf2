/** The 2D raycaster: a top-down view of the map with a fan of RAYS_NUM
    rays, each drawn up to the first wall it meets. The player moves freely:
    this variant has no collision test. */
module Raycast2D {
  import opened Python
  import opened Grid
  import opened Stepper
  import opened Movement

  const RAYS_NUM: int := 10
  const STEP_ANGLE: real := FOV / RAYS_NUM as real

  /** `cast_rays`: the fan loop, starting at `player_angle - HALF_FOV` and
      adding STEP_ANGLE after each ray, around the depth loop of CastRay.
      The result lists the outcome of every ray cast; an IndexError ends the
      call at the ray that raised it. */
  method CastRays(mMap: Map, playerX: real, playerY: real, playerAngle: real,
                  sin: real -> real, cos: real -> real) returns (rays: seq<RayOutcome>)
    ensures rays == Fan(mMap, playerX, playerY, playerAngle, RAYS_NUM, STEP_ANGLE, sin, cos)
  {
    ghost var all := AllRays(mMap, playerX, playerY, playerAngle, RAYS_NUM, STEP_ANGLE, sin, cos);
    var startAngle := playerAngle - HALF_FOV;
    rays := [];
    for ray := 0 to RAYS_NUM
      invariant startAngle == RayAngle(playerAngle, STEP_ANGLE, ray)
      invariant CastSoFar(all, rays, ray)
    {
      var r := CastRay(mMap, Ray(playerX, playerY, sin(startAngle), cos(startAngle)));
      AllRaysAt(mMap, playerX, playerY, playerAngle, RAYS_NUM, STEP_ANGLE, sin, cos, ray, startAngle);
      CastNext(all, rays, ray);
      rays := rays + [r];
      if r.Crashed? {
        return;
      }
      RayAngleNext(playerAngle, STEP_ANGLE, ray);
      startAngle := startAngle + STEP_ANGLE;
    }
    CastAll(all, rays);
  }

  /** The module-level state of the 2D script. */
  class Game {
    var mMap: Map
    var playerX: real
    var playerY: real
    var playerAngle: real

    /** The script's start: the map literal has passed the size check, and
        the player stands at (WIDTH // 4, HEIGHT // 2) facing `math.pi`. */
    constructor (layout: Map)
      requires CheckMapSize(layout) == Ok(true)
      ensures mMap == layout
      ensures playerX == (WIDTH / 4) as real && playerY == (HEIGHT / 2) as real && playerAngle == PI
    {
      mMap := layout;
      playerX := (WIDTH / 4) as real;
      playerY := (HEIGHT / 2) as real;
      playerAngle := PI;
    }

    /** The movement block of the main loop: turn first, then step along
        the new facing direction. The map is not touched. The updates repeat
        the script's in-place ones; the contract ties them to Turn and Move. */
    method ApplyKeys(keys: Keys, sin: real -> real, cos: real -> real)
      modifies this`playerX, this`playerY, this`playerAngle
      ensures playerAngle == Turn(old(playerAngle), keys)
      ensures (playerX, playerY) == Move(old(playerX), old(playerY), sin(playerAngle), cos(playerAngle), keys)
      ensures mMap == old(mMap)
    {
      if keys.left {
        playerAngle := playerAngle - LOOK_SENSITIVITY;
      } else if keys.right {
        playerAngle := playerAngle + LOOK_SENSITIVITY;
      }
      assert playerAngle == Turn(old(playerAngle), keys);
      if keys.w {
        playerX := playerX + -sin(playerAngle) * PLAYER_MOVE_SPEED;
        playerY := playerY + cos(playerAngle) * PLAYER_MOVE_SPEED;
      } else if keys.s {
        playerX := playerX - -sin(playerAngle) * PLAYER_MOVE_SPEED;
        playerY := playerY - cos(playerAngle) * PLAYER_MOVE_SPEED;
      }
    }

    /** One pass of the main loop, without its drawing and event handling:
        the map reads of `drawMap`, then the rays cast from the current
        position, then the keys. An IndexError raised while reading the map
        or casting ends the program before the keys are read. */
    method Tick(keys: Keys, sin: real -> real, cos: real -> real) returns (alive: bool, rays: seq<RayOutcome>)
      modifies this`playerX, this`playerY, this`playerAngle
      ensures DrawMapRaises(mMap) ==> !alive && rays == []
      ensures !DrawMapRaises(mMap) ==>
                rays == Fan(mMap, old(playerX), old(playerY), old(playerAngle), RAYS_NUM, STEP_ANGLE, sin, cos) &&
                alive == !EndsInCrash(rays)
      ensures !alive ==>
                playerX == old(playerX) && playerY == old(playerY) && playerAngle == old(playerAngle)
      ensures alive ==>
                playerAngle == Turn(old(playerAngle), keys) &&
                (playerX, playerY) == Move(old(playerX), old(playerY), sin(playerAngle), cos(playerAngle), keys)
      ensures mMap == old(mMap)
    {
      alive := DrawMap(mMap);
      if !alive {
        rays := [];
        return;
      }
      rays := CastRays(mMap, playerX, playerY, playerAngle, sin, cos);
      if EndsInCrash(rays) {
        alive := false;
        return;
      }
      ApplyKeys(keys, sin, cos);
    }
  }
}
