/** The first-person projection of the 3D raycaster: each ray that hits a
    wall becomes a vertical slice on the right half of the window, shaded by
    its raw depth and sized by its fish-eye-corrected depth. */
module Projection {
  import opened Python
  import opened Grid

  const RAYS_NUM: int := 30
  const STEP_ANGLE: real := FOV / RAYS_NUM as real
  /** `int(WIDTH / 2 / RAYS_NUM)`: the width of one slice, 16 pixels. */
  const SCALE: int := WIDTH / 2 / RAYS_NUM
  /** `int(WIDTH / 2)` and `int(HEIGHT / 2)`. */
  const HALF_WIDTH: int := WIDTH / 2
  const HALF_HEIGHT: int := HEIGHT / 2

  /** The wall-scale constant of the height formula and the term added to
      the depth so that it is never divided by zero. */
  const HEIGHT_SCALE: real := 21000.0
  const EPSILON: real := 0.0001

  /** Dividing a non-negative number by a larger positive number gives a
      smaller quotient. */
  lemma DivAntitone(a: real, b1: real, b2: real)
    requires 0.0 <= a && 0.0 < b1 <= b2
    ensures 0.0 <= a / b2 <= a / b1
  {
    var q1, q2 := a / b1, a / b2;
    assert q1 * b1 == a && q2 * b2 == a;
    assert 0.0 <= q2;
    assert q2 * b1 <= q2 * b2;
    if q2 > q1 {
      assert q2 * b1 > q1 * b1;
    }
  }

  /** Strictly, for a positive numerator and a strictly larger divisor. */
  lemma DivStrictlyAntitone(a: real, b1: real, b2: real)
    requires 0.0 < a && 0.0 < b1 < b2
    ensures a / b2 < a / b1
  {
    var q1, q2 := a / b1, a / b2;
    assert q1 * b1 == a && q2 * b2 == a;
    assert 0.0 < q2;
    assert q2 * b1 < q2 * b2;
    assert q2 * b1 < q1 * b1;
  }

  /** The grey level `int(255 / (1 + depth * depth * 0.0001))` of a slice,
      from the raw depth at which its ray hit. */
  function Shade(depth: nat): (c: int)
    ensures 0 <= c <= 255
    ensures depth == 0 ==> c == 255
  {
    var denominator := 1.0 + (depth * depth) as real * 0.0001;
    DivAntitone(255.0, 1.0, denominator);
    Trunc(255.0 / denominator)
  }

  /** Farther walls are never lighter. */
  lemma ShadeNonIncreasing(d1: nat, d2: nat)
    requires d1 <= d2
    ensures Shade(d2) <= Shade(d1)
  {
    SquareMonotone(d1, d2);
    var b1 := 1.0 + (d1 * d1) as real * 0.0001;
    var b2 := 1.0 + (d2 * d2) as real * 0.0001;
    DivAntitone(255.0, b1, b2);
    TruncMonotone(255.0 / b2, 255.0 / b1);
  }

  lemma SquareMonotone(d1: nat, d2: nat)
    requires d1 <= d2
    ensures (d1 * d1) as real <= (d2 * d2) as real
  {
    assert d1 * d1 <= d1 * d2;
    assert d1 * d2 <= d2 * d2;
  }

  /** The angle between ray i and the facing direction,
      `player_angle - start_angle`. */
  function Offset(i: int): real {
    HALF_FOV - i as real * STEP_ANGLE
  }

  /** Every ray of the fan is at most HALF_FOV (a sixth of pi) away from
      the facing direction, so a genuine cosine of its offset is positive. */
  lemma OffsetWithinHalfFov(i: int)
    requires 0 <= i < RAYS_NUM
    ensures -HALF_FOV < Offset(i) <= HALF_FOV
  {
    assert STEP_ANGLE * RAYS_NUM as real == FOV;
    assert 0.0 <= i as real * STEP_ANGLE <= (RAYS_NUM - 1) as real * STEP_ANGLE;
  }

  /** `depth *= math.cos(player_angle - start_angle)`: the fish-eye
      correction, given the cosine of the ray's offset. */
  function CorrectedDepth(depth: nat, cosOffset: real): (c: real)
    requires 0.0 <= cosOffset
    ensures 0.0 <= c
    ensures cosOffset <= 1.0 ==> c <= depth as real
  {
    depth as real * cosOffset
  }

  /** `21000 / (depth + 0.0001)`, then `if wall_height > WIDTH:
      wall_height = WIDTH`. */
  function WallHeight(corrected: real): (h: real)
    requires 0.0 <= corrected
    ensures 0.0 < h <= WIDTH as real
  {
    var raw := HEIGHT_SCALE / (corrected + EPSILON);
    if raw > WIDTH as real then WIDTH as real else raw
  }

  /** Farther walls are never taller. */
  lemma HeightNonIncreasing(c1: real, c2: real)
    requires 0.0 <= c1 <= c2
    ensures WallHeight(c2) <= WallHeight(c1)
  {
    DivAntitone(HEIGHT_SCALE, c1 + EPSILON, c2 + EPSILON);
  }

  /** Below the clamp, a farther wall is strictly shorter. */
  lemma HeightDecreasingBelowClamp(c1: real, c2: real)
    requires 0.0 <= c1 < c2
    requires WallHeight(c1) < WIDTH as real
    ensures WallHeight(c2) < WallHeight(c1)
  {
    DivStrictlyAntitone(HEIGHT_SCALE, c1 + EPSILON, c2 + EPSILON);
  }

  /** Walls nearer than 21000 / WIDTH - 0.0001 (about 21.9 units) are all
      drawn at the full clamp height. */
  lemma NearWallsClamped(c: real)
    requires 0.0 <= c && (c + EPSILON) * WIDTH as real <= HEIGHT_SCALE
    ensures WallHeight(c) == WIDTH as real
  {
    var b := c + EPSILON;
    var q := HEIGHT_SCALE / b;
    assert q * b == HEIGHT_SCALE;
    if q < WIDTH as real {
      assert q * b < WIDTH as real * b;
    }
  }

  /** The rectangle drawn for one ray: `(half_width + int(ray * SCALE),
      half_height - int(wall_height / 2), SCALE, int(wall_height))` in grey
      level `shade`. */
  datatype Slice = Slice(x: int, top: int, width: int, height: int, shade: int)

  /** The slice of ray `ray` that hit at raw depth `depth`, given the cosine
      of its offset from the facing direction. */
  function Project(ray: nat, depth: nat, cosOffset: real): (s: Slice)
    requires 0.0 <= cosOffset
    ensures ray < RAYS_NUM ==> HALF_WIDTH <= s.x && s.x + s.width <= WIDTH
    ensures s.width == SCALE && s.x == HALF_WIDTH + ray * SCALE
    ensures 0 <= s.height <= WIDTH
    ensures HALF_HEIGHT - WIDTH / 2 <= s.top <= HALF_HEIGHT
    ensures 0 <= s.shade <= 255
  {
    var h := WallHeight(CorrectedDepth(depth, cosOffset));
    Slice(HALF_WIDTH + Trunc((ray * SCALE) as real), HALF_HEIGHT - Trunc(h / 2.0), SCALE, Trunc(h), Shade(depth))
  }

  /** The slices of the fan tile the right half of the window without gaps
      or overlaps: ray 0 starts at its left edge, each ray starts where the
      previous one ends, and the last one ends exactly at WIDTH. */
  lemma SlicesTileRightHalf(i: nat, depth: nat, cosOffset: real, depth': nat, cosOffset': real)
    requires 0.0 <= cosOffset && 0.0 <= cosOffset'
    ensures Project(0, depth, cosOffset).x == HALF_WIDTH
    ensures Project(i + 1, depth', cosOffset').x == Project(i, depth, cosOffset).x + SCALE
    ensures Project(RAYS_NUM - 1, depth, cosOffset).x + SCALE == WIDTH
  {
  }

  /** The slice of a nearer wall (same ray) is at least as tall and at least
      as light: the two monotonicity facts the renderer relies on. */
  lemma NearerIsTallerAndLighter(ray: nat, d1: nat, d2: nat, cosOffset: real)
    requires 0.0 <= cosOffset && d1 <= d2
    ensures Project(ray, d2, cosOffset).height <= Project(ray, d1, cosOffset).height
    ensures Project(ray, d2, cosOffset).shade <= Project(ray, d1, cosOffset).shade
  {
    assert CorrectedDepth(d1, cosOffset) <= CorrectedDepth(d2, cosOffset) by {
      assert (d2 - d1) as real * cosOffset >= 0.0;
      assert d2 as real * cosOffset - d1 as real * cosOffset == (d2 - d1) as real * cosOffset;
    }
    HeightNonIncreasing(CorrectedDepth(d1, cosOffset), CorrectedDepth(d2, cosOffset));
    TruncMonotone(WallHeight(CorrectedDepth(d2, cosOffset)), WallHeight(CorrectedDepth(d1, cosOffset)));
    ShadeNonIncreasing(d1, d2);
  }
}
