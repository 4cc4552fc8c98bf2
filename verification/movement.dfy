/** The player rules of both main loops: turning with the arrow keys and
    stepping along the facing vector with W and S. */
module Movement {

  const LOOK_SENSITIVITY: real := 0.1
  const PLAYER_MOVE_SPEED: real := 2.0

  /** The keys held during one tick (from `pygame.key.get_pressed()`). */
  datatype Keys = Keys(left: bool, right: bool, w: bool, s: bool)

  /** The facing angle after the LEFT/RIGHT block. LEFT is tested first, so
      it wins when both are held. */
  function Turn(angle: real, keys: Keys): (a: real)
    ensures a < angle <==> keys.left
    ensures a > angle <==> !keys.left && keys.right
    ensures a == angle || a == angle - LOOK_SENSITIVITY || a == angle + LOOK_SENSITIVITY
  {
    if keys.left then angle - LOOK_SENSITIVITY
    else if keys.right then angle + LOOK_SENSITIVITY
    else angle
  }

  const LEFT_ONLY: Keys := Keys(true, false, false, false)
  const RIGHT_ONLY: Keys := Keys(false, true, false, false)

  /** A tick of RIGHT undoes a tick of LEFT, and the other way round. */
  lemma TurnsCancel(angle: real)
    ensures Turn(Turn(angle, LEFT_ONLY), RIGHT_ONLY) == angle
    ensures Turn(Turn(angle, RIGHT_ONLY), LEFT_ONLY) == angle
  {
  }

  /** One step along the facing vector (-sin a, cos a): `+=` of
      `(-sin(a) * PLAYER_MOVE_SPEED, cos(a) * PLAYER_MOVE_SPEED)` forward,
      `-=` of the same terms backward. */
  function Step(x: real, y: real, sinA: real, cosA: real, forward: bool): (real, real) {
    if forward then (x + -sinA * PLAYER_MOVE_SPEED, y + cosA * PLAYER_MOVE_SPEED)
    else (x - -sinA * PLAYER_MOVE_SPEED, y - cosA * PLAYER_MOVE_SPEED)
  }

  /** With a genuine sine and cosine (sin² + cos² = 1) a step covers
      exactly PLAYER_MOVE_SPEED units, in either direction. */
  lemma StepLength(x: real, y: real, sinA: real, cosA: real, forward: bool)
    requires sinA * sinA + cosA * cosA == 1.0
    ensures var p := Step(x, y, sinA, cosA, forward);
            (p.0 - x) * (p.0 - x) + (p.1 - y) * (p.1 - y) == PLAYER_MOVE_SPEED * PLAYER_MOVE_SPEED
  {
    var dx, dy := -sinA * PLAYER_MOVE_SPEED, cosA * PLAYER_MOVE_SPEED;
    assert dx * dx + dy * dy == (sinA * sinA + cosA * cosA) * (PLAYER_MOVE_SPEED * PLAYER_MOVE_SPEED);
  }

  /** Over the reals a step in the other direction at the same angle undoes
      a step exactly. */
  lemma StepReversed(x: real, y: real, sinA: real, cosA: real, forward: bool)
    ensures var p := Step(x, y, sinA, cosA, forward);
            Step(p.0, p.1, sinA, cosA, !forward) == (x, y)
  {
  }

  /** The position after the W/S block: W is tested first, so it wins when
      both are held; with neither the position stays. */
  function Move(x: real, y: real, sinA: real, cosA: real, keys: Keys): (p: (real, real))
    ensures !keys.w && !keys.s ==> p == (x, y)
    ensures keys.w ==> p == Step(x, y, sinA, cosA, true)
  {
    if keys.w then Step(x, y, sinA, cosA, true)
    else if keys.s then Step(x, y, sinA, cosA, false)
    else (x, y)
  }

  /** S without W steps backward: a forward step at the same angle returns
      to the starting point, and the player moves unless the facing vector
      is zero. */
  lemma BackIsReverseStep(x: real, y: real, sinA: real, cosA: real, keys: Keys)
    requires !keys.w && keys.s
    ensures var p := Move(x, y, sinA, cosA, keys); Step(p.0, p.1, sinA, cosA, true) == (x, y)
    ensures Move(x, y, sinA, cosA, keys) != (x, y) <==> sinA != 0.0 || cosA != 0.0
  {
  }

  /** An S tick undoes a W tick taken at the same angle. */
  lemma BackUndoesForward(x: real, y: real, sinA: real, cosA: real)
    ensures var p := Move(x, y, sinA, cosA, Keys(false, false, true, false));
            Move(p.0, p.1, sinA, cosA, Keys(false, false, false, true)) == (x, y)
  {
  }
}
