/** Horizontal player motion, in percent of the playfield width. */
module Movement {
  import opened Reals

  /** Distance covered by one firing of the 60 Hz motion timer. */
  const PlayerSpeed: real := 0.5


  /** The position after one motion step: the left move first, clamped at 0, then the right move, clamped at 100. */
  function Move(p: real, left: bool, right: bool): (q: real)
    ensures 0.0 <= p <= 100.0 ==> 0.0 <= q <= 100.0
  {
    var afterLeft := if left then RMax(0.0, p - PlayerSpeed) else p;
    if right then RMin(100.0, afterLeft + PlayerSpeed) else afterLeft
  }

  /** With no key held the player stays put. */
  lemma MoveIdle(p: real)
    ensures Move(p, false, false) == p
  {
  }

  /** Holding only the left key moves half a percent left, stopping at the edge. */
  lemma MoveLeftOnly(p: real)
    ensures Move(p, true, false) == RMax(0.0, p - PlayerSpeed)
    ensures p >= PlayerSpeed ==> Move(p, true, false) == p - PlayerSpeed
    ensures p <= PlayerSpeed ==> Move(p, true, false) == 0.0
  {
  }

  /** Holding only the right key moves half a percent right, stopping at the edge. */
  lemma MoveRightOnly(p: real)
    ensures Move(p, false, true) == RMin(100.0, p + PlayerSpeed)
    ensures p <= 100.0 - PlayerSpeed ==> Move(p, false, true) == p + PlayerSpeed
    ensures p >= 100.0 - PlayerSpeed ==> Move(p, false, true) == 100.0
  {
  }

  /** Holding both keys cancels out, except within half a percent of the left edge where the clamp leaves the player at 0.5. */
  lemma MoveBoth(p: real)
    ensures PlayerSpeed <= p <= 100.0 ==> Move(p, true, true) == p
    ensures 0.0 <= p < PlayerSpeed ==> Move(p, true, true) == PlayerSpeed
  {
  }

  /** Starting from the playfield, one step never moves the player by more than half a percent. */
  lemma MoveStepBounded(p: real, left: bool, right: bool)
    requires 0.0 <= p <= 100.0
    ensures -PlayerSpeed <= Move(p, left, right) - p <= PlayerSpeed
  {
  }
}
