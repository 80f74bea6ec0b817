/** Gesture decisions of the pager: which drags it claims from the host's
    responder system, and which page step a released drag becomes. Touch
    displacements, velocities and widths are exact reals. */
module Gesture {

  /** Release velocity (points per millisecond) from which a short drag
      counts as a flick: 1e-6. */
  const FlickVelocity: real := 0.000001

  function Abs(x: real): real { if x < 0.0 then -x else x }

  /** The page step for a drag of `dx` released at horizontal velocity
      `vx`, the distance taken relative to the device width: +1 (next
      page) for a drag to the left past half the width or a leftward
      flick, -1 (previous page) for the mirror image, 0 (snap back)
      otherwise. */
  function ReleaseStep(dx: real, deviceWidth: real, vx: real): (step: int)
    requires deviceWidth > 0.0
    ensures -1 <= step <= 1
  {
    var relative := dx / deviceWidth;
    if relative < -0.5 || (relative < 0.0 && vx <= -FlickVelocity) then 1
    else if relative > 0.5 || (relative > 0.0 && vx >= FlickVelocity) then -1
    else 0
  }

  /** The capture rule: a drag is claimed only when it is more horizontal
      than vertical, the pager is not locked and no transition is running. */
  predicate ClaimsDrag(dx: real, dy: real, locked: bool, fling: bool): (claimed: bool)
    ensures claimed ==> dx != 0.0 && !locked && !fling
    ensures locked || fling ==> !claimed
  {
    Abs(dx) > Abs(dy) && !locked && !fling
  }

  /** Dividing by a positive width keeps the sign of the drag and compares
      with half a width exactly when the drag compares with half the width. */
  lemma RelativeDistance(dx: real, w: real)
    requires w > 0.0
    ensures dx / w < 0.0 <==> dx < 0.0
    ensures dx / w > 0.0 <==> dx > 0.0
    ensures dx / w < -0.5 <==> dx < -w / 2.0
    ensures dx / w > 0.5 <==> dx > w / 2.0
  {
    CompareScaled(dx, w, -0.5);
    CompareScaled(dx, w, 0.5);
    CompareScaled(dx, w, 0.0);
  }

  lemma CompareScaled(dx: real, w: real, c: real)
    requires w > 0.0
    ensures dx / w < c <==> dx < c * w
    ensures dx / w > c <==> dx > c * w
  {
    var r := dx / w;
    assert r * w == dx;
    assert r * w - c * w == (r - c) * w;
  }

  /** The release rule in the device's own units: a drag beyond half the
      width decides the direction whatever the velocity; within half the
      width a page step needs a flick of at least 1e-6 in the direction
      of the drag; +1 needs a leftward drag, -1 a rightward one, and no
      drag at all never changes page. */
  lemma ReleaseStepCharacterised(dx: real, w: real, vx: real)
    requires w > 0.0
    ensures var step := ReleaseStep(dx, w, vx);
      && (step == 1 ==> dx < 0.0)
      && (step == -1 ==> dx > 0.0)
      && (dx == 0.0 ==> step == 0)
      && (dx < -w / 2.0 ==> step == 1)
      && (dx > w / 2.0 ==> step == -1)
      && (-w / 2.0 <= dx <= w / 2.0 ==>
            && (step == 1 <==> dx < 0.0 && vx <= -FlickVelocity)
            && (step == -1 <==> dx > 0.0 && vx >= FlickVelocity))
  {
    RelativeDistance(dx, w);
  }

  /** The worked examples of the release rule, at any device width: 60% of
      the width to the left with no velocity turns the page forward; 10%
      to the right with velocity 2e-6 turns it back; 10% to the right with
      no velocity snaps back. */
  lemma ReleaseExamples(w: real)
    requires w > 0.0
    ensures ReleaseStep(-0.6 * w, w, 0.0) == 1
    ensures ReleaseStep(0.1 * w, w, 0.000002) == -1
    ensures ReleaseStep(0.1 * w, w, 0.0) == 0
  {
    ReleaseStepCharacterised(-0.6 * w, w, 0.0);
    ReleaseStepCharacterised(0.1 * w, w, 0.000002);
    ReleaseStepCharacterised(0.1 * w, w, 0.0);
  }
}
