/** The fixed-constant landmark formulas of the camera copies
    (src/qualcomm/app_camera_fixed.py, app_debug.py and app_fixed.py): three
    alignment sub-scores for posture, a 50/30/10 movement band per hand, and
    the eye score `max(0, 100 - 100 * offset)`.  The copies differ only in
    what they add around these formulas (baselines, noise, clamping). */
module Alignment {
  import opened Basics
  import opened Landmarks

  /** `max(0, 100 - measure * factor)`. */
  function AlignmentScore(measure: real, factor: real): (r: real)
    ensures r >= 0.0
    ensures measure >= 0.0 && factor >= 0.0 ==> r <= 100.0
    ensures measure >= 0.0 && factor > 0.0 ==> (r == 100.0 <==> measure == 0.0)
  {
    Max(0.0, 100.0 - measure * factor)
  }

  lemma AlignmentScoreAntitone(m1: real, m2: real, factor: real)
    requires m1 <= m2 && factor >= 0.0
    ensures AlignmentScore(m1, factor) >= AlignmentScore(m2, factor)
  {
    assert m1 * factor <= m2 * factor;
  }

  /** Mean of the shoulder (×200), hip (×200) and spine (×100) sub-scores. */
  function PostureFormula(p: Pose): (r: real)
    ensures 0.0 <= r <= 100.0
    ensures r == 100.0 <==> ShoulderTilt(p) == 0.0 && HipTilt(p) == 0.0 && SpineGap(p) == 0.0
  {
    (AlignmentScore(ShoulderTilt(p), 200.0) + AlignmentScore(HipTilt(p), 200.0)
      + AlignmentScore(SpineGap(p), 100.0)) / 3.0
  }

  /** A pose at least as well aligned on all three measures never scores lower. */
  lemma PostureFormulaMonotone(p1: Pose, p2: Pose)
    requires ShoulderTilt(p1) <= ShoulderTilt(p2) && HipTilt(p1) <= HipTilt(p2) && SpineGap(p1) <= SpineGap(p2)
    ensures PostureFormula(p1) >= PostureFormula(p2)
  {
    AlignmentScoreAntitone(ShoulderTilt(p1), ShoulderTilt(p2), 200.0);
    AlignmentScoreAntitone(HipTilt(p1), HipTilt(p2), 200.0);
    AlignmentScoreAntitone(SpineGap(p1), SpineGap(p2), 100.0);
  }

  /** Exchanging left and right landmarks does not change the posture score. */
  lemma PostureFormulaMirror(p: Pose)
    ensures PostureFormula(Mirror(p)) == PostureFormula(p)
  {
    MirrorKeepsAlignment(p);
  }

  /** Points one hand contributes: 50 above 0.1 of spread, 30 above 0.05, else 10. */
  function HandPoints(h: Hand): (r: real)
    ensures r == 50.0 <==> HandSpread(h) > 0.1
    ensures r == 10.0 <==> HandSpread(h) <= 0.05
    ensures 10.0 <= r <= 50.0
  {
    var movement := HandSpread(h);
    if movement > 0.1 then 50.0 else if movement > 0.05 then 30.0 else 10.0
  }

  /** The per-hand points, in detection order. */
  function HandBands(hands: seq<Hand>): (r: seq<real>)
    ensures |r| == |hands|
    ensures forall i :: 0 <= i < |hands| ==> r[i] == HandPoints(hands[i])
    ensures AllIn(r, 10.0, 50.0)
  {
    seq(|hands|, i requires 0 <= i < |hands| => HandPoints(hands[i]))
  }

  /** `min(100, total / hand_count)` for a non-empty list of hands. */
  function GestureFormula(hands: seq<Hand>): (r: real)
    requires |hands| > 0
    ensures 10.0 <= r <= 50.0
  {
    MeanBounds(HandBands(hands), 10.0, 50.0);
    Min(100.0, Mean(HandBands(hands)))
  }

  /** The gesture score reaches 50 exactly when every hand is spread wider than 0.1. */
  lemma GestureTopIffAllActive(hands: seq<Hand>)
    requires |hands| > 0
    ensures GestureFormula(hands) == 50.0 <==> forall i :: 0 <= i < |hands| ==> HandSpread(hands[i]) > 0.1
  {
    var b := HandBands(hands);
    MeanBounds(b, 10.0, 50.0);
    MeanAtCeiling(b, 10.0, 50.0);
  }

  /** The gesture score is 10 exactly when no hand is spread wider than 0.05. */
  lemma GestureFloorIffAllStill(hands: seq<Hand>)
    requires |hands| > 0
    ensures GestureFormula(hands) == 10.0 <==> forall i :: 0 <= i < |hands| ==> HandSpread(hands[i]) <= 0.05
  {
    var b := HandBands(hands);
    MeanBounds(b, 10.0, 50.0);
    MeanAtFloor(b, 10.0, 50.0);
  }

  /** `max(0, 100 - offset * 100)`; a NaN offset (zero-sized frame) compares false
      against 0 in Python's `max`, so the score is 0. */
  function EyeScoreOfOffset(offset: Option<real>): (r: real)
    ensures 0.0 <= r
    ensures offset.Some? && offset.value >= 0.0 ==> r <= 100.0
    ensures offset.None? ==> r == 0.0
  {
    match offset
    case None => 0.0
    case Some(o) => Max(0.0, 100.0 - o * 100.0)
  }

  /** A non-negative offset scores 100 only at 0, and a larger offset never scores higher. */
  lemma EyeScoreOfOffsetShape(o1: real, o2: real)
    requires 0.0 <= o1 <= o2
    ensures EyeScoreOfOffset(Some(o1)) >= EyeScoreOfOffset(Some(o2))
    ensures EyeScoreOfOffset(Some(o1)) == 100.0 <==> o1 == 0.0
  {
  }

  /** The eye-contact formula applied to the two eye landmarks and the frame size. */
  function EyeFormula(e: Eyes, f: FrameSize, sqrt: real -> real): (r: real)
    requires IsSqrt(sqrt)
    ensures 0.0 <= r <= 100.0
    ensures f.width == 0 && f.height == 0 ==> r == 0.0
  {
    EyeScoreOfOffset(CentreOffset(e, f, sqrt))
  }

  /** Eyes whose midpoint is the frame centre give 100. */
  lemma CentredEyesScoreFull(e: Eyes, f: FrameSize, sqrt: real -> real)
    requires IsSqrt(sqrt)
    requires (e.left.x + e.right.x) / 2.0 == 0.5 && (e.left.y + e.right.y) / 2.0 == 0.5
    requires f.width > 0
    ensures EyeFormula(e, f, sqrt) == 100.0
  {
    CentredEyesHaveZeroOffset(e, f, sqrt);
  }
}
