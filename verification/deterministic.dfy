/** The deterministic camera copies, src/qualcomm/app_camera_fixed.py and
    src/qualcomm/app_debug.py.  Their extractors are identical: a missing
    detection gives the baselines 50 (posture), 30 (gesture) and 40 (eye),
    a detection gives the fixed-constant formulas, the overall score is the
    plain mean, and feedback uses thresholds 50/75, 30/60 and 50/75.  The two
    files differ only in the red eye-contact message.

    As written, the posture and gesture extractors name `mp_pose` and
    `mp_hands`, which exist only as locals of the camera loop; the lookup
    raises `NameError` inside the extractor's `try`, so the handler's baseline
    is returned even when landmarks are present.  Both versions are modelled:
    the `…AsWritten` functions, and the intended ones the frame step uses. */
module Deterministic {
  import opened Basics
  import opened Landmarks
  import opened Scoring
  import opened Alignment

  const PostureBaseline: real := 50.0
  const GestureBaseline: real := 30.0
  const EyeBaseline: real := 40.0

  /** `analyze_posture` with the landmark names resolved. */
  function AnalyzePosture(pose: Option<Pose>): (r: real)
    ensures 0.0 <= r <= 100.0
    ensures pose.None? ==> r == PostureBaseline
  {
    match pose
    case None => PostureBaseline
    case Some(p) => PostureFormula(p)
  }

  /** `analyze_posture` as written: with landmarks present the unresolved
      `mp_pose` raises and the handler returns the baseline. */
  function AnalyzePostureAsWritten(pose: Option<Pose>): (r: real)
    ensures pose.None? ==> r == PostureBaseline
  {
    match pose
    case None => PostureBaseline
    case Some(_) => PostureBaseline
  }

  /** As written, the posture score never depends on the landmarks, and a
      level pose that the formula rates 100 is reported as 50. */
  lemma PostureAsWrittenIgnoresLandmarks(p: Pose)
    ensures AnalyzePostureAsWritten(Some(p)) == AnalyzePostureAsWritten(None)
    ensures (ShoulderTilt(p) == 0.0 && HipTilt(p) == 0.0 && SpineGap(p) == 0.0)
              ==> AnalyzePosture(Some(p)) == 100.0 && AnalyzePostureAsWritten(Some(p)) == 50.0
  {
  }

  /** A concrete level pose on which the written and the intended extractor disagree. */
  lemma PostureAsWrittenCounterexample()
    ensures exists p :: AnalyzePostureAsWritten(Some(p)) != AnalyzePosture(Some(p))
  {
    var s := Point(0.0, 0.4, 0.0);
    var h := Point(0.0, 0.4, 0.0);
    var p := Pose(s, s, h, h);
    assert AnalyzePosture(Some(p)) == 100.0;
  }

  /** `analyze_gestures` with the landmark names resolved. */
  function AnalyzeGestures(hands: seq<Hand>): (r: real)
    ensures 10.0 <= r <= 50.0
    ensures |hands| == 0 ==> r == GestureBaseline
  {
    if |hands| == 0 then GestureBaseline else GestureFormula(hands)
  }

  /** `analyze_gestures` as written: the first hand's `mp_hands` lookup raises,
      so any detection returns the baseline. */
  function AnalyzeGesturesAsWritten(hands: seq<Hand>): (r: real)
    ensures |hands| == 0 ==> r == GestureBaseline
  {
    if |hands| == 0 then GestureBaseline else GestureBaseline
  }

  /** As written, two widely spread hands score 30 where the formula gives 50. */
  lemma GestureAsWrittenIgnoresHands(hands: seq<Hand>)
    requires |hands| > 0
    ensures AnalyzeGesturesAsWritten(hands) == GestureBaseline
    ensures (forall i :: 0 <= i < |hands| ==> HandSpread(hands[i]) > 0.1)
              ==> AnalyzeGestures(hands) == 50.0 && AnalyzeGesturesAsWritten(hands) == 30.0
  {
    GestureTopIffAllActive(hands);
  }

  /** `analyze_eye_contact`; it names no detector constants and runs as written. */
  function AnalyzeEyeContact(eyes: Option<Eyes>, frame: FrameSize, sqrt: real -> real): (r: real)
    requires IsSqrt(sqrt)
    ensures 0.0 <= r <= 100.0
    ensures eyes.None? ==> r == EyeBaseline
  {
    match eyes
    case None => EyeBaseline
    case Some(e) => EyeFormula(e, frame, sqrt)
  }

  /** Feedback of app_camera_fixed.py (its red eye message begins with two replacement characters). */
  const CameraFixedRules := FeedbackRules(
    50.0, 75.0, Messages("🔴 Mantenha a postura ereta - alinhe os ombros",
                         "🟡 Melhore o alinhamento dos ombros",
                         "🟢 Postura excelente!"),
    30.0, 60.0, Messages("🔴 Use mais gestos com as mãos para expressividade",
                         "🟡 Varie seus gestos para maior impacto",
                         "🟢 Gestos muito expressivos!"),
    50.0, 75.0, Messages("\U{FFFD}\U{FFFD} Olhe mais para a câmera - mantenha contato visual",
                         "🟡 Mantenha contato visual consistente",
                         "🟢 Contato visual perfeito!"))

  /** Feedback of app_debug.py (its red eye message has no emoji, only a leading space). */
  const DebugRules := CameraFixedRules.(eyeText := CameraFixedRules.eyeText.(
    red := " Olhe mais para a câmera - mantenha contato visual"))

  /** What one camera-loop iteration publishes. */
  datatype Reading = Reading(scores: Scores, overall: real, feedback: seq<string>)

  /** One iteration of the camera loop: three extractors, the unweighted mean, feedback. */
  function Frame(rules: FeedbackRules, pose: Option<Pose>, hands: seq<Hand>, eyes: Option<Eyes>,
                 frame: FrameSize, sqrt: real -> real): (r: Reading)
    requires IsSqrt(sqrt)
    ensures 0.0 <= r.scores.posture <= 100.0 && 10.0 <= r.scores.gesture <= 50.0
    ensures 0.0 <= r.scores.eye <= 100.0
    ensures Lowest(r.scores) <= r.overall <= Highest(r.scores)
    ensures 0.0 <= r.overall <= 100.0
    ensures |r.feedback| == 3
  {
    var s := Scores(AnalyzePosture(pose), AnalyzeGestures(hands), AnalyzeEyeContact(eyes, frame, sqrt));
    Reading(s, MeanOverall(s), Feedback(rules, s))
  }

  /** With nothing detected every copy reports the baselines, overall 40, and
      the yellow posture, yellow gesture and red eye messages. */
  lemma NothingDetectedGivesBaselines(rules: FeedbackRules, frame: FrameSize, sqrt: real -> real)
    requires IsSqrt(sqrt)
    requires rules == CameraFixedRules || rules == DebugRules
    ensures Frame(rules, None, [], None, frame, sqrt).scores == Scores(50.0, 30.0, 40.0)
    ensures Frame(rules, None, [], None, frame, sqrt).overall == 40.0
    ensures Frame(rules, None, [], None, frame, sqrt).feedback
              == [rules.postureText.yellow, rules.gestureText.yellow, rules.eyeText.red]
  {
  }

  /** Hands score at most 50, below the green gesture threshold of 60, so the
      green gesture message can never be shown; and as written, the gesture
      score is always 30, so the yellow one is shown on every frame. */
  lemma GestureNeverGreen(hands: seq<Hand>)
    ensures TierOf(AnalyzeGestures(hands), 30.0, 60.0) != Green
    ensures TierOf(AnalyzeGesturesAsWritten(hands), 30.0, 60.0) == Yellow
  {
  }

  /** A well-aligned, centred speaker with active hands gets the green posture
      and eye messages, and the yellow gesture one (see `GestureNeverGreen`). */
  lemma IdealSpeakerAllGreen(rules: FeedbackRules, p: Pose, hands: seq<Hand>, e: Eyes,
                             frame: FrameSize, sqrt: real -> real)
    requires IsSqrt(sqrt)
    requires rules == CameraFixedRules || rules == DebugRules
    requires ShoulderTilt(p) == 0.0 && HipTilt(p) == 0.0 && SpineGap(p) == 0.0
    requires |hands| > 0 && forall i :: 0 <= i < |hands| ==> HandSpread(hands[i]) > 0.1
    requires (e.left.x + e.right.x) / 2.0 == 0.5 && (e.left.y + e.right.y) / 2.0 == 0.5
    requires frame.width > 0
    ensures Frame(rules, Some(p), hands, Some(e), frame, sqrt).scores == Scores(100.0, 50.0, 100.0)
    ensures Frame(rules, Some(p), hands, Some(e), frame, sqrt).feedback
              == [rules.postureText.green, rules.gestureText.yellow, rules.eyeText.green]
  {
    GestureTopIffAllActive(hands);
    CentredEyesScoreFull(e, frame, sqrt);
  }
}
