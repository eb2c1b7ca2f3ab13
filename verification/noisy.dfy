/** The noisy camera copy, src/qualcomm/app_fixed.py.  It uses the same
    fixed-constant formulas as the deterministic copies, adds normal noise,
    and clamps every score to [0, 100].  With no detection (or when the
    extractor raises) each score is the frame's previous score plus noise.

    Every `np.random.normal(0, σ)` is written `σ * z` with `z` a standard-normal
    draw passed in explicitly.  As in the deterministic copies, the posture and
    gesture extractors name the loop-local `mp_pose` / `mp_hands`; the
    `…AsWritten` functions model the resulting exception path. */
module Noisy {
  import opened Basics
  import opened Landmarks
  import opened Scoring
  import opened Alignment
  import Deterministic

  /** `max(0, min(100, x))`. */
  function Clamp100(x: real): (r: real)
    ensures 0.0 <= r <= 100.0
    ensures 0.0 <= x <= 100.0 ==> r == x
  {
    Clamp(0.0, 100.0, x)
  }

  /** The previous score jittered by `σ * z` and clamped. */
  function Jitter(last: real, sigma: real, z: real): (r: real)
    ensures 0.0 <= r <= 100.0
    ensures 0.0 <= last <= 100.0 && z == 0.0 ==> r == last
  {
    Clamp100(last + sigma * z)
  }

  /** `analyze_posture_improved` with the landmark names resolved:
      σ 5 around the last score with no pose, σ 3 around the formula with one. */
  function PostureImproved(pose: Option<Pose>, last: real, z: real): (r: real)
    ensures 0.0 <= r <= 100.0
    ensures pose.None? ==> r == Jitter(last, 5.0, z)
  {
    match pose
    case None => Jitter(last, 5.0, z)
    case Some(p) => Clamp100(PostureFormula(p) + 3.0 * z)
  }

  /** As written: with landmarks present the handler's σ-2 jitter runs instead. */
  function PostureImprovedAsWritten(pose: Option<Pose>, last: real, z: real): (r: real)
    ensures 0.0 <= r <= 100.0
    ensures pose.None? ==> r == Jitter(last, 5.0, z)
  {
    match pose
    case None => Jitter(last, 5.0, z)
    case Some(_) => Jitter(last, 2.0, z)
  }

  /** Points one hand contributes: the 50/30/10 band plus σ 10/8/5 noise. */
  function NoisyHandPoints(h: Hand, z: real): (r: real)
    ensures z == 0.0 ==> r == HandPoints(h)
  {
    var movement := HandSpread(h);
    if movement > 0.1 then 50.0 + 10.0 * z
    else if movement > 0.05 then 30.0 + 8.0 * z
    else 10.0 + 5.0 * z
  }

  /** Accumulated `gesture_score` after the loop over the hands. */
  function NoisyHandTotal(hands: seq<Hand>, zs: nat -> real): real
  {
    if |hands| == 0 then 0.0
    else NoisyHandTotal(hands[..|hands| - 1], zs) + NoisyHandPoints(hands[|hands| - 1], zs(|hands| - 1))
  }

  /** Without noise the accumulated total is the sum of the deterministic bands. */
  lemma {:induction false} QuietHandTotal(hands: seq<Hand>, zs: nat -> real)
    requires forall i: nat :: zs(i) == 0.0
    ensures NoisyHandTotal(hands, zs) == Sum(HandBands(hands))
    decreases |hands|
  {
    if |hands| > 0 {
      var init := hands[..|hands| - 1];
      QuietHandTotal(init, zs);
      assert HandBands(hands)[..|hands| - 1] == HandBands(init);
    }
  }

  /** `analyze_gestures_improved` with the landmark names resolved: σ 3 around
      the last score with no hands; otherwise `min(100, total / n)` plus σ-2
      time noise, clamped. */
  function GesturesImproved(hands: seq<Hand>, last: real, zs: nat -> real, zTime: real, z: real): (r: real)
    ensures 0.0 <= r <= 100.0
    ensures |hands| == 0 ==> r == Jitter(last, 3.0, z)
  {
    if |hands| == 0 then Jitter(last, 3.0, z)
    else Clamp100(Min(100.0, NoisyHandTotal(hands, zs) / (|hands| as real)) + 2.0 * zTime)
  }

  /** As written: the first hand's `mp_hands` lookup raises before any hand draw,
      and the handler's σ-2 jitter runs instead. */
  function GesturesImprovedAsWritten(hands: seq<Hand>, last: real, z: real): (r: real)
    ensures 0.0 <= r <= 100.0
    ensures |hands| == 0 ==> r == Jitter(last, 3.0, z)
  {
    if |hands| == 0 then Jitter(last, 3.0, z) else Jitter(last, 2.0, z)
  }

  /** `analyze_eye_contact_improved`: σ 4 around the last score with no face;
      otherwise the eye formula plus `3z · eye_movement · 10`, clamped. */
  function EyeContactImproved(eyes: Option<Eyes>, frame: FrameSize, sqrt: real -> real, last: real, z: real): (r: real)
    requires IsSqrt(sqrt)
    ensures 0.0 <= r <= 100.0
    ensures eyes.None? ==> r == Jitter(last, 4.0, z)
  {
    match eyes
    case None => Jitter(last, 4.0, z)
    case Some(e) => Clamp100(EyeFormula(e, frame, sqrt) + 3.0 * z * EyeSpread(e) * 10.0)
  }

  /** Without noise, every extractor of this copy agrees with the deterministic
      copies whenever something is detected. */
  lemma QuietMatchesDeterministic(pose: Pose, hands: seq<Hand>, zs: nat -> real, e: Eyes,
                                  frame: FrameSize, sqrt: real -> real, last: real)
    requires IsSqrt(sqrt)
    requires forall i: nat :: zs(i) == 0.0
    ensures PostureImproved(Some(pose), last, 0.0) == Deterministic.AnalyzePosture(Some(pose))
    ensures |hands| > 0 ==> GesturesImproved(hands, last, zs, 0.0, 0.0) == Deterministic.AnalyzeGestures(hands)
    ensures EyeContactImproved(Some(e), frame, sqrt, last, 0.0) == Deterministic.AnalyzeEyeContact(Some(e), frame, sqrt)
  {
    QuietHandTotal(hands, zs);
  }

  /** As written, a detected pose or hand only jitters the previous score: at zero
      noise a level pose and widely spread hands keep the start values 50 and 30
      where the formulas give 100 and 50. */
  lemma AsWrittenIgnoresLandmarks(p: Pose, hands: seq<Hand>, zs: nat -> real, last: Scores)
    requires InRange(last)
    requires forall i: nat :: zs(i) == 0.0
    requires ShoulderTilt(p) == 0.0 && HipTilt(p) == 0.0 && SpineGap(p) == 0.0
    requires |hands| > 0 && forall i :: 0 <= i < |hands| ==> HandSpread(hands[i]) > 0.1
    ensures PostureImprovedAsWritten(Some(p), last.posture, 0.0) == last.posture
    ensures PostureImproved(Some(p), last.posture, 0.0) == 100.0
    ensures GesturesImprovedAsWritten(hands, last.gesture, 0.0) == last.gesture
    ensures GesturesImproved(hands, last.gesture, zs, 0.0, 0.0) == 50.0
  {
    QuietHandTotal(hands, zs);
    GestureTopIffAllActive(hands);
  }

  /** Without noise the no-detection paths hold the previous score. */
  lemma QuietUndetectedHoldsLast(last: Scores, frame: FrameSize, sqrt: real -> real)
    requires IsSqrt(sqrt)
    requires 0.0 <= last.posture <= 100.0 && 0.0 <= last.gesture <= 100.0 && 0.0 <= last.eye <= 100.0
    ensures PostureImproved(None, last.posture, 0.0) == last.posture
    ensures GesturesImproved([], last.gesture, (i: nat) => 0.0, 0.0, 0.0) == last.gesture
    ensures EyeContactImproved(None, frame, sqrt, last.eye, 0.0) == last.eye
  {
  }

  const Rules := FeedbackRules(
    50.0, 75.0, Messages("🔴 Mantenha a postura ereta - alinhe os ombros",
                         "🟡 Melhore o alinhamento dos ombros",
                         "🟢 Postura excelente!"),
    30.0, 60.0, Messages("🔴 Use mais gestos com as mãos para expressividade",
                         "🟡 Varie seus gestos para maior impacto",
                         "🟢 Gestos muito expressivos!"),
    50.0, 75.0, Messages("👁️ Olhe mais para a câmera - mantenha contato visual",
                         "🟡 Mantenha contato visual consistente",
                         "🟢 Contato visual perfeito!"))

  /** The camera loop's state: the previous scores and the session's `scores_history`. */
  datatype Session = Session(last: Scores, rows: seq<FrameRow>)

  /** `last_scores = {'posture': 50, 'gesture': 30, 'eye': 40}`, empty history. */
  function Start(): (s: Session)
    ensures s.rows == [] && InRange(s.last)
  {
    Session(Scores(50.0, 30.0, 40.0), [])
  }

  predicate InRange(s: Scores)
  {
    0.0 <= s.posture <= 100.0 && 0.0 <= s.gesture <= 100.0 && 0.0 <= s.eye <= 100.0
  }

  predicate RowInRange(row: FrameRow)
  {
    0.0 <= row.posture <= 100.0 && 0.0 <= row.gesture <= 100.0 && 0.0 <= row.eye <= 100.0
    && 0.0 <= row.overall <= 100.0
  }

  /** What the detectors report for one frame. */
  datatype Observation = Observation(pose: Option<Pose>, hands: seq<Hand>, eyes: Option<Eyes>, frame: FrameSize)

  /** The normal draws one frame consumes. */
  datatype Draws = Draws(posture: real, hands: nat -> real, gestureTime: real, gesture: real, eye: real)

  /** One iteration of `real_camera_loop`: three extractors fed the previous
      scores, `last_scores` replaced, and `[p, g, e, mean]` appended. */
  function Step(s: Session, o: Observation, d: Draws, sqrt: real -> real): (r: Session)
    requires IsSqrt(sqrt)
    ensures InRange(r.last)
    ensures |r.rows| == |s.rows| + 1 && r.rows[..|s.rows|] == s.rows
    ensures r.rows[|s.rows|] == FrameRow(r.last.posture, r.last.gesture, r.last.eye, MeanOverall(r.last))
    ensures RowInRange(r.rows[|s.rows|])
  {
    var sc := Scores(PostureImproved(o.pose, s.last.posture, d.posture),
                     GesturesImproved(o.hands, s.last.gesture, d.hands, d.gestureTime, d.gesture),
                     EyeContactImproved(o.eyes, o.frame, sqrt, s.last.eye, d.eye));
    Session(sc, s.rows + [FrameRow(sc.posture, sc.gesture, sc.eye, MeanOverall(sc))])
  }

  /** The loop over a sequence of frames, each with its own draws. */
  function Run(s: Session, frames: seq<Observation>, draws: seq<Draws>, sqrt: real -> real): (r: Session)
    requires IsSqrt(sqrt)
    requires |draws| == |frames|
  {
    if |frames| == 0 then s
    else Step(Run(s, frames[..|frames| - 1], draws[..|frames| - 1], sqrt), frames[|frames| - 1], draws[|frames| - 1], sqrt)
  }

  /** Whatever the noise, a session started fresh records one in-range row per frame. */
  lemma {:induction false} RunStaysInRange(frames: seq<Observation>, draws: seq<Draws>, sqrt: real -> real)
    requires IsSqrt(sqrt)
    requires |draws| == |frames|
    ensures |Run(Start(), frames, draws, sqrt).rows| == |frames|
    ensures forall i :: 0 <= i < |frames| ==> RowInRange(Run(Start(), frames, draws, sqrt).rows[i])
    decreases |frames|
  {
    if |frames| > 0 {
      var n := |frames| - 1;
      RunStaysInRange(frames[..n], draws[..n], sqrt);
      var prev := Run(Start(), frames[..n], draws[..n], sqrt);
      var next := Step(prev, frames[n], draws[n], sqrt);
      assert Run(Start(), frames, draws, sqrt) == next;
      forall i | 0 <= i < |frames|
        ensures RowInRange(next.rows[i])
      {
        if i < n {
          assert next.rows[i] == next.rows[..n][i];
        }
      }
    }
  }
}
