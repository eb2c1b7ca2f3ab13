/** The lenient, smoothed scoring profile: `CommunicationAnalyzer` in
    app/core/analysis.py, driven frame by frame by the camera loop of
    app/main.py.

    Each extractor computes a raw score on one of three paths — nothing
    detected, landmarks detected, or an exception inside the `try` — and
    then passes it through `smooth_score`, which keeps the last smoothed
    value and a 20-entry history per metric.  Random jitter
    `np.random.normal(0, sigma)` is modelled as `sigma * z` for an explicit
    standard-normal draw `z`. */
module LenientScoring {
  import opened Basics
  import opened Landmarks
  import opened Scoring

  /** One section of the analyser's `config` dictionary. */
  type Section = map<string, real>

  /** The nested `config` dictionary. */
  type Config = map<string, Section>

  const DefaultConfig: Config := map[
    "posture" := map[
      "shoulder_threshold" := 0.18, "hip_threshold" := 0.15, "spine_threshold" := 0.10,
      "variation_factor" := 0.5, "min_score" := 50.0, "max_score" := 98.0],
    "gesture" := map[
      "movement_threshold_low" := 0.005, "movement_threshold_high" := 0.01,
      "base_score_no_hands" := 80.0, "variation_factor" := 0.5,
      "min_score" := 60.0, "max_score" := 95.0],
    "eye_contact" := map[
      "center_tolerance" := 0.5, "movement_factor" := 2.0, "variation_factor" := 0.5,
      "min_score" := 70.0, "max_score" := 95.0]
  ]

  /** `config[section][key]`, or `None` where Python raises `KeyError`. */
  function Param(cfg: Config, section: string, key: string): (r: Option<real>)
    ensures r.Some? <==> section in cfg && key in cfg[section]
    ensures r.Some? ==> r.value == cfg[section][key]
  {
    if section in cfg && key in cfg[section] then Some(cfg[section][key]) else None
  }

  /** `config.update(new_config)`: a shallow merge.  A section named in the
      update replaces the stored section wholesale; nothing is validated. */
  function UpdateConfig(cfg: Config, patch: Config): (r: Config)
    ensures r.Keys == cfg.Keys + patch.Keys
    ensures forall s :: s in patch ==> r[s] == patch[s]
    ensures forall s :: s in cfg && s !in patch ==> r[s] == cfg[s]
  {
    cfg + patch
  }

  // ---------------------------------------------------------------- smoothing

  const HistoryCap: nat := 20

  /** Smoothing state of one metric: `last_scores[m]` and `score_history[m]`. */
  datatype Track = Track(last: real, history: seq<real>)

  /** After at least one call, the last smoothed value is the newest history entry. */
  predicate Coherent(t: Track)
  {
    |t.history| <= HistoryCap && (|t.history| > 0 ==> t.last == t.history[|t.history| - 1])
  }

  /** The value `smooth_score` returns: the raw score itself for the first
      sample, afterwards `0.7 * last + 0.3 * raw`. */
  function SmoothedValue(t: Track, raw: real): (v: real)
    ensures |t.history| == 0 ==> v == raw
    ensures |t.history| > 0 ==> v - raw == 0.7 * (t.last - raw)
  {
    if |t.history| > 0 then 0.7 * t.last + 0.3 * raw else raw
  }

  /** Smoothing never overshoots: the result lies between the previous
      smoothed value and the new raw score. */
  lemma SmoothingBetween(t: Track, raw: real)
    requires |t.history| > 0
    ensures Min(t.last, raw) <= SmoothedValue(t, raw) <= Max(t.last, raw)
  {
  }

  /** `smooth_score` with its default factor 0.7: the smoothed value becomes
      `last` and is appended to a history trimmed to its last 20 entries. */
  function Smooth(t: Track, raw: real): (r: Track)
    ensures r.last == SmoothedValue(t, raw)
    ensures |r.history| > 0
  {
    var smoothed := SmoothedValue(t, raw);
    Track(smoothed, Push(t.history, smoothed, HistoryCap))
  }

  /** After each call the smoothed value is the newest history entry, and the
      history holds at most the 20 most recent values, oldest first. */
  lemma SmoothKeepsRecentHistory(t: Track, raw: real)
    ensures |Smooth(t, raw).history| == MinNat(|t.history| + 1, HistoryCap)
    ensures Smooth(t, raw).history[|Smooth(t, raw).history| - 1] == Smooth(t, raw).last
    ensures Smooth(t, raw).history[..|Smooth(t, raw).history| - 1] == TakeLast(t.history, |Smooth(t, raw).history| - 1)
    ensures Coherent(Smooth(t, raw))
  {
    var h := Smooth(t, raw).history;
    assert h[..|h| - 1] == TakeLast(t.history, |h| - 1);
  }

  function Pow(b: real, k: nat): real
  {
    if k == 0 then 1.0 else b * Pow(b, k - 1)
  }

  /** Feeding the same raw value `k` times. */
  function SmoothRepeat(t: Track, raw: real, k: nat): Track
  {
    if k == 0 then t else Smooth(SmoothRepeat(t, raw, k - 1), raw)
  }

  /** The smoothed value after `k` further calls with the same raw score. */
  function Repeated(v: real, raw: real, k: nat): real
  {
    if k == 0 then v else 0.7 * Repeated(v, raw, k - 1) + 0.3 * raw
  }

  lemma {:induction false} RepeatedGap(v: real, raw: real, k: nat)
    ensures Repeated(v, raw, k) - raw == Pow(0.7, k) * (v - raw)
  {
    if k > 0 {
      RepeatedGap(v, raw, k - 1);
      var p, g := Pow(0.7, k - 1), v - raw;
      assert Repeated(v, raw, k - 1) - raw == p * g;
      assert Pow(0.7, k) == 0.7 * p;
    }
  }

  lemma {:induction false} SmoothRepeatValue(t: Track, raw: real, k: nat)
    requires |t.history| > 0
    ensures SmoothRepeat(t, raw, k).last == Repeated(t.last, raw, k)
    ensures |SmoothRepeat(t, raw, k).history| > 0
  {
    if k > 0 {
      SmoothRepeatValue(t, raw, k - 1);
    }
  }

  /** Once a metric has history, a constant raw score pulls the smoothed score
      towards it geometrically: the gap shrinks by the factor 0.7 per call. */
  lemma SmoothingConverges(t: Track, raw: real, k: nat)
    requires |t.history| > 0
    ensures SmoothRepeat(t, raw, k).last - raw == Pow(0.7, k) * (t.last - raw)
  {
    SmoothRepeatValue(t, raw, k);
    RepeatedGap(t.last, raw, k);
  }

  // ------------------------------------------------------------- analyser

  datatype Analyzer = Analyzer(config: Config, posture: Track, gesture: Track, eye: Track)

  /** A freshly constructed analyser (before any saved configuration is merged in). */
  function NewAnalyzer(): (a: Analyzer)
    ensures a.config == DefaultConfig
    ensures a.posture == Track(75.0, []) && a.gesture == Track(80.0, []) && a.eye == Track(85.0, [])
  {
    Analyzer(DefaultConfig, Track(75.0, []), Track(80.0, []), Track(85.0, []))
  }

  /** Which branch of an extractor produced the raw score. */
  datatype Path = Undetected | Detected | Recovered

  datatype Raw = Raw(value: real, path: Path)

  /** A smoothed score together with the analyser after the call. */
  datatype Step = Step(score: real, next: Analyzer)

  // ---------------------------------------------------------------- posture

  /** `max(0, 100 - (measure / threshold) * 30)`. */
  function SubScore(measure: real, threshold: real): (r: real)
    requires threshold != 0.0
    ensures r >= 0.0
    ensures threshold > 0.0 && measure >= 0.0 ==> r <= 100.0
    ensures threshold > 0.0 && measure == 0.0 ==> r == 100.0
  {
    Max(0.0, 100.0 - (measure / threshold) * 30.0)
  }

  lemma SubScoreAntitone(m1: real, m2: real, threshold: real)
    requires threshold > 0.0 && m1 <= m2
    ensures SubScore(m1, threshold) >= SubScore(m2, threshold)
  {
    assert m1 / threshold <= m2 / threshold;
  }

  /** The posture bonus: +15 only above 50, then +10 for having detected a pose. */
  function PostureBonus(base: real): (r: real)
    ensures base > 50.0 ==> r == base + 25.0
    ensures base <= 50.0 ==> r == base + 10.0
  {
    (if base > 50.0 then base + 15.0 else base) + 10.0
  }

  /** All parameters the detected-pose branch reads are present and usable
      (no `KeyError`, no division by zero, a valid normal-distribution scale). */
  predicate PostureUsable(cfg: Config)
  {
    Param(cfg, "posture", "shoulder_threshold").Some? && Param(cfg, "posture", "shoulder_threshold").value != 0.0
    && Param(cfg, "posture", "hip_threshold").Some? && Param(cfg, "posture", "hip_threshold").value != 0.0
    && Param(cfg, "posture", "spine_threshold").Some? && Param(cfg, "posture", "spine_threshold").value != 0.0
    && Param(cfg, "posture", "variation_factor").Some? && Param(cfg, "posture", "variation_factor").value >= 0.0
    && Param(cfg, "posture", "min_score").Some? && Param(cfg, "posture", "max_score").Some?
  }

  /** Mean of the three alignment sub-scores. */
  function PostureBase(cfg: Config, p: Pose): real
    requires PostureUsable(cfg)
  {
    (SubScore(ShoulderTilt(p), cfg["posture"]["shoulder_threshold"])
      + SubScore(HipTilt(p), cfg["posture"]["hip_threshold"])
      + SubScore(SpineGap(p), cfg["posture"]["spine_threshold"])) / 3.0
  }

  /** Raw posture score before smoothing; `z` is the one normal draw the taken branch makes. */
  function PostureRaw(cfg: Config, pose: Option<Pose>, z: real): (r: Raw)
    ensures pose.None? ==> r == Raw(75.0 + 3.0 * z, Undetected)
    ensures pose.Some? ==> (r.path == Detected <==> PostureUsable(cfg))
    ensures r.path == Recovered ==> pose.Some? && r.value == 75.0 + 2.0 * z
    ensures (r.path == Detected && cfg["posture"]["min_score"] <= cfg["posture"]["max_score"])
              ==> cfg["posture"]["min_score"] <= r.value <= cfg["posture"]["max_score"]
  {
    match pose
    case None => Raw(75.0 + 3.0 * z, Undetected)
    case Some(p) =>
      if PostureUsable(cfg) then
        var s := cfg["posture"];
        Raw(Clamp(s["min_score"], s["max_score"], PostureBonus(PostureBase(cfg, p)) + s["variation_factor"] * z), Detected)
      else
        Raw(75.0 + 2.0 * z, Recovered)
  }

  /** With positive thresholds, a pose that is at least as well aligned on all
      three measures never scores lower. */
  lemma PostureMonotone(cfg: Config, p1: Pose, p2: Pose, z: real)
    requires PostureUsable(cfg)
    requires cfg["posture"]["shoulder_threshold"] > 0.0 && cfg["posture"]["hip_threshold"] > 0.0
    requires cfg["posture"]["spine_threshold"] > 0.0
    requires ShoulderTilt(p1) <= ShoulderTilt(p2) && HipTilt(p1) <= HipTilt(p2) && SpineGap(p1) <= SpineGap(p2)
    ensures PostureRaw(cfg, Some(p1), z).value >= PostureRaw(cfg, Some(p2), z).value
  {
    SubScoreAntitone(ShoulderTilt(p1), ShoulderTilt(p2), cfg["posture"]["shoulder_threshold"]);
    SubScoreAntitone(HipTilt(p1), HipTilt(p2), cfg["posture"]["hip_threshold"]);
    SubScoreAntitone(SpineGap(p1), SpineGap(p2), cfg["posture"]["spine_threshold"]);
  }

  /** A perfectly level pose (shoulders and hips level, shoulder midpoint at hip
      height) under the default configuration scores 125 before clamping,
      so at zero noise it gets the maximum 98. */
  lemma LevelPoseGetsMaximum(p: Pose)
    requires ShoulderTilt(p) == 0.0 && HipTilt(p) == 0.0 && SpineGap(p) == 0.0
    ensures PostureRaw(DefaultConfig, Some(p), 0.0) == Raw(98.0, Detected)
  {
    assert PostureUsable(DefaultConfig);
    assert PostureBase(DefaultConfig, p) == 100.0;
  }

  /** `analyze_posture`: only the posture track changes. */
  function AnalyzePosture(a: Analyzer, pose: Option<Pose>, z: real): (r: Step)
    ensures r.next.config == a.config && r.next.gesture == a.gesture && r.next.eye == a.eye
    ensures r.next.posture == Smooth(a.posture, PostureRaw(a.config, pose, z).value)
    ensures r.score == r.next.posture.last
  {
    var t := Smooth(a.posture, PostureRaw(a.config, pose, z).value);
    Step(t.last, a.(posture := t))
  }

  // --------------------------------------------------------------- gestures

  /** Score of one hand by how far thumb and index tips sit from the wrist;
      `None` where a threshold lookup raises `KeyError`.  The low threshold is
      only read when the high one is not exceeded. */
  function HandBand(cfg: Config, h: Hand, z: real): (r: Option<real>)
    ensures (Param(cfg, "gesture", "movement_threshold_high").Some?
               && HandSpread(h) > Param(cfg, "gesture", "movement_threshold_high").value)
              ==> r == Some(95.0 + z)
    ensures (Param(cfg, "gesture", "movement_threshold_high").Some?
               && HandSpread(h) <= Param(cfg, "gesture", "movement_threshold_high").value
               && Param(cfg, "gesture", "movement_threshold_low").Some?)
              ==> r == Some(if HandSpread(h) > Param(cfg, "gesture", "movement_threshold_low").value
                            then 85.0 + 1.5 * z else 75.0 + 2.0 * z)
    ensures r.None? <==> (Param(cfg, "gesture", "movement_threshold_high").None?
                          || (HandSpread(h) <= Param(cfg, "gesture", "movement_threshold_high").value
                              && Param(cfg, "gesture", "movement_threshold_low").None?))
  {
    match Param(cfg, "gesture", "movement_threshold_high")
    case None => None
    case Some(high) =>
      if HandSpread(h) > high then Some(95.0 + z)
      else
        match Param(cfg, "gesture", "movement_threshold_low")
        case None => None
        case Some(low) => if HandSpread(h) > low then Some(85.0 + 1.5 * z) else Some(75.0 + 2.0 * z)
  }

  /** Sum of the per-hand bands, hand `i` using draw `zs(i)`; `None` if any lookup raised. */
  function HandTotal(cfg: Config, hands: seq<Hand>, zs: nat -> real): Option<real>
  {
    if |hands| == 0 then Some(0.0)
    else
      match HandTotal(cfg, hands[..|hands| - 1], zs)
      case None => None
      case Some(t) =>
        match HandBand(cfg, hands[|hands| - 1], zs(|hands| - 1))
        case None => None
        case Some(b) => Some(t + b)
  }

  predicate GestureUsable(cfg: Config)
  {
    Param(cfg, "gesture", "variation_factor").Some? && Param(cfg, "gesture", "variation_factor").value >= 0.0
    && Param(cfg, "gesture", "min_score").Some? && Param(cfg, "gesture", "max_score").Some?
  }

  /** `min(100, total / n)`, +20 for two or more hands, +15 for any hand. */
  function GestureBase(total: real, n: nat): (r: real)
    requires n > 0
    ensures n == 1 ==> r == Min(100.0, total) + 15.0
    ensures n >= 2 ==> r == Min(100.0, total / n as real) + 35.0
  {
    var b := Min(100.0, total / n as real);
    (if n >= 2 then b + 20.0 else b) + 15.0
  }

  /** Raw gesture score.  `Err` is the `KeyError` of the no-hands branch, which
      sits outside the `try` and reaches the caller. */
  function GestureRaw(cfg: Config, hands: seq<Hand>, zs: nat -> real, zTime: real, z: real): (r: Result<Raw>)
    ensures |hands| == 0 ==> (r.Err? <==> Param(cfg, "gesture", "base_score_no_hands").None?)
    ensures |hands| == 0 && r.Ok? ==> r.value == Raw(cfg["gesture"]["base_score_no_hands"] + 2.0 * z, Undetected)
    ensures |hands| > 0 ==> r.Ok? && r.value.path != Undetected
    ensures |hands| > 0 ==> (r.value.path == Detected <==> GestureUsable(cfg) && HandTotal(cfg, hands, zs).Some?)
    ensures r.Ok? && r.value.path == Recovered ==> r.value.value == 80.0 + 2.0 * z
    ensures (r.Ok? && r.value.path == Detected && cfg["gesture"]["min_score"] <= cfg["gesture"]["max_score"])
              ==> cfg["gesture"]["min_score"] <= r.value.value <= cfg["gesture"]["max_score"]
  {
    if |hands| == 0 then
      match Param(cfg, "gesture", "base_score_no_hands")
      case None => Err("KeyError: 'base_score_no_hands'")
      case Some(b) => Ok(Raw(b + 2.0 * z, Undetected))
    else
      match HandTotal(cfg, hands, zs)
      case None => Ok(Raw(80.0 + 2.0 * z, Recovered))
      case Some(total) =>
        if GestureUsable(cfg) then
          var s := cfg["gesture"];
          Ok(Raw(Clamp(s["min_score"], s["max_score"], GestureBase(75.0 + total, |hands|) + s["variation_factor"] * zTime), Detected))
        else
          Ok(Raw(80.0 + 2.0 * z, Recovered))
  }

  lemma {:induction false} DefaultQuietHandTotal(hands: seq<Hand>, zs: nat -> real)
    requires forall i :: zs(i) == 0.0
    ensures HandTotal(DefaultConfig, hands, zs).Some?
    ensures HandTotal(DefaultConfig, hands, zs).value >= 75.0 * |hands| as real
  {
    if |hands| > 0 {
      DefaultQuietHandTotal(hands[..|hands| - 1], zs);
    }
  }

  /** Default configuration, no jitter: any detected hands saturate at the maximum 95. */
  lemma DefaultQuietHandsSaturate(hands: seq<Hand>, zs: nat -> real)
    requires |hands| > 0
    requires forall i :: zs(i) == 0.0
    ensures GestureRaw(DefaultConfig, hands, zs, 0.0, 0.0) == Ok(Raw(95.0, Detected))
  {
    DefaultQuietHandTotal(hands, zs);
    var n := |hands| as real;
    var total := HandTotal(DefaultConfig, hands, zs).value;
    assert GestureUsable(DefaultConfig);
    if |hands| >= 2 {
      assert (75.0 + total) / n >= 75.0 by {
        assert 75.0 + total >= 75.0 * n;
      }
    }
  }

  /** `analyze_gestures`: on `Err` the exception propagates and nothing changes. */
  function AnalyzeGestures(a: Analyzer, hands: seq<Hand>, zs: nat -> real, zTime: real, z: real): (r: Result<Step>)
    ensures r.Err? <==> GestureRaw(a.config, hands, zs, zTime, z).Err?
    ensures r.Ok? ==> r.value.next.config == a.config && r.value.next.posture == a.posture && r.value.next.eye == a.eye
    ensures r.Ok? ==> r.value.next.gesture == Smooth(a.gesture, GestureRaw(a.config, hands, zs, zTime, z).value.value)
    ensures r.Ok? ==> r.value.score == r.value.next.gesture.last
  {
    match GestureRaw(a.config, hands, zs, zTime, z)
    case Err(e) => Err(e)
    case Ok(raw) =>
      var t := Smooth(a.gesture, raw.value);
      Ok(Step(t.last, a.(gesture := t)))
  }

  // ------------------------------------------------------------ eye contact

  predicate EyeUsable(cfg: Config)
  {
    Param(cfg, "eye_contact", "center_tolerance").Some?
    && Param(cfg, "eye_contact", "variation_factor").Some? && Param(cfg, "eye_contact", "variation_factor").value >= 0.0
    && Param(cfg, "eye_contact", "movement_factor").Some?
    && Param(cfg, "eye_contact", "min_score").Some? && Param(cfg, "eye_contact", "max_score").Some?
  }

  /** Band by normalised distance from the frame centre; a NaN distance fails both comparisons. */
  function EyeBand(offset: Option<real>, tolerance: real, z: real): (r: real)
    ensures offset.Some? && offset.value < tolerance ==> r == 98.0 + z
    ensures offset.Some? && tolerance <= offset.value < 0.7 ==> r == 90.0 + 1.5 * z
    ensures offset.Some? && offset.value >= tolerance && offset.value >= 0.7 ==> r == 80.0 + 2.0 * z
    ensures offset.None? ==> r == 80.0 + 2.0 * z
  {
    match offset
    case None => 80.0 + 2.0 * z
    case Some(d) => if d < tolerance then 98.0 + z else if d < 0.7 then 90.0 + 1.5 * z else 80.0 + 2.0 * z
  }

  /** Raw eye-contact score: band + 15, plus jitter scaled by how far apart the two eye landmarks are. */
  function EyeRaw(cfg: Config, eyes: Option<Eyes>, frame: FrameSize, sqrt: real -> real,
                  zBand: real, zMove: real, z: real): (r: Raw)
    requires IsSqrt(sqrt)
    ensures eyes.None? ==> r == Raw(80.0 + 3.0 * z, Undetected)
    ensures eyes.Some? ==> (r.path == Detected <==> EyeUsable(cfg))
    ensures r.path == Recovered ==> eyes.Some? && r.value == 80.0 + 2.0 * z
    ensures (r.path == Detected && cfg["eye_contact"]["min_score"] <= cfg["eye_contact"]["max_score"])
              ==> cfg["eye_contact"]["min_score"] <= r.value <= cfg["eye_contact"]["max_score"]
  {
    match eyes
    case None => Raw(80.0 + 3.0 * z, Undetected)
    case Some(e) =>
      if EyeUsable(cfg) then
        var s := cfg["eye_contact"];
        var base := EyeBand(CentreOffset(e, frame, sqrt), s["center_tolerance"], zBand) + 15.0;
        var jitter := s["variation_factor"] * zMove * EyeSpread(e) * s["movement_factor"];
        Raw(Clamp(s["min_score"], s["max_score"], base + jitter), Detected)
      else
        Raw(80.0 + 2.0 * z, Recovered)
  }

  /** Default configuration, no jitter: any detected face saturates at the maximum 95. */
  lemma DefaultQuietFaceSaturates(e: Eyes, frame: FrameSize, sqrt: real -> real)
    requires IsSqrt(sqrt)
    ensures EyeRaw(DefaultConfig, Some(e), frame, sqrt, 0.0, 0.0, 0.0) == Raw(95.0, Detected)
  {
    assert EyeUsable(DefaultConfig);
  }

  /** `analyze_eye_contact`: only the eye track changes. */
  function AnalyzeEyeContact(a: Analyzer, eyes: Option<Eyes>, frame: FrameSize, sqrt: real -> real,
                             zBand: real, zMove: real, z: real): (r: Step)
    requires IsSqrt(sqrt)
    ensures r.next.config == a.config && r.next.posture == a.posture && r.next.gesture == a.gesture
    ensures r.next.eye == Smooth(a.eye, EyeRaw(a.config, eyes, frame, sqrt, zBand, zMove, z).value)
    ensures r.score == r.next.eye.last
  {
    var t := Smooth(a.eye, EyeRaw(a.config, eyes, frame, sqrt, zBand, zMove, z).value);
    Step(t.last, a.(eye := t))
  }

  // ------------------------------------------------- feedback and overall

  const Rules := FeedbackRules(
    40.0, 65.0, Messages("🔴 Mantenha a postura ereta - alinhe os ombros",
                         "🟡 Melhore levemente o alinhamento dos ombros",
                         "🟢 Postura excelente!"),
    45.0, 70.0, Messages("🔴 Use mais gestos com as mãos para expressividade",
                         "🟡 Varie seus gestos para maior impacto",
                         "🟢 Gestos muito expressivos!"),
    50.0, 75.0, Messages("👁️ Olhe mais para a câmera - mantenha contato visual",
                         "🟡 Mantenha contato visual consistente",
                         "🟢 Contato visual perfeito!"))

  /** `generate_feedback`: one message per metric with tiers <40/<65, <45/<70, <50/<75. */
  function Feedback(s: Scores): (r: seq<string>)
    ensures |r| == 3
    ensures r[0] == Say(Rules.postureText, TierOf(s.posture, 40.0, 65.0))
    ensures r[1] == Say(Rules.gestureText, TierOf(s.gesture, 45.0, 70.0))
    ensures r[2] == Say(Rules.eyeText, TierOf(s.eye, 50.0, 75.0))
  {
    Scoring.Feedback(Rules, s)
  }

  /** `get_overall_score` before `round(_, 1)`: weights 0.35/0.30/0.35. */
  function Overall(s: Scores): (r: real)
    ensures Lowest(s) <= r <= Highest(s)
    ensures s.posture == s.gesture == s.eye ==> r == s.posture
  {
    WeightedOverall(s, 0.35, 0.30, 0.35)
  }

  // ------------------------------------------------------- the camera loop

  /** What the detectors report for one frame. */
  datatype Observation = Observation(pose: Option<Pose>, hands: seq<Hand>, eyes: Option<Eyes>, frame: FrameSize)

  /** The normal draws one frame consumes. */
  datatype Draws = Draws(posture: real, hands: nat -> real, gestureTime: real, gesture: real,
                         eyeBand: real, eyeMove: real, eye: real)

  /** One iteration of the camera loop in app/main.py: score the three metrics,
      combine them, and append `[posture, gesture, eye, overall]` to the session
      history.  If the gesture extractor raises, the loop's handler skips the
      rest of the frame — the posture track has already been updated. */
  function ProcessFrame(a: Analyzer, rows: seq<FrameRow>, o: Observation, d: Draws, sqrt: real -> real): (r: (Analyzer, seq<FrameRow>))
    requires IsSqrt(sqrt)
    ensures r.0.config == a.config
    ensures GestureRaw(a.config, o.hands, d.hands, d.gestureTime, d.gesture).Err? ==> r.1 == rows
    ensures (GestureRaw(a.config, o.hands, d.hands, d.gestureTime, d.gesture).Ok?)
              ==> |r.1| == |rows| + 1 && r.1[..|rows|] == rows
                  && r.1[|rows|].posture == r.0.posture.last && r.1[|rows|].gesture == r.0.gesture.last
                  && r.1[|rows|].eye == r.0.eye.last
                  && r.1[|rows|].overall == Overall(Scores(r.0.posture.last, r.0.gesture.last, r.0.eye.last))
  {
    var p := AnalyzePosture(a, o.pose, d.posture);
    match AnalyzeGestures(p.next, o.hands, d.hands, d.gestureTime, d.gesture)
    case Err(_) => (p.next, rows)
    case Ok(g) =>
      var e := AnalyzeEyeContact(g.next, o.eyes, o.frame, sqrt, d.eyeBand, d.eyeMove, d.eye);
      var s := Scores(p.score, g.score, e.score);
      (e.next, rows + [FrameRow(s.posture, s.gesture, s.eye, Overall(s))])
  }

  function Quiet(): Draws
  {
    Draws(0.0, (i: nat) => 0.0, 0.0, 0.0, 0.0, 0.0, 0.0)
  }

  function Run(a: Analyzer, rows: seq<FrameRow>, frames: seq<Observation>, sqrt: real -> real): (Analyzer, seq<FrameRow>)
    requires IsSqrt(sqrt)
  {
    if |frames| == 0 then (a, rows)
    else
      var r := Run(a, rows, frames[..|frames| - 1], sqrt);
      ProcessFrame(r.0, r.1, frames[|frames| - 1], Quiet(), sqrt)
  }

  /** Every smoothed value inside the default `[min_score, max_score]` band of its metric. */
  predicate InBand(a: Analyzer)
  {
    50.0 <= a.posture.last <= 98.0 && 60.0 <= a.gesture.last <= 95.0 && 70.0 <= a.eye.last <= 95.0
  }

  predicate RowInBand(row: FrameRow)
  {
    50.0 <= row.posture <= 98.0 && 60.0 <= row.gesture <= 95.0 && 70.0 <= row.eye <= 95.0
  }

  /** Under the default configuration and without jitter, every branch of every
      extractor yields a raw score inside its band (the no-detection constants
      75, 80 and 80 included) and smoothing is a convex mix, so the analyser —
      starting from its initial 75/80/85 — never leaves the bands and every
      recorded frame row is inside them. */
  lemma {:induction false} QuietRunStaysInBand(frames: seq<Observation>, sqrt: real -> real)
    requires IsSqrt(sqrt)
    ensures InBand(Run(NewAnalyzer(), [], frames, sqrt).0)
    ensures Run(NewAnalyzer(), [], frames, sqrt).0.config == DefaultConfig
    ensures forall i :: 0 <= i < |Run(NewAnalyzer(), [], frames, sqrt).1| ==> RowInBand(Run(NewAnalyzer(), [], frames, sqrt).1[i])
  {
    if |frames| > 0 {
      QuietRunStaysInBand(frames[..|frames| - 1], sqrt);
      var r := Run(NewAnalyzer(), [], frames[..|frames| - 1], sqrt);
      QuietFrameStaysInBand(r.0, r.1, frames[|frames| - 1], sqrt);
    }
  }

  lemma QuietPostureInBand(pose: Option<Pose>)
    ensures 50.0 <= PostureRaw(DefaultConfig, pose, 0.0).value <= 98.0
  {
    if pose.Some? {
      assert PostureUsable(DefaultConfig);
    }
  }

  lemma QuietGestureInBand(hands: seq<Hand>, zs: nat -> real)
    requires forall i :: zs(i) == 0.0
    ensures GestureRaw(DefaultConfig, hands, zs, 0.0, 0.0).Ok?
    ensures 60.0 <= GestureRaw(DefaultConfig, hands, zs, 0.0, 0.0).value.value <= 95.0
  {
    if |hands| > 0 {
      DefaultQuietHandsSaturate(hands, zs);
    }
  }

  lemma QuietEyeInBand(eyes: Option<Eyes>, frame: FrameSize, sqrt: real -> real)
    requires IsSqrt(sqrt)
    ensures 70.0 <= EyeRaw(DefaultConfig, eyes, frame, sqrt, 0.0, 0.0, 0.0).value <= 95.0
  {
    if eyes.Some? {
      assert EyeUsable(DefaultConfig);
    }
  }

  /** Smoothing a raw score that lies in `[lo, hi]` keeps a value in `[lo, hi]` there. */
  lemma SmoothStaysInBand(t: Track, raw: real, lo: real, hi: real)
    requires lo <= t.last <= hi && lo <= raw <= hi
    ensures lo <= Smooth(t, raw).last <= hi
  {
    if |t.history| > 0 {
      SmoothingBetween(t, raw);
    }
  }

  lemma QuietFrameAppendsInBandRow(a: Analyzer, rows: seq<FrameRow>, o: Observation, sqrt: real -> real)
    requires IsSqrt(sqrt)
    requires a.config == DefaultConfig && InBand(a)
    ensures InBand(ProcessFrame(a, rows, o, Quiet(), sqrt).0)
    ensures ProcessFrame(a, rows, o, Quiet(), sqrt).0.config == DefaultConfig
    ensures |ProcessFrame(a, rows, o, Quiet(), sqrt).1| == |rows| + 1
    ensures ProcessFrame(a, rows, o, Quiet(), sqrt).1[..|rows|] == rows
    ensures RowInBand(ProcessFrame(a, rows, o, Quiet(), sqrt).1[|rows|])
  {
    var d := Quiet();
    assert forall i :: d.hands(i) == 0.0;
    assert d.posture == d.gestureTime == d.gesture == d.eyeBand == d.eyeMove == d.eye == 0.0;
    QuietPostureInBand(o.pose);
    QuietGestureInBand(o.hands, d.hands);
    QuietEyeInBand(o.eyes, o.frame, sqrt);
    var pr := PostureRaw(DefaultConfig, o.pose, 0.0);
    SmoothStaysInBand(a.posture, pr.value, 50.0, 98.0);
    var p := AnalyzePosture(a, o.pose, 0.0);
    var gr := GestureRaw(DefaultConfig, o.hands, d.hands, 0.0, 0.0);
    SmoothStaysInBand(p.next.gesture, gr.value.value, 60.0, 95.0);
    var g := AnalyzeGestures(p.next, o.hands, d.hands, 0.0, 0.0);
    var er := EyeRaw(DefaultConfig, o.eyes, o.frame, sqrt, 0.0, 0.0, 0.0);
    SmoothStaysInBand(g.value.next.eye, er.value, 70.0, 95.0);
    var e := AnalyzeEyeContact(g.value.next, o.eyes, o.frame, sqrt, 0.0, 0.0, 0.0);
    assert ProcessFrame(a, rows, o, d, sqrt).0 == e.next;
  }

  lemma QuietFrameStaysInBand(a: Analyzer, rows: seq<FrameRow>, o: Observation, sqrt: real -> real)
    requires IsSqrt(sqrt)
    requires a.config == DefaultConfig && InBand(a)
    requires forall i :: 0 <= i < |rows| ==> RowInBand(rows[i])
    ensures InBand(ProcessFrame(a, rows, o, Quiet(), sqrt).0)
    ensures ProcessFrame(a, rows, o, Quiet(), sqrt).0.config == DefaultConfig
    ensures forall i :: 0 <= i < |ProcessFrame(a, rows, o, Quiet(), sqrt).1| ==> RowInBand(ProcessFrame(a, rows, o, Quiet(), sqrt).1[i])
  {
    QuietFrameAppendsInBandRow(a, rows, o, sqrt);
    ExtendInBand(rows, ProcessFrame(a, rows, o, Quiet(), sqrt).1);
  }

  lemma ExtendInBand(rows: seq<FrameRow>, longer: seq<FrameRow>)
    requires forall i :: 0 <= i < |rows| ==> RowInBand(rows[i])
    requires |longer| == |rows| + 1 && longer[..|rows|] == rows && RowInBand(longer[|rows|])
    ensures forall i :: 0 <= i < |longer| ==> RowInBand(longer[i])
  {
    forall i | 0 <= i < |longer|
      ensures RowInBand(longer[i])
    {
      if i < |rows| {
        assert longer[i] == longer[..|rows|][i];
      }
    }
  }
}
