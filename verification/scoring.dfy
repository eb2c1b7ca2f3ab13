/** Vocabulary shared by every copy of the scoring pipeline: the per-frame
    score triple, the three-tier feedback rule (`if s < low … elif s < high …
    else …`) and the two ways the copies combine three scores into one. */
module Scoring {
  import opened Basics

  /** Posture, gesture and eye-contact scores of one frame. */
  datatype Scores = Scores(posture: real, gesture: real, eye: real)

  /** One entry of the session's `scores_history`: `[posture, gesture, eye, overall]`. */
  datatype FrameRow = FrameRow(posture: real, gesture: real, eye: real, overall: real)

  function Lowest(s: Scores): real
  {
    Min(s.posture, Min(s.gesture, s.eye))
  }

  function Highest(s: Scores): real
  {
    Max(s.posture, Max(s.gesture, s.eye))
  }

  /** The three feedback tiers: the red, yellow and green messages of the source. */
  datatype Tier = Red | Yellow | Green

  function Rank(t: Tier): nat
  {
    match t
    case Red => 0
    case Yellow => 1
    case Green => 2
  }

  /** `if s < low: red elif s < high: yellow else: green`. */
  function TierOf(s: real, low: real, high: real): (t: Tier)
    ensures t == Red <==> s < low
    ensures t == Yellow <==> low <= s < high
    ensures t == Green <==> low <= s && high <= s
  {
    if s < low then Red else if s < high then Yellow else Green
  }

  /** A higher score never earns a worse tier. */
  lemma TierMonotone(a: real, b: real, low: real, high: real)
    requires a <= b
    ensures Rank(TierOf(a, low, high)) <= Rank(TierOf(b, low, high))
  {
  }

  /** A score sitting exactly on a threshold gets the tier above it. */
  lemma TierBoundaryGoesUp(low: real, high: real)
    requires low < high
    ensures TierOf(low, low, high) == Yellow
    ensures TierOf(high, low, high) == Green
  {
  }

  /** The three messages one metric can produce. */
  datatype Messages = Messages(red: string, yellow: string, green: string)

  function Say(m: Messages, t: Tier): string
  {
    match t
    case Red => m.red
    case Yellow => m.yellow
    case Green => m.green
  }

  /** Thresholds and messages of one copy's `generate_feedback`. */
  datatype FeedbackRules = FeedbackRules(
    postureLow: real, postureHigh: real, postureText: Messages,
    gestureLow: real, gestureHigh: real, gestureText: Messages,
    eyeLow: real, eyeHigh: real, eyeText: Messages)

  /** `generate_feedback`: exactly one message per metric, in posture, gesture, eye order. */
  function Feedback(rules: FeedbackRules, s: Scores): (r: seq<string>)
    ensures |r| == 3
    ensures r[0] == Say(rules.postureText, TierOf(s.posture, rules.postureLow, rules.postureHigh))
    ensures r[1] == Say(rules.gestureText, TierOf(s.gesture, rules.gestureLow, rules.gestureHigh))
    ensures r[2] == Say(rules.eyeText, TierOf(s.eye, rules.eyeLow, rules.eyeHigh))
  {
    [ Say(rules.postureText, TierOf(s.posture, rules.postureLow, rules.postureHigh)),
      Say(rules.gestureText, TierOf(s.gesture, rules.gestureLow, rules.gestureHigh)),
      Say(rules.eyeText, TierOf(s.eye, rules.eyeLow, rules.eyeHigh)) ]
  }

  /** `(posture + gesture + eye) / 3`, the overall score of the camera copies. */
  function MeanOverall(s: Scores): (r: real)
    ensures Lowest(s) <= r <= Highest(s)
    ensures s.posture == s.gesture == s.eye ==> r == s.posture
  {
    (s.posture + s.gesture + s.eye) / 3.0
  }

  /** Weighted overall score; with non-negative weights summing to one it is a
      convex combination and stays between the lowest and highest input. */
  function WeightedOverall(s: Scores, wp: real, wg: real, we: real): (r: real)
    requires wp >= 0.0 && wg >= 0.0 && we >= 0.0 && wp + wg + we == 1.0
    ensures Lowest(s) <= r <= Highest(s)
  {
    Convex3(s.posture, s.gesture, s.eye, Lowest(s), Highest(s), wp, wg, we);
    s.posture * wp + s.gesture * wg + s.eye * we
  }

  /** A convex combination of three values lies between their bounds. */
  lemma Convex3(a: real, b: real, c: real, lo: real, hi: real, wa: real, wb: real, wc: real)
    requires wa >= 0.0 && wb >= 0.0 && wc >= 0.0 && wa + wb + wc == 1.0
    requires lo <= a <= hi && lo <= b <= hi && lo <= c <= hi
    ensures lo <= a * wa + b * wb + c * wc <= hi
  {
    var y := a * wa + b * wb + c * wc;
    NonNegProduct(a - lo, wa);
    NonNegProduct(b - lo, wb);
    NonNegProduct(c - lo, wc);
    NonNegProduct(hi - a, wa);
    NonNegProduct(hi - b, wb);
    NonNegProduct(hi - c, wc);
    assert y - lo == (a - lo) * wa + (b - lo) * wb + (c - lo) * wc;
    assert hi - y == (hi - a) * wa + (hi - b) * wb + (hi - c) * wc;
  }

  lemma NonNegProduct(x: real, w: real)
    requires x >= 0.0 && w >= 0.0
    ensures x * w >= 0.0
  {
  }
}
