/** The offline posture trainer of app/posture_analyzer_trainer.py: collected
    samples become labelled five-metric feature vectors, the good and bad
    samples' percentiles suggest per-metric thresholds, and those thresholds
    are written into an optimized analyser configuration.  The percentile
    and the square root are numpy's and are taken as parameters; model
    fitting, plotting and file output are left out. */
module PostureTraining {
  import opened Basics
  import opened Landmarks
  import opened TrainingCollection
  import opened LenientScoring

  /** A loaded sample: the folder it came from and its metrics. */
  datatype LabelledSample = LabelledSample(postureType: string, metrics: Metrics)

  /** The numeric label of a folder name: good 2, neutral 1, anything else 0. */
  function LabelOf(postureType: string): (r: nat)
    ensures r <= 2
    ensures r == 2 <==> postureType == "good_posture"
    ensures r == 1 <==> postureType == "neutral_posture"
  {
    if postureType == "good_posture" then 2
    else if postureType == "neutral_posture" then 1
    else 0
  }

  /** The five metrics in training order. */
  function FeatureVector(m: Metrics): (v: seq<real>)
    ensures |v| == 5
  {
    [m.shoulderAngle, m.hipAngle, m.spineAlignment, m.shoulderWidth, m.hipWidth]
  }

  /** Reading a training row back as metrics. */
  function MetricsOfVector(v: seq<real>): Metrics
    requires |v| == 5
  {
    Metrics(v[0], v[1], v[2], v[3], v[4])
  }

  /** A feature vector loses nothing of the metrics it was built from. */
  lemma FeatureVectorRoundTrip(m: Metrics)
    ensures MetricsOfVector(FeatureVector(m)) == m
  {
  }

  /** `prepare_features`: one row and one label per sample, in sample order. */
  function PrepareFeatures(data: seq<LabelledSample>): (r: (seq<seq<real>>, seq<nat>))
    ensures |r.0| == |r.1| == |data|
    ensures forall k | 0 <= k < |data| :: |r.0[k]| == 5 && MetricsOfVector(r.0[k]) == data[k].metrics
    ensures forall k | 0 <= k < |data| :: r.1[k] == 2 <==> data[k].postureType == "good_posture"
    ensures forall k | 0 <= k < |data| :: r.1[k] == 1 <==> data[k].postureType == "neutral_posture"
    ensures forall k | 0 <= k < |data| :: r.1[k] <= 2
  {
    (seq(|data|, k requires 0 <= k < |data| => FeatureVector(data[k].metrics)),
     seq(|data|, k requires 0 <= k < |data| => LabelOf(data[k].postureType)))
  }

  /** Preparing two batches separately gives the rows and labels of the
      whole, in order. */
  lemma PrepareFeaturesConcat(a: seq<LabelledSample>, b: seq<LabelledSample>)
    ensures PrepareFeatures(a + b) == (PrepareFeatures(a).0 + PrepareFeatures(b).0,
                                       PrepareFeatures(a).1 + PrepareFeatures(b).1)
  {
    var whole := PrepareFeatures(a + b);
    var pa := PrepareFeatures(a);
    var pb := PrepareFeatures(b);
    assert whole.0 == pa.0 + pb.0 by {
      forall k | 0 <= k < |a + b| ensures whole.0[k] == (pa.0 + pb.0)[k] {
        if k >= |a| {
          assert (a + b)[k] == b[k - |a|];
        }
      }
    }
    assert whole.1 == pa.1 + pb.1 by {
      forall k | 0 <= k < |a + b| ensures whole.1[k] == (pa.1 + pb.1)[k] {
        if k >= |a| {
          assert (a + b)[k] == b[k - |a|];
        }
      }
    }
  }

  /** The metrics of the samples of one folder, in order. */
  function OfType(data: seq<LabelledSample>, postureType: string): (r: seq<Metrics>)
    ensures |r| <= |data|
    ensures |r| == 0 <==> forall k | 0 <= k < |data| :: data[k].postureType != postureType
  {
    if |data| == 0 then []
    else
      var front := OfType(data[..|data| - 1], postureType);
      assert forall k | 0 <= k < |data| - 1 :: data[..|data| - 1][k] == data[k];
      front + (if data[|data| - 1].postureType == postureType then [data[|data| - 1].metrics] else [])
  }

  /** The three metrics thresholds are suggested for. */
  datatype MetricName = ShoulderAngle | HipAngle | SpineAlignment

  function Value(m: Metrics, n: MetricName): real
  {
    match n
    case ShoulderAngle => m.shoulderAngle
    case HipAngle => m.hipAngle
    case SpineAlignment => m.spineAlignment
  }

  function Values(ms: seq<Metrics>, n: MetricName): (r: seq<real>)
    ensures |r| == |ms| && forall k | 0 <= k < |ms| :: r[k] == Value(ms[k], n)
  {
    seq(|ms|, k requires 0 <= k < |ms| => Value(ms[k], n))
  }

  /** What is needed of `np.percentile(values, q)`: on a non-empty list it
      lies between the smallest and the largest value. */
  ghost predicate IsPercentile(pct: (seq<real>, real) -> real)
  {
    forall s: seq<real>, q: real {:trigger pct(s, q)} :: |s| > 0 ==> Smallest(s) <= pct(s, q) <= Largest(s)
  }

  datatype ThresholdStats = ThresholdStats(
    suggested: real, goodP95: real, badP5: real, neutralP50: real,
    goodMean: real, badMean: real, goodStd: real, badStd: real)

  /** The statistics of one metric over the good, bad and neutral values:
      the threshold halfway between the good 95th and the bad 5th
      percentiles, the neutral median or that midpoint without neutral
      data, and the means and population deviations. */
  function MetricStats(good: seq<real>, bad: seq<real>, neutral: seq<real>,
                       pct: (seq<real>, real) -> real, sqrt: real -> real): (t: ThresholdStats)
    requires |good| > 0 && |bad| > 0 && IsSqrt(sqrt)
    ensures t.goodP95 == pct(good, 95.0) && t.badP5 == pct(bad, 5.0)
    ensures t.suggested - t.goodP95 == t.badP5 - t.suggested
    ensures |neutral| == 0 ==> t.neutralP50 == t.suggested
    ensures |neutral| > 0 ==> t.neutralP50 == pct(neutral, 50.0)
    ensures AverageOf(t.goodMean, good) && AverageOf(t.badMean, bad)
    ensures t.goodStd >= 0.0 && t.badStd >= 0.0
  {
    var goodP95 := pct(good, 95.0);
    var badP5 := pct(bad, 5.0);
    var midpoint := (goodP95 + badP5) / 2.0;
    ThresholdStats(midpoint, goodP95, badP5, if |neutral| > 0 then pct(neutral, 50.0) else midpoint,
                   MeanOrZero(good), MeanOrZero(bad), Std(good, sqrt), Std(bad, sqrt))
  }

  /** The suggested threshold never leaves the range of the values seen. */
  lemma SuggestionWithinObservedRange(good: seq<real>, bad: seq<real>, neutral: seq<real>,
                                      pct: (seq<real>, real) -> real, sqrt: real -> real)
    requires |good| > 0 && |bad| > 0 && IsSqrt(sqrt) && IsPercentile(pct)
    ensures var t := MetricStats(good, bad, neutral, pct, sqrt);
            Min(Smallest(good), Smallest(bad)) <= t.suggested <= Max(Largest(good), Largest(bad))
  {
    assert Smallest(good) <= pct(good, 95.0) <= Largest(good);
    assert Smallest(bad) <= pct(bad, 5.0) <= Largest(bad);
  }

  datatype Suggestions = Suggestions(shoulder: ThresholdStats, hip: ThresholdStats, spine: ThresholdStats)

  /** The statistics of one metric over the good, bad and neutral samples of `data`. */
  function StatsFor(data: seq<LabelledSample>, n: MetricName, pct: (seq<real>, real) -> real, sqrt: real -> real): ThresholdStats
    requires IsSqrt(sqrt)
    requires |OfType(data, "good_posture")| > 0 && |OfType(data, "bad_posture")| > 0
  {
    MetricStats(Values(OfType(data, "good_posture"), n), Values(OfType(data, "bad_posture"), n),
                Values(OfType(data, "neutral_posture"), n), pct, sqrt)
  }

  /** `analyze_thresholds`: nothing without both good and bad samples;
      otherwise the statistics of the shoulder, hip and spine metrics. */
  function AnalyzeThresholds(data: seq<LabelledSample>, pct: (seq<real>, real) -> real, sqrt: real -> real): (r: Option<Suggestions>)
    requires IsSqrt(sqrt)
    ensures r.None? <==> (forall k | 0 <= k < |data| :: data[k].postureType != "good_posture")
                         || (forall k | 0 <= k < |data| :: data[k].postureType != "bad_posture")
    ensures r.Some? ==> r.value.shoulder == StatsFor(data, ShoulderAngle, pct, sqrt)
                        && r.value.hip == StatsFor(data, HipAngle, pct, sqrt)
                        && r.value.spine == StatsFor(data, SpineAlignment, pct, sqrt)
  {
    if |OfType(data, "good_posture")| == 0 || |OfType(data, "bad_posture")| == 0 then None
    else Some(Suggestions(StatsFor(data, ShoulderAngle, pct, sqrt), StatsFor(data, HipAngle, pct, sqrt),
                          StatsFor(data, SpineAlignment, pct, sqrt)))
  }

  /** Neutral samples only move the neutral median: without them it is the
      suggested threshold itself. */
  lemma NoNeutralDataFallsBack(data: seq<LabelledSample>, pct: (seq<real>, real) -> real, sqrt: real -> real)
    requires IsSqrt(sqrt)
    requires forall k | 0 <= k < |data| :: data[k].postureType != "neutral_posture"
    requires AnalyzeThresholds(data, pct, sqrt).Some?
    ensures var s := AnalyzeThresholds(data, pct, sqrt).value;
            s.shoulder.neutralP50 == s.shoulder.suggested && s.hip.neutralP50 == s.hip.suggested
            && s.spine.neutralP50 == s.spine.suggested
  {
  }

  /** The written configuration: the analyser sections, the feedback
      thresholds, smoothing and weights. */
  datatype OptimizedConfig = OptimizedConfig(scoring: Config, feedback: Config, smoothing: Section, weights: Section)

  /** `save_optimized_config`: nothing for a missing analysis; otherwise the
      suggested thresholds with fixed score bands, tiers, smoothing and weights. */
  function SaveOptimizedConfig(s: Option<Suggestions>): (r: Option<OptimizedConfig>)
    ensures r.None? <==> s.None?
    ensures r.Some? ==>
              && Param(r.value.scoring, "posture", "shoulder_threshold") == Some(s.value.shoulder.suggested)
              && Param(r.value.scoring, "posture", "hip_threshold") == Some(s.value.hip.suggested)
              && Param(r.value.scoring, "posture", "spine_threshold") == Some(s.value.spine.suggested)
              && ScoreBandsOrdered(r.value.scoring)
              && TiersOrdered(r.value.feedback)
              && WeightsSumToOne(r.value.weights)
  {
    if s.None? then None
    else
      var t := s.value;
      var scoring := map["posture" := PostureSection(t), "gesture" := GestureSection, "eye_contact" := EyeSection];
      var feedback := map["posture" := PostureTiers, "gesture" := GestureTiers, "eye_contact" := EyeTiers];
      FixedSectionsOrdered();
      BandsBySection(scoring);
      TiersBySection(feedback);
      assert Param(scoring, "posture", "shoulder_threshold") == Some(t.shoulder.suggested);
      Some(OptimizedConfig(scoring, feedback, map["factor" := 0.6, "history_size" := 15.0], OptimizedWeights))
  }

  /** A section whose score band has `min_score < max_score`. */
  predicate BandOrdered(sec: Section)
  {
    "min_score" in sec && "max_score" in sec && sec["min_score"] < sec["max_score"]
  }

  /** A feedback section with `poor < good`. */
  predicate TierOrdered(sec: Section)
  {
    "poor" in sec && "good" in sec && sec["poor"] < sec["good"]
  }

  /** The written posture section: the suggested thresholds and a 15-95 band. */
  function PostureSection(t: Suggestions): (sec: Section)
    ensures "shoulder_threshold" in sec && sec["shoulder_threshold"] == t.shoulder.suggested
    ensures "hip_threshold" in sec && sec["hip_threshold"] == t.hip.suggested
    ensures "spine_threshold" in sec && sec["spine_threshold"] == t.spine.suggested
    ensures BandOrdered(sec)
  {
    map["shoulder_threshold" := t.shoulder.suggested, "hip_threshold" := t.hip.suggested,
        "spine_threshold" := t.spine.suggested, "variation_factor" := 1.0,
        "min_score" := 15.0, "max_score" := 95.0]
  }

  const GestureSection: Section := map[
    "movement_threshold_low" := 0.015, "movement_threshold_high" := 0.035,
    "base_score_no_hands" := 35.0, "variation_factor" := 1.0,
    "min_score" := 20.0, "max_score" := 90.0]
  const EyeSection: Section := map[
    "center_tolerance" := 0.25, "movement_factor" := 1.5, "variation_factor" := 1.0,
    "min_score" := 25.0, "max_score" := 90.0]
  const PostureTiers: Section := map["poor" := 45.0, "good" := 75.0]
  const GestureTiers: Section := map["poor" := 30.0, "good" := 60.0]
  const EyeTiers: Section := map["poor" := 40.0, "good" := 70.0]
  const OptimizedWeights: Section := map["posture" := 0.35, "gesture" := 0.3, "eye_contact" := 0.35]

  /** The fixed sections of the written configuration are ordered and the weights add up to 1. */
  lemma FixedSectionsOrdered()
    ensures BandOrdered(GestureSection) && BandOrdered(EyeSection)
    ensures TierOrdered(PostureTiers) && TierOrdered(GestureTiers) && TierOrdered(EyeTiers)
    ensures WeightsSumToOne(OptimizedWeights)
  {
  }

  /** A configuration is band-ordered when each of its three sections is. */
  lemma BandsBySection(cfg: Config)
    requires forall k | 0 <= k < |Sections| :: Sections[k] in cfg && BandOrdered(cfg[Sections[k]])
    ensures ScoreBandsOrdered(cfg)
  {
  }

  /** Feedback tiers are ordered when each of the three sections' tiers is. */
  lemma TiersBySection(feedback: Config)
    requires forall k | 0 <= k < |Sections| :: Sections[k] in feedback && TierOrdered(feedback[Sections[k]])
    ensures TiersOrdered(feedback)
  {
  }

  /** The three scored sections. */
  const Sections: seq<string> := ["posture", "gesture", "eye_contact"]

  /** Every scored section has a score band with `min_score < max_score`. */
  predicate ScoreBandsOrdered(cfg: Config)
  {
    forall k | 0 <= k < |Sections| ::
      && Param(cfg, Sections[k], "min_score").Some? && Param(cfg, Sections[k], "max_score").Some?
      && Param(cfg, Sections[k], "min_score").value < Param(cfg, Sections[k], "max_score").value
  }

  /** Every scored section has feedback tiers with `poor < good`. */
  predicate TiersOrdered(feedback: Config)
  {
    forall k | 0 <= k < |Sections| ::
      && Param(feedback, Sections[k], "poor").Some? && Param(feedback, Sections[k], "good").Some?
      && Param(feedback, Sections[k], "poor").value < Param(feedback, Sections[k], "good").value
  }

  /** The three section weights are present and add up to 1. */
  predicate WeightsSumToOne(w: Section)
  {
    "posture" in w && "gesture" in w && "eye_contact" in w
    && w["posture"] + w["gesture"] + w["eye_contact"] == 1.0
  }

  /** Loading the written analyser sections over the defaults
      (`update_config`) puts the suggested thresholds in force and keeps
      every score band ordered. */
  lemma SavedConfigTakesEffect(s: Suggestions)
    ensures var cfg := UpdateConfig(DefaultConfig, SaveOptimizedConfig(Some(s)).value.scoring);
            && Param(cfg, "posture", "shoulder_threshold") == Some(s.shoulder.suggested)
            && Param(cfg, "posture", "spine_threshold") == Some(s.spine.suggested)
            && ScoreBandsOrdered(cfg)
  {
    var written := SaveOptimizedConfig(Some(s)).value.scoring;
    var cfg := UpdateConfig(DefaultConfig, written);
    assert cfg["posture"] == written["posture"] && cfg["gesture"] == written["gesture"];
    assert cfg["eye_contact"] == written["eye_contact"];
  }
}
