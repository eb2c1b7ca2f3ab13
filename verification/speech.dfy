/** The audio-level speech analysis of the back-end service
    (src/BackEnd/services/speech_analyzer.py): speaking pace from words per
    minute, filler-word frequency over the transcript's tokens, pauses found
    by grouping silent frames, pitch variation, and the weighted engagement
    score. Transcription, the spectral-contrast and RMS-energy features and
    the pitch tracker are outside the model: their outputs are inputs here. */
module SpeechAnalysis {
  import opened Basics
  import opened Text
  import opened Landmarks

  const SampleRate: nat := 16000
  const HopLength: nat := 512

  // ---------------------------------------------------------------- pace

  /** Words per minute mapped onto a 0-1 pace score. */
  function Pace(wpm: real): (p: real)
    requires wpm >= 0.0
    ensures InUnit(p)
    ensures p == 0.0 <==> wpm == 0.0 || wpm >= 400.0
    ensures 80.0 <= wpm <= 200.0 ==> 0.5 <= p <= 0.9
    ensures 160.0 <= wpm <= 200.0 ==> p == 0.9
    ensures 120.0 <= wpm <= 160.0 ==> 0.7 <= p <= 0.9
    ensures wpm < 80.0 ==> p < 0.7
  {
    if wpm < 80.0 then Max(0.0, wpm / 120.0)
    else if wpm > 200.0 then Max(0.0, 2.0 - wpm / 200.0)
    else 0.7 + (Min(wpm, 160.0) - 120.0) / 40.0 * 0.2
  }

  /** The mapping is not monotone at either end of its middle band: one word
      per minute more drops the score at 80, and just past 200 it climbs
      above the 0.9 the ideal band earns. */
  lemma PaceBandEdges()
    ensures Pace(79.0) > Pace(80.0)
    ensures Pace(201.0) > Pace(160.0)
  {
  }

  /** Inside 80..200 the score grows with the pace up to 160 and then stays. */
  lemma PaceMonotoneInBand(a: real, b: real)
    requires 80.0 <= a <= b <= 200.0
    ensures Pace(a) <= Pace(b)
  {
  }

  // ---------------------------------------------------------------- fillers

  /** The analyser's filler words; the last-but-one holds a space. */
  const FillerWords: seq<string> := [
    "é", "tipo", "então", "sabe", "entende", "né", "tá", "assim",
    "bom", "bem", "olha", "veja", "digamos", "digamos" + " assim", "certo"]

  predicate IsFillerToken(w: string)
  {
    Lower(w) in FillerWords
  }

  /** `filler_count`: tokens whose lower-case form is a filler word. */
  function FillerCount(words: seq<string>): (n: nat)
    ensures n <= |words|
    ensures n == 0 <==> forall k :: 0 <= k < |words| ==> !IsFillerToken(words[k])
  {
    var flags := seq(|words|, k requires 0 <= k < |words| => IsFillerToken(words[k]));
    CountTrueExtremes(flags);
    assert forall k :: 0 <= k < |words| ==> (flags[k] <==> IsFillerToken(words[k]));
    CountTrue(flags)
  }

  /** Tokens come from a whitespace split, so the two-word filler never
      equals one of them. */
  lemma MultiWordFillerNeverMatches(text: string, k: nat)
    requires k < |Words(text)|
    ensures Lower(Words(text)[k]) != FillerWords[13]
  {
    var w := Words(text)[k];
    assert IsWord(w);
    var f := FillerWords[13];
    assert f[7] == ' ';
    if |w| == |f| {
      assert !IsSpace(w[7]);
      assert Lower(w)[7] == LowerChar(w[7]) != ' ';
    }
  }

  // ---------------------------------------------------------------- pauses

  /** Indices of the energy frames below the threshold, in order. */
  function SilentFrames(energy: seq<real>, threshold: real): (r: seq<nat>)
    ensures forall k :: 0 <= k < |r| ==> r[k] < |energy| && energy[r[k]] < threshold
    ensures forall j, k :: 0 <= j < k < |r| ==> r[j] < r[k]
    ensures forall i :: 0 <= i < |energy| && energy[i] < threshold ==> i in r
    ensures |r| <= |energy|
  {
    if |energy| == 0 then []
    else
      var n := |energy| - 1;
      SilentFrames(energy[..n], threshold) + (if energy[n] < threshold then [n] else [])
  }

  /** `silence_indices`: the start time in seconds of every frame whose RMS
      energy is below half the mean energy. */
  function SilenceTimes(energy: seq<real>): (r: seq<real>)
    ensures forall k :: 0 <= k < |r| ==> r[k] >= 0.0
    ensures forall j, k :: 0 <= j < k < |r| ==> r[j] < r[k]
    ensures |r| <= |energy|
  {
    if |energy| == 0 then []
    else
      var frames := SilentFrames(energy, Mean(energy) * 0.5);
      seq(|frames|, k requires 0 <= k < |frames| => frames[k] as real * (HopLength as real) / (SampleRate as real))
  }

  /** The largest gap between consecutive silent frames of one pause. */
  const MaxGap: real := 0.1
  /** The shortest span that counts as a pause. */
  const MinPause: real := 0.5

  /** Consecutive silent frames `k - 1` and `k` belong to one pause: the gap
      between them is at most `MaxGap`. */
  predicate Joined(t: seq<real>, k: nat)
    requires 0 < k < |t|
  {
    t[k] - t[k - 1] <= MaxGap
  }

  /** Where the run of silence containing position `i` starts: a new run
      begins after a gap above `MaxGap`. */
  function RunStart(t: seq<real>, i: nat): (s: nat)
    requires i < |t|
    ensures s <= i
  {
    if i == 0 then 0
    else if !Joined(t, i) then i
    else RunStart(t, i - 1)
  }

  /** Every duration exceeds `MinPause`. */
  predicate AllLong(r: seq<real>)
  {
    forall k :: 0 <= k < |r| ==> r[k] > MinPause
  }

  /** The pause measured over the run of frames `s..e`, when it is long enough. */
  function Span(t: seq<real>, s: nat, e: nat): (r: seq<real>)
    requires s <= e < |t|
    ensures AllLong(r)
  {
    var d := t[e] - t[s];
    if d > MinPause then [d] else []
  }

  /** The pause of the run ending at `e`. */
  function Long(t: seq<real>, e: nat): (r: seq<real>)
    requires e < |t|
    ensures AllLong(r)
  {
    Span(t, RunStart(t, e), e)
  }

  /** Pauses of the runs that ended before position `n - 1`. */
  function Closed(t: seq<real>, n: nat): (r: seq<real>)
    requires 1 <= n <= |t|
    ensures AllLong(r)
  {
    if n == 1 then []
    else Closed(t, n - 1) + (if !Joined(t, n - 1) then Long(t, n - 2) else [])
  }

  /** Durations of the pauses: every maximal run of silent frames without a
      gap above `MaxGap`, kept when it spans more than `MinPause`. */
  function Pauses(t: seq<real>): (r: seq<real>)
    ensures AllLong(r)
  {
    if |t| == 0 then [] else Closed(t, |t|) + Long(t, |t| - 1)
  }

  /** The grouping loop of the analyser. */
  method GroupPauses(t: seq<real>) returns (pauses: seq<real>)
    ensures pauses == Pauses(t)
    ensures AllLong(pauses)
  {
    pauses := [];
    if |t| > 0 {
      var pauseStart := t[0];
      for i := 1 to |t|
        invariant pauses == Closed(t, i)
        invariant pauseStart == t[RunStart(t, i - 1)]
      {
        pauses, pauseStart := GroupStep(t, i, pauses, pauseStart);
      }
      var pauseDuration := t[|t| - 1] - pauseStart;
      if pauseDuration > MinPause {
        pauses := pauses + [pauseDuration];
      }
      assert pauses == Closed(t, |t|) + Long(t, |t| - 1);
    }
  }

  /** One frame of the grouping loop: a gap closes the current run. */
  method GroupStep(t: seq<real>, i: nat, pauses: seq<real>, pauseStart: real) returns (pauses': seq<real>, pauseStart': real)
    requires 1 <= i < |t|
    requires pauses == Closed(t, i) && pauseStart == t[RunStart(t, i - 1)]
    ensures pauses' == Closed(t, i + 1) && pauseStart' == t[RunStart(t, i)]
  {
    pauses', pauseStart' := pauses, pauseStart;
    if t[i] - t[i - 1] > MaxGap {
      var pauseDuration := t[i - 1] - pauseStart;
      if pauseDuration > MinPause {
        pauses' := pauses + [pauseDuration];
      }
      pauseStart' := t[i];
    }
  }

  /** Silence with no gap above `MaxGap` is one pause, kept when it is long enough. */
  lemma ContinuousSilenceIsOnePause(t: seq<real>)
    requires |t| > 0
    requires forall k :: 0 < k < |t| ==> Joined(t, k)
    ensures Pauses(t) == Span(t, 0, |t| - 1)
  {
    NoGapPrefix(t, |t|, |t|);
    RunStartIsZero(t, |t| - 1);
  }

  /** Silence broken by one gap above `MaxGap` is measured as two separate
      pauses, one on each side, never one spanning the gap. */
  lemma GapSplitsPauses(t: seq<real>, n: nat)
    requires 0 < n < |t|
    requires !Joined(t, n)
    requires forall k :: 0 < k < |t| && k != n ==> Joined(t, k)
    ensures Pauses(t) == Span(t, 0, n - 1) + Span(t, n, |t| - 1)
  {
    FirstRunBeforeGap(t, n);
    LastRunAfterGap(t, n);
  }

  /** The run before the first gap is closed by it. */
  lemma FirstRunBeforeGap(t: seq<real>, n: nat)
    requires 0 < n < |t|
    requires !Joined(t, n)
    requires forall k :: 0 < k < n ==> Joined(t, k)
    ensures Closed(t, n + 1) == Span(t, 0, n - 1)
  {
    NoGapPrefix(t, n, n);
    RunStartIsZero(t, n - 1);
    assert Long(t, n - 1) == Span(t, 0, n - 1);
    assert Closed(t, n + 1) == Closed(t, n) + Long(t, n - 1);
  }

  /** After the last gap nothing more is closed, and the open run starts at it. */
  lemma LastRunAfterGap(t: seq<real>, n: nat)
    requires 0 < n < |t|
    requires !Joined(t, n)
    requires forall k :: n < k < |t| ==> Joined(t, k)
    ensures Closed(t, |t|) == Closed(t, n + 1)
    ensures Long(t, |t| - 1) == Span(t, n, |t| - 1)
  {
    ClosedAfterGap(t, n, |t|);
    RunStartFrom(t, n, |t| - 1);
  }

  lemma {:induction false} RunStartIsZero(t: seq<real>, i: nat)
    requires i < |t|
    requires forall k :: 0 < k <= i ==> Joined(t, k)
    ensures RunStart(t, i) == 0
    decreases i
  {
    if i > 0 {
      RunStartIsZero(t, i - 1);
    }
  }

  lemma {:induction false} RunStartFrom(t: seq<real>, s: nat, i: nat)
    requires 0 < s <= i < |t|
    requires !Joined(t, s)
    requires forall k :: s < k <= i ==> Joined(t, k)
    ensures RunStart(t, i) == s
    decreases i
  {
    if i > s {
      RunStartFrom(t, s, i - 1);
    }
  }

  lemma {:induction false} NoGapPrefix(t: seq<real>, m: nat, n: nat)
    requires 1 <= n <= m <= |t|
    requires forall k :: 0 < k < m ==> Joined(t, k)
    ensures Closed(t, n) == []
    decreases n
  {
    if n > 1 {
      NoGapPrefix(t, m, n - 1);
    }
  }

  lemma {:induction false} ClosedAfterGap(t: seq<real>, s: nat, n: nat)
    requires 0 < s < n <= |t|
    requires forall k :: s < k < |t| ==> Joined(t, k)
    ensures Closed(t, n) == Closed(t, s + 1)
    decreases n
  {
    if n > s + 1 {
      ClosedAfterGap(t, s, n - 1);
    }
  }

  /** `pauses_avg_duration`: the mean pause, 0.0 without pauses. */
  function AveragePause(pauses: seq<real>): (r: real)
    requires AllLong(pauses)
    ensures |pauses| == 0 <==> r == 0.0
    ensures |pauses| > 0 ==> r > MinPause
  {
    if |pauses| == 0 then 0.0
    else
      MeanStrictlyAbove(pauses, MinPause);
      Mean(pauses)
  }

  lemma {:induction false} MeanStrictlyAbove(s: seq<real>, lo: real)
    requires |s| > 0
    requires forall k :: 0 <= k < |s| ==> s[k] > lo
    ensures Mean(s) > lo
  {
    SumAbove(s, lo);
    var n := |s| as real;
    assert Sum(s) > n * lo;
    assert Sum(s) / n > lo;
  }

  lemma {:induction false} SumAbove(s: seq<real>, lo: real)
    requires |s| > 0
    requires forall k :: 0 <= k < |s| ==> s[k] > lo
    ensures Sum(s) > (|s| as real) * lo
    decreases |s|
  {
    var p := s[..|s| - 1];
    if |p| > 0 {
      SumAbove(p, lo);
      assert (|s| as real) * lo == (|p| as real) * lo + lo;
    } else {
      assert Sum(p) == 0.0;
    }
  }

  // ---------------------------------------------------------------- pitch

  /** `pitch_variation`: the pitch standard deviation over 50 Hz, at most 1,
      and 0.0 when no frame has a positive pitch. */
  function PitchVariation(pitches: seq<real>, sqrt: real -> real): (v: real)
    requires IsSqrt(sqrt)
    ensures InUnit(v)
    ensures (forall k :: 0 <= k < |pitches| ==> pitches[k] <= 0.0) ==> v == 0.0
    ensures v == 1.0 <==> |Positives(pitches)| > 0 && Std(Positives(pitches), sqrt) >= 50.0
  {
    var voiced := Positives(pitches);
    if |voiced| == 0 then 0.0 else Min(1.0, Std(voiced, sqrt) / 50.0)
  }

  /** A monotone voice, every voiced frame at one pitch, has no variation. */
  lemma SteadyPitchHasNoVariation(pitches: seq<real>, f: real, sqrt: real -> real)
    requires IsSqrt(sqrt)
    requires forall k :: 0 <= k < |pitches| ==> pitches[k] == f || pitches[k] <= 0.0
    ensures PitchVariation(pitches, sqrt) == 0.0
  {
    var voiced := Positives(pitches);
    if |voiced| > 0 {
      assert forall k :: 0 <= k < |voiced| ==> voiced[k] == f;
      MeanBounds(voiced, f, f);
      var d := Deviations(voiced);
      assert forall k :: 0 <= k < |d| ==> d[k] == 0.0;
      MeanBounds(d, 0.0, 0.0);
    }
  }

  // ---------------------------------------------------------------- engagement

  /** `engagement_score`: clarity 0.3, pace 0.2, absence of fillers 0.2,
      pauses per minute (over 10, at most 1) 0.1, pitch variation 0.2. */
  function Engagement(clarity: real, pace: real, fillerFrequency: real, pausesPerMinute: real, pitch: real): (e: real)
    requires InUnit(pace) && InUnit(fillerFrequency) && pausesPerMinute >= 0.0 && InUnit(pitch)
    ensures 0.3 * clarity <= e <= 0.3 * clarity + 0.7
    ensures e == 0.3 * clarity + 0.7 <==> (pace == 1.0 && fillerFrequency == 0.0 && pausesPerMinute >= 10.0 && pitch == 1.0)
    ensures e == 0.3 * clarity <==> (pace == 0.0 && fillerFrequency == 1.0 && pausesPerMinute == 0.0 && pitch == 0.0)
  {
    clarity * 0.3 + pace * 0.2 + (1.0 - fillerFrequency) * 0.2 + Min(1.0, pausesPerMinute / 10.0) * 0.1 + pitch * 0.2
  }

  /** The weights add up to one: every component at its best scores exactly 1. */
  lemma EngagementWeightsSumToOne()
    ensures Engagement(1.0, 1.0, 0.0, 10.0, 1.0) == 1.0
  {
  }

  // ---------------------------------------------------------------- the analysis

  /** What the analysis reads: the number of audio samples at 16 kHz, the
      transcript, the mean spectral contrast, the RMS energy per frame and
      the strongest pitch per frame. */
  datatype Audio = Audio(samples: nat, transcription: string, contrast: real,
                         energy: seq<real>, pitches: seq<real>)

  datatype SpeechMetrics = SpeechMetrics(
    clarity: real, pace: real, wordsPerMinute: real,
    fillerCount: nat, fillerFrequency: real,
    pausesCount: nat, pausesAverage: real, pausesFrequency: real,
    pitchVariation: real, engagement: real, transcription: string)

  /** A count per minute of audio: `count / (samples / 16000 / 60)`. */
  function PerMinute(count: nat, samples: nat): (r: real)
    requires samples > 0
    ensures r >= 0.0
    ensures r * (samples as real) == (count * 60 * SampleRate) as real
    ensures r == 0.0 <==> count == 0
  {
    var minutes := samples as real / SampleRate as real / 60.0;
    assert minutes == samples as real / 960000.0;
    var r := count as real / minutes;
    DivideBack(count as real, minutes, r);
    r
  }

  /** The metrics of non-empty audio. */
  function Metrics(a: Audio, sqrt: real -> real): (m: SpeechMetrics)
    requires IsSqrt(sqrt) && a.samples > 0
    ensures m.clarity == a.contrast / 20.0 + 0.5
    ensures m.wordsPerMinute == PerMinute(|Words(a.transcription)|, a.samples)
    ensures InUnit(m.pace) && InUnit(m.fillerFrequency) && InUnit(m.pitchVariation)
    ensures m.fillerCount <= |Words(a.transcription)|
    ensures m.fillerCount == 0 <==> forall k :: 0 <= k < |Words(a.transcription)| ==> !IsFillerToken(Words(a.transcription)[k])
    ensures m.pausesCount == |Pauses(SilenceTimes(a.energy))|
    ensures m.pausesCount == 0 <==> m.pausesAverage == 0.0
    ensures m.pausesFrequency == PerMinute(m.pausesCount, a.samples)
    ensures 0.3 * m.clarity <= m.engagement <= 0.3 * m.clarity + 0.7
    ensures m.transcription == a.transcription
  {
    var words := Words(a.transcription);
    var wpm := PerMinute(|words|, a.samples);
    var fillers := FillerCount(words);
    var frequency := Share(fillers, |words|);
    var pauses := Pauses(SilenceTimes(a.energy));
    var perMinute := PerMinute(|pauses|, a.samples);
    var pitch := PitchVariation(a.pitches, sqrt);
    var clarity := a.contrast / 20.0 + 0.5;
    var pace := Pace(wpm);
    SpeechMetrics(clarity, pace, wpm, fillers, frequency,
                  |pauses|, AveragePause(pauses), perMinute,
                  pitch, Engagement(clarity, pace, frequency, perMinute, pitch),
                  a.transcription)
  }

  /** `_analyze_speech_metrics`. Empty audio has duration 0, and the words
      per minute then divide by zero. */
  function AnalyzeSpeech(a: Audio, sqrt: real -> real): (r: Result<SpeechMetrics>)
    requires IsSqrt(sqrt)
    ensures r.Err? <==> a.samples == 0
    ensures r.Err? ==> r.error == "float division by zero"
    ensures r.Ok? ==> r.value == Metrics(a, sqrt)
  {
    if a.samples == 0 then Err("float division by zero") else Ok(Metrics(a, sqrt))
  }
}
