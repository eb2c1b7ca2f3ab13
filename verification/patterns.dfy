/** The offline analyser of src/back-end/analyze.py: trends and peaks in a
    list of per-frame metric records, word statistics of a transcript, a
    readability score, and the rule table that turns both into insights.

    Dictionary lookups with a default (`m.get('nervousness_score', 0)`) are
    `Option` fields read with `GetOr`. The AI feedback request at the end of
    `generate_insights` is a network call and is not part of this model. */
module PatternAnalysis {
  import opened Basics
  import opened Text

  // ---------------------------------------------------------------- nervousness patterns

  /** One record of the metrics list; a missing key is `None`. */
  datatype MetricRecord = MetricRecord(nervousness: Option<real>, blinkRate: Option<real>, handMovement: Option<real>)

  datatype Trend = Improving | Worsening | Stable

  datatype NervousnessPatterns = NervousnessPatterns(
    overall: real, recent: real, trend: Trend,
    peaks: seq<nat>, highBlinks: seq<nat>, excessiveMovement: seq<nat>)

  /** The positions of `s` whose value exceeds `t`, in increasing order:
      `[i for i, v in enumerate(s) if v > t]`. */
  function Above(s: seq<real>, t: real): (r: seq<nat>)
    ensures forall k :: 0 <= k < |r| ==> r[k] < |s| && s[r[k]] > t
    ensures forall k, m :: 0 <= k < m < |r| ==> r[k] < r[m]
    ensures |r| <= |s|
  {
    if |s| == 0 then []
    else
      var n := |s| - 1;
      Above(s[..n], t) + (if s[n] > t then [n] else [])
  }

  /** Every position over the threshold is listed. */
  lemma {:induction false} AboveComplete(s: seq<real>, t: real, i: nat)
    requires i < |s| && s[i] > t
    ensures i in Above(s, t)
    decreases |s|
  {
    var n := |s| - 1;
    if i < n {
      AboveComplete(s[..n], t, i);
    }
  }

  function Nervousness(ms: seq<MetricRecord>): (r: seq<real>)
    ensures |r| == |ms|
  {
    seq(|ms|, i requires 0 <= i < |ms| => ms[i].nervousness.GetOr(0.0))
  }

  function BlinkRates(ms: seq<MetricRecord>): (r: seq<real>)
    ensures |r| == |ms|
  {
    seq(|ms|, i requires 0 <= i < |ms| => ms[i].blinkRate.GetOr(0.0))
  }

  function HandMovements(ms: seq<MetricRecord>): (r: seq<real>)
    ensures |r| == |ms|
  {
    seq(|ms|, i requires 0 <= i < |ms| => ms[i].handMovement.GetOr(0.0))
  }

  /** `sum(s[-10:]) / min(10, len(s))`. */
  function RecentAverage(s: seq<real>): (r: real)
    requires |s| > 0
    ensures |s| <= 10 ==> r == Mean(s)
  {
    Sum(TakeLast(s, 10)) / (MinNat(10, |s|) as real)
  }

  /** `analyze_nervousness_patterns`: `None` for the empty list (`{}`). */
  function NervousnessPatternsOf(ms: seq<MetricRecord>): (r: Option<NervousnessPatterns>)
    ensures r.None? <==> |ms| == 0
    ensures r.Some? ==> |ms| == 1 ==> r.value.trend == Stable && r.value.recent == r.value.overall == Nervousness(ms)[0]
    ensures r.Some? ==> |ms| > 1 ==> (r.value.trend == Improving <==> r.value.recent < r.value.overall)
    ensures r.Some? ==> (r.value.trend != Stable <==> |ms| > 1)
    ensures r.Some? ==> r.value.overall == Mean(Nervousness(ms))
  {
    if |ms| == 0 then None
    else
      var scores := Nervousness(ms);
      assert |scores| == 1 ==> Sum(scores) == scores[0] by {
        if |scores| == 1 { assert scores[..0] == []; }
      }
      var recent := if |scores| > 1 then RecentAverage(scores) else scores[0];
      var overall := if |scores| > 1 then Mean(scores) else recent;
      var trend := if |scores| <= 1 then Stable else if recent < overall then Improving else Worsening;
      Some(NervousnessPatterns(overall, recent, trend, Above(scores, 0.7),
                               Above(BlinkRates(ms), 20.0), Above(HandMovements(ms), 0.5)))
  }

  /** With ten or fewer records the recent window is the whole list, so the two
      averages coincide and the trend can only read "piorando". */
  lemma ShortHistoryNeverImproves(ms: seq<MetricRecord>)
    requires 1 < |ms| <= 10
    ensures NervousnessPatternsOf(ms).value.trend == Worsening
  {
  }

  /** The three index lists hold exactly the frames over their thresholds. */
  lemma PatternListsExact(ms: seq<MetricRecord>, i: nat)
    requires i < |ms|
    ensures i in NervousnessPatternsOf(ms).value.peaks <==> ms[i].nervousness.GetOr(0.0) > 0.7
    ensures i in NervousnessPatternsOf(ms).value.highBlinks <==> ms[i].blinkRate.GetOr(0.0) > 20.0
    ensures i in NervousnessPatternsOf(ms).value.excessiveMovement <==> ms[i].handMovement.GetOr(0.0) > 0.5
  {
    var p := NervousnessPatternsOf(ms).value;
    assert p.peaks == Above(Nervousness(ms), 0.7);
    assert p.highBlinks == Above(BlinkRates(ms), 20.0);
    assert p.excessiveMovement == Above(HandMovements(ms), 0.5);
    assert Nervousness(ms)[i] == ms[i].nervousness.GetOr(0.0);
    assert BlinkRates(ms)[i] == ms[i].blinkRate.GetOr(0.0);
    assert HandMovements(ms)[i] == ms[i].handMovement.GetOr(0.0);
    if ms[i].nervousness.GetOr(0.0) > 0.7 { AboveComplete(Nervousness(ms), 0.7, i); }
    if ms[i].blinkRate.GetOr(0.0) > 20.0 { AboveComplete(BlinkRates(ms), 20.0, i); }
    if ms[i].handMovement.GetOr(0.0) > 0.5 { AboveComplete(HandMovements(ms), 0.5, i); }
  }

  // ---------------------------------------------------------------- speech patterns

  /** The transcript dictionary: `text` and `duration`, either possibly missing. */
  datatype Transcript = Transcript(text: Option<string>, duration: Option<real>)

  datatype SpeechPatterns = SpeechPatterns(
    wordCount: nat, sentenceCount: nat, averageSentenceLength: real,
    fillerCount: nat, fillerRate: real, wpm: real,
    repeated: map<string, nat>, readability: real)

  const FillerWords: seq<string> := ["né", "então", "tipo", "assim", "bem", "eh", "ah", "um", "uma"]

  predicate IsEdgePunct(c: char)
  {
    c == '.' || c == ',' || c == '!' || c == '?'
  }

  /** `word.lower().strip('.,!?')`. */
  function Clean(w: string): string
  {
    Trim(Lower(w), IsEdgePunct)
  }

  predicate IsFiller(w: string)
  {
    Clean(w) in FillerWords
  }

  /** How many tokens clean to `w`. */
  function CountClean(words: seq<string>, w: string): (r: nat)
    ensures r <= |words|
  {
    if |words| == 0 then 0
    else CountClean(words[..|words| - 1], w) + (if Clean(words[|words| - 1]) == w then 1 else 0)
  }

  /** The `word_freq` dictionary: cleaned tokens longer than three characters. */
  function Frequencies(words: seq<string>): (r: map<string, nat>)
    ensures forall w :: w in r <==> |w| > 3 && CountClean(words, w) > 0
    ensures forall w :: w in r ==> r[w] == CountClean(words, w)
  {
    if |words| == 0 then map[]
    else
      var m := Frequencies(words[..|words| - 1]);
      var c := Clean(words[|words| - 1]);
      if |c| > 3 then m[c := (if c in m then m[c] else 0) + 1] else m
  }

  /** `repeated_words`: the cleaned tokens longer than three characters seen more than twice. */
  function Repeated(words: seq<string>): (r: map<string, nat>)
    ensures forall w :: w in r <==> |w| > 3 && CountClean(words, w) > 2
    ensures forall w :: w in r ==> r[w] == CountClean(words, w)
  {
    var f := Frequencies(words);
    map w | w in f && f[w] > 2 :: f[w]
  }

  /** The `.`-separated pieces that are not blank. */
  function SentenceCount(text: string): (r: nat)
  {
    CountWhere(SplitOn(text, '.'), (p: string) => !IsBlank(p))
  }

  function Lengths(words: seq<string>): (r: seq<real>)
    ensures |r| == |words|
  {
    seq(|words|, i requires 0 <= i < |words| => |words[i]| as real)
  }

  /** `_calculate_readability`: 0 without words or sentences, otherwise
      `100 - 5·(mean word length) - 2·(words per sentence)` clamped to [0, 100]. */
  function Readability(words: seq<string>, sentences: nat): (r: real)
    ensures 0.0 <= r <= 100.0
    ensures |words| == 0 || sentences == 0 ==> r == 0.0
  {
    if |words| == 0 || sentences == 0 then 0.0
    else Clamp(0.0, 100.0, 100.0 - Mean(Lengths(words)) * 5.0 - (|words| as real / sentences as real) * 2.0)
  }

  /** Split words are at least one character long and a sentence count is
      positive, so readability never reaches 95. */
  lemma ReadabilityBelow95(words: seq<string>, sentences: nat)
    requires forall k :: 0 <= k < |words| ==> IsWord(words[k])
    ensures Readability(words, sentences) < 95.0
  {
    if |words| > 0 && sentences > 0 {
      var ls := Lengths(words);
      assert AllIn(ls, 1.0, |words| as real + 1.0 + MaxLen(words)) by {
        forall i | 0 <= i < |ls| ensures 1.0 <= ls[i] <= |words| as real + 1.0 + MaxLen(words) {
          MaxLenBound(words, i);
        }
      }
      MeanBounds(ls, 1.0, |words| as real + 1.0 + MaxLen(words));
      assert (|words| as real / sentences as real) > 0.0;
    }
  }

  function MaxLen(words: seq<string>): (r: real)
    ensures r >= 0.0
  {
    if |words| == 0 then 0.0 else Max(MaxLen(words[..|words| - 1]), |words[|words| - 1]| as real)
  }

  lemma {:induction false} MaxLenBound(words: seq<string>, i: nat)
    requires i < |words|
    ensures |words[i]| as real <= MaxLen(words)
    decreases |words|
  {
    if i < |words| - 1 {
      MaxLenBound(words[..|words| - 1], i);
      assert words[..|words| - 1][i] == words[i];
    }
  }

  /** `count / total` for a part of a nonempty whole. */
  function Ratio(count: nat, total: nat): (r: real)
    requires 0 < total && count <= total
    ensures 0.0 <= r <= 1.0
    ensures r * (total as real) == count as real
  {
    var r := count as real / total as real;
    DivideBack(count as real, total as real, r);
    r
  }

  /** `analyze_speech_patterns`: an error for a missing text or one without
      words; otherwise the counts, rates and repetitions of its tokens. */
  function SpeechPatternsOf(t: Transcript): (r: Result<SpeechPatterns>)
    ensures t.text.None? ==> r == Err("Nenhuma transcrição disponível")
    ensures t.text.Some? ==> (r == Err("Texto vazio") <==> IsBlank(t.text.value))
    ensures r.Ok? ==> r.value.wordCount == |Words(t.text.value)| > 0
    ensures r.Ok? ==> r.value.fillerCount <= r.value.wordCount && 0.0 <= r.value.fillerRate <= 1.0
    ensures r.Ok? ==> r.value.fillerRate == Ratio(r.value.fillerCount, r.value.wordCount)
    ensures r.Ok? ==> r.value.fillerCount == CountWhere(Words(t.text.value), IsFiller)
    ensures r.Ok? ==> 0.0 <= r.value.readability <= 100.0
    ensures r.Ok? ==> forall w :: w in r.value.repeated <==> |w| > 3 && CountClean(Words(t.text.value), w) > 2
  {
    match t.text
    case None => Err("Nenhuma transcrição disponível")
    case Some(text) =>
      var words := Words(text);
      if |words| == 0 then Err("Texto vazio")
      else
        var n := |words|;
        var sentences := SentenceCount(text);
        var fillers := CountWhere(words, IsFiller);
        var duration := t.duration.GetOr(60.0);
        Ok(SpeechPatterns(
          n, sentences,
          if sentences > 0 then n as real / sentences as real else 0.0,
          fillers, Ratio(fillers, n),
          if duration > 0.0 then (n as real / duration) * 60.0 else 0.0,
          Repeated(words), Readability(words, sentences)))
  }

  // ---------------------------------------------------------------- insights

  /** The input of `generate_insights`: the metrics list and the transcript
      dictionary (`None` when missing or empty). */
  datatype SessionData = SessionData(metrics: seq<MetricRecord>, transcript: Option<Transcript>)

  datatype Insights = Insights(score: int, strengths: seq<string>, improvements: seq<string>, recommendations: seq<string>)

  const Calm := "Aparenta estar calmo e confiante"
  const ModerateNerves := "Nervosismo moderado detectado"
  const HighNerves := "Alto nível de nervosismo"
  const Breathe := "Pratique técnicas de respiração antes de apresentar"
  const Fluent := "Discurso fluido com poucas palavras de preenchimento"
  const ManyFillers := "Muitas palavras de preenchimento"
  const PauseInstead := "Pratique pausas silenciosas em vez de 'eh', 'né', etc."
  const GoodPace := "Ritmo de fala adequado"
  const SpeedUp := "Tente falar um pouco mais rápido"
  const SlowDown := "Diminua o ritmo da fala para melhor compreensão"
  const Clear := "Linguagem clara e acessível"

  /** The nervousness rules: points, strength, improvement and recommendation. */
  function NerveRule(recent: real): (r: (int, seq<string>, seq<string>, seq<string>))
    ensures r.0 in {0, 15, 30}
    ensures r.0 == 30 <==> recent < 0.3
    ensures |r.1| + |r.2| == 1 && |r.3| <= 1
    ensures Calm in r.1 <==> recent < 0.3
    ensures ModerateNerves in r.2 <==> 0.3 <= recent < 0.6
    ensures HighNerves in r.2 <==> recent >= 0.6
    ensures Breathe in r.3 <==> recent >= 0.6
    ensures forall m :: m in r.1 ==> m == Calm
    ensures forall m :: m in r.2 ==> m in [ModerateNerves, HighNerves]
    ensures forall m :: m in r.3 ==> m == Breathe
  {
    if recent < 0.3 then (30, [Calm], [], [])
    else if recent < 0.6 then (15, [], [ModerateNerves], [])
    else (0, [], [HighNerves], [Breathe])
  }

  /** The speech rules: filler rate, pace and readability. */
  function SpeechRule(sp: SpeechPatterns): (r: (int, seq<string>, seq<string>, seq<string>))
    ensures 0 <= r.0 <= 55
    ensures r.0 == 55 <==> sp.fillerRate < 0.05 && 140.0 <= sp.wpm <= 180.0 && sp.readability > 70.0
    ensures r.1 == Pick([sp.fillerRate < 0.05, 140.0 <= sp.wpm <= 180.0, sp.readability > 70.0],
                        [Fluent, GoodPace, Clear])
    ensures r.3 == Pick([sp.fillerRate > 0.15, sp.wpm < 120.0, sp.wpm > 200.0],
                        [PauseInstead, SpeedUp, SlowDown])
    ensures r.2 == if sp.fillerRate > 0.15 then [ManyFillers] else []
    ensures forall m :: m in r.1 ==> m in [Fluent, GoodPace, Clear]
    ensures forall m :: m in r.3 ==> m in [PauseInstead, SpeedUp, SlowDown]
  {
    var f := if sp.fillerRate < 0.05 then (20, [Fluent], [], [])
             else if sp.fillerRate > 0.15 then (0, [], [ManyFillers], [PauseInstead])
             else (0, [], [], []);
    var p := if 140.0 <= sp.wpm <= 180.0 then (20, [GoodPace], [])
             else if sp.wpm < 120.0 then (0, [], [SpeedUp])
             else if sp.wpm > 200.0 then (0, [], [SlowDown])
             else (0, [], []);
    var c := if sp.readability > 70.0 then (15, [Clear]) else (0, []);
    PickThree(sp.fillerRate < 0.05, 140.0 <= sp.wpm <= 180.0, sp.readability > 70.0, Fluent, GoodPace, Clear);
    PickThree(sp.fillerRate > 0.15, sp.wpm < 120.0, sp.wpm > 200.0, PauseInstead, SpeedUp, SlowDown);
    (f.0 + p.0 + c.0, f.1 + p.1 + c.1, f.2, f.3 + p.2)
  }

  /** Each speech strength appears exactly when its rule holds. */
  lemma SpeechStrengthsFollowRules(sp: SpeechPatterns)
    ensures var r := SpeechRule(sp);
      && (Fluent in r.1 <==> sp.fillerRate < 0.05)
      && (GoodPace in r.1 <==> 140.0 <= sp.wpm <= 180.0)
      && (Clear in r.1 <==> sp.readability > 70.0)
  {
    var good := [sp.fillerRate < 0.05, 140.0 <= sp.wpm <= 180.0, sp.readability > 70.0];
    assert SpeechRule(sp).1 == Pick(good, [Fluent, GoodPace, Clear]);
    assert |Fluent| != |GoodPace| && |GoodPace| != |Clear| && |Fluent| != |Clear|;
    PickMember(good, [Fluent, GoodPace, Clear], 0);
    PickMember(good, [Fluent, GoodPace, Clear], 1);
    PickMember(good, [Fluent, GoodPace, Clear], 2);
  }

  /** Each speech improvement and recommendation appears exactly when its rule holds. */
  lemma SpeechAdviceFollowsRules(sp: SpeechPatterns)
    ensures var r := SpeechRule(sp);
      && (ManyFillers in r.2 <==> sp.fillerRate > 0.15)
      && (PauseInstead in r.3 <==> sp.fillerRate > 0.15)
      && (SpeedUp in r.3 <==> sp.wpm < 120.0)
      && (SlowDown in r.3 <==> sp.wpm > 200.0)
  {
    var bad := [sp.fillerRate > 0.15, sp.wpm < 120.0, sp.wpm > 200.0];
    assert SpeechRule(sp).3 == Pick(bad, [PauseInstead, SpeedUp, SlowDown]);
    assert |PauseInstead| != |SpeedUp| && |SpeedUp| != |SlowDown| && |PauseInstead| != |SlowDown|;
    PickMember(bad, [PauseInstead, SpeedUp, SlowDown], 0);
    PickMember(bad, [PauseInstead, SpeedUp, SlowDown], 1);
    PickMember(bad, [PauseInstead, SpeedUp, SlowDown], 2);
  }

  /** `min(100, max(0, score))` on the integer points. */
  function ClampScore(x: int): (r: int)
    ensures 0 <= r <= 100
    ensures 0 <= x <= 100 ==> r == x
  {
    if x < 0 then 0 else if x > 100 then 100 else x
  }

  /** The nervousness rules applied to the metrics list, if any. */
  function NerveOutcome(ms: seq<MetricRecord>): (r: (int, seq<string>, seq<string>, seq<string>))
    ensures 0 <= r.0 <= 30
    ensures r.0 == 30 <==> |ms| > 0 && NervousnessPatternsOf(ms).value.recent < 0.3
    ensures |ms| == 0 ==> r == (0, [], [], [])
    ensures |ms| > 0 ==> r == NerveRule(NervousnessPatternsOf(ms).value.recent)
  {
    if |ms| > 0 then NerveRule(NervousnessPatternsOf(ms).value.recent) else (0, [], [], [])
  }

  /** A transcript that is present and analyses without error. */
  predicate Analysed(t: Option<Transcript>)
  {
    t.Some? && SpeechPatternsOf(t.value).Ok?
  }

  /** The speech rules applied to a transcript that analyses without error. */
  function SpeechOutcome(t: Option<Transcript>): (r: (int, seq<string>, seq<string>, seq<string>))
    ensures 0 <= r.0 <= 55
    ensures r.0 == 55 <==>
      && t.Some? && SpeechPatternsOf(t.value).Ok?
      && var sp := SpeechPatternsOf(t.value).value;
         sp.fillerRate < 0.05 && 140.0 <= sp.wpm <= 180.0 && sp.readability > 70.0
    ensures t.None? ==> r == (0, [], [], [])
    ensures Analysed(t) ==> r == SpeechRule(SpeechPatternsOf(t.value).value)
    ensures !Analysed(t) ==> r == (0, [], [], [])
  {
    if Analysed(t) then SpeechRule(SpeechPatternsOf(t.value).value) else (0, [], [], [])
  }

  /** `generate_insights` without the AI feedback: the rule points summed and clamped. */
  function GenerateInsights(d: SessionData): (r: Insights)
    ensures 0 <= r.score <= 85
    ensures |d.metrics| == 0 && d.transcript.None? ==> r == Insights(0, [], [], [])
    ensures r.strengths == NerveOutcome(d.metrics).1 + SpeechOutcome(d.transcript).1
    ensures r.improvements == NerveOutcome(d.metrics).2 + SpeechOutcome(d.transcript).2
    ensures r.recommendations == NerveOutcome(d.metrics).3 + SpeechOutcome(d.transcript).3
  {
    var n := NerveOutcome(d.metrics);
    var s := SpeechOutcome(d.transcript);
    Insights(ClampScore(n.0 + s.0), n.1 + s.1, n.2 + s.2, n.3 + s.3)
  }

  /** The nervousness messages of the insights follow the recent average alone. */
  lemma NerveInsightsFollowRules(d: SessionData)
    ensures var r := GenerateInsights(d);
      && (Calm in r.strengths <==> |d.metrics| > 0 && NervousnessPatternsOf(d.metrics).value.recent < 0.3)
      && (ModerateNerves in r.improvements <==>
            |d.metrics| > 0 && 0.3 <= NervousnessPatternsOf(d.metrics).value.recent < 0.6)
      && (HighNerves in r.improvements <==> |d.metrics| > 0 && NervousnessPatternsOf(d.metrics).value.recent >= 0.6)
      && (Breathe in r.recommendations <==> |d.metrics| > 0 && NervousnessPatternsOf(d.metrics).value.recent >= 0.6)
  {
    var r, n, sp := GenerateInsights(d), NerveOutcome(d.metrics), SpeechOutcome(d.transcript);
    assert r.strengths == n.1 + sp.1 && r.improvements == n.2 + sp.2 && r.recommendations == n.3 + sp.3;
    SpeechAvoidsNerveMessages(d.transcript);
  }

  /** No speech message repeats a nervousness message. */
  lemma SpeechAvoidsNerveMessages(t: Option<Transcript>)
    ensures var sp := SpeechOutcome(t);
      Calm !in sp.1 && ModerateNerves !in sp.2 && HighNerves !in sp.2 && Breathe !in sp.3
  {
    if Analysed(t) {
      RuleAvoidsNerveMessages(SpeechPatternsOf(t.value).value);
    }
  }

  /** No nervousness message repeats a speech message. */
  lemma NerveAvoidsSpeechMessages(ms: seq<MetricRecord>)
    ensures var n := NerveOutcome(ms);
      && Fluent !in n.1 && GoodPace !in n.1 && Clear !in n.1 && ManyFillers !in n.2
      && PauseInstead !in n.3 && SpeedUp !in n.3 && SlowDown !in n.3
  {
    if |ms| > 0 {
      NerveRuleAvoidsSpeechMessages(NervousnessPatternsOf(ms).value.recent);
    }
  }

  lemma NerveRuleAvoidsSpeechMessages(recent: real)
    ensures var n := NerveRule(recent);
      && Fluent !in n.1 && GoodPace !in n.1 && Clear !in n.1 && ManyFillers !in n.2
      && PauseInstead !in n.3 && SpeedUp !in n.3 && SlowDown !in n.3
  {
    assert |Calm| != |Fluent| && |Calm| != |GoodPace| && |Calm| != |Clear|;
    assert |ModerateNerves| != |ManyFillers| && |HighNerves| != |ManyFillers|;
    assert |Breathe| != |PauseInstead| && |Breathe| != |SpeedUp| && |Breathe| != |SlowDown|;
  }

  lemma RuleAvoidsNerveMessages(sp: SpeechPatterns)
    ensures var rule := SpeechRule(sp);
      Calm !in rule.1 && ModerateNerves !in rule.2 && HighNerves !in rule.2 && Breathe !in rule.3
  {
    var rule := SpeechRule(sp);
    assert |Calm| != |Fluent| && |Calm| != |GoodPace| && |Calm| != |Clear|;
    assert |ModerateNerves| != |ManyFillers| && |HighNerves| != |ManyFillers|;
    assert |Breathe| != |PauseInstead| && |Breathe| != |SpeedUp| && |Breathe| != |SlowDown|;
  }

  /** The speech strengths of an outcome follow the analysed transcript alone. */
  lemma SpeechOutcomeStrengths(t: Option<Transcript>)
    ensures var o := SpeechOutcome(t);
      && (Fluent in o.1 <==> Analysed(t) && SpeechPatternsOf(t.value).value.fillerRate < 0.05)
      && (GoodPace in o.1 <==> Analysed(t) && 140.0 <= SpeechPatternsOf(t.value).value.wpm <= 180.0)
      && (Clear in o.1 <==> Analysed(t) && SpeechPatternsOf(t.value).value.readability > 70.0)
  {
    if Analysed(t) {
      SpeechStrengthsFollowRules(SpeechPatternsOf(t.value).value);
    }
  }

  /** The speech improvements and recommendations of an outcome follow the analysed transcript alone. */
  lemma SpeechOutcomeAdvice(t: Option<Transcript>)
    ensures var o := SpeechOutcome(t);
      && (ManyFillers in o.2 <==> Analysed(t) && SpeechPatternsOf(t.value).value.fillerRate > 0.15)
      && (PauseInstead in o.3 <==> Analysed(t) && SpeechPatternsOf(t.value).value.fillerRate > 0.15)
      && (SpeedUp in o.3 <==> Analysed(t) && SpeechPatternsOf(t.value).value.wpm < 120.0)
      && (SlowDown in o.3 <==> Analysed(t) && SpeechPatternsOf(t.value).value.wpm > 200.0)
  {
    if Analysed(t) {
      SpeechAdviceFollowsRules(SpeechPatternsOf(t.value).value);
    }
  }

  /** The speech strengths of the insights follow the analysed transcript alone. */
  lemma SpeechStrengthsInInsights(d: SessionData)
    ensures var r := GenerateInsights(d);
      && (Fluent in r.strengths <==> Analysed(d.transcript) && SpeechPatternsOf(d.transcript.value).value.fillerRate < 0.05)
      && (GoodPace in r.strengths <==>
            Analysed(d.transcript) && 140.0 <= SpeechPatternsOf(d.transcript.value).value.wpm <= 180.0)
      && (Clear in r.strengths <==> Analysed(d.transcript) && SpeechPatternsOf(d.transcript.value).value.readability > 70.0)
  {
    var r, n, sp := GenerateInsights(d), NerveOutcome(d.metrics), SpeechOutcome(d.transcript);
    assert r.strengths == n.1 + sp.1;
    NerveAvoidsSpeechMessages(d.metrics);
    SpeechOutcomeStrengths(d.transcript);
    InLaterPart(Fluent, n.1, sp.1);
    InLaterPart(GoodPace, n.1, sp.1);
    InLaterPart(Clear, n.1, sp.1);
  }

  /** The speech improvements and recommendations of the insights follow the analysed transcript alone. */
  lemma SpeechAdviceInInsights(d: SessionData)
    ensures var r := GenerateInsights(d);
      && (ManyFillers in r.improvements <==>
            Analysed(d.transcript) && SpeechPatternsOf(d.transcript.value).value.fillerRate > 0.15)
      && (PauseInstead in r.recommendations <==>
            Analysed(d.transcript) && SpeechPatternsOf(d.transcript.value).value.fillerRate > 0.15)
      && (SpeedUp in r.recommendations <==> Analysed(d.transcript) && SpeechPatternsOf(d.transcript.value).value.wpm < 120.0)
      && (SlowDown in r.recommendations <==> Analysed(d.transcript) && SpeechPatternsOf(d.transcript.value).value.wpm > 200.0)
  {
    var r, n, sp := GenerateInsights(d), NerveOutcome(d.metrics), SpeechOutcome(d.transcript);
    assert r.improvements == n.2 + sp.2 && r.recommendations == n.3 + sp.3;
    NerveAvoidsSpeechMessages(d.metrics);
    SpeechOutcomeAdvice(d.transcript);
    InLaterPart(ManyFillers, n.2, sp.2);
    InLaterPart(PauseInstead, n.3, sp.3);
    InLaterPart(SpeedUp, n.3, sp.3);
    InLaterPart(SlowDown, n.3, sp.3);
  }

  /** A message missing from the first list is in the joined list exactly when it is in the second. */
  lemma InLaterPart(m: string, a: seq<string>, b: seq<string>)
    requires m !in a
    ensures m in a + b <==> m in b
  {
  }

  /** The top score 85 is reached exactly when every rule awards its points:
      calm recent frames and a fluent, well-paced, readable transcript. */
  lemma InsightTopScore(d: SessionData)
    ensures GenerateInsights(d).score == 85 <==>
      && |d.metrics| > 0 && NervousnessPatternsOf(d.metrics).value.recent < 0.3
      && d.transcript.Some? && SpeechPatternsOf(d.transcript.value).Ok?
      && var sp := SpeechPatternsOf(d.transcript.value).value;
         sp.fillerRate < 0.05 && 140.0 <= sp.wpm <= 180.0 && sp.readability > 70.0
  {
    assert GenerateInsights(d).score == NerveOutcome(d.metrics).0 + SpeechOutcome(d.transcript).0;
  }
}
