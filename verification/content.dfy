/** The content scorer of src/BackEnd/services/nlp_analyzer.py: syllable
    estimate, technical-jargon ratio, coherence, relevance, structure and
    clarity of a transcript, and the weighted content score.

    NLTK's sentence and word tokenisers and its Portuguese stop-word list are
    inputs: the analysis receives the sentences, the tokens of the
    lower-cased text, the stop words, and the token count of each sentence.
    The sentiment model is a foreign call and does not enter the content
    score, so it is not modelled. */
module ContentAnalysis {
  import opened Basics
  import opened Text

  // ---------------------------------------------------------------- syllables

  const Vowels := "aeiouyáàâãéèêíìîóòôõúùû"

  predicate IsVowel(c: char)
  {
    c in Vowels
  }

  /** A vowel starts a run at `i` when the character before it is not a vowel. */
  predicate RunStart(s: string, i: nat)
    requires i < |s|
  {
    IsVowel(s[i]) && (i == 0 || !IsVowel(s[i - 1]))
  }

  /** The number of maximal vowel runs in `s`. */
  function VowelRuns(s: string): (r: nat)
    ensures r <= |s|
  {
    if |s| == 0 then 0
    else VowelRuns(s[..|s| - 1]) + (if RunStart(s, |s| - 1) then 1 else 0)
  }

  /** A string has no vowel run exactly when it has no vowel. */
  lemma {:induction false} NoRunIffNoVowel(s: string)
    ensures VowelRuns(s) == 0 <==> forall i :: 0 <= i < |s| ==> !IsVowel(s[i])
  {
    if |s| > 0 {
      var init := s[..|s| - 1];
      NoRunIffNoVowel(init);
      assert forall i :: 0 <= i < |init| ==> init[i] == s[i];
    }
  }

  /** The word `_count_syllables` scans: lower-cased, one trailing non-alphanumeric character dropped. */
  function SyllableStem(word: string): (r: string)
    requires |word| > 0
    ensures |r| == |word| || |r| == |word| - 1
  {
    var w := Lower(word);
    if !IsAlnum(w[|w| - 1]) then w[..|w| - 1] else w
  }

  /** `_count_syllables(word)`: the loop over the characters with its
      previous-was-vowel flag. An empty word raises in the source (`word[-1]`). */
  method CountSyllables(word: string) returns (count: nat)
    requires |word| > 0
    ensures count >= 1
    ensures count == (if VowelRuns(SyllableStem(word)) == 0 then 1 else VowelRuns(SyllableStem(word)))
  {
    var w := SyllableStem(word);
    count := 0;
    var prevIsVowel := false;
    var i := 0;
    while i < |w|
      invariant 0 <= i <= |w|
      invariant count == VowelRuns(w[..i])
      invariant prevIsVowel == (i > 0 && IsVowel(w[i - 1]))
    {
      var isVowel := IsVowel(w[i]);
      VowelRunsStep(w, i);
      if isVowel && !prevIsVowel {
        count := count + 1;
      }
      prevIsVowel := isVowel;
      i := i + 1;
    }
    assert w[..|w|] == w;
    if count == 0 {
      count := 1;
    }
  }

  /** One more character adds a run exactly when it is a vowel after a non-vowel. */
  lemma VowelRunsStep(w: string, i: nat)
    requires i < |w|
    ensures VowelRuns(w[..i + 1])
         == VowelRuns(w[..i]) + (if IsVowel(w[i]) && !(i > 0 && IsVowel(w[i - 1])) then 1 else 0)
  {
    var p := w[..i + 1];
    assert p[..i] == w[..i];
    assert p[i] == w[i];
    assert i > 0 ==> p[i - 1] == w[i - 1];
  }

  /** The same count as a function, for use inside the scores. */
  function Syllables(word: string): (r: nat)
    requires |word| > 0
    ensures r >= 1
  {
    var runs := VowelRuns(SyllableStem(word));
    if runs == 0 then 1 else runs
  }

  // ---------------------------------------------------------------- technical jargon

  const TechnologyTerms: seq<string> := [
    "algoritmo", "api", "backend", "frontend", "framework", "deploy",
    "cloud", "servidor", "interface", "dados", "processamento", "rede",
    "protocolo", "sistema", "software", "hardware", "código", "programação",
    "desenvolvimento", "implementação", "arquitetura", "infraestrutura"]
  const BusinessTerms: seq<string> := [
    "roi", "kpi", "métricas", "conversão", "pipeline", "funil",
    "monetização", "escalabilidade", "pivot", "disrupção", "inovação",
    "mercado", "segmento", "target", "público-alvo", "estratégia",
    "tático", "operacional", "benchmark", "concorrência", "diferencial"]
  const ScienceTerms: seq<string> := [
    "hipótese", "teoria", "experimento", "metodologia", "análise",
    "síntese", "correlação", "causalidade", "variável", "constante",
    "amostra", "população", "significância", "estatística", "probabilidade",
    "distribuição", "desvio", "média", "mediana", "quartil", "percentil"]

  /** The three term lists concatenated in the dictionary's order. */
  const AllJargon := TechnologyTerms + BusinessTerms + ScienceTerms

  predicate IsJargon(w: string)
  {
    Lower(w) in AllJargon
  }

  /** `_analyze_technical_jargon`: the share of filtered words that are jargon. */
  function JargonRatio(filtered: seq<string>): (r: real)
    ensures 0.0 <= r <= 1.0
    ensures r == 0.0 <==> forall i :: 0 <= i < |filtered| ==> !IsJargon(filtered[i])
    ensures r == 1.0 <==> |filtered| > 0 && forall i :: 0 <= i < |filtered| ==> IsJargon(filtered[i])
  {
    var flags := JargonFlags(filtered);
    CountTrueExtremes(flags);
    Share(CountTrue(flags), |filtered|)
  }

  function JargonFlags(words: seq<string>): (r: seq<bool>)
    ensures |r| == |words|
    ensures forall i :: 0 <= i < |words| ==> (r[i] <==> IsJargon(words[i]))
  {
    seq(|words|, i requires 0 <= i < |words| => IsJargon(words[i]))
  }

  // ---------------------------------------------------------------- coherence

  /** `logical_connectors`, in three pieces of its source listing. */
  const LogicalConnectors := ConnectorsOpening + ConnectorsConditional + ConnectorsClosing
  const ConnectorsOpening: seq<string> := [
    "portanto", "assim", "logo", "então", "por isso", "dessa forma",
    "consequentemente", "por conseguinte", "em vista disso", "diante disso",
    "em primeiro lugar", "em segundo lugar", "por um lado", "por outro lado",
    "além disso", "ademais", "outrossim", "também", "inclusive", "até mesmo",
    "não apenas", "mas também", "tanto", "quanto", "não só", "como também",
    "em contrapartida", "em contraste", "todavia", "contudo", "entretanto",
    "no entanto", "porém", "mas", "apesar de", "embora", "ainda que"]
  const ConnectorsConditional: seq<string> := [
    "mesmo que", "posto que", "conquanto", "se", "caso", "desde que",
    "contanto que", "a menos que", "a não ser que", "salvo se", "exceto se",
    "porque", "visto que", "já que", "uma vez que", "dado que", "considerando que",
    "pois", "porquanto", "como", "na medida em que", "tendo em vista que"]
  const ConnectorsClosing: seq<string> := [
    "para", "a fim de", "com o intuito de", "com o objetivo de", "com a finalidade de",
    "com o propósito de", "de modo a", "de maneira a", "de forma a", "de sorte a",
    "ou", "ou seja", "isto é", "em outras palavras", "a saber", "por exemplo",
    "como por exemplo", "tal como", "assim como", "bem como", "tal qual",
    "em suma", "em síntese", "em resumo", "resumindo", "concluindo",
    "para concluir", "em conclusão", "por fim", "finalmente", "por último"]

  /** Some listed phrase occurs (as a substring) in the lower-cased sentence. */
  predicate Mentions(sentence: string, phrases: seq<string>)
  {
    exists k :: 0 <= k < |phrases| && Contains(Lower(sentence), phrases[k])
  }

  function MentionFlags(sentences: seq<string>, phrases: seq<string>): (r: seq<bool>)
    ensures |r| == |sentences|
    ensures forall i :: 0 <= i < |sentences| ==> (r[i] <==> Mentions(sentences[i], phrases))
  {
    seq(|sentences|, i requires 0 <= i < |sentences| => Mentions(sentences[i], phrases))
  }

  /** `_analyze_coherence`: 0.5 below two sentences, otherwise
      0.6 · (share of sentences with a connector) + 0.4 · 0.7. */
  function Coherence(sentences: seq<string>): (r: real)
    ensures |sentences| < 2 ==> r == 0.5
    ensures 0.28 <= r <= 0.88
    ensures |sentences| >= 2 ==>
      (r == 0.28 <==> forall i :: 0 <= i < |sentences| ==> !Mentions(sentences[i], LogicalConnectors))
    ensures |sentences| >= 2 ==>
      (r == 0.88 <==> forall i :: 0 <= i < |sentences| ==> Mentions(sentences[i], LogicalConnectors))
  {
    if |sentences| < 2 then 0.5
    else
      var flags := MentionFlags(sentences, LogicalConnectors);
      CountTrueExtremes(flags);
      Share(CountTrue(flags), |sentences|) * 0.6 + 0.7 * 0.4
  }

  /** Connectors are matched as substrings, so any sentence with the letters
      "se" in it (as in "nesse" or "casa sem") counts as connected. */
  lemma LetterPairSeCountsAsConnector(sentence: string)
    requires Contains(Lower(sentence), "se")
    ensures Mentions(sentence, LogicalConnectors)
  {
    assert ConnectorsConditional[3] == "se";
    assert LogicalConnectors[|ConnectorsOpening| + 3] == "se";
  }

  // ---------------------------------------------------------------- relevance

  const ExampleIndicators: seq<string> := ["por exemplo", "como", "tal como", "ilustrando", "demonstrando"]
  const DataIndicators: seq<string> := ["dados", "estatísticas", "pesquisa", "estudo", "análise", "percentual", "%"]

  predicate AnyMentions(sentences: seq<string>, phrases: seq<string>)
  {
    exists i :: 0 <= i < |sentences| && Mentions(sentences[i], phrases)
  }

  function Flag(b: bool): real
  {
    if b then 1.0 else 0.0
  }

  /** `_analyze_relevance`: 0.4 · min(1, n/20) + 0.3 · (an example anywhere) + 0.3 · (data anywhere).
      The loop's early exit only stops once both flags are set, so each flag
      records whether any sentence mentions an indicator. */
  function Relevance(sentences: seq<string>): (r: real)
    ensures 0.0 <= r <= 1.0
    ensures r == 1.0 <==> |sentences| >= 20 && AnyMentions(sentences, ExampleIndicators) && AnyMentions(sentences, DataIndicators)
  {
    var length := Min(1.0, |sentences| as real / 20.0);
    length * 0.4 + Flag(AnyMentions(sentences, ExampleIndicators)) * 0.3 + Flag(AnyMentions(sentences, DataIndicators)) * 0.3
  }

  // ---------------------------------------------------------------- structure

  const IntroConnectors: seq<string> := ["em primeiro lugar", "inicialmente", "primeiramente", "para começar"]
  const DevelopmentConnectors: seq<string> := ["além disso", "ademais", "por um lado", "por outro lado", "em segundo lugar"]
  const ConclusionConnectors: seq<string> := ["portanto", "assim", "logo", "em conclusão", "finalmente", "por fim"]

  /** Python's slice `s[lo:hi]` for `0 <= lo` and `hi <= |s|`, empty when `lo >= hi`. */
  function Slice<T>(s: seq<T>, lo: nat, hi: nat): (r: seq<T>)
    requires hi <= |s|
    ensures lo < hi ==> r == s[lo..hi]
    ensures lo >= hi ==> r == []
  {
    if lo < hi then s[lo..hi] else []
  }

  /** The three sections `_analyze_structure` inspects, for at least three sentences:
      the first quarter (at least one sentence), the middle, and the last quarter. */
  function Sections(sentences: seq<string>): (r: (seq<string>, seq<string>, seq<string>))
    requires |sentences| >= 3
    ensures 1 <= |r.0| <= |sentences| && 1 <= |r.2| <= |sentences|
    ensures r.0 == sentences[..|r.0|] && r.2 == sentences[|sentences| - |r.2|..]
  {
    var n := |sentences|;
    var quarter := if n / 4 > 1 then n / 4 else 1;
    var threeQuarters := if (3 * n) / 4 > 1 then (3 * n) / 4 else 1;
    (sentences[..quarter], Slice(sentences, quarter, MinNat(n - 1, (3 * n) / 4)), sentences[threeQuarters..])
  }

  /** Whether `s[i..]` begins with a newline, a run of whitespace, and another newline
      (`\n\s*\n`); the match is as long as possible. */
  function BlankLineEnd(s: string, i: nat): (r: Option<nat>)
    requires i <= |s|
    ensures r.Some? ==> i + 2 <= r.value <= |s| && s[i] == '\n' && s[r.value - 1] == '\n'
  {
    if i < |s| && s[i] == '\n' then
      var run := LeadingCount(s[i + 1..], IsSpace);
      LastNewline(s, i + 1, i + 1 + run)
    else None
  }

  /** The end of the last newline in `s[lo..hi]`, if there is one. */
  function LastNewline(s: string, lo: nat, hi: nat): (r: Option<nat>)
    requires 1 <= lo <= hi <= |s|
    ensures r.Some? ==> lo + 1 <= r.value <= hi && s[r.value - 1] == '\n'
    decreases hi - lo
  {
    if lo == hi then None
    else if s[hi - 1] == '\n' then Some(hi)
    else LastNewline(s, lo, hi - 1)
  }

  /** `len(re.findall(r'\n\s*\n', s[i:]))`, scanning left to right. */
  function BlankLines(s: string, i: nat): (r: nat)
    requires i <= |s|
    decreases |s| - i
  {
    if i == |s| then 0
    else match BlankLineEnd(s, i)
      case Some(e) => 1 + BlankLines(s, e)
      case None => BlankLines(s, i + 1)
  }

  /** `_analyze_structure(sentences)`. */
  function Structure(sentences: seq<string>): (r: real)
    ensures |sentences| < 3 ==> r == 0.3
    ensures |sentences| >= 3 ==> 0.1 <= r <= 1.0
  {
    if |sentences| < 3 then 0.3
    else
      var sec := Sections(sentences);
      var s := Flag(AnyMentions(sec.0, IntroConnectors)) * 0.3
             + Flag(AnyMentions(sec.1, DevelopmentConnectors)) * 0.4
             + Flag(AnyMentions(sec.2, ConclusionConnectors)) * 0.3;
      var paragraphs := BlankLines(Join(sentences, " "), 0) + 1;
      s * 0.7 + Min(1.0, paragraphs as real / 3.0) * 0.3
  }

  /** The top structure score needs an introduction, a development and a
      conclusion connector in their sections, and at least two blank lines. */
  lemma StructureTop(sentences: seq<string>)
    requires |sentences| >= 3
    ensures Structure(sentences) == 1.0 <==>
      var sec := Sections(sentences);
      && AnyMentions(sec.0, IntroConnectors) && AnyMentions(sec.1, DevelopmentConnectors)
      && AnyMentions(sec.2, ConclusionConnectors) && BlankLines(Join(sentences, " "), 0) >= 2
  {
  }

  // ---------------------------------------------------------------- clarity

  /** `max(word_freq.values())` over the words longer than three characters, or 0. */
  function MaxFrequency(candidates: seq<string>, words: seq<string>): (r: nat)
    ensures forall i :: 0 <= i < |candidates| && |candidates[i]| > 3 ==> Occurrences(words, candidates[i]) <= r
    ensures r == 0 || exists i :: 0 <= i < |candidates| && |candidates[i]| > 3 && Occurrences(words, candidates[i]) == r
  {
    if |candidates| == 0 then 0
    else
      var n := |candidates| - 1;
      var m := MaxFrequency(candidates[..n], words);
      var c := if |candidates[n]| > 3 then Occurrences(words, candidates[n]) else 0;
      assert forall i :: 0 <= i < n ==> candidates[..n][i] == candidates[i];
      if c > m then c else m
  }

  predicate AllNonEmpty(words: seq<string>)
  {
    forall i :: 0 <= i < |words| ==> |words[i]| > 0
  }

  /** The token count of each sentence, as reals. */
  function SentenceLengths(tokensPerSentence: seq<nat>): (r: seq<real>)
    ensures |r| == |tokensPerSentence|
    ensures forall i :: 0 <= i < |r| ==> r[i] == tokensPerSentence[i] as real
  {
    seq(|tokensPerSentence|, i requires 0 <= i < |tokensPerSentence| => tokensPerSentence[i] as real)
  }

  /** The sentence-length part of clarity: full marks for a mean of 10 to 20
      tokens, falling off linearly around 15 outside that. With no sentence,
      `np.mean([])` is NaN and the part comes out as 0. */
  function LengthScore(tokensPerSentence: seq<nat>): (r: real)
    ensures 0.0 <= r <= 1.0
    ensures r == 1.0 <==> |tokensPerSentence| > 0 && 10.0 <= Mean(SentenceLengths(tokensPerSentence)) <= 20.0
  {
    var lengths := SentenceLengths(tokensPerSentence);
    if |lengths| == 0 then 0.0
    else
      var avg := Mean(lengths);
      if 10.0 <= avg <= 20.0 then 1.0 else Max(0.0, 1.0 - Abs(avg - 15.0) / 15.0)
  }

  /** Which kept words have more than three syllables. */
  function ComplexFlags(filtered: seq<string>): (r: seq<bool>)
    requires AllNonEmpty(filtered)
    ensures |r| == |filtered|
    ensures forall i :: 0 <= i < |r| ==> r[i] == (Syllables(filtered[i]) > 3)
  {
    seq(|filtered|, i requires 0 <= i < |filtered| => Syllables(filtered[i]) > 3)
  }

  /** The complex-word part of clarity: `1 - min(1, share * 2)`, full marks
      exactly when no kept word has more than three syllables. */
  function ComplexScore(filtered: seq<string>): (r: real)
    requires AllNonEmpty(filtered)
    ensures 0.0 <= r <= 1.0
    ensures r == 1.0 <==> forall i :: 0 <= i < |filtered| ==> Syllables(filtered[i]) <= 3
  {
    var flags := ComplexFlags(filtered);
    CountTrueExtremes(flags);
    1.0 - Min(1.0, Share(CountTrue(flags), |filtered|) * 2.0)
  }

  /** The repetition part of clarity: full marks unless some long word occurs
      more than five times, then 0.1 off per extra occurrence. */
  function RepetitionScore(filtered: seq<string>): (r: real)
    ensures 0.0 <= r <= 1.0
    ensures r == 1.0 <==> MaxFrequency(filtered, filtered) <= 5
  {
    var maxFreq := MaxFrequency(filtered, filtered);
    if |filtered| > 0 && maxFreq > 5 then Max(0.0, 1.0 - (maxFreq - 5) as real / 10.0) else 1.0
  }

  /** `_analyze_clarity`: sentence length, complex words and repetition,
      weighted 0.4 / 0.4 / 0.2. */
  function Clarity(tokensPerSentence: seq<nat>, filtered: seq<string>): (r: real)
    requires AllNonEmpty(filtered)
    ensures 0.0 <= r <= 1.0
    ensures r == 1.0 <==>
      && |tokensPerSentence| > 0 && 10.0 <= Mean(SentenceLengths(tokensPerSentence)) <= 20.0
      && (forall i :: 0 <= i < |filtered| ==> Syllables(filtered[i]) <= 3)
      && MaxFrequency(filtered, filtered) <= 5
  {
    var l, c, p := LengthScore(tokensPerSentence), ComplexScore(filtered), RepetitionScore(filtered);
    l * 0.4 + c * 0.4 + p * 0.2
  }

  // ---------------------------------------------------------------- the analysis

  datatype Tokens = Tokens(sentences: seq<string>, words: seq<string>, tokensPerSentence: seq<nat>)

  datatype Content = Content(
    wordCount: nat, sentenceCount: nat, wordsPerSentence: real, diversity: real,
    structure: real, clarity: real, jargon: real, relevance: real, coherence: real, score: real)

  /** `[w for w in words if w.isalnum() and w not in stopwords]`. */
  function Filtered(words: seq<string>, stopwords: set<string>): (r: seq<string>)
    ensures AllNonEmpty(r) && |r| <= |words|
    ensures forall i :: 0 <= i < |r| ==> r[i] in words && r[i] !in stopwords
  {
    if |words| == 0 then []
    else
      var w := words[0];
      var keep := |w| > 0 && (forall k :: 0 <= k < |w| ==> IsAlnum(w[k])) && w !in stopwords;
      (if keep then [w] else []) + Filtered(words[1..], stopwords)
  }

  /** A sequence has no more distinct elements than entries. */
  lemma {:induction false} DistinctAtMostLength(s: seq<string>)
    ensures |(set w | w in s)| <= |s|
  {
    if |s| > 0 {
      DistinctAtMostLength(s[1..]);
      assert (set w | w in s) == {s[0]} + (set w | w in s[1..]);
    }
  }

  /** `content_score`: structure and clarity 0.25 each, the absence of jargon 0.1,
      relevance and coherence 0.2 each. */
  function ContentScore(structure: real, clarity: real, jargon: real, relevance: real, coherence: real): (r: real)
    requires 0.0 <= structure <= 1.0 && 0.0 <= clarity <= 1.0 && 0.0 <= jargon <= 1.0
    requires 0.0 <= relevance <= 1.0 && 0.0 <= coherence <= 1.0
    ensures 0.0 <= r <= 1.0
    ensures r == 1.0 <==> structure == 1.0 && clarity == 1.0 && jargon == 0.0 && relevance == 1.0 && coherence == 1.0
  {
    structure * 0.25 + clarity * 0.25 + (1.0 - jargon) * 0.1 + relevance * 0.2 + coherence * 0.2
  }

  /** `analyze(text)`: `ValueError` for blank text; otherwise the counts and scores. */
  function Analyze(text: string, t: Tokens, stopwords: set<string>): (r: Result<Content>)
    ensures r.Err? <==> IsBlank(text)
    ensures r.Err? ==> r.error == "Texto vazio fornecido para análise"
    ensures r.Ok? ==> r.value.wordCount == |t.words| && r.value.sentenceCount == |t.sentences|
    ensures r.Ok? ==> 0.0 <= r.value.diversity <= 1.0 && 0.0 <= r.value.score <= 1.0
    ensures r.Ok? ==> 0.28 <= r.value.coherence <= 0.88 && 0.0 <= r.value.jargon <= 1.0
  {
    if IsBlank(text) then Err("Texto vazio fornecido para análise")
    else
      var filtered := Filtered(t.words, stopwords);
      DistinctAtMostLength(filtered);
      var structure := Structure(t.sentences);
      var clarity := Clarity(t.tokensPerSentence, filtered);
      var jargon := JargonRatio(filtered);
      var relevance := Relevance(t.sentences);
      var coherence := Coherence(t.sentences);
      Ok(Content(|t.words|, |t.sentences|, |t.words| as real / (if |t.sentences| > 1 then |t.sentences| else 1) as real,
                 Share(|(set w | w in filtered)|, |filtered|),
                 structure, clarity, jargon, relevance, coherence,
                 ContentScore(structure, clarity, jargon, relevance, coherence)))
  }
}
