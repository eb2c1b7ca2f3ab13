/** The language-habit service of src/back-end/main.py: the local filler-word
    analysis used when the local language model is unavailable, the
    rule-based feedback fallback, the empty-text rejection of `/analyze`,
    and the guard that keeps model calls on the local host.

    Python's `re` word boundary `\b` is modelled with the word-character class
    `Text.IsAlnum` plus `_`, and `\s` is the whitespace of `Text.IsSpace`. */
module LanguageService {
  import opened Basics
  import opened Text

  const CommonFillers: seq<string> :=
    ["tipo", "né", "basicamente", "então", "aí", "assim", "tá", "ok", "hum", "quer dizer", "na verdade", "bom"]

  // ---------------------------------------------------------------- whole-word matching

  /** `\w`: an alphanumeric character or the underscore. */
  predicate IsWordChar(c: char)
  {
    IsAlnum(c) || c == '_'
  }

  /** `\b` at position `i`: a word character on exactly one side. */
  predicate Boundary(s: string, i: nat)
    requires i <= |s|
  {
    (i > 0 && IsWordChar(s[i - 1])) != (i < |s| && IsWordChar(s[i]))
  }

  /** `\bp\b` matches at position `i`. */
  predicate MatchAt(s: string, p: string, i: nat)
  {
    OccursAt(s, p, i) && Boundary(s, i) && Boundary(s, i + |p|)
  }

  /** `len(re.findall(r"\b" + re.escape(p) + r"\b", s[i:]))` scanned from `i`:
      after a match the scan resumes at its end. */
  function CountMatches(s: string, p: string, i: nat): (r: nat)
    requires |p| > 0 && i <= |s|
    decreases |s| - i
  {
    if i + |p| > |s| then 0
    else if MatchAt(s, p, i) then 1 + CountMatches(s, p, i + |p|)
    else CountMatches(s, p, i + 1)
  }

  /** Any whole-word occurrence at or after the start is counted (perhaps as part of an earlier one). */
  lemma {:induction false} MatchIsCounted(s: string, p: string, start: nat, i: nat)
    requires |p| > 0 && start <= i <= |s| && MatchAt(s, p, i)
    ensures CountMatches(s, p, start) > 0
    decreases |s| - start
  {
    if !MatchAt(s, p, start) {
      MatchIsCounted(s, p, start + 1, i);
    }
  }

  /** A positive count always comes from a whole-word occurrence. */
  lemma {:induction false} CountedIsMatch(s: string, p: string, start: nat) returns (i: nat)
    requires |p| > 0 && start <= |s| && CountMatches(s, p, start) > 0
    ensures start <= i <= |s| && MatchAt(s, p, i)
    decreases |s| - start
  {
    if MatchAt(s, p, start) {
      i := start;
    } else {
      i := CountedIsMatch(s, p, start + 1);
    }
  }

  // ---------------------------------------------------------------- sentences

  predicate IsSentenceEnd(c: char)
  {
    c == '.' || c == '!' || c == '?'
  }

  /** The first position from `i` where `(?<=[.!?])\s+` can start, or `|s|`. */
  function NextBreak(s: string, i: nat): (j: nat)
    requires 1 <= i <= |s|
    ensures i <= j <= |s|
    ensures j < |s| ==> IsSentenceEnd(s[j - 1]) && IsSpace(s[j])
    ensures forall k :: i <= k < j ==> !(IsSentenceEnd(s[k - 1]) && IsSpace(s[k]))
    decreases |s| - i
  {
    if i == |s| then i
    else if IsSentenceEnd(s[i - 1]) && IsSpace(s[i]) then i
    else NextBreak(s, i + 1)
  }

  /** `re.split(r'(?<=[.!?])\s+', s)`. */
  function SplitSentences(s: string): (r: seq<string>)
    ensures |r| >= 1
    decreases |s|
  {
    if |s| == 0 then [s]
    else
      var j := NextBreak(s, 1);
      if j == |s| then [s]
      else
        var gap := LeadingCount(s[j..], IsSpace);
        [s[..j]] + SplitSentences(s[j + gap..])
  }

  /** The stripped non-blank pieces. */
  function NonBlankStripped(pieces: seq<string>): (r: seq<string>)
    ensures forall k :: 0 <= k < |r| ==> r[k] != []
  {
    if |pieces| == 0 then []
    else
      var rest := NonBlankStripped(pieces[1..]);
      StripEmptyIffBlank(pieces[0]);
      if IsBlank(pieces[0]) then rest else [Strip(pieces[0])] + rest
  }

  function Sentences(text: string): seq<string>
  {
    NonBlankStripped(SplitSentences(text))
  }

  /** `[s for s in sentences if p in s.lower()]`. */
  function Mentioning(sentences: seq<string>, p: string): (r: seq<string>)
    ensures |r| <= |sentences|
    ensures forall k :: 0 <= k < |r| ==> r[k] in sentences && Contains(Lower(r[k]), p)
  {
    if |sentences| == 0 then []
    else (if Contains(Lower(sentences[0]), p) then [sentences[0]] else []) + Mentioning(sentences[1..], p)
  }

  /** Up to three example sentences mentioning the phrase. */
  function Examples(sentences: seq<string>, p: string): (r: seq<string>)
    ensures |r| <= 3
    ensures forall k :: 0 <= k < |r| ==> r[k] in sentences && Contains(Lower(r[k]), p)
    ensures |r| == MinNat(3, |Mentioning(sentences, p)|)
    ensures r == Mentioning(sentences, p)[..|r|]
  {
    var m := Mentioning(sentences, p);
    m[..MinNat(3, |m|)]
  }

  // ---------------------------------------------------------------- local filler analysis

  datatype Repetition = Repetition(phrase: string, count: nat, examples: seq<string>)

  datatype FillerReport = FillerReport(summary: string, repetitions: seq<Repetition>, suggestions: seq<string>)

  predicate NonEmptyPhrases(phrases: seq<string>)
  {
    forall k :: 0 <= k < |phrases| ==> |phrases[k]| > 0
  }

  /** Which phrases occur as whole words in `lc` (an empty phrase is never found). */
  function Found(lc: string, phrases: seq<string>): (r: seq<bool>)
    ensures |r| == |phrases|
    ensures forall k :: 0 <= k < |phrases| ==> (r[k] <==> |phrases[k]| > 0 && CountMatches(lc, phrases[k], 0) > 0)
  {
    seq(|phrases|, k requires 0 <= k < |phrases| => |phrases[k]| > 0 && CountMatches(lc, phrases[k], 0) > 0)
  }

  function Phrases(reps: seq<Repetition>): (r: seq<string>)
    ensures |r| == |reps|
    ensures forall k :: 0 <= k < |reps| ==> r[k] == reps[k].phrase
  {
    seq(|reps|, k requires 0 <= k < |reps| => reps[k].phrase)
  }

  /** The loop over the phrases: one entry per phrase that matches, in list order. */
  function Repetitions(lc: string, sentences: seq<string>, phrases: seq<string>): (r: seq<Repetition>)
    requires NonEmptyPhrases(phrases)
    ensures Phrases(r) == Pick(Found(lc, phrases), phrases)
    ensures WellCounted(lc, sentences, r)
  {
    if |phrases| == 0 then []
    else
      var rest := Repetitions(lc, sentences, phrases[1..]);
      RepetitionsStep(lc, sentences, phrases, rest);
      RepetitionHead(lc, sentences, phrases[0]) + rest
  }

  /** The entry the loop adds for one phrase: none when it does not match. */
  function RepetitionHead(lc: string, sentences: seq<string>, p: string): seq<Repetition>
    requires |p| > 0
  {
    var c := CountMatches(lc, p, 0);
    if c > 0 then [Repetition(p, c, Examples(sentences, p))] else []
  }

  /** Every entry counts the whole-word matches of its phrase and carries its examples. */
  predicate WellCounted(lc: string, sentences: seq<string>, reps: seq<Repetition>)
  {
    forall k :: 0 <= k < |reps| ==>
      (&& |reps[k].phrase| > 0
       && reps[k].count == CountMatches(lc, reps[k].phrase, 0) > 0
       && reps[k].examples == Examples(sentences, reps[k].phrase))
  }

  /** One turn of the loop keeps the entries in phrase order, each with its count and examples. */
  lemma RepetitionsStep(lc: string, sentences: seq<string>, phrases: seq<string>, rest: seq<Repetition>)
    requires |phrases| > 0 && NonEmptyPhrases(phrases)
    requires Phrases(rest) == Pick(Found(lc, phrases[1..]), phrases[1..])
    requires WellCounted(lc, sentences, rest)
    ensures Phrases(RepetitionHead(lc, sentences, phrases[0]) + rest) == Pick(Found(lc, phrases), phrases)
    ensures WellCounted(lc, sentences, RepetitionHead(lc, sentences, phrases[0]) + rest)
  {
    RepetitionsStepOrder(lc, sentences, phrases, rest);
    RepetitionsStepCounts(lc, sentences, phrases[0], rest);
  }

  lemma RepetitionsStepOrder(lc: string, sentences: seq<string>, phrases: seq<string>, rest: seq<Repetition>)
    requires |phrases| > 0 && NonEmptyPhrases(phrases)
    requires Phrases(rest) == Pick(Found(lc, phrases[1..]), phrases[1..])
    ensures Phrases(RepetitionHead(lc, sentences, phrases[0]) + rest) == Pick(Found(lc, phrases), phrases)
  {
    var head := RepetitionHead(lc, sentences, phrases[0]);
    var f := Found(lc, phrases);
    FoundTail(lc, phrases);
    assert Pick(f, phrases) == (if f[0] then [phrases[0]] else []) + Pick(f[1..], phrases[1..]);
    assert Phrases(head) == (if f[0] then [phrases[0]] else []);
    PhrasesAppend(head, rest);
  }

  lemma FoundTail(lc: string, phrases: seq<string>)
    requires |phrases| > 0 && NonEmptyPhrases(phrases)
    ensures Found(lc, phrases)[1..] == Found(lc, phrases[1..])
  {
    var f, g := Found(lc, phrases)[1..], Found(lc, phrases[1..]);
    forall k | 0 <= k < |g| ensures f[k] == g[k] {
      assert phrases[1..][k] == phrases[k + 1];
    }
  }

  lemma PhrasesAppend(a: seq<Repetition>, b: seq<Repetition>)
    ensures Phrases(a + b) == Phrases(a) + Phrases(b)
  {
    var l, r := Phrases(a + b), Phrases(a) + Phrases(b);
    assert |l| == |r|;
    forall k | 0 <= k < |l| ensures l[k] == r[k] {
      if k < |a| {
        assert (a + b)[k] == a[k];
      } else {
        assert (a + b)[k] == b[k - |a|];
      }
    }
  }

  lemma RepetitionsStepCounts(lc: string, sentences: seq<string>, p: string, rest: seq<Repetition>)
    requires |p| > 0
    requires WellCounted(lc, sentences, rest)
    ensures WellCounted(lc, sentences, RepetitionHead(lc, sentences, p) + rest)
  {
    var head := RepetitionHead(lc, sentences, p);
    var r := head + rest;
    forall k | 0 <= k < |r|
      ensures && |r[k].phrase| > 0
              && r[k].count == CountMatches(lc, r[k].phrase, 0) > 0
              && r[k].examples == Examples(sentences, r[k].phrase)
    {
      if k < |head| {
        assert r[k] == head[0];
      } else {
        assert r[k] == rest[k - |head|];
      }
    }
  }

  function TotalCount(reps: seq<Repetition>): nat
  {
    if |reps| == 0 then 0 else reps[0].count + TotalCount(reps[1..])
  }

  const AvoidRepetition := "Evite repetições e muletas de linguagem: faça pausas, use sinônimos ou reformule as frases."
  const NothingFound := "Nenhum vício de linguagem óbvio detectado pelo analisador local."
  const NoOccurrences := "Nenhuma ocorrência detectada."

  /** `local_filler_analysis(text)`. */
  function LocalFillerAnalysis(text: string): (r: FillerReport)
    ensures Phrases(r.repetitions) == Pick(Found(Lower(text), CommonFillers), CommonFillers)
    ensures WellCounted(Lower(text), Sentences(text), r.repetitions)
    ensures |r.suggestions| == 1
    ensures r.suggestions[0] == (if |r.repetitions| == 0 then NothingFound else AvoidRepetition)
    ensures r.summary == NoOccurrences <==> |r.repetitions| == 0
    ensures |r.repetitions| > 0 ==>
      (r.summary == "Detectados " + NatToString(TotalCount(r.repetitions)) + " ocorrências de vícios de linguagem em "
                    + NatToString(|r.repetitions|) + " tipos diferentes.")
  {
    FillersNonEmpty();
    var reps := Repetitions(Lower(text), Sentences(text), CommonFillers);
    var summary := FillerSummary(reps);
    FillerReport(summary, reps, [if |reps| == 0 then NothingFound else AvoidRepetition])
  }

  lemma FillersNonEmpty()
    ensures NonEmptyPhrases(CommonFillers)
  {
  }

  /** The summary line: the no-occurrence notice exactly when nothing was found. */
  function FillerSummary(reps: seq<Repetition>): (s: string)
    ensures s == NoOccurrences <==> |reps| == 0
    ensures |reps| > 0 ==>
      (s == "Detectados " + NatToString(TotalCount(reps)) + " ocorrências de vícios de linguagem em "
            + NatToString(|reps|) + " tipos diferentes.")
  {
    if |reps| == 0 then NoOccurrences
    else
      var s := "Detectados " + NatToString(TotalCount(reps)) + " ocorrências de vícios de linguagem em "
               + NatToString(|reps|) + " tipos diferentes.";
      assert s[0] == 'D' && NoOccurrences[0] == 'N';
      s
  }

  lemma FillersDistinct()
    ensures forall i, j :: 0 <= i < j < |CommonFillers| ==> CommonFillers[i] != CommonFillers[j]
  {
  }

  /** A filler is reported exactly when it occurs as a whole word in the lower-cased text. */
  lemma FillerReportedIffMatched(text: string, k: nat)
    requires k < |CommonFillers|
    ensures CommonFillers[k] in Phrases(LocalFillerAnalysis(text).repetitions)
            <==> exists i :: 0 <= i <= |text| && MatchAt(Lower(text), CommonFillers[k], i)
  {
    var lc := Lower(text);
    FillersDistinct();
    PickMember(Found(lc, CommonFillers), CommonFillers, k);
    if CountMatches(lc, CommonFillers[k], 0) > 0 {
      var i := CountedIsMatch(lc, CommonFillers[k], 0);
    }
    if exists i :: 0 <= i <= |text| && MatchAt(lc, CommonFillers[k], i) {
      var i :| 0 <= i <= |text| && MatchAt(lc, CommonFillers[k], i);
      MatchIsCounted(lc, CommonFillers[k], 0, i);
    }
  }

  /** The sample sentence of the module's tests, cut around its first filler. */
  const SampleHead := "Bom, eu fui lá e"
  const SampleText := SampleHead + " tipo " + "falei assim: isso é muito bom. Aí eu pensei, né, que seria ok."

  /** The sample sentence of the module's tests reports "tipo" at least once. */
  lemma SampleReportsTipo()
    ensures "tipo" in Phrases(LocalFillerAnalysis(SampleText).repetitions)
  {
    var lc := Lower(SampleText);
    var i := |SampleHead|;
    assert SampleText[i..i + 6] == " tipo ";
    assert lc[i] == ' ' && lc[i + 1] == 't' && lc[i + 2] == 'i' && lc[i + 3] == 'p' && lc[i + 4] == 'o' && lc[i + 5] == ' ';
    assert lc[i + 1..i + 5] == "tipo";
    assert MatchAt(lc, "tipo", i + 1);
    FillerReportedIffMatched(SampleText, 0);
  }

  // ---------------------------------------------------------------- feedback fallback

  /** `FeedbackInput`: the transcript, how many pose observations, and each
      vice's `phrase` entry (`None` when the dictionary lacks it). */
  datatype FeedbackInput = FeedbackInput(transcript: string, poses: nat, vices: seq<Option<string>>)

  datatype Feedback = Feedback(text: string, highlights: seq<string>)

  const VicesPrefix := "Vícios de linguagem detectados: "
  const NoVices := "Sem" + " vícios de linguagem significativos detectados."

  function VicePhrases(vices: seq<Option<string>>): (r: Option<seq<string>>)
    ensures r.Some? <==> forall k :: 0 <= k < |vices| ==> vices[k].Some?
    ensures r.Some? ==> |r.value| == |vices|
  {
    if |vices| == 0 then Some([])
    else
      var rest := VicePhrases(vices[1..]);
      if vices[0].None? || rest.None? then None else Some([vices[0].value] + rest.value)
  }

  /** `inp.transcript.strip().split('.')[0][:200]`, stripped again. */
  function Opening(transcript: string): string
  {
    var first := SplitOn(Strip(transcript), '.')[0];
    Strip(first[..MinNat(200, |first|)])
  }

  /** `compose_feedback_fallback(inp)`; a vice without a `phrase` key raises `KeyError`. */
  function ComposeFeedbackFallback(inp: FeedbackInput): (r: Result<Feedback>)
    ensures r.Err? <==> |inp.vices| > 0 && exists k :: 0 <= k < |inp.vices| && inp.vices[k].None?
    ensures r.Ok? ==> r.value.text == Join(r.value.highlights, " ")
    ensures r.Ok? ==> |r.value.highlights| == 1 + (if inp.poses > 0 then 1 else 0) + (if |inp.transcript| > 0 then 1 else 0)
    ensures r.Ok? ==> (|inp.vices| == 0 <==> r.value.highlights[0] == NoVices)
    ensures r.Ok? && |inp.vices| > 0 ==>
      |r.value.highlights[0]| >= |VicesPrefix| && r.value.highlights[0][..|VicesPrefix|] == VicesPrefix
  {
    var phrases := VicePhrases(inp.vices);
    if |inp.vices| > 0 && phrases.None? then Err("KeyError: 'phrase'")
    else
      var vice := if |inp.vices| > 0 then VicesPrefix + Join(phrases.value, ", ") + "." else NoVices;
      assert |inp.vices| > 0 ==> vice[..|VicesPrefix|] == VicesPrefix && vice != NoVices by {
        if |inp.vices| > 0 {
          assert vice[..|VicesPrefix|] == VicesPrefix;
          assert VicesPrefix[0] == 'V' && NoVices[0] == 'S';
          assert vice[0] != NoVices[0];
        }
      }
      var pose := if inp.poses > 0 then ["Foram detectadas " + NatToString(inp.poses) + " observações de pose durante a apresentação."] else [];
      var content := if |inp.transcript| > 0 then ["Conteúdo: comece com: '" + Opening(inp.transcript) + "'..."] else [];
      var bullets := [vice] + pose + content;
      Ok(Feedback(Join(bullets, " "), bullets))
  }

  /** `sep.join(xs)` starts with its first item. */
  lemma JoinStartsWithFirst(xs: seq<string>, sep: string)
    requires |xs| > 0
    ensures |xs[0]| <= |Join(xs, sep)| && Join(xs, sep)[..|xs[0]|] == xs[0]
  {
    if |xs| > 1 {
      assert Join(xs, sep) == xs[0] + (sep + Join(xs[1..], sep));
    }
  }

  /** With a vice reported, the fallback text names the detected vices. */
  lemma FallbackMentionsVices(inp: FeedbackInput)
    requires |inp.vices| > 0 && ComposeFeedbackFallback(inp).Ok?
    ensures Contains(ComposeFeedbackFallback(inp).value.text, "Vícios de linguagem detectados")
  {
    var fb := ComposeFeedbackFallback(inp).value;
    JoinStartsWithFirst(fb.highlights, " ");
    PrefixedByVices(fb.text, fb.highlights[0]);
  }

  /** A text starting with a vices bullet names the detected vices. */
  lemma PrefixedByVices(t: string, h: string)
    requires |h| >= |VicesPrefix| && h[..|VicesPrefix|] == VicesPrefix
    requires |h| <= |t| && t[..|h|] == h
    ensures Contains(t, "Vícios de linguagem detectados")
  {
    var p := "Vícios de linguagem detectados";
    assert VicesPrefix[..|p|] == p;
    assert t[..|p|] == h[..|VicesPrefix|][..|p|];
    ContainsPrefix(t, p);
  }

  // ---------------------------------------------------------------- request handling

  /** `/analyze`: blank text is refused with status 400; otherwise the local
      model's report when it answers in the expected form (`model`), else the
      local filler analysis. */
  function Analyze(text: string, model: Option<FillerReport>): (r: Result<FillerReport>)
    ensures r.Err? <==> IsBlank(text)
    ensures r.Err? ==> r.error == "400: campo 'text' vazio"
    ensures r.Ok? && model.None? ==> r.value == LocalFillerAnalysis(text)
  {
    StripEmptyIffBlank(text);
    if |text| == 0 || Strip(text) == [] then Err("400: campo 'text' vazio")
    else Ok(model.GetOr(LocalFillerAnalysis(text)))
  }

  const RemoteRefused := "OLLAMA_URL inválido ou não-local; operações remotas proibidas"
  const NoDependencies := "httpx/fastapi dependencies não instaladas; chamada ao Ollama indisponível"

  predicate IsLocalHost(host: Option<string>)
  {
    host.None? || host.value == "localhost" || host.value == "127.0.0.1"
  }

  /** The checks `call_ollama` makes before any request, given the parsed host
      of `OLLAMA_URL` (`Err` when parsing fails) and whether the HTTP client is
      installed. The specific "remote calls" error is raised inside the `try`
      and replaced by the handler's generic message. */
  function OllamaGate(host: Result<Option<string>>, hasDependencies: bool): (r: Result<()>)
    ensures r.Ok? <==> host.Ok? && IsLocalHost(host.value) && hasDependencies
    ensures host.Err? || !IsLocalHost(host.value) ==> r == Err(RemoteRefused)
  {
    if host.Err? || !IsLocalHost(host.value) then Err(RemoteRefused)
    else if !hasDependencies then Err(NoDependencies)
    else Ok(())
  }
}
