/** `generate_combined_insights` of src/BackEnd/api/app.py: strengths, areas
    for improvement and recommendations drawn from the speech, visual and
    content analyses, each of which may be missing or an error report. */
module CombinedInsights {
  import opened Basics

  /** One analysis in the results dictionary: missing, an `{'error': ...}` report, or its scores. */
  datatype Section<T> = Absent | Failed | Scores(data: T)

  /** The scores each rule reads; a key missing from the dictionary is `None` and reads as 0. */
  datatype Speech = Speech(clarity: Option<real>, pace: Option<real>, fillerFrequency: Option<real>)
  datatype Visual = Visual(eyeContact: Option<real>, posture: Option<real>, gestures: Option<real>)
  datatype Content = Content(structure: Option<real>, relevance: Option<real>, jargon: Option<real>)

  datatype Results = Results(speech: Section<Speech>, visual: Section<Visual>, content: Section<Content>)

  datatype Insights = Insights(summary: string, strengths: seq<string>, improvements: seq<string>, recommendations: seq<string>)

  const SpeechStrengths: seq<string> := ["Boa clareza de fala", "Ritmo de fala adequado"]
  const SpeechAreas: seq<string> := ["Melhorar a clareza da fala", "Reduzir o uso de palavras de preenchimento"]
  const SpeechAdvice: seq<string> := [
    "Pratique a articulação e reduza a velocidade em partes complexas",
    "Esteja consciente de palavras como 'hum', 'é', 'tipo' e faça pausas silenciosas em vez disso"]
  const VisualStrengths: seq<string> := ["Bom contato visual", "Boa postura corporal"]
  const VisualAreas: seq<string> := ["Melhorar o contato visual com a audiência", "Usar mais gestos para enfatizar pontos"]
  const VisualAdvice: seq<string> := [
    "Olhe para diferentes partes da sala e mantenha contato visual por 3-5 segundos",
    "Incorpore gestos naturais que complementem suas palavras"]
  const ContentStrengths: seq<string> := ["Boa estrutura de conteúdo", "Conteúdo altamente relevante"]
  const ContentAreas: seq<string> := ["Melhorar a estrutura e organização do conteúdo", "Reduzir o uso de jargão técnico"]
  const ContentAdvice: seq<string> := [
    "Use uma estrutura clara com introdução, pontos principais e conclusão",
    "Explique termos técnicos ou substitua por linguagem mais acessível"]
  const DefaultAdvice: seq<string> := [
    "Continue praticando suas apresentações",
    "Grave-se para auto-avaliação",
    "Peça feedback de colegas confiáveis"]

  const AllStrengths := SpeechStrengths + VisualStrengths + ContentStrengths
  const AllAreas := SpeechAreas + VisualAreas + ContentAreas
  const AllAdvice := SpeechAdvice + VisualAdvice + ContentAdvice

  /** The speech rules: (strength flags, improvement flags); all off unless the section has scores. */
  function SpeechFlags(s: Section<Speech>): (r: (seq<bool>, seq<bool>))
    ensures |r.0| == 2 && |r.1| == 2
    ensures !s.Scores? ==> r == ([false, false], [false, false])
  {
    match s
    case Scores(d) =>
      var clarity := d.clarity.GetOr(0.0);
      var pace := d.pace.GetOr(0.0);
      ([clarity > 0.7, 0.6 < pace < 0.8], [clarity < 0.5, d.fillerFrequency.GetOr(0.0) > 0.1])
    case _ => ([false, false], [false, false])
  }

  function VisualFlags(s: Section<Visual>): (r: (seq<bool>, seq<bool>))
    ensures |r.0| == 2 && |r.1| == 2
    ensures !s.Scores? ==> r == ([false, false], [false, false])
  {
    match s
    case Scores(d) =>
      var eye := d.eyeContact.GetOr(0.0);
      ([eye > 0.7, d.posture.GetOr(0.0) > 0.7], [eye < 0.5, d.gestures.GetOr(0.0) < 0.4])
    case _ => ([false, false], [false, false])
  }

  function ContentFlags(s: Section<Content>): (r: (seq<bool>, seq<bool>))
    ensures |r.0| == 2 && |r.1| == 2
    ensures !s.Scores? ==> r == ([false, false], [false, false])
  {
    match s
    case Scores(d) =>
      var structure := d.structure.GetOr(0.0);
      ([structure > 0.7, d.relevance.GetOr(0.0) > 0.8], [structure < 0.5, d.jargon.GetOr(0.0) > 0.7])
    case _ => ([false, false], [false, false])
  }

  function StrengthFlags(r: Results): (f: seq<bool>)
    ensures |f| == 6
  {
    SpeechFlags(r.speech).0 + VisualFlags(r.visual).0 + ContentFlags(r.content).0
  }

  function ImprovementFlags(r: Results): (f: seq<bool>)
    ensures |f| == 6
  {
    SpeechFlags(r.speech).1 + VisualFlags(r.visual).1 + ContentFlags(r.content).1
  }

  /** `generate_combined_insights(analysis_results)`. Every improvement is
      appended together with its recommendation; three general recommendations
      stand in when no rule produced one. */
  function GenerateCombinedInsights(r: Results): (out: Insights)
    ensures out.strengths == Pick(StrengthFlags(r), AllStrengths)
    ensures out.improvements == Pick(ImprovementFlags(r), AllAreas)
    ensures |out.improvements| > 0 ==> out.recommendations == Pick(ImprovementFlags(r), AllAdvice)
    ensures |out.improvements| > 0 ==> |out.recommendations| == |out.improvements|
    ensures |out.improvements| == 0 ==> out.recommendations == DefaultAdvice
    ensures |out.recommendations| >= 1
    ensures |out.strengths| <= 6 && |out.improvements| <= 6
  {
    var s := SpeechFlags(r.speech);
    var v := VisualFlags(r.visual);
    var c := ContentFlags(r.content);
    var strengths := Pick(s.0, SpeechStrengths) + Pick(v.0, VisualStrengths) + Pick(c.0, ContentStrengths);
    PickAppend(s.0, SpeechStrengths, v.0, VisualStrengths);
    PickAppend(s.0 + v.0, SpeechStrengths + VisualStrengths, c.0, ContentStrengths);
    var areas := Pick(s.1, SpeechAreas) + Pick(v.1, VisualAreas) + Pick(c.1, ContentAreas);
    PickAppend(s.1, SpeechAreas, v.1, VisualAreas);
    PickAppend(s.1 + v.1, SpeechAreas + VisualAreas, c.1, ContentAreas);
    var advice := Pick(s.1, SpeechAdvice) + Pick(v.1, VisualAdvice) + Pick(c.1, ContentAdvice);
    PickAppend(s.1, SpeechAdvice, v.1, VisualAdvice);
    PickAppend(s.1 + v.1, SpeechAdvice + VisualAdvice, c.1, ContentAdvice);
    Insights("Análise de apresentação completa", strengths, areas, if |advice| == 0 then DefaultAdvice else advice)
  }

  /** A strength is reported exactly when its rule fires on a section that has scores. */
  lemma StrengthReportedIffRuleFires(r: Results, k: nat)
    requires k < 6
    ensures AllStrengths[k] in GenerateCombinedInsights(r).strengths <==> StrengthFlags(r)[k]
  {
    PickMember(StrengthFlags(r), AllStrengths, k);
  }

  /** An area is reported for improvement exactly when its rule fires on a
      section that has scores, and its recommendation comes with it. */
  lemma ImprovementReportedIffRuleFires(r: Results, k: nat)
    requires k < 6
    ensures AllAreas[k] in GenerateCombinedInsights(r).improvements <==> ImprovementFlags(r)[k]
    ensures ImprovementFlags(r)[k] ==> AllAdvice[k] in GenerateCombinedInsights(r).recommendations
  {
    PickMember(ImprovementFlags(r), AllAreas, k);
    if ImprovementFlags(r)[k] {
      PickMember(ImprovementFlags(r), AllAdvice, k);
    }
  }

  /** A missing or failed section adds nothing. */
  lemma FailedSectionsAddNothing()
    ensures GenerateCombinedInsights(Results(Failed, Absent, Failed))
         == Insights("Análise de apresentação completa", [], [], DefaultAdvice)
  {
  }
}
