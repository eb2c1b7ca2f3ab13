/** The end-of-session report, `generate_final_report` with
    `get_performance_level` and `generate_next_steps`.  The copies in
    app/main.py and src/qualcomm/app_fixed.py compute the same report (the
    second also writes it to a JSON file, which is outside the model).

    The input is the session's `scores_history`: one
    `[posture, gesture, eye, overall]` row per analysed frame. */
module SessionReport {
  import opened Basics
  import opened Text
  import opened Scoring

  /** Column `k` of a row, as in `scores[:, k]`. */
  function Field(row: FrameRow, k: nat): real
    requires k < 4
  {
    if k == 0 then row.posture else if k == 1 then row.gesture else if k == 2 then row.eye else row.overall
  }

  function Column(rows: seq<FrameRow>, k: nat): (c: seq<real>)
    requires k < 4
    ensures |c| == |rows|
    ensures forall i :: 0 <= i < |rows| ==> c[i] == Field(rows[i], k)
  {
    seq(|rows|, i requires 0 <= i < |rows| => Field(rows[i], k))
  }

  /** `np.mean(scores, axis=0)`: the mean of each column. */
  function ColumnMeans(rows: seq<FrameRow>): FrameRow
    requires |rows| > 0
  {
    FrameRow(Mean(Column(rows, 0)), Mean(Column(rows, 1)), Mean(Column(rows, 2)), Mean(Column(rows, 3)))
  }

  /** Every column of the row lies in `[lo, hi]`. */
  predicate RowWithin(row: FrameRow, lo: real, hi: real)
  {
    lo <= row.posture <= hi && lo <= row.gesture <= hi && lo <= row.eye <= hi && lo <= row.overall <= hi
  }

  const Zero := FrameRow(0.0, 0.0, 0.0, 0.0)

  /** Second-half means minus first-half means, split at `n // 2` (so for odd
      `n` the second half holds the extra row); all zero for at most 10 rows. */
  function Improvements(rows: seq<FrameRow>): (r: FrameRow)
    ensures |rows| <= 10 ==> r == Zero
  {
    if |rows| > 10 then
      var first := ColumnMeans(rows[..|rows| / 2]);
      var second := ColumnMeans(rows[|rows| / 2..]);
      FrameRow(second.posture - first.posture, second.gesture - first.gesture,
               second.eye - first.eye, second.overall - first.overall)
    else Zero
  }

  /** The two halves partition the rows, and the second is never the shorter one. */
  lemma HalvesSplitRows(rows: seq<FrameRow>)
    ensures rows[..|rows| / 2] + rows[|rows| / 2..] == rows
    ensures |rows[|rows| / 2..]| == |rows[..|rows| / 2]| + |rows| % 2
  {
  }

  lemma ColumnMeansWithin(rows: seq<FrameRow>, lo: real, hi: real)
    requires |rows| > 0
    requires forall i :: 0 <= i < |rows| ==> RowWithin(rows[i], lo, hi)
    ensures RowWithin(ColumnMeans(rows), lo, hi)
  {
    MeanBounds(Column(rows, 0), lo, hi);
    MeanBounds(Column(rows, 1), lo, hi);
    MeanBounds(Column(rows, 2), lo, hi);
    MeanBounds(Column(rows, 3), lo, hi);
  }

  /** Rows within `[lo, hi]` give averages within `[lo, hi]` and improvements
      within `[lo - hi, hi - lo]`. */
  lemma ReportFiguresWithin(rows: seq<FrameRow>, lo: real, hi: real)
    requires |rows| > 0
    requires forall i :: 0 <= i < |rows| ==> RowWithin(rows[i], lo, hi)
    ensures RowWithin(ColumnMeans(rows), lo, hi)
    ensures RowWithin(Improvements(rows), lo - hi, hi - lo)
  {
    ColumnMeansWithin(rows, lo, hi);
    if |rows| > 10 {
      ColumnMeansWithin(rows[..|rows| / 2], lo, hi);
      ColumnMeansWithin(rows[|rows| / 2..], lo, hi);
    }
  }

  /** The column means of identical rows are that row. */
  lemma ConstantColumnMeans(rows: seq<FrameRow>, row: FrameRow)
    requires |rows| > 0
    requires forall i :: 0 <= i < |rows| ==> rows[i] == row
    ensures ColumnMeans(rows) == row
  {
    MeanAtCeiling(Column(rows, 0), row.posture, row.posture);
    MeanAtCeiling(Column(rows, 1), row.gesture, row.gesture);
    MeanAtCeiling(Column(rows, 2), row.eye, row.eye);
    MeanAtCeiling(Column(rows, 3), row.overall, row.overall);
  }

  /** A session that never changes reports its one row as the averages and no improvement. */
  lemma ConstantSessionHasNoImprovement(rows: seq<FrameRow>, row: FrameRow)
    requires |rows| > 0
    requires forall i :: 0 <= i < |rows| ==> rows[i] == row
    ensures ColumnMeans(rows) == row
    ensures Improvements(rows) == Zero
  {
    ConstantColumnMeans(rows, row);
    if |rows| > 10 {
      ConstantColumnMeans(rows[..|rows| / 2], row);
      ConstantColumnMeans(rows[|rows| / 2..], row);
    }
  }

  // ------------------------------------------------- strengths and weaknesses

  const PostureStrength := "Postura ereta e bem alinhada"
  const GestureStrength := "Uso expressivo de gestos"
  const EyeStrength := "Excelente contato visual"
  const PostureWeakness := "Postura precisa de melhoria"
  const GestureWeakness := "Gestos limitados"
  const EyeWeakness := "Contato visual inconsistente"

  /** Strengths: posture ≥ 75, gesture ≥ 60, eye ≥ 75, in that order. */
  function Strengths(avg: FrameRow): (r: seq<string>)
    ensures PostureStrength in r <==> avg.posture >= 75.0
    ensures GestureStrength in r <==> avg.gesture >= 60.0
    ensures EyeStrength in r <==> avg.eye >= 75.0
    ensures |r| <= 3
  {
    var flags := [avg.posture >= 75.0, avg.gesture >= 60.0, avg.eye >= 75.0];
    var items := [PostureStrength, GestureStrength, EyeStrength];
    PickMember(flags, items, 0);
    PickMember(flags, items, 1);
    PickMember(flags, items, 2);
    Pick(flags, items)
  }

  /** Weaknesses: the `elif` branch after each strength test, posture < 50,
      gesture < 40, eye < 50. */
  function Weaknesses(avg: FrameRow): (r: seq<string>)
    ensures PostureWeakness in r <==> avg.posture < 50.0
    ensures GestureWeakness in r <==> avg.gesture < 40.0
    ensures EyeWeakness in r <==> avg.eye < 50.0
    ensures forall x :: x in r ==> x == PostureWeakness || x == GestureWeakness || x == EyeWeakness
  {
    var flags := [!(avg.posture >= 75.0) && avg.posture < 50.0,
                  !(avg.gesture >= 60.0) && avg.gesture < 40.0,
                  !(avg.eye >= 75.0) && avg.eye < 50.0];
    var items := [PostureWeakness, GestureWeakness, EyeWeakness];
    PickMember(flags, items, 0);
    PickMember(flags, items, 1);
    PickMember(flags, items, 2);
    Pick(flags, items)
  }

  /** Because each metric goes through `if … elif …`, no metric is both a
      strength and a weakness. */
  lemma NoMetricBothStrongAndWeak(avg: FrameRow)
    ensures !(PostureStrength in Strengths(avg) && PostureWeakness in Weaknesses(avg))
    ensures !(GestureStrength in Strengths(avg) && GestureWeakness in Weaknesses(avg))
    ensures !(EyeStrength in Strengths(avg) && EyeWeakness in Weaknesses(avg))
  {
  }

  // ---------------------------------------------------------- recommendations

  const PostureAdvice := "🧘‍♂️ Pratique manter os ombros alinhados e a coluna ereta"
  const GestureAdvice := "🟡 Use mais gestos com as mãos para enfatizar pontos importantes"
  const EyeAdvice := "🔴 Mantenha contato visual direto com a câmera/audiência"
  const OverallAdvice := "📈 Considere praticar técnicas de apresentação em público"

  /** One recommendation per metric below its bar: posture < 70, gesture < 50,
      eye < 60, overall < 60, in that order. */
  function Recommendations(avg: FrameRow): (r: seq<string>)
    ensures PostureAdvice in r <==> avg.posture < 70.0
    ensures GestureAdvice in r <==> avg.gesture < 50.0
    ensures EyeAdvice in r <==> avg.eye < 60.0
    ensures OverallAdvice in r <==> avg.overall < 60.0
    ensures |r| <= 4
  {
    var flags := [avg.posture < 70.0, avg.gesture < 50.0, avg.eye < 60.0, avg.overall < 60.0];
    var items := [PostureAdvice, GestureAdvice, EyeAdvice, OverallAdvice];
    PickMember(flags, items, 0);
    PickMember(flags, items, 1);
    PickMember(flags, items, 2);
    PickMember(flags, items, 3);
    Pick(flags, items)
  }

  const PostureProgress := "📈 Melhorou significativamente na postura"
  const GestureProgress := "📈 Melhorou significativamente nos gestos"
  const EyeProgress := "📈 Melhorou significativamente no contato visual"

  /** A progress line for each of posture, gesture and eye that improved by strictly more than 5. */
  function Progress(imp: FrameRow): (r: seq<string>)
    ensures PostureProgress in r <==> imp.posture > 5.0
    ensures GestureProgress in r <==> imp.gesture > 5.0
    ensures EyeProgress in r <==> imp.eye > 5.0
    ensures |r| <= 3
  {
    var flags := [imp.posture > 5.0, imp.gesture > 5.0, imp.eye > 5.0];
    var items := [PostureProgress, GestureProgress, EyeProgress];
    PickMember(flags, items, 0);
    PickMember(flags, items, 1);
    PickMember(flags, items, 2);
    Pick(flags, items)
  }

  // ------------------------------------------------------- performance level

  function LevelRank(level: string): nat
  {
    if level == "Excelente" then 3 else if level == "Bom" then 2 else if level == "Regular" then 1 else 0
  }

  /** `get_performance_level`: bands at 85, 70 and 55. */
  function PerformanceLevel(overall: real): (r: string)
    ensures r == "Excelente" <==> overall >= 85.0
    ensures r == "Bom" <==> 70.0 <= overall < 85.0
    ensures r == "Regular" <==> 55.0 <= overall < 70.0
    ensures r == "Precisa Melhorar" <==> overall < 55.0
  {
    if overall >= 85.0 then "Excelente"
    else if overall >= 70.0 then "Bom"
    else if overall >= 55.0 then "Regular"
    else "Precisa Melhorar"
  }

  /** A higher overall score never gets a lower level. */
  lemma PerformanceLevelMonotone(a: real, b: real)
    requires a <= b
    ensures LevelRank(PerformanceLevel(a)) <= LevelRank(PerformanceLevel(b))
  {
  }

  // -------------------------------------------------------------- next steps

  const DailyPractice := "🧘‍♂️ Pratique por 10-15 minutos diariamente"
  const SpeakingCourse := "📚 Considere um curso de oratória"
  const PostureDrill := "🧘‍♂️ Pratique exercícios de postura"
  const GestureDrill := "🤲 Treine gestos específicos para diferentes tipos de apresentação"
  const EyeDrill := "👁️ Pratique olhar para diferentes pontos da audiência"
  const Reschedule := "🔄 Agende uma nova sessão de análise em 1 semana"

  /** `generate_next_steps`: two practice steps below 70, one drill per keyword
      found in `str(weaknesses)`, and always the reschedule step last. */
  function NextSteps(overall: real, weaknesses: seq<string>): (r: seq<string>)
    ensures 1 <= |r| <= 6
    ensures r[|r| - 1] == Reschedule
    ensures overall < 70.0 ==> |r| >= 3 && r[..2] == [DailyPractice, SpeakingCourse]
    ensures overall >= 70.0 ==> DailyPractice !in r && SpeakingCourse !in r
  {
    var text := ListRepr(weaknesses);
    var drills := Pick([Contains(text, "Postura"), Contains(text, "Gestos"), Contains(text, "Contato visual")],
                       [PostureDrill, GestureDrill, EyeDrill]);
    (if overall < 70.0 then [DailyPractice, SpeakingCourse] else []) + drills + [Reschedule]
  }

  /** The keyword test on `str(weaknesses)` fires exactly for the weaknesses the
      report lists: no weakness text contains another metric's keyword, and the
      list's brackets, quotes and commas cannot spell one. */
  lemma KeywordsMatchWeaknesses(avg: FrameRow)
    ensures Contains(ListRepr(Weaknesses(avg)), "Postura") <==> avg.posture < 50.0
    ensures Contains(ListRepr(Weaknesses(avg)), "Gestos") <==> avg.gesture < 40.0
    ensures Contains(ListRepr(Weaknesses(avg)), "Contato visual") <==> avg.eye < 50.0
  {
    var ws := Weaknesses(avg);
    KeywordTest(ws, PostureWeakness, "Postura");
    KeywordTest(ws, GestureWeakness, "Gestos");
    KeywordTest(ws, EyeWeakness, "Contato visual");
  }

  lemma KeywordTest(ws: seq<string>, w: string, key: string)
    requires forall x :: x in ws ==> x == PostureWeakness || x == GestureWeakness || x == EyeWeakness
    requires (w, key) in {(PostureWeakness, "Postura"), (GestureWeakness, "Gestos"), (EyeWeakness, "Contato visual")}
    ensures Contains(ListRepr(ws), key) <==> w in ws
  {
    assert |key| > 0 && w[..|key|] == key;
    if w in ws {
      var k :| 0 <= k < |ws| && ws[k] == w;
      ListReprContainsMember(ws, k);
      ContainsPrefix(w, key);
      ContainsTrans(ListRepr(ws), w, key);
    } else {
      forall k, i | 0 <= k < |ws| && 0 <= i < |ws[k]|
        ensures ws[k][i] != key[0]
      {
        assert ws[k] in ws;
      }
      ListReprLacksChar(ws, key[0]);
      NotContainsWithoutFirstChar(ListRepr(ws), key);
    }
  }

  /** For the report's own weaknesses: a drill per weakness, two practice steps
      below 70, and the reschedule step. */
  lemma NextStepsFollowWeaknesses(avg: FrameRow)
    ensures PostureDrill in NextSteps(avg.overall, Weaknesses(avg)) <==> avg.posture < 50.0
    ensures GestureDrill in NextSteps(avg.overall, Weaknesses(avg)) <==> avg.gesture < 40.0
    ensures EyeDrill in NextSteps(avg.overall, Weaknesses(avg)) <==> avg.eye < 50.0
    ensures |NextSteps(avg.overall, Weaknesses(avg))|
              == (if avg.overall < 70.0 then 2 else 0) + |Weaknesses(avg)| + 1
  {
    KeywordsMatchWeaknesses(avg);
    DrillsFollowKeywords(avg.overall, Weaknesses(avg));
    WeaknessCount(avg);
    var text := ListRepr(Weaknesses(avg));
    assert [Contains(text, "Postura"), Contains(text, "Gestos"), Contains(text, "Contato visual")]
        == [avg.posture < 50.0, avg.gesture < 40.0, avg.eye < 50.0];
  }

  /** One drill per keyword found in `str(weaknesses)`, between the practice
      steps and the reschedule step. */
  lemma DrillsFollowKeywords(overall: real, ws: seq<string>)
    ensures var text := ListRepr(ws);
            && (PostureDrill in NextSteps(overall, ws) <==> Contains(text, "Postura"))
            && (GestureDrill in NextSteps(overall, ws) <==> Contains(text, "Gestos"))
            && (EyeDrill in NextSteps(overall, ws) <==> Contains(text, "Contato visual"))
            && |NextSteps(overall, ws)| == (if overall < 70.0 then 2 else 0)
                 + CountTrue([Contains(text, "Postura"), Contains(text, "Gestos"), Contains(text, "Contato visual")]) + 1
  {
    var text := ListRepr(ws);
    var found := [Contains(text, "Postura"), Contains(text, "Gestos"), Contains(text, "Contato visual")];
    var items := [PostureDrill, GestureDrill, EyeDrill];
    PickMember(found, items, 0);
    PickMember(found, items, 1);
    PickMember(found, items, 2);
    var practice: seq<string> := if overall < 70.0 then [DailyPractice, SpeakingCourse] else [];
    var drills := Pick(found, items);
    assert NextSteps(overall, ws) == practice + drills + [Reschedule];
    assert PostureDrill !in practice && GestureDrill !in practice && EyeDrill !in practice;
  }

  /** One weakness per metric below its bar. */
  lemma WeaknessCount(avg: FrameRow)
    ensures |Weaknesses(avg)| == CountTrue([avg.posture < 50.0, avg.gesture < 40.0, avg.eye < 50.0])
  {
    assert [!(avg.posture >= 75.0) && avg.posture < 50.0,
            !(avg.gesture >= 60.0) && avg.gesture < 40.0,
            !(avg.eye >= 75.0) && avg.eye < 50.0]
        == [avg.posture < 50.0, avg.gesture < 40.0, avg.eye < 50.0];
  }

  // ------------------------------------------------------------------ report

  datatype Report = Report(averages: FrameRow, improvements: FrameRow,
                           strengths: seq<string>, weaknesses: seq<string>,
                           recommendations: seq<string>, progress: seq<string>,
                           level: string, nextSteps: seq<string>)

  const NoDataError := "Nenhum dado coletado para análise"

  /** `generate_final_report` (before `round(_, 1)`): an error object for an
      empty history, otherwise the figures and lists above. */
  function FinalReport(rows: seq<FrameRow>): (r: Result<Report>)
    ensures r.Err? <==> |rows| == 0
    ensures r.Err? ==> r.error == NoDataError
    ensures r.Ok? ==> |r.value.nextSteps| >= 1 && |r.value.strengths| <= 3 && |r.value.recommendations| <= 4
  {
    if |rows| == 0 then Err(NoDataError)
    else
      var avg := ColumnMeans(rows);
      var imp := Improvements(rows);
      var weak := Weaknesses(avg);
      Ok(Report(avg, imp, Strengths(avg), weak, Recommendations(avg), Progress(imp),
                PerformanceLevel(avg.overall), NextSteps(avg.overall, weak)))
  }

  /** A short session (at most 10 frames) never reports progress. */
  lemma ShortSessionHasNoProgress(rows: seq<FrameRow>)
    requires 0 < |rows| <= 10
    ensures FinalReport(rows).Ok? && FinalReport(rows).value.progress == []
  {
  }

  /** With every frame scored inside [0, 100] the averages are too, so the
      report's level and lists follow from scores a frame could have had. */
  lemma InRangeSessionReport(rows: seq<FrameRow>)
    requires |rows| > 0
    requires forall i :: 0 <= i < |rows| ==> RowWithin(rows[i], 0.0, 100.0)
    ensures FinalReport(rows).Ok?
    ensures RowWithin(FinalReport(rows).value.averages, 0.0, 100.0)
    ensures RowWithin(FinalReport(rows).value.improvements, -100.0, 100.0)
  {
    ReportFiguresWithin(rows, 0.0, 100.0);
  }
}
