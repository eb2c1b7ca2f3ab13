# Communication scoring engine of edge-ai-hackathon, modelled in Dafny

This project models the part of the edge-ai-hackathon presentation coach that turns per-frame measurements into scores, feedback and reports. The measurements are body, hand and face landmarks, face boxes, and audio or transcript features. The model also covers the small record-keeping and text helpers around that engine. Everything is written as immutable datatypes and pure functions over `real`, `nat`, `seq` and `map`. Each operation's contract states what the original code promises, apart from the gaps listed under "## Left out", and lemmas relate operations to each other.

The Python source holds several near-duplicate copies of the pipeline. Each copy is modelled as written, in its own module:

- `Scoring`: the score triple, the three-tier feedback rule and the two ways of combining three scores.
- `LenientScoring`: the smoothed, config-clamped profile of `CommunicationAnalyzer` (app/core/analysis.py) and its camera loop in app/main.py.
- `Alignment`, `Deterministic`: the fixed-constant landmark formulas and the baseline-returning extractors of src/qualcomm/app_camera_fixed.py and app_debug.py.
- `Noisy`: the clamped, noisy copy in src/qualcomm/app_fixed.py.
- `SessionReport`: the end-of-session report, performance level and next steps (app/main.py, src/qualcomm/app_fixed.py).
- `CoreTracker`, `FeatureTracking`: the two back-end feature trackers. They cover the eye aspect ratio, per-frame blinks, movement, 30-entry windows and nervousness.
- `PatternAnalysis`, `LanguageService`, `ContentAnalysis`, `SpeechAnalysis`, `VisualAnalysis`, `CombinedInsights`: the heuristic text, speech and body-language analysers and the rule table that combines their results.
- `ReportHistory`, `PitchMonitoring`: the report history of `ReportManager` and the pitch monitor's three parallel capped lists.
- `SimpleVideoServer`, `VideoFrameServer`, `SessionServer`: the session windows, statistics, reset and message dispatch of the three websocket servers.
- `LandmarkFlattening`, `PoseClassifier`: the flat joint table and the fallback pose classifier.
- `UploadFilter`: the file-extension filters of the two video converters.
- `TrainingCollection`, `PostureTraining`: the posture sample collector and the threshold trainer.
- `Basics`, `Text`, `Landmarks`: the shared real-number, string and geometry helpers.

Anything the code gets from outside becomes an explicit parameter:

- **Detector outputs.** MediaPipe landmarks, Haar-cascade face boxes, tokenisers and audio features are inputs.
- **Noise.** Each `np.random.normal(0, σ)` is written `σ * z`, with the standard-normal draw `z` passed in.
- **Clocks.** A clock reading is a `now` argument.
- **Library maths.** Square root, standard deviation, percentile and arc cosine are function arguments. A predicate states the one property each proof needs, for example that `sqrt(x) * sqrt(x) == x` for `x >= 0`.

Three behaviours of the code are easy to misread, and the model follows the code in each:

- **Blinks are not debounced.** Every frame whose eye aspect ratio is below 0.25 counts as a blink, so a held eye closure counts once per frame (`CoreTracker.HeldBlinkCountsEveryFrame`).
- **The config update is shallow.** `update_config` is a plain `dict.update`, so a section named in the patch replaces the whole stored section (`LenientScoring.UpdateConfig`).
- **Smoothing is not clamped.** `smooth_score` returns `0.7·last + 0.3·raw` without a clamp. On the no-detection paths an unclamped raw score passes straight through, and the band holds only when both inputs are inside it (`LenientScoring.SmoothStaysInBand`).

## Model

| member | source | states |
|---|---|---|
| Scoring.TierOf | app/core/analysis.py:273-278 | the red tier exactly below the low threshold, yellow exactly from low up to below high, green exactly from high up (with low not above the score) |
| Scoring.TierMonotone | app/core/analysis.py:268-296 | a higher score never earns a worse tier |
| Scoring.TierBoundaryGoesUp | src/qualcomm/app_camera_fixed.py:493-521 | a score exactly on a threshold gets the tier above it |
| Scoring.Feedback | src/qualcomm/app_camera_fixed.py:493-521 | exactly one message per metric, in posture, gesture, eye order, each chosen by that metric's tier |
| Scoring.MeanOverall | src/qualcomm/app_camera_fixed.py:317 | the unweighted mean lies between the lowest and highest score, and equals them when all three agree |
| Scoring.WeightedOverall | app/core/analysis.py:298-311 | with non-negative weights summing to one, the overall score lies between the lowest and highest input |
| Scoring.Convex3 | app/core/analysis.py:301-309 | a convex combination of three values inside [lo, hi] stays inside [lo, hi] |
| LenientScoring.Param | app/core/analysis.py:25-47 | a lookup is present exactly when the section and key both exist in the configuration, and then gives the stored value; a missing one is the `KeyError` case |
| LenientScoring.UpdateConfig | app/core/analysis.py:61-71 | the shallow `dict.update` merge: the keys are the union, a section named in the patch replaces the stored one wholesale, and every other section is kept |
| LenientScoring.SmoothedValue | app/core/analysis.py:94-99 | the raw score is returned unchanged when the metric has no history; otherwise the gap to the raw score is 0.7 times the previous smoothed value's gap |
| LenientScoring.SmoothingBetween | app/core/analysis.py:96-97 | with history, the smoothed value lies between the previous smoothed value and the new raw score |
| LenientScoring.Smooth | app/core/analysis.py:94-108 | the result becomes `last_scores[metric]`, and the history is never empty afterwards |
| LenientScoring.SmoothKeepsRecentHistory | app/core/analysis.py:101-106 | after a call the history has min(n + 1, 20) entries: the newest is the returned value, preceded by the most recent older entries in order |
| LenientScoring.SmoothingConverges | app/core/analysis.py:94-108 | fed a constant raw score k times, the smoothed value's gap to it shrinks to 0.7^k of the starting gap |
| LenientScoring.NewAnalyzer | app/core/analysis.py:15-59 | a new analyser has the default configuration, starting smoothed values 75/80/85 and empty histories |
| LenientScoring.SubScore | app/core/analysis.py:135-137 | `max(0, 100 - (m / t) * 30)` is never negative, is at most 100 for a non-negative measure, and is exactly 100 for a zero measure |
| LenientScoring.SubScoreAntitone | app/core/analysis.py:135-137 | with a positive threshold, a larger misalignment never gives a higher sub-score |
| LenientScoring.PostureBonus | app/core/analysis.py:142-146 | +25 in total when the base is above 50, and only +10 otherwise |
| LenientScoring.PostureRaw | app/core/analysis.py:110-159 | no pose gives 75 plus jitter without clamping; a detected pose takes the scoring branch exactly when every configured parameter it reads is usable, and the result is then inside [min_score, max_score]; otherwise the `except` branch gives 75 plus jitter |
| LenientScoring.PostureMonotone | app/core/analysis.py:127-152 | a pose at least as well aligned on shoulders, hips and spine never scores lower |
| LenientScoring.LevelPoseGetsMaximum | app/core/analysis.py:135-152 | a perfectly level pose under the default configuration with no jitter gets the maximum 98 |
| LenientScoring.AnalyzePosture | app/core/analysis.py:110-159 | only the posture track changes, and it is smoothed with the raw posture score; the returned score is the new smoothed value |
| LenientScoring.HandBand | app/core/analysis.py:182-190 | one hand scores 95 plus jitter above the high threshold, otherwise 85 + 1.5·jitter above the low threshold and 75 + 2·jitter at or below it; no score exactly when the high threshold is missing, or it is not exceeded and the low one is missing |
| LenientScoring.GestureBase | app/core/analysis.py:192-200 | one hand gets min(100, total) + 15; two or more get min(100, total / n) + 35 |
| LenientScoring.GestureRaw | app/core/analysis.py:161-213 | no hands reads `base_score_no_hands`, and its missing key is an error that reaches the caller; with hands the scoring branch runs exactly when every lookup succeeds and is clamped to the band; otherwise it falls back to 80 plus jitter |
| LenientScoring.DefaultQuietHandsSaturate | app/core/analysis.py:173-206 | under the default configuration with no jitter, any detected hands saturate at max_score 95 |
| LenientScoring.AnalyzeGestures | app/core/analysis.py:161-213 | an error leaves everything unchanged; otherwise only the gesture track changes, smoothed with the raw gesture score |
| LenientScoring.EyeBand | app/core/analysis.py:243-248 | a distance below the tolerance gives 98 plus jitter, from the tolerance up to 0.7 it gives 90 + 1.5·jitter and from 0.7 on 80 + 2·jitter; a NaN distance fails both comparisons and gives 80 + 2·jitter |
| LenientScoring.EyeRaw | app/core/analysis.py:215-266 | no face gives 80 plus jitter unclamped; a detected face takes the scoring branch exactly when the eye parameters are usable, and the result is clamped to the band; otherwise it gives 80 plus jitter |
| LenientScoring.DefaultQuietFaceSaturates | app/core/analysis.py:243-259 | under the default configuration with no jitter, any detected face saturates at max_score 95 |
| LenientScoring.AnalyzeEyeContact | app/core/analysis.py:215-266 | only the eye track changes, smoothed with the raw eye score |
| LenientScoring.Feedback | app/core/analysis.py:268-296 | exactly three messages in posture, gesture, eye order, with tiers <40/<65, <45/<70 and <50/<75; a score equal to a threshold gets the upper tier |
| LenientScoring.Overall | app/core/analysis.py:298-311 | the 0.35/0.30/0.35 weighted score lies between the lowest and highest of the three inputs, and equals them when all three agree |
| LenientScoring.ProcessFrame | app/main.py:497-518 | one loop pass keeps the configuration; when the gesture extractor raises, no row is appended; otherwise one `[posture, gesture, eye, overall]` row is appended |
| LenientScoring.QuietRunStaysInBand | app/main.py:497-518 | from a fresh analyser under the default configuration with no jitter, every smoothed score and every history row stays inside its metric's default band, whatever the detectors report |
| LenientScoring.QuietPostureInBand | app/core/analysis.py:110-159 | with no jitter, every branch of the posture extractor yields a raw score in [50, 98] |
| LenientScoring.QuietGestureInBand | app/core/analysis.py:161-213 | with no jitter, the gesture extractor does not raise and yields a raw score in [60, 95] |
| LenientScoring.QuietEyeInBand | app/core/analysis.py:215-266 | with no jitter, every branch of the eye extractor yields a raw score in [70, 95] |
| LenientScoring.SmoothStaysInBand | app/core/analysis.py:94-108 | smoothing a raw score inside [lo, hi] from a value inside [lo, hi] stays inside [lo, hi] |
| LenientScoring.QuietFrameStaysInBand | app/main.py:497-518 | one quiet frame keeps every track and every history row in band |
| Alignment.AlignmentScore | src/qualcomm/app_camera_fixed.py:419-421 | `max(0, 100 - measure * factor)` is never negative, is at most 100 for non-negative inputs, and is 100 exactly when the measure is 0 |
| Alignment.AlignmentScoreAntitone | src/qualcomm/app_camera_fixed.py:419-421 | a larger misalignment never gives a higher sub-score |
| Alignment.PostureFormula | src/qualcomm/app_camera_fixed.py:411-424 | the mean of the three sub-scores is in [0, 100], and is 100 exactly when shoulders and hips are level and the midpoints are at the same height |
| Alignment.PostureFormulaMonotone | src/qualcomm/app_debug.py:239-251 | a pose at least as well aligned on all three measures never scores lower |
| Alignment.PostureFormulaMirror | src/qualcomm/app_camera_fixed.py:411-417 | exchanging left and right landmarks does not change the score |
| Alignment.HandPoints | src/qualcomm/app_camera_fixed.py:446-453 | a hand gets 50 exactly when its spread exceeds 0.1, 10 exactly when it is at most 0.05, and otherwise 30 |
| Alignment.HandBands | src/qualcomm/app_camera_fixed.py:439-453 | one band per hand, in detection order, each in [10, 50] |
| Alignment.GestureFormula | src/qualcomm/app_camera_fixed.py:455 | `min(100, total / hand_count)` over a non-empty list of hands is in [10, 50] |
| Alignment.GestureTopIffAllActive | src/qualcomm/app_debug.py:273-283 | the gesture score is 50 exactly when every hand is spread wider than 0.1 |
| Alignment.GestureFloorIffAllStill | src/qualcomm/app_debug.py:273-283 | the gesture score is 10 exactly when no hand is spread wider than 0.05 |
| Alignment.EyeScoreOfOffset | src/qualcomm/app_camera_fixed.py:484 | the score is never negative, is at most 100 for a non-negative offset, and is 0 when the offset is NaN (zero-sized frame) |
| Alignment.EyeScoreOfOffsetShape | src/qualcomm/app_debug.py:308-314 | a non-negative offset scores 100 only at 0, and a larger offset never scores higher |
| Alignment.EyeFormula | src/qualcomm/app_camera_fixed.py:467-486 | the eye score is in [0, 100], and is 0 for a zero-sized frame |
| Alignment.CentredEyesScoreFull | src/qualcomm/app_camera_fixed.py:473-487 | eyes whose midpoint is the frame centre score 100 |
| Deterministic.AnalyzePosture | src/qualcomm/app_camera_fixed.py:397-428 | the posture score, with the landmark names resolved, is in [0, 100], and is the baseline 50 without a pose |
| Deterministic.AnalyzePostureAsWritten | src/qualcomm/app_camera_fixed.py:397-428 | without a pose the score is the baseline 50 |
| Deterministic.PostureAsWrittenIgnoresLandmarks | src/qualcomm/app_camera_fixed.py:406 | as written, the score never depends on the landmarks: a level pose that the formula rates 100 is reported as 50 |
| Deterministic.PostureAsWrittenCounterexample | src/qualcomm/app_debug.py:223-255 | there is a pose on which the written extractor and the intended one disagree |
| Deterministic.AnalyzeGestures | src/qualcomm/app_camera_fixed.py:430-460 | with the names resolved, the gesture score is in [10, 50], and is the baseline 30 without hands |
| Deterministic.AnalyzeGesturesAsWritten | src/qualcomm/app_camera_fixed.py:430-460 | without hands the score is the baseline 30 |
| Deterministic.GestureAsWrittenIgnoresHands | src/qualcomm/app_camera_fixed.py:441 | as written, any detected hands give the baseline 30, even widely spread hands that the formula rates 50 |
| Deterministic.AnalyzeEyeContact | src/qualcomm/app_camera_fixed.py:462-491 | the eye score is in [0, 100], and is the baseline 40 without a face |
| Deterministic.Frame | src/qualcomm/app_camera_fixed.py:306-319 | one loop pass gives posture and eye in [0, 100], gesture in [10, 50], an overall between the lowest and highest score, and three feedback messages |
| Deterministic.NothingDetectedGivesBaselines | src/qualcomm/app_debug.py:225-226 | with nothing detected, both copies report 50/30/40, overall 40, and the yellow posture, yellow gesture and red eye messages |
| Deterministic.GestureNeverGreen | src/qualcomm/app_camera_fixed.py:446-456 | hands score at most 50, below the green threshold 60, so the green gesture message is never shown; as written, the yellow one is always shown |
| Deterministic.IdealSpeakerAllGreen | src/qualcomm/app_camera_fixed.py:412-487 | a level, centred speaker with active hands scores 100/50/100 and gets the green posture and eye messages |
| Noisy.Clamp100 | src/qualcomm/app_fixed.py:685 | `max(0, min(100, x))` is in [0, 100] and leaves an in-range value unchanged |
| Noisy.Jitter | src/qualcomm/app_fixed.py:656-658 | the jittered previous score is in [0, 100], and with no noise an in-range previous score is held |
| Noisy.PostureImproved | src/qualcomm/app_fixed.py:654-692 | with the names resolved, the posture score is in [0, 100]; with no pose it is the previous score with σ-5 jitter |
| Noisy.PostureImprovedAsWritten | src/qualcomm/app_fixed.py:662-692 | as written, the score is in [0, 100], and with no pose it is the previous score with σ-5 jitter |
| Noisy.NoisyHandPoints | src/qualcomm/app_fixed.py:711-717 | with no noise a hand contributes exactly its 50/30/10 band |
| Noisy.QuietHandTotal | src/qualcomm/app_fixed.py:703-717 | with no noise the accumulated total is the sum of the per-hand bands |
| Noisy.GesturesImproved | src/qualcomm/app_fixed.py:694-731 | with the names resolved, the gesture score is in [0, 100]; with no hands it is the previous score with σ-3 jitter |
| Noisy.GesturesImprovedAsWritten | src/qualcomm/app_fixed.py:703-731 | as written, the score is in [0, 100], and with no hands it is the previous score with σ-3 jitter |
| Noisy.EyeContactImproved | src/qualcomm/app_fixed.py:733-769 | the eye score is in [0, 100]; with no face it is the previous score with σ-4 jitter |
| Noisy.QuietMatchesDeterministic | src/qualcomm/app_fixed.py:670-757 | with no noise and something detected, every extractor agrees with the deterministic copies' formulas |
| Noisy.AsWrittenIgnoresLandmarks | src/qualcomm/app_fixed.py:664 | as written, with no noise a level pose and widely spread hands keep the previous scores, where the formulas give 100 and 50 |
| Noisy.QuietUndetectedHoldsLast | src/qualcomm/app_fixed.py:656-658 | with no noise, the no-detection paths hold the previous score |
| Noisy.Start | src/qualcomm/app_fixed.py:534 | the loop starts from 50/30/40, which are in range, with an empty history |
| Noisy.Step | src/qualcomm/app_fixed.py:552-574 | one loop pass keeps the previous scores in range and appends exactly one row, `[p, g, e, mean]`, after the untouched older rows |
| Noisy.RunStaysInRange | src/qualcomm/app_fixed.py:534-574 | whatever the noise, a fresh session records one row per frame, every score in [0, 100] |
| SessionReport.Column | app/main.py:574-578 | `scores[:, k]` has one entry per row, and entry i is column k of row i |
| SessionReport.Improvements | app/main.py:580-588 | all four improvements are 0 for a session of at most 10 frames |
| SessionReport.HalvesSplitRows | app/main.py:582-583 | the halves split at `n // 2` partition the rows, and for odd n the second half holds the extra row |
| SessionReport.ColumnMeansWithin | app/main.py:574-578 | rows inside [lo, hi] give column means inside [lo, hi] |
| SessionReport.ReportFiguresWithin | app/main.py:574-588 | rows inside [lo, hi] give averages inside [lo, hi] and improvements inside [lo - hi, hi - lo] |
| SessionReport.ConstantColumnMeans | app/main.py:574-578 | the column means of identical rows are that row |
| SessionReport.ConstantSessionHasNoImprovement | app/main.py:574-588 | a session that never changes reports its row as the averages and no improvement |
| SessionReport.Strengths | app/main.py:594-607 | a strength is listed exactly when posture ≥ 75, gesture ≥ 60 or eye ≥ 75 |
| SessionReport.Weaknesses | app/main.py:594-607 | a weakness is listed exactly when posture < 50, gesture < 40 or eye < 50, and nothing else is listed |
| SessionReport.NoMetricBothStrongAndWeak | app/main.py:594-607 | the if/elif per metric means no metric is both a strength and a weakness |
| SessionReport.Recommendations | app/main.py:610-622 | one recommendation each exactly when posture < 70, gesture < 50, eye < 60 or overall < 60 |
| SessionReport.Progress | app/main.py:624-631 | a progress line for posture, gesture or eye exactly when its improvement is strictly above 5 |
| SessionReport.PerformanceLevel | app/main.py:663-672 | Excelente exactly at ≥ 85, Bom exactly in [70, 85), Regular exactly in [55, 70) and Precisa Melhorar exactly below 55 |
| SessionReport.PerformanceLevelMonotone | src/qualcomm/app_fixed.py:329-338 | a higher overall score never gets a lower level |
| SessionReport.NextSteps | app/main.py:674-693 | 1 to 6 steps, always ending with the reschedule step; below 70 the two practice steps come first, and otherwise they are absent |
| SessionReport.KeywordsMatchWeaknesses | app/main.py:681-688 | the keyword test on `str(weaknesses)` fires exactly for the listed weaknesses: no text contains another metric's keyword, and the brackets, quotes and commas cannot spell one |
| SessionReport.KeywordTest | app/main.py:681-688 | a keyword occurs in the list's `str` exactly when its weakness is listed |
| SessionReport.NextStepsFollowWeaknesses | app/main.py:674-693 | for the report's own weaknesses, there is a drill exactly per weakness, and the length is 2 (below 70) + the number of weaknesses + 1 |
| SessionReport.DrillsFollowKeywords | src/qualcomm/app_fixed.py:340-359 | a drill is listed exactly when its keyword is found, and the length counts the practice steps, the keywords found and the reschedule step |
| SessionReport.WeaknessCount | app/main.py:594-607 | one weakness per metric below its bar |
| SessionReport.FinalReport | app/main.py:564-661 | an error object exactly for an empty history; otherwise at least one next step, at most three strengths and at most four recommendations |
| SessionReport.ShortSessionHasNoProgress | src/qualcomm/app_fixed.py:221-314 | a session of 1 to 10 frames produces a report with no progress lines |
| SessionReport.InRangeSessionReport | app/main.py:564-661 | frames scored inside [0, 100] give a report whose averages are inside [0, 100] and whose improvements are inside [-100, 100] |
| CoreTracker.EyeAspectRatio | src/back-end/core_processing.py:70-86 | the ratio is never negative, and is the open-eye default 0.3 for fewer than six points or coinciding corners |
| CoreTracker.EarTranslationInvariant | src/back-end/core_processing.py:70-86 | moving every eye point by the same offset leaves the ratio unchanged |
| CoreTracker.ClosedEyeRatio | src/back-end/core_processing.py:70-86 | an eye whose upper and lower lid points coincide has ratio 0, or the guard's 0.3 when its corners coincide as well |
| CoreTracker.EyePoints | src/back-end/core_processing.py:95-100 | the eye's points are the mesh points at the eye indices, in index order |
| CoreTracker.DetectBlink | src/back-end/core_processing.py:88-113 | no face reads (False, 0.0); a mesh too short for the eye indices reads the handler's (False, 0.3); otherwise a blink exactly when the mean of both eyes' ratios is below 0.25 |
| CoreTracker.BlinkNeedsFullMesh | src/back-end/core_processing.py:88-113 | only a present face with every eye index in range can blink |
| CoreTracker.ClosedEyesBlink | src/back-end/core_processing.py:88-113 | both eyes closed with their corners apart is a blink with ratio 0 |
| CoreTracker.Displacements | src/back-end/core_processing.py:120-129 | one non-negative distance per zipped pair, as many as the shorter list |
| CoreTracker.Movement | src/back-end/core_processing.py:115-131 | movement is never negative, and is 0 when either frame has no landmarks |
| CoreTracker.StillLandmarksDoNotMove | src/back-end/core_processing.py:115-131 | landmarks compared with themselves give movement 0 |
| CoreTracker.MovementSymmetric | src/back-end/core_processing.py:115-131 | swapping the current and previous frames gives the same movement |
| CoreTracker.MovementIgnoresUnpaired | src/back-end/core_processing.py:120-131 | landmarks beyond the shorter list do not change the movement |
| CoreTracker.BlinkRate | src/back-end/core_processing.py:156 | the blink rate lies in [0, 60] |
| CoreTracker.BlinkRateExtremes | src/back-end/core_processing.py:156 | the rate is 0 exactly when no frame of the window blinked, and 60 exactly when every frame of a non-empty window did |
| CoreTracker.NervousnessFactors | src/back-end/core_processing.py:160-171 | each present factor lies in [0, 1], and there is one factor per positive input |
| CoreTracker.Nervousness | src/back-end/core_processing.py:173 | the score lies in [0, 1], and is 0 when neither the blink rate nor the hand movement is positive |
| CoreTracker.NervousnessBothFactors | src/back-end/core_processing.py:160-173 | with a positive blink rate and positive hand movement the score is the mean of the clamped blink factor and the capped hand factor |
| CoreTracker.NervousnessSingleFactor | src/back-end/core_processing.py:160-173 | with only one positive input the score is that input's factor |
| CoreTracker.LowBlinkRateHalvesHandFactor | src/back-end/core_processing.py:163-173 | a blink rate in (0, 12] adds a zero factor that still counts, halving the hand factor, so the score is not monotone in the blink rate |
| CoreTracker.NewTracker | src/back-end/core_processing.py:58-66 | a fresh tracker has empty, coherent windows and no previous frame |
| CoreTracker.FirstTen | src/back-end/core_processing.py:148 | `s[:10]` is the first min(|s|, 10) elements of s |
| CoreTracker.HandMovement | src/back-end/core_processing.py:144-145 | hand movement is never negative, and is 0 without hands or without a previous frame |
| CoreTracker.HeadMovement | src/back-end/core_processing.py:147-148 | head movement is never negative, and is 0 without a face or without a previous frame |
| CoreTracker.ExtractMetrics | src/back-end/core_processing.py:133-198 | the three windows each gain this frame's reading and keep the latest 30; the frame is remembered; the reported blink rate is the rate of the updated blink window (in [0, 60]), the blink count its closed frames, the average movements the means of the updated movement windows, and the score the nervousness of that rate and hand average (in [0, 1]); hands and face are counted as detected |
| CoreTracker.ExtractMetricsAsWritten | src/back-end/core_processing.py:147-148 | the written tracker raises exactly when a face arrives after a frame that stored no face; otherwise it agrees with the corrected tracker |
| CoreTracker.FaceReturnCrashes | src/back-end/core_processing.py:147-148 | one faceless frame followed by a face crashes the written tracker, while the corrected one reports head movement 0 |
| CoreTracker.FirstFrameHasNoMovement | src/back-end/core_processing.py:143-148 | the first frame of a fresh tracker has no hand or head movement |
| CoreTracker.Run | src/back-end/core_processing.py:58-62 | feeding frames keeps the windows coherent |
| CoreTracker.PushAllTrue | src/back-end/core_processing.py:151 | pushing a blink onto a window of blinks keeps every entry a blink |
| CoreTracker.HeldBlinkCountsEveryFrame | src/back-end/core_processing.py:104-108 | with no debounce, a closed eye held for k frames fills min(k, 30) window slots, every one a blink |
| CoreTracker.RunStepBlinks | src/back-end/core_processing.py:151 | the blink window after one more frame is the earlier window with that frame's reading pushed |
| CoreTracker.HeldBlinkSaturatesRate | src/back-end/core_processing.py:151-156 | an eye held closed for every frame reports a blink rate of 60 |
| CoreTracker.MaxChunks | src/back-end/core_processing.py:344 | the cap is the largest number of whole chunks that fit in five seconds of samples |
| CoreTracker.DefaultKeeps78Chunks | src/back-end/core_processing.py:333-344 | at 16000 Hz with 1024-sample chunks the buffer keeps 78 chunks |
| CoreTracker.KeepRecent | src/back-end/core_processing.py:345-346 | a positive cap keeps the last entries up to the cap, and a cap of 0 keeps everything, since `buf[-0:]` is the whole list |
| CoreTracker.ZeroCrossings | src/back-end/core_processing.py:351 | a non-empty chunk has fewer crossings than samples, and an empty one has none |
| CoreTracker.Energy | src/back-end/core_processing.py:356 | the energy is never negative |
| CoreTracker.ProcessAudioChunk | src/back-end/core_processing.py:338-360 | the chunk is appended and the buffer trimmed to the cap; features exist exactly for a non-empty chunk, with a non-negative volume whose square times the length is the energy |
| CoreTracker.AudioBufferBounded | src/back-end/core_processing.py:341-346 | with a positive cap the buffer stays within the cap and ends with the newest chunk; a cap of 0 never trims |
| CoreTracker.ZeroCrossingsPolarity | src/back-end/core_processing.py:351 | negating every sample keeps the number of zero crossings |
| CoreTracker.OneSignedHasNoCrossing | src/back-end/core_processing.py:351 | a signal of one strict sign has no zero crossing |
| CoreTracker.AlternatingCrossesEverywhere | src/back-end/core_processing.py:351 | a strictly alternating signal crosses between every adjacent pair |
| CoreTracker.Recommendations | src/back-end/core_processing.py:414-436 | one to three messages, and the praise message alone exactly when no rule fires |
| CoreTracker.RecommendationsFollowRules | src/back-end/core_processing.py:418-431 | each rule message appears exactly when its condition holds |
| CoreTracker.SeqMax | src/back-end/core_processing.py:389 | the maximum bounds every element and is one of them |
| CoreTracker.SeqMin | src/back-end/core_processing.py:388-389 | the minimum is below every element and is one of them |
| CoreTracker.Column | src/back-end/core_processing.py:387-396 | one entry per history row, read with the given field |
| CoreTracker.AnalyzeSession | src/back-end/core_processing.py:377-412 | an error exactly for an empty history; otherwise it counts every frame, reports the means of the nervousness, blink-rate and hand-movement columns, a peak that bounds every frame's nervousness and is reached by one, the transcript length, and the recommendations of the means |
| FeatureTracking.EarOf | src/back-end/features.py:19-33 | a finite ratio is never negative; fewer than six points give 0.3; with six or more the ratio is finite exactly when the corners are apart |
| FeatureTracking.EarCopiesAgree | src/back-end/features.py:19-33 | this ratio equals the core_processing.py ratio wherever it is finite; where it is not, the other copy reports its 0.3 |
| FeatureTracking.Average | src/back-end/features.py:57 | the average of two ratios is finite exactly when both are, and is then their arithmetic mean |
| FeatureTracking.PixelEye | src/back-end/features.py:43-51 | one pixel point per eye index |
| FeatureTracking.AverageEar | src/back-end/features.py:35-57 | a finite average ratio of a full mesh is never negative |
| FeatureTracking.CollapsedEyeNeverBlinks | src/back-end/features.py:55-61 | a frame whose eye span collapses is never a blink, because `inf` and `nan` are never below 0.25 |
| FeatureTracking.BlinkFlags | src/back-end/features.py:124 | one flag per window entry, set exactly when that ratio is below 0.25 |
| FeatureTracking.BlinkFraction | src/back-end/features.py:124 | the blink fraction lies in [0, 1] |
| FeatureTracking.FractionMatchesCoreRate | src/back-end/features.py:124 | 60 times this fraction is the core_processing.py rate on the same closed/open pattern |
| FeatureTracking.EarSum | src/back-end/features.py:166 | the sum of the window is finite exactly when every entry is |
| FeatureTracking.Values | src/back-end/features.py:166 | the finite window's values in order |
| FeatureTracking.EarSumFinite | src/back-end/features.py:166 | on a window of finite values the sum is their arithmetic sum |
| FeatureTracking.AverageOfWindow | src/back-end/features.py:166 | an empty window averages to 0.3, and the average is finite exactly when every entry is |
| FeatureTracking.AverageOfFiniteWindow | src/back-end/features.py:166 | on a non-empty finite window the average is the arithmetic mean |
| FeatureTracking.Nervousness | src/back-end/features.py:118-136 | the score lies in [0, 1], and is 0 below five blink samples |
| FeatureTracking.BlendShape | src/back-end/features.py:129-136 | the final `min(…, 1.0)` never binds, and the blend is 1 exactly when all three parts are 1 |
| FeatureTracking.NervousnessSaturation | src/back-end/features.py:118-136 | with five samples or more the score is 1 exactly when half the window is closed, the hands average at least 0.02 and the head at least 0.01 |
| FeatureTracking.HandPass | src/back-end/features.py:68-92 | the movement is never negative; no hands give 0 and keep the stored centre; otherwise the last hand's centre is stored |
| FeatureTracking.FirstTwoHandsMeasureTheirGap | src/back-end/features.py:76-89 | on the first frame with two hands the reported movement is the distance between the two hands |
| FeatureTracking.StillHandDoesNotMove | src/back-end/features.py:76-89 | a single hand at the stored centre does not move |
| FeatureTracking.HeadStep | src/back-end/features.py:94-116 | head movement is never negative, and is 0 on the first face and for a nose that has not moved |
| FeatureTracking.NewTracker | src/back-end/features.py:7-14 | a fresh tracker has empty, coherent windows |
| FeatureTracking.FacePart | src/back-end/features.py:145-159 | without a face nothing changes; with one, the blink window gains one entry up to 30, the blink is that entry's test, and the nose becomes the stored head position |
| FeatureTracking.HandPart | src/back-end/features.py:68-92 | hand movement is never negative, and no hands leave the stored centre alone |
| FeatureTracking.NextTracker | src/back-end/features.py:7-14 | both movement windows gain this frame's reading, and the windows stay coherent |
| FeatureTracking.Advance | src/back-end/features.py:141-187 | the movement windows advance on every frame and the blink window only with a face; the score is the nervousness of the advanced windows (in [0, 1]), and the blink fraction, average ratio and average movements are those of the advanced windows; the detections are counted |
| FeatureTracking.ExtractFeatures | src/back-end/features.py:141-187 | an error exactly for a face mesh too short for the eye indices; otherwise one step of the tracker, at 640×480 when the frame has no size |
| FeatureTracking.SummaryStats | src/back-end/features.py:189-200 | no summary exactly before any face was seen; otherwise it counts the blink window and reports the nervousness (in [0, 1]), the blink fraction and the movement means of the stored windows |
| FeatureTracking.SummaryAfterFaceFrame | src/back-end/features.py:141-200 | after a frame with a face the summary exists and reports that frame's nervousness, blink fraction and average hand movement |
| FeatureTracking.EmptyFrameRecordsZeros | src/back-end/features.py:141-187 | a frame with neither face nor hands records two zero movements, leaves the blink window alone, and scores the updated windows |
| PatternAnalysis.Above | src/back-end/analyze.py:47 | every listed position is in range and over the threshold, listed in increasing order |
| PatternAnalysis.AboveComplete | src/back-end/analyze.py:47 | every position over the threshold is listed |
| PatternAnalysis.RecentAverage | src/back-end/analyze.py:38 | with ten records or fewer the recent average is the mean of all of them |
| PatternAnalysis.NervousnessPatternsOf | src/back-end/analyze.py:27-56 | no result exactly for an empty list; one record reads "estável" with both averages equal to its score; with more, "melhorando" exactly when the recent average is below the overall mean |
| PatternAnalysis.ShortHistoryNeverImproves | src/back-end/analyze.py:37-40 | with 2 to 10 records the two averages coincide, so the trend always reads "piorando" |
| PatternAnalysis.PatternListsExact | src/back-end/analyze.py:32-55 | a frame is a peak, a high-blink or an excessive-movement period exactly when its value (0 when missing) exceeds 0.7, 20 or 0.5 |
| PatternAnalysis.CountClean | src/back-end/analyze.py:84-88 | no cleaned word occurs more often than there are tokens |
| PatternAnalysis.Frequencies | src/back-end/analyze.py:84-88 | the frequency map holds exactly the cleaned words longer than three characters, each with its number of occurrences |
| PatternAnalysis.Repeated | src/back-end/analyze.py:90 | the repeated words are exactly the cleaned words longer than three characters seen more than twice, with their counts |
| PatternAnalysis.Readability | src/back-end/analyze.py:103-114 | the score lies in [0, 100], and is 0 without words or sentences |
| PatternAnalysis.ReadabilityBelow95 | src/back-end/analyze.py:103-114 | words from a split are at least one character long and the sentence count is positive, so readability never reaches 95 |
| PatternAnalysis.MaxLen | src/back-end/analyze.py:108 | the longest word length is never negative |
| PatternAnalysis.MaxLenBound | src/back-end/analyze.py:108 | no word is longer than the longest word length |
| PatternAnalysis.Ratio | src/back-end/analyze.py:76 | a part over its non-empty whole lies in [0, 1] and times the whole gives back the part |
| PatternAnalysis.SpeechPatternsOf | src/back-end/analyze.py:58-101 | a missing text and a text without words give their two errors; otherwise it counts the words, the fillers among them (as a rate in [0, 1]) and exactly the repeated words, with readability in [0, 100] |
| PatternAnalysis.NerveRule | src/back-end/analyze.py:134-143 | 0, 15 or 30 points, 30 exactly below 0.3; the calm strength exactly below 0.3, the moderate-nerves area exactly in [0.3, 0.6), the high-nerves area and the breathing advice exactly from 0.6, and no other message |
| PatternAnalysis.SpeechRule | src/back-end/analyze.py:152-173 | 0 to 55 points, 55 exactly for few fillers, a pace in [140, 180] and readability over 70; the strengths are the fluent, good-pace and clear messages whose rules hold, in that order; the filler area exactly above a 0.15 filler rate; the advice is the pause, speed-up and slow-down messages whose rules hold, in that order |
| PatternAnalysis.SpeechStrengthsFollowRules | src/back-end/analyze.py:155-173 | each speech strength appears exactly when its rule holds: filler rate below 0.05, pace in [140, 180], readability over 70 |
| PatternAnalysis.SpeechAdviceFollowsRules | src/back-end/analyze.py:155-168 | the filler area and the pause advice exactly above a 0.15 filler rate, the speed-up advice exactly below 120 words per minute, the slow-down advice exactly above 200 |
| PatternAnalysis.RuleAvoidsNerveMessages | src/back-end/analyze.py:134-173 | no speech rule emits a nervousness message |
| PatternAnalysis.NerveRuleAvoidsSpeechMessages | src/back-end/analyze.py:134-173 | no nervousness rule emits a speech message |
| PatternAnalysis.ClampScore | src/back-end/analyze.py:176 | the clamped score lies in [0, 100] and a score already there is unchanged |
| PatternAnalysis.NerveOutcome | src/back-end/analyze.py:129-143 | 0 to 30 points, 30 exactly when the metrics exist and the recent average is below 0.3; nothing without metrics; with metrics, the rule on the recent average |
| PatternAnalysis.SpeechOutcome | src/back-end/analyze.py:146-173 | 0 to 55 points, all 55 exactly for a transcript without error that meets every speech rule; the speech rules for a transcript that analyses, nothing otherwise |
| PatternAnalysis.SpeechOutcomeStrengths | src/back-end/analyze.py:146-173 | each speech strength appears exactly when the transcript analyses and its rule holds |
| PatternAnalysis.SpeechOutcomeAdvice | src/back-end/analyze.py:146-168 | each speech improvement and recommendation appears exactly when the transcript analyses and its rule holds |
| PatternAnalysis.SpeechAvoidsNerveMessages | src/back-end/analyze.py:146-173 | the speech part never holds a nervousness message |
| PatternAnalysis.NerveAvoidsSpeechMessages | src/back-end/analyze.py:129-143 | the nervousness part never holds a speech message |
| PatternAnalysis.GenerateInsights | src/back-end/analyze.py:115-176 | the score lies in [0, 85], and empty data gives an empty result; the strengths, areas and recommendations are the nervousness messages followed by the speech messages |
| PatternAnalysis.NerveInsightsFollowRules | src/back-end/analyze.py:129-143 | in the insights, the calm strength exactly for metrics with a recent average below 0.3, the moderate area exactly in [0.3, 0.6), the high area and the breathing advice exactly from 0.6 |
| PatternAnalysis.SpeechStrengthsInInsights | src/back-end/analyze.py:146-173 | in the insights, each speech strength exactly for an analysed transcript meeting its rule |
| PatternAnalysis.SpeechAdviceInInsights | src/back-end/analyze.py:146-168 | in the insights, the filler area and each speech recommendation exactly for an analysed transcript meeting its rule |
| PatternAnalysis.InsightTopScore | src/back-end/analyze.py:115-176 | 85 is reached exactly when calm recent frames meet a fluent, well-paced and readable transcript |
| LanguageService.MatchIsCounted | src/back-end/main.py:100-101 | any whole-word occurrence at or after the start makes the count positive |
| LanguageService.CountedIsMatch | src/back-end/main.py:100-101 | a positive count always comes from a whole-word occurrence at or after the start |
| LanguageService.NextBreak | src/back-end/main.py:98 | the next split point is the first whitespace that follows a '.', '!' or '?', or the end of the text |
| LanguageService.SplitSentences | src/back-end/main.py:98 | `re.split` always gives at least one piece |
| LanguageService.NonBlankStripped | src/back-end/main.py:98 | no kept sentence is empty |
| LanguageService.Mentioning | src/back-end/main.py:103 | every kept sentence is one of the sentences and contains the phrase once lower-cased |
| LanguageService.Examples | src/back-end/main.py:103 | the examples are the first min(3, n) of the n sentences mentioning the phrase |
| LanguageService.Found | src/back-end/main.py:99-102 | a phrase is found exactly when it has a whole-word match in the lower-cased text |
| LanguageService.Phrases | src/back-end/main.py:104 | the phrase of each entry, in order |
| LanguageService.Repetitions | src/back-end/main.py:99-104 | the entries are the matched phrases in list order, each with its positive whole-word count and its examples |
| LanguageService.RepetitionsStep | src/back-end/main.py:99-104 | one more turn of the loop keeps the entries in phrase order, each with its count and examples |
| LanguageService.LocalFillerAnalysis | src/back-end/main.py:94-117 | the repetitions are exactly the fillers that match, in list order and each counted; one suggestion, the advice exactly when something matched; the no-occurrence summary exactly when nothing did |
| LanguageService.FillerSummary | src/back-end/main.py:112-116 | the summary is the no-occurrence notice exactly when nothing was found, and otherwise reports the total and the number of kinds |
| LanguageService.FillersDistinct | src/back-end/main.py:66-79 | the filler list holds no phrase twice |
| LanguageService.FillerReportedIffMatched | src/back-end/main.py:94-117 | a filler is reported exactly when it occurs as a whole word in the lower-cased text |
| LanguageService.SampleReportsTipo | src/back-end/main.py:94-117 | a sentence with " tipo " reports "tipo" |
| LanguageService.VicePhrases | src/back-end/main.py:193 | the phrases exist exactly when every vice has one, one per vice |
| LanguageService.ComposeFeedbackFallback | src/back-end/main.py:190-207 | a `KeyError` exactly when some vice lacks a phrase; otherwise the text joins the bullets with spaces, and there is one bullet for vices (the no-vices line exactly when none) plus one for poses and one for a transcript when present |
| LanguageService.JoinStartsWithFirst | src/back-end/main.py:205 | a joined list starts with its first item |
| LanguageService.FallbackMentionsVices | src/back-end/main.py:190-207 | with a vice reported, the fallback text names the detected vices |
| LanguageService.PrefixedByVices | src/back-end/main.py:193 | a text that starts with the vices bullet names the detected vices |
| LanguageService.Analyze | src/back-end/main.py:243-262 | a 400 error exactly for blank text; otherwise the local analysis whenever the model gives no usable answer |
| LanguageService.OllamaGate | src/back-end/main.py:136-151 | a request goes ahead exactly for a parseable local host (or none) with the client installed, and every non-local or unparseable host gets the handler's generic refusal |
| ContentAnalysis.VowelRuns | src/BackEnd/services/nlp_analyzer.py:368-377 | there are never more vowel runs than characters |
| ContentAnalysis.NoRunIffNoVowel | src/BackEnd/services/nlp_analyzer.py:368-380 | a word has no vowel run exactly when it has no vowel |
| ContentAnalysis.SyllableStem | src/BackEnd/services/nlp_analyzer.py:358-362 | at most the one trailing character is dropped |
| ContentAnalysis.CountSyllables | src/BackEnd/services/nlp_analyzer.py:355-382 | the count is the number of maximal vowel runs of the stem, and 1 when there is none |
| ContentAnalysis.VowelRunsStep | src/BackEnd/services/nlp_analyzer.py:372-377 | one more character adds a run exactly when it is a vowel after a non-vowel |
| ContentAnalysis.Syllables | src/BackEnd/services/nlp_analyzer.py:355-382 | every word has at least one syllable |
| ContentAnalysis.JargonRatio | src/BackEnd/services/nlp_analyzer.py:230-245 | the ratio lies in [0, 1]; it is 0 exactly when no word is jargon and 1 exactly when every word of a non-empty list is |
| ContentAnalysis.JargonFlags | src/BackEnd/services/nlp_analyzer.py:240-242 | one flag per word, set exactly for jargon |
| ContentAnalysis.MentionFlags | src/BackEnd/services/nlp_analyzer.py:337-342 | one flag per sentence, set exactly when it mentions a connector |
| ContentAnalysis.Coherence | src/BackEnd/services/nlp_analyzer.py:330-353 | 0.5 below two sentences; otherwise 0.6 times the share of connected sentences plus 0.28, so always inside [0.28, 0.88] |
| ContentAnalysis.LetterPairSeCountsAsConnector | src/BackEnd/services/nlp_analyzer.py:337-342 | connectors are matched as substrings, so any sentence containing the letters "se" counts as connected |
| ContentAnalysis.Relevance | src/BackEnd/services/nlp_analyzer.py:288-328 | the score lies in [0, 1], and is 1 exactly for 20 sentences or more with an example somewhere and data somewhere |
| ContentAnalysis.Slice | src/BackEnd/services/nlp_analyzer.py:167 | a Python slice with lo ≥ hi is empty, and otherwise the sub-sequence |
| ContentAnalysis.Sections | src/BackEnd/services/nlp_analyzer.py:153-178 | from three sentences on, the introduction is a non-empty prefix and the conclusion a non-empty suffix |
| ContentAnalysis.BlankLineEnd | src/BackEnd/services/nlp_analyzer.py:193 | a blank-line match starts and ends with a newline and spans at least two characters |
| ContentAnalysis.LastNewline | src/BackEnd/services/nlp_analyzer.py:193 | the found position ends a newline inside the range |
| ContentAnalysis.Structure | src/BackEnd/services/nlp_analyzer.py:143-196 | 0.3 below three sentences, and inside [0.1, 1] otherwise |
| ContentAnalysis.StructureTop | src/BackEnd/services/nlp_analyzer.py:143-196 | the top score needs an introduction, a development and a conclusion connector in their sections and at least two blank lines |
| ContentAnalysis.MaxFrequency | src/BackEnd/services/nlp_analyzer.py:208-216 | the result is at least the count of every word longer than three characters, and is one of those counts (or 0) |
| ContentAnalysis.Clarity | src/BackEnd/services/nlp_analyzer.py:198-228 | the clarity score lies in [0, 1], and is 1 exactly when there are sentences averaging 10 to 20 tokens, no kept word has more than three syllables and no long word occurs more than five times |
| ContentAnalysis.SentenceLengths | src/BackEnd/services/nlp_analyzer.py:201 | one token count per sentence, in order |
| ContentAnalysis.LengthScore | src/BackEnd/services/nlp_analyzer.py:200-202 | in [0, 1], and 1 exactly for sentences averaging 10 to 20 tokens; 0 without sentences |
| ContentAnalysis.ComplexFlags | src/BackEnd/services/nlp_analyzer.py:205 | one flag per kept word, set exactly above three syllables |
| ContentAnalysis.ComplexScore | src/BackEnd/services/nlp_analyzer.py:204-207 | in [0, 1], and 1 exactly when no kept word has more than three syllables |
| ContentAnalysis.RepetitionScore | src/BackEnd/services/nlp_analyzer.py:209-219 | in [0, 1], and 1 exactly when no long word occurs more than five times |
| ContentAnalysis.Filtered | src/BackEnd/services/nlp_analyzer.py:103 | the kept words are non-empty words of the text that are not stop words |
| ContentAnalysis.DistinctAtMostLength | src/BackEnd/services/nlp_analyzer.py:111-112 | there are never more distinct words than words, so the diversity is at most 1 |
| ContentAnalysis.ContentScore | src/BackEnd/services/nlp_analyzer.py:131-137 | the blend lies in [0, 1], and is 1 exactly for perfect structure, clarity, relevance and coherence with no jargon |
| ContentAnalysis.Analyze | src/BackEnd/services/nlp_analyzer.py:82-141 | a `ValueError` exactly for blank text; otherwise it counts words and sentences, and the diversity, score, coherence and jargon stay inside their ranges |
| CombinedInsights.SpeechFlags | src/BackEnd/api/app.py:124-138 | two strength flags and two improvement flags, all off unless the speech section has scores |
| CombinedInsights.VisualFlags | src/BackEnd/api/app.py:141-155 | two strength flags and two improvement flags, all off unless the visual section has scores |
| CombinedInsights.ContentFlags | src/BackEnd/api/app.py:158-172 | two strength flags and two improvement flags, all off unless the content section has scores |
| CombinedInsights.StrengthFlags | src/BackEnd/api/app.py:124-172 | six strength flags, two per section |
| CombinedInsights.ImprovementFlags | src/BackEnd/api/app.py:124-172 | six improvement flags, two per section |
| CombinedInsights.GenerateCombinedInsights | src/BackEnd/api/app.py:114-185 | the strengths are exactly those whose rules fire, in order; the improvements are exactly the areas whose rules fire, in order, each followed by its own recommendation; the three general recommendations stand in exactly when there is no improvement, so there is always at least one |
| CombinedInsights.ImprovementReportedIffRuleFires | src/BackEnd/api/app.py:124-172 | an improvement area is reported exactly when its rule fires on a section with scores, and then its recommendation is given |
| CombinedInsights.StrengthReportedIffRuleFires | src/BackEnd/api/app.py:124-172 | a strength is reported exactly when its rule fires on a section with scores |
| CombinedInsights.FailedSectionsAddNothing | src/BackEnd/api/app.py:114-185 | failed or missing sections give no strengths, no improvements and the three general recommendations |
| VisualAnalysis.Column | src/BackEnd/services/visual_analyzer.py:163-167 | one coordinate per eye landmark, in index order |
| VisualAnalysis.SumStrictlyBetween | src/BackEnd/services/visual_analyzer.py:166-167 | values strictly inside (lo, hi) sum to strictly between n·lo and n·hi |
| VisualAnalysis.MeanStrictlyBetween | src/BackEnd/services/visual_analyzer.py:166-167 | the mean of values strictly inside (lo, hi) is strictly inside too |
| VisualAnalysis.SteadyGazeMakesContact | src/BackEnd/services/visual_analyzer.py:160-181 | both eyes at one depth and inside the vertical band is always eye contact, whatever the x positions |
| VisualAnalysis.RaisedGazeBreaksContact | src/BackEnd/services/visual_analyzer.py:160-181 | an eye whose landmarks all sit at a height of at most 0.3 is never eye contact |
| VisualAnalysis.MouthRatio | src/BackEnd/services/visual_analyzer.py:190-197 | the mouth ratio is never negative |
| VisualAnalysis.SmileShape | src/BackEnd/services/visual_analyzer.py:183-208 | a smile is a mouth more than four times wider than its height (at least 0.001) with raised corners, so every smile is wider than 0.004 |
| VisualAnalysis.RatioAbove | src/BackEnd/services/visual_analyzer.py:197-208 | over a positive divisor, w / m > k exactly when w > k·m |
| VisualAnalysis.GoodPosture | src/BackEnd/services/visual_analyzer.py:210-227 | good posture needs the shoulders level within 0.05 |
| VisualAnalysis.PostureSymmetries | src/BackEnd/services/visual_analyzer.py:210-227 | posture is judged the same in a mirror, anywhere across the frame, and wherever the nose is, since its "nose" is the shoulder midpoint |
| VisualAnalysis.Cosine | src/BackEnd/services/visual_analyzer.py:295-310 | an arm segment of zero length gives NaN |
| VisualAnalysis.ArmBent | src/BackEnd/services/visual_analyzer.py:244-262 | a bent arm has all three joints seen, and a forearm folded to a point (NaN angle) is never bent |
| VisualAnalysis.HandGesture | src/BackEnd/services/visual_analyzer.py:229-264 | a gesture is exactly a bent arm, since a bent arm already makes its wrist visible; with both forearms folded to a point there is none |
| VisualAnalysis.Movement | src/BackEnd/services/visual_analyzer.py:266-293 | the shoulder midpoint is pushed onto the 30-entry history, and movement is reported exactly when it moved more than 0.005 and less than 0.05 since the previous entry |
| VisualAnalysis.StillnessIsNotMovement | src/BackEnd/services/visual_analyzer.py:281-293 | a presenter standing exactly where they were is not moving |
| VisualAnalysis.FacePart | src/BackEnd/services/visual_analyzer.py:92-102 | a frame with a face counts one more face and at most one more eye contact and smile; without a face nothing changes |
| VisualAnalysis.BodyPart | src/BackEnd/services/visual_analyzer.py:105-116 | each pose counter grows by at most one, and the history gains the shoulder midpoint only when a body is seen |
| VisualAnalysis.Observe | src/BackEnd/services/visual_analyzer.py:85-116 | one analysed frame raises every counter by at most one, touching the face counters only with a face and the pose counters only with a body |
| VisualAnalysis.Replay | src/BackEnd/services/visual_analyzer.py:71-116 | after n frames no counter exceeds n // 5, the number of analysed frames |
| VisualAnalysis.SampledPosition | src/BackEnd/services/visual_analyzer.py:76-80 | the n-th frame is analysed exactly when its index n - 1 is 4 modulo 5 |
| VisualAnalysis.OnlySampledFramesMatter | src/BackEnd/services/visual_analyzer.py:76-80 | frames between the sampled ones have no influence on the result |
| VisualAnalysis.PresenceWeightsSumToOne | src/BackEnd/services/visual_analyzer.py:142-149 | the six presence weights add up to 1 |
| VisualAnalysis.Presence | src/BackEnd/services/visual_analyzer.py:142-149 | the presence score lies in [0, 1], is 1 exactly when every ratio is 1 and 0 exactly when every ratio is 0 |
| VisualAnalysis.FaceRatios | src/BackEnd/services/visual_analyzer.py:126-134 | the face ratios are shares in [0, 1]: visibility of the analysed frames, eye contact and smiles of the face frames, all 0 without a face |
| VisualAnalysis.Summarise | src/BackEnd/services/visual_analyzer.py:122-151 | every ratio is the share of its counter over its base, the presence lies in [0, 1], is 1 exactly for a perfect tally, and is 0 with no analysed frame |
| VisualAnalysis.AnalyzeVideo | src/BackEnd/services/visual_analyzer.py:39-158 | an error exactly for a video that cannot be opened; otherwise the summary of every fifth frame over n // 5 analysed frames, with the analyser's history carried over |
| SpeechAnalysis.Pace | src/BackEnd/services/speech_analyzer.py:94-100 | the pace lies in [0, 1]; it is 0 exactly at 0 or 400 words per minute and above; 160 to 200 gives 0.9, 120 to 160 gives 0.7 to 0.9, and below 80 gives under 0.7 |
| SpeechAnalysis.PaceBandEdges | src/BackEnd/services/speech_analyzer.py:94-100 | the mapping drops stepping from 79 to 80 words per minute, and past 200 it climbs above the 0.9 of the ideal band |
| SpeechAnalysis.PaceMonotoneInBand | src/BackEnd/services/speech_analyzer.py:98-100 | inside 80 to 200 words per minute the score never drops as the pace grows |
| SpeechAnalysis.FillerCount | src/BackEnd/services/speech_analyzer.py:105-108 | at most one filler per word, and none exactly when no word is a filler |
| SpeechAnalysis.MultiWordFillerNeverMatches | src/BackEnd/services/speech_analyzer.py:25-28 | no word of a whitespace split equals the two-word filler "digamos assim" |
| SpeechAnalysis.SilentFrames | src/BackEnd/services/speech_analyzer.py:116-117 | exactly the frames below the threshold, in increasing order |
| SpeechAnalysis.SilenceTimes | src/BackEnd/services/speech_analyzer.py:115-122 | the silence times are non-negative and strictly increasing, at most one per frame |
| SpeechAnalysis.RunStart | src/BackEnd/services/speech_analyzer.py:128-134 | a run never starts after the position it contains |
| SpeechAnalysis.Span | src/BackEnd/services/speech_analyzer.py:131-133 | a kept pause is longer than 0.5 s |
| SpeechAnalysis.Long | src/BackEnd/services/speech_analyzer.py:137-139 | a kept pause is longer than 0.5 s |
| SpeechAnalysis.Closed | src/BackEnd/services/speech_analyzer.py:129-134 | every pause closed by a gap is longer than 0.5 s |
| SpeechAnalysis.Pauses | src/BackEnd/services/speech_analyzer.py:124-139 | every pause is longer than 0.5 s |
| SpeechAnalysis.GroupPauses | src/BackEnd/services/speech_analyzer.py:124-139 | the loop computes exactly the pauses of the maximal silent runs, each longer than 0.5 s |
| SpeechAnalysis.GroupStep | src/BackEnd/services/speech_analyzer.py:129-134 | one turn of the loop closes the run exactly at a gap and keeps the start of the current run |
| SpeechAnalysis.ContinuousSilenceIsOnePause | src/BackEnd/services/speech_analyzer.py:124-139 | silence with no gap above 0.1 s is one pause, kept when long enough |
| SpeechAnalysis.GapSplitsPauses | src/BackEnd/services/speech_analyzer.py:124-139 | silence broken by one gap gives two pauses, one per side, never one spanning the gap |
| SpeechAnalysis.FirstRunBeforeGap | src/BackEnd/services/speech_analyzer.py:129-134 | the run before the first gap is closed by that gap |
| SpeechAnalysis.LastRunAfterGap | src/BackEnd/services/speech_analyzer.py:136-139 | after the last gap nothing more is closed, and the final run starts at it |
| SpeechAnalysis.AveragePause | src/BackEnd/services/speech_analyzer.py:142 | the average is 0 exactly without pauses, and is otherwise above 0.5 s |
| SpeechAnalysis.PitchVariation | src/BackEnd/services/speech_analyzer.py:146-162 | the variation lies in [0, 1]; it is 0 without a voiced frame and 1 exactly when the standard deviation reaches 50 Hz |
| SpeechAnalysis.SteadyPitchHasNoVariation | src/BackEnd/services/speech_analyzer.py:146-162 | a voice at one steady pitch has no variation |
| SpeechAnalysis.Engagement | src/BackEnd/services/speech_analyzer.py:166-172 | the score lies between 0.3·clarity and 0.3·clarity + 0.7, reaching each end exactly when every other part is at its worst or its best |
| SpeechAnalysis.EngagementWeightsSumToOne | src/BackEnd/services/speech_analyzer.py:166-172 | every part at its best scores exactly 1 |
| SpeechAnalysis.PerMinute | src/BackEnd/services/speech_analyzer.py:89-90 | the rate times the duration gives back the count, and is 0 exactly for a zero count |
| SpeechAnalysis.Metrics | src/BackEnd/services/speech_analyzer.py:78-176 | the metrics of non-empty audio: the clarity from the contrast, the rates per minute, fillers counted per word, the pauses counted, the average 0 exactly without pauses, and the engagement within its bounds |
| SpeechAnalysis.AnalyzeSpeech | src/BackEnd/services/speech_analyzer.py:78-90 | empty audio raises a division by zero; any other audio gets its metrics |
| ReportHistory.IdOf | app/core/report_manager.py:91 | every id starts with "analysis_" followed by the number |
| ReportHistory.IdOfInjective | app/core/report_manager.py:91 | different numbers give different ids |
| ReportHistory.NewEntry | app/core/report_manager.py:90-108 | the entry carries the numbered id and the clock's time; a missing score or duration reads 0, a missing level reads "N/A", and it counts the strengths, weaknesses and recommendations |
| ReportHistory.AddReport | app/core/report_manager.py:86-127 | the entry numbered from the current length is appended, the earlier ones are unchanged and the total is the new length; the call answers the entry exactly when the report file is written, and the entry stays even when it is not |
| ReportHistory.FirstWithId | app/core/report_manager.py:185-186 | the first position carrying the id, or none exactly when no entry carries it |
| ReportHistory.DeleteReport | app/core/report_manager.py:183-200 | true exactly when some entry carries the id; then exactly the first such entry is removed and the total follows; otherwise nothing changes |
| ReportHistory.LatestReport | app/core/report_manager.py:147-152 | no report exactly for an empty history; otherwise an entry that carries the last entry's id |
| ReportHistory.LatestIsLastWhenIdsDistinct | app/core/report_manager.py:147-152 | with distinct ids the latest report is the last entry |
| ReportHistory.Bump | app/core/report_manager.py:170-172 | a distribution always names at least one level after a count |
| ReportHistory.BumpKeys | app/core/report_manager.py:170-172 | counting a level adds it to the named levels and names no level twice |
| ReportHistory.BumpTotal | app/core/report_manager.py:170-172 | counting a level raises the total by one |
| ReportHistory.BumpCount | app/core/report_manager.py:170-172 | counting a level raises its count by one and leaves every other level's count alone |
| ReportHistory.CountOfAbsent | app/core/report_manager.py:172 | a level the distribution does not name counts 0 |
| ReportHistory.DistributionCounts | app/core/report_manager.py:169-172 | the distribution names no level twice, sums to the number of analyses, and counts each level's occurrences |
| ReportHistory.Scores | app/core/report_manager.py:165 | one score per analysis, in order |
| ReportHistory.Durations | app/core/report_manager.py:166 | one duration per analysis, in order |
| ReportHistory.Levels | app/core/report_manager.py:167 | one level per analysis, in order |
| ReportHistory.GetStatistics | app/core/report_manager.py:154-181 | all zeros for an empty history; otherwise the total, the mean score, the best score as an upper bound that one analysis reaches, the sum of the durations, the last analysis's date and the level distribution |
| ReportHistory.HistoryFigures | app/core/report_manager.py:165-181 | the figures of a non-empty history: its total, mean score, best score, total duration, last date and level distribution |
| ReportHistory.DistributionMatchesLevels | app/core/report_manager.py:154-181 | the distribution sums to the number of analyses, and each level counts its analyses |
| ReportHistory.PositionsOf | app/core/report_manager.py:170-172 | exactly the positions holding the level |
| ReportHistory.OccurrencesAsSet | app/core/report_manager.py:170-172 | a level's count is the number of positions holding it |
| ReportHistory.KeepRecent | app/core/report_manager.py:217-219 | the kept entries are all at or after the cutoff |
| ReportHistory.FirstUnparsed | app/core/report_manager.py:218 | every timestamp before the position parses, and the one at it does not |
| ReportHistory.RemoveFirst | app/core/report_manager.py:226 | `list.remove` drops one element when present and changes nothing otherwise |
| ReportHistory.CleanupOldReports | app/core/report_manager.py:211-238 | when every timestamp parses, the entries older than the cutoff are removed and counted and the total follows; an unparsable timestamp answers 0 and leaves the total stale |
| ReportHistory.Sweep | app/core/report_manager.py:216-227 | the scan stops exactly at the first unparsable timestamp, and otherwise the removed count plus the kept entries make up the list |
| ReportHistory.SweepEntry | app/core/report_manager.py:218-227 | one parsable entry is removed and counted when old, and kept when recent |
| ReportHistory.SweepStep | app/core/report_manager.py:218-227 | an old entry is removed where it stands and a recent one is kept, so the kept count grows only with recent entries |
| ReportHistory.RemoveFirstAfterKept | app/core/report_manager.py:226 | removing an old entry skips the recent entries already scanned |
| ReportHistory.KeepRecentMembership | app/core/report_manager.py:217-227 | an entry is kept exactly when it is in the history and not older than the cutoff |
| ReportHistory.DuplicateIdAfterDelete | app/core/report_manager.py:91 | adding two reports, deleting the first and adding another gives two entries with one id, and the latest report resolves to the older entry |
| ReportHistory.AddReportFresh | app/core/report_manager.py:86-127 | the corrected add numbers from an issue counter that only grows, appends the entry and keeps the total equal to the length |
| ReportHistory.AddFreshKeepsSound | app/core/report_manager.py:86-127 | the corrected add keeps every id distinct |
| ReportHistory.DeleteKeepsSound | app/core/report_manager.py:183-200 | deleting keeps every id distinct |
| ReportHistory.FreshIdsStayDistinct | app/core/report_manager.py:86-200 | with the corrected add, adding and deleting keep every id distinct, so the latest report is always the last entry |
| PitchMonitoring.MaxHistoryValue | src/qualcomm/pitch_monitor.py:119 | at 16000 Hz with 1024-sample chunks the history keeps 156 readings |
| PitchMonitoring.Samples | src/qualcomm/pitch_monitor.py:31-34 | one (pitch, volume, time) reading per recorded chunk |
| PitchMonitoring.UpdatePitchData | src/qualcomm/pitch_monitor.py:111-123 | each list gains the new reading and keeps its latest 156, and the three lists stay the same length |
| PitchMonitoring.UpdateKeepsChunksTogether | src/qualcomm/pitch_monitor.py:111-123 | trimming the three lists together keeps each reading with its chunk |
| PitchMonitoring.SamplesAppend | src/qualcomm/pitch_monitor.py:113-116 | appending to the three lists appends one reading |
| PitchMonitoring.SamplesTakeLast | src/qualcomm/pitch_monitor.py:120-123 | trimming the three lists alike keeps the latest readings |
| PitchMonitoring.MeanOrNaN | src/qualcomm/pitch_monitor.py:152-156 | the mean is NaN exactly for an empty list, and otherwise times the length gives the sum |
| PitchMonitoring.Spread | src/qualcomm/pitch_monitor.py:153-154 | the range and standard deviation are never negative |
| PitchMonitoring.PositiveOrZero | src/qualcomm/pitch_monitor.py:151-155 | a positive reading is kept and any other reads 0 |
| PitchMonitoring.GetStatistics | src/qualcomm/pitch_monitor.py:135-160 | no statistics exactly when no pitch is positive; otherwise the total, the latest pitch and volume when positive, and the means over the positive pitches and volumes |
| PitchMonitoring.SimulatedPitch | src/qualcomm/pitch_monitor.py:94-95 | the simulated pitch lies in [80, 400] Hz |
| PitchMonitoring.SimulatedVolume | src/qualcomm/pitch_monitor.py:97-98 | the simulated volume lies in [-60, 0] dB |
| PitchMonitoring.SimulationStaysInRange | src/qualcomm/pitch_monitor.py:86-104 | every simulated pass keeps all readings inside their clamped ranges |
| PitchMonitoring.SimulatedVolumeIsNeverPositive | src/qualcomm/pitch_monitor.py:135-160 | under simulation, statistics exist from the first chunk, the current volume reads 0 and the average volume is the NaN of an empty mean |
| SimpleVideoServer.TotalArea | src/back-end/simple_websocket_server.py:107-108 | the total area is at least the last face's area |
| SimpleVideoServer.FaceRatio | src/back-end/simple_websocket_server.py:106-112 | the share of the frame the faces cover is never negative |
| SimpleVideoServer.Nervousness | src/back-end/simple_websocket_server.py:101-120 | the score lies in [0.2, 0.8]; 0.5 without faces; with faces, 0.2 exactly when they cover 5% to 30% of the frame, and above 0.5 when they cover less or more |
| SimpleVideoServer.NervousnessGrowsAwayFromBand | src/back-end/simple_websocket_server.py:115-118 | faces farther from the normal band never score lower: below it a smaller share scores at least as high, and above it a larger one does |
| SimpleVideoServer.LargestIndex | src/back-end/simple_websocket_server.py:127 | `max` picks the first face of largest area |
| SimpleVideoServer.HeadMovement | src/back-end/simple_websocket_server.py:122-139 | movement lies in [0, 1]; without faces nothing moves and the centre is kept; otherwise the largest face's centre is remembered, and the first face scores 0 |
| SimpleVideoServer.StillHeadDoesNotMove | src/back-end/simple_websocket_server.py:122-139 | a largest face that stays put scores no movement, whatever the other faces do |
| SimpleVideoServer.BlinkDetected | src/back-end/simple_websocket_server.py:141-155 | a blink exactly when some detected face shows no eyes |
| SimpleVideoServer.ProcessFrameAsWritten | src/back-end/simple_websocket_server.py:30-99 | an undecodable frame leaves everything alone; any frame with a face raises the ambiguous-truth error after replacing the remembered centre and before storing; a faceless frame is stored and counted with score 0.5 |
| SimpleVideoServer.FaceFramesAreNeverRecorded | src/back-end/simple_websocket_server.py:30-99 | under the code as written, a history of faceless frames stays faceless, so the statistics never see a face |
| SimpleVideoServer.OneFaceFrameIsLost | src/back-end/simple_websocket_server.py:75 | a 640×480 frame with one face gets the error and leaves the history empty |
| SimpleVideoServer.ProcessFrame | src/back-end/simple_websocket_server.py:30-99 | with the face test corrected, every decoded frame is stored and numbered with the count before it; the count grows by one; faces, area, blink and blink rate are recorded; the score lies in [0.2, 0.8] and the movement in [0, 1] |
| SimpleVideoServer.ProcessFrameKeepsConsistent | src/back-end/simple_websocket_server.py:79-80 | processing a frame keeps the history numbered consecutively up to the count and within 1000 entries |
| SimpleVideoServer.NumberedPush | src/back-end/simple_websocket_server.py:79-80 | pushing the next-numbered frame keeps the history numbered consecutively |
| SimpleVideoServer.GetSessionStats | src/back-end/simple_websocket_server.py:157-176 | an error exactly without history; otherwise the statistics of the last 30 frames |
| SimpleVideoServer.RecentStats | src/back-end/simple_websocket_server.py:162-176 | the count, the duration, the latest score and the window averages of the last 30 frames, with the fixed blink rate 0.15 and hand movement 0 |
| SimpleVideoServer.WindowFigures | src/back-end/simple_websocket_server.py:164-174 | the current score is the window's last, and the two figures are the window means |
| SimpleVideoServer.StatsNervousnessInRange | src/back-end/simple_websocket_server.py:157-176 | scores inside [0.2, 0.8] average inside [0.2, 0.8] |
| SimpleVideoServer.RecentNervousnessWithin | src/back-end/simple_websocket_server.py:162-164 | when every stored score lies in [0.2, 0.8], so does every score of the last 30 |
| SimpleVideoServer.StatsAfterFrame | src/back-end/simple_websocket_server.py:30-176 | after a decoded frame the statistics exist and report it as the current one |
| SimpleVideoServer.ResetSession | src/back-end/simple_websocket_server.py:178-184 | a reset empties the history, zeroes the count, forgets the centre and restarts the clock |
| SimpleVideoServer.ResetForgetsSession | src/back-end/simple_websocket_server.py:157-184 | after a reset there is nothing to report, the history is consistent, and the next face scores no movement |
| VideoFrameServer.ProcessFrame | src/back-end/websocket_video_server.py:49-109 | errors leave the processor untouched; extracted features are stored, counted, and numbered with the new count |
| VideoFrameServer.ProcessFrameKeepsConsistent | src/back-end/websocket_video_server.py:45-78 | processing any frame keeps the history numbered consecutively up to the count and within 1000 entries |
| VideoFrameServer.NumberedPush | src/back-end/websocket_video_server.py:73-76 | pushing the frame numbered one past the count keeps the history numbered consecutively |
| VideoFrameServer.GetSessionStats | src/back-end/websocket_video_server.py:111-130 | an error exactly without history; otherwise the statistics of the last 30 entries |
| VideoFrameServer.RecentStats | src/back-end/websocket_video_server.py:116-130 | each figure is averaged over those of the last 30 entries that carry it, and the current score is the last one carried |
| VideoFrameServer.PresentMean | src/back-end/websocket_video_server.py:125-128 | the mean of the values present, 0 when none is |
| VideoFrameServer.MissingFigureAveragesZero | src/back-end/websocket_video_server.py:119-127 | a figure that no recent entry carries averages to 0 |
| VideoFrameServer.CompleteFigureAveragesWindow | src/back-end/websocket_video_server.py:118-126 | when every recent entry carries a score, the average is over the whole window and the current score is the latest entry's |
| VideoFrameServer.ResetSession | src/back-end/websocket_video_server.py:132-136 | a reset empties the history, zeroes the count and restarts the clock |
| VideoFrameServer.ResetStartsOver | src/back-end/websocket_video_server.py:111-136 | after a reset the statistics report the error and the next stored frame is numbered 1 |
| SessionServer.ProcessVideoFrame | src/back-end/websocket_server.py:95-130 | nothing for an undecodable frame; an error reply for a processor failure, leaving the session alone; otherwise the metrics are stored |
| SessionServer.ProcessAudioData | src/back-end/websocket_server.py:132-155 | no reply exactly when the processor finds no features; an error reply on failure; otherwise the audio analysis |
| SessionServer.HandleTranscript | src/back-end/websocket_server.py:156-178 | a mapping is stored (empty text and not final for missing keys) and echoed back; anything else gets the transcript error |
| SessionServer.GetSessionStats | src/back-end/websocket_server.py:179-214 | a "No data yet" report exactly without frames; otherwise the window figures, and the duration always runs from the session start |
| SessionServer.RecentFigures | src/back-end/websocket_server.py:194-208 | every stored frame is counted, the current score is the latest, the averages are over the last 30 frames, and the transcripts are counted |
| SessionServer.WindowMean | src/back-end/websocket_server.py:204-206 | the mean of the window, 0 when it is empty |
| SessionServer.ResetSession | src/back-end/websocket_server.py:216-228 | a reset empties the metrics and transcripts and restarts the clock |
| SessionServer.HandleMessage | src/back-end/websocket_server.py:230-285 | invalid JSON and a non-object each get their error reply and change nothing; a reply is broadcast exactly when it exists and its type is a streamed one |
| SessionServer.UnknownTypeIsRejected | src/back-end/websocket_server.py:259-263 | an unknown or missing type gets an error reply naming it, is not broadcast, and leaves the session alone |
| SessionServer.KnownTypesAreAnswered | src/back-end/websocket_server.py:238-267 | every known type is answered, except an undecodable frame or an audio chunk without features |
| SessionServer.QueriesAreNotBroadcast | src/back-end/websocket_server.py:247-271 | statistics queries and pings leave the session alone and are answered only to the sender |
| SessionServer.FrameThenStats | src/back-end/websocket_server.py:238-240 | a processed frame is counted by the statistics that follow and is their current frame |
| SessionServer.ResetThenStats | src/back-end/websocket_server.py:250-251 | after a reset message the statistics have nothing to report and the transcript count starts over |
| UploadFilter.LastDot | src/outros/web_video_converter.py:52-53 | the position of the last '.', absent exactly when the name has none |
| UploadFilter.Extension | src/outros/web_video_converter.py:52-53 | absent exactly for a name without '.'; otherwise a dot-free piece that ends the name right after a '.' |
| UploadFilter.Accepts | src/outros/web_video_converter.py:52-53 | only a name containing '.' can be accepted, and it is accepted exactly when its lower-cased extension is allowed |
| UploadFilter.AllowedFile | src/outros/web_video_converter.py:44-53 | the plain converter judges by its seven video extensions |
| UploadFilter.AllowedFileOfType | src/outros/web_video_converter_optimized.py:89-96 | the video set for file type "video", the audio set for every other type |
| UploadFilter.OnlyLastExtensionCounts | src/outros/web_video_converter.py:53 | for any stem and dot-free extension, the extension is the one after the last '.', and it alone decides acceptance |
| UploadFilter.LowerKeepsDots | src/outros/web_video_converter.py:53 | lower-casing puts a '.' exactly where there was one |
| UploadFilter.LowerCharIdempotent | src/outros/web_video_converter.py:53 | lower-casing twice is lower-casing once |
| UploadFilter.AcceptsIgnoresCase | src/outros/web_video_converter.py:52-53 | a name is accepted exactly when its lower-cased form is |
| UploadFilter.UpperCaseExtensionAccepted | src/outros/web_video_converter.py:52-53 | "talk.MP4" is accepted |
| UploadFilter.InnerExtensionIgnored | src/outros/web_video_converter.py:52-53 | "talk.mp4.txt" is refused |
| UploadFilter.BareExtensionRefused | src/outros/web_video_converter.py:52 | "mp4" without a '.' is refused |
| UploadFilter.WebmIsOptimizedVideoOnly | src/outros/web_video_converter_optimized.py:89-96 | "talk.webm" is accepted as video by the optimized converter only: it is refused as audio and by the plain converter |
| UploadFilter.WebmIsVideo | src/outros/web_video_converter_optimized.py:24 | "talk.webm" is in the optimized video set |
| UploadFilter.WebmIsNotAudio | src/outros/web_video_converter_optimized.py:25 | "talk.webm" is not in the audio set |
| UploadFilter.WebmIsNotConverterVideo | src/outros/web_video_converter.py:44 | "talk.webm" is not in the plain converter's set |
| UploadFilter.AnyOtherTypeIsAudio | src/outros/web_video_converter_optimized.py:91-96 | "voice.Mp3" is accepted for type "audio" and for any other type except "video", and refused as video |
| TrainingCollection.PostureMetrics | app/training_data_collector.py:247-263 | every metric is non-negative; the shoulder and hip figures are 0 exactly when the pair is level, and the spine figure exactly when the two midpoints are at the same height |
| TrainingCollection.MetricsIgnoreSides | app/training_data_collector.py:247-263 | exchanging left and right landmarks changes no metric |
| TrainingCollection.MetricsIgnorePosition | app/training_data_collector.py:247-263 | moving the whole body by one offset changes no metric |
| TrainingCollection.Required | app/training_data_collector.py:163-168 | the gate checks four landmarks |
| TrainingCollection.AllVisible | app/training_data_collector.py:171-175 | the loop answers true exactly when every landmark has visibility at least 0.5 |
| TrainingCollection.ExtractLandmarks | app/training_data_collector.py:213-245 | all seven key points under their names and in order, each with its own coordinates and visibility, the given timestamp, and the metrics of the torso |
| TrainingCollection.CollectStep | app/training_data_collector.py:158-183 | a sample is appended and the sample clock moves exactly when enough time has passed, a pose is seen and all four torso landmarks are visible enough; otherwise nothing changes |
| TrainingCollection.CollectedSamplesQualify | app/training_data_collector.py:158-183 | a step keeps every stored sample's torso landmarks visible enough |
| PostureTraining.LabelOf | app/posture_analyzer_trainer.py:77-83 | label 2 exactly for "good_posture", 1 exactly for "neutral_posture", and 0 for every other folder |
| PostureTraining.FeatureVector | app/posture_analyzer_trainer.py:67-73 | a training row has five entries |
| PostureTraining.FeatureVectorRoundTrip | app/posture_analyzer_trainer.py:67-73 | reading a training row back gives the metrics it was built from |
| PostureTraining.PrepareFeatures | app/posture_analyzer_trainer.py:58-85 | one row and one label per sample, in order; each row reads back as that sample's metrics and each label is its folder's label |
| PostureTraining.PrepareFeaturesConcat | app/posture_analyzer_trainer.py:63-85 | preparing two batches separately and joining the results is preparing them together |
| PostureTraining.OfType | app/posture_analyzer_trainer.py:117-119 | a folder's metrics are empty exactly when no sample comes from that folder |
| PostureTraining.Values | app/posture_analyzer_trainer.py:130-132 | one value of the chosen metric per sample, in order |
| PostureTraining.MetricStats | app/posture_analyzer_trainer.py:134-150 | the suggested threshold lies halfway between the good 95th and bad 5th percentiles; the neutral median falls back to it without neutral data; the means are the averages and the deviations are non-negative |
| PostureTraining.SuggestionWithinObservedRange | app/posture_analyzer_trainer.py:134-140 | when percentiles stay within their data, the suggested threshold stays within the range of the good and bad values |
| PostureTraining.AnalyzeThresholds | app/posture_analyzer_trainer.py:112-153 | nothing exactly when there is no good sample or no bad sample; otherwise the statistics of the shoulder, hip and spine metrics |
| PostureTraining.NoNeutralDataFallsBack | app/posture_analyzer_trainer.py:137 | without neutral samples every neutral median equals its suggested threshold |
| PostureTraining.SaveOptimizedConfig | app/posture_analyzer_trainer.py:239-297 | nothing is written exactly without an analysis; otherwise the suggested thresholds are written, every score band and feedback tier is ordered, and the weights add up to 1 |
| PostureTraining.PostureSection | app/posture_analyzer_trainer.py:248-255 | the posture section carries the three suggested thresholds and an ordered score band |
| PostureTraining.FixedSectionsOrdered | app/posture_analyzer_trainer.py:256-291 | the fixed gesture and eye bands and all three feedback tiers are ordered, and the weights add up to 1 |
| PostureTraining.BandsBySection | app/posture_analyzer_trainer.py:247-270 | a configuration whose three sections each have an ordered band has ordered score bands |
| PostureTraining.TiersBySection | app/posture_analyzer_trainer.py:271-284 | feedback whose three sections each have ordered tiers has ordered tiers |
| PostureTraining.SavedConfigTakesEffect | app/posture_analyzer_trainer.py:247-270 | loading the written sections over the defaults puts the suggested shoulder and spine thresholds in force and keeps every score band ordered |
| Landmarks.ShoulderTilt | app/core/analysis.py:127 | the shoulder tilt is never negative |
| Landmarks.HipTilt | app/core/analysis.py:128 | the hip tilt is never negative |
| Landmarks.SpineGap | app/core/analysis.py:131-132 | the spine gap is never negative |
| Landmarks.MirrorKeepsAlignment | app/core/analysis.py:127-132 | exchanging left and right landmarks changes none of the three alignment figures |
| Landmarks.HandSpread | app/core/analysis.py:182 | the hand spread is never negative |
| Landmarks.EyeSpread | app/core/analysis.py:254 | the eye spread is never negative |
| Landmarks.Std | app/posture_analyzer_trainer.py:148-149 | a population standard deviation is never negative |
| Landmarks.Distance | src/back-end/core_processing.py:127 | the distance is non-negative and its square is the sum of the squared coordinate differences |
| Landmarks.DistanceProperties | src/back-end/simple_websocket_server.py:133 | a point is at distance 0 from itself, and distance is symmetric |
| Landmarks.DistanceShift | src/back-end/simple_websocket_server.py:133 | moving both points by the same offset keeps their distance |
| Landmarks.HalfDiagonalSquared | app/core/analysis.py:239-240 | the squared half-diagonal is 0 exactly for a frame with no width and no height |
| Landmarks.CentreOffset | app/core/analysis.py:235-240 | undefined exactly for a frame with no width and no height; otherwise a non-negative fraction of the half-diagonal whose square times the squared half-diagonal is the squared distance of the eye midpoint from the frame centre |
| Landmarks.CentredEyesHaveZeroOffset | app/core/analysis.py:235-240 | eyes centred in a frame of positive width are at offset 0 |
| LandmarkFlattening.LandmarkNamesDistinct | src/back-end/media_pipe_utils.py:9-43 | there are 33 landmark names and no name occurs twice |
| LandmarkFlattening.Read | src/back-end/media_pipe_utils.py:64-72 | an unconvertible record reads as the origin; a convertible one keeps its x and y; a missing z reads as 0 |
| LandmarkFlattening.LandmarkAt | src/back-end/media_pipe_utils.py:57-62 | a landmark past the end of the input reads as the origin |
| LandmarkFlattening.Key | src/back-end/media_pipe_utils.py:59-61 | a key is the landmark's name followed by "_" and the axis letter |
| LandmarkFlattening.ConvertLandmarksToFlat | src/back-end/media_pipe_utils.py:46-78 | empty exactly for a missing list; otherwise 99 entries, entry k keyed by landmark k / 3 and axis k % 3 |
| LandmarkFlattening.Lookup | src/back-end/media_pipe_utils.py:52 | a key is found exactly when some entry carries it |
| LandmarkFlattening.KeysDistinct | src/back-end/media_pipe_utils.py:56-76 | different landmarks or axes give different keys, so no entry overwrites another |
| LandmarkFlattening.LookupUnique | src/back-end/media_pipe_utils.py:52 | in a table whose keys are distinct, each key finds its own value |
| LandmarkFlattening.FlatTableByKey | src/back-end/media_pipe_utils.py:56-76 | every key is present and reads 0 past the input's end or for an unconvertible record, the record's x or y when it converts, and 0 for a missing z |
| LandmarkFlattening.ExtraLandmarksIgnored | src/back-end/media_pipe_utils.py:56 | landmarks past the 33rd do not change the table |
| PoseClassifier.LessIrreflexive | src/back-end/pose_model.py:22 | no key sorts before itself |
| PoseClassifier.LessTransitive | src/back-end/pose_model.py:22 | the key order is transitive |
| PoseClassifier.LessTotal | src/back-end/pose_model.py:22 | any two different keys are ordered one way or the other |
| PoseClassifier.Insert | src/back-end/pose_model.py:22 | inserting a new key into a sorted table keeps it sorted and adds exactly that entry |
| PoseClassifier.SortByKey | src/back-end/pose_model.py:22 | the table in strictly increasing key order, holding exactly the same entries |
| PoseClassifier.VectorFromJoints | src/back-end/pose_model.py:19-23 | one value per key, and the values are a rearrangement of the table's values |
| PoseClassifier.VectorIsSortedValues | src/back-end/pose_model.py:19-23 | the vector is the values of any key-sorted table holding the same entries, so its order is the sorted key order |
| PoseClassifier.SortedUnique | src/back-end/pose_model.py:22 | two sorted tables holding the same entries are equal |
| PoseClassifier.VectorIgnoresInsertionOrder | src/back-end/pose_model.py:19-23 | tables holding the same entries in any insertion order give the same vector |
| PoseClassifier.Positions | src/back-end/pose_model.py:75-76 | the elements at the even, or the odd, positions, in order |
| PoseClassifier.MeanMagnitude | src/back-end/pose_model.py:86 | never negative, and 0 exactly when every coordinate is 0 |
| PoseClassifier.AllZeroIffSumZero | src/back-end/pose_model.py:86-87 | a sum of non-negative terms is 0 exactly when every term is |
| PoseClassifier.SpreadScore | src/back-end/pose_model.py:84-92 | the score lies in [0, 1], and is 0 when every coordinate is 0 |
| PoseClassifier.Heuristic | src/back-end/pose_model.py:75-95 | the score lies in [0, 1]; the pose is good exactly at 0.35 or above; fewer than two values or all zeros give a bad pose with score 0 |
| PoseClassifier.PredictFromJoints | src/back-end/pose_model.py:56-95 | with the learning libraries and a model, the model's probability on the sorted vector, good exactly at 0.5 or above; otherwise the heuristic's verdict, good exactly at 0.35 or above |
| PoseClassifier.OneLandmarkSorted | src/back-end/pose_model.py:22 | the x, y and z keys of one landmark are already in sorted order |
| PoseClassifier.ParityMixesAxes | src/back-end/pose_model.py:75-76 | for one landmark's three keys the vector is x, y, z, and the "x" group is x and z while the "y" group is y |
| Basics.Push | src/back-end/simple_websocket_server.py:25 | a capped history keeps the newest entry last and the most recent entries up to the cap, dropping only from the front |
| Text.NatToStringInjective | app/core/report_manager.py:91 | different counts print differently, so "analysis_" ids built from different counts differ |
| Text.SplitOn | src/back-end/main.py:202 | splitting on a character yields at least one piece and no piece contains that character |

## Left out

- Flask, SocketIO and websocket transport: routes, accept/send loops, `handle_client`, broadcast managers, coaching threads and globals. These are transport and concurrency. `SessionServer.HandleMessage` models which reply goes to whom, not the sockets.
- Camera discovery and configuration, and the camera loops' frame capture and drawing: device I/O.
- MediaPipe, OpenCV and Haar-cascade inference, and frame decoding and encoding: foreign calls. Their outputs (landmarks, face boxes, "decoded or not") are inputs.
- The JPEG re-encoding of the annotated frame in `process_video_frame` of src/back-end/websocket_server.py, which could fail after the metrics are stored: it is a foreign call. `SessionServer.ProcessVideoFrame` treats a processor failure as happening before the store.
- `np.random.normal`: randomness is not modelled. Each draw is an explicit argument.
- Square root, standard deviation, percentile and arc cosine: numpy's floating-point results are not modelled. They are function arguments, constrained only by the property each proof needs.
- Floating point in general: every score is an exact `real`. Rounding, NaN (except where a guard depends on it) and overflow are not modelled.
- LenientScoring.Overall: the value is the weighted mean before `round(_, 1)`; the rounding is not modelled.
- SessionReport.FinalReport: the averages and improvements are the values before `round(_, 1)`; the rounding is not modelled.
- ReportHistory.GetStatistics: the average and total duration are the values before `round(_, 1)`; the rounding is not modelled.
- The `round(_, 1)` applied to the scores each camera loop sends out is not modelled either; the unrounded scores are recorded.
- The standard deviations in the raw metrics of src/back-end/features.py (`hand_movement_std`, `head_movement_std`): report-only figures that feed no score.
- The sentiment analysis of src/BackEnd/services/nlp_analyzer.py: a HuggingFace model call that does not enter the content score.
- Transcription and audio feature extraction (Whisper, librosa spectral contrast, RMS energy, pitch tracking): foreign libraries. Their outputs are inputs to `SpeechAnalysis`.
- NLTK sentence and word tokenisation and its stop-word list: foreign. The tokens and sentences are inputs to `ContentAnalysis`.
- The Ollama HTTP request and the AI feedback request at the end of `generate_insights` in src/back-end/analyze.py: network calls. Only the local-host gate in front of the request is modelled.
- ffmpeg and ffprobe conversion in the video converters: foreign processes. Only `allowed_file` is modelled.
- File persistence: `ReportManager`'s JSON history and report files, `load_config`/`save_config`, the report file written by src/qualcomm/app_fixed.py, the sample files of the collector, and the trainer's configuration and report files.
- Model fitting, evaluation, plots and the correlation matrix of app/posture_analyzer_trainer.py, and `train_from_csv`/`load_model` in src/back-end/pose_model.py: machine-learning libraries. The trained model is a probability function argument of `PoseClassifier.PredictFromJoints`.
- The smoothing section (`factor` 0.6, `history_size` 15) written by `PostureTraining.SaveOptimizedConfig` is written and nothing more: `smooth_score` always uses its own default 0.7 and a 20-entry history, and the model does the same.
- The exception handler of `analyze_eye_contact_improved` in src/qualcomm/app_fixed.py: none of the modelled inputs can raise there, so only its no-face path is modelled.
- The capture loop of src/qualcomm/pitch_monitor.py is modelled as a step over given random draws. The file's trailing Markdown fences make it unparseable as Python, and they are ignored.
- User interface: the Streamlit app and the HTML pages embedded in the servers and converters.
- Platform probing, setup and run scripts, and the watchdog-driven batch video processor: environment-specific I/O.
- The landmark geometry inside src/back-end/edge_ai_combined_server.py and mediapipe_websocket_server.py: none of it feeds the scoring engine.
- Text.LowerChar, Text.IsAlnum: exact on ASCII and Latin-1 only. Characters beyond U+00FF are neither upper-case nor alphanumeric in the model, while Python's `str.lower`, `str.isalnum` and the `\w`/`\b` of `re` use the full Unicode tables. `ContentAnalysis` word filtering and `LanguageService.IsWordChar` inherit this. `Text.IsSpace` is the complete `str.isspace` set.
- The interactive test scripts app/test_real_time_analysis.py and app/test_gesture_analysis.py call methods and read keys that app/core/analysis.py does not define.

## Findings

| source | as written | input that shows it | evidently intended | confidence | as-written member | corrected member |
|---|---|---|---|---|---|---|
| src/qualcomm/app_camera_fixed.py:406 | `analyze_posture` and `analyze_gestures` look up `mp_pose` and `mp_hands`. These exist only as locals of the camera loop (line 274), so the `NameError` is caught and the baseline 50 or 30 is returned. The same happens in app_debug.py. | any detected pose, e.g. level shoulders and hips, scores 50 instead of 100 | score the detected landmarks with the alignment formulas | high, not executed | Deterministic.PostureAsWrittenCounterexample | Deterministic.AnalyzePosture |
| src/qualcomm/app_fixed.py:664 | the improved posture and gesture extractors name the same loop locals, so a detected pose or hands take the no-detection path: the previous score plus noise | with no noise, a level pose and widely spread hands keep the previous scores | score the detected landmarks, then add noise and clamp | high, not executed | Noisy.AsWrittenIgnoresLandmarks | Noisy.PostureImproved |
| src/back-end/core_processing.py:147-148 | after a frame without a face, `previous_landmarks['face']` is `None`, and the next frame with a face slices `None[:10]`, which raises `TypeError` | a face frame following a faceless frame | treat a missing previous face as no movement | high, not executed | CoreTracker.FaceReturnCrashes | CoreTracker.ExtractMetrics |
| app/core/report_manager.py:91 | a new id is `analysis_{len + 1}`, so after a deletion the next id can equal one still stored | add two reports, delete `analysis_1`, add a third: it gets `analysis_2`, the id of the report still stored, and the latest report resolves to the older entry | ids that stay unique over the history's life | high, not executed | ReportHistory.DuplicateIdAfterDelete | ReportHistory.AddReportFresh |
| src/back-end/simple_websocket_server.py:75 | `if faces` tests the NumPy array that detection returns for one or more faces, which raises `ValueError` after the previous centre was replaced and before the frame is stored | a 640×480 frame with one face: error reply, empty history | test `len(faces) > 0`, so face frames are stored | high, not executed | SimpleVideoServer.OneFaceFrameIsLost | SimpleVideoServer.ProcessFrame |
