/** The older feature tracker of src/back-end/features.py.  It differs from
    the one in core_processing.py in several ways:
    - the eye points are scaled to pixels (frame width and height, 640×480 when
      the frame has no shape);
    - the eye aspect ratio has no guard against a zero horizontal span, so numpy
      yields infinity or NaN there;
    - the blink window stores the average ratios, not booleans;
    - hands and head are tracked by their centre and nose point;
    - the nervousness score is a fixed 0.4/0.4/0.2 blend that needs five samples.

    The eye-mesh lookups are not guarded: a face whose mesh is too short for
    index 387 raises `IndexError` out of `extract_features`, modelled as `Err`. */
module FeatureTracking {
  import opened Basics
  import opened Landmarks
  import CoreTracker

  const WindowSize: nat := 30
  const BlinkThreshold: real := 0.25
  const LeftEyeIdx: seq<nat> := [362, 385, 387, 263, 373, 380]
  const RightEyeIdx: seq<nat> := [33, 160, 158, 133, 153, 144]
  const LastEyeIndex: nat := 387
  /** `(h, w)` assumed when the frame argument has no `shape`. */
  const DefaultFrame: FrameSize := FrameSize(480, 640)

  // ---------------------------------------------------------------- eye aspect ratio

  /** A numpy float64 as far as the ratio needs it: a finite value, `inf`, or `nan`. */
  datatype Ear = Finite(value: real) | Infinite | NotANumber

  /** Compared with `<`, `inf` and `nan` are never below a threshold. */
  predicate Below(e: Ear, t: real)
  {
    e.Finite? && e.value < t
  }

  /** `calculate_eye_aspect_ratio`: 0.3 for fewer than six points, otherwise
      `(v1 + v2) / (2h)` in float64 arithmetic, where a zero `h` gives `inf`
      (or `nan` when the numerator is 0 too). */
  function EarOf(eye: seq<Pt2>, sqrt: real -> real): (r: Ear)
    requires IsSqrt(sqrt)
    ensures r.Finite? ==> r.value >= 0.0
    ensures |eye| < 6 ==> r == Finite(0.3)
    ensures |eye| >= 6 ==> (r.Finite? <==> Distance(eye[0], eye[3], sqrt) != 0.0)
  {
    if |eye| < 6 then Finite(0.3)
    else
      var v1 := Distance(eye[1], eye[5], sqrt);
      var v2 := Distance(eye[2], eye[4], sqrt);
      var h := Distance(eye[0], eye[3], sqrt);
      if h == 0.0 then (if v1 + v2 == 0.0 then NotANumber else Infinite)
      else Finite((v1 + v2) / (2.0 * h))
  }

  /** The two copies of the ratio agree wherever the horizontal span is non-zero;
      where it is zero, core_processing.py reports 0.3 and this copy a non-finite value. */
  lemma EarCopiesAgree(eye: seq<Pt2>, sqrt: real -> real)
    requires IsSqrt(sqrt)
    ensures EarOf(eye, sqrt).Finite? ==> EarOf(eye, sqrt).value == CoreTracker.EyeAspectRatio(eye, sqrt)
    ensures !EarOf(eye, sqrt).Finite? ==> CoreTracker.EyeAspectRatio(eye, sqrt) == CoreTracker.OpenEar
  {
  }

  /** `(a + b) / 2.0` under IEEE rules for non-negative operands. */
  function Average(a: Ear, b: Ear): (r: Ear)
    ensures r.Finite? <==> a.Finite? && b.Finite?
    ensures r.Finite? ==> r.value == (a.value + b.value) / 2.0
  {
    if a.NotANumber? || b.NotANumber? then NotANumber
    else if a.Infinite? || b.Infinite? then Infinite
    else Finite((a.value + b.value) / 2.0)
  }

  /** The eye points `[x * w, y * h]` of the mesh. */
  function PixelEye(face: seq<Point>, idx: seq<nat>, f: FrameSize): (r: seq<Pt2>)
    requires forall k :: 0 <= k < |idx| ==> idx[k] < |face|
    ensures |r| == |idx|
  {
    seq(|idx|, k requires 0 <= k < |idx| =>
      Pt2(face[idx[k]].x * f.width as real, face[idx[k]].y * f.height as real))
  }

  /** The blink test's average ratio for a full mesh. */
  function AverageEar(face: seq<Point>, f: FrameSize, sqrt: real -> real): (r: Ear)
    requires IsSqrt(sqrt)
    requires |face| > LastEyeIndex
    ensures r.Finite? ==> r.value >= 0.0
  {
    Average(EarOf(PixelEye(face, LeftEyeIdx, f), sqrt), EarOf(PixelEye(face, RightEyeIdx, f), sqrt))
  }

  /** A frame whose eye span collapses is never a blink: `inf < 0.25` and
      `nan < 0.25` are both false. */
  lemma CollapsedEyeNeverBlinks(face: seq<Point>, f: FrameSize, sqrt: real -> real)
    requires IsSqrt(sqrt)
    requires |face| > LastEyeIndex
    requires Distance(PixelEye(face, LeftEyeIdx, f)[0], PixelEye(face, LeftEyeIdx, f)[3], sqrt) == 0.0
    ensures !Below(AverageEar(face, f, sqrt), BlinkThreshold)
  {
  }

  // ---------------------------------------------------------------- window statistics

  /** Which window entries are below 0.25. */
  function BlinkFlags(window: seq<Ear>): (r: seq<bool>)
    ensures |r| == |window|
    ensures forall i :: 0 <= i < |window| ==> (r[i] <==> Below(window[i], BlinkThreshold))
  {
    seq(|window|, i requires 0 <= i < |window| => Below(window[i], BlinkThreshold))
  }

  /** `sum(1 for ear in window if ear < 0.25) / len(window)`, or 0 for an empty window. */
  function BlinkFraction(window: seq<Ear>): (r: real)
    ensures 0.0 <= r <= 1.0
  {
    if |window| == 0 then 0.0
    else (CountTrue(BlinkFlags(window)) as real) / (|window| as real)
  }

  /** This copy reports blinks as a fraction; core_processing.py reports the same
      count times 60: the two agree on the same closed/open pattern. */
  lemma FractionMatchesCoreRate(window: seq<Ear>)
    ensures BlinkFraction(window) * 60.0 == CoreTracker.BlinkRate(BlinkFlags(window))
  {
  }

  /** Sum of the window's values under IEEE rules. */
  function EarSum(s: seq<Ear>): (r: Ear)
    ensures r.Finite? <==> forall i :: 0 <= i < |s| ==> s[i].Finite?
  {
    if |s| == 0 then Finite(0.0)
    else
      var rest := EarSum(s[..|s| - 1]);
      var last := s[|s| - 1];
      assert forall i :: 0 <= i < |s| - 1 ==> s[..|s| - 1][i] == s[i];
      if rest.NotANumber? || last.NotANumber? then NotANumber
      else if rest.Infinite? || last.Infinite? then Infinite
      else Finite(rest.value + last.value)
  }

  /** The window's finite values, for a window that has no other. */
  function Values(s: seq<Ear>): (r: seq<real>)
    requires forall i :: 0 <= i < |s| ==> s[i].Finite?
    ensures |r| == |s|
    ensures forall i :: 0 <= i < |s| ==> r[i] == s[i].value
  {
    seq(|s|, i requires 0 <= i < |s| => s[i].value)
  }

  lemma {:induction false} EarSumFinite(s: seq<Ear>)
    requires forall i :: 0 <= i < |s| ==> s[i].Finite?
    ensures EarSum(s) == Finite(Sum(Values(s)))
    decreases |s|
  {
    if |s| > 0 {
      var init := s[..|s| - 1];
      EarSumFinite(init);
      assert Values(s)[..|s| - 1] == Values(init);
    }
  }

  /** `np.mean(window)`, or 0.3 for an empty window. */
  function AverageOfWindow(s: seq<Ear>): (r: Ear)
    ensures |s| == 0 ==> r == Finite(0.3)
    ensures r.Finite? <==> forall i :: 0 <= i < |s| ==> s[i].Finite?
  {
    if |s| == 0 then Finite(0.3)
    else
      var total := EarSum(s);
      if total.Finite? then Finite(total.value / (|s| as real)) else total
  }

  /** On a window of finite values the average is their arithmetic mean. */
  lemma AverageOfFiniteWindow(s: seq<Ear>)
    requires |s| > 0
    requires forall i :: 0 <= i < |s| ==> s[i].Finite?
    ensures AverageOfWindow(s) == Finite(Mean(Values(s)))
  {
    EarSumFinite(s);
  }

  /** `calculate_nervousness_score`: 0 below five blink samples, otherwise the
      0.4/0.4/0.2 blend of `min(2 * fraction, 1)`, `min(50 * hand, 1)` and
      `min(100 * head, 1)`, capped at 1. */
  function Nervousness(window: seq<Ear>, hand: seq<real>, head: seq<real>): (r: real)
    requires AllNonNeg(hand) && AllNonNeg(head)
    ensures 0.0 <= r <= 1.0
    ensures |window| < 5 ==> r == 0.0
  {
    if |window| < 5 then 0.0
    else
      var blinkScore := Min(BlinkFraction(window) * 2.0, 1.0);
      var handScore := Min(MeanOrZero(hand) * 50.0, 1.0);
      var headScore := Min(MeanOrZero(head) * 100.0, 1.0);
      Min(blinkScore * 0.4 + handScore * 0.4 + headScore * 0.2, 1.0)
  }

  /** The blend of three scores in [0, 1]. */
  function Blend(b: real, h: real, d: real): real
  {
    b * 0.4 + h * 0.4 + d * 0.2
  }

  /** The final cap never binds, and the score reaches 1 exactly when all three
      components saturate. */
  lemma BlendShape(b: real, h: real, d: real)
    requires 0.0 <= b <= 1.0 && 0.0 <= h <= 1.0 && 0.0 <= d <= 1.0
    ensures 0.0 <= Blend(b, h, d) <= 1.0
    ensures Blend(b, h, d) == 1.0 <==> b == 1.0 && h == 1.0 && d == 1.0
  {
  }

  /** With five samples or more the score is the blend itself, and it is 1
      exactly when half the window is closed, hands average at least 0.02 and
      the head at least 0.01. */
  lemma NervousnessSaturation(window: seq<Ear>, hand: seq<real>, head: seq<real>)
    requires AllNonNeg(hand) && AllNonNeg(head)
    requires |window| >= 5
    ensures Nervousness(window, hand, head) == 1.0 <==>
              BlinkFraction(window) >= 0.5 && MeanOrZero(hand) >= 0.02
              && MeanOrZero(head) >= 0.01
  {
    var b := Min(BlinkFraction(window) * 2.0, 1.0);
    var h := Min(MeanOrZero(hand) * 50.0, 1.0);
    var d := Min(MeanOrZero(head) * 100.0, 1.0);
    BlendShape(b, h, d);
  }

  // ---------------------------------------------------------------- hand and head movement

  /** `np.mean([[lm.x, lm.y] for lm in hand], axis=0)`. */
  function Centre(hand: seq<Point>): Pt2
    requires |hand| > 0
  {
    Pt2(Mean(seq(|hand|, i requires 0 <= i < |hand| => hand[i].x)),
        Mean(seq(|hand|, i requires 0 <= i < |hand| => hand[i].y)))
  }

  predicate AllNonEmpty(hands: seq<seq<Point>>)
  {
    forall i :: 0 <= i < |hands| ==> |hands[i]| > 0
  }

  /** The loop of `calculate_hand_movement` over the detected hands: each hand
      moves from the stored `hand_center` (its own centre when none is stored,
      giving 0), and then becomes the stored centre for the next hand.  Returns
      the total and the centre left stored. */
  function HandPass(stored: Option<Pt2>, hands: seq<seq<Point>>, sqrt: real -> real): (r: (real, Option<Pt2>))
    requires IsSqrt(sqrt)
    requires AllNonEmpty(hands)
    ensures r.0 >= 0.0
    ensures |hands| == 0 ==> r == (0.0, stored)
    ensures |hands| > 0 ==> r.1 == Some(Centre(hands[|hands| - 1]))
    decreases |hands|
  {
    if |hands| == 0 then (0.0, stored)
    else
      var c := Centre(hands[0]);
      var rest := HandPass(Some(c), hands[1..], sqrt);
      assert |hands| > 1 ==> hands[1..][|hands[1..]| - 1] == hands[|hands| - 1];
      (Distance(c, stored.GetOr(c), sqrt) + rest.0, rest.1)
  }

  /** On the first frame with two hands, the "movement" is the distance between
      the two hands: the second hand is compared with the first one's centre. */
  lemma FirstTwoHandsMeasureTheirGap(h1: seq<Point>, h2: seq<Point>, sqrt: real -> real)
    requires IsSqrt(sqrt)
    requires |h1| > 0 && |h2| > 0
    ensures HandPass(None, [h1, h2], sqrt).0 == Distance(Centre(h2), Centre(h1), sqrt)
  {
    var c := Centre(h1);
    DistanceProperties(c, c, sqrt);
    assert [h1, h2][1..] == [h2];
    assert [h2][1..] == [];
  }

  /** A single hand that stays where the stored centre is does not move. */
  lemma StillHandDoesNotMove(hand: seq<Point>, sqrt: real -> real)
    requires IsSqrt(sqrt)
    requires |hand| > 0
    ensures HandPass(Some(Centre(hand)), [hand], sqrt).0 == 0.0
  {
    DistanceProperties(Centre(hand), Centre(hand), sqrt);
    assert [hand][1..] == [];
  }

  /** Head movement: the nose point (landmark 1) against the stored one, 0 the
      first time. */
  function HeadStep(stored: Option<Pt2>, nose: Pt2, sqrt: real -> real): (r: real)
    requires IsSqrt(sqrt)
    ensures r >= 0.0
    ensures stored.None? ==> r == 0.0
    ensures stored == Some(nose) ==> r == 0.0
  {
    DistanceProperties(nose, nose, sqrt);
    if stored.Some? then Distance(nose, stored.value, sqrt) else 0.0
  }

  // ---------------------------------------------------------------- tracker state

  /** The global `feature_tracker`: the three windows and the two remembered points. */
  datatype Tracker = Tracker(blinks: seq<Ear>, hand: seq<real>, head: seq<real>,
                             handCentre: Option<Pt2>, headPos: Option<Pt2>)

  function NewTracker(): (t: Tracker)
    ensures Coherent(t) && |t.blinks| == 0 && |t.hand| == 0
  {
    Tracker([], [], [], None, None)
  }

  /** The hand and head windows advance together on every frame, the blink
      window only on frames with a face; none exceeds 30 entries. */
  predicate Coherent(t: Tracker)
  {
    |t.blinks| <= WindowSize && |t.hand| == |t.head| <= WindowSize
    && AllNonNeg(t.hand) && AllNonNeg(t.head)
  }

  datatype BlinkStats = BlinkStats(avgEar: Ear, blinkRate: real)

  /** The dictionary `extract_features` returns, without the clock reading and the
      standard deviations. */
  datatype Features = Features(
    nervousness: real, blinkDetected: bool, stats: BlinkStats,
    handMovement: real, headMovement: real, handsDetected: nat, faceDetected: nat,
    avgHandMovement: real, avgHeadMovement: real)

  datatype Update = Update(tracker: Tracker, features: Features)

  /** What the face half of a frame produces. */
  datatype FaceOutcome = FaceOutcome(blinks: seq<Ear>, blink: bool, headMove: real, headPos: Option<Pt2>)

  /** `detect_blink` and `calculate_head_movement` on a frame whose mesh (if any)
      is long enough: the average ratio joins the blink window and the nose
      point becomes the stored head position. */
  function FacePart(t: Tracker, faces: seq<seq<Point>>, size: FrameSize, sqrt: real -> real): (o: FaceOutcome)
    requires IsSqrt(sqrt)
    requires |faces| == 0 || |faces[0]| > LastEyeIndex
    ensures o.headMove >= 0.0
    ensures |faces| == 0 ==> o == FaceOutcome(t.blinks, false, 0.0, t.headPos)
    ensures |faces| > 0 ==> |o.blinks| == MinNat(|t.blinks| + 1, WindowSize)
    ensures |faces| > 0 ==> o.blink == Below(o.blinks[|o.blinks| - 1], BlinkThreshold)
    ensures |faces| > 0 ==> o.headPos == Some(Flat(faces[0][1]))
    ensures t.headPos.None? ==> o.headMove == 0.0
  {
    if |faces| == 0 then FaceOutcome(t.blinks, false, 0.0, t.headPos)
    else
      var avg := AverageEar(faces[0], size, sqrt);
      var nose := Flat(faces[0][1]);
      FaceOutcome(Push(t.blinks, avg, WindowSize), Below(avg, BlinkThreshold),
                  HeadStep(t.headPos, nose, sqrt), Some(nose))
  }

  /** The hand half of a frame: the movement recorded and the centre left stored. */
  function HandPart(t: Tracker, hands: seq<seq<Point>>, sqrt: real -> real): (r: (real, Option<Pt2>))
    requires IsSqrt(sqrt)
    requires AllNonEmpty(hands)
    ensures r.0 >= 0.0
    ensures |hands| == 0 ==> r == (0.0, t.handCentre)
  {
    HandPass(t.handCentre, hands, sqrt)
  }

  /** The windows after one frame: both movements pushed, the blink window and
      the remembered points taken from the two halves. */
  function NextTracker(t: Tracker, face: FaceOutcome, hand: (real, Option<Pt2>)): (n: Tracker)
    requires Coherent(t)
    requires |face.blinks| <= WindowSize && face.headMove >= 0.0 && hand.0 >= 0.0
    ensures Coherent(n)
    ensures n.hand == Push(t.hand, hand.0, WindowSize) && n.head == Push(t.head, face.headMove, WindowSize)
    ensures n.blinks == face.blinks && n.handCentre == hand.1 && n.headPos == face.headPos
  {
    var handH := Push(t.hand, hand.0, WindowSize);
    var headH := Push(t.head, face.headMove, WindowSize);
    PushKeepsNonNeg(t.hand, hand.0, WindowSize);
    PushKeepsNonNeg(t.head, face.headMove, WindowSize);
    Tracker(face.blinks, handH, headH, hand.1, face.headPos)
  }

  /** One frame on a mesh that is long enough (or absent). */
  function Advance(t: Tracker, faces: seq<seq<Point>>, hands: seq<seq<Point>>,
                   size: FrameSize, sqrt: real -> real): (u: Update)
    requires IsSqrt(sqrt)
    requires Coherent(t)
    requires AllNonEmpty(hands)
    requires |faces| == 0 || |faces[0]| > LastEyeIndex
    ensures Coherent(u.tracker)
    ensures u.tracker.hand == Push(t.hand, u.features.handMovement, WindowSize)
    ensures u.tracker.head == Push(t.head, u.features.headMovement, WindowSize)
    ensures |faces| == 0 ==> u.tracker.blinks == t.blinks
    ensures |faces| > 0 ==> |u.tracker.blinks| == MinNat(|t.blinks| + 1, WindowSize)
    ensures |hands| == 0 ==> u.features.handMovement == 0.0
    ensures |faces| == 0 || t.headPos.None? ==> u.features.headMovement == 0.0
    ensures |faces| == 0 ==> !u.features.blinkDetected
    ensures 0.0 <= u.features.nervousness <= 1.0
    ensures 0.0 <= u.features.stats.blinkRate <= 1.0
    ensures u.features.handsDetected == |hands| && u.features.faceDetected == |faces|
    ensures u.features.nervousness == Nervousness(u.tracker.blinks, u.tracker.hand, u.tracker.head)
    ensures u.features.stats.blinkRate == BlinkFraction(u.tracker.blinks)
    ensures u.features.stats.avgEar == AverageOfWindow(u.tracker.blinks)
    ensures u.features.avgHandMovement == MeanOrZero(u.tracker.hand)
    ensures u.features.avgHeadMovement == MeanOrZero(u.tracker.head)
  {
    var face := FacePart(t, faces, size, sqrt);
    var hand := HandPart(t, hands, sqrt);
    var next := NextTracker(t, face, hand);
    var stats := BlinkStats(AverageOfWindow(next.blinks), BlinkFraction(next.blinks));
    Update(next, Features(Nervousness(next.blinks, next.hand, next.head), face.blink, stats, hand.0,
                          face.headMove, |hands|, |faces|,
                          MeanOrZero(next.hand), MeanOrZero(next.head)))
  }

  /** `extract_features(face_results, hand_results, frame)`, with the detections
      given as the lists `multi_face_landmarks` and `multi_hand_landmarks`
      (empty for none) and `frame` as its size, if it has a shape. */
  function ExtractFeatures(t: Tracker, faces: seq<seq<Point>>, hands: seq<seq<Point>>,
                           frame: Option<FrameSize>, sqrt: real -> real): (r: Result<Update>)
    requires IsSqrt(sqrt)
    requires Coherent(t)
    requires AllNonEmpty(hands)
    ensures r.Err? <==> |faces| > 0 && |faces[0]| <= LastEyeIndex
    ensures r.Ok? ==> r.value == Advance(t, faces, hands, frame.GetOr(DefaultFrame), sqrt)
  {
    if |faces| > 0 && |faces[0]| <= LastEyeIndex then Err("list index out of range")
    else Ok(Advance(t, faces, hands, frame.GetOr(DefaultFrame), sqrt))
  }

  /** `get_summary_stats`'s result. */
  datatype Summary = Summary(totalFrames: nat, nervousness: real, blinkRate: real,
                             avgHandMovement: real, avgHeadMovement: real)

  /** `get_summary_stats`: `{}` before any face was seen, otherwise the window statistics. */
  function SummaryStats(t: Tracker): (r: Option<Summary>)
    requires Coherent(t)
    ensures r.None? <==> |t.blinks| == 0
    ensures r.Some? ==> r.value.totalFrames == |t.blinks| && 0.0 <= r.value.nervousness <= 1.0
                        && 0.0 <= r.value.blinkRate <= 1.0
                        && r.value.avgHandMovement >= 0.0 && r.value.avgHeadMovement >= 0.0
    ensures r.Some? ==> r.value.nervousness == Nervousness(t.blinks, t.hand, t.head)
                        && r.value.blinkRate == BlinkFraction(t.blinks)
                        && r.value.avgHandMovement == MeanOrZero(t.hand)
                        && r.value.avgHeadMovement == MeanOrZero(t.head)
  {
    if |t.blinks| == 0 then None
    else Some(Summary(|t.blinks|, Nervousness(t.blinks, t.hand, t.head), BlinkFraction(t.blinks),
                      MeanOrZero(t.hand), MeanOrZero(t.head)))
  }

  /** After a frame with a face, the summary reports that frame's nervousness,
      blink fraction and average movements. */
  lemma SummaryAfterFaceFrame(t: Tracker, faces: seq<seq<Point>>, hands: seq<seq<Point>>,
                              size: FrameSize, sqrt: real -> real)
    requires IsSqrt(sqrt)
    requires Coherent(t)
    requires AllNonEmpty(hands)
    requires |faces| > 0 && |faces[0]| > LastEyeIndex
    ensures SummaryStats(Advance(t, faces, hands, size, sqrt).tracker).Some?
    ensures SummaryStats(Advance(t, faces, hands, size, sqrt).tracker).value.nervousness
              == Advance(t, faces, hands, size, sqrt).features.nervousness
    ensures SummaryStats(Advance(t, faces, hands, size, sqrt).tracker).value.blinkRate
              == Advance(t, faces, hands, size, sqrt).features.stats.blinkRate
    ensures SummaryStats(Advance(t, faces, hands, size, sqrt).tracker).value.avgHandMovement
              == Advance(t, faces, hands, size, sqrt).features.avgHandMovement
  {
  }

  /** A frame with neither face nor hands records zeros and leaves the blink window alone. */
  lemma EmptyFrameRecordsZeros(t: Tracker, frame: Option<FrameSize>, sqrt: real -> real)
    requires IsSqrt(sqrt)
    requires Coherent(t)
    ensures ExtractFeatures(t, [], [], frame, sqrt).Ok?
    ensures ExtractFeatures(t, [], [], frame, sqrt).value.tracker.hand == Push(t.hand, 0.0, WindowSize)
    ensures ExtractFeatures(t, [], [], frame, sqrt).value.tracker.head == Push(t.head, 0.0, WindowSize)
    ensures ExtractFeatures(t, [], [], frame, sqrt).value.tracker.blinks == t.blinks
    ensures ExtractFeatures(t, [], [], frame, sqrt).value.features.nervousness
              == Nervousness(t.blinks, Push(t.hand, 0.0, WindowSize), Push(t.head, 0.0, WindowSize))
  {
  }
}
