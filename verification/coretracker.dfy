/** The back-end feature tracker of src/back-end/core_processing.py: eye
    aspect ratio and per-frame blink test, landmark movement between
    consecutive frames, three trailing windows of 30 entries, and the
    nervousness score derived from them; plus the audio chunk buffer and
    the session-level recommendations of the same file.

    A "blink" is any frame whose average eye aspect ratio is below 0.25;
    there is no debounce, so a closed eye held for k frames counts k times.
    MediaPipe's landmark lists are inputs: the face mesh as `Option<seq<Point>>`
    (`None` when no face is found), the hands as one flat list of points. */
module CoreTracker {
  import opened Basics
  import opened Landmarks

  const WindowSize: nat := 30
  const BlinkThreshold: real := 0.25
  /** The ratio reported for an eye that cannot be measured. */
  const OpenEar: real := 0.3
  const LeftEyeIdx: seq<nat> := [362, 385, 387, 263, 373, 380]
  const RightEyeIdx: seq<nat> := [33, 160, 158, 133, 153, 144]
  /** The largest mesh index the blink test reads. */
  const LastEyeIndex: nat := 387

  // ---------------------------------------------------------------- eye aspect ratio

  /** `calculate_eye_aspect_ratio`: 0.3 for fewer than six points or a zero
      horizontal span, otherwise `(|p1 - p5| + |p2 - p4|) / (2 |p0 - p3|)`. */
  function EyeAspectRatio(eye: seq<Pt2>, sqrt: real -> real): (r: real)
    requires IsSqrt(sqrt)
    ensures r >= 0.0
    ensures |eye| < 6 ==> r == OpenEar
    ensures |eye| >= 6 && eye[0] == eye[3] ==> r == OpenEar
  {
    if |eye| < 6 then OpenEar
    else
      var v1 := Distance(eye[1], eye[5], sqrt);
      var v2 := Distance(eye[2], eye[4], sqrt);
      var h := Distance(eye[0], eye[3], sqrt);
      DistanceProperties(eye[0], eye[3], sqrt);
      if h == 0.0 then OpenEar else (v1 + v2) / (2.0 * h)
  }

  /** `eye` moved by `t`, point by point. */
  function ShiftAll(eye: seq<Pt2>, t: Pt2): (r: seq<Pt2>)
    ensures |r| == |eye|
  {
    seq(|eye|, i requires 0 <= i < |eye| => Shift(eye[i], t))
  }

  /** The ratio depends only on the eye's shape: moving every point by the
      same offset leaves it unchanged. */
  lemma EarTranslationInvariant(eye: seq<Pt2>, t: Pt2, sqrt: real -> real)
    requires IsSqrt(sqrt)
    ensures EyeAspectRatio(ShiftAll(eye, t), sqrt) == EyeAspectRatio(eye, sqrt)
  {
    if |eye| >= 6 {
      var moved := ShiftAll(eye, t);
      DistanceShift(eye[1], eye[5], t, sqrt);
      DistanceShift(eye[2], eye[4], t, sqrt);
      DistanceShift(eye[0], eye[3], t, sqrt);
      assert moved[0] == Shift(eye[0], t) && moved[3] == Shift(eye[3], t);
      assert moved[1] == Shift(eye[1], t) && moved[5] == Shift(eye[5], t);
      assert moved[2] == Shift(eye[2], t) && moved[4] == Shift(eye[4], t);
    }
  }

  /** A closed eye, whose upper and lower lid points coincide, has ratio 0
      unless its corners coincide too, in which case the guard gives 0.3. */
  lemma ClosedEyeRatio(eye: seq<Pt2>, sqrt: real -> real)
    requires IsSqrt(sqrt)
    requires |eye| >= 6 && eye[1] == eye[5] && eye[2] == eye[4]
    ensures EyeAspectRatio(eye, sqrt) == (if Distance(eye[0], eye[3], sqrt) == 0.0 then OpenEar else 0.0)
  {
    DistanceProperties(eye[1], eye[5], sqrt);
    DistanceProperties(eye[2], eye[4], sqrt);
  }

  // ---------------------------------------------------------------- blink test

  /** `(face[i].x, face[i].y) for i in idx`. */
  function EyePoints(face: seq<Point>, idx: seq<nat>): (r: seq<Pt2>)
    requires forall k :: 0 <= k < |idx| ==> idx[k] < |face|
    ensures |r| == |idx|
    ensures forall k :: 0 <= k < |idx| ==> r[k] == Flat(face[idx[k]])
  {
    seq(|idx|, k requires 0 <= k < |idx| => Flat(face[idx[k]]))
  }

  predicate Present(face: Option<seq<Point>>)
  {
    face.Some? && |face.value| > 0
  }

  datatype BlinkReading = BlinkReading(blink: bool, ear: real)

  /** `detect_blink`: `(False, 0.0)` with no face; a mesh too short for index
      387 raises `IndexError`, which the handler turns into `(False, 0.3)`;
      otherwise the average of both eyes' ratios, a blink when below 0.25. */
  function DetectBlink(face: Option<seq<Point>>, sqrt: real -> real): (r: BlinkReading)
    requires IsSqrt(sqrt)
    ensures r.ear >= 0.0
    ensures !Present(face) ==> r == BlinkReading(false, 0.0)
    ensures Present(face) && |face.value| <= LastEyeIndex ==> r == BlinkReading(false, OpenEar)
    ensures Present(face) && |face.value| > LastEyeIndex ==>
              (r.blink <==> r.ear < BlinkThreshold)
              && r.ear == (EyeAspectRatio(EyePoints(face.value, LeftEyeIdx), sqrt)
                           + EyeAspectRatio(EyePoints(face.value, RightEyeIdx), sqrt)) / 2.0
  {
    if !Present(face) then BlinkReading(false, 0.0)
    else if |face.value| <= LastEyeIndex then BlinkReading(false, OpenEar)
    else
      var left := EyeAspectRatio(EyePoints(face.value, LeftEyeIdx), sqrt);
      var right := EyeAspectRatio(EyePoints(face.value, RightEyeIdx), sqrt);
      var avg := (left + right) / 2.0;
      BlinkReading(avg < BlinkThreshold, avg)
  }

  /** Only a full mesh can blink: a blink needs a face with every eye index in range. */
  lemma BlinkNeedsFullMesh(face: Option<seq<Point>>, sqrt: real -> real)
    requires IsSqrt(sqrt)
    requires DetectBlink(face, sqrt).blink
    ensures Present(face) && |face.value| > LastEyeIndex
  {
  }

  /** Both eyes closed with their corners apart is a blink (ratio 0). */
  lemma ClosedEyesBlink(face: seq<Point>, sqrt: real -> real)
    requires IsSqrt(sqrt)
    requires |face| > LastEyeIndex
    requires face[385] == face[380] && face[387] == face[373]
    requires face[160] == face[144] && face[158] == face[153]
    requires Distance(Flat(face[362]), Flat(face[263]), sqrt) > 0.0
    requires Distance(Flat(face[33]), Flat(face[133]), sqrt) > 0.0
    ensures DetectBlink(Some(face), sqrt) == BlinkReading(true, 0.0)
  {
    var left := EyePoints(face, LeftEyeIdx);
    var right := EyePoints(face, RightEyeIdx);
    ClosedEyeRatio(left, sqrt);
    ClosedEyeRatio(right, sqrt);
  }

  // ---------------------------------------------------------------- movement

  /** Distances between the points zipped pairwise (`zip` stops at the shorter list). */
  function Displacements(cur: seq<Point>, prev: seq<Point>, sqrt: real -> real): (r: seq<real>)
    requires IsSqrt(sqrt)
    ensures |r| == MinNat(|cur|, |prev|)
    ensures AllNonNeg(r)
  {
    var n := MinNat(|cur|, |prev|);
    seq(n, i requires 0 <= i < n => Distance(Flat(cur[i]), Flat(prev[i]), sqrt))
  }

  /** `calculate_movement`: 0 when either list is empty, else the mean
      displacement over the zipped pairs (every MediaPipe landmark has `x`). */
  function Movement(cur: seq<Point>, prev: seq<Point>, sqrt: real -> real): (r: real)
    requires IsSqrt(sqrt)
    ensures r >= 0.0
    ensures |cur| == 0 || |prev| == 0 ==> r == 0.0
  {
    if |cur| == 0 || |prev| == 0 then 0.0
    else
      var d := Displacements(cur, prev, sqrt);
      MeanNonNeg(d);
      Mean(d)
  }

  /** Landmarks that did not move give no movement. */
  lemma StillLandmarksDoNotMove(s: seq<Point>, sqrt: real -> real)
    requires IsSqrt(sqrt)
    ensures Movement(s, s, sqrt) == 0.0
  {
    if |s| > 0 {
      var d := Displacements(s, s, sqrt);
      forall i | 0 <= i < |d|
        ensures d[i] == 0.0
      {
        DistanceProperties(Flat(s[i]), Flat(s[i]), sqrt);
      }
      MeanBounds(d, 0.0, 0.0);
    }
  }

  /** Movement is symmetric in the two frames. */
  lemma MovementSymmetric(a: seq<Point>, b: seq<Point>, sqrt: real -> real)
    requires IsSqrt(sqrt)
    ensures Movement(a, b, sqrt) == Movement(b, a, sqrt)
  {
    if |a| > 0 && |b| > 0 {
      var d := Displacements(a, b, sqrt);
      var e := Displacements(b, a, sqrt);
      forall i | 0 <= i < |d|
        ensures d[i] == e[i]
      {
        DistanceProperties(Flat(a[i]), Flat(b[i]), sqrt);
      }
      assert d == e;
    }
  }

  /** Points beyond the shorter list are ignored: extra landmarks in the
      current frame (a second hand, say) do not change the movement. */
  lemma MovementIgnoresUnpaired(cur: seq<Point>, extra: seq<Point>, prev: seq<Point>, sqrt: real -> real)
    requires IsSqrt(sqrt)
    requires |cur| >= |prev|
    ensures Movement(cur + extra, prev, sqrt) == Movement(cur, prev, sqrt)
  {
    if |cur| > 0 && |prev| > 0 {
      assert Displacements(cur + extra, prev, sqrt) == Displacements(cur, prev, sqrt);
    }
  }

  // ---------------------------------------------------------------- window statistics

  /** `sum(blink_history) / len(blink_history) * 60`, or 0 for an empty window. */
  function BlinkRate(window: seq<bool>): (r: real)
    ensures 0.0 <= r <= 60.0
  {
    if |window| == 0 then 0.0
    else (CountTrue(window) as real) / (|window| as real) * 60.0
  }

  /** The rate is 0 exactly when no frame of the window is closed, and 60 exactly
      when every frame of a non-empty window is closed. */
  lemma BlinkRateExtremes(window: seq<bool>)
    ensures BlinkRate(window) == 0.0 <==> forall i :: 0 <= i < |window| ==> !window[i]
    ensures |window| > 0 ==> (BlinkRate(window) == 60.0 <==> forall i :: 0 <= i < |window| ==> window[i])
  {
    CountTrueExtremes(window);
    if |window| > 0 {
      var c := CountTrue(window) as real;
      var n := |window| as real;
      if c / n * 60.0 == 60.0 {
        assert c / n == 1.0;
        DivideBack(c, n, 1.0);
      }
    }
  }

  /** The factors present: the blink factor `clamp((rate - 12) / 20)` when the
      rate is positive, the hand factor `min(1, 10 * avg)` when the average
      movement is positive. */
  function NervousnessFactors(blinkRate: real, avgHand: real): (r: seq<real>)
    ensures AllIn(r, 0.0, 1.0)
    ensures |r| == (if blinkRate > 0.0 then 1 else 0) + (if avgHand > 0.0 then 1 else 0)
  {
    (if blinkRate > 0.0 then [Clamp(0.0, 1.0, (blinkRate - 12.0) / 20.0)] else [])
    + (if avgHand > 0.0 then [Min(1.0, avgHand * 10.0)] else [])
  }

  /** The mean of the present factors, or 0 when there is none. */
  function Nervousness(blinkRate: real, avgHand: real): (r: real)
    ensures 0.0 <= r <= 1.0
    ensures blinkRate <= 0.0 && avgHand <= 0.0 ==> r == 0.0
  {
    var f := NervousnessFactors(blinkRate, avgHand);
    if |f| == 0 then 0.0
    else
      MeanBounds(f, 0.0, 1.0);
      Mean(f)
  }

  /** With only one source present the score is that source's factor. */
  lemma NervousnessSingleFactor(blinkRate: real, avgHand: real)
    ensures blinkRate > 0.0 && avgHand <= 0.0 ==>
              Nervousness(blinkRate, avgHand) == Clamp(0.0, 1.0, (blinkRate - 12.0) / 20.0)
    ensures blinkRate <= 0.0 && avgHand > 0.0 ==>
              Nervousness(blinkRate, avgHand) == Min(1.0, avgHand * 10.0)
  {
    var f := NervousnessFactors(blinkRate, avgHand);
    if |f| == 1 {
      assert Sum(f) == Sum(f[..0]) + f[0];
    }
  }

  /** A blink rate of at most 12 contributes a factor of 0 that still counts
      in the mean: a small positive rate halves the hand factor, so the score
      is not monotone in the blink rate. */
  lemma LowBlinkRateHalvesHandFactor(blinkRate: real, avgHand: real)
    requires 0.0 < blinkRate <= 12.0 && avgHand > 0.0
    ensures Nervousness(blinkRate, avgHand) == Min(1.0, avgHand * 10.0) / 2.0
    ensures Nervousness(0.0, avgHand) == Min(1.0, avgHand * 10.0)
  {
    var f := NervousnessFactors(blinkRate, avgHand);
    assert f == [0.0, Min(1.0, avgHand * 10.0)];
    assert Sum(f) == Sum(f[..1]) + f[1];
    assert Sum(f[..1]) == Sum(f[..0]) + f[0];
    NervousnessSingleFactor(0.0, avgHand);
  }

  /** With both sources present the score is the mean of the two factors. */
  lemma NervousnessBothFactors(blinkRate: real, avgHand: real)
    requires blinkRate > 0.0 && avgHand > 0.0
    ensures Nervousness(blinkRate, avgHand)
              == (Clamp(0.0, 1.0, (blinkRate - 12.0) / 20.0) + Min(1.0, avgHand * 10.0)) / 2.0
  {
    var f := NervousnessFactors(blinkRate, avgHand);
    assert Sum(f) == Sum(f[..1]) + f[1];
    assert Sum(f[..1]) == Sum(f[..0]) + f[0];
  }

  // ---------------------------------------------------------------- tracker state

  /** What `previous_landmarks` remembers of the last frame. */
  datatype Previous = Previous(face: Option<seq<Point>>, pose: Option<seq<Point>>, hands: seq<Point>)

  /** `FeatureTracker`: the three windows and the previous frame (`None` before the first). */
  datatype Tracker = Tracker(blinks: seq<bool>, hand: seq<real>, head: seq<real>, previous: Option<Previous>)

  /** `FeatureTracker()` with the default window of 30. */
  function NewTracker(): (t: Tracker)
    ensures Coherent(t) && |t.blinks| == 0 && t.previous.None?
  {
    Tracker([], [], [], None)
  }

  /** The windows advance together, never exceed 30 entries, and hold non-negative movements. */
  predicate Coherent(t: Tracker)
  {
    |t.blinks| == |t.hand| == |t.head| <= WindowSize
    && AllNonNeg(t.hand) && AllNonNeg(t.head)
  }

  /** The dictionary `extract_metrics` returns, without the clock readings. */
  datatype Metrics = Metrics(
    nervousness: real, blinkDetected: bool, blinkRate: real, ear: real,
    handMovement: real, headMovement: real, handsDetected: nat, faceDetected: nat,
    avgHandMovement: real, avgHeadMovement: real, blinkCount: nat, frameCount: nat)

  datatype Update = Update(tracker: Tracker, metrics: Metrics)

  /** The list stored under `previous_landmarks['face']`; the intended reading of
      `.get('face', [])` for a frame that had no face. */
  function StoredFace(p: Previous): seq<Point>
  {
    if p.face.Some? then p.face.value else []
  }

  /** `s[:10]`. */
  function FirstTen(s: seq<Point>): (r: seq<Point>)
    ensures |r| == MinNat(|s|, 10) && r == s[..|r|]
  {
    s[..MinNat(|s|, 10)]
  }

  /** Hand movement against the previous frame's hands, when both exist. */
  function HandMovement(t: Tracker, hands: seq<Point>, sqrt: real -> real): (r: real)
    requires IsSqrt(sqrt)
    ensures r >= 0.0
    ensures |hands| == 0 || t.previous.None? ==> r == 0.0
  {
    if |hands| > 0 && t.previous.Some? then Movement(hands, t.previous.value.hands, sqrt) else 0.0
  }

  /** Head movement over the first ten mesh points, when a face and a previous frame exist. */
  function HeadMovement(t: Tracker, face: Option<seq<Point>>, sqrt: real -> real): (r: real)
    requires IsSqrt(sqrt)
    ensures r >= 0.0
    ensures !Present(face) || t.previous.None? ==> r == 0.0
  {
    if Present(face) && t.previous.Some? then
      Movement(FirstTen(face.value), FirstTen(StoredFace(t.previous.value)), sqrt)
    else 0.0
  }

  /** `extract_metrics` with the previous frame's missing face read as an empty list. */
  function ExtractMetrics(t: Tracker, face: Option<seq<Point>>, pose: Option<seq<Point>>,
                          hands: seq<Point>, sqrt: real -> real): (u: Update)
    requires IsSqrt(sqrt)
    requires Coherent(t)
    ensures Coherent(u.tracker)
    ensures u.tracker.previous == Some(Previous(face, pose, hands))
    ensures u.metrics.frameCount == |u.tracker.blinks| == MinNat(|t.blinks| + 1, WindowSize)
    ensures u.tracker.blinks == Push(t.blinks, u.metrics.blinkDetected, WindowSize)
    ensures u.tracker.hand == Push(t.hand, u.metrics.handMovement, WindowSize)
    ensures u.tracker.head == Push(t.head, u.metrics.headMovement, WindowSize)
    ensures u.metrics.blinkCount <= u.metrics.frameCount
    ensures 0.0 <= u.metrics.nervousness <= 1.0
    ensures 0.0 <= u.metrics.blinkRate <= 60.0
    ensures u.metrics.handMovement >= 0.0 && u.metrics.headMovement >= 0.0
    ensures u.metrics.blinkDetected == DetectBlink(face, sqrt).blink
    ensures u.metrics.handsDetected == |hands|
    ensures u.metrics.faceDetected == (if Present(face) then 1 else 0)
    ensures u.metrics.blinkRate == BlinkRate(u.tracker.blinks)
    ensures u.metrics.blinkCount == CountTrue(u.tracker.blinks)
    ensures u.metrics.avgHandMovement == MeanOrZero(u.tracker.hand)
    ensures u.metrics.avgHeadMovement == MeanOrZero(u.tracker.head)
    ensures u.metrics.nervousness == Nervousness(u.metrics.blinkRate, u.metrics.avgHandMovement)
  {
    var reading := DetectBlink(face, sqrt);
    var hand := HandMovement(t, hands, sqrt);
    var head := HeadMovement(t, face, sqrt);
    var blinks := Push(t.blinks, reading.blink, WindowSize);
    var handH := Push(t.hand, hand, WindowSize);
    var headH := Push(t.head, head, WindowSize);
    PushKeepsNonNeg(t.hand, hand, WindowSize);
    PushKeepsNonNeg(t.head, head, WindowSize);
    var rate := BlinkRate(blinks);
    var avgHand := MeanOrZero(handH);
    var avgHead := MeanOrZero(headH);
    var m := Metrics(Nervousness(rate, avgHand), reading.blink, rate, reading.ear, hand, head,
                     |hands|, if Present(face) then 1 else 0, avgHand, avgHead,
                     CountTrue(blinks), |blinks|);
    Update(Tracker(blinks, handH, headH, Some(Previous(face, pose, hands))), m)
  }

  /** `extract_metrics` as written: after a frame with no face the stored face is
      `None`, and `None[:10]` raises an uncaught `TypeError` on the next frame
      that has one. */
  function ExtractMetricsAsWritten(t: Tracker, face: Option<seq<Point>>, pose: Option<seq<Point>>,
                                   hands: seq<Point>, sqrt: real -> real): (r: Result<Update>)
    requires IsSqrt(sqrt)
    requires Coherent(t)
    ensures r.Err? <==> Present(face) && t.previous.Some? && t.previous.value.face.None?
    ensures r.Ok? ==> r.value == ExtractMetrics(t, face, pose, hands, sqrt)
  {
    if Present(face) && t.previous.Some? && t.previous.value.face.None? then
      Err("'NoneType' object is not subscriptable")
    else Ok(ExtractMetrics(t, face, pose, hands, sqrt))
  }

  /** A face that comes back after one frame without a face crashes the
      written tracker, while the corrected one reports no head movement. */
  lemma FaceReturnCrashes(face: seq<Point>, pose: Option<seq<Point>>, hands: seq<Point>, sqrt: real -> real)
    requires IsSqrt(sqrt)
    requires |face| > 0
    ensures ExtractMetricsAsWritten(NewTracker(), None, pose, hands, sqrt).Ok?
    ensures ExtractMetricsAsWritten(ExtractMetrics(NewTracker(), None, pose, hands, sqrt).tracker,
                                    Some(face), pose, hands, sqrt).Err?
    ensures ExtractMetrics(ExtractMetrics(NewTracker(), None, pose, hands, sqrt).tracker,
                           Some(face), pose, hands, sqrt).metrics.headMovement == 0.0
  {
    var first := ExtractMetrics(NewTracker(), None, pose, hands, sqrt).tracker;
    assert first.previous == Some(Previous(None, pose, hands));
    assert StoredFace(first.previous.value) == [];
    assert HeadMovement(first, Some(face), sqrt) == 0.0;
  }

  /** The first frame of a fresh tracker has no movement. */
  lemma FirstFrameHasNoMovement(face: Option<seq<Point>>, pose: Option<seq<Point>>, hands: seq<Point>, sqrt: real -> real)
    requires IsSqrt(sqrt)
    ensures ExtractMetrics(NewTracker(), face, pose, hands, sqrt).metrics.handMovement == 0.0
    ensures ExtractMetrics(NewTracker(), face, pose, hands, sqrt).metrics.headMovement == 0.0
  {
  }

  /** The landmarks MediaPipe reports for one frame. */
  datatype FrameInput = FrameInput(face: Option<seq<Point>>, pose: Option<seq<Point>>, hands: seq<Point>)

  /** The tracker after a sequence of frames. */
  function Run(t: Tracker, frames: seq<FrameInput>, sqrt: real -> real): (r: Tracker)
    requires IsSqrt(sqrt)
    requires Coherent(t)
    ensures Coherent(r)
  {
    if |frames| == 0 then t
    else
      var f := frames[|frames| - 1];
      ExtractMetrics(Run(t, frames[..|frames| - 1], sqrt), f.face, f.pose, f.hands, sqrt).tracker
  }

  /** Pushing a blink onto a window of blinks keeps it all blinks. */
  lemma PushAllTrue(h: seq<bool>, cap: nat)
    requires cap > 0
    requires forall i :: 0 <= i < |h| ==> h[i]
    ensures forall i :: 0 <= i < |Push(h, true, cap)| ==> Push(h, true, cap)[i]
  {
    var full := h + [true];
    assert forall i :: 0 <= i < |full| ==> full[i];
  }

  /** One more closed-eye frame on a window of k closed-eye frames. */
  lemma HeldBlinkStep(window: seq<bool>, blink: bool, k: nat)
    requires blink && |window| == MinNat(k, WindowSize)
    requires forall i :: 0 <= i < |window| ==> window[i]
    ensures |Push(window, blink, WindowSize)| == MinNat(k + 1, WindowSize)
    ensures forall i :: 0 <= i < |Push(window, blink, WindowSize)| ==> Push(window, blink, WindowSize)[i]
  {
    PushAllTrue(window, WindowSize);
  }

  /** No debounce: from a fresh tracker, every frame whose eyes read closed is
      recorded as a blink, so a closed eye held for k frames fills min(k, 30)
      window slots, all of them blinks. */
  lemma {:induction false} HeldBlinkCountsEveryFrame(frames: seq<FrameInput>, sqrt: real -> real)
    requires IsSqrt(sqrt)
    requires forall i :: 0 <= i < |frames| ==> DetectBlink(frames[i].face, sqrt).blink
    ensures |Run(NewTracker(), frames, sqrt).blinks| == MinNat(|frames|, WindowSize)
    ensures forall i :: 0 <= i < |Run(NewTracker(), frames, sqrt).blinks| ==> Run(NewTracker(), frames, sqrt).blinks[i]
    decreases |frames|
  {
    if |frames| > 0 {
      var n := |frames| - 1;
      var init := frames[..n];
      assert forall i :: 0 <= i < n ==> init[i] == frames[i];
      HeldBlinkCountsEveryFrame(init, sqrt);
      RunStepBlinks(NewTracker(), frames, sqrt);
      HeldBlinkStep(Run(NewTracker(), init, sqrt).blinks, DetectBlink(frames[n].face, sqrt).blink, n);
    }
  }

  /** The blink window after one more frame is the window before with that frame's reading pushed. */
  lemma RunStepBlinks(t: Tracker, frames: seq<FrameInput>, sqrt: real -> real)
    requires IsSqrt(sqrt) && Coherent(t) && |frames| > 0
    ensures Run(t, frames, sqrt).blinks
         == Push(Run(t, frames[..|frames| - 1], sqrt).blinks, DetectBlink(frames[|frames| - 1].face, sqrt).blink, WindowSize)
  {
    var f := frames[|frames| - 1];
    var u := ExtractMetrics(Run(t, frames[..|frames| - 1], sqrt), f.face, f.pose, f.hands, sqrt);
    assert Run(t, frames, sqrt).blinks == u.tracker.blinks;
  }

  /** Once the window has filled with closed-eye frames the reported rate is 60. */
  lemma HeldBlinkSaturatesRate(frames: seq<FrameInput>, sqrt: real -> real)
    requires IsSqrt(sqrt)
    requires |frames| > 0
    requires forall i :: 0 <= i < |frames| ==> DetectBlink(frames[i].face, sqrt).blink
    ensures BlinkRate(Run(NewTracker(), frames, sqrt).blinks) == 60.0
  {
    HeldBlinkCountsEveryFrame(frames, sqrt);
    BlinkRateExtremes(Run(NewTracker(), frames, sqrt).blinks);
  }

  // ---------------------------------------------------------------- audio buffer

  /** `AudioProcessor(sample_rate, chunk_size)`. */
  datatype AudioConfig = AudioConfig(sampleRate: nat, chunkSize: nat)

  const DefaultAudio: AudioConfig := AudioConfig(16000, 1024)

  /** `(sample_rate * 5) // chunk_size`: the chunks in five seconds of audio. */
  function MaxChunks(c: AudioConfig): (k: nat)
    requires c.chunkSize > 0
    ensures k * c.chunkSize <= c.sampleRate * 5 < (k + 1) * c.chunkSize
  {
    (c.sampleRate * 5) / c.chunkSize
  }

  lemma DefaultKeeps78Chunks()
    ensures MaxChunks(DefaultAudio) == 78
  {
  }

  /** `if len(buf) > k: buf = buf[-k:]`, where Python reads `buf[-0:]` as the whole list. */
  function KeepRecent<T>(buf: seq<T>, k: nat): (r: seq<T>)
    ensures k > 0 ==> r == TakeLast(buf, k)
    ensures k == 0 ==> r == buf
  {
    if |buf| > k then (if k == 0 then buf else buf[|buf| - k..]) else buf
  }

  /** `np.sign`. */
  function Sign(x: real): int
  {
    if x > 0.0 then 1 else if x < 0.0 then -1 else 0
  }

  /** `np.sum(np.diff(np.sign(a)) != 0)`: adjacent samples of different sign. */
  function ZeroCrossings(a: seq<real>): (r: nat)
    ensures |a| > 0 ==> r < |a|
    ensures |a| == 0 ==> r == 0
  {
    if |a| < 2 then 0
    else (if Sign(a[0]) != Sign(a[1]) then 1 else 0) + ZeroCrossings(a[1..])
  }

  /** `np.sum(a**2)`. */
  function Energy(a: seq<real>): (r: real)
    ensures r >= 0.0
  {
    if |a| == 0 then 0.0 else a[0] * a[0] + Energy(a[1..])
  }

  datatype AudioFeatures = AudioFeatures(volume: real, zeroCrossings: nat, energy: real)

  datatype AudioStep = AudioStep(buffer: seq<seq<real>>, features: Option<AudioFeatures>)

  /** `process_audio_chunk`: append the chunk, keep the last five seconds, and
      report RMS volume, zero crossings and energy for a non-empty chunk. */
  function ProcessAudioChunk(c: AudioConfig, buf: seq<seq<real>>, chunk: seq<real>, sqrt: real -> real): (r: AudioStep)
    requires IsSqrt(sqrt)
    requires c.chunkSize > 0
    ensures r.buffer == KeepRecent(buf + [chunk], MaxChunks(c))
    ensures r.features.None? <==> |chunk| == 0
    ensures r.features.Some? ==>
              r.features.value.volume >= 0.0
              && r.features.value.volume * r.features.value.volume * (|chunk| as real) == r.features.value.energy
              && r.features.value.zeroCrossings < |chunk|
  {
    var buffer := KeepRecent(buf + [chunk], MaxChunks(c));
    if |chunk| == 0 then AudioStep(buffer, None)
    else
      var e := Energy(chunk);
      var n := |chunk| as real;
      var v := sqrt(e / n);
      assert v * v == e / n;
      AudioStep(buffer, Some(AudioFeatures(v, ZeroCrossings(chunk), e)))
  }

  /** With a cap of at least one chunk the buffer stays within the cap and ends
      with the newest chunk; a cap of 0 (a chunk longer than five seconds)
      never trims at all. */
  lemma AudioBufferBounded(c: AudioConfig, buf: seq<seq<real>>, chunk: seq<real>, sqrt: real -> real)
    requires IsSqrt(sqrt)
    requires c.chunkSize > 0
    requires MaxChunks(c) > 0 ==> |buf| <= MaxChunks(c)
    ensures MaxChunks(c) > 0 ==>
              |ProcessAudioChunk(c, buf, chunk, sqrt).buffer| <= MaxChunks(c)
              && ProcessAudioChunk(c, buf, chunk, sqrt).buffer[|ProcessAudioChunk(c, buf, chunk, sqrt).buffer| - 1] == chunk
    ensures MaxChunks(c) == 0 ==> ProcessAudioChunk(c, buf, chunk, sqrt).buffer == buf + [chunk]
  {
  }

  /** `-a`. */
  function Negate(a: seq<real>): (r: seq<real>)
    ensures |r| == |a|
  {
    seq(|a|, i requires 0 <= i < |a| => -a[i])
  }

  /** Flipping the polarity of a signal keeps its zero crossings. */
  lemma {:induction false} ZeroCrossingsPolarity(a: seq<real>)
    ensures ZeroCrossings(Negate(a)) == ZeroCrossings(a)
    decreases |a|
  {
    if |a| >= 2 {
      assert Negate(a)[1..] == Negate(a[1..]);
      ZeroCrossingsPolarity(a[1..]);
    }
  }

  /** A signal that keeps one strict sign has no zero crossing. */
  lemma {:induction false} OneSignedHasNoCrossing(a: seq<real>)
    requires (forall i :: 0 <= i < |a| ==> a[i] > 0.0) || (forall i :: 0 <= i < |a| ==> a[i] < 0.0)
    ensures ZeroCrossings(a) == 0
    decreases |a|
  {
    if |a| >= 2 {
      OneSignedHasNoCrossing(a[1..]);
    }
  }

  /** A strictly alternating signal crosses between every pair of samples. */
  lemma {:induction false} AlternatingCrossesEverywhere(a: seq<real>)
    requires |a| > 0
    requires forall i :: 0 <= i < |a| ==> a[i] != 0.0
    requires forall i :: 0 <= i < |a| - 1 ==> (a[i] > 0.0 <==> a[i + 1] < 0.0)
    ensures ZeroCrossings(a) == |a| - 1
    decreases |a|
  {
    if |a| >= 2 {
      AlternatingCrossesEverywhere(a[1..]);
    }
  }

  // ---------------------------------------------------------------- session recommendations

  const HighNervousness := "Alto nível de nervosismo detectado. Pratique técnicas de respiração."
  const ModerateNervousness := "Nervosismo moderado. Tente relaxar os ombros e respirar profundamente."
  const HighBlinkRate := "Taxa de piscadas elevada. Mantenha contato visual com a audiência."
  const LowBlinkRate := "Poucas piscadas detectadas. Lembre-se de piscar naturalmente."
  const HighHandMovement := "Movimento excessivo das mãos. Use gestos mais controlados."
  const LowHandMovement := "Pouco movimento das mãos. Use gestos para enfatizar pontos importantes."
  const GoodPerformance := "Boa performance geral! Continue praticando para melhorar ainda mais."

  const RuleMessages: seq<string> := [HighNervousness, ModerateNervousness, HighBlinkRate,
                                      LowBlinkRate, HighHandMovement, LowHandMovement]

  /** Which rule messages fire: three `if`/`elif` pairs. */
  function RuleFlags(nervousness: real, blinkRate: real, handMovement: real): (f: seq<bool>)
    ensures |f| == 6
  {
    [nervousness > 0.7, !(nervousness > 0.7) && nervousness > 0.5,
     blinkRate > 25.0, !(blinkRate > 25.0) && blinkRate < 8.0,
     handMovement > 0.1, !(handMovement > 0.1) && handMovement < 0.01]
  }

  /** The count of six flags, spelled out. */
  lemma CountSix(f: seq<bool>)
    requires |f| == 6
    ensures CountTrue(f) == (if f[0] then 1 else 0) + (if f[1] then 1 else 0) + (if f[2] then 1 else 0)
                            + (if f[3] then 1 else 0) + (if f[4] then 1 else 0) + (if f[5] then 1 else 0)
  {
    assert CountTrue(f[5..]) == (if f[5] then 1 else 0) by { assert f[5..][1..] == []; }
    assert CountTrue(f[4..]) == (if f[4] then 1 else 0) + CountTrue(f[5..]) by { assert f[4..][1..] == f[5..]; }
    assert CountTrue(f[3..]) == (if f[3] then 1 else 0) + CountTrue(f[4..]) by { assert f[3..][1..] == f[4..]; }
    assert CountTrue(f[2..]) == (if f[2] then 1 else 0) + CountTrue(f[3..]) by { assert f[2..][1..] == f[3..]; }
    assert CountTrue(f[1..]) == (if f[1] then 1 else 0) + CountTrue(f[2..]) by { assert f[1..][1..] == f[2..]; }
  }

  /** `_generate_recommendations`: the fired rule messages in order, or the
      general praise when none fires. */
  function Recommendations(nervousness: real, blinkRate: real, handMovement: real): (r: seq<string>)
    ensures 1 <= |r| <= 3
    ensures r == [GoodPerformance] <==>
              0.5 >= nervousness && 8.0 <= blinkRate <= 25.0 && 0.01 <= handMovement <= 0.1
  {
    var flags := RuleFlags(nervousness, blinkRate, handMovement);
    var picked := Pick(flags, RuleMessages);
    CountSix(flags);
    assert GoodPerformance !in RuleMessages;
    if |picked| == 0 then [GoodPerformance] else picked
  }

  /** Each rule message appears exactly when its condition holds. */
  lemma RecommendationsFollowRules(nervousness: real, blinkRate: real, handMovement: real)
    ensures HighNervousness in Recommendations(nervousness, blinkRate, handMovement) <==> nervousness > 0.7
    ensures ModerateNervousness in Recommendations(nervousness, blinkRate, handMovement) <==> 0.5 < nervousness <= 0.7
    ensures HighBlinkRate in Recommendations(nervousness, blinkRate, handMovement) <==> blinkRate > 25.0
    ensures LowBlinkRate in Recommendations(nervousness, blinkRate, handMovement) <==> blinkRate < 8.0
    ensures HighHandMovement in Recommendations(nervousness, blinkRate, handMovement) <==> handMovement > 0.1
    ensures LowHandMovement in Recommendations(nervousness, blinkRate, handMovement) <==> handMovement < 0.01
  {
    var flags := RuleFlags(nervousness, blinkRate, handMovement);
    var items := RuleMessages;
    assert forall i, j :: 0 <= i < j < |items| ==> items[i] != items[j];
    PickMember(flags, items, 0);
    PickMember(flags, items, 1);
    PickMember(flags, items, 2);
    PickMember(flags, items, 3);
    PickMember(flags, items, 4);
    PickMember(flags, items, 5);
  }

  /** `analyze_session_data`'s result, without the clock-based duration. */
  datatype SessionAnalysis = SessionAnalysis(
    totalFrames: nat, avgNervousness: real, maxNervousness: real, avgBlinkRate: real,
    avgHandMovement: real, transcriptLength: nat, recommendations: seq<string>)

  /** The largest element. */
  function SeqMax(s: seq<real>): (r: real)
    requires |s| > 0
    ensures forall i :: 0 <= i < |s| ==> s[i] <= r
    ensures exists i :: 0 <= i < |s| && s[i] == r
  {
    if |s| == 1 then s[0]
    else
      var m := SeqMax(s[..|s| - 1]);
      assert forall i :: 0 <= i < |s| - 1 ==> s[..|s| - 1][i] == s[i];
      Max(m, s[|s| - 1])
  }

  /** The smallest element. */
  function SeqMin(s: seq<real>): (r: real)
    requires |s| > 0
    ensures forall i :: 0 <= i < |s| ==> r <= s[i]
    ensures exists i :: 0 <= i < |s| && s[i] == r
  {
    if |s| == 1 then s[0]
    else
      var m := SeqMin(s[..|s| - 1]);
      assert forall i :: 0 <= i < |s| - 1 ==> s[..|s| - 1][i] == s[i];
      Min(m, s[|s| - 1])
  }

  function Column(history: seq<Metrics>, get: Metrics -> real): (r: seq<real>)
    ensures |r| == |history|
    ensures forall i :: 0 <= i < |history| ==> r[i] == get(history[i])
  {
    seq(|history|, i requires 0 <= i < |history| => get(history[i]))
  }

  /** `analyze_session_data`: an error for an empty history, otherwise the
      column means, the peak nervousness and the recommendations on the means. */
  function AnalyzeSession(history: seq<Metrics>, transcript: Option<string>): (r: Result<SessionAnalysis>)
    ensures r.Err? <==> |history| == 0
    ensures r.Ok? ==> r.value.totalFrames == |history|
                      && r.value.avgNervousness <= r.value.maxNervousness
                      && r.value.recommendations == Recommendations(r.value.avgNervousness,
                                                                    r.value.avgBlinkRate, r.value.avgHandMovement)
    ensures r.Ok? ==> r.value.avgNervousness == Mean(Column(history, (m: Metrics) => m.nervousness))
                      && r.value.avgBlinkRate == Mean(Column(history, (m: Metrics) => m.blinkRate))
                      && r.value.avgHandMovement == Mean(Column(history, (m: Metrics) => m.avgHandMovement))
    ensures r.Ok? ==> (forall i :: 0 <= i < |history| ==> history[i].nervousness <= r.value.maxNervousness)
                      && (exists i :: 0 <= i < |history| && history[i].nervousness == r.value.maxNervousness)
    ensures r.Ok? ==> r.value.transcriptLength == if transcript.Some? then |transcript.value| else 0
  {
    if |history| == 0 then Err("No metrics data available")
    else
      var nerv := Column(history, (m: Metrics) => m.nervousness);
      var blink := Mean(Column(history, (m: Metrics) => m.blinkRate));
      var hand := Mean(Column(history, (m: Metrics) => m.avgHandMovement));
      var peak := SeqMax(nerv);
      MeanBounds(nerv, SeqMin(nerv), peak);
      Ok(SessionAnalysis(|history|, Mean(nerv), peak, blink, hand,
                         if transcript.Some? then |transcript.value| else 0,
                         Recommendations(Mean(nerv), blink, hand)))
  }
}
