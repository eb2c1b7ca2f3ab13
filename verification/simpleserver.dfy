/** The OpenCV-only frame processor of src/back-end/simple_websocket_server.py:
    Haar-cascade face boxes become a nervousness guess from the face/frame
    area ratio, a head-movement figure from the largest face's centre, a
    blink guess from faces without detected eyes, and a capped history that
    session statistics read back.  The detectors are foreign: a frame is
    modelled by what they return. */
module SimpleVideoServer {
  import opened Basics
  import opened Landmarks

  /** `deque(maxlen=1000)`. */
  const HistoryCap: nat := 1000
  /** `[-30:]` in `get_session_stats`. */
  const RecentWindow: nat := 30

  /** A face box `(x, y, w, h)` in pixels. */
  datatype Face = Face(x: int, y: int, w: nat, h: nat)

  /** A detected face and whether the eye detector found any eye inside it. */
  datatype Detection = Detection(face: Face, eyesFound: bool)

  /** What decoding and face detection make of one incoming frame. */
  datatype Frame = Undecodable | Decoded(size: FrameSize, detections: seq<Detection>)

  /** A decoded image has at least one pixel. */
  predicate ValidFrame(frame: Frame)
  {
    frame.Decoded? ==> frame.size.height > 0 && frame.size.width > 0
  }

  /** The features dictionary stored per processed frame. */
  datatype Features = Features(
    timestamp: real, nervousness: real, blink: bool, blinkRate: real,
    headMovement: real, faceCount: nat, frameNumber: nat,
    sessionDuration: real, faceArea: nat)

  datatype Processor = Processor(
    history: seq<Features>, frameCount: nat, startTime: real, previousCentre: Option<Pt2>)

  function Area(f: Face): nat
  {
    f.w * f.h
  }

  /** `sum(w * h for ...)` over the detections. */
  function TotalArea(ds: seq<Detection>): (r: nat)
    ensures |ds| > 0 ==> r >= Area(ds[|ds| - 1].face)
  {
    if |ds| == 0 then 0 else TotalArea(ds[..|ds| - 1]) + Area(ds[|ds| - 1].face)
  }

  /** `total_area / frame_area`. */
  function FaceRatio(ds: seq<Detection>, size: FrameSize): (r: real)
    requires size.height > 0 && size.width > 0
    ensures r >= 0.0
  {
    TotalArea(ds) as real / (size.height * size.width) as real
  }

  /** `_calculate_simple_nervousness`: 0.5 without faces; with faces, 0.2
      when the faces cover between 5% and 30% of the frame, and above 0.5
      (up to 0.8) when they cover less or more. */
  function Nervousness(ds: seq<Detection>, size: FrameSize): (r: real)
    requires size.height > 0 && size.width > 0
    ensures 0.2 <= r <= 0.8
    ensures |ds| == 0 ==> r == 0.5
    ensures |ds| > 0 ==> (r == 0.2 <==> 0.05 <= FaceRatio(ds, size) <= 0.3)
    ensures |ds| > 0 && (FaceRatio(ds, size) < 0.05 || FaceRatio(ds, size) > 0.3) ==> r > 0.5
  {
    if |ds| == 0 then 0.5
    else
      var ratio := FaceRatio(ds, size);
      if ratio < 0.05 then Min(0.8, 0.5 + (0.05 - ratio) * 10.0)
      else if ratio > 0.3 then Min(0.8, 0.5 + (ratio - 0.3) * 2.0)
      else 0.2
  }

  /** Faces farther from the normal band never look less nervous: below the
      band a smaller ratio scores at least as high, above it a larger one. */
  lemma NervousnessGrowsAwayFromBand(a: seq<Detection>, b: seq<Detection>, size: FrameSize)
    requires size.height > 0 && size.width > 0
    requires |a| > 0 && |b| > 0
    ensures FaceRatio(a, size) <= FaceRatio(b, size) < 0.05 ==> Nervousness(a, size) >= Nervousness(b, size)
    ensures 0.3 < FaceRatio(a, size) <= FaceRatio(b, size) ==> Nervousness(a, size) <= Nervousness(b, size)
  {
  }

  /** Index of the face `max(faces, key=w * h)` returns: the first of the largest. */
  function LargestIndex(ds: seq<Detection>): (i: nat)
    requires |ds| > 0
    ensures i < |ds|
    ensures forall k | 0 <= k < |ds| :: Area(ds[k].face) <= Area(ds[i].face)
    ensures forall k | 0 <= k < i :: Area(ds[k].face) < Area(ds[i].face)
  {
    if |ds| == 1 then 0
    else
      var j := LargestIndex(ds[..|ds| - 1]);
      assert forall k | 0 <= k < |ds| - 1 :: ds[..|ds| - 1][k] == ds[k];
      if Area(ds[|ds| - 1].face) > Area(ds[j].face) then |ds| - 1 else j
  }

  /** `np.array([x + w/2, y + h/2])`. */
  function Centre(f: Face): Pt2
  {
    Pt2(f.x as real + f.w as real / 2.0, f.y as real + f.h as real / 2.0)
  }

  /** `_calculate_head_movement`: the movement figure and the remembered
      centre afterwards.  Without faces nothing moves and the centre is kept;
      otherwise the centre of the largest face is remembered, the first face
      seen scores 0, and later ones score the centre's travel in units of 100
      pixels, capped at 1. */
  function HeadMovement(ds: seq<Detection>, previous: Option<Pt2>, sqrt: real -> real): (r: (real, Option<Pt2>))
    requires IsSqrt(sqrt)
    ensures 0.0 <= r.0 <= 1.0
    ensures |ds| == 0 ==> r == (0.0, previous)
    ensures |ds| > 0 ==> r.1 == Some(Centre(ds[LargestIndex(ds)].face))
    ensures |ds| > 0 && previous.None? ==> r.0 == 0.0
    ensures |ds| > 0 && previous.Some? ==>
              var travel := Distance(Centre(ds[LargestIndex(ds)].face), previous.value, sqrt);
              (r.0 < 1.0 ==> r.0 * 100.0 == travel) && (r.0 == 1.0 <==> travel >= 100.0)
  {
    if |ds| == 0 then (0.0, previous)
    else
      var centre := Centre(ds[LargestIndex(ds)].face);
      var movement := if previous.Some? then Distance(centre, previous.value, sqrt) / 100.0 else 0.0;
      (Min(movement, 1.0), Some(centre))
  }

  /** A head that stays put scores no movement, whatever the other faces do. */
  lemma StillHeadDoesNotMove(ds: seq<Detection>, sqrt: real -> real)
    requires IsSqrt(sqrt) && |ds| > 0
    ensures HeadMovement(ds, Some(Centre(ds[LargestIndex(ds)].face)), sqrt).0 == 0.0
  {
    var c := Centre(ds[LargestIndex(ds)].face);
    DistanceProperties(c, c, sqrt);
  }

  /** `_detect_simple_blinks`: some detected face shows no eyes. */
  function BlinkDetected(ds: seq<Detection>): (r: bool)
    ensures r <==> exists k | 0 <= k < |ds| :: !ds[k].eyesFound
  {
    if |ds| == 0 then false
    else if !ds[0].eyesFound then true
    else
      var rest := BlinkDetected(ds[1..]);
      assert forall k | 1 <= k < |ds| :: ds[1..][k - 1] == ds[k];
      rest
  }

  /** The features of one decoded frame, numbered with the current frame count. */
  function FrameFeatures(p: Processor, size: FrameSize, ds: seq<Detection>, movement: real, now: real): (f: Features)
    requires size.height > 0 && size.width > 0
  {
    var blink := BlinkDetected(ds);
    Features(now, Nervousness(ds, size), blink, if blink then 0.15 else 0.1,
             movement, |ds|, p.frameCount, now - p.startTime, TotalArea(ds))
  }

  /** The message of the `ValueError` NumPy raises when a face array is used as a condition. */
  const AmbiguousTruth: string := "The truth value of an array with more than one element is ambiguous. Use a.any() or a.all()"

  /** `process_frame` as written.  Detection returns an empty tuple when it
      finds nothing and a NumPy array otherwise, and the `face_area` entry
      tests that value with `if faces`: with any face that raises, after the
      head-movement step has already replaced the remembered centre and
      before anything is stored. */
  function ProcessFrameAsWritten(p: Processor, frame: Frame, now: real, sqrt: real -> real): (r: (Processor, Result<Features>))
    requires ValidFrame(frame) && IsSqrt(sqrt)
    ensures frame.Undecodable? ==> r == (p, Err("Failed to decode frame"))
    ensures frame.Decoded? && |frame.detections| > 0 ==>
              r.1 == Err(AmbiguousTruth) && r.0.history == p.history && r.0.frameCount == p.frameCount
              && r.0.previousCentre == Some(Centre(frame.detections[LargestIndex(frame.detections)].face))
    ensures frame.Decoded? && |frame.detections| == 0 ==>
              r.1.Ok? && r.1.value.faceCount == 0 && r.1.value.nervousness == 0.5
              && r.0.history == Push(p.history, r.1.value, HistoryCap) && r.0.frameCount == p.frameCount + 1
  {
    if frame.Undecodable? then (p, Err("Failed to decode frame"))
    else
      var ds := frame.detections;
      var head := HeadMovement(ds, p.previousCentre, sqrt);
      var moved := p.(previousCentre := head.1);
      if |ds| > 0 then (moved, Err(AmbiguousTruth))
      else
        var f := FrameFeatures(p, frame.size, ds, head.0, now);
        (moved.(history := Push(p.history, f, HistoryCap), frameCount := p.frameCount + 1), Ok(f))
  }

  /** Every frame showing a face is dropped: a history of faceless frames
      stays one, so the statistics never see a detected face. */
  lemma FaceFramesAreNeverRecorded(p: Processor, frame: Frame, now: real, sqrt: real -> real)
    requires ValidFrame(frame) && IsSqrt(sqrt)
    requires forall k | 0 <= k < |p.history| :: p.history[k].faceCount == 0
    ensures var h := ProcessFrameAsWritten(p, frame, now, sqrt).0.history;
            forall k | 0 <= k < |h| :: h[k].faceCount == 0
  {
    var r := ProcessFrameAsWritten(p, frame, now, sqrt);
    if frame.Decoded? && |frame.detections| == 0 {
      FacelessPush(p.history, r.1.value);
    }
  }

  /** Pushing a faceless frame onto a faceless history keeps it faceless. */
  lemma FacelessPush(h: seq<Features>, f: Features)
    requires forall k | 0 <= k < |h| :: h[k].faceCount == 0
    requires f.faceCount == 0
    ensures var h' := Push(h, f, HistoryCap);
            forall k | 0 <= k < |h'| :: h'[k].faceCount == 0
  {
    var h' := Push(h, f, HistoryCap);
    var all := h + [f];
    assert h' == all[|all| - |h'|..];
    forall k | 0 <= k < |h'| ensures h'[k].faceCount == 0 {
      var j := |all| - |h'| + k;
      assert h'[k] == all[j];
      if j < |h| {
        assert all[j] == h[j];
      } else {
        assert all[j] == f;
      }
    }
  }

  /** A concrete frame with one face: it is answered with the error and
      leaves the history empty. */
  lemma OneFaceFrameIsLost(sqrt: real -> real)
    requires IsSqrt(sqrt)
    ensures var r := ProcessFrameAsWritten(Processor([], 0, 0.0, None),
                       Decoded(FrameSize(480, 640), [Detection(Face(200, 120, 160, 160), true)]), 1.0, sqrt);
            r.1.Err? && r.0.history == [] && r.0.frameCount == 0
  {
  }

  /** `process_frame` with the face test written as `len(faces) > 0`: every
      decoded frame is stored, numbered, and counted. */
  function ProcessFrame(p: Processor, frame: Frame, now: real, sqrt: real -> real): (r: (Processor, Result<Features>))
    requires ValidFrame(frame) && IsSqrt(sqrt)
    ensures frame.Undecodable? ==> r == (p, Err("Failed to decode frame"))
    ensures frame.Decoded? ==>
              && r.1.Ok?
              && r.0.history == Push(p.history, r.1.value, HistoryCap)
              && r.0.frameCount == p.frameCount + 1
              && r.0.startTime == p.startTime
              && r.1.value.frameNumber == p.frameCount
              && r.1.value.faceCount == |frame.detections|
              && r.1.value.faceArea == TotalArea(frame.detections)
              && 0.2 <= r.1.value.nervousness <= 0.8
              && 0.0 <= r.1.value.headMovement <= 1.0
              && (r.1.value.blink <==> exists k | 0 <= k < |frame.detections| :: !frame.detections[k].eyesFound)
              && r.1.value.blinkRate == (if r.1.value.blink then 0.15 else 0.1)
              && r.0.previousCentre == HeadMovement(frame.detections, p.previousCentre, sqrt).1
  {
    if frame.Undecodable? then (p, Err("Failed to decode frame"))
    else
      var ds := frame.detections;
      var head := HeadMovement(ds, p.previousCentre, sqrt);
      var f := FrameFeatures(p, frame.size, ds, head.0, now);
      (Processor(Push(p.history, f, HistoryCap), p.frameCount + 1, p.startTime, head.1), Ok(f))
  }

  /** The history holds the most recent frames, at most `HistoryCap` of
      them, numbered consecutively up to the last counted frame. */
  predicate Consistent(p: Processor)
  {
    && |p.history| <= HistoryCap
    && |p.history| <= p.frameCount
    && forall k | 0 <= k < |p.history| :: p.history[k].frameNumber == p.frameCount - |p.history| + k
  }

  /** Processing a frame keeps the history consistent. */
  lemma ProcessFrameKeepsConsistent(p: Processor, frame: Frame, now: real, sqrt: real -> real)
    requires Consistent(p) && ValidFrame(frame) && IsSqrt(sqrt)
    ensures Consistent(ProcessFrame(p, frame, now, sqrt).0)
  {
    if frame.Decoded? {
      var r := ProcessFrame(p, frame, now, sqrt);
      NumberedPush(p.history, r.1.value, p.frameCount);
    }
  }

  /** Pushing the frame numbered `count` onto a history numbered up to
      `count - 1` gives a history numbered up to `count`. */
  lemma NumberedPush(h: seq<Features>, f: Features, count: nat)
    requires |h| <= HistoryCap && |h| <= count
    requires forall k | 0 <= k < |h| :: h[k].frameNumber == count - |h| + k
    requires f.frameNumber == count
    ensures var h' := Push(h, f, HistoryCap);
            |h'| <= count + 1 && forall k | 0 <= k < |h'| :: h'[k].frameNumber == count + 1 - |h'| + k
  {
    var h' := Push(h, f, HistoryCap);
    var all := h + [f];
    assert h' == all[|all| - |h'|..];
    forall k | 0 <= k < |h'| ensures h'[k].frameNumber == count + 1 - |h'| + k {
      var j := |all| - |h'| + k;
      assert h'[k] == all[j];
      if j < |h| {
        assert all[j] == h[j];
      } else {
        assert all[j] == f;
      }
    }
  }

  datatype SessionStats = SessionStats(
    totalFrames: nat, sessionDuration: real, currentNervousness: real,
    avgNervousness: real, avgBlinkRate: real, avgHandMovement: real,
    avgHeadMovement: real, recentCount: nat)

  function NervousnessOf(h: seq<Features>): (r: seq<real>)
    ensures |r| == |h| && forall k | 0 <= k < |h| :: r[k] == h[k].nervousness
  {
    seq(|h|, k requires 0 <= k < |h| => h[k].nervousness)
  }

  function HeadMovementOf(h: seq<Features>): (r: seq<real>)
    ensures |r| == |h| && forall k | 0 <= k < |h| :: r[k] == h[k].headMovement
  {
    seq(|h|, k requires 0 <= k < |h| => h[k].headMovement)
  }

  /** `get_session_stats`: an error without history; otherwise the counters
      and averages over the last 30 frames (the blink rate and hand figures
      are fixed placeholders). */
  function GetSessionStats(p: Processor, now: real): (r: Result<SessionStats>)
    ensures r.Err? <==> |p.history| == 0
    ensures r.Err? ==> r.error == "No metrics available"
    ensures r.Ok? ==> r.value == RecentStats(p, now)
  {
    if |p.history| == 0 then Err("No metrics available") else Ok(RecentStats(p, now))
  }

  /** The statistics of a non-empty session. */
  function RecentStats(p: Processor, now: real): (r: SessionStats)
    requires |p.history| > 0
    ensures var recent := TakeLast(p.history, RecentWindow);
            && r.totalFrames == p.frameCount
            && r.sessionDuration == now - p.startTime
            && r.recentCount == MinNat(|p.history|, RecentWindow)
            && r.currentNervousness == p.history[|p.history| - 1].nervousness
            && AverageOf(r.avgNervousness, NervousnessOf(recent))
            && AverageOf(r.avgHeadMovement, HeadMovementOf(recent))
            && r.avgBlinkRate == 0.15 && r.avgHandMovement == 0.0
  {
    var recent := TakeLast(p.history, RecentWindow);
    var w := WindowFigures(recent);
    assert recent[|recent| - 1] == p.history[|p.history| - 1];
    SessionStats(p.frameCount, now - p.startTime, w.0, w.1, 0.15, 0.0, w.2, |recent|)
  }

  /** The current nervousness and the two averages over a window of frames. */
  function WindowFigures(recent: seq<Features>): (r: (real, real, real))
    requires |recent| > 0
    ensures r.0 == recent[|recent| - 1].nervousness
    ensures AverageOf(r.1, NervousnessOf(recent))
    ensures AverageOf(r.2, HeadMovementOf(recent))
  {
    var nervousness := NervousnessOf(recent);
    (LastOrZero(nervousness), MeanOrZero(nervousness), MeanOrZero(HeadMovementOf(recent)))
  }

  /** Nervousness figures average within their own bounds. */
  lemma StatsNervousnessInRange(p: Processor, now: real)
    requires forall k | 0 <= k < |p.history| :: 0.2 <= p.history[k].nervousness <= 0.8
    requires |p.history| > 0
    ensures 0.2 <= RecentStats(p, now).avgNervousness <= 0.8
  {
    RecentNervousnessWithin(p.history);
    AverageBounds(RecentStats(p, now).avgNervousness, NervousnessOf(TakeLast(p.history, RecentWindow)), 0.2, 0.8);
  }

  lemma RecentNervousnessWithin(h: seq<Features>)
    requires forall k | 0 <= k < |h| :: 0.2 <= h[k].nervousness <= 0.8
    ensures AllIn(NervousnessOf(TakeLast(h, RecentWindow)), 0.2, 0.8)
  {
    var recent := TakeLast(h, RecentWindow);
    forall k | 0 <= k < |recent| ensures 0.2 <= recent[k].nervousness <= 0.8 {
      assert recent[k] == h[|h| - |recent| + k];
    }
  }

  /** After a frame is processed, the statistics report it as the current one. */
  lemma StatsAfterFrame(p: Processor, frame: Frame, now: real, later: real, sqrt: real -> real)
    requires ValidFrame(frame) && IsSqrt(sqrt) && frame.Decoded?
    ensures var r := ProcessFrame(p, frame, now, sqrt);
            var s := GetSessionStats(r.0, later);
            s.Ok? && s.value.currentNervousness == r.1.value.nervousness
            && s.value.totalFrames == p.frameCount + 1
  {
  }

  /** `reset_session` at clock reading `now`. */
  function ResetSession(p: Processor, now: real): (r: Processor)
    ensures r.history == [] && r.frameCount == 0 && r.previousCentre.None? && r.startTime == now
  {
    Processor([], 0, now, None)
  }

  /** After a reset there is nothing to report and the history is consistent;
      the next face seen scores no movement. */
  lemma ResetForgetsSession(p: Processor, now: real, ds: seq<Detection>, sqrt: real -> real)
    requires IsSqrt(sqrt)
    ensures GetSessionStats(ResetSession(p, now), now).Err?
    ensures Consistent(ResetSession(p, now))
    ensures HeadMovement(ds, ResetSession(p, now).previousCentre, sqrt).0 == 0.0
  {
  }
}
