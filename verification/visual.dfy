/** The video-level body-language analysis of the back-end service
    (src/BackEnd/services/visual_analyzer.py): the per-frame eye-contact,
    smile, posture, gesture and movement detectors, the one-in-five frame
    sampling, and the final ratios with their weighted visual-presence score.
    The face-mesh and pose detectors are outside the model; each frame
    arrives as their outputs. */
module VisualAnalysis {
  import opened Basics
  import opened Landmarks

  // ---------------------------------------------------------------- face mesh

  /** Face-mesh landmark indices outlining each eye. */
  const LeftEyeIndices: seq<nat> := [362, 385, 387, 263, 373, 380]
  const RightEyeIndices: seq<nat> := [33, 160, 158, 133, 153, 144]

  /** Lips (top, bottom), mouth ends (left, right) and the two corner points. */
  const MouthTop: nat := 13
  const MouthBottom: nat := 14
  const MouthLeft: nat := 78
  const MouthRight: nat := 308
  const CornerLeft: nat := 61
  const CornerRight: nat := 291

  /** A face mesh holding every landmark the detectors read (the detector
      emits 468; the source indexes without checking). */
  predicate IsFaceMesh(face: seq<Point>)
  {
    |face| > 387
  }

  predicate InMesh(face: seq<Point>, idx: seq<nat>)
  {
    forall k :: 0 <= k < |idx| ==> idx[k] < |face|
  }

  /** Column `axis` (0 = x, 1 = y, 2 = z) of the `[[p.x, p.y, p.z] ...]` matrix. */
  function Column(face: seq<Point>, idx: seq<nat>, axis: nat): (r: seq<real>)
    requires InMesh(face, idx)
    ensures |r| == |idx|
    ensures forall k :: 0 <= k < |idx| ==> r[k] == Coord(face[idx[k]], axis)
  {
    seq(|idx|, k requires 0 <= k < |idx| => Coord(face[idx[k]], axis))
  }

  /** `np.mean(points, axis=0)`: the centre of one eye outline. */
  function EyeCentre(face: seq<Point>, idx: seq<nat>): Point
    requires |idx| > 0 && InMesh(face, idx)
  {
    Point(Mean(Column(face, idx, 0)), Mean(Column(face, idx, 1)), Mean(Column(face, idx, 2)))
  }

  /** `_check_eye_contact`: both eye centres at nearly the same depth and
      vertically inside the middle band of the image. */
  predicate EyeContact(face: seq<Point>)
    requires IsFaceMesh(face)
  {
    var l := EyeCentre(face, LeftEyeIndices);
    var r := EyeCentre(face, RightEyeIndices);
    Abs(l.z - r.z) < 0.01 && 0.3 < l.y < 0.7 && 0.3 < r.y < 0.7
  }

  /** Every landmark of both eyes at one depth and inside the band. */
  predicate SteadyGaze(face: seq<Point>)
    requires IsFaceMesh(face)
  {
    && (forall k :: 0 <= k < 6 ==> 0.3 < face[LeftEyeIndices[k]].y < 0.7)
    && (forall k :: 0 <= k < 6 ==> 0.3 < face[RightEyeIndices[k]].y < 0.7)
    && (forall k :: 0 <= k < 6 ==> face[LeftEyeIndices[k]].z == face[LeftEyeIndices[0]].z)
    && (forall k :: 0 <= k < 6 ==> face[RightEyeIndices[k]].z == face[LeftEyeIndices[0]].z)
  }

  lemma {:induction false} SumStrictlyBetween(s: seq<real>, lo: real, hi: real)
    requires |s| > 0
    requires forall i :: 0 <= i < |s| ==> lo < s[i] < hi
    ensures (|s| as real) * lo < Sum(s) < (|s| as real) * hi
    decreases |s|
  {
    if |s| > 1 {
      var n := |s| as real;
      var p := s[..|s| - 1];
      SumStrictlyBetween(p, lo, hi);
      assert Sum(s) == Sum(p) + s[|s| - 1];
      assert (|p| as real) == n - 1.0;
      assert n * lo == (n - 1.0) * lo + lo;
      assert n * hi == (n - 1.0) * hi + hi;
    } else {
      assert Sum(s) == Sum(s[..0]) + s[0];
      assert s[..0] == [];
    }
  }

  lemma MeanStrictlyBetween(s: seq<real>, lo: real, hi: real)
    requires |s| > 0
    requires forall i :: 0 <= i < |s| ==> lo < s[i] < hi
    ensures lo < Mean(s) < hi
  {
    SumStrictlyBetween(s, lo, hi);
    var n := |s| as real;
    assert Sum(s) / n > lo by {
      assert Sum(s) > n * lo;
    }
    assert Sum(s) / n < hi by {
      assert Sum(s) < n * hi;
    }
  }

  /** A level, centred gaze is always eye contact, whatever the x positions. */
  lemma SteadyGazeMakesContact(face: seq<Point>)
    requires IsFaceMesh(face)
    requires SteadyGaze(face)
    ensures EyeContact(face)
  {
    var d := face[LeftEyeIndices[0]].z;
    var ly, ry := Column(face, LeftEyeIndices, 1), Column(face, RightEyeIndices, 1);
    var lz, rz := Column(face, LeftEyeIndices, 2), Column(face, RightEyeIndices, 2);
    MeanStrictlyBetween(ly, 0.3, 0.7);
    MeanStrictlyBetween(ry, 0.3, 0.7);
    MeanBounds(lz, d, d);
    MeanBounds(rz, d, d);
  }

  /** Both eyes looking above the band (every eye landmark at one height at
      most 0.3) is never eye contact. */
  lemma RaisedGazeBreaksContact(face: seq<Point>, h: real)
    requires IsFaceMesh(face)
    requires h <= 0.3
    requires forall k :: 0 <= k < 6 ==> face[LeftEyeIndices[k]].y == h
    ensures !EyeContact(face)
  {
    MeanBounds(Column(face, LeftEyeIndices, 1), h, h);
  }

  // ---------------------------------------------------------------- smile

  /** Mouth width over height, the height floored at 0.001. */
  function MouthRatio(face: seq<Point>): (r: real)
    requires IsFaceMesh(face)
    ensures r >= 0.0
  {
    var height := Abs(face[MouthTop].y - face[MouthBottom].y);
    var width := Abs(face[MouthLeft].x - face[MouthRight].x);
    width / Max(0.001, height)
  }

  /** Both corner points above the mouth-centre line (smaller y is higher). */
  predicate CornersRaised(face: seq<Point>)
    requires IsFaceMesh(face)
  {
    var centre := (face[MouthTop].y + face[MouthBottom].y) / 2.0;
    face[CornerLeft].y < centre && face[CornerRight].y < centre
  }

  /** `_detect_smile`. */
  predicate Smile(face: seq<Point>)
    requires IsFaceMesh(face)
  {
    MouthRatio(face) > 4.0 && CornersRaised(face)
  }

  /** The ratio test without the division: a smile is a mouth more than four
      times wider than it is high (counting at least 0.001 of height), with
      raised corners; in particular every smile is wider than 0.004. */
  lemma SmileShape(face: seq<Point>)
    requires IsFaceMesh(face)
    ensures Smile(face) <==>
      Abs(face[MouthLeft].x - face[MouthRight].x) > 4.0 * Max(0.001, Abs(face[MouthTop].y - face[MouthBottom].y))
      && CornersRaised(face)
    ensures Smile(face) ==> Abs(face[MouthLeft].x - face[MouthRight].x) > 0.004
  {
    var height := Abs(face[MouthTop].y - face[MouthBottom].y);
    var width := Abs(face[MouthLeft].x - face[MouthRight].x);
    var m := Max(0.001, height);
    RatioAbove(width, m, 4.0);
    assert MouthRatio(face) == width / m;
  }

  lemma RatioAbove(w: real, m: real, k: real)
    requires m > 0.0
    ensures w / m > k <==> w > k * m
  {
    var q := w / m;
    assert w == q * m;
    if q > k {
      assert (q - k) * m > 0.0;
    } else {
      assert (k - q) * m >= 0.0;
    }
  }

  // ---------------------------------------------------------------- pose

  /** A pose landmark with the detector's visibility score. */
  datatype Joint = Joint(at: Point, visibility: real)

  /** The pose landmarks the detectors read. */
  datatype Body = Body(nose: Joint,
                       leftShoulder: Joint, rightShoulder: Joint,
                       leftElbow: Joint, rightElbow: Joint,
                       leftWrist: Joint, rightWrist: Joint,
                       leftHip: Joint, rightHip: Joint)

  function ShoulderMid(b: Body): Pt2
  {
    Pt2((b.leftShoulder.at.x + b.rightShoulder.at.x) / 2.0, (b.leftShoulder.at.y + b.rightShoulder.at.y) / 2.0)
  }

  function HipMidX(b: Body): real
  {
    (b.leftHip.at.x + b.rightHip.at.x) / 2.0
  }

  /** `_check_good_posture`: shoulders level and the shoulder midpoint above
      the hip midpoint. The nose landmark is fetched but plays no part. */
  function GoodPosture(b: Body): (r: bool)
    ensures r ==> Abs(b.leftShoulder.at.y - b.rightShoulder.at.y) < 0.05
  {
    Abs(b.leftShoulder.at.y - b.rightShoulder.at.y) < 0.05 && Abs(ShoulderMid(b).x - HipMidX(b)) < 0.1
  }

  /** The same body seen in a mirror: left and right landmarks exchanged. */
  function Mirror(b: Body): Body
  {
    Body(b.nose, b.rightShoulder, b.leftShoulder, b.rightElbow, b.leftElbow,
         b.rightWrist, b.leftWrist, b.rightHip, b.leftHip)
  }

  /** The whole body moved sideways by `dx`. */
  function SlideX(b: Body, dx: real): Body
  {
    var m := (j: Joint) => Joint(Point(j.at.x + dx, j.at.y, j.at.z), j.visibility);
    Body(m(b.nose), m(b.leftShoulder), m(b.rightShoulder), m(b.leftElbow), m(b.rightElbow),
         m(b.leftWrist), m(b.rightWrist), m(b.leftHip), m(b.rightHip))
  }

  /** Posture is judged the same in a mirror, anywhere across the frame and
      wherever the nose is. */
  lemma PostureSymmetries(b: Body, dx: real, nose: Joint)
    ensures GoodPosture(b.(nose := nose)) == GoodPosture(b)
    ensures GoodPosture(Mirror(b)) == GoodPosture(b)
    ensures GoodPosture(SlideX(b, dx)) == GoodPosture(b)
  {
    var s := SlideX(b, dx);
    assert ShoulderMid(s).x - HipMidX(s) == ShoulderMid(b).x - HipMidX(b);
    assert s.leftShoulder.at.y - s.rightShoulder.at.y == b.leftShoulder.at.y - b.rightShoulder.at.y;
    assert Abs(b.rightShoulder.at.y - b.leftShoulder.at.y) == Abs(b.leftShoulder.at.y - b.rightShoulder.at.y);
  }

  // ---------------------------------------------------------------- gestures

  /** `visibility > 0.7`. */
  predicate Seen(j: Joint)
  {
    j.visibility > 0.7
  }

  /** Cosine of the angle at `b` between `b->a` and `b->c`; `None` stands for
      the NaN numpy yields when either arm segment has zero length. */
  function Cosine(a: Pt2, b: Pt2, c: Pt2, sqrt: real -> real): (r: Option<real>)
    requires IsSqrt(sqrt)
    ensures a == b || c == b ==> r.None?
  {
    DistanceProperties(a, b, sqrt);
    DistanceProperties(c, b, sqrt);
    var norms := Distance(a, b, sqrt) * Distance(c, b, sqrt);
    if norms == 0.0 then None
    else Some(((a.x - b.x) * (c.x - b.x) + (a.y - b.y) * (c.y - b.y)) / norms)
  }

  /** One arm counts as bent when shoulder, elbow and wrist are all seen and
      the elbow angle is under 160 degrees. `acosDegrees` is
      `np.degrees(np.arccos(.))`, applied after the clip to [-1, 1]; a NaN
      angle compares false. */
  function ArmBent(shoulder: Joint, elbow: Joint, wrist: Joint, sqrt: real -> real, acosDegrees: real -> real): (r: bool)
    requires IsSqrt(sqrt)
    ensures r ==> Seen(shoulder) && Seen(elbow) && Seen(wrist)
    ensures Flat(wrist.at) == Flat(elbow.at) ==> !r
  {
    if Seen(shoulder) && Seen(elbow) && Seen(wrist) then
      match Cosine(Flat(shoulder.at), Flat(elbow.at), Flat(wrist.at), sqrt)
      case None => false
      case Some(c) => acosDegrees(Clamp(-1.0, 1.0, c)) < 160.0
    else false
  }

  /** `_detect_hand_gestures`. Its separate hands-visible test is implied by
      either arm being bent, so a gesture is exactly a bent arm; a forearm
      folded to a point never counts. */
  function HandGesture(b: Body, sqrt: real -> real, acosDegrees: real -> real): (r: bool)
    requires IsSqrt(sqrt)
    ensures r <==> (ArmBent(b.leftShoulder, b.leftElbow, b.leftWrist, sqrt, acosDegrees)
                    || ArmBent(b.rightShoulder, b.rightElbow, b.rightWrist, sqrt, acosDegrees))
    ensures Flat(b.leftWrist.at) == Flat(b.leftElbow.at) && Flat(b.rightWrist.at) == Flat(b.rightElbow.at) ==> !r
  {
    var handsVisible := Seen(b.leftWrist) || Seen(b.rightWrist);
    handsVisible && (ArmBent(b.leftShoulder, b.leftElbow, b.leftWrist, sqrt, acosDegrees)
                     || ArmBent(b.rightShoulder, b.rightElbow, b.rightWrist, sqrt, acosDegrees))
  }

  // ---------------------------------------------------------------- movement

  /** `deque(maxlen=30)`: about one second at 30 frames per second. */
  const MovementCap: nat := 30

  /** `_analyze_movement`: record the shoulder midpoint, then report whether
      it moved a moderate distance since the previously recorded one. */
  function Movement(history: seq<Pt2>, b: Body, sqrt: real -> real): (r: (seq<Pt2>, bool))
    requires IsSqrt(sqrt)
    requires |history| <= MovementCap
    ensures |r.0| <= MovementCap
    ensures r.0 == Push(history, ShoulderMid(b), MovementCap)
    ensures r.1 <==> |history| > 0 && 0.005 < Distance(ShoulderMid(b), history[|history| - 1], sqrt) < 0.05
  {
    var h := Push(history, ShoulderMid(b), MovementCap);
    PushKeepsBound(history, ShoulderMid(b), MovementCap);
    if |h| < 2 then (h, false)
    else
      assert h[|h| - 2] == history[|history| - 1];
      var d := Distance(ShoulderMid(b), h[|h| - 2], sqrt);
      (h, 0.005 < d && d < 0.05)
  }

  /** A presenter standing exactly where they were is not moving. */
  lemma StillnessIsNotMovement(history: seq<Pt2>, b: Body, sqrt: real -> real)
    requires IsSqrt(sqrt)
    requires 0 < |history| <= MovementCap
    requires history[|history| - 1] == ShoulderMid(b)
    ensures !Movement(history, b, sqrt).1
  {
    DistanceProperties(ShoulderMid(b), history[|history| - 1], sqrt);
  }

  // ---------------------------------------------------------------- the video

  /** What the detectors report for one frame: the first face mesh, and the
      pose, when found. */
  datatype FrameObs = FrameObs(face: Option<seq<Point>>, body: Option<Body>)

  predicate WellFormed(f: FrameObs)
  {
    f.face.Some? ==> IsFaceMesh(f.face.value)
  }

  predicate AllWellFormed(frames: seq<FrameObs>)
  {
    forall i :: 0 <= i < |frames| ==> WellFormed(frames[i])
  }

  /** The counters of `analyze` and the analyser's movement history. */
  datatype Tally = Tally(faces: nat, eyeContact: nat, smiles: nat,
                         posture: nat, gestures: nat, movement: nat,
                         history: seq<Pt2>)

  /** Counters start at zero; the movement history belongs to the analyser
      and carries over from earlier videos. */
  function Start(history: seq<Pt2>): Tally
  {
    Tally(0, 0, 0, 0, 0, 0, history)
  }

  /** No counter exceeds the frames it is drawn from. */
  predicate Within(t: Tally, processed: nat)
  {
    && t.eyeContact <= t.faces && t.smiles <= t.faces && t.faces <= processed
    && t.posture <= processed && t.gestures <= processed && t.movement <= processed
    && |t.history| <= MovementCap
  }

  /** The face counters after one analysed frame. */
  function FacePart(t: Tally, face: Option<seq<Point>>): (r: (nat, nat, nat))
    requires face.Some? ==> IsFaceMesh(face.value)
    ensures face.None? ==> r == (t.faces, t.eyeContact, t.smiles)
    ensures face.Some? ==> r.0 == t.faces + 1 && r.1 <= t.eyeContact + 1 && r.2 <= t.smiles + 1
    ensures r.1 >= t.eyeContact && r.2 >= t.smiles
  {
    match face
    case None => (t.faces, t.eyeContact, t.smiles)
    case Some(mesh) =>
      (t.faces + 1,
       t.eyeContact + (if EyeContact(mesh) then 1 else 0),
       t.smiles + (if Smile(mesh) then 1 else 0))
  }

  /** The pose counters and movement history after one analysed frame. */
  function BodyPart(t: Tally, body: Option<Body>, sqrt: real -> real, acosDegrees: real -> real): (r: (nat, nat, nat, seq<Pt2>))
    requires IsSqrt(sqrt) && |t.history| <= MovementCap
    ensures body.None? ==> r == (t.posture, t.gestures, t.movement, t.history)
    ensures r.0 <= t.posture + 1 && r.1 <= t.gestures + 1 && r.2 <= t.movement + 1
    ensures |r.3| <= MovementCap
    ensures body.Some? ==> r.3 == Push(t.history, ShoulderMid(body.value), MovementCap)
  {
    match body
    case None => (t.posture, t.gestures, t.movement, t.history)
    case Some(b) =>
      var (h, moved) := Movement(t.history, b, sqrt);
      (t.posture + (if GoodPosture(b) then 1 else 0),
       t.gestures + (if HandGesture(b, sqrt, acosDegrees) then 1 else 0),
       t.movement + (if moved then 1 else 0),
       h)
  }

  /** One analysed frame. */
  function Observe(t: Tally, f: FrameObs, sqrt: real -> real, acosDegrees: real -> real): (u: Tally)
    requires IsSqrt(sqrt) && WellFormed(f) && |t.history| <= MovementCap
    ensures forall n: nat :: Within(t, n) ==> Within(u, n + 1)
    ensures f.face.None? ==> u.faces == t.faces && u.eyeContact == t.eyeContact && u.smiles == t.smiles
    ensures f.face.Some? ==> u.faces == t.faces + 1
    ensures f.body.None? ==> (u.posture == t.posture && u.gestures == t.gestures
                              && u.movement == t.movement && u.history == t.history)
    ensures f.body.Some? ==> u.history == Push(t.history, ShoulderMid(f.body.value), MovementCap)
  {
    var (faces, eye, smiles) := FacePart(t, f.face);
    var (posture, gestures, movement, h) := BodyPart(t, f.body, sqrt, acosDegrees);
    Tally(faces, eye, smiles, posture, gestures, movement, h)
  }

  /** The tally after reading `frames`: only every fifth frame (the 5th,
      10th, ...) is analysed. */
  function Replay(frames: seq<FrameObs>, history: seq<Pt2>, sqrt: real -> real, acosDegrees: real -> real): (t: Tally)
    requires IsSqrt(sqrt) && AllWellFormed(frames) && |history| <= MovementCap
    ensures Within(t, |frames| / 5)
    decreases |frames|
  {
    if |frames| == 0 then Start(history)
    else
      var t := Replay(frames[..|frames| - 1], history, sqrt, acosDegrees);
      if |frames| % 5 == 0 then Observe(t, frames[|frames| - 1], sqrt, acosDegrees) else t
  }

  /** The `n`-th frame is analysed exactly when its index `n - 1` is 4 modulo 5. */
  lemma SampledPosition(n: nat)
    requires n > 0
    ensures n % 5 == 0 <==> (n - 1) % 5 == 4
  {
    var k := n / 5;
    assert n == 5 * k + n % 5;
    if n % 5 == 0 {
      assert n - 1 == 5 * (k - 1) + 4;
    } else {
      assert n - 1 == 5 * k + (n % 5 - 1);
    }
  }

  /** Frames between the sampled ones have no influence on the analysis. */
  lemma {:induction false} OnlySampledFramesMatter(a: seq<FrameObs>, b: seq<FrameObs>, history: seq<Pt2>,
                                                    sqrt: real -> real, acosDegrees: real -> real)
    requires IsSqrt(sqrt) && AllWellFormed(a) && AllWellFormed(b) && |history| <= MovementCap
    requires |a| == |b|
    requires forall i :: 0 <= i < |a| && i % 5 == 4 ==> a[i] == b[i]
    ensures Replay(a, history, sqrt, acosDegrees) == Replay(b, history, sqrt, acosDegrees)
    decreases |a|
  {
    if |a| > 0 {
      var a', b' := a[..|a| - 1], b[..|b| - 1];
      assert AllWellFormed(a') && AllWellFormed(b');
      assert forall i :: 0 <= i < |a'| && i % 5 == 4 ==> a'[i] == b'[i];
      OnlySampledFramesMatter(a', b', history, sqrt, acosDegrees);
      if |a| % 5 == 0 {
        SampledPosition(|a|);
        assert a[|a| - 1] == b[|b| - 1];
      }
    }
  }

  /** The six ratios and the weighted score `analyze` returns. */
  datatype VisualMetrics = VisualMetrics(faceVisibility: real, eyeContact: real, smileRatio: real,
                                         posture: real, gestures: real, movement: real,
                                         presence: real)

  /** Weights of the visual-presence score, in the field order above. */
  const PresenceWeights: seq<real> := [0.2, 0.3, 0.05, 0.2, 0.15, 0.1]

  lemma PresenceWeightsSumToOne()
    ensures Sum(PresenceWeights) == 1.0
  {
    var w := PresenceWeights;
    assert Sum(w[..0]) == 0.0;
    assert w[..1][..0] == w[..0];
    assert Sum(w[..1]) == 0.2;
    assert w[..2][..1] == w[..1];
    assert Sum(w[..2]) == 0.5;
    assert w[..3][..2] == w[..2];
    assert Sum(w[..3]) == 0.55;
    assert w[..4][..3] == w[..3];
    assert Sum(w[..4]) == 0.75;
    assert w[..5][..4] == w[..4];
    assert Sum(w[..5]) == 0.9;
    assert w[..6][..5] == w[..5];
    assert w[..6] == w;
  }

  /** Every ratio is a fraction. */
  predicate Fractions(m: VisualMetrics)
  {
    && InUnit(m.faceVisibility) && InUnit(m.eyeContact) && InUnit(m.smileRatio)
    && InUnit(m.posture) && InUnit(m.gestures) && InUnit(m.movement)
  }

  /** Every ratio is 1. */
  predicate Perfect(m: VisualMetrics)
  {
    && m.faceVisibility == 1.0 && m.eyeContact == 1.0 && m.smileRatio == 1.0
    && m.posture == 1.0 && m.gestures == 1.0 && m.movement == 1.0
  }

  /** `visual_presence_score`: the weighted sum of the six ratios. */
  function Presence(face: real, eye: real, smile: real, posture: real, gestures: real, movement: real): (p: real)
    requires InUnit(face) && InUnit(eye) && InUnit(smile) && InUnit(posture) && InUnit(gestures) && InUnit(movement)
    ensures InUnit(p)
    ensures p == 1.0 <==> (face == 1.0 && eye == 1.0 && smile == 1.0 && posture == 1.0 && gestures == 1.0 && movement == 1.0)
    ensures p == 0.0 <==> (face == 0.0 && eye == 0.0 && smile == 0.0 && posture == 0.0 && gestures == 0.0 && movement == 0.0)
  {
    face * 0.2 + eye * 0.3 + posture * 0.2 + gestures * 0.15 + movement * 0.1 + smile * 0.05
  }

  /** `face_visibility`, `eye_contact` and `smile_ratio`. With a face in
      some frame, visibility divides by the analysed frames without the
      `max(1, .)` guard the other ratios use; the tally shows that divisor is
      then positive. */
  function FaceRatios(t: Tally, processed: nat): (r: (real, real, real))
    requires Within(t, processed)
    ensures InUnit(r.0) && InUnit(r.1) && InUnit(r.2)
    ensures t.faces == 0 ==> r == (0.0, 0.0, 0.0)
    ensures ShareOf(r.0, t.faces, processed)
    ensures t.faces > 0 ==> ShareOf(r.1, t.eyeContact, t.faces) && ShareOf(r.2, t.smiles, t.faces)
  {
    if t.faces > 0 then
      var visibility := t.faces as real / processed as real;
      assert visibility == Share(t.faces, processed);
      (visibility, Share(t.eyeContact, t.faces), Share(t.smiles, t.faces))
    else (0.0, 0.0, 0.0)
  }

  /** Final ratios: face metrics are shares of the frames with a face (all
      0.0 when none had one); the pose metrics are shares of the analysed
      frames. */
  function Summarise(t: Tally, processed: nat): (m: VisualMetrics)
    requires Within(t, processed)
    ensures Fractions(m)
    ensures t.faces == 0 ==> m.faceVisibility == 0.0 && m.eyeContact == 0.0 && m.smileRatio == 0.0
    ensures ShareOf(m.faceVisibility, t.faces, processed)
    ensures t.faces > 0 ==> ShareOf(m.eyeContact, t.eyeContact, t.faces) && ShareOf(m.smileRatio, t.smiles, t.faces)
    ensures ShareOf(m.posture, t.posture, processed) && ShareOf(m.gestures, t.gestures, processed)
    ensures ShareOf(m.movement, t.movement, processed)
    ensures InUnit(m.presence)
    ensures m.presence == 1.0 <==> Perfect(m)
    ensures processed == 0 ==> m.presence == 0.0
  {
    var (face, eye, smile) := FaceRatios(t, processed);
    var posture := Share(t.posture, processed);
    var gestures := Share(t.gestures, processed);
    var movement := Share(t.movement, processed);
    VisualMetrics(face, eye, smile, posture, gestures, movement,
                  Presence(face, eye, smile, posture, gestures, movement))
  }

  /** `analyze`. `None` is a video that cannot be opened. The analyser's
      movement history is returned, since it outlives the call. */
  method AnalyzeVideo(video: Option<seq<FrameObs>>, history: seq<Pt2>, sqrt: real -> real, acosDegrees: real -> real)
    returns (r: Result<VisualMetrics>, history': seq<Pt2>)
    requires IsSqrt(sqrt) && |history| <= MovementCap
    requires video.Some? ==> AllWellFormed(video.value)
    ensures video.None? <==> r.Err?
    ensures video.None? ==> r.error == "Não foi possível abrir o arquivo de vídeo" && history' == history
    ensures |history'| <= MovementCap
    ensures video.Some? ==>
      var t := Replay(video.value, history, sqrt, acosDegrees);
      r.value == Summarise(t, |video.value| / 5) && history' == t.history
  {
    if video.None? {
      return Err("Não foi possível abrir o arquivo de vídeo"), history;
    }
    var frames := video.value;
    var t := Start(history);
    var frameCount := 0;
    while frameCount < |frames|
      invariant 0 <= frameCount <= |frames|
      invariant t == Replay(frames[..frameCount], history, sqrt, acosDegrees)
    {
      frameCount := frameCount + 1;
      assert frames[..frameCount][..frameCount - 1] == frames[..frameCount - 1];
      if frameCount % 5 != 0 {
        continue;
      }
      t := Observe(t, frames[frameCount - 1], sqrt, acosDegrees);
    }
    assert frames[..frameCount] == frames;
    r := Ok(Summarise(t, frameCount / 5));
    history' := t.history;
  }
}
