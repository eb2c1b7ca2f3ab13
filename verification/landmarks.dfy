/** Landmark measurements as the scorers receive them from the pose, hand and
    face-mesh detectors: normalised image coordinates (x right, y down, z
    depth).  Detection itself happens outside the model; only its outputs
    appear here, together with the geometric quantities every scorer derives
    from them. */
module Landmarks {
  import opened Basics

  datatype Point = Point(x: real, y: real, z: real)

  /** Coordinate `axis` of a point: 0 is x, 1 is y, anything else z. */
  function Coord(p: Point, axis: nat): real
  {
    if axis == 0 then p.x else if axis == 1 then p.y else p.z
  }

  /** The four pose landmarks the posture scorers read (shoulders and hips). */
  datatype Pose = Pose(leftShoulder: Point, rightShoulder: Point, leftHip: Point, rightHip: Point)

  /** The three hand landmarks the gesture scorers read. */
  datatype Hand = Hand(wrist: Point, thumbTip: Point, indexTip: Point)

  /** Face-mesh landmarks 33 and 133 (the two corners of one eye outline). */
  datatype Eyes = Eyes(left: Point, right: Point)

  /** `frame.shape[:2]`, in pixels. */
  datatype FrameSize = FrameSize(height: nat, width: nat)

  /** Vertical misalignment of the shoulders, `abs(ls.y - rs.y)`. */
  function ShoulderTilt(p: Pose): (r: real)
    ensures r >= 0.0
  {
    Abs(p.leftShoulder.y - p.rightShoulder.y)
  }

  /** Vertical misalignment of the hips. */
  function HipTilt(p: Pose): (r: real)
    ensures r >= 0.0
  {
    Abs(p.leftHip.y - p.rightHip.y)
  }

  /** Vertical distance between the shoulder midpoint and the hip midpoint. */
  function SpineGap(p: Pose): (r: real)
    ensures r >= 0.0
  {
    Abs((p.leftShoulder.y + p.rightShoulder.y) / 2.0 - (p.leftHip.y + p.rightHip.y) / 2.0)
  }

  /** The same body seen mirrored: left and right landmarks exchanged. */
  function Mirror(p: Pose): Pose
  {
    Pose(p.rightShoulder, p.leftShoulder, p.rightHip, p.leftHip)
  }

  lemma MirrorKeepsAlignment(p: Pose)
    ensures ShoulderTilt(Mirror(p)) == ShoulderTilt(p)
    ensures HipTilt(Mirror(p)) == HipTilt(p)
    ensures SpineGap(Mirror(p)) == SpineGap(p)
  {
  }

  /** `abs(wrist.y - thumb_tip.y) + abs(wrist.y - index_tip.y)`. */
  function HandSpread(h: Hand): (r: real)
    ensures r >= 0.0
  {
    Abs(h.wrist.y - h.thumbTip.y) + Abs(h.wrist.y - h.indexTip.y)
  }

  /** `abs(left.x - right.x) + abs(left.y - right.y)`. */
  function EyeSpread(e: Eyes): (r: real)
    ensures r >= 0.0
  {
    Abs(e.left.x - e.right.x) + Abs(e.left.y - e.right.y)
  }

  /** What the model needs of `np.sqrt`: the non-negative square root on
      non-negative reals, exact at 0. */
  ghost predicate IsSqrt(sqrt: real -> real)
  {
    && sqrt(0.0) == 0.0
    && forall x :: 0.0 <= x ==> 0.0 <= sqrt(x) && sqrt(x) * sqrt(x) == x
  }

  /** Squared deviations from the mean. */
  function Deviations(s: seq<real>): (r: seq<real>)
    requires |s| > 0
    ensures |r| == |s|
    ensures AllNonNeg(r)
  {
    var m := Mean(s);
    var r := seq(|s|, k requires 0 <= k < |s| => (s[k] - m) * (s[k] - m));
    assert AllNonNeg(r) by {
      forall k | 0 <= k < |s| ensures r[k] >= 0.0 {
        var d := s[k] - m;
        if d < 0.0 {
          assert d * d == (-d) * (-d);
        }
      }
    }
    r
  }

  /** `np.std`: the population standard deviation. */
  function Std(s: seq<real>, sqrt: real -> real): (r: real)
    requires IsSqrt(sqrt) && |s| > 0
    ensures r >= 0.0
  {
    MeanNonNeg(Deviations(s));
    sqrt(Mean(Deviations(s)))
  }

  /** A two-dimensional point, as the trackers' `(x, y)` tuples and `np.array([x, y])`. */
  datatype Pt2 = Pt2(x: real, y: real)

  /** The (x, y) part of a landmark. */
  function Flat(p: Point): Pt2
  {
    Pt2(p.x, p.y)
  }

  /** `dx**2 + dy**2`. */
  function SquaredDistance(a: Pt2, b: Pt2): (r: real)
    ensures r >= 0.0
  {
    (a.x - b.x) * (a.x - b.x) + (a.y - b.y) * (a.y - b.y)
  }

  /** Euclidean distance in the plane: `np.linalg.norm(a - b)` / `np.sqrt(dx**2 + dy**2)`. */
  function Distance(a: Pt2, b: Pt2, sqrt: real -> real): (r: real)
    requires IsSqrt(sqrt)
    ensures r >= 0.0
    ensures r * r == SquaredDistance(a, b)
  {
    sqrt(SquaredDistance(a, b))
  }

  /** A point is at distance 0 from itself, and distance is symmetric. */
  lemma DistanceProperties(a: Pt2, b: Pt2, sqrt: real -> real)
    requires IsSqrt(sqrt)
    ensures a == b ==> Distance(a, b, sqrt) == 0.0
    ensures Distance(a, b, sqrt) == Distance(b, a, sqrt)
  {
    assert SquaredDistance(a, b) == SquaredDistance(b, a);
    if a == b {
      assert SquaredDistance(a, b) == 0.0;
    }
  }

  /** `p` moved by the offset `t`. */
  function Shift(p: Pt2, t: Pt2): Pt2
  {
    Pt2(p.x + t.x, p.y + t.y)
  }

  /** Moving both points by the same offset keeps their distance. */
  lemma DistanceShift(a: Pt2, b: Pt2, t: Pt2, sqrt: real -> real)
    requires IsSqrt(sqrt)
    ensures Distance(Shift(a, t), Shift(b, t), sqrt) == Distance(a, b, sqrt)
  {
    assert SquaredDistance(Shift(a, t), Shift(b, t)) == SquaredDistance(a, b);
  }

  /** Squared pixel distance from the midpoint of the two eye landmarks to the frame centre. */
  function EyeOffsetSquared(e: Eyes, f: FrameSize): (r: real)
    ensures r >= 0.0
  {
    var cx := f.width as real / 2.0;
    var cy := f.height as real / 2.0;
    var ex := (e.left.x + e.right.x) / 2.0 * f.width as real;
    var ey := (e.left.y + e.right.y) / 2.0 * f.height as real;
    (ex - cx) * (ex - cx) + (ey - cy) * (ey - cy)
  }

  /** Squared half-diagonal of the frame: the distance from the centre to a corner. */
  function HalfDiagonalSquared(f: FrameSize): (r: real)
    ensures r >= 0.0
    ensures r == 0.0 <==> f.width == 0 && f.height == 0
  {
    var cx := f.width as real / 2.0;
    var cy := f.height as real / 2.0;
    cx * cx + cy * cy
  }

  /** `distance_from_center / max_distance`; `None` stands for numpy's NaN, which the
      source produces (without raising) for a zero-sized frame. */
  function CentreOffset(e: Eyes, f: FrameSize, sqrt: real -> real): (r: Option<real>)
    requires IsSqrt(sqrt)
    ensures r.None? <==> f.width == 0 && f.height == 0
    ensures r.Some? ==> r.value >= 0.0
    ensures r.Some? ==> r.value * r.value * HalfDiagonalSquared(f) == EyeOffsetSquared(e, f)
  {
    var d := HalfDiagonalSquared(f);
    if d == 0.0 then None
    else
      var m := sqrt(d);
      assert m * m == d;
      Some(sqrt(EyeOffsetSquared(e, f)) / m)
  }

  /** Eyes whose midpoint is the frame centre are at offset 0. */
  lemma CentredEyesHaveZeroOffset(e: Eyes, f: FrameSize, sqrt: real -> real)
    requires IsSqrt(sqrt)
    requires (e.left.x + e.right.x) / 2.0 == 0.5 && (e.left.y + e.right.y) / 2.0 == 0.5
    requires f.width > 0
    ensures CentreOffset(e, f, sqrt) == Some(0.0)
  {
    assert EyeOffsetSquared(e, f) == 0.0;
    var s := sqrt(0.0);
    assert s * s == 0.0;
    var d := HalfDiagonalSquared(f);
    assert d > 0.0;
    assert sqrt(d) * sqrt(d) == d;
    assert s == 0.0;
    assert s / sqrt(d) == 0.0;
  }
}
