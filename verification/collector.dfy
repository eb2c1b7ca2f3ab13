/** The posture sample collector of app/training_data_collector.py and its
    copy app/training_data_collector_fixed.py (the two agree on everything
    modelled here): a frame is sampled when enough time has passed, a pose
    is detected and the four shoulder and hip landmarks are visible enough;
    a sample records seven named key points and five alignment metrics. */
module TrainingCollection {
  import opened Basics
  import opened Landmarks

  /** The visibility a required landmark needs. */
  const MinVisibility: real := 0.5

  /** A landmark as the detector reports it: position and visibility. */
  datatype Seen = Seen(at: Point, visibility: real)

  /** The seven key points a sample records. */
  datatype KeyPoints = KeyPoints(
    leftShoulder: Seen, rightShoulder: Seen, leftHip: Seen, rightHip: Seen,
    leftEar: Seen, rightEar: Seen, nose: Seen)

  /** The names the key points are recorded under, in recording order. */
  const KeyPointNames: seq<string> :=
    ["left_shoulder", "right_shoulder", "left_hip", "right_hip", "left_ear", "right_ear", "nose"]

  /** The derived metrics dictionary. */
  datatype Metrics = Metrics(
    shoulderAngle: real, hipAngle: real, spineAlignment: real, shoulderWidth: real, hipWidth: real)

  datatype Sample = Sample(timestamp: string, landmarks: seq<(string, Seen)>, metrics: Metrics)

  /** The shoulders and hips of the key points. */
  function TorsoOf(kp: KeyPoints): Pose
  {
    Pose(kp.leftShoulder.at, kp.rightShoulder.at, kp.leftHip.at, kp.rightHip.at)
  }

  /** `calculate_posture_metrics`: the vertical tilts of the shoulders and
      hips, the vertical gap between their midpoints, and their horizontal
      widths, all as absolute differences. */
  function PostureMetrics(p: Pose): (m: Metrics)
    ensures m.shoulderAngle >= 0.0 && m.hipAngle >= 0.0 && m.spineAlignment >= 0.0
    ensures m.shoulderWidth >= 0.0 && m.hipWidth >= 0.0
    ensures m.shoulderAngle == 0.0 <==> p.leftShoulder.y == p.rightShoulder.y
    ensures m.hipAngle == 0.0 <==> p.leftHip.y == p.rightHip.y
    ensures m.spineAlignment == 0.0 <==> p.leftShoulder.y + p.rightShoulder.y == p.leftHip.y + p.rightHip.y
  {
    Metrics(ShoulderTilt(p), HipTilt(p), SpineGap(p),
            Abs(p.leftShoulder.x - p.rightShoulder.x), Abs(p.leftHip.x - p.rightHip.x))
  }

  /** Exchanging left and right landmarks changes no metric. */
  lemma MetricsIgnoreSides(p: Pose)
    ensures PostureMetrics(Mirror(p)) == PostureMetrics(p)
  {
    MirrorKeepsAlignment(p);
  }

  /** The whole body moved by the same offset. */
  function Moved(p: Pose, dx: real, dy: real): Pose
  {
    Pose(Point(p.leftShoulder.x + dx, p.leftShoulder.y + dy, p.leftShoulder.z),
         Point(p.rightShoulder.x + dx, p.rightShoulder.y + dy, p.rightShoulder.z),
         Point(p.leftHip.x + dx, p.leftHip.y + dy, p.leftHip.z),
         Point(p.rightHip.x + dx, p.rightHip.y + dy, p.rightHip.z))
  }

  /** The metrics are relative measures: where the body stands in the frame
      does not matter. */
  lemma MetricsIgnorePosition(p: Pose, dx: real, dy: real)
    ensures PostureMetrics(Moved(p, dx, dy)) == PostureMetrics(p)
  {
    var q := Moved(p, dx, dy);
    assert q.leftShoulder.y - q.rightShoulder.y == p.leftShoulder.y - p.rightShoulder.y;
    assert q.leftHip.y - q.rightHip.y == p.leftHip.y - p.rightHip.y;
    assert (q.leftShoulder.y + q.rightShoulder.y) / 2.0 - (q.leftHip.y + q.rightHip.y) / 2.0
        == (p.leftShoulder.y + p.rightShoulder.y) / 2.0 - (p.leftHip.y + p.rightHip.y) / 2.0;
  }

  /** The visibilities of the four landmarks the gate checks, in checking order. */
  function Required(kp: KeyPoints): (r: seq<real>)
    ensures |r| == 4
  {
    [kp.leftShoulder.visibility, kp.rightShoulder.visibility, kp.leftHip.visibility, kp.rightHip.visibility]
  }

  /** The gate's loop: stop at the first landmark below the threshold. */
  method AllVisible(visibilities: seq<real>) returns (allVisible: bool)
    ensures allVisible <==> forall k | 0 <= k < |visibilities| :: visibilities[k] >= MinVisibility
  {
    allVisible := true;
    var i := 0;
    while i < |visibilities|
      invariant 0 <= i <= |visibilities|
      invariant forall k | 0 <= k < i :: visibilities[k] >= MinVisibility
    {
      if visibilities[i] < MinVisibility {
        allVisible := false;
        break;
      }
      i := i + 1;
    }
  }

  /** A stored sample whose four torso landmarks were visible enough. */
  predicate Qualified(s: Sample)
  {
    |s.landmarks| == 7 && forall k | 0 <= k < 4 :: s.landmarks[k].1.visibility >= MinVisibility
  }

  /** `extract_landmarks` with the clock's ISO stamp: the seven key points
      under their names, in order, and the metrics of the torso. */
  function ExtractLandmarks(kp: KeyPoints, stamp: string): (s: Sample)
    ensures |s.landmarks| == |KeyPointNames| == 7
    ensures forall k | 0 <= k < 7 :: s.landmarks[k].0 == KeyPointNames[k]
    ensures s.landmarks[0].1 == kp.leftShoulder && s.landmarks[1].1 == kp.rightShoulder
    ensures s.landmarks[2].1 == kp.leftHip && s.landmarks[3].1 == kp.rightHip
    ensures s.landmarks[4].1 == kp.leftEar && s.landmarks[5].1 == kp.rightEar && s.landmarks[6].1 == kp.nose
    ensures s.timestamp == stamp
    ensures s.metrics == PostureMetrics(TorsoOf(kp))
  {
    var seen := [kp.leftShoulder, kp.rightShoulder, kp.leftHip, kp.rightHip, kp.leftEar, kp.rightEar, kp.nose];
    Sample(stamp, seq(7, k requires 0 <= k < 7 => (KeyPointNames[k], seen[k])), PostureMetrics(TorsoOf(kp)))
  }

  /** The collector's state: the samples so far and when the last one was taken. */
  datatype Collection = Collection(samples: seq<Sample>, lastSampleTime: real)

  /** One pass of the capture loop at clock reading `now`: a sample is taken
      when `sampleRate` seconds have passed since the last, a pose is
      detected, and all four torso landmarks are visible enough; only then
      does the sample clock move. */
  method CollectStep(c: Collection, now: real, sampleRate: real, pose: Option<KeyPoints>, stamp: string)
    returns (r: Collection)
    ensures var taken := now - c.lastSampleTime >= sampleRate && pose.Some?
                         && forall k | 0 <= k < 4 :: Required(pose.value)[k] >= MinVisibility;
            && (taken ==> r == Collection(c.samples + [ExtractLandmarks(pose.value, stamp)], now))
            && (!taken ==> r == c)
  {
    r := c;
    if now - c.lastSampleTime >= sampleRate {
      if pose.Some? {
        var visible := AllVisible(Required(pose.value));
        if visible {
          r := Collection(c.samples + [ExtractLandmarks(pose.value, stamp)], now);
        }
      }
    }
  }

  /** Every stored sample passed the visibility gate. */
  lemma CollectedSamplesQualify(c: Collection, now: real, sampleRate: real, pose: Option<KeyPoints>, stamp: string, r: Collection)
    requires forall k | 0 <= k < |c.samples| :: Qualified(c.samples[k])
    requires var taken := now - c.lastSampleTime >= sampleRate && pose.Some?
                          && forall k | 0 <= k < 4 :: Required(pose.value)[k] >= MinVisibility;
             && (taken ==> r == Collection(c.samples + [ExtractLandmarks(pose.value, stamp)], now))
             && (!taken ==> r == c)
    ensures forall k | 0 <= k < |r.samples| :: Qualified(r.samples[k])
  {
    if r != c {
      var s := ExtractLandmarks(pose.value, stamp);
      assert r.samples == c.samples + [s];
      forall k | 0 <= k < 4 ensures s.landmarks[k].1.visibility >= MinVisibility {
        assert s.landmarks[k].1.visibility == Required(pose.value)[k];
      }
      forall k | 0 <= k < |r.samples| ensures Qualified(r.samples[k]) {
        if k < |c.samples| {
          assert r.samples[k] == c.samples[k];
        }
      }
    }
  }
}
