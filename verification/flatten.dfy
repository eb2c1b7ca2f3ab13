/** The landmark flattener of src/back-end/media_pipe_utils.py: the 33 pose
    landmarks of a frame become a flat table of joint coordinates keyed
    `<name>_x`, `<name>_y` and `<name>_z`, in the fixed landmark order.  The
    table is a sequence of key/value pairs in insertion order, as a Python
    dict keeps them. */
module LandmarkFlattening {
  import opened Basics
  import opened Landmarks

  const HeadNames: seq<string> := ["nose", "left_eye_inner", "left_eye", "left_eye_outer",
    "right_eye_inner", "right_eye", "right_eye_outer", "left_ear", "right_ear",
    "mouth_left", "mouth_right", "left_shoulder", "right_shoulder", "left_elbow",
    "right_elbow", "left_wrist", "right_wrist"]
  const TailNames: seq<string> := ["left_pinky", "right_pinky", "left_index", "right_index",
    "left_thumb", "right_thumb", "left_hip", "right_hip", "left_knee", "right_knee",
    "left_ankle", "right_ankle", "left_heel", "right_heel", "left_foot_index",
    "right_foot_index"]

  /** The MediaPipe pose landmarks, in index order. */
  const LandmarkNames: seq<string> := HeadNames + TailNames

  /** The axis letters of the three keys written per landmark. */
  const Axes: string := "xyz"

  lemma LandmarkNamesDistinct()
    ensures |LandmarkNames| == 33
    ensures forall i, j | 0 <= i < j < |LandmarkNames| :: LandmarkNames[i] != LandmarkNames[j]
  {
    NamesDistinct(HeadNames);
    NamesDistinct(TailNames);
    HeadTailDisjoint();
    forall i, j | 0 <= i < j < |LandmarkNames| ensures LandmarkNames[i] != LandmarkNames[j] {
      if j < |HeadNames| {
        assert LandmarkNames[i] == HeadNames[i] && LandmarkNames[j] == HeadNames[j];
      } else if i < |HeadNames| {
        assert LandmarkNames[i] == HeadNames[i] && LandmarkNames[j] == TailNames[j - |HeadNames|];
        assert LandmarkNames[j] in TailNames;
      } else {
        assert LandmarkNames[i] == TailNames[i - |HeadNames|] && LandmarkNames[j] == TailNames[j - |HeadNames|];
      }
    }
  }

  /** Each half of the landmark list names each landmark once. */
  lemma NamesDistinct(names: seq<string>)
    requires names == HeadNames || names == TailNames
    ensures forall i, j | 0 <= i < j < |names| :: names[i] != names[j]
  {
  }

  lemma HeadTailDisjoint()
    ensures forall i | 0 <= i < |HeadNames| :: HeadNames[i] !in TailNames
  {
  }

  /** One coordinate of a landmark record as the converter finds it: missing,
      present but not convertible to a float, or a number.  Visibility is
      never read, so it is not part of the record. */
  datatype Field = Absent | Unreadable | Num(v: real)

  datatype RawLandmark = RawLandmark(x: Field, y: Field, z: Field)

  /** Whether converting the record raises inside the `try`: `x` and `y` must
      be numbers, and `z` may be missing but not unreadable. */
  predicate Readable(lm: RawLandmark)
  {
    lm.x.Num? && lm.y.Num? && !lm.z.Unreadable?
  }

  /** The coordinates kept for one record, zeros when conversion fails. */
  function Read(lm: RawLandmark): (p: Point)
    ensures !Readable(lm) ==> p == Point(0.0, 0.0, 0.0)
    ensures Readable(lm) ==> p.x == lm.x.v && p.y == lm.y.v
    ensures lm.z.Absent? ==> p.z == 0.0
  {
    if Readable(lm) then Point(lm.x.v, lm.y.v, if lm.z.Num? then lm.z.v else 0.0)
    else Point(0.0, 0.0, 0.0)
  }

  /** The coordinates written for landmark `i`: zeros past the end of the input. */
  function LandmarkAt(landmarks: seq<RawLandmark>, i: nat): (p: Point)
    ensures i >= |landmarks| ==> p == Point(0.0, 0.0, 0.0)
  {
    if i < |landmarks| then Read(landmarks[i]) else Point(0.0, 0.0, 0.0)
  }

  /** The key of coordinate `axis` of landmark `i`. */
  function Key(i: nat, axis: nat): (k: string)
    requires i < |LandmarkNames| && axis < 3
    ensures |k| == |LandmarkNames[i]| + 2
    ensures k[..|LandmarkNames[i]|] == LandmarkNames[i]
    ensures k[|k| - 1] == Axes[axis]
  {
    LandmarkNames[i] + ['_', Axes[axis]]
  }

  /** Entry `k` of the table: landmark `k / 3`, axis `k % 3`. */
  function Entry(landmarks: seq<RawLandmark>, k: nat): (string, real)
    requires k < 3 * |LandmarkNames|
  {
    (Key(k / 3, k % 3), Coord(LandmarkAt(landmarks, k / 3), k % 3))
  }

  /** `convert_landmarks_to_flat`: nothing for a missing landmark list,
      otherwise three entries for each of the 33 names, in name order. */
  function ConvertLandmarksToFlat(landmarks: Option<seq<RawLandmark>>): (out: seq<(string, real)>)
    ensures landmarks.None? <==> out == []
    ensures landmarks.Some? ==> |out| == 99
    ensures forall k | 0 <= k < |out| :: out[k].0 == Key(k / 3, k % 3)
  {
    LandmarkNamesDistinct();
    if landmarks.None? then []
    else seq(3 * |LandmarkNames|, k requires 0 <= k < 3 * |LandmarkNames| => Entry(landmarks.value, k))
  }

  /** The value stored under `key`, looked up as a dict would. */
  function Lookup(table: seq<(string, real)>, key: string): (r: Option<real>)
    ensures r.None? <==> forall k | 0 <= k < |table| :: table[k].0 != key
  {
    if |table| == 0 then None
    else if table[|table| - 1].0 == key then Some(table[|table| - 1].1)
    else Lookup(table[..|table| - 1], key)
  }

  /** Distinct landmarks and axes give distinct keys. */
  lemma KeysDistinct(i: nat, a: nat, j: nat, b: nat)
    requires i < |LandmarkNames| && a < 3 && j < |LandmarkNames| && b < 3
    requires i != j || a != b
    ensures Key(i, a) != Key(j, b)
  {
    LandmarkNamesDistinct();
  }

  /** Keys of a table are pairwise distinct: every key is stored once. */
  lemma {:induction false} LookupUnique(table: seq<(string, real)>, k: nat)
    requires k < |table|
    requires forall m | 0 <= m < |table| && m != k :: table[m].0 != table[k].0
    ensures Lookup(table, table[k].0) == Some(table[k].1)
    decreases |table|
  {
    if k < |table| - 1 {
      var front := table[..|table| - 1];
      forall m | 0 <= m < |front| && m != k
        ensures front[m].0 != front[k].0
      {
        assert front[m] == table[m];
      }
      LookupUnique(front, k);
    }
  }

  /** Reading the flat table by key gives the coordinate of the named
      landmark: the read value when it converts, zeros when it does not or
      when the input is too short, and a missing `z` reads as zero. */
  lemma FlatTableByKey(landmarks: seq<RawLandmark>, i: nat, axis: nat)
    requires i < |LandmarkNames| && axis < 3
    ensures Lookup(ConvertLandmarksToFlat(Some(landmarks)), Key(i, axis))
         == Some(Coord(LandmarkAt(landmarks, i), axis))
    ensures i >= |landmarks| ==> Lookup(ConvertLandmarksToFlat(Some(landmarks)), Key(i, axis)) == Some(0.0)
    ensures i < |landmarks| && !Readable(landmarks[i])
         ==> Lookup(ConvertLandmarksToFlat(Some(landmarks)), Key(i, axis)) == Some(0.0)
    ensures i < |landmarks| && Readable(landmarks[i]) && axis == 0
         ==> Lookup(ConvertLandmarksToFlat(Some(landmarks)), Key(i, axis)) == Some(landmarks[i].x.v)
    ensures i < |landmarks| && Readable(landmarks[i]) && axis == 1
         ==> Lookup(ConvertLandmarksToFlat(Some(landmarks)), Key(i, axis)) == Some(landmarks[i].y.v)
    ensures i < |landmarks| && landmarks[i].z.Absent? && axis == 2
         ==> Lookup(ConvertLandmarksToFlat(Some(landmarks)), Key(i, axis)) == Some(0.0)
  {
    var out := ConvertLandmarksToFlat(Some(landmarks));
    var k := 3 * i + axis;
    assert k / 3 == i && k % 3 == axis;
    assert out[k] == Entry(landmarks, k);
    forall m | 0 <= m < |out| && m != k
      ensures out[m].0 != out[k].0
    {
      KeysDistinct(m / 3, m % 3, i, axis);
    }
    LookupUnique(out, k);
  }

  /** Landmarks past the 33rd never reach the table. */
  lemma ExtraLandmarksIgnored(landmarks: seq<RawLandmark>)
    requires |landmarks| > |LandmarkNames|
    ensures ConvertLandmarksToFlat(Some(landmarks))
         == ConvertLandmarksToFlat(Some(landmarks[..|LandmarkNames|]))
  {
    var a := ConvertLandmarksToFlat(Some(landmarks));
    var b := ConvertLandmarksToFlat(Some(landmarks[..|LandmarkNames|]));
    forall k | 0 <= k < |a|
      ensures a[k] == b[k]
    {
      assert a[k] == Entry(landmarks, k);
      assert b[k] == Entry(landmarks[..|LandmarkNames|], k);
    }
  }
}
