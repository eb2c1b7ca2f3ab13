/** The pose classifier of src/back-end/pose_model.py: a flat joint table is
    turned into a vector in sorted-key order, then labelled either by a
    trained model (an opaque probability function here) or by a dispersion
    heuristic over the even and odd positions of the vector. */
module PoseClassifier {
  import opened Basics
  import opened Landmarks

  /** Python's string order: code point by code point, a proper prefix first. */
  predicate Less(a: string, b: string)
  {
    if |b| == 0 then false
    else if |a| == 0 then true
    else if a[0] != b[0] then a[0] < b[0]
    else Less(a[1..], b[1..])
  }

  lemma {:induction false} LessIrreflexive(a: string)
    ensures !Less(a, a)
  {
    if |a| > 0 {
      LessIrreflexive(a[1..]);
    }
  }

  lemma {:induction false} LessTransitive(a: string, b: string, c: string)
    requires Less(a, b) && Less(b, c)
    ensures Less(a, c)
  {
    if |a| > 0 && a[0] == b[0] && b[0] == c[0] {
      LessTransitive(a[1..], b[1..], c[1..]);
    }
  }

  lemma {:induction false} LessTotal(a: string, b: string)
    requires a != b
    ensures Less(a, b) || Less(b, a)
  {
    if |a| > 0 && |b| > 0 && a[0] == b[0] {
      assert a == [a[0]] + a[1..] && b == [b[0]] + b[1..];
      LessTotal(a[1..], b[1..]);
    }
  }

  type Joints = seq<(string, real)>

  /** Keys strictly increasing: sorted, and every key once. */
  predicate SortedByKey(s: Joints)
  {
    forall i, j | 0 <= i < j < |s| :: Less(s[i].0, s[j].0)
  }

  predicate KeysDistinct(s: Joints)
  {
    forall i, j | 0 <= i < j < |s| :: s[i].0 != s[j].0
  }

  /** Insert one entry into a key-sorted table. */
  function Insert(e: (string, real), s: Joints): (r: Joints)
    requires SortedByKey(s)
    requires forall k | 0 <= k < |s| :: s[k].0 != e.0
    ensures SortedByKey(r)
    ensures multiset(r) == multiset(s) + multiset{e}
    ensures |r| == |s| + 1
    ensures forall k | 0 <= k < |r| :: r[k] == e || r[k] in s
  {
    if |s| == 0 then [e]
    else if Less(e.0, s[0].0) then
      assert forall k | 0 < k < |s| :: Less(e.0, s[k].0) by {
        forall k | 0 < k < |s| ensures Less(e.0, s[k].0) {
          LessTransitive(e.0, s[0].0, s[k].0);
        }
      }
      [e] + s
    else
      LessTotal(e.0, s[0].0);
      TailSorted(s);
      var rest := Insert(e, s[1..]);
      ConsSorted(s, e, rest);
      [s[0]] + rest
  }

  lemma TailSorted(s: Joints)
    requires SortedByKey(s) && |s| > 0
    ensures SortedByKey(s[1..])
  {
    var tail := s[1..];
    forall i, j | 0 <= i < j < |tail| ensures Less(tail[i].0, tail[j].0) {
      assert tail[i] == s[i + 1] && tail[j] == s[j + 1];
    }
  }

  /** Putting the head back in front of the insertion into the tail. */
  lemma ConsSorted(s: Joints, e: (string, real), rest: Joints)
    requires SortedByKey(s) && |s| > 0 && Less(s[0].0, e.0)
    requires SortedByKey(rest)
    requires forall k | 0 <= k < |rest| :: rest[k] == e || rest[k] in s[1..]
    requires multiset(rest) == multiset(s[1..]) + multiset{e}
    ensures SortedByKey([s[0]] + rest)
    ensures multiset([s[0]] + rest) == multiset(s) + multiset{e}
    ensures forall k | 0 <= k < |[s[0]] + rest| :: ([s[0]] + rest)[k] == e || ([s[0]] + rest)[k] in s
  {
    var tail := s[1..];
    assert s == [s[0]] + tail;
    assert forall k | 0 <= k < |rest| :: Less(s[0].0, rest[k].0) by {
      forall k | 0 <= k < |rest| ensures Less(s[0].0, rest[k].0) {
        if rest[k] != e {
          var j :| 0 <= j < |tail| && tail[j] == rest[k];
          assert tail[j] == s[j + 1];
        }
      }
    }
    var r := [s[0]] + rest;
    forall i, j | 0 <= i < j < |r| ensures Less(r[i].0, r[j].0) {
      assert r[j] == rest[j - 1];
      if i > 0 {
        assert r[i] == rest[i - 1];
      }
    }
    assert multiset(r) == multiset{s[0]} + multiset(rest);
    forall k | 0 <= k < |r| ensures r[k] == e || r[k] in s {
      if k > 0 {
        assert r[k] == rest[k - 1];
      }
    }
  }

  /** `sorted(joints.keys())` paired with the values: the table in key order. */
  function SortByKey(s: Joints): (r: Joints)
    requires KeysDistinct(s)
    ensures SortedByKey(r)
    ensures multiset(r) == multiset(s)
    ensures |r| == |s|
  {
    if |s| == 0 then []
    else
      FrontDistinct(s);
      var sorted := SortByKey(s[..|s| - 1]);
      LastKeyIsNew(s, sorted);
      Insert(s[|s| - 1], sorted)
  }

  lemma FrontDistinct(s: Joints)
    requires KeysDistinct(s) && |s| > 0
    ensures KeysDistinct(s[..|s| - 1])
  {
    var front := s[..|s| - 1];
    forall i, j | 0 <= i < j < |front| ensures front[i].0 != front[j].0 {
      assert front[i] == s[i] && front[j] == s[j];
    }
  }

  /** The last key of a table with distinct keys is in no arrangement of the others. */
  lemma LastKeyIsNew(s: Joints, sorted: Joints)
    requires KeysDistinct(s) && |s| > 0
    requires multiset(sorted) == multiset(s[..|s| - 1])
    ensures forall k | 0 <= k < |sorted| :: sorted[k].0 != s[|s| - 1].0
    ensures multiset(sorted) + multiset{s[|s| - 1]} == multiset(s)
  {
    var front := s[..|s| - 1];
    var last := s[|s| - 1];
    forall k | 0 <= k < |sorted| ensures sorted[k].0 != last.0 {
      assert sorted[k] in multiset(front);
      var j :| 0 <= j < |front| && front[j] == sorted[k];
      assert front[j] == s[j];
    }
    assert s == front + [last];
  }

  function Values(s: Joints): (r: seq<real>)
    ensures |r| == |s|
    ensures forall k | 0 <= k < |s| :: r[k] == s[k].1
  {
    if |s| == 0 then [] else Values(s[..|s| - 1]) + [s[|s| - 1].1]
  }

  /** `_vector_from_joints`: the values in sorted-key order, one per key. */
  function VectorFromJoints(joints: Joints): (r: seq<real>)
    requires KeysDistinct(joints)
    ensures |r| == |joints|
    ensures multiset(r) == multiset(Values(joints))
  {
    var sorted := SortByKey(joints);
    ValuesPermute(sorted, joints);
    Values(sorted)
  }

  lemma {:induction false} ValuesPermute(a: Joints, b: Joints)
    requires multiset(a) == multiset(b)
    ensures multiset(Values(a)) == multiset(Values(b))
    decreases |a|
  {
    if |a| > 0 {
      var x := a[|a| - 1];
      assert x in multiset(b);
      var i :| 0 <= i < |b| && b[i] == x;
      var b' := b[..i] + b[i + 1..];
      assert b == b[..i] + [x] + b[i + 1..];
      assert a == a[..|a| - 1] + [x];
      assert multiset(b) == multiset(b[..i]) + multiset{x} + multiset(b[i + 1..]);
      assert multiset(a) == multiset(a[..|a| - 1]) + multiset{x};
      assert multiset(b') == multiset(b[..i]) + multiset(b[i + 1..]);
      assert multiset(a[..|a| - 1]) == multiset(a) - multiset{x};
      assert multiset(b') == multiset(b) - multiset{x};
      ValuesPermute(a[..|a| - 1], b');
      ValuesSplit(b[..i], x, b[i + 1..]);
      assert Values(a) == Values(a[..|a| - 1]) + [x.1];
    }
  }

  lemma ValuesSplit(l: Joints, x: (string, real), r: Joints)
    ensures multiset(Values(l + [x] + r)) == multiset(Values(l + r)) + multiset{x.1}
  {
    ValuesConcat(l + [x], r);
    ValuesConcat(l, [x]);
    ValuesConcat(l, r);
  }

  lemma ValuesConcat(l: Joints, r: Joints)
    ensures Values(l + r) == Values(l) + Values(r)
  {
    var v := Values(l + r);
    var w := Values(l) + Values(r);
    forall k | 0 <= k < |v|
      ensures v[k] == w[k]
    {
      if k < |l| {
        assert (l + r)[k] == l[k];
      } else {
        assert (l + r)[k] == r[k - |l|];
      }
    }
  }

  /** The vector lists the values of the table arranged by key: any key-sorted
      arrangement of the entries gives exactly the vector. */
  lemma VectorIsSortedValues(joints: Joints, s: Joints)
    requires KeysDistinct(joints) && SortedByKey(s) && multiset(s) == multiset(joints)
    ensures VectorFromJoints(joints) == Values(s)
  {
    SortedUnique(SortByKey(joints), s);
  }

  /** Two key-sorted tables holding the same entries are the same table. */
  lemma {:induction false} SortedUnique(a: Joints, b: Joints)
    requires SortedByKey(a) && SortedByKey(b)
    requires multiset(a) == multiset(b)
    ensures a == b
    decreases |a|
  {
    if |a| > 0 {
      SortedHeadsAgree(a, b);
      DropHead(a);
      DropHead(b);
      SortedUnique(a[1..], b[1..]);
      assert a == [a[0]] + a[1..] && b == [b[0]] + b[1..];
    }
  }

  /** The smallest key of a sorted table is determined by its entries. */
  lemma SortedHeadsAgree(a: Joints, b: Joints)
    requires SortedByKey(a) && SortedByKey(b)
    requires multiset(a) == multiset(b) && |a| > 0
    ensures |b| > 0 && a[0] == b[0]
  {
    assert a[0] in multiset(b);
    assert b[0] in multiset(a);
    var i :| 0 <= i < |b| && b[i] == a[0];
    var j :| 0 <= j < |a| && a[j] == b[0];
    if i > 0 && j > 0 {
      LessTransitive(a[0].0, b[0].0, a[0].0);
      LessIrreflexive(a[0].0);
    } else if i > 0 {
      LessIrreflexive(a[0].0);
    } else if j > 0 {
      LessIrreflexive(b[0].0);
    }
  }

  lemma SortedDistinct(s: Joints)
    requires SortedByKey(s)
    ensures KeysDistinct(s)
  {
    forall i, j | 0 <= i < j < |s|
      ensures s[i].0 != s[j].0
    {
      LessIrreflexive(s[i].0);
    }
  }

  lemma DropHead(a: Joints)
    requires |a| > 0
    ensures SortedByKey(a) ==> SortedByKey(a[1..])
    ensures multiset(a[1..]) == multiset(a) - multiset{a[0]}
  {
    assert a == [a[0]] + a[1..];
    assert multiset(a) == multiset{a[0]} + multiset(a[1..]);
  }

  /** The vector depends only on the joint table, not on the order in which
      its keys were inserted. */
  lemma VectorIgnoresInsertionOrder(a: Joints, b: Joints)
    requires KeysDistinct(a) && KeysDistinct(b)
    requires multiset(a) == multiset(b)
    ensures VectorFromJoints(a) == VectorFromJoints(b)
  {
    SortedUnique(SortByKey(a), SortByKey(b));
  }

  /** Positions `i % 2 == 0` (`parity == 0`) or `i % 2 == 1` of a vector. */
  function Positions(v: seq<real>, parity: nat): (r: seq<real>)
    requires parity < 2
    ensures |r| == (|v| + 1 - parity) / 2
    ensures forall k | 0 <= k < |r| :: 2 * k + parity < |v| && r[k] == v[2 * k + parity]
  {
    if |v| <= parity then []
    else if |v| <= parity + 1 then [v[parity]]
    else [v[parity]] + Positions(v[2..], parity)
  }

  datatype Label = Good | Bad

  datatype Prediction = Prediction(verdict: Label, score: real)

  function AbsAll(s: seq<real>): (r: seq<real>)
    ensures |r| == |s|
    ensures forall k | 0 <= k < |s| :: r[k] == Abs(s[k])
  {
    if |s| == 0 then [] else AbsAll(s[..|s| - 1]) + [Abs(s[|s| - 1])]
  }

  /** The mean magnitude of all coordinates, which is zero only when every coordinate is. */
  function MeanMagnitude(xs: seq<real>, ys: seq<real>): (r: real)
    requires |xs| + |ys| > 0
    ensures r >= 0.0
    ensures r == 0.0 <==> AllZero(xs) && AllZero(ys)
  {
    MagnitudeZero(xs);
    MagnitudeZero(ys);
    var total := Sum(AbsAll(xs)) + Sum(AbsAll(ys));
    QuotientZero(total, (|xs| + |ys|) as real);
    total / (|xs| + |ys|) as real
  }

  predicate AllZero(s: seq<real>)
  {
    forall k | 0 <= k < |s| :: s[k] == 0.0
  }

  lemma QuotientZero(a: real, n: real)
    requires a >= 0.0 && n > 0.0
    ensures a / n >= 0.0
    ensures a / n == 0.0 <==> a == 0.0
  {
    var q := a / n;
    assert q * n == a;
  }

  lemma MagnitudeZero(s: seq<real>)
    ensures Sum(AbsAll(s)) >= 0.0
    ensures Sum(AbsAll(s)) == 0.0 <==> AllZero(s)
  {
    var m := AbsAll(s);
    assert AllNonNeg(m);
    SumNonNeg(m);
    AllZeroIffSumZero(m);
    assert AllZero(s) <==> AllZero(m);
  }

  /** A sum of non-negative terms vanishes exactly when every term does. */
  lemma {:induction false} AllZeroIffSumZero(s: seq<real>)
    requires AllNonNeg(s)
    ensures Sum(s) == 0.0 <==> AllZero(s)
    decreases |s|
  {
    if |s| > 0 {
      var front := s[..|s| - 1];
      assert AllNonNeg(front) by {
        forall k | 0 <= k < |front| ensures front[k] >= 0.0 {
          assert front[k] == s[k];
        }
      }
      AllZeroIffSumZero(front);
      SumNonNeg(front);
      assert s == front + [s[|s| - 1]];
      SumAppend(front, [s[|s| - 1]]);
      assert Sum([s[|s| - 1]]) == s[|s| - 1];
      if Sum(s) == 0.0 {
        forall k | 0 <= k < |s| ensures s[k] == 0.0 {
          if k < |front| {
            assert s[k] == front[k];
          }
        }
      }
    }
  }

  /** The heuristic score and label. */
  function Heuristic(vec: seq<real>, sqrt: real -> real): (p: Prediction)
    requires IsSqrt(sqrt)
    ensures 0.0 <= p.score <= 1.0
    ensures p.verdict == Good <==> p.score >= 0.35
    ensures |vec| < 2 ==> p == Prediction(Bad, 0.0)
    ensures AllZero(vec) ==> p == Prediction(Bad, 0.0)
  {
    var xs := Positions(vec, 0);
    var ys := Positions(vec, 1);
    if |xs| == 0 || |ys| == 0 then Prediction(Bad, 0.0)
    else
      assert AllZero(vec) ==> AllZero(xs) && AllZero(ys);
      var score := SpreadScore(xs, ys, sqrt);
      Prediction(if score >= 0.35 then Good else Bad, score)
  }

  /** The heuristic's score: the mean spread of the two coordinate groups
      relative to their mean magnitude, doubled and clamped to [0, 1]; 0 when
      every coordinate is 0. */
  function SpreadScore(xs: seq<real>, ys: seq<real>, sqrt: real -> real): (score: real)
    requires IsSqrt(sqrt) && |xs| > 0 && |ys| > 0
    ensures 0.0 <= score <= 1.0
    ensures AllZero(xs) && AllZero(ys) ==> score == 0.0
  {
    var meanMag := MeanMagnitude(xs, ys);
    if meanMag == 0.0 then 0.0
    else Max(0.0, Min(1.0, (Std(xs, sqrt) + Std(ys, sqrt)) / 2.0 / meanMag * 2.0))
  }

  /** `predict_from_joints`: the trained model's probability of a good pose
      when the learning libraries are present and a model is loaded,
      otherwise the heuristic. */
  function PredictFromJoints(hasMl: bool, loaded: bool, model: seq<real> -> real, joints: Joints,
                             sqrt: real -> real): (p: Prediction)
    requires KeysDistinct(joints) && IsSqrt(sqrt)
    ensures hasMl && loaded ==> p.score == model(VectorFromJoints(joints))
    ensures hasMl && loaded ==> (p.verdict == Good <==> p.score >= 0.5)
    ensures !(hasMl && loaded) ==> (p.verdict == Good <==> p.score >= 0.35) && 0.0 <= p.score <= 1.0
    ensures !(hasMl && loaded) && |joints| < 2 ==> p == Prediction(Bad, 0.0)
  {
    var vec := VectorFromJoints(joints);
    if hasMl && loaded then
      var prob := model(vec);
      Prediction(if prob >= 0.5 then Good else Bad, prob)
    else
      Heuristic(vec, sqrt)
  }

  /** Appending different characters to one prefix orders by those characters. */
  lemma {:induction false} LessAfterPrefix(p: string, a: char, b: char)
    requires a < b
    ensures Less(p + [a], p + [b])
    decreases |p|
  {
    if |p| > 0 {
      assert (p + [a])[1..] == p[1..] + [a];
      assert (p + [b])[1..] == p[1..] + [b];
      LessAfterPrefix(p[1..], a, b);
    }
  }

  /** The three keys of one landmark, in the order the flattener writes them, are already sorted. */
  lemma OneLandmarkSorted(name: string, x: real, y: real, z: real)
    ensures SortedByKey([(name + "_x", x), (name + "_y", y), (name + "_z", z)])
  {
    assert name + "_x" == (name + "_") + ['x'];
    assert name + "_y" == (name + "_") + ['y'];
    assert name + "_z" == (name + "_") + ['z'];
    LessAfterPrefix(name + "_", 'x', 'y');
    LessAfterPrefix(name + "_", 'y', 'z');
    LessAfterPrefix(name + "_", 'x', 'z');
  }

  /** The even/odd split is by sorted position, not by axis: for the three
      keys of one landmark, `z` lands among the "x" coordinates. */
  lemma ParityMixesAxes(name: string, x: real, y: real, z: real)
    ensures var joints := [(name + "_x", x), (name + "_y", y), (name + "_z", z)];
            KeysDistinct(joints) && VectorFromJoints(joints) == [x, y, z] &&
            Positions([x, y, z], 0) == [x, z] && Positions([x, y, z], 1) == [y]
  {
    var joints := [(name + "_x", x), (name + "_y", y), (name + "_z", z)];
    OneLandmarkSorted(name, x, y, z);
    SortedDistinct(joints);
    SortedUnique(SortByKey(joints), joints);
    ValuesOfThree(joints);
    PositionsOfThree(x, y, z);
  }

  lemma ValuesOfThree(joints: Joints)
    requires |joints| == 3
    ensures Values(joints) == [joints[0].1, joints[1].1, joints[2].1]
  {
  }

  lemma PositionsOfThree(x: real, y: real, z: real)
    ensures Positions([x, y, z], 0) == [x, z] && Positions([x, y, z], 1) == [y]
  {
  }
}
