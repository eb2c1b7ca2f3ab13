/** Shared vocabulary of the scoring engine: optional values, error results and
    the handful of real-number helpers (Python's `max`, `min`, `abs`, `sum`,
    arithmetic mean and a capped FIFO append) every scorer is built from. */
module Basics {

  /** A value that may be absent (Python `None`). */
  datatype Option<+T> = None | Some(value: T) {
    /** The value, or `default` when absent (Python's `d.get(k, default)`). */
    function GetOr(default: T): T {
      match this
      case Some(v) => v
      case None => default
    }
  }

  /** The outcome of an operation that can raise: `Err` carries what the
      caller sees instead of a value. */
  datatype Result<+T> = Ok(value: T) | Err(error: string)

  function Max(a: real, b: real): (r: real)
    ensures r >= a && r >= b
    ensures r == a || r == b
  {
    if a >= b then a else b
  }

  function Min(a: real, b: real): (r: real)
    ensures r <= a && r <= b
    ensures r == a || r == b
  {
    if a <= b then a else b
  }

  function Abs(x: real): (r: real)
    ensures r >= 0.0
    ensures r == x || r == -x
  {
    if x < 0.0 then -x else x
  }

  /** Python's `max(lo, min(hi, x))`, the clamp every scorer ends with. */
  function Clamp(lo: real, hi: real, x: real): (r: real)
    ensures lo <= hi ==> lo <= r <= hi
    ensures lo <= x <= hi ==> r == x
    ensures x < lo ==> r == lo
    ensures lo <= hi && x > hi ==> r == hi
  {
    Max(lo, Min(hi, x))
  }

  function MinNat(a: nat, b: nat): (r: nat)
    ensures r <= a && r <= b
    ensures r == a || r == b
  {
    if a <= b then a else b
  }

  /** Sum of a sequence, peeled from the back so appends are cheap to reason about. */
  function Sum(s: seq<real>): real
  {
    if |s| == 0 then 0.0 else Sum(s[..|s| - 1]) + s[|s| - 1]
  }

  /** Arithmetic mean (numpy `mean` / `sum(x) / len(x)`); the source never takes it of an empty list. */
  function Mean(s: seq<real>): real
    requires |s| > 0
  {
    Sum(s) / (|s| as real)
  }

  predicate AllIn(s: seq<real>, lo: real, hi: real)
  {
    forall i :: 0 <= i < |s| ==> lo <= s[i] <= hi
  }

  predicate AllNonNeg(s: seq<real>)
  {
    forall i :: 0 <= i < |s| ==> s[i] >= 0.0
  }

  lemma {:induction false} SumAppend(a: seq<real>, b: seq<real>)
    ensures Sum(a + b) == Sum(a) + Sum(b)
    decreases |b|
  {
    if |b| == 0 {
      assert a + b == a;
    } else {
      var b' := b[..|b| - 1];
      assert (a + b)[..|a + b| - 1] == a + b';
      SumAppend(a, b');
    }
  }

  lemma {:induction false} SumBounds(s: seq<real>, lo: real, hi: real)
    requires AllIn(s, lo, hi)
    ensures (|s| as real) * lo <= Sum(s) <= (|s| as real) * hi
    decreases |s|
  {
    if |s| > 0 {
      var m := |s| - 1;
      var n := m as real;
      SumBounds(s[..m], lo, hi);
      assert AllIn(s[..m], lo, hi);
      assert lo <= s[m] <= hi;
      assert Sum(s) == Sum(s[..m]) + s[m];
      assert |s| as real == n + 1.0;
      MulSucc(n, lo);
      MulSucc(n, hi);
      assert (|s| as real) * lo == n * lo + lo;
      assert (|s| as real) * hi == n * hi + hi;
    } else {
      assert Sum(s) == 0.0;
      assert (|s| as real) * lo == 0.0 == (|s| as real) * hi;
    }
  }

  lemma MulSucc(n: real, x: real)
    ensures (n + 1.0) * x == n * x + x
  {
  }

  lemma MeanBounds(s: seq<real>, lo: real, hi: real)
    requires |s| > 0
    requires AllIn(s, lo, hi)
    ensures lo <= Mean(s) <= hi
  {
    SumBounds(s, lo, hi);
    var n := |s| as real;
    assert Sum(s) / n >= lo by {
      assert Sum(s) >= n * lo;
    }
    assert Sum(s) / n <= hi by {
      assert Sum(s) <= n * hi;
    }
  }

  lemma {:induction false} SumNonNeg(s: seq<real>)
    requires AllNonNeg(s)
    ensures Sum(s) >= 0.0
    decreases |s|
  {
    if |s| > 0 {
      SumNonNeg(s[..|s| - 1]);
    }
  }

  lemma MeanNonNeg(s: seq<real>)
    requires |s| > 0 && AllNonNeg(s)
    ensures Mean(s) >= 0.0
  {
    SumNonNeg(s);
  }

  /** Values bounded above by `hi` sum to `|s| * hi` only when every one of them is `hi`. */
  lemma {:induction false} SumAtCeiling(s: seq<real>, lo: real, hi: real)
    requires AllIn(s, lo, hi)
    requires Sum(s) == (|s| as real) * hi
    ensures forall i :: 0 <= i < |s| ==> s[i] == hi
    decreases |s|
  {
    if |s| > 0 {
      var init := s[..|s| - 1];
      assert AllIn(init, lo, hi);
      SumBounds(init, lo, hi);
      assert (|s| as real) * hi == (|init| as real) * hi + hi;
      SumAtCeiling(init, lo, hi);
      forall i | 0 <= i < |s|
        ensures s[i] == hi
      {
        if i < |init| {
          assert s[i] == init[i];
        }
      }
    }
  }

  /** Values bounded below by `lo` sum to `|s| * lo` only when every one of them is `lo`. */
  lemma {:induction false} SumAtFloor(s: seq<real>, lo: real, hi: real)
    requires AllIn(s, lo, hi)
    requires Sum(s) == (|s| as real) * lo
    ensures forall i :: 0 <= i < |s| ==> s[i] == lo
    decreases |s|
  {
    if |s| > 0 {
      var init := s[..|s| - 1];
      assert AllIn(init, lo, hi);
      SumBounds(init, lo, hi);
      assert (|s| as real) * lo == (|init| as real) * lo + lo;
      SumAtFloor(init, lo, hi);
      forall i | 0 <= i < |s|
        ensures s[i] == lo
      {
        if i < |init| {
          assert s[i] == init[i];
        }
      }
    }
  }

  /** The mean of values in `[lo, hi]` is `hi` exactly when all of them are `hi`. */
  lemma MeanAtCeiling(s: seq<real>, lo: real, hi: real)
    requires |s| > 0
    requires AllIn(s, lo, hi)
    ensures Mean(s) == hi <==> forall i :: 0 <= i < |s| ==> s[i] == hi
  {
    var n := |s| as real;
    if Mean(s) == hi {
      DivideBack(Sum(s), n, hi);
      SumAtCeiling(s, lo, hi);
    }
    if forall i :: 0 <= i < |s| ==> s[i] == hi {
      SumBounds(s, hi, hi);
      DivideExact(Sum(s), n, hi);
    }
  }

  /** The mean of values in `[lo, hi]` is `lo` exactly when all of them are `lo`. */
  lemma MeanAtFloor(s: seq<real>, lo: real, hi: real)
    requires |s| > 0
    requires AllIn(s, lo, hi)
    ensures Mean(s) == lo <==> forall i :: 0 <= i < |s| ==> s[i] == lo
  {
    var n := |s| as real;
    if Mean(s) == lo {
      DivideBack(Sum(s), n, lo);
      SumAtFloor(s, lo, hi);
    }
    if forall i :: 0 <= i < |s| ==> s[i] == lo {
      SumBounds(s, lo, lo);
      DivideExact(Sum(s), n, lo);
    }
  }

  lemma DivideExact(a: real, n: real, q: real)
    requires n > 0.0 && a == n * q
    ensures a / n == q
  {
  }

  lemma DivideBack(a: real, n: real, q: real)
    requires n > 0.0 && a / n == q
    ensures a == n * q
  {
  }

  /** `max` of a non-empty list. */
  function Largest(s: seq<real>): (r: real)
    requires |s| > 0
    ensures r in s
    ensures forall k | 0 <= k < |s| :: s[k] <= r
  {
    if |s| == 1 then s[0]
    else Max(Largest(s[..|s| - 1]), s[|s| - 1])
  }

  /** `min` of a non-empty list. */
  function Smallest(s: seq<real>): (r: real)
    requires |s| > 0
    ensures r in s
    ensures forall k | 0 <= k < |s| :: r <= s[k]
  {
    if |s| == 1 then s[0]
    else Min(Smallest(s[..|s| - 1]), s[|s| - 1])
  }

  /** The positive elements, in order (`a[a > 0]`). */
  function Positives(s: seq<real>): (r: seq<real>)
    ensures forall k :: 0 <= k < |r| ==> r[k] > 0.0 && r[k] in s
    ensures |r| == 0 <==> forall k :: 0 <= k < |s| ==> s[k] <= 0.0
  {
    if |s| == 0 then []
    else
      var rest := Positives(s[1..]);
      assert forall x :: x in s[1..] ==> x in s;
      assert forall k :: 1 <= k < |s| ==> s[k] == s[1..][k - 1];
      (if s[0] > 0.0 then [s[0]] else []) + rest
  }

  predicate InUnit(x: real)
  {
    0.0 <= x <= 1.0
  }

  /** How often `x` occurs in `s` (`s.count(x)`). */
  function Occurrences<T(==)>(s: seq<T>, x: T): (r: nat)
    ensures r <= |s|
  {
    if |s| == 0 then 0 else Occurrences(s[..|s| - 1], x) + (if s[|s| - 1] == x then 1 else 0)
  }

  /** `m` is the mean of `s`, or `s` is empty and `m` is 0. */
  predicate AverageOf(m: real, s: seq<real>)
  {
    m * |s| as real == Sum(s) && (|s| == 0 ==> m == 0.0)
  }

  /** An average of values within bounds lies within them. */
  lemma AverageBounds(m: real, s: seq<real>, lo: real, hi: real)
    requires AverageOf(m, s) && |s| > 0 && AllIn(s, lo, hi)
    ensures lo <= m <= hi
  {
    SumBounds(s, lo, hi);
    var n := |s| as real;
    assert (m - lo) * n == m * n - n * lo;
    assert (hi - m) * n == n * hi - m * n;
    PositiveFactor(m - lo, n);
    PositiveFactor(hi - m, n);
  }

  lemma PositiveFactor(x: real, n: real)
    requires n > 0.0 && x * n >= 0.0
    ensures x >= 0.0
  {
  }

  /** `sum(s) / len(s) if s else 0` (NumPy's `np.mean(s) if s else 0`). */
  function MeanOrZero(s: seq<real>): (r: real)
    ensures AverageOf(r, s)
    ensures AllNonNeg(s) ==> r >= 0.0
  {
    if |s| == 0 then 0.0
    else
      var m := Mean(s);
      DivideBack(Sum(s), |s| as real, m);
      if AllNonNeg(s) then MeanNonNeg(s); m else m
  }

  /** `s[-1] if s else 0`. */
  function LastOrZero(s: seq<real>): (r: real)
    ensures |s| == 0 ==> r == 0.0
    ensures |s| > 0 ==> r == s[|s| - 1]
  {
    if |s| == 0 then 0.0 else s[|s| - 1]
  }

  /** The values that are present, in order (a comprehension over the records having a key). */
  function Somes(s: seq<Option<real>>): (r: seq<real>)
    ensures |r| <= |s|
  {
    if |s| == 0 then []
    else Somes(s[..|s| - 1]) + (if s[|s| - 1].Some? then [s[|s| - 1].value] else [])
  }

  /** With every value present, nothing is dropped; with none, nothing is kept. */
  lemma {:induction false} SomesExtremes(s: seq<Option<real>>)
    ensures (forall k | 0 <= k < |s| :: s[k].Some?) ==> |Somes(s)| == |s| && forall k | 0 <= k < |s| :: Somes(s)[k] == s[k].value
    ensures (forall k | 0 <= k < |s| :: s[k].None?) ==> Somes(s) == []
  {
    if |s| > 0 {
      SomesExtremes(s[..|s| - 1]);
      assert forall k | 0 <= k < |s| - 1 :: s[..|s| - 1][k] == s[k];
    }
  }

  /** `r` is the fraction `count` makes of a positive `total`. */
  predicate ShareOf(r: real, count: nat, total: nat)
  {
    total > 0 ==> r * (total as real) == count as real
  }

  /** `count / max(1, total)`. */
  function Share(count: nat, total: nat): (r: real)
    requires count <= total
    ensures 0.0 <= r <= 1.0
    ensures r == 0.0 <==> count == 0
    ensures r == 1.0 <==> count == total && total > 0
    ensures ShareOf(r, count, total)
  {
    if total == 0 then 0.0
    else
      var r := count as real / total as real;
      DivideBack(count as real, total as real, r);
      FractionBounds(count as real, total as real, r);
      r
  }

  /** A quotient `c / n` with `0 <= c <= n` is a fraction, 0 or 1 exactly at the ends. */
  lemma FractionBounds(c: real, n: real, r: real)
    requires n > 0.0 && 0.0 <= c <= n && c == n * r
    ensures 0.0 <= r <= 1.0
    ensures r == 0.0 <==> c == 0.0
    ensures r == 1.0 <==> c == n
  {
    assert r * n == c;
    assert (1.0 - r) * n == n - c;
    PositiveFactor(r, n);
    PositiveFactor(1.0 - r, n);
    if c == 0.0 {
      ZeroFactor(r, n);
    }
    if c == n {
      assert (r - 1.0) * n == 0.0;
      ZeroFactor(r - 1.0, n);
    }
  }

  lemma ZeroFactor(x: real, n: real)
    requires n > 0.0 && x * n == 0.0
    ensures x == 0.0
  {
  }

  /** The last `k` elements (Python `s[-k:]` for `k <= len(s)`, else all of `s`). */
  function TakeLast<T>(s: seq<T>, k: nat): (r: seq<T>)
    ensures |r| == MinNat(|s|, k)
    ensures r == s[|s| - |r|..]
  {
    if |s| <= k then s else s[|s| - k..]
  }

  /** Append `x` and keep only the `cap` most recent entries: both
      `deque(maxlen=cap).append(x)` and `l.append(x); if len(l) > cap: l = l[-cap:]`. */
  function Push<T>(h: seq<T>, x: T, cap: nat): (r: seq<T>)
    requires cap > 0
    ensures |r| == MinNat(|h| + 1, cap)
    ensures |r| > 0 && r[|r| - 1] == x
    ensures r == (h + [x])[|h| + 1 - |r|..]
    ensures |h| < cap ==> r == h + [x]
  {
    TakeLast(h + [x], cap)
  }

  /** Pushing a non-negative value keeps a window non-negative. */
  lemma PushKeepsNonNeg(h: seq<real>, x: real, cap: nat)
    requires cap > 0 && AllNonNeg(h) && x >= 0.0
    ensures AllNonNeg(Push(h, x, cap))
  {
    var r := Push(h, x, cap);
    var all := h + [x];
    assert r == all[|all| - |r|..];
    forall k | 0 <= k < |r| ensures r[k] >= 0.0 {
      var j := |all| - |r| + k;
      assert r[k] == all[j];
      if j < |h| {
        assert all[j] == h[j];
      }
    }
  }

  lemma PushKeepsBound<T>(h: seq<T>, x: T, cap: nat)
    requires cap > 0
    requires |h| <= cap
    ensures |Push(h, x, cap)| <= cap
    ensures |h| == cap ==> Push(h, x, cap) == h[1..] + [x]
  {
    if |h| == cap {
      assert (h + [x])[1..] == h[1..] + [x];
    }
  }

  /** Number of `true` flags. */
  function CountTrue(flags: seq<bool>): (n: nat)
    ensures n <= |flags|
  {
    if |flags| == 0 then 0 else (if flags[0] then 1 else 0) + CountTrue(flags[1..])
  }

  /** All flags set exactly when the count is the length; none set exactly when it is 0. */
  lemma {:induction false} CountTrueExtremes(flags: seq<bool>)
    ensures CountTrue(flags) == |flags| <==> forall i :: 0 <= i < |flags| ==> flags[i]
    ensures CountTrue(flags) == 0 <==> forall i :: 0 <= i < |flags| ==> !flags[i]
    decreases |flags|
  {
    if |flags| > 0 {
      var tail := flags[1..];
      CountTrueExtremes(tail);
      assert forall i :: 1 <= i < |flags| ==> flags[i] == tail[i - 1];
    }
  }

  /** Appending one flag adds it to the count. */
  lemma {:induction false} CountTrueSnoc(flags: seq<bool>, b: bool)
    ensures CountTrue(flags + [b]) == CountTrue(flags) + (if b then 1 else 0)
    decreases |flags|
  {
    if |flags| > 0 {
      assert (flags + [b])[1..] == flags[1..] + [b];
      CountTrueSnoc(flags[1..], b);
    }
  }

  /** The items whose flag is set, in order: a run of independent `if c: out.append(x)`. */
  function Pick<T>(flags: seq<bool>, items: seq<T>): (r: seq<T>)
    requires |flags| == |items|
    ensures |r| == CountTrue(flags)
    ensures forall x :: x in r ==> x in items
  {
    if |items| == 0 then [] else (if flags[0] then [items[0]] else []) + Pick(flags[1..], items[1..])
  }

  /** With distinct items, an item is picked exactly when its flag is set. */
  lemma {:induction false} PickMember<T>(flags: seq<bool>, items: seq<T>, k: nat)
    requires |flags| == |items| && k < |items|
    requires forall i, j :: 0 <= i < j < |items| ==> items[i] != items[j]
    ensures items[k] in Pick(flags, items) <==> flags[k]
    decreases |items|
  {
    var tail := Pick(flags[1..], items[1..]);
    assert Pick(flags, items) == (if flags[0] then [items[0]] else []) + tail;
    if k > 0 {
      PickMember(flags[1..], items[1..], k - 1);
    }
  }

  /** Picking from one item keeps it exactly when its flag is set. */
  lemma PickOne<T>(a: bool, x: T)
    ensures Pick([a], [x]) == if a then [x] else []
  {
    assert [a][1..] == [] && [x][1..] == [];
  }

  /** Picking from three items, spelled out. */
  lemma PickThree<T>(a: bool, b: bool, c: bool, x: T, y: T, z: T)
    ensures Pick([a, b, c], [x, y, z]) == (if a then [x] else []) + (if b then [y] else []) + (if c then [z] else [])
  {
    PickOne(a, x);
    PickOne(b, y);
    PickOne(c, z);
    PickAppend([b], [y], [c], [z]);
    assert [b] + [c] == [b, c] && [y] + [z] == [y, z];
    PickAppend([a], [x], [b, c], [y, z]);
    assert [a] + [b, c] == [a, b, c] && [x] + [y, z] == [x, y, z];
  }

  /** Number of elements satisfying `p`. */
  function CountWhere<T>(s: seq<T>, p: T -> bool): (r: nat)
    ensures r <= |s|
  {
    if |s| == 0 then 0 else CountWhere(s[..|s| - 1], p) + (if p(s[|s| - 1]) then 1 else 0)
  }

  /** Picking from two concatenated lists picks from each in turn. */
  lemma {:induction false} PickAppend<T>(f: seq<bool>, x: seq<T>, g: seq<bool>, y: seq<T>)
    requires |f| == |x| && |g| == |y|
    ensures Pick(f + g, x + y) == Pick(f, x) + Pick(g, y)
    decreases |x|
  {
    if |x| > 0 {
      assert (f + g)[1..] == f[1..] + g && (x + y)[1..] == x[1..] + y;
      PickAppend(f[1..], x[1..], g, y);
    } else {
      assert f + g == g && x + y == y;
    }
  }
}
