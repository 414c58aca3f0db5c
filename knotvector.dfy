/**
  Knot-vector utilities for B-spline curves: generating an equally spaced knot vector, rescaling
  one to the unit interval, and checking the rule m = p + n + 1 together with ascending order.
  Knots are exact reals; degrees and control-point counts are unbounded integers, as in Python.
 */
module KnotVector {
  import opened Wrappers

  /** The exceptions the three utilities raise. */
  datatype KnotError =
    | ZeroInput           // `generate`: degree or number of control points is zero
    | NegativeSampleCount // `np.linspace` asked for a negative number of samples
    | EmptyArray          // `min()` of an empty array in `normalize`
    | EqualKnots          // `normalize`: all knot values are equal
    | EmptyKnotVector     // `check`: the knot vector cannot be empty

  // ---------------------------------------------------------------------------------------------
  // Building blocks

  /** `[x for _ in range(0, n)]`: n copies of x, none when n is not positive. */
  function Repeat(x: real, n: int): (r: seq<real>)
    ensures |r| == if n > 0 then n else 0
    ensures forall i :: 0 <= i < |r| ==> r[i] == x
  {
    if n <= 0 then [] else seq(n, _ => x)
  }

  /** `np.linspace(0.0, 1.0, k)`: k equally spaced samples of [0, 1]; a single sample is 0. */
  function Linspace(k: nat): (r: seq<real>)
    ensures |r| == k
  {
    if k == 1 then [0.0] else seq(k, i requires 0 <= i < k => i as real / (k - 1) as real)
  }

  /** Every knot is at least its predecessor: the condition the loop of `check` tests. */
  predicate NonDecreasing(s: seq<real>)
  {
    forall i :: 0 < i < |s| ==> s[i - 1] <= s[i]
  }

  /** Every knot is at most every later knot. */
  predicate Sorted(s: seq<real>)
  {
    forall i, j :: 0 <= i <= j < |s| ==> s[i] <= s[j]
  }

  /** No two knots are equal and every knot is below every later one. */
  predicate StrictlyIncreasing(s: seq<real>)
  {
    forall i, j :: 0 <= i < j < |s| ==> s[i] < s[j]
  }

  lemma DivMonotone(a: real, b: real, d: real)
    requires d > 0.0
    ensures a <= b <==> a / d <= b / d
    ensures a < b <==> a / d < b / d
  {
    assert a / d * d == a && b / d * d == b;
    if a / d <= b / d {
      assert a / d * d <= b / d * d;
    }
    if a / d < b / d {
      assert a / d * d < b / d * d;
    }
  }

  lemma DivUnit(a: real, d: real)
    requires d > 0.0
    ensures a / d == 0.0 <==> a == 0.0
    ensures a / d == 1.0 <==> a == d
  {
    assert a / d * d == a;
  }

  /** The samples start at 0, end at 1, lie in [0, 1] and strictly increase. */
  lemma LinspaceProperties(k: nat)
    ensures k >= 1 ==> Linspace(k)[0] == 0.0
    ensures k >= 2 ==> Linspace(k)[k - 1] == 1.0
    ensures forall i :: 0 <= i < k ==> 0.0 <= Linspace(k)[i] <= 1.0
    ensures StrictlyIncreasing(Linspace(k))
  {
    var r := Linspace(k);
    if k >= 2 {
      var d := (k - 1) as real;
      forall i | 0 <= i < k
        ensures 0.0 <= r[i] <= 1.0
      {
        DivMonotone(0.0, i as real, d);
        DivMonotone(i as real, d, d);
        DivUnit(d, d);
      }
      forall i, j | 0 <= i < j < k
        ensures r[i] < r[j]
      {
        DivMonotone(i as real, j as real, d);
      }
      DivUnit(d, d);
    }
  }

  /** The samples are equally spaced: consecutive samples lie 1/(k - 1) apart. */
  lemma LinspaceEquallySpaced(k: nat, i: nat)
    requires k >= 2 && i + 1 < k
    ensures Linspace(k)[i + 1] - Linspace(k)[i] == 1.0 / (k - 1) as real
  {
    var d := (k - 1) as real;
    assert Linspace(k)[i] == i as real / d;
    assert Linspace(k)[i + 1] == (i + 1) as real / d;
    assert (i + 1) as real / d - i as real / d == ((i + 1) as real - i as real) / d;
  }

  lemma SortedIsNonDecreasing(s: seq<real>)
    requires Sorted(s)
    ensures NonDecreasing(s)
  {
    forall i | 0 < i < |s|
      ensures s[i - 1] <= s[i]
    {
      assert 0 <= i - 1 <= i < |s|;
    }
  }

  /** Adjacent order is enough: a non-decreasing vector is sorted. */
  lemma {:induction false} NonDecreasingIsSorted(s: seq<real>)
    requires NonDecreasing(s)
    ensures Sorted(s)
  {
    forall i, j | 0 <= i <= j < |s|
      ensures s[i] <= s[j]
    {
      Chain(s, i, j);
    }
  }

  lemma {:induction false} Chain(s: seq<real>, i: nat, j: nat)
    requires NonDecreasing(s)
    requires i <= j < |s|
    ensures s[i] <= s[j]
    decreases j - i
  {
    if i < j {
      Chain(s, i, j - 1);
      assert s[j - 1] <= s[j];
    }
  }

  /** The two readings of "ascending" agree. */
  lemma NonDecreasingIffSorted(s: seq<real>)
    ensures NonDecreasing(s) <==> Sorted(s)
  {
    if NonDecreasing(s) {
      NonDecreasingIsSorted(s);
    }
    if Sorted(s) {
      SortedIsNonDecreasing(s);
    }
  }

  // ---------------------------------------------------------------------------------------------
  // generate

  /** The number of samples `generate` asks `np.linspace` for: `num_segments + 2`. */
  function SampleCount(degree: int, numCtrlpts: int, clamped: bool): int
  {
    if clamped then numCtrlpts - (degree + 1) + 2 else degree + numCtrlpts - 1 + 2
  }

  /**
    `generate(degree, num_ctrlpts, clamped)`: `degree` zeros, the samples of [0, 1] and `degree`
    ones when clamped; only the samples when not. As in the source, `clamped` defaults to true.
   */
  function Generate(degree: int, numCtrlpts: int, clamped: bool := true): Result<seq<real>, KnotError>
  {
    if degree == 0 || numCtrlpts == 0 then Failure(ZeroInput)
    else
      var numRepeat := if clamped then degree else 0;
      var count := SampleCount(degree, numCtrlpts, clamped);
      if count < 0 then Failure(NegativeSampleCount)
      else Success(Repeat(0.0, numRepeat) + Linspace(count) + Repeat(1.0, numRepeat))
  }

  /** The error cases, both directions: zero input first, then a negative sample count. */
  lemma GenerateErrors(degree: int, numCtrlpts: int, clamped: bool)
    ensures Generate(degree, numCtrlpts, clamped) == Failure(ZeroInput) <==>
      degree == 0 || numCtrlpts == 0
    ensures Generate(degree, numCtrlpts, clamped) == Failure(NegativeSampleCount) <==>
      degree != 0 && numCtrlpts != 0 && SampleCount(degree, numCtrlpts, clamped) < 0
    ensures Generate(degree, numCtrlpts, clamped).Success? <==>
      degree != 0 && numCtrlpts != 0 && SampleCount(degree, numCtrlpts, clamped) >= 0
  {
  }

  /** m + 1 = p + n + 1 knots, except for a clamped vector of negative degree (no repeats then). */
  lemma GenerateLength(degree: int, numCtrlpts: int, clamped: bool)
    requires Generate(degree, numCtrlpts, clamped).Success?
    ensures clamped && degree < 0 ==>
      |Generate(degree, numCtrlpts, clamped).value| == numCtrlpts - degree + 1
    ensures !clamped || degree > 0 ==>
      |Generate(degree, numCtrlpts, clamped).value| == degree + numCtrlpts + 1
  {
  }

  /**
    The knots between the repeated end knots are equally spaced: the k samples of [0, 1] start
    after the r leading zeros, and consecutive ones lie 1/(k - 1) apart.
   */
  lemma GenerateEquallySpaced(degree: int, numCtrlpts: int, clamped: bool)
    requires Generate(degree, numCtrlpts, clamped).Success?
    ensures var kv := Generate(degree, numCtrlpts, clamped).value;
      var r := if clamped && degree > 0 then degree else 0;
      var k := SampleCount(degree, numCtrlpts, clamped);
      k >= 2 ==> forall i :: r <= i < r + k - 1 ==> kv[i + 1] - kv[i] == 1.0 / (k - 1) as real
  {
    var kv := Generate(degree, numCtrlpts, clamped).value;
    var r := if clamped && degree > 0 then degree else 0;
    var k := SampleCount(degree, numCtrlpts, clamped);
    var numRepeat := if clamped then degree else 0;
    var z, l, o := Repeat(0.0, numRepeat), Linspace(k), Repeat(1.0, numRepeat);
    assert kv == z + l + o;
    assert |z| == r;
    if k >= 2 {
      forall i | r <= i < r + k - 1
        ensures kv[i + 1] - kv[i] == 1.0 / (k - 1) as real
      {
        assert kv[i] == l[i - r] && kv[i + 1] == l[i - r + 1];
        LinspaceEquallySpaced(k, i - r);
      }
    }
  }

  /** A clamped vector of degree p with at least p + 1 control points: p + 1 zeros, then p + 1 ones. */
  lemma GenerateClamped(degree: int, numCtrlpts: int)
    requires degree > 0 && numCtrlpts >= degree + 1
    ensures Generate(degree, numCtrlpts, true).Success?
    ensures var kv := Generate(degree, numCtrlpts, true).value;
      |kv| == degree + numCtrlpts + 1 &&
      (forall i :: 0 <= i <= degree ==> kv[i] == 0.0) &&
      (forall i :: numCtrlpts <= i < |kv| ==> kv[i] == 1.0)
  {
    var count := numCtrlpts - degree + 1;
    var kv := Generate(degree, numCtrlpts, true).value;
    var z, l, o := Repeat(0.0, degree), Linspace(count), Repeat(1.0, degree);
    assert kv == z + l + o;
    LinspaceProperties(count);
    assert kv[degree] == l[0];
    assert kv[numCtrlpts] == l[count - 1];
  }

  /** An unclamped vector is the samples alone: from 0 to 1 with no knot repeated. */
  lemma GenerateUnclamped(degree: int, numCtrlpts: int)
    requires Generate(degree, numCtrlpts, false).Success?
    ensures var kv := Generate(degree, numCtrlpts, false).value;
      kv == Linspace(degree + numCtrlpts + 1) && StrictlyIncreasing(kv) &&
      (|kv| >= 2 ==> kv[0] == 0.0 && kv[|kv| - 1] == 1.0)
  {
    var l := Linspace(degree + numCtrlpts + 1);
    assert Repeat(0.0, 0) == [] && Repeat(1.0, 0) == [];
    assert [] + l + [] == l;
    LinspaceProperties(degree + numCtrlpts + 1);
  }

  /** Every generated knot vector lies in [0, 1] and is sorted. */
  lemma GenerateSorted(degree: int, numCtrlpts: int, clamped: bool)
    requires Generate(degree, numCtrlpts, clamped).Success?
    ensures var kv := Generate(degree, numCtrlpts, clamped).value;
      Sorted(kv) && forall i :: 0 <= i < |kv| ==> 0.0 <= kv[i] <= 1.0
  {
    var numRepeat := if clamped then degree else 0;
    var count := SampleCount(degree, numCtrlpts, clamped);
    LinspaceProperties(count);
    ClampedSorted(Repeat(0.0, numRepeat), Linspace(count), Repeat(1.0, numRepeat));
  }

  /** Zeros, then sorted values in [0, 1], then ones: sorted, and within [0, 1]. */
  lemma ClampedSorted(z: seq<real>, l: seq<real>, o: seq<real>)
    requires forall i :: 0 <= i < |z| ==> z[i] == 0.0
    requires forall i :: 0 <= i < |o| ==> o[i] == 1.0
    requires StrictlyIncreasing(l) && forall i :: 0 <= i < |l| ==> 0.0 <= l[i] <= 1.0
    ensures Sorted(z + l + o) && forall i :: 0 <= i < |z + l + o| ==> 0.0 <= (z + l + o)[i] <= 1.0
  {
    var kv := z + l + o;
    forall i | 0 <= i < |kv|
      ensures 0.0 <= kv[i] <= 1.0
      ensures i < |z| ==> kv[i] == 0.0
      ensures |z| <= i < |z| + |l| ==> kv[i] == l[i - |z|]
      ensures |z| + |l| <= i ==> kv[i] == 1.0
    {
      if i < |z| {
        assert kv[i] == z[i];
      } else if i < |z| + |l| {
        assert kv[i] == l[i - |z|];
      } else {
        assert kv[i] == o[i - |z| - |l|];
      }
    }
    forall i, j | 0 <= i <= j < |kv|
      ensures kv[i] <= kv[j]
    {
      if |z| <= i < j < |z| + |l| {
        assert l[i - |z|] < l[j - |z|];
      }
    }
  }

  /**
    A generated vector, unclamped or of positive degree, has the length and the order `check`
    tests; `CheckGenerated` below runs `check` on it.
   */
  lemma GenerateIsValid(degree: int, numCtrlpts: int, clamped: bool)
    requires Generate(degree, numCtrlpts, clamped).Success?
    requires !clamped || degree > 0
    ensures IsValid(degree, Generate(degree, numCtrlpts, clamped).value, numCtrlpts)
  {
    GenerateLength(degree, numCtrlpts, clamped);
    GenerateSorted(degree, numCtrlpts, clamped);
    SortedIsNonDecreasing(Generate(degree, numCtrlpts, clamped).value);
  }

  /** A generated vector of positive degree and control-point count is already normalised. */
  lemma GenerateIsNormalized(degree: int, numCtrlpts: int, clamped: bool)
    requires degree > 0 && numCtrlpts > 0
    requires Generate(degree, numCtrlpts, clamped).Success?
    ensures Normalize(Generate(degree, numCtrlpts, clamped).value) == Generate(degree, numCtrlpts, clamped)
  {
    var kv := Generate(degree, numCtrlpts, clamped).value;
    GenerateSorted(degree, numCtrlpts, clamped);
    if clamped {
      assert kv[0] == 0.0 && kv[|kv| - 1] == 1.0;
    } else {
      GenerateUnclamped(degree, numCtrlpts);
    }
    NormalizeFixesUnitRange(kv, 0, |kv| - 1);
  }

  // ---------------------------------------------------------------------------------------------
  // normalize

  /** `min()` of a non-empty array. */
  function Min(s: seq<real>): (m: real)
    requires |s| > 0
    ensures forall i :: 0 <= i < |s| ==> m <= s[i]
    ensures m in s
  {
    if |s| == 1 then s[0]
    else
      var rest := Min(s[1..]);
      assert forall i :: 1 <= i < |s| ==> s[i] == s[1..][i - 1];
      if s[0] <= rest then s[0] else rest
  }

  /** `max()` of a non-empty array. */
  function Max(s: seq<real>): (m: real)
    requires |s| > 0
    ensures forall i :: 0 <= i < |s| ==> s[i] <= m
    ensures m in s
  {
    if |s| == 1 then s[0]
    else
      var rest := Max(s[1..]);
      assert forall i :: 1 <= i < |s| ==> s[i] == s[1..][i - 1];
      if s[0] >= rest then s[0] else rest
  }

  /** `(knot_vector - m) / (M - m)`, raising when the array is empty or all its knots are equal. */
  function Normalize(kv: seq<real>): Result<seq<real>, KnotError>
  {
    if |kv| == 0 then Failure(EmptyArray)
    else
      var m, hi := Min(kv), Max(kv);
      if m >= hi then Failure(EqualKnots)
      else Success(seq(|kv|, i requires 0 <= i < |kv| => (kv[i] - m) / (hi - m)))
  }

  /** `normalize` fails on an empty array, and on a non-empty one exactly when all knots are equal. */
  lemma NormalizeErrors(kv: seq<real>)
    ensures |kv| == 0 ==> Normalize(kv) == Failure(EmptyArray)
    ensures |kv| > 0 ==>
      (Normalize(kv) == Failure(EqualKnots) <==> forall i, j :: 0 <= i < |kv| && 0 <= j < |kv| ==> kv[i] == kv[j])
  {
    if |kv| > 0 {
      var m, hi := Min(kv), Max(kv);
      if m < hi {
        var i :| 0 <= i < |kv| && kv[i] == m;
        var j :| 0 <= j < |kv| && kv[j] == hi;
        assert kv[i] != kv[j];
      }
    }
  }

  /**
    A normalised vector has the length of its input and lies in [0, 1]; exactly the minimal knots
    map to 0 and exactly the maximal knots to 1.
   */
  lemma NormalizeRange(kv: seq<real>)
    requires Normalize(kv).Success?
    ensures var r := Normalize(kv).value;
      |r| == |kv| &&
      (forall i :: 0 <= i < |r| ==> 0.0 <= r[i] <= 1.0) &&
      (forall i :: 0 <= i < |r| ==> (r[i] == 0.0 <==> kv[i] == Min(kv))) &&
      (forall i :: 0 <= i < |r| ==> (r[i] == 1.0 <==> kv[i] == Max(kv)))
  {
    var r := Normalize(kv).value;
    var m, hi := Min(kv), Max(kv);
    forall i | 0 <= i < |r|
      ensures 0.0 <= r[i] <= 1.0
      ensures r[i] == 0.0 <==> kv[i] == m
      ensures r[i] == 1.0 <==> kv[i] == hi
    {
      DivMonotone(0.0, kv[i] - m, hi - m);
      DivMonotone(kv[i] - m, hi - m, hi - m);
      DivUnit(kv[i] - m, hi - m);
      DivUnit(hi - m, hi - m);
    }
  }

  /** Normalising keeps the order of any two knots, and equal knots stay equal. */
  lemma NormalizeOrder(kv: seq<real>, i: nat, j: nat)
    requires Normalize(kv).Success?
    requires i < |kv| && j < |kv|
    ensures var r := Normalize(kv).value;
      (kv[i] <= kv[j] <==> r[i] <= r[j]) && (kv[i] < kv[j] <==> r[i] < r[j])
  {
    DivMonotone(kv[i] - Min(kv), kv[j] - Min(kv), Max(kv) - Min(kv));
  }

  /** A vector within [0, 1] that reaches both 0 and 1 is its own normalisation. */
  lemma NormalizeFixesUnitRange(kv: seq<real>, lo: nat, top: nat)
    requires lo < |kv| && top < |kv| && kv[lo] == 0.0 && kv[top] == 1.0
    requires forall i :: 0 <= i < |kv| ==> 0.0 <= kv[i] <= 1.0
    ensures Normalize(kv) == Success(kv)
  {
    MinIs(kv, lo);
    MaxIs(kv, top);
    var r := Normalize(kv).value;
    assert |r| == |kv|;
    forall i | 0 <= i < |kv|
      ensures r[i] == kv[i]
    {
      assert r[i] == (kv[i] - Min(kv)) / (Max(kv) - Min(kv));
      assert kv[i] - Min(kv) == kv[i] && Max(kv) - Min(kv) == 1.0;
    }
    assert r == kv;
  }

  lemma MinIs(s: seq<real>, k: nat)
    requires k < |s| && forall i :: 0 <= i < |s| ==> s[k] <= s[i]
    ensures Min(s) == s[k]
  {
    var m := Min(s);
    var i :| 0 <= i < |s| && s[i] == m;
    assert m <= s[k] <= s[i];
  }

  lemma MaxIs(s: seq<real>, k: nat)
    requires k < |s| && forall i :: 0 <= i < |s| ==> s[i] <= s[k]
    ensures Max(s) == s[k]
  {
    var m := Max(s);
    var i :| 0 <= i < |s| && s[i] == m;
    assert s[i] <= s[k] <= m;
  }

  /** Normalising twice changes nothing more. */
  lemma NormalizeIdempotent(kv: seq<real>)
    requires Normalize(kv).Success?
    ensures Normalize(Normalize(kv).value) == Normalize(kv)
  {
    var r := Normalize(kv).value;
    NormalizeRange(kv);
    var lo :| 0 <= lo < |kv| && kv[lo] == Min(kv);
    var top :| 0 <= top < |kv| && kv[top] == Max(kv);
    NormalizeFixesUnitRange(r, lo, top);
  }

  // ---------------------------------------------------------------------------------------------
  // check

  /** What `check` accepts: the length rule m = p + n + 1 and ascending knots. */
  predicate IsValid(degree: int, kv: seq<real>, numCtrlpts: int)
  {
    |kv| == degree + numCtrlpts + 1 && NonDecreasing(kv)
  }

  /**
    `check(degree, knot_vector, num_ctrlpts)`: raises on an empty vector, returns False on a wrong
    length, then walks the knots and returns False at the first knot below its predecessor.
   */
  method Check(degree: int, knotVector: seq<real>, numCtrlpts: int) returns (r: Result<bool, KnotError>)
    ensures |knotVector| == 0 ==> r == Failure(EmptyKnotVector)
    ensures |knotVector| > 0 ==> r == Success(IsValid(degree, knotVector, numCtrlpts))
  {
    if |knotVector| == 0 {
      return Failure(EmptyKnotVector);
    }
    if |knotVector| != degree + numCtrlpts + 1 {
      return Success(false);
    }
    var prevKnot := knotVector[0];
    var i := 0;
    while i < |knotVector|
      invariant 0 <= i <= |knotVector|
      invariant prevKnot == knotVector[if i == 0 then 0 else i - 1]
      invariant forall k :: 0 < k < i ==> knotVector[k - 1] <= knotVector[k]
    {
      var knot := knotVector[i];
      if prevKnot > knot {
        return Success(false);
      }
      prevKnot := knot;
      i := i + 1;
    }
    return Success(true);
  }

  /**
    `check(degree, generate(degree, num_ctrlpts, clamped), num_ctrlpts)` end to end. A generated
    vector that is unclamped or of positive degree passes `check`, except that an unclamped one
    with degree + num_ctrlpts + 1 = 0 is empty and makes `check` raise. A clamped one of negative
    degree, which `generate` accepts, has n - p + 1 knots: `check` rejects it, or raises when it
    is empty.
   */
  method CheckGenerated(degree: int, numCtrlpts: int, clamped: bool) returns (r: Result<bool, KnotError>)
    requires Generate(degree, numCtrlpts, clamped).Success?
    ensures (!clamped || degree > 0) && degree + numCtrlpts + 1 == 0 ==> r == Failure(EmptyKnotVector)
    ensures (!clamped || degree > 0) && degree + numCtrlpts + 1 != 0 ==> r == Success(true)
    ensures clamped && degree < 0 && numCtrlpts - degree + 1 == 0 ==> r == Failure(EmptyKnotVector)
    ensures clamped && degree < 0 && numCtrlpts - degree + 1 != 0 ==> r == Success(false)
  {
    var kv := Generate(degree, numCtrlpts, clamped).value;
    GenerateLength(degree, numCtrlpts, clamped);
    if !clamped || degree > 0 {
      GenerateIsValid(degree, numCtrlpts, clamped);
    }
    r := Check(degree, kv, numCtrlpts);
  }
}
