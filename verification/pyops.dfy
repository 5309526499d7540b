/** The Python and numpy primitives the analysis and layout code is built
    from, over exact reals: int(), round(), subscripts with negative indexes,
    max/min and their first index, counting above a level, sums, linspace
    and the substring test `p in s`. */
module PyOps {
  import opened Wrappers

  /** Python's int() of a float: truncation toward zero. */
  function Trunc(x: real): (r: int)
    ensures 0.0 <= x ==> 0 <= r && r as real <= x < r as real + 1.0
    ensures x < 0.0 ==> r <= 0 && r as real - 1.0 < x <= r as real
  {
    if x >= 0.0 then x.Floor else -((-x).Floor)
  }

  lemma TruncMonotone(x: real, y: real)
    requires x <= y
    ensures Trunc(x) <= Trunc(y)
  {
  }

  /** int(round(x)) for a value that is a whole number up to floating-point
      noise; the half-way case, never reached here, is rounded up. */
  function Round(x: real): (r: int)
    ensures r as real - 0.5 <= x < r as real + 0.5
  {
    (x + 0.5).Floor
  }

  lemma RoundWhole(k: int)
    ensures Round(k as real) == k
  {
  }

  /** Python subscript `s[i]`, where a negative index counts from the end;
      None stands for the IndexError. */
  function PyAt<T>(s: seq<T>, i: int): (r: Option<T>)
    ensures -|s| <= i < |s| <==> r.Some?
    ensures 0 <= i < |s| ==> r == Some(s[i])
    ensures -|s| <= i < 0 ==> r == Some(s[|s| + i])
  {
    if 0 <= i < |s| then Some(s[i])
    else if -|s| <= i < 0 then Some(s[|s| + i])
    else None
  }

  /** Python slice `s[lo:]` for a non-negative lo. */
  function From<T>(s: seq<T>, lo: nat): (r: seq<T>)
    ensures |r| == if lo <= |s| then |s| - lo else 0
    ensures forall k :: 0 <= k < |r| ==> r[k] == s[lo + k]
  {
    if lo <= |s| then s[lo..] else []
  }

  /** max(s); Python raises ValueError on an empty sequence. */
  function Max(s: seq<real>): (m: real)
    requires |s| > 0
    ensures forall k :: 0 <= k < |s| ==> s[k] <= m
    ensures exists k :: 0 <= k < |s| && s[k] == m
  {
    if |s| == 1 then s[0]
    else
      var t := Max(s[1..]);
      assert forall k :: 1 <= k < |s| ==> s[k] == s[1..][k - 1];
      if s[0] >= t then s[0] else t
  }

  /** s.index(max(s)) and np.argmax(s): the first index holding the maximum. */
  function Argmax(s: seq<real>): (i: nat)
    requires |s| > 0
    ensures i < |s| && s[i] == Max(s)
    ensures forall k :: 0 <= k < i ==> s[k] < s[i]
  {
    if |s| == 1 || s[0] >= Max(s[1..]) then 0
    else
      var j := Argmax(s[1..]);
      assert forall k :: 1 <= k < |s| ==> s[k] == s[1..][k - 1];
      1 + j
  }

  /** min(s); Python raises ValueError on an empty sequence. */
  function Min(s: seq<real>): (m: real)
    requires |s| > 0
    ensures forall k :: 0 <= k < |s| ==> m <= s[k]
    ensures exists k :: 0 <= k < |s| && s[k] == m
  {
    if |s| == 1 then s[0]
    else
      var t := Min(s[1..]);
      assert forall k :: 1 <= k < |s| ==> s[k] == s[1..][k - 1];
      if s[0] <= t then s[0] else t
  }

  /** np.argmin(s): the first index holding the minimum. */
  function Argmin(s: seq<real>): (i: nat)
    requires |s| > 0
    ensures i < |s| && s[i] == Min(s)
    ensures forall k :: 0 <= k < i ==> s[k] > s[i]
  {
    if |s| == 1 || s[0] <= Min(s[1..]) then 0
    else
      var j := Argmin(s[1..]);
      assert forall k :: 1 <= k < |s| ==> s[k] == s[1..][k - 1];
      1 + j
  }

  /** len([v for v in s if v > level]) */
  function CountAbove(s: seq<real>, level: real): (n: nat)
    ensures n <= |s|
    ensures n == 0 <==> forall k :: 0 <= k < |s| ==> s[k] <= level
  {
    if s == [] then 0
    else
      var init := s[..|s| - 1];
      assert forall k :: 0 <= k < |init| ==> s[k] == init[k];
      CountAbove(init, level) + (if s[|s| - 1] > level then 1 else 0)
  }

  /** Raising the level never adds a sample above it. */
  lemma {:induction false} CountAboveAntitone(s: seq<real>, lo: real, hi: real)
    requires lo <= hi
    ensures CountAbove(s, hi) <= CountAbove(s, lo)
  {
    if s != [] {
      CountAboveAntitone(s[..|s| - 1], lo, hi);
    }
  }

  /** [i for i, v in enumerate(s) if v > level] */
  function IndicesAbove(s: seq<real>, level: real): (r: seq<nat>)
    ensures forall k :: 0 <= k < |r| ==> r[k] < |s| && s[r[k]] > level
    ensures forall k, l :: 0 <= k < l < |r| ==> r[k] < r[l]
    ensures |r| == CountAbove(s, level)
  {
    if s == [] then []
    else
      var rest := IndicesAbove(s[..|s| - 1], level);
      rest + (if s[|s| - 1] > level then [|s| - 1] else [])
  }

  /** Every index of a sample above the level is listed. */
  lemma {:induction false} IndicesAboveComplete(s: seq<real>, level: real, i: nat)
    requires i < |s| && s[i] > level
    ensures i in IndicesAbove(s, level)
    decreases |s|
  {
    if i < |s| - 1 {
      IndicesAboveComplete(s[..|s| - 1], level, i);
    }
  }

  /** dt * n: the time spanned by n samples taken every dt, written as a
      sum so that the solver sees no product of two unknowns. */
  function Duration(dt: real, n: nat): (r: real)
    ensures 0.0 <= dt ==> 0.0 <= r
    ensures 0.0 < dt ==> (r == 0.0 <==> n == 0)
  {
    if n == 0 then 0.0 else Duration(dt, n - 1) + dt
  }

  /** The sum is the product the Python code computes. */
  lemma {:induction false} DurationIsProduct(dt: real, n: nat)
    ensures Duration(dt, n) == dt * (n as real)
  {
    if n > 0 {
      DurationIsProduct(dt, n - 1);
    }
  }

  /** More samples span more time: weakly for dt >= 0, strictly for dt > 0. */
  lemma {:induction false} DurationMonotone(dt: real, a: nat, b: nat)
    requires a <= b
    ensures 0.0 <= dt ==> Duration(dt, a) <= Duration(dt, b)
    ensures 0.0 < dt && a < b ==> Duration(dt, a) < Duration(dt, b)
    decreases b
  {
    if a < b {
      DurationMonotone(dt, a, b - 1);
    }
  }

  /** int(round(t / dt)) recovers the index k of a sample time t = k*dt. */
  lemma SampleOfTime(dt: real, k: nat)
    requires dt != 0.0
    ensures Round(Duration(dt, k) / dt) == k
  {
    DurationIsProduct(dt, k);
    assert ((k as real) * dt) / dt == k as real;
    RoundWhole(k);
  }

  function Sum(s: seq<real>): real
  {
    if s == [] then 0.0 else Sum(s[..|s| - 1]) + s[|s| - 1]
  }

  /** np.mean of a non-empty sequence. */
  function Mean(s: seq<real>): real
    requires |s| > 0
  {
    Sum(s) / (|s| as real)
  }

  /** The i-th of n >= 2 evenly spaced values from a to b. */
  function LinPoint(a: real, b: real, n: nat, i: nat): real
    requires 2 <= n
  {
    a + (i as real) * ((b - a) / ((n - 1) as real))
  }

  lemma LinPointFacts(a: real, b: real, n: nat)
    requires 2 <= n
    ensures LinPoint(a, b, n, n - 1) == b
    ensures forall i: nat :: i < n - 1 ==>
              LinPoint(a, b, n, i + 1) - LinPoint(a, b, n, i) == (b - a) / ((n - 1) as real)
    ensures a <= b ==> forall i: nat :: i < n ==> a <= LinPoint(a, b, n, i) <= b
  {
    var step := (b - a) / ((n - 1) as real);
    assert ((n - 1) as real) * step == b - a;
    if a <= b {
      assert 0.0 <= step;
      forall i: nat | i < n
        ensures a <= LinPoint(a, b, n, i) <= b
      {
        assert (i as real) * step <= ((n - 1) as real) * step;
      }
    }
  }

  /** np.linspace(a, b, n): n evenly spaced values from a to b, both ends included. */
  function Linspace(a: real, b: real, n: nat): (r: seq<real>)
    ensures |r| == n
    ensures n >= 1 ==> r[0] == a
    ensures n >= 2 ==> r[n - 1] == b
    ensures n >= 2 ==> forall i :: 0 <= i < n - 1 ==> r[i + 1] - r[i] == (b - a) / ((n - 1) as real)
    ensures a <= b ==> forall i :: 0 <= i < n ==> a <= r[i] <= b
  {
    if n == 0 then []
    else if n == 1 then [a]
    else
      LinPointFacts(a, b, n);
      seq(n, i requires 0 <= i < n => LinPoint(a, b, n, i))
  }

  /** Points of a linspace at the same rank from either end are
      placed symmetrically about the middle of [a, b] (a single point
      sits at a, so one point is symmetric only when a == b). */
  lemma LinspaceSymmetric(a: real, b: real, n: nat)
    requires n != 1
    ensures forall i :: 0 <= i < n ==> Linspace(a, b, n)[i] + Linspace(a, b, n)[n - 1 - i] == a + b
  {
    if n >= 2 {
      var step := (b - a) / ((n - 1) as real);
      assert ((n - 1) as real) * step == b - a;
      forall i | 0 <= i < n
        ensures Linspace(a, b, n)[i] + Linspace(a, b, n)[n - 1 - i] == a + b
      {
        assert (i as real) * step + ((n - 1 - i) as real) * step == ((n - 1) as real) * step;
      }
    }
  }

  /** abs() on floats. */
  function Abs(x: real): real
  {
    if x < 0.0 then -x else x
  }

  /** Indexes in strictly increasing order. */
  predicate Increasing(q: seq<nat>)
  {
    forall k, l :: 0 <= k < l < |q| ==> q[k] < q[l]
  }

  predicate StartsWith(s: string, p: string)
  {
    |p| <= |s| && s[..|p|] == p
  }

  /** Python's `p in s` for strings. */
  predicate Contains(s: string, p: string)
    decreases |s|
  {
    StartsWith(s, p) || (s != [] && Contains(s[1..], p))
  }

  /** Whatever contains p contains every suffix of p: a label holding
      "ExSyn" also holds "Syn". */
  lemma {:induction false} ContainsSuffix(s: string, p: string, k: nat)
    requires Contains(s, p) && k <= |p|
    ensures Contains(s, p[k..])
    decreases |s|
  {
    if StartsWith(s, p) {
      ContainsAt(s, p[k..], k);
    } else {
      ContainsSuffix(s[1..], p, k);
    }
  }

  lemma {:induction false} ContainsAt(s: string, p: string, k: nat)
    requires k + |p| <= |s| && s[k..k + |p|] == p
    ensures Contains(s, p)
    decreases k
  {
    if k > 0 {
      assert s[1..][k - 1..k - 1 + |p|] == p;
      ContainsAt(s[1..], p, k - 1);
    } else {
      assert s[..|p|] == p;
    }
  }
}
