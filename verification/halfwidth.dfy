/** Half-width of an EPSP: the time between the sample closest to half the
    peak amplitude on the rising side and the one on the falling side. */
module HalfWidth {
  import opened Wrappers
  import opened PyOps
  import opened Traces

  /** min(data, key=lambda x: abs(x - target)): Python keeps the first
      element whose key is smallest; this is its index. */
  function FirstClosest(data: seq<real>, target: real): (i: nat)
    requires |data| > 0
    ensures i < |data|
  {
    if |data| == 1 then 0
    else
      var j := FirstClosest(data[..|data| - 1], target);
      if Abs(data[|data| - 1] - target) < Abs(data[j] - target) then |data| - 1 else j
  }

  /** FirstClosest is the first index minimising the distance to target. */
  lemma {:induction false} FirstClosestIsFirstMinimiser(data: seq<real>, target: real)
    requires |data| > 0
    ensures forall k :: 0 <= k < |data| ==>
              Abs(data[FirstClosest(data, target)] - target) <= Abs(data[k] - target)
    ensures forall k :: 0 <= k < FirstClosest(data, target) ==>
              Abs(data[k] - target) > Abs(data[FirstClosest(data, target)] - target)
  {
    if |data| > 1 {
      var init := data[..|data| - 1];
      FirstClosestIsFirstMinimiser(init, target);
      assert forall k :: 0 <= k < |init| ==> data[k] == init[k];
    }
  }

  /** i is the first index of data[lo:hi] minimising |data[i] - target|,
      as the min-then-index of get_closest on that slice finds it (counted
      in data's own indexes). */
  predicate ClosestIn(data: seq<real>, lo: nat, hi: nat, target: real, i: nat)
  {
    lo <= i < hi <= |data|
    && (forall k :: lo <= k < hi ==> Abs(data[i] - target) <= Abs(data[k] - target))
    && (forall k :: lo <= k < i ==> Abs(data[k] - target) > Abs(data[i] - target))
  }

  /** get_closest on the slice data[lo:hi] finds the first closest index of
      that part of data. */
  lemma ClosestInSlice(data: seq<real>, lo: nat, hi: nat, target: real)
    requires lo < hi <= |data|
    ensures GetClosest(data[lo..hi], target).Ok?
    ensures ClosestIn(data, lo, hi, target, lo + GetClosest(data[lo..hi], target).value)
    ensures hi == |data| ==> data[lo..] == data[lo..hi]
  {
    var s := data[lo..hi];
    GetClosestIsFirstMinimiser(s, target);
    var j := GetClosest(s, target).value;
    assert forall k :: lo <= k < hi ==> data[k] == s[k - lo];
  }

  /** list.index(v): the first index holding v. */
  function IndexOf(s: seq<real>, v: real): (i: nat)
    requires v in s
    ensures i < |s| && s[i] == v
    ensures forall k :: 0 <= k < i ==> s[k] != v
  {
    if s[0] == v then 0
    else
      assert v in s[1..];
      1 + IndexOf(s[1..], v)
  }

  /** get_closest: the index of the value closest to target, found by value
      with list.index; ValueError on an empty list. */
  function GetClosest(data: seq<real>, target: real): (r: Result<nat>)
    ensures r.Ok? <==> |data| > 0
    ensures r.Err? ==> r.error == ValueError
    ensures r.Ok? ==> r.value < |data|
  {
    if data == [] then Err(ValueError)
    else Ok(IndexOf(data, data[FirstClosest(data, target)]))
  }

  /** The index get_closest finds by value is the first closest index, so
      it is the first index minimising |x - target|. */
  lemma GetClosestIsFirstMinimiser(data: seq<real>, target: real)
    requires |data| > 0
    ensures GetClosest(data, target) == Ok(FirstClosest(data, target))
    ensures forall k :: 0 <= k < |data| ==>
              Abs(data[GetClosest(data, target).value] - target) <= Abs(data[k] - target)
    ensures forall k :: 0 <= k < GetClosest(data, target).value ==>
              Abs(data[k] - target) > Abs(data[GetClosest(data, target).value] - target)
  {
    FirstClosestIsFirstMinimiser(data, target);
  }

  /** (two - one) * dt for sample indexes one and two, written as a sum so
      that its sign follows the order of the indexes. */
  function Width(dt: real, one: nat, two: nat): (w: real)
    ensures 0.0 <= dt && one <= two ==> 0.0 <= w
    ensures 0.0 < dt && one < two ==> dt <= w
    ensures 0.0 < dt && two < one ==> w < 0.0
  {
    if one < two then
      DurationMonotone(dt, 1, two - one);
      Duration(dt, two - one)
    else if one == two then 0.0
    else -Duration(dt, one - two)
  }

  /** The two half-amplitude points around a peak at index mi: the sample
      of data[:mi] closest to mid, and that of data[mi:] (offset by mi).
      ValueError when the rising side data[:mi] is empty. */
  function HalfPoints(data: seq<real>, mi: nat, mid: real): (r: Result<(nat, nat)>)
    requires mi < |data|
    ensures r.Ok? <==> mi > 0
    ensures r.Err? ==> r.error == ValueError
    ensures r.Ok? ==> r.value.0 < mi <= r.value.1 < |data|
    ensures r.Ok? ==> GetClosest(data[..mi], mid) == Ok(r.value.0)
                      && GetClosest(data[mi..], mid) == Ok(r.value.1 - mi)
  {
    match GetClosest(data[..mi], mid)
    case Err(e) => Err(e)
    case Ok(one) => Ok((one, GetClosest(data[mi..], mid).value + mi))
  }

  /** Half way from the baseline to the maximum of the trace. */
  function HalfLevel(data: seq<real>): (h: real)
    requires |data| > BaselineStart
    ensures Baseline(data) <= Max(data) ==> Baseline(data) <= h <= Max(data)
  {
    (Max(data) + Baseline(data)) / 2.0
  }

  /** half_width_one_EPSP.  NameError when the maximum stays below
      baseline + thresh (the code returns the undefined name NaN);
      ValueError when the maximum is the first sample (the rising side is
      empty); otherwise (two - one) * dt for the half-amplitude points
      around the first maximum, which is at least dt. */
  function HalfWidthOneEPSP(data: seq<real>, thresh: real, dt: real): (r: Result<real>)
    requires |data| > BaselineStart
    ensures r == Err(NameError) <==> Max(data) < Baseline(data) + thresh
    ensures r == Err(ValueError) <==> Max(data) >= Baseline(data) + thresh && Argmax(data) == 0
    ensures r.Ok? ==>
              HalfPoints(data, Argmax(data), HalfLevel(data)).Ok?
              && r.value == Width(dt, HalfPoints(data, Argmax(data), HalfLevel(data)).value.0,
                                  HalfPoints(data, Argmax(data), HalfLevel(data)).value.1)
    ensures r.Ok? && 0.0 < dt ==> dt <= r.value
  {
    if Max(data) < Baseline(data) + thresh then Err(NameError)
    else
      match HalfPoints(data, Argmax(data), HalfLevel(data))
      case Err(e) => Err(e)
      case Ok((one, two)) => Ok(Width(dt, one, two))
  }

  /** Half way from the given baseline to the maximum of the trace. */
  function HalfWay(data: seq<real>, baseline: real): real
    requires |data| > 0
  {
    (Max(data) + baseline) / 2.0
  }

  /** Each_EPSP as written.  The rising index is 0 when the first sample is
      already above half amplitude; the falling index, when the last sample
      is below half amplitude, is data.index(data[-1]), the FIRST sample
      equal to the last one. */
  function EachEPSP(data: seq<real>, baseline: real, thresh: real, dt: real): (r: Result<real>)
    ensures data == [] ==> r == Err(ValueError)
    ensures |data| > 0 && Max(data) < baseline + thresh ==> r == Ok(0.0)
    ensures |data| > 0 && r.Ok? && r.value != 0.0 ==> Max(data) >= baseline + thresh
  {
    if data == [] then Err(ValueError)
    else if Max(data) < baseline + thresh then Ok(0.0)
    else
      var mi := Argmax(data);
      var mid := HalfWay(data, baseline);
      match EachRise(data, mi, mid)
      case Err(e) => Err(e)
      case Ok(one) => Ok(Width(dt, one, EachFall(data, mi, mid)))
  }

  /** Each_EPSP's rising index for a peak at mi: data.index(data[0]) when
      the trace starts above mid, else get_closest on data[:mi]. */
  function EachRise(data: seq<real>, mi: nat, mid: real): (r: Result<nat>)
    requires mi < |data|
    ensures r.Err? <==> data[0] <= mid && mi == 0
    ensures r.Err? ==> r.error == ValueError
    ensures data[0] > mid ==> r == Ok(0)
    ensures data[0] <= mid && 0 < mi ==> r.Ok? && r.value < mi && ClosestIn(data, 0, mi, mid, r.value)
  {
    if data[0] > mid then
      assert IndexOf(data, data[0]) == 0;
      Ok(IndexOf(data, data[0]))
    else if mi == 0 then GetClosest(data[..mi], mid)
    else
      ClosestInSlice(data, 0, mi, mid);
      GetClosest(data[..mi], mid)
  }

  /** Each_EPSP's falling index for a peak at mi: data.index(data[-1])
      when the trace ends below mid, else get_closest on data[mi:]. */
  function EachFall(data: seq<real>, mi: nat, mid: real): (two: nat)
    requires mi < |data|
    ensures two < |data|
    ensures data[|data| - 1] < mid ==>
              data[two] == data[|data| - 1] && forall k :: 0 <= k < two ==> data[k] != data[two]
    ensures data[|data| - 1] >= mid ==> ClosestIn(data, mi, |data|, mid, two)
  {
    ClosestInSlice(data, mi, |data|, mid);
    if data[|data| - 1] < mid then IndexOf(data, data[|data| - 1])
    else GetClosest(data[mi..], mid).value + mi
  }

  /** Each_EPSP can report a negative width: for [0, 1, 2, 10, 0] with
      baseline 0 and thresh 2, the falling index is data.index(0) = 0 while
      the rising index is 2. */
  lemma EachEPSPNegativeWidth(data: seq<real>)
    requires data == [0.0, 1.0, 2.0, 10.0, 0.0]
    ensures EachEPSP(data, 0.0, 2.0, 1.0) == Ok(-2.0)
  {
    ExamplePeak(data);
    ExampleRise();
    assert data[..3] == [0.0, 1.0, 2.0];
    assert IndexOf(data, 0.0) == 0;
    assert Duration(1.0, 2) == 2.0;
  }

  /** The peak of the example trace: 10 at index 3. */
  lemma ExamplePeak(data: seq<real>)
    requires data == [0.0, 1.0, 2.0, 10.0, 0.0]
    ensures Max(data) == 10.0 && Argmax(data) == 3
  {
    assert data[3] == 10.0;
    assert forall k :: 0 <= k < |data| && k != 3 ==> data[k] < 10.0;
  }

  /** On the example's rising side, 2 is the sample closest to 5. */
  lemma ExampleRise()
    ensures GetClosest([0.0, 1.0, 2.0], 5.0) == Ok(2)
  {
    var left := [0.0, 1.0, 2.0];
    GetClosestIsFirstMinimiser(left, 5.0);
    var i := GetClosest(left, 5.0).value;
    assert Abs(left[i] - 5.0) <= Abs(left[2] - 5.0);
  }

  /** The width Each_EPSP reports for an EPSP: ValueError when the trace
      starts at or below half amplitude and peaks at its first sample;
      otherwise (two - one)*dt, where the rising point one is 0 when the
      trace starts above half amplitude and else the first sample of the
      rising side closest to half amplitude, and the falling point two is
      the first sample equal to the last one when the trace ends below
      half amplitude and else the first sample of the falling side closest
      to half amplitude. */
  lemma EachEPSPPoints(data: seq<real>, baseline: real, thresh: real, dt: real) returns (one: nat, two: nat)
    requires |data| > 0 && Max(data) >= baseline + thresh
    ensures EachEPSP(data, baseline, thresh, dt)
            == if data[0] <= HalfWay(data, baseline) && Argmax(data) == 0 then Err(ValueError)
               else Ok(Width(dt, one, two))
    ensures data[0] > HalfWay(data, baseline) ==> one == 0
    ensures data[0] <= HalfWay(data, baseline) && 0 < Argmax(data) ==>
              one < Argmax(data) && ClosestIn(data, 0, Argmax(data), HalfWay(data, baseline), one)
    ensures data[|data| - 1] < HalfWay(data, baseline) ==>
              two < |data| && data[two] == data[|data| - 1] && forall k :: 0 <= k < two ==> data[k] != data[two]
    ensures data[|data| - 1] >= HalfWay(data, baseline) ==>
              ClosestIn(data, Argmax(data), |data|, HalfWay(data, baseline), two)
  {
    one, two := EachPointsAt(data, Argmax(data), HalfWay(data, baseline), dt);
  }

  /** EachEPSPPoints for a peak at mi and a half level mid. */
  lemma EachPointsAt(data: seq<real>, mi: nat, mid: real, dt: real) returns (one: nat, two: nat)
    requires mi < |data|
    ensures (match EachRise(data, mi, mid)
             case Err(e) => Err(e)
             case Ok(o) => Ok(Width(dt, o, EachFall(data, mi, mid))))
            == if data[0] <= mid && mi == 0 then Err(ValueError) else Ok(Width(dt, one, two))
    ensures data[0] > mid ==> one == 0
    ensures data[0] <= mid && 0 < mi ==> one < mi && ClosestIn(data, 0, mi, mid, one)
    ensures data[|data| - 1] < mid ==>
              two < |data| && data[two] == data[|data| - 1] && forall k :: 0 <= k < two ==> data[k] != data[two]
    ensures data[|data| - 1] >= mid ==> ClosestIn(data, mi, |data|, mid, two)
  {
    var rise := EachRise(data, mi, mid);
    one := if rise.Ok? then rise.value else 0;
    two := EachFall(data, mi, mid);
  }

  /** On a trace that starts at or below half amplitude and ends at or
      above it, Each_EPSP measures between the two half-amplitude points
      that half_width_one_EPSP uses. */
  lemma EachEPSPIsHalfPoints(data: seq<real>, baseline: real, thresh: real, dt: real)
    requires |data| > 0 && Max(data) >= baseline + thresh
    requires data[0] <= HalfWay(data, baseline) <= data[|data| - 1]
    ensures EachEPSP(data, baseline, thresh, dt)
            == match HalfPoints(data, Argmax(data), HalfWay(data, baseline))
               case Err(e) => Err(e)
               case Ok(p) => Ok(Width(dt, p.0, p.1))
  {
    EachIsHalfPointsAt(data, Argmax(data), HalfWay(data, baseline), dt);
  }

  /** EachEPSPIsHalfPoints for a peak at mi and a half level mid. */
  lemma EachIsHalfPointsAt(data: seq<real>, mi: nat, mid: real, dt: real)
    requires mi < |data| && data[0] <= mid <= data[|data| - 1]
    ensures (match EachRise(data, mi, mid)
             case Err(e) => Err(e)
             case Ok(o) => Ok(Width(dt, o, EachFall(data, mi, mid))))
            == match HalfPoints(data, mi, mid)
               case Err(e) => Err(e)
               case Ok(p) => Ok(Width(dt, p.0, p.1))
  {
    assert EachRise(data, mi, mid) == GetClosest(data[..mi], mid);
    assert EachFall(data, mi, mid) == GetClosest(data[mi..], mid).value + mi;
  }

  /** Each_EPSP with the falling test mirroring the rising one: the last
      index when the trace ends above half amplitude, the half-amplitude
      point of the falling side otherwise.  The width is then never
      negative for a non-negative dt. */
  function EachEPSPFixed(data: seq<real>, baseline: real, thresh: real, dt: real): (r: Result<real>)
    ensures data == [] ==> r == Err(ValueError)
    ensures |data| > 0 && Max(data) < baseline + thresh ==> r == Ok(0.0)
    ensures |data| > 0 && Max(data) >= baseline + thresh ==>
              (r.Err? <==> data[0] <= HalfWay(data, baseline) && Argmax(data) == 0)
    ensures r.Err? ==> r.error == ValueError
    ensures r.Ok? && 0.0 <= dt ==> 0.0 <= r.value
  {
    if data == [] then Err(ValueError)
    else if Max(data) < baseline + thresh then Ok(0.0)
    else
      var mi := Argmax(data);
      var mid := HalfWay(data, baseline);
      match FixedRise(data, mi, mid)
      case Err(e) => Err(e)
      case Ok(one) =>
        assert one <= mi <= FixedFall(data, mi, mid);
        Ok(Width(dt, one, FixedFall(data, mi, mid)))
  }

  /** The corrected rising index: 0 when the trace starts above mid, else
      get_closest on data[:mi]. */
  function FixedRise(data: seq<real>, mi: nat, mid: real): (r: Result<nat>)
    requires mi < |data|
    ensures r.Err? <==> data[0] <= mid && mi == 0
    ensures r.Err? ==> r.error == ValueError
    ensures r.Ok? ==> r.value <= mi
    ensures data[0] > mid ==> r == Ok(0)
    ensures data[0] <= mid && 0 < mi ==> r.Ok? && r.value < mi && ClosestIn(data, 0, mi, mid, r.value)
  {
    if data[0] > mid then Ok(0)
    else if mi == 0 then GetClosest(data[..mi], mid)
    else
      ClosestInSlice(data, 0, mi, mid);
      GetClosest(data[..mi], mid)
  }

  /** The corrected falling index: the last index when the trace ends
      above mid, else get_closest on data[mi:]. */
  function FixedFall(data: seq<real>, mi: nat, mid: real): (two: nat)
    requires mi < |data|
    ensures mi <= two < |data|
    ensures data[|data| - 1] > mid ==> two == |data| - 1
    ensures data[|data| - 1] <= mid ==> ClosestIn(data, mi, |data|, mid, two)
  {
    ClosestInSlice(data, mi, |data|, mid);
    if data[|data| - 1] > mid then |data| - 1
    else GetClosest(data[mi..], mid).value + mi
  }

  /** The corrected points bracket the peak: one <= peak <= two, with one
      the start or the first closest point of the rising side, and two the
      end or the first closest point of the falling side. */
  lemma EachEPSPFixedPoints(data: seq<real>, baseline: real, thresh: real, dt: real) returns (one: nat, two: nat)
    requires |data| > 0 && Max(data) >= baseline + thresh
    ensures EachEPSPFixed(data, baseline, thresh, dt)
            == if data[0] <= HalfWay(data, baseline) && Argmax(data) == 0 then Err(ValueError)
               else Ok(Width(dt, one, two))
    ensures one <= Argmax(data) <= two < |data|
    ensures data[0] > HalfWay(data, baseline) ==> one == 0
    ensures data[0] <= HalfWay(data, baseline) && 0 < Argmax(data) ==>
              one < Argmax(data) && ClosestIn(data, 0, Argmax(data), HalfWay(data, baseline), one)
    ensures data[|data| - 1] > HalfWay(data, baseline) ==> two == |data| - 1
    ensures data[|data| - 1] <= HalfWay(data, baseline) ==>
              ClosestIn(data, Argmax(data), |data|, HalfWay(data, baseline), two)
  {
    one, two := FixedPointsAt(data, Argmax(data), HalfWay(data, baseline), dt);
  }

  /** EachEPSPFixedPoints for a peak at mi and a half level mid. */
  lemma FixedPointsAt(data: seq<real>, mi: nat, mid: real, dt: real) returns (one: nat, two: nat)
    requires mi < |data|
    ensures (match FixedRise(data, mi, mid)
             case Err(e) => Err(e)
             case Ok(o) => Ok(Width(dt, o, FixedFall(data, mi, mid))))
            == if data[0] <= mid && mi == 0 then Err(ValueError) else Ok(Width(dt, one, two))
    ensures one <= mi <= two < |data|
    ensures data[0] > mid ==> one == 0
    ensures data[0] <= mid && 0 < mi ==> one < mi && ClosestIn(data, 0, mi, mid, one)
    ensures data[|data| - 1] > mid ==> two == |data| - 1
    ensures data[|data| - 1] <= mid ==> ClosestIn(data, mi, |data|, mid, two)
  {
    var rise := FixedRise(data, mi, mid);
    one := if rise.Ok? then rise.value else 0;
    two := FixedFall(data, mi, mid);
  }

  /** On a trace that starts and ends at or below half amplitude, the
      corrected Each_EPSP, given the trace's own baseline, is
      half_width_one_EPSP. */
  lemma EachEPSPFixedIsOneEPSP(data: seq<real>, thresh: real, dt: real)
    requires |data| > BaselineStart && Max(data) >= Baseline(data) + thresh
    requires data[0] <= HalfLevel(data) && data[|data| - 1] <= HalfLevel(data)
    ensures EachEPSPFixed(data, Baseline(data), thresh, dt) == HalfWidthOneEPSP(data, thresh, dt)
  {
    var mi := Argmax(data);
    var mid := HalfLevel(data);
    assert mid == HalfWay(data, Baseline(data));
    assert FixedRise(data, mi, mid) == GetClosest(data[..mi], mid);
    assert FixedFall(data, mi, mid) == GetClosest(data[mi..], mid).value + mi;
  }
}
