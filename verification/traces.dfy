/** Plateau measures on a recorded voltage trace sampled every dt ms.  The
    protocol leaves the first 150 ms (6000 samples at 0.025 ms) without
    stimulation: samples 4000..5999 give the baseline and everything from
    sample 6000 on is the stable part that is measured.  A trace of at most
    4000 samples has an empty baseline window (numpy's mean is NaN there);
    the model requires a longer trace. */
module Traces {
  import opened Wrappers
  import opened PyOps

  const BaselineStart: nat := 4000
  const StableStart: nat := 6000

  /** np.mean(data[4000:6000]) */
  function Baseline(data: seq<real>): real
    requires |data| > BaselineStart
  {
    Mean(data[BaselineStart..if |data| < StableStart then |data| else StableStart])
  }

  /** data[6000:] */
  function Stable(data: seq<real>): (st: seq<real>)
    ensures |st| == if |data| > StableStart then |data| - StableStart else 0
    ensures forall k :: 0 <= k < |st| ==> st[k] == data[StableStart + k]
  {
    From(data, StableStart)
  }

  /** meas_platdur: dt times the number of stable samples strictly above
      baseline + thresh. */
  function MeasPlatdur(data: seq<real>, thresh: real, dt: real): (r: real)
    requires |data| > BaselineStart
    ensures 0.0 <= dt ==> 0.0 <= r <= Duration(dt, |Stable(data)|)
    ensures 0.0 < dt ==>
              (r == 0.0 <==> forall k :: 0 <= k < |Stable(data)| ==> Stable(data)[k] <= Baseline(data) + thresh)
  {
    var st := Stable(data);
    var n := CountAbove(st, Baseline(data) + thresh);
    DurationMonotone(dt, n, |st|);
    Duration(dt, n)
  }

  /** A higher threshold never lengthens the measured plateau. */
  lemma MeasPlatdurAntitone(data: seq<real>, lo: real, hi: real, dt: real)
    requires |data| > BaselineStart && lo <= hi && 0.0 <= dt
    ensures MeasPlatdur(data, hi, dt) <= MeasPlatdur(data, lo, dt)
  {
    var st := Stable(data);
    var b := Baseline(data);
    CountAboveAntitone(st, b + lo, b + hi);
    DurationMonotone(dt, CountAbove(st, b + hi), CountAbove(st, b + lo));
  }

  /** int(0.75*idx2 + 0.25*idx1) for whole idx1 <= idx2: a point three
      quarters of the way from the first to the last above-threshold
      sample, computed in integers. */
  function ThreeQuarter(first: nat, last: nat): (i: nat)
    requires first <= last
    ensures first <= i <= last
  {
    first + (3 * (last - first)) / 4
  }

  /** The integer form is the truncated float expression of the source. */
  lemma ThreeQuarterIsTrunc(first: nat, last: nat)
    requires first <= last
    ensures ThreeQuarter(first, last) == Trunc(0.75 * (last as real) + 0.25 * (first as real))
  {
    var q := (3 * (last - first)) / 4;
    var rm := (3 * (last - first)) % 4;
    assert 3 * (last - first) == 4 * q + rm;
    var x := 0.75 * (last as real) + 0.25 * (first as real);
    assert x == (first + q) as real + (rm as real) / 4.0;
    assert 0.0 <= x;
    assert (first + q) as real <= x < (first + q) as real + 1.0;
  }

  /** Where soma_platamp_TTX reads the stable part: the first maximum when
      at most 15 samples exceed the level, otherwise three quarters of the
      way through the above-level stretch. */
  function PlateauPoint(st: seq<real>, level: real): (i: nat)
    requires st != []
    ensures i < |st|
    ensures CountAbove(st, level) <= 15 ==> forall k :: 0 <= k < |st| ==> st[k] <= st[i]
    ensures CountAbove(st, level) > 15 ==>
              var above := IndicesAbove(st, level);
              above[0] <= i <= above[|above| - 1]
  {
    var above := IndicesAbove(st, level);
    if |above| <= 15 then Argmax(st)
    else ThreeQuarter(above[0], above[|above| - 1])
  }

  /** soma_platamp_TTX: (index into data, amplitude), the amplitude being
      read at that index; ValueError when the stable part is empty. */
  function SomaPlatampTTX(data: seq<real>): (r: Result<(nat, real)>)
    requires |data| > BaselineStart
    ensures r.Ok? <==> |data| > StableStart
    ensures r.Err? ==> r.error == ValueError
    ensures r.Ok? ==> StableStart <= r.value.0 < |data|
    ensures r.Ok? ==> r.value.1 == data[r.value.0] - Baseline(data)
    ensures r.Ok? ==> r.value.0 == StableStart + PlateauPoint(Stable(data), Baseline(data) + 15.0)
  {
    var st := Stable(data);
    if st == [] then Err(ValueError)
    else
      var i := PlateauPoint(st, Baseline(data) + 15.0);
      Ok((i + StableStart, st[i] - Baseline(data)))
  }

  /** TTX_platamp: the amplitude alone. */
  function TTXPlatamp(data: seq<real>): (r: Result<real>)
    requires |data| > BaselineStart
    ensures r.Ok? <==> |data| > StableStart
    ensures r.Err? ==> r.error == ValueError
    ensures r.Ok? ==> r.value <= Max(Stable(data)) - Baseline(data)
  {
    var b := Baseline(data);
    var st := Stable(data);
    var above := IndicesAbove(st, b + 15.0);
    if |above| <= 15 then
      if st == [] then Err(ValueError) else Ok(Max(st) - b)
    else
      Ok(st[ThreeQuarter(above[0], above[|above| - 1])] - b)
  }

  /** TTX_platamp is the amplitude half of soma_platamp_TTX. */
  lemma TTXPlatampIsSomaAmplitude(data: seq<real>)
    requires |data| > BaselineStart
    ensures TTXPlatamp(data).Ok? == SomaPlatampTTX(data).Ok?
    ensures TTXPlatamp(data).Ok? ==> TTXPlatamp(data).value == SomaPlatampTTX(data).value.1
  {
    var st := Stable(data);
    if st != [] {
      var level := Baseline(data) + 15.0;
      var i := PlateauPoint(st, level);
      assert SomaPlatampTTX(data).value.1 == st[i] - Baseline(data);
      if CountAbove(st, level) <= 15 {
        assert st[i] == Max(st);
      }
    }
  }

  /** soma_platdur_TTX: dt times the number of stable samples above
      baseline + amp/2, amp being soma_platamp_TTX's amplitude. */
  function SomaPlatdurTTX(data: seq<real>, dt: real): (r: Result<real>)
    requires |data| > BaselineStart
    ensures r.Ok? <==> |data| > StableStart
    ensures r.Ok? && 0.0 <= dt ==> 0.0 <= r.value <= Duration(dt, |data| - StableStart)
    ensures r.Ok? && 0.0 <= dt && SomaPlatampTTX(data).value.1 > 0.0 ==> dt <= r.value
  {
    match SomaPlatampTTX(data)
    case Err(e) => Err(e)
    case Ok((idx, amp)) =>
      var st := Stable(data);
      var b := Baseline(data);
      var n := CountAbove(st, b + amp / 2.0);
      assert amp > 0.0 ==> st[idx - StableStart] > b + amp / 2.0;
      DurationMonotone(dt, n, |st|);
      if amp > 0.0 then
        DurationMonotone(dt, 1, n);
        Ok(Duration(dt, n))
      else Ok(Duration(dt, n))
  }

  /** dend_plat and TTX_dend_plat (the same computation): the amplitude at
      data[idx] (a Python index, negative counts from the end) and dt times
      the number of stable samples above baseline + amplitude/2. */
  function DendPlat(data: seq<real>, idx: int, dt: real): (r: Result<(real, real)>)
    requires |data| > BaselineStart
    ensures r.Ok? <==> -|data| <= idx < |data|
    ensures r.Err? ==> r.error == IndexError
    ensures r.Ok? ==> r.value.0 == PyAt(data, idx).value - Baseline(data)
    ensures r.Ok? && 0.0 <= dt ==> 0.0 <= r.value.1 <= Duration(dt, |Stable(data)|)
    ensures r.Ok? && 0.0 <= dt && r.value.0 > 0.0 && StableStart <= idx ==> dt <= r.value.1
  {
    match PyAt(data, idx)
    case None => Err(IndexError)
    case Some(v) =>
      var b := Baseline(data);
      var st := Stable(data);
      var amp := v - b;
      var n := CountAbove(st, b + amp * 0.5);
      assert amp > 0.0 && StableStart <= idx ==> st[idx - StableStart] > b + amp * 0.5;
      DurationMonotone(dt, n, |st|);
      if amp > 0.0 && StableStart <= idx then
        DurationMonotone(dt, 1, n);
        Ok((amp, Duration(dt, n)))
      else Ok((amp, Duration(dt, n)))
  }

  /** v_curr_inj: the stable maximum above baseline. */
  function VCurrInj(data: seq<real>): (r: Result<real>)
    requires |data| > BaselineStart
    ensures r.Ok? <==> |data| > StableStart
    ensures r.Err? ==> r.error == ValueError
    ensures r.Ok? ==> data[StableStart] - Baseline(data) <= r.value
    ensures r.Ok? ==> forall k :: 0 <= k < |Stable(data)| ==> Stable(data)[k] - Baseline(data) <= r.value
  {
    var st := Stable(data);
    if st == [] then Err(ValueError)
    else
      assert st[0] == data[StableStart];
      Ok(Max(st) - Baseline(data))
  }

  /** single_spike: (peak_v, peak_t), the stable maximum above baseline and
      the time of its first occurrence. */
  function SingleSpike(data: seq<real>, dt: real): (r: Result<(real, real)>)
    requires |data| > BaselineStart
    ensures r.Ok? <==> |data| > StableStart
    ensures r.Ok? ==>
              exists k :: StableStart <= k < |data| && r.value.1 == Duration(dt, k)
                && data[k] == r.value.0 + Baseline(data)
                && (forall j :: 0 <= j < |Stable(data)| ==> Stable(data)[j] <= data[k])
                && (forall j :: 0 <= j < k - StableStart ==> Stable(data)[j] < data[k])
  {
    var st := Stable(data);
    if st == [] then Err(ValueError)
    else
      var i := Argmax(st);
      assert data[i + StableStart] == st[i];
      Ok((Max(st) - Baseline(data), Duration(dt, i + StableStart)))
  }

  /** single_spike's peak voltage is v_curr_inj's amplitude. */
  lemma SingleSpikePeakIsVCurrInj(data: seq<real>, dt: real)
    requires |data| > BaselineStart
    ensures SingleSpike(data, dt).Ok? == VCurrInj(data).Ok?
    ensures SingleSpike(data, dt).Ok? ==> SingleSpike(data, dt).value.0 == VCurrInj(data).value
  {
  }
}
