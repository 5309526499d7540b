/** Plateau amplitude of a somatic trace after glutamate stimulation, read
    according to how many spikes (0 mV crossings) the stable part holds:
    with none, the stable maximum; with one, the sample 5 ms after the
    spike peak; with two or more, the trough before the last spike. */
module Plateau {
  import opened Wrappers
  import opened PyOps
  import opened Traces
  import opened Spikes

  /** Milliseconds skipped after a single spike before the plateau is read. */
  const SpikeGap: real := 5.0

  /** spike_count(stable) with its default threshold of 0 mV. */
  function StableSpikes(data: seq<real>): nat
  {
    SpikeCount(Stable(data), 0.0)
  }

  /** The Python index read after a single spike: int(5/dt) samples past
      the first maximum of the whole trace. */
  function AfterSpikeIndex(data: seq<real>, dt: real): (i: int)
    requires |data| > 0 && dt != 0.0
    ensures 0.0 < dt ==> Argmax(data) <= i
    ensures dt < 0.0 ==> i <= Argmax(data)
  {
    Argmax(data) + Trunc(SpikeGap / dt)
  }

  /** The last inter-spike trough: its index and value, when IST_spikes
      reports at least one. */
  function LastTrough(data: seq<real>, dt: real): (r: Result<(nat, real)>)
    requires |data| > BaselineStart
    ensures |PeakIndexes(data, 60.0)| <= 1 ==> r == Err(IndexError)
    ensures |PeakIndexes(data, 60.0)| >= 2 && dt == 0.0 ==> r == Err(ZeroDivisionError)
    ensures |PeakIndexes(data, 60.0)| >= 2 && dt != 0.0 ==> r.Ok?
    ensures r.Ok? ==>
              var q := PeakIndexes(data, 60.0);
              |q| >= 2 && q[|q| - 2] <= r.value.0 < q[|q| - 1] && data[r.value.0] == r.value.1
              && (forall j :: q[|q| - 2] <= j < q[|q| - 1] ==> r.value.1 <= data[j])
  {
    match Ist(data, dt)
    case Err(e) => Err(e)
    case Ok((_, mv, mi)) =>
      if mv == [] then Err(IndexError)
      else
        var q := PeakIndexes(data, 60.0);
        GapMinimaInGap(data, q, |q| - 2);
        Ok((mi[|mi| - 1], mv[|mv| - 1]))
  }

  /** meas_platamp: (ISI, amplitude).  No spike: the stable maximum above
      baseline (ValueError when the stable part is empty).  One spike: the
      sample 5 ms after the trace maximum.  Two or more: the last
      inter-spike trough, which fails when fewer than two 60 mV peaks are
      found. */
  function MeasPlatamp(data: seq<real>, dt: real): (r: Result<(real, real)>)
    requires |data| > BaselineStart
    ensures StableSpikes(data) == 0 ==>
              (r.Ok? <==> |data| > StableStart)
              && (r.Ok? ==> r.value == (0.0, Max(Stable(data)) - Baseline(data)))
    ensures StableSpikes(data) == 0 && r.Err? ==> r.error == ValueError
    ensures StableSpikes(data) == 1 && dt == 0.0 ==> r == Err(ZeroDivisionError)
    ensures StableSpikes(data) == 1 && dt != 0.0 ==>
              (r.Ok? <==> PyAt(data, AfterSpikeIndex(data, dt)).Some?)
              && (r.Ok? ==> r.value == (0.0, PyAt(data, AfterSpikeIndex(data, dt)).value - Baseline(data)))
    ensures StableSpikes(data) == 1 && dt != 0.0 && r.Err? ==> r.error == IndexError
    ensures StableSpikes(data) >= 2 ==>
              (r.Ok? <==> LastTrough(data, dt).Ok?)
              && (r.Ok? ==> r.value.0 == Ist(data, dt).value.0
                            && r.value.1 == LastTrough(data, dt).value.1 - Baseline(data))
    ensures StableSpikes(data) >= 2 && r.Err? ==> r.error == LastTrough(data, dt).error
  {
    var b := Baseline(data);
    var st := Stable(data);
    var n := StableSpikes(data);
    if n == 0 then
      if st == [] then Err(ValueError) else Ok((0.0, Max(st) - b))
    else if n == 1 then
      if dt == 0.0 then Err(ZeroDivisionError)
      else
        match PyAt(data, AfterSpikeIndex(data, dt))
        case None => Err(IndexError)
        case Some(v) => Ok((0.0, v - b))
    else
      match LastTrough(data, dt)
      case Err(e) => Err(e)
      case Ok((_, m)) => Ok((Ist(data, dt).value.0, m - b))
  }

  /** soma_plat as written: (index, amplitude) with the same three cases as
      meas_platamp; with no spike the index is the first maximum of the
      whole trace, while the amplitude is read from the stable part. */
  function SomaPlat(data: seq<real>, dt: real): (r: Result<(int, real)>)
    requires |data| > BaselineStart
    ensures StableSpikes(data) == 0 ==> (r.Ok? <==> |data| > StableStart)
    ensures StableSpikes(data) == 0 && r.Ok? ==> r.value == (Argmax(data) as int, Max(Stable(data)) - Baseline(data))
    ensures StableSpikes(data) != 0 && r.Ok? ==> PyAt(data, r.value.0) == Some(r.value.1 + Baseline(data))
  {
    if StableSpikes(data) == 0 then QuietPlat(data)
    else SpikingPlat(data, dt)
  }

  /** With two or more spikes, soma_plat's index lies between the last two
      60 mV peaks. */
  lemma SomaPlatTrough(data: seq<real>, dt: real)
    requires |data| > BaselineStart && StableSpikes(data) >= 2 && SomaPlat(data, dt).Ok?
    ensures var q := PeakIndexes(data, 60.0);
            |q| >= 2 && q[|q| - 2] <= SomaPlat(data, dt).value.0 < q[|q| - 1]
  {
    assert SomaPlat(data, dt) == SpikingPlat(data, dt);
  }

  /** soma_plat with no spike: the first maximum of the whole trace and the
      stable maximum above baseline; ValueError when the stable part is
      empty. */
  function QuietPlat(data: seq<real>): (r: Result<(int, real)>)
    requires |data| > BaselineStart
    ensures r.Ok? <==> |data| > StableStart
    ensures r.Err? ==> r.error == ValueError
    ensures r.Ok? ==> r.value == (Argmax(data) as int, Max(Stable(data)) - Baseline(data))
  {
    var st := Stable(data);
    if st == [] then Err(ValueError) else Ok((Argmax(data), Max(st) - Baseline(data)))
  }

  /** soma_plat with at least one spike. */
  function SpikingPlat(data: seq<real>, dt: real): (r: Result<(int, real)>)
    requires |data| > BaselineStart && StableSpikes(data) != 0
    ensures r.Ok? ==> PyAt(data, r.value.0) == Some(r.value.1 + Baseline(data))
    ensures StableSpikes(data) >= 2 && r.Ok? ==>
              var q := PeakIndexes(data, 60.0);
              |q| >= 2 && q[|q| - 2] <= r.value.0 < q[|q| - 1]
  {
    var b := Baseline(data);
    if StableSpikes(data) == 1 then
      if dt == 0.0 then Err(ZeroDivisionError)
      else
        var idx := AfterSpikeIndex(data, dt);
        match PyAt(data, idx)
        case None => Err(IndexError)
        case Some(v) => Ok((idx, v - b))
    else
      match LastTrough(data, dt)
      case Err(e) => Err(e)
      case Ok((i, m)) => Ok((i, m - b))
  }

  /** soma_plat and meas_platamp report the same amplitude and fail alike. */
  lemma SomaPlatAmplitude(data: seq<real>, dt: real)
    requires |data| > BaselineStart
    ensures SomaPlat(data, dt).Ok? <==> MeasPlatamp(data, dt).Ok?
    ensures SomaPlat(data, dt).Ok? ==> SomaPlat(data, dt).value.1 == MeasPlatamp(data, dt).value.1
  {
  }

  /** With no spike, soma_plat's index can fall before the stable part and
      then does not hold the amplitude it reports: when an earlier sample
      exceeds every stable sample, the index is below 6000 and the sample
      there lies above baseline + amplitude. */
  lemma {:induction false} SomaPlatIndexMissesPlateau(data: seq<real>, dt: real, k: nat)
    requires |data| > StableStart && k < StableStart
    requires forall j :: StableStart <= j < |data| ==> data[j] < 0.0
    requires forall j :: StableStart <= j < |data| ==> data[j] < data[k]
    ensures SomaPlat(data, dt).Ok?
    ensures 0 <= SomaPlat(data, dt).value.0 < StableStart
    ensures data[SomaPlat(data, dt).value.0] > SomaPlat(data, dt).value.1 + Baseline(data)
  {
    var st := Stable(data);
    NoCrossingNoSpike(st, 0.0, |st| - 1);
    assert StableSpikes(data) == 0;
    PeakBeforeStable(data, k);
  }

  /** When an earlier sample exceeds every stable one, the trace's first
      maximum lies before the stable part and above the stable maximum. */
  lemma PeakBeforeStable(data: seq<real>, k: nat)
    requires |data| > StableStart && k < StableStart
    requires forall j :: StableStart <= j < |data| ==> data[j] < data[k]
    ensures Argmax(data) < StableStart && data[Argmax(data)] > Max(Stable(data))
  {
    var st := Stable(data);
    var i := Argmax(data);
    assert data[k] <= data[i];
    var m := Argmax(st);
    assert st[m] == data[StableStart + m];
    assert Max(st) < data[k];
  }

  /** soma_plat with the no-spike index taken in the stable part, so that
      in every case the returned index holds the returned amplitude. */
  function SomaPlatFixed(data: seq<real>, dt: real): Result<(int, real)>
    requires |data| > BaselineStart
  {
    var st := Stable(data);
    if StableSpikes(data) != 0 then SomaPlat(data, dt)
    else if st == [] then Err(ValueError)
    else Ok((StableStart + Argmax(st), Max(st) - Baseline(data)))
  }

  /** In every case the index the fixed soma_plat returns holds the
      amplitude it reports (above baseline); with no spike it lies in the
      stable part. */
  lemma SomaPlatFixedIndex(data: seq<real>, dt: real)
    requires |data| > BaselineStart
    ensures SomaPlatFixed(data, dt).Ok? ==>
              PyAt(data, SomaPlatFixed(data, dt).value.0) == Some(SomaPlatFixed(data, dt).value.1 + Baseline(data))
    ensures StableSpikes(data) == 0 && SomaPlatFixed(data, dt).Ok? ==>
              StableStart <= SomaPlatFixed(data, dt).value.0 < |data|
  {
    var st := Stable(data);
    if StableSpikes(data) == 0 && st != [] {
      var i := Argmax(st);
      assert data[StableStart + i] == st[i];
    }
  }

  /** The fixed soma_plat fails exactly when soma_plat does, reports the
      same amplitude, and differs from it only in the no-spike index. */
  lemma SomaPlatFixedAgrees(data: seq<real>, dt: real)
    requires |data| > BaselineStart
    ensures SomaPlatFixed(data, dt).Ok? <==> SomaPlat(data, dt).Ok?
    ensures SomaPlatFixed(data, dt).Ok? ==> SomaPlatFixed(data, dt).value.1 == SomaPlat(data, dt).value.1
    ensures StableSpikes(data) != 0 ==> SomaPlatFixed(data, dt) == SomaPlat(data, dt)
  {
  }
}
