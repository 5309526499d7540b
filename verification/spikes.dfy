/** Spike and EPSP detection on a recorded trace: the threshold-crossing
    counter, the local-maximum peak finder, the minima between consecutive
    spikes, and the plateau amplitude read off them. */
module Spikes {
  import opened Wrappers
  import opened PyOps
  import opened Traces

  // ----- spike_count -----

  /** Sample i closes a counted spike: it is at or above thresh, the next
      one is below, and some earlier sample was below thresh (the upward
      crossing that armed the counter). */
  predicate SpikeEnd(data: seq<real>, thresh: real, i: nat)
    requires i + 1 < |data|
  {
    data[i] >= thresh && data[i + 1] < thresh && exists j :: 0 <= j < i && data[j] < thresh
  }

  /** The number of spike ends among the first n samples. */
  function Ends(data: seq<real>, thresh: real, n: nat): (c: nat)
    requires n < |data|
    ensures c <= n
  {
    if n == 0 then 0
    else Ends(data, thresh, n - 1) + (if SpikeEnd(data, thresh, n - 1) then 1 else 0)
  }

  /** The number of spikes spike_count reports. */
  function SpikeCount(data: seq<real>, thresh: real): nat
  {
    if |data| == 0 then 0 else Ends(data, thresh, |data| - 1)
  }

  /** spike_count: a flag is raised on an upward crossing of thresh and a
      spike is counted on the next downward crossing. */
  method CountSpikes(data: seq<real>, thresh: real) returns (count: nat)
    ensures count == SpikeCount(data, thresh)
    ensures 2 * count <= if |data| == 0 then 0 else |data| - 1
  {
    var flag := false;
    count := 0;
    if |data| == 0 {
      return;
    }
    var i := 0;
    while i < |data| - 1
      invariant 0 <= i <= |data| - 1
      invariant flag == (data[i] >= thresh && exists j :: 0 <= j < i && data[j] < thresh)
      invariant count == Ends(data, thresh, i)
      invariant 2 * count + (if flag then 1 else 0) <= i
    {
      if !flag && data[i] < thresh && data[i + 1] >= thresh {
        flag := true;
      } else if flag && data[i] >= thresh && data[i + 1] < thresh {
        count := count + 1;
        flag := false;
      }
      i := i + 1;
    }
  }

  /** A trace that never reaches thresh has no spike, and neither has one
      that never drops below it. */
  lemma {:induction false} NoCrossingNoSpike(data: seq<real>, thresh: real, n: nat)
    requires n < |data|
    requires (forall k :: 0 <= k < |data| ==> data[k] < thresh)
          || (forall k :: 0 <= k < |data| ==> data[k] >= thresh)
    ensures Ends(data, thresh, n) == 0
  {
    if n > 0 {
      NoCrossingNoSpike(data, thresh, n - 1);
    }
  }

  // ----- get_EPSPs -----

  /** Sample j of the stable part (j >= 6000) is a peak at or above level:
      larger than the sample before it and not smaller than the one after.
      For the first stable sample, "before" is Python's stable[-1], the last
      sample of the trace. */
  predicate IsPeak(data: seq<real>, level: real, j: nat)
    requires StableStart <= j && j + 1 < |data|
  {
    var prev := if j == StableStart then data[|data| - 1] else data[j - 1];
    data[j] >= level && data[j] > prev && data[j] >= data[j + 1]
  }

  /** The peaks among samples 6000..n-1, in order. */
  function PeaksBefore(data: seq<real>, level: real, n: nat): (q: seq<nat>)
    requires StableStart <= n < |data|
    ensures |q| <= n - StableStart
    ensures forall k :: 0 <= k < |q| ==> StableStart <= q[k] < n
    decreases n
  {
    if n == StableStart then []
    else PeaksBefore(data, level, n - 1) + (if IsPeak(data, level, n - 1) then [n - 1] else [])
  }

  /** PeaksBefore lists exactly the peaks below n, in increasing order. */
  lemma {:induction false} PeaksBeforeExact(data: seq<real>, level: real, n: nat)
    requires StableStart <= n < |data|
    ensures forall k :: 0 <= k < |PeaksBefore(data, level, n)| ==> IsPeak(data, level, PeaksBefore(data, level, n)[k])
    ensures Increasing(PeaksBefore(data, level, n))
    ensures forall j :: StableStart <= j < n && IsPeak(data, level, j) ==> j in PeaksBefore(data, level, n)
    decreases n
  {
    if n > StableStart {
      PeaksBeforeExact(data, level, n - 1);
    }
  }

  /** The indexes (into data) of the peaks get_EPSPs reports. */
  function PeakIndexes(data: seq<real>, thresh: real): (q: seq<nat>)
    requires |data| > BaselineStart
    ensures forall k :: 0 <= k < |q| ==> StableStart <= q[k] && q[k] + 1 < |data|
    ensures Increasing(q)
  {
    if |data| <= StableStart then []
    else
      PeaksBeforeExact(data, Baseline(data) + thresh, |data| - 1);
      PeaksBefore(data, Baseline(data) + thresh, |data| - 1)
  }

  /** The reported indexes are exactly the peaks of the stable part that
      reach baseline + thresh (the last sample is never one). */
  lemma PeakIndexesExact(data: seq<real>, thresh: real)
    requires |data| > BaselineStart
    ensures forall k :: 0 <= k < |PeakIndexes(data, thresh)| ==>
              IsPeak(data, Baseline(data) + thresh, PeakIndexes(data, thresh)[k])
    ensures forall j :: StableStart <= j && j + 1 < |data| && IsPeak(data, Baseline(data) + thresh, j) ==>
              j in PeakIndexes(data, thresh)
  {
    if |data| > StableStart {
      PeaksBeforeExact(data, Baseline(data) + thresh, |data| - 1);
    }
  }

  /** (time, voltage) of the samples at indexes q. */
  function Stamped(data: seq<real>, q: seq<nat>, dt: real): (r: seq<(real, real)>)
    requires forall k :: 0 <= k < |q| ==> q[k] < |data|
    ensures |r| == |q|
  {
    if q == [] then []
    else Stamped(data, q[..|q| - 1], dt) + [(Duration(dt, q[|q| - 1]), data[q[|q| - 1]])]
  }

  /** Entry k of Stamped is the time and the voltage of sample q[k]. */
  lemma {:induction false} StampedAt(data: seq<real>, q: seq<nat>, dt: real, k: nat)
    requires forall k :: 0 <= k < |q| ==> q[k] < |data|
    requires k < |q|
    ensures Stamped(data, q, dt)[k] == (Duration(dt, q[k]), data[q[k]])
  {
    if k + 1 < |q| {
      StampedAt(data, q[..|q| - 1], dt, k);
    }
  }

  /** get_EPSPs as a value: the time and voltage of every peak index. */
  function EPSPs(data: seq<real>, thresh: real, dt: real): (r: seq<(real, real)>)
    requires |data| > BaselineStart
    ensures |r| == |PeakIndexes(data, thresh)|
  {
    Stamped(data, PeakIndexes(data, thresh), dt)
  }

  /** Entry k of get_EPSPs is the time (index times dt) and the voltage of
      the k-th peak. */
  lemma EPSPsAt(data: seq<real>, thresh: real, dt: real, k: nat)
    requires |data| > BaselineStart
    requires k < |EPSPs(data, thresh, dt)|
    ensures EPSPs(data, thresh, dt)[k]
            == (Duration(dt, PeakIndexes(data, thresh)[k]), data[PeakIndexes(data, thresh)[k]])
  {
    StampedAt(data, PeakIndexes(data, thresh), dt, k);
  }

  /** Every reported voltage reaches baseline + thresh, and for dt > 0 the
      reported times strictly increase. */
  lemma EPSPsOrdered(data: seq<real>, thresh: real, dt: real)
    requires |data| > BaselineStart
    ensures forall k :: 0 <= k < |EPSPs(data, thresh, dt)| ==> EPSPs(data, thresh, dt)[k].1 >= Baseline(data) + thresh
    ensures 0.0 < dt ==>
              forall k, l :: 0 <= k < l < |EPSPs(data, thresh, dt)| ==> EPSPs(data, thresh, dt)[k].0 < EPSPs(data, thresh, dt)[l].0
  {
    var q := PeakIndexes(data, thresh);
    var r := EPSPs(data, thresh, dt);
    PeakIndexesExact(data, thresh);
    forall k | 0 <= k < |r|
      ensures r[k].1 >= Baseline(data) + thresh
    {
      EPSPsAt(data, thresh, dt, k);
    }
    forall k, l | 0 <= k < l < |r| && 0.0 < dt
      ensures r[k].0 < r[l].0
    {
      EPSPsAt(data, thresh, dt, k);
      EPSPsAt(data, thresh, dt, l);
      DurationMonotone(dt, q[k], q[l]);
    }
  }

  /** One more sample scanned: its peak, if it is one, is appended. */
  lemma StampedNext(data: seq<real>, level: real, j: nat, dt: real)
    requires StableStart <= j && j + 1 < |data|
    ensures IsPeak(data, level, j) ==>
              Stamped(data, PeaksBefore(data, level, j + 1), dt)
              == Stamped(data, PeaksBefore(data, level, j), dt) + [(Duration(dt, j), data[j])]
    ensures !IsPeak(data, level, j) ==>
              Stamped(data, PeaksBefore(data, level, j + 1), dt) == Stamped(data, PeaksBefore(data, level, j), dt)
  {
    var q := PeaksBefore(data, level, j);
    if IsPeak(data, level, j) {
      var q' := q + [j];
      assert PeaksBefore(data, level, j + 1) == q';
      assert q'[..|q'| - 1] == q && q'[|q'| - 1] == j;
      assert Stamped(data, q', dt) == Stamped(data, q, dt) + [(Duration(dt, j), data[j])];
    } else {
      assert PeaksBefore(data, level, j + 1) == q;
    }
  }

  /** get_EPSPs: a loop over stable[:-1] appending (time, value) at each
      peak; stable[i] is data[6000 + i], so the loop runs over data indexes. */
  method GetEPSPs(data: seq<real>, thresh: real, dt: real) returns (peaks: seq<(real, real)>)
    requires |data| > BaselineStart
    ensures peaks == EPSPs(data, thresh, dt)
  {
    EPSPsScan(data, thresh, dt);
    if |data| <= StableStart {
      return [];
    }
    peaks := ScanPeaks(data, Baseline(data) + thresh, dt);
  }

  /** The loop of get_EPSPs over the stable part, for peaks at or above
      level. */
  method ScanPeaks(data: seq<real>, level: real, dt: real) returns (peaks: seq<(real, real)>)
    requires StableStart < |data|
    ensures peaks == Stamped(data, PeaksBefore(data, level, |data| - 1), dt)
  {
    peaks := [];
    var j := StableStart;
    while j < |data| - 1
      invariant StableStart <= j <= |data| - 1
      invariant peaks == Stamped(data, PeaksBefore(data, level, j), dt)
    {
      StampedNext(data, level, j, dt);
      if IsPeak(data, level, j) {
        peaks := peaks + [(Duration(dt, j), data[j])];
      }
      j := j + 1;
    }
  }

  /** get_EPSPs' result is that of a scan of the stable part. */
  lemma EPSPsScan(data: seq<real>, thresh: real, dt: real)
    requires |data| > BaselineStart
    ensures |data| <= StableStart ==> EPSPs(data, thresh, dt) == []
    ensures |data| > StableStart ==>
              EPSPs(data, thresh, dt) == Stamped(data, PeaksBefore(data, Baseline(data) + thresh, |data| - 1), dt)
  {
  }

  // ----- IST_spikes -----

  /** Differences of consecutive times among the first n entries of s. */
  function Intervals(s: seq<(real, real)>, n: nat): (r: seq<real>)
    requires n <= |s|
    ensures |r| == if n == 0 then 0 else n - 1
  {
    if n <= 1 then [] else Intervals(s, n - 1) + [s[n - 1].0 - s[n - 2].0]
  }

  /** The intervals add up to the span from the first time to the last. */
  lemma {:induction false} IntervalsTelescope(s: seq<(real, real)>, n: nat)
    requires 1 <= n <= |s|
    ensures Sum(Intervals(s, n)) == s[n - 1].0 - s[0].0
  {
    if n > 1 {
      IntervalsTelescope(s, n - 1);
      var r := Intervals(s, n);
      assert r[..|r| - 1] == Intervals(s, n - 1);
    }
  }

  /** np.min and np.argmin of data[lo:hi]: the smallest sample and the
      first index holding it. */
  function WindowMin(data: seq<real>, lo: nat, hi: nat): (p: (real, nat))
    requires lo < hi <= |data|
    ensures lo <= p.1 < hi && data[p.1] == p.0
    decreases hi - lo
  {
    if lo + 1 == hi then (data[lo], lo)
    else
      var m := WindowMin(data, lo + 1, hi);
      if data[lo] <= m.0 then (data[lo], lo) else m
  }

  /** WindowMin is the smallest sample of the window and its first
      occurrence. */
  lemma {:induction false} WindowMinIsFirstMin(data: seq<real>, lo: nat, hi: nat)
    requires lo < hi <= |data|
    ensures forall j :: lo <= j < hi ==> WindowMin(data, lo, hi).0 <= data[j]
    ensures forall j :: lo <= j < WindowMin(data, lo, hi).1 ==> WindowMin(data, lo, hi).0 < data[j]
    decreases hi - lo
  {
    if lo + 1 < hi {
      WindowMinIsFirstMin(data, lo + 1, hi);
    }
  }

  /** For each pair of consecutive indexes q[k] < q[k+1] among the first n,
      the smallest sample in data[q[k]:q[k+1]] and the first index holding
      it (the lists spike_mvalue and spike_midx). */
  function GapMinima(data: seq<real>, q: seq<nat>, n: nat): (r: (seq<real>, seq<nat>))
    requires n <= |q|
    requires forall k :: 0 <= k < |q| ==> q[k] < |data|
    requires Increasing(q)
    ensures |r.0| == (if n == 0 then 0 else n - 1) && |r.1| == |r.0|
  {
    if n <= 1 then ([], [])
    else
      var init := GapMinima(data, q, n - 1);
      var m := WindowMin(data, q[n - 2], q[n - 1]);
      (init.0 + [m.0], init.1 + [m.1])
  }

  /** Entry k of the gap minima is the minimum of the k-th gap. */
  lemma {:induction false} GapMinimaAt(data: seq<real>, q: seq<nat>, n: nat, k: nat)
    requires n <= |q|
    requires forall k :: 0 <= k < |q| ==> q[k] < |data|
    requires Increasing(q)
    requires k + 1 < n
    ensures GapMinima(data, q, n).0[k] == WindowMin(data, q[k], q[k + 1]).0
    ensures GapMinima(data, q, n).1[k] == WindowMin(data, q[k], q[k + 1]).1
  {
    if k + 2 < n {
      GapMinimaAt(data, q, n - 1, k);
    }
  }

  /** Each reported minimum lies in its gap, at or after the earlier spike
      and before the later one; it is the smallest sample there and its
      first occurrence. */
  lemma GapMinimaInGap(data: seq<real>, q: seq<nat>, k: nat)
    requires forall k :: 0 <= k < |q| ==> q[k] < |data|
    requires Increasing(q)
    requires k + 1 < |q|
    ensures q[k] <= GapMinima(data, q, |q|).1[k] < q[k + 1]
    ensures data[GapMinima(data, q, |q|).1[k]] == GapMinima(data, q, |q|).0[k]
    ensures forall j :: q[k] <= j < q[k + 1] ==> GapMinima(data, q, |q|).0[k] <= data[j]
    ensures forall j :: q[k] <= j < GapMinima(data, q, |q|).1[k] ==> GapMinima(data, q, |q|).0[k] < data[j]
  {
    GapMinimaAt(data, q, |q|, k);
    WindowMinIsFirstMin(data, q[k], q[k + 1]);
  }

  /** IST_spikes: (mean inter-spike interval, minima between consecutive
      spikes, their indexes), spikes being get_EPSPs peaks 60 mV above
      baseline.  Fewer than two spikes give (0, [], []); with two or more,
      dt = 0 raises ZeroDivisionError. */
  function Ist(data: seq<real>, dt: real): (r: Result<(real, seq<real>, seq<nat>)>)
    requires |data| > BaselineStart
    ensures r.Err? <==> |EPSPs(data, 60.0, dt)| >= 2 && dt == 0.0
    ensures r.Err? ==> r.error == ZeroDivisionError
    ensures r.Ok? && |EPSPs(data, 60.0, dt)| <= 1 ==> r.value.0 == 0.0 && r.value.1 == [] && r.value.2 == []
    ensures r.Ok? && |EPSPs(data, 60.0, dt)| >= 2 ==>
              r.value.0 == (EPSPs(data, 60.0, dt)[|EPSPs(data, 60.0, dt)| - 1].0 - EPSPs(data, 60.0, dt)[0].0)
                           / ((|EPSPs(data, 60.0, dt)| - 1) as real)
    ensures r.Ok? ==> |r.value.1| == |r.value.2| == (if |EPSPs(data, 60.0, dt)| <= 1 then 0 else |EPSPs(data, 60.0, dt)| - 1)
    ensures r.Ok? && |EPSPs(data, 60.0, dt)| >= 2 ==>
              (r.value.1, r.value.2) == GapMinima(data, PeakIndexes(data, 60.0), |PeakIndexes(data, 60.0)|)
  {
    var s := EPSPs(data, 60.0, dt);
    var q := PeakIndexes(data, 60.0);
    if |s| <= 1 then Ok((0.0, [], []))
    else if dt == 0.0 then Err(ZeroDivisionError)
    else
      var g := GapMinima(data, q, |q|);
      var ist := Intervals(s, |s|);
      IntervalsTelescope(s, |s|);
      assert Mean(ist) == (s[|s| - 1].0 - s[0].0) / ((|s| - 1) as real);
      Ok((Mean(ist), g.0, g.1))
  }

  /** round(time/dt) of a reported spike is its sample index. */
  lemma SpikeSample(data: seq<real>, dt: real, i: nat)
    requires |data| > BaselineStart && dt != 0.0
    requires i < |EPSPs(data, 60.0, dt)|
    ensures Round(EPSPs(data, 60.0, dt)[i].0 / dt) == PeakIndexes(data, 60.0)[i]
  {
    EPSPsAt(data, 60.0, dt, i);
    SampleOfTime(dt, PeakIndexes(data, 60.0)[i]);
  }

  /** IST_spikes: the loop over consecutive spikes, recovering each
      spike's sample index as round(time/dt). */
  method IstSpikes(data: seq<real>, dt: real) returns (r: Result<(real, seq<real>, seq<nat>)>)
    requires |data| > BaselineStart
    ensures r == Ist(data, dt)
  {
    var spikes := GetEPSPs(data, 60.0, dt);
    var count := |spikes|;
    if count <= 1 {
      return Ok((0.0, [], []));
    }
    ghost var q := PeakIndexes(data, 60.0);
    var ist: seq<real> := [];
    var mv: seq<real> := [];
    var mi: seq<nat> := [];
    var i := 0;
    while i < count - 1
      invariant 0 <= i <= count - 1
      invariant i > 0 ==> dt != 0.0
      invariant ist == Intervals(spikes, i + 1)
      invariant (mv, mi) == GapMinima(data, q, i + 1)
    {
      ist := ist + [spikes[i + 1].0 - spikes[i].0];
      if dt == 0.0 {
        return Err(ZeroDivisionError);
      }
      var idx1 := Round(spikes[i].0 / dt);
      var idx2 := Round(spikes[i + 1].0 / dt);
      SpikeSample(data, dt, i);
      SpikeSample(data, dt, i + 1);
      var m := WindowMin(data, idx1, idx2);
      mv := mv + [m.0];
      mi := mi + [m.1];
      i := i + 1;
    }
    r := Ok((Mean(ist), mv, mi));
  }
}
