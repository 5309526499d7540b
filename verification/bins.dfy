/** Distance binning of the back-propagating action potential analysis:
    map_bin labels a distance with the bin of freq_bins it falls in, using
    numpy's digitize on increasing bins. */
module Bins {
  import opened Wrappers
  import opened PyOps

  /** numpy's digitize demands monotonic bins; these are increasing. */
  predicate Sorted(bins: seq<real>)
  {
    forall i, j :: 0 <= i <= j < |bins| ==> bins[i] <= bins[j]
  }

  /** Whether bin edge b lies to the left of x: b <= x, or b < x with
      right=True. */
  predicate LeftOf(b: real, x: real, right: bool)
  {
    if right then b < x else b <= x
  }

  /** np.digitize([x], bins, right=right)[0] for increasing bins: the
      number of edges to the left of x. */
  function Digitize(x: real, bins: seq<real>, right: bool): (i: nat)
    ensures i <= |bins|
  {
    if bins == [] then 0
    else Digitize(x, bins[..|bins| - 1], right) + (if LeftOf(bins[|bins| - 1], x, right) then 1 else 0)
  }

  /** On increasing bins, the edges left of x are exactly the first
      Digitize(x, bins, right) ones. */
  lemma {:induction false} DigitizeSplits(x: real, bins: seq<real>, right: bool)
    requires Sorted(bins)
    ensures forall k :: 0 <= k < Digitize(x, bins, right) ==> LeftOf(bins[k], x, right)
    ensures forall k :: Digitize(x, bins, right) <= k < |bins| ==> !LeftOf(bins[k], x, right)
  {
    if bins != [] {
      var init := bins[..|bins| - 1];
      assert Sorted(init);
      DigitizeSplits(x, init, right);
      assert forall k :: 0 <= k < |init| ==> bins[k] == init[k];
    }
  }

  /** The bin edges around x: right=False gives bins[i-1] <= x < bins[i],
      right=True gives bins[i-1] < x <= bins[i], where the edges exist. */
  lemma DigitizeBrackets(x: real, bins: seq<real>, right: bool)
    requires Sorted(bins)
    ensures 0 < Digitize(x, bins, right) ==> LeftOf(bins[Digitize(x, bins, right) - 1], x, right)
    ensures Digitize(x, bins, right) < |bins| ==> !LeftOf(bins[Digitize(x, bins, right)], x, right)
  {
    DigitizeSplits(x, bins, right);
  }

  /** The largest edge of increasing bins is the last one. */
  lemma MaxIsLast(bins: seq<real>)
    requires Sorted(bins) && |bins| > 0
    ensures Max(bins) == bins[|bins| - 1]
  {
    var k :| 0 <= k < |bins| && bins[k] == Max(bins);
    assert bins[|bins| - 1] <= Max(bins);
  }

  /** map_bin: the (lower, upper) edges of x's bin, which the source
      renders as the label '[lower-upper]'.  right=True is used when x is
      the largest edge; an x beyond the largest edge indexes past the end
      (IndexError), and one below the first edge gets the last edge as its
      lower one (index -1).  max() of no bins is a ValueError. */
  function MapBin(x: real, bins: seq<real>): (r: Result<(real, real)>)
    requires Sorted(bins)
    ensures bins == [] ==> r == Err(ValueError)
    ensures bins != [] ==> (r.Err? <==> x > bins[|bins| - 1])
    ensures bins != [] && r.Err? ==> r.error == IndexError
    ensures r.Ok? ==> r.value.0 in bins && r.value.1 in bins
  {
    if bins == [] then Err(ValueError)
    else
      var right := x == Max(bins);
      var i := Digitize(x, bins, right);
      MaxIsLast(bins);
      DigitizeBrackets(x, bins, right);
      match PyAt(bins, i)
      case None => Err(IndexError)
      case Some(upper) => Ok((PyAt(bins, i - 1).value, upper))
  }

  /** Every x from the first edge up to, but not including, the largest one
      gets the bin [bins[k-1], bins[k]] with bins[k-1] <= x < bins[k]. */
  lemma MapBinInside(x: real, bins: seq<real>)
    requires Sorted(bins) && |bins| > 0 && bins[0] <= x < bins[|bins| - 1]
    ensures 1 <= Digitize(x, bins, false) < |bins|
    ensures MapBin(x, bins) == Ok((bins[Digitize(x, bins, false) - 1], bins[Digitize(x, bins, false)]))
    ensures bins[Digitize(x, bins, false) - 1] <= x < bins[Digitize(x, bins, false)]
  {
    MaxIsLast(bins);
    DigitizeSplits(x, bins, false);
  }

  /** x equal to the largest edge (above the one before it) gets the last
      bin, closed on the right. */
  lemma MapBinAtMax(bins: seq<real>)
    requires Sorted(bins) && |bins| >= 2 && bins[|bins| - 2] < bins[|bins| - 1]
    ensures MapBin(bins[|bins| - 1], bins) == Ok((bins[|bins| - 2], bins[|bins| - 1]))
  {
    var x := bins[|bins| - 1];
    MaxIsLast(bins);
    DigitizeSplits(x, bins, true);
    assert Digitize(x, bins, true) == |bins| - 1;
  }

  /** x below the first edge wraps round: its lower edge is the last one. */
  lemma MapBinBelowFirst(x: real, bins: seq<real>)
    requires Sorted(bins) && |bins| > 0 && x < bins[0]
    ensures MapBin(x, bins) == Ok((bins[|bins| - 1], bins[0]))
  {
    MaxIsLast(bins);
    DigitizeSplits(x, bins, false);
    assert Digitize(x, bins, false) == 0;
  }

  /** Binning keeps order: for x <= y, both edges of x's bin are at most
      those of y's. */
  lemma MapBinMonotone(x: real, y: real, bins: seq<real>)
    requires Sorted(bins) && |bins| > 0 && bins[0] <= x <= y && MapBin(y, bins).Ok?
    ensures MapBin(x, bins).Ok?
    ensures MapBin(x, bins).value.0 <= MapBin(y, bins).value.0
    ensures MapBin(x, bins).value.1 <= MapBin(y, bins).value.1
  {
    var last := bins[|bins| - 1];
    MaxIsLast(bins);
    if y < last {
      MapBinInside(x, bins);
      MapBinInside(y, bins);
      DigitizeSplits(x, bins, false);
      DigitizeSplits(y, bins, false);
      var i := Digitize(x, bins, false);
      var j := Digitize(y, bins, false);
      // bins[i-1] <= x <= y, so edge i-1 is left of y too.
      assert LeftOf(bins[i - 1], y, false);
      assert i <= j;
    } else if x < y {
      assert y == last;
      DigitizeSplits(y, bins, true);
      var j := Digitize(y, bins, true);
      MapBinInside(x, bins);
      DigitizeSplits(x, bins, false);
      var i := Digitize(x, bins, false);
      // bins[i-1] <= x < y, so edges 0 and i-1 are strictly left of y.
      assert LeftOf(bins[0], y, true);
      assert LeftOf(bins[i - 1], y, true);
      assert 0 < j && i <= j;
    }
  }

  /** np.arange(0, 300, 20): 0, 20, ..., 280. */
  function FreqBins(): (b: seq<real>)
    ensures |b| == 15
  {
    seq(15, i requires 0 <= i < 15 => 20.0 * i as real)
  }

  /** freq_bins is increasing, from 0 to 280 in steps of 20. */
  lemma FreqBinsSorted()
    ensures Sorted(FreqBins())
    ensures FreqBins()[0] == 0.0 && FreqBins()[14] == 280.0
    ensures forall k :: 1 <= k < 15 ==> FreqBins()[k] - FreqBins()[k - 1] == 20.0
  {
    var b := FreqBins();
    forall i, j | 0 <= i <= j < 15
      ensures b[i] <= b[j]
    {
      assert b[i] == 20.0 * i as real && b[j] == 20.0 * j as real;
    }
  }

  /** A distance from 0 to 280 um gets a 20 um bin [lo, lo + 20] holding it
      (280 itself gets [260, 280]); a distance beyond 280 um is an
      IndexError. */
  lemma FreqBinOfDistance(x: real)
    requires 0.0 <= x
    ensures x <= 280.0 <==> MapBin(x, FreqBins()).Ok?
    ensures x <= 280.0 ==> MapBin(x, FreqBins()).value.1 - MapBin(x, FreqBins()).value.0 == 20.0
    ensures x < 280.0 ==> MapBin(x, FreqBins()).value.0 <= x < MapBin(x, FreqBins()).value.1
    ensures x > 280.0 ==> MapBin(x, FreqBins()) == Err(IndexError)
  {
    FreqBinsSorted();
    var b := FreqBins();
    if x < 280.0 {
      MapBinInside(x, b);
    } else if x == 280.0 {
      MapBinAtMax(b);
    }
  }
}
