/** Stimulation sites along one branch.  The branch is given by the x
    position (0..1) and the path distance of every point of allseg(): the
    two ends 0 and 1 and the nseg segment centres between them.  stim_loc
    pairs every other point into a window [x(i), x(i+2)] around the centre
    x(i+1); current_inj_loc keeps the segment centres. */
module StimLoc {
  import opened Wrappers
  import opened PyOps

  /** floor((1/nseg) * 100) / 100: the relative length of one segment,
      rounded down to hundredths. */
  function EachLen(nseg: nat): (e: real)
    requires nseg >= 1
    ensures 0.0 <= e <= 1.0
  {
    var f := (1.0 / (nseg as real)) * 100.0;
    assert 0.0 <= f <= 100.0;
    (f.Floor as real) / 100.0
  }

  /** How many odd i satisfy 1 <= i < len - 2. */
  function WindowCount(len: nat): (c: nat)
    ensures 2 * c + 2 <= len || c == 0
    ensures len >= 2 ==> len <= 2 * c + 3
  {
    if len < 2 then 0 else (len - 2) / 2
  }

  /** The stimulation windows and the distance of each window's centre:
      window k spans x(2k+1)..x(2k+3) and is centred on x(2k+2). */
  function Windows(xs: seq<real>, ds: seq<real>): (w: (seq<(real, real)>, seq<real>))
    requires |xs| == |ds|
    ensures |w.0| == |w.1| == WindowCount(|xs|)
  {
    (seq(WindowCount(|xs|), k requires 0 <= k < WindowCount(|xs|) => (xs[2 * k + 1], xs[2 * k + 3])),
     seq(WindowCount(|xs|), k requires 0 <= k < WindowCount(|xs|) => ds[2 * k + 2]))
  }

  /** stim_loc: IndexError when the branch has no point (dist_vec[-1]);
      otherwise the windows of the points.  The branch taken when
      each_len > 10 is never reached since each_len is at most 1. */
  method StimLocs(nseg: nat, xs: seq<real>, ds: seq<real>) returns (r: Result<(seq<(real, real)>, seq<real>)>)
    requires nseg >= 1 && |xs| == |ds|
    ensures xs == [] <==> r == Err(IndexError)
    ensures xs != [] ==> r == Ok(Windows(xs, ds))
  {
    if ds == [] {
      return Err(IndexError);
    }
    var eachLen := EachLen(nseg);
    if eachLen > 10.0 {
      assert false;
    }
    var loc: seq<(real, real)> := [];
    var dist: seq<real> := [];
    var i: int := 1;
    while i < |xs| - 2
      invariant i == 2 * |loc| + 1 && |dist| == |loc|
      invariant |loc| <= WindowCount(|xs|)
      invariant forall k :: 0 <= k < |loc| ==> loc[k] == (xs[2 * k + 1], xs[2 * k + 3])
      invariant forall k :: 0 <= k < |dist| ==> dist[k] == ds[2 * k + 2]
      decreases |xs| - i
    {
      loc := loc + [(xs[i], xs[i + 2])];
      dist := dist + [ds[i + 1]];
      i := i + 2;
    }
    assert |loc| == WindowCount(|xs|);
    assert loc == Windows(xs, ds).0 && dist == Windows(xs, ds).1;
    return Ok((loc, dist));
  }

  /** For allseg() of a branch with nseg segments (nseg + 2 points) there
      are nseg / 2 windows. */
  lemma WindowsOfBranch(nseg: nat, xs: seq<real>, ds: seq<real>)
    requires |xs| == |ds| == nseg + 2
    ensures |Windows(xs, ds).0| == |Windows(xs, ds).1| == nseg / 2
  {
  }

  /** Along a branch whose x positions never decrease, each window is
      ordered, holds the point whose distance it reports, and starts where
      the previous window ends, so the windows tile [x(1), x(2c+1)]. */
  lemma WindowsTile(xs: seq<real>, ds: seq<real>)
    requires |xs| == |ds|
    requires forall i, j :: 0 <= i <= j < |xs| ==> xs[i] <= xs[j]
    ensures forall k :: 0 <= k < |Windows(xs, ds).0| ==>
              Windows(xs, ds).0[k].0 <= xs[2 * k + 2] <= Windows(xs, ds).0[k].1
    ensures forall k :: 0 < k < |Windows(xs, ds).0| ==>
              Windows(xs, ds).0[k - 1].1 == Windows(xs, ds).0[k].0
  {
  }

  /** The points current_inj_loc keeps among the first n: those whose x
      is neither 0 nor 1, in order. */
  function InteriorIndexes(xs: seq<real>, n: nat): (q: seq<nat>)
    requires n <= |xs|
    ensures |q| <= n
    ensures forall k :: 0 <= k < |q| ==> q[k] < n
  {
    if n == 0 then []
    else
      var x := xs[n - 1];
      InteriorIndexes(xs, n - 1) + if x != 0.0 && x != 1.0 then [n - 1] else []
  }

  /** InteriorIndexes lists, in increasing order, exactly the points
      whose x is neither 0 nor 1. */
  lemma {:induction false} InteriorIndexesExact(xs: seq<real>, n: nat)
    requires n <= |xs|
    ensures Increasing(InteriorIndexes(xs, n))
    ensures forall k :: 0 <= k < |InteriorIndexes(xs, n)| ==>
              xs[InteriorIndexes(xs, n)[k]] != 0.0 && xs[InteriorIndexes(xs, n)[k]] != 1.0
    ensures forall j :: 0 <= j < n && xs[j] != 0.0 && xs[j] != 1.0 ==> j in InteriorIndexes(xs, n)
  {
    if n > 0 {
      InteriorIndexesExact(xs, n - 1);
    }
  }

  /** The x positions and distances of the points with the given indexes. */
  function Pick(xs: seq<real>, ds: seq<real>, q: seq<nat>): (p: (seq<real>, seq<real>))
    requires |xs| == |ds|
    requires forall k :: 0 <= k < |q| ==> q[k] < |xs|
    ensures |p.0| == |p.1| == |q|
  {
    (seq(|q|, k requires 0 <= k < |q| => xs[q[k]]), seq(|q|, k requires 0 <= k < |q| => ds[q[k]]))
  }

  /** Picking one more index appends that point. */
  lemma PickAppend(xs: seq<real>, ds: seq<real>, q: seq<nat>, j: nat)
    requires |xs| == |ds| && j < |xs|
    requires forall k :: 0 <= k < |q| ==> q[k] < |xs|
    ensures Pick(xs, ds, q + [j]) == (Pick(xs, ds, q).0 + [xs[j]], Pick(xs, ds, q).1 + [ds[j]])
  {
    var p := Pick(xs, ds, q + [j]);
    assert p.0 == Pick(xs, ds, q).0 + [xs[j]];
    assert p.1 == Pick(xs, ds, q).1 + [ds[j]];
  }

  /** current_inj_loc: x and distance of every point other than the two
      ends x = 0 and x = 1. */
  method CurrentInjLoc(xs: seq<real>, ds: seq<real>) returns (locs: seq<real>, dists: seq<real>)
    requires |xs| == |ds|
    ensures (locs, dists) == Pick(xs, ds, InteriorIndexes(xs, |xs|))
  {
    locs, dists := [], [];
    var j := 0;
    while j < |xs|
      invariant j <= |xs|
      invariant (locs, dists) == Pick(xs, ds, InteriorIndexes(xs, j))
    {
      ghost var q := InteriorIndexes(xs, j);
      if xs[j] != 0.0 && xs[j] != 1.0 {
        PickAppend(xs, ds, q, j);
        locs, dists := locs + [xs[j]], dists + [ds[j]];
        assert InteriorIndexes(xs, j + 1) == q + [j];
      } else {
        assert InteriorIndexes(xs, j + 1) == q;
      }
      j := j + 1;
    }
  }

  /** current_inj_loc drops exactly the points at x = 0 and x = 1: every
      kept x is interior, every interior point is kept, the kept points
      keep their order and each keeps its own distance. */
  lemma CurrentInjLocKeepsInterior(xs: seq<real>, ds: seq<real>)
    requires |xs| == |ds|
    ensures forall x :: x in Pick(xs, ds, InteriorIndexes(xs, |xs|)).0 <==> x in xs && x != 0.0 && x != 1.0
    ensures forall k :: 0 <= k < |InteriorIndexes(xs, |xs|)| ==>
              Pick(xs, ds, InteriorIndexes(xs, |xs|)).0[k] == xs[InteriorIndexes(xs, |xs|)[k]]
              && Pick(xs, ds, InteriorIndexes(xs, |xs|)).1[k] == ds[InteriorIndexes(xs, |xs|)[k]]
    ensures Increasing(InteriorIndexes(xs, |xs|))
  {
    var q := InteriorIndexes(xs, |xs|);
    InteriorIndexesExact(xs, |xs|);
    var p := Pick(xs, ds, q);
    forall x | x in xs && x != 0.0 && x != 1.0
      ensures x in p.0
    {
      var j :| 0 <= j < |xs| && xs[j] == x;
      assert j in q;
      var k :| 0 <= k < |q| && q[k] == j;
      assert p.0[k] == x;
    }
  }
}
