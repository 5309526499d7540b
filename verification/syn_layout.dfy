/** Placement, weights and delays of the two glutamate synapse pools of
    Glu_Stim on the stimulated basal branch.  Pool 1 (the synaptic pool)
    and pool 2 (the extra-synaptic pool) are laid out on the stretch
    [loc[0], loc[1]] of the branch; each synapse's distance from the middle
    of that stretch sets its delay (and, with a non-zero decay, lowers its
    weight).  The stretch comes from the module-level loc, while the
    synapses themselves are placed on the stretch given by the Loc
    argument. */
module SynLayout {
  import opened Wrappers
  import opened PyOps

  /** Weight lost per micrometre from the middle, in percent. */
  const GlutAmpDecay: real := 0.0
  /** Delay of a synapse at the middle, in ms. */
  const InitDelay: real := 10.0
  /** Extra delay per micrometre from the middle, in ms, for each pool. */
  const SynDelay: real := 0.5
  const ExSynDelay: real := 1.0
  /** Length of the stimulated branch (basal[34]) in micrometres. */
  const BranchLength: real := 166.25942491682142

  /** One pool: where each synapse sits on the branch (site), the layout
      point it was given, its distance from the middle, weight and delay. */
  datatype Pool = Pool(sites: seq<real>, locs: seq<real>, dists: seq<real>,
                       weights: seq<real>, delays: seq<real>)

  datatype Layout = Layout(syn: Pool, exsyn: Pool)

  function Middle(loc0: real, loc1: real): real
  {
    (loc0 + loc1) / 2.0
  }

  /** [middle - radius, middle + radius], the layout stretch. */
  function Stretch(loc0: real, loc1: real): (w: (real, real))
    ensures w == (loc0, loc1)
  {
    var mid := Middle(loc0, loc1);
    var radius := mid - loc0;
    (mid - radius, mid + radius)
  }

  /** weight if weight > 0.0 else 0.0 */
  function Clamp(w: real): (c: real)
    ensures 0.0 <= c && w <= c
    ensures 0.0 < w ==> c == w
  {
    if w > 0.0 then w else 0.0
  }

  /** Weight of a synapse dist micrometres from the middle, clamped at 0. */
  function Weight(amp: real, decay: real, dist: real): (w: real)
    ensures 0.0 <= w
    ensures decay == 0.0 ==> w == Clamp(amp)
    ensures 0.0 <= amp && 0.0 <= decay && 0.0 <= dist ==> w <= amp
  {
    var raw := amp * (1.0 - dist * decay / 100.0);
    assert 0.0 <= amp && 0.0 <= decay && 0.0 <= dist ==> raw <= amp by {
      if 0.0 <= amp && 0.0 <= decay && 0.0 <= dist {
        assert 0.0 <= amp * (dist * decay / 100.0);
      }
    }
    Clamp(raw)
  }

  /** A synapse further from the middle never gets a larger weight. */
  lemma WeightAntitone(amp: real, decay: real, near: real, far: real)
    requires 0.0 <= amp && 0.0 <= decay && near <= far
    ensures Weight(amp, decay, far) <= Weight(amp, decay, near)
  {
    var dn := near * decay / 100.0;
    var df := far * decay / 100.0;
    assert df - dn == (far - near) * decay / 100.0;
    MulNonNegative(far - near, decay);
    MulNonNegative(amp, df - dn);
    assert amp * (1.0 - df) == amp * (1.0 - dn) - amp * (df - dn);
  }

  lemma MulNonNegative(a: real, b: real)
    requires 0.0 <= a && 0.0 <= b
    ensures 0.0 <= a * b
  {
  }

  /** Distance in micrometres of branch position x from the middle. */
  function Dist(mid: real, x: real): (d: real)
    ensures 0.0 <= d
    ensures d == 0.0 <==> x == mid
  {
    BranchLength * Abs(x - mid)
  }

  /** Positions mirrored about the middle are equally far from it. */
  lemma DistMirror(mid: real, x: real, y: real)
    requires x + y == 2.0 * mid
    ensures Dist(mid, x) == Dist(mid, y)
  {
    assert y - mid == -(x - mid);
  }

  /** Delay of a synapse d micrometres from the middle. */
  function Delay(perUm: real, d: real): (t: real)
    requires 0.0 <= perUm && 0.0 <= d
    ensures InitDelay <= t
    ensures 0.0 < perUm ==> (t == InitDelay <==> d == 0.0)
  {
    assert 0.0 < perUm && 0.0 < d ==> 0.0 < perUm * d;
    InitDelay + perUm * d
  }

  /** A pool of n synapses laid out on [loc0, loc1] and placed on
      [site0, site1], with weight amp and perUm ms of delay per micrometre. */
  function LayPool(loc0: real, loc1: real, site0: real, site1: real, n: nat,
                   amp: real, perUm: real): (p: Pool)
    requires 0.0 <= perUm
    ensures p.sites == Linspace(site0, site1, n)
    ensures p.locs == Linspace(loc0, loc1, n)
    ensures |p.dists| == |p.weights| == |p.delays| == n
    ensures forall i :: 0 <= i < n ==> p.dists[i] == Dist(Middle(loc0, loc1), p.locs[i]) && 0.0 <= p.dists[i]
    ensures forall i :: 0 <= i < n ==> p.weights[i] == Weight(amp, GlutAmpDecay, p.dists[i])
    ensures forall i :: 0 <= i < n ==> p.delays[i] == Delay(perUm, p.dists[i])
  {
    var w := Stretch(loc0, loc1);
    var locs := Linspace(w.0, w.1, n);
    var mid := Middle(loc0, loc1);
    var dists := seq(n, i requires 0 <= i < n => Dist(mid, locs[i]));
    Pool(Linspace(site0, site1, n), locs, dists,
         seq(n, i requires 0 <= i < n => Weight(amp, GlutAmpDecay, dists[i])),
         seq(n, i requires 0 <= i < n => Delay(perUm, dists[i])))
  }

  /** With the weight decay at 0, every synapse of a pool gets the pool's
      weight, clamped at 0. */
  lemma PoolWeights(loc0: real, loc1: real, site0: real, site1: real, n: nat,
                    amp: real, perUm: real)
    requires 0.0 <= perUm
    ensures forall i :: 0 <= i < n ==>
              LayPool(loc0, loc1, site0, site1, n, amp, perUm).weights[i] == Clamp(amp)
  {
  }

  /** (w2 / w1) * w1 is w2 again. */
  lemma ScaleBack(w1: real, w2: real)
    requires w1 != 0.0
    ensures (w2 / w1) * w1 == w2
  {
  }

  /** The synapse layout of Glu_Stim, for the module-level stretch
      (loc0, loc1), the Loc argument (site0, site1), the pool sizes and the
      pool weights w1 and w2.  The extra-synaptic scale w2 / w1 makes
      w1 = 0 a ZeroDivisionError; otherwise pool 1 has weight w1 and
      0.5 ms/um of delay, and pool 2, whose weight is scaled back from w1,
      has weight w2 and 1 ms/um of delay. */
  function GluStimLayout(loc0: real, loc1: real, site0: real, site1: real,
                         numSyns: nat, numExSyns: nat, w1: real, w2: real): (r: Result<Layout>)
    ensures r.Err? <==> w1 == 0.0
    ensures r.Err? ==> r.error == ZeroDivisionError
    ensures r.Ok? ==> r.value.syn == LayPool(loc0, loc1, site0, site1, numSyns, w1, SynDelay)
    ensures r.Ok? ==> r.value.exsyn == LayPool(loc0, loc1, site0, site1, numExSyns, w2, ExSynDelay)
  {
    if w1 == 0.0 then Err(ZeroDivisionError)
    else
      var glutAmp := w1;
      var exSynScale := w2 / w1;
      var exAmp := exSynScale * glutAmp;
      ScaleBack(w1, w2);
      assert exAmp == w2;
      Ok(Layout(LayPool(loc0, loc1, site0, site1, numSyns, glutAmp, SynDelay),
                LayPool(loc0, loc1, site0, site1, numExSyns, exAmp, ExSynDelay)))
  }

  /** Every synapse of Glu_Stim's layout sits on the Loc stretch, gets its
      pool's weight (w1 or w2, clamped at 0, as the decay is 0) and a delay
      of at least InitDelay. */
  lemma GluStimWeightsAndDelays(loc0: real, loc1: real, site0: real, site1: real,
                                numSyns: nat, numExSyns: nat, w1: real, w2: real)
    requires w1 != 0.0
    ensures GluStimLayout(loc0, loc1, site0, site1, numSyns, numExSyns, w1, w2).Ok?
    ensures GluStimLayout(loc0, loc1, site0, site1, numSyns, numExSyns, w1, w2).value.syn.sites
              == Linspace(site0, site1, numSyns)
    ensures GluStimLayout(loc0, loc1, site0, site1, numSyns, numExSyns, w1, w2).value.exsyn.sites
              == Linspace(site0, site1, numExSyns)
    ensures forall i :: 0 <= i < numSyns ==>
              GluStimLayout(loc0, loc1, site0, site1, numSyns, numExSyns, w1, w2).value.syn.weights[i] == Clamp(w1)
              && InitDelay <= GluStimLayout(loc0, loc1, site0, site1, numSyns, numExSyns, w1, w2).value.syn.delays[i]
    ensures forall i :: 0 <= i < numExSyns ==>
              GluStimLayout(loc0, loc1, site0, site1, numSyns, numExSyns, w1, w2).value.exsyn.weights[i] == Clamp(w2)
              && InitDelay <= GluStimLayout(loc0, loc1, site0, site1, numSyns, numExSyns, w1, w2).value.exsyn.delays[i]
  {
    PoolWeights(loc0, loc1, site0, site1, numSyns, w1, SynDelay);
    PoolWeights(loc0, loc1, site0, site1, numExSyns, w2, ExSynDelay);
  }

  /** Synapses at the same rank from either end of the stretch are equally
      far from the middle, so they get equal weights and equal delays.  A
      pool of one synapse is laid at loc0, so it is left out. */
  lemma {:induction false} PoolSymmetric(loc0: real, loc1: real, site0: real, site1: real, n: nat,
                                         amp: real, perUm: real)
    requires 0.0 <= perUm && n != 1
    ensures forall i :: 0 <= i < n ==>
              LayPool(loc0, loc1, site0, site1, n, amp, perUm).weights[i]
                == LayPool(loc0, loc1, site0, site1, n, amp, perUm).weights[n - 1 - i]
              && LayPool(loc0, loc1, site0, site1, n, amp, perUm).delays[i]
                == LayPool(loc0, loc1, site0, site1, n, amp, perUm).delays[n - 1 - i]
  {
    var p := LayPool(loc0, loc1, site0, site1, n, amp, perUm);
    LinspaceSymmetric(loc0, loc1, n);
    forall i | 0 <= i < n
      ensures p.dists[i] == p.dists[n - 1 - i]
    {
      DistMirror(Middle(loc0, loc1), p.locs[i], p.locs[n - 1 - i]);
    }
  }

  /** With a positive delay per micrometre, a synapse gets the smallest
      delay, InitDelay, exactly when it is laid at the middle of the
      stretch. */
  lemma EarliestAtMiddle(loc0: real, loc1: real, site0: real, site1: real, n: nat,
                         amp: real, perUm: real)
    requires 0.0 < perUm
    ensures forall i :: 0 <= i < n ==>
              (LayPool(loc0, loc1, site0, site1, n, amp, perUm).delays[i] == InitDelay
               <==> LayPool(loc0, loc1, site0, site1, n, amp, perUm).locs[i] == Middle(loc0, loc1))
  {
  }

  /** Only when the Loc argument names the module-level stretch do the
      synapses sit where their distances and delays were computed. */
  lemma SitesAreLocs(loc0: real, loc1: real, n: nat, amp: real, perUm: real)
    requires 0.0 <= perUm
    ensures LayPool(loc0, loc1, loc0, loc1, n, amp, perUm).sites
              == LayPool(loc0, loc1, loc0, loc1, n, amp, perUm).locs
  {
  }
}
