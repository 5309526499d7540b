/** Per-segment state shared by the three cell builders.  A NEURON section
    is cut into segments; every density pass writes range variables of
    single segments (or of all segments of a section at once).  The model
    keeps one record per segment, and the position of each segment (its
    section and its path distance from the middle of soma[0]) is an input:
    NEURON computes it from the 3-D morphology. */
module Segments {

  /** The section lists every builder walks: soma, basal dendrites, the
      axon and the apical dendrites. */
  datatype Region = Soma | Basal | Axon | Apical

  /** A range variable of one segment: Absent while its mechanism has not
      been inserted, Default once inserted but not yet assigned (the value
      the mechanism declares, or the 3-D diameter NEURON interpolates), and
      Set(v) after an assignment. */
  datatype Value = Absent | Default | Set(v: real)

  /** `sec.insert(mech)`: inserting twice keeps what was assigned. */
  function Insert(x: Value): (y: Value)
    ensures y != Absent
    ensures x != Absent ==> y == x
  {
    if x.Absent? then Default else x
  }

  /** The range variables the builders write.  `na`, `kv`, `ca`, `it` and
      `kl` are the gbar of those mechanisms, `kap`/`kad` their gkabar, `bk`
      and `bkVhmin` are gpeak_kBK and caVhmin_kBK. */
  datatype Seg = Seg(
    cm: Value, diam: Value,
    gPas: Value, ePas: Value,
    ena: Value, ek: Value, eca: Value,
    na: Value, kv: Value, kap: Value, kad: Value,
    ca: Value, it: Value, kl: Value,
    bk: Value, bkVhmin: Value)

  /** A freshly created segment: capacitance and diameter exist, no
      mechanism is inserted. */
  const Bare: Seg := Seg(Default, Default, Absent, Absent, Absent, Absent, Absent,
                         Absent, Absent, Absent, Absent, Absent, Absent, Absent,
                         Absent, Absent)

  /** Where a segment sits: its section (numbered in creation order) and the
      path distance in micrometres from the middle of soma[0] at which the
      distance rules see it.  The passes walk `sec.allseg()`, which writes
      every segment at its centre and the two ends as well; the last write
      wins, so dist is the distance at LastWriteX: the centre, except on a
      section's last segment, which is seen at the distal end x = 1 (the
      whole section when nseg = 1). */
  datatype Site = Site(sec: nat, dist: real)

  /** The k-th point `sec.allseg()` visits on a section of n segments: 0,
      the n centres (2i+1)/(2n) in order, then 1. */
  function AllSegX(n: nat, k: nat): (x: real)
    requires 1 <= n && k < n + 2
    ensures 0.0 <= x <= 1.0
  {
    if k == 0 then 0.0
    else if k == n + 1 then 1.0
    else
      UnitRatio(2 * k - 1, 2 * n);
      (2 * k - 1) as real / (2 * n) as real
  }

  /** A ratio of a numerator to a no smaller positive denominator lies in
      [0, 1]. */
  lemma UnitRatio(a: int, b: int)
    requires 0 <= a <= b && 0 < b
    ensures 0.0 <= a as real / b as real <= 1.0
  {
    var q := a as real / b as real;
    assert q * b as real == a as real;
  }

  /** The segment a range variable assigned at x lands on: int(x * n), and
      the last segment for x = 1. */
  function SegAt(n: nat, x: real): (i: nat)
    requires 1 <= n && 0.0 <= x <= 1.0
    ensures i < n
  {
    var f := (x * n as real).Floor;
    assert 0 <= f by {
      assert 0.0 <= x * n as real;
    }
    if f >= n then n - 1 else f
  }

  /** Where the last of allseg's writes to segment i is made. */
  function LastWriteX(n: nat, i: nat): real
    requires i < n
  {
    if i == n - 1 then 1.0 else (2 * i + 1) as real / (2 * n) as real
  }

  /** Every centre lands on its own segment. */
  lemma CentreLands(n: nat, j: nat)
    requires j < n
    ensures SegAt(n, AllSegX(n, j + 1)) == j
  {
    var x := AllSegX(n, j + 1);
    assert x == (2 * j + 1) as real / (2 * n) as real;
    assert x * n as real == j as real + 0.5;
  }

  /** Segment i of n is last written at LastWriteX(n, i): some point of
      allseg lands on it there, and no later point lands on it. */
  lemma LastWrite(n: nat, i: nat) returns (k: nat)
    requires i < n
    ensures k < n + 2 && SegAt(n, AllSegX(n, k)) == i && AllSegX(n, k) == LastWriteX(n, i)
    ensures forall k' :: k < k' < n + 2 ==> SegAt(n, AllSegX(n, k')) != i
  {
    if i == n - 1 {
      k := n + 1;
      assert (1.0 * n as real).Floor == n;
    } else {
      k := i + 1;
      CentreLands(n, i);
      forall k' | k < k' < n + 2
        ensures SegAt(n, AllSegX(n, k')) != i
      {
        if k' == n + 1 {
          assert (1.0 * n as real).Floor == n;
        } else {
          CentreLands(n, k' - 1);
        }
      }
    }
  }

  /** One density pass applied to every segment.  The builders loop over
      section lists and then over `sec.allseg()`; a rule that leaves the
      segments of the other lists unchanged is the same pass. */
  method ApplyPass(seg: array<Seg>, sites: seq<Site>, rule: (Site, Seg) -> Seg)
    requires seg.Length == |sites|
    modifies seg
    ensures forall j :: 0 <= j < seg.Length ==> seg[j] == rule(sites[j], old(seg[j]))
  {
    var j := 0;
    while j < seg.Length
      invariant 0 <= j <= seg.Length
      invariant forall k :: 0 <= k < j ==> seg[k] == rule(sites[k], old(seg[k]))
      invariant forall k :: j <= k < seg.Length ==> seg[k] == old(seg[k])
    {
      seg[j] := rule(sites[j], seg[j]);
      j := j + 1;
    }
  }

  /** A pass that assigns variables of one or two mechanisms on the
      segments of the sites it touches.  NEURON raises AttributeError at
      the first touched segment that lacks one of them, and the segments
      before it keep their writes; the assignments made to that segment
      before the one that raised are onFail.  stop is that segment's
      index, or the number of segments when every touched segment has
      the mechanisms. */
  method ApplyChecked(seg: array<Seg>, sites: seq<Site>, touches: Site -> bool, has: Seg -> bool,
                      rule: (Site, Seg) -> Seg, onFail: (Site, Seg) -> Seg) returns (stop: nat)
    requires seg.Length == |sites|
    modifies seg
    ensures stop <= seg.Length
    ensures forall k :: 0 <= k < stop && touches(sites[k]) ==> has(old(seg[k]))
    ensures stop < seg.Length ==> touches(sites[stop]) && !has(old(seg[stop]))
    ensures forall k :: 0 <= k < stop ==>
              seg[k] == if touches(sites[k]) then rule(sites[k], old(seg[k])) else old(seg[k])
    ensures stop < seg.Length ==> seg[stop] == onFail(sites[stop], old(seg[stop]))
    ensures forall k :: stop < k < seg.Length ==> seg[k] == old(seg[k])
  {
    stop := 0;
    while stop < seg.Length
      invariant 0 <= stop <= seg.Length
      invariant forall k :: 0 <= k < stop && touches(sites[k]) ==> has(old(seg[k]))
      invariant forall k :: 0 <= k < stop ==>
                  seg[k] == if touches(sites[k]) then rule(sites[k], old(seg[k])) else old(seg[k])
      invariant forall k :: stop <= k < seg.Length ==> seg[k] == old(seg[k])
    {
      if touches(sites[stop]) {
        if !has(seg[stop]) {
          seg[stop] := onFail(sites[stop], seg[stop]);
          return;
        }
        seg[stop] := rule(sites[stop], seg[stop]);
      }
      stop := stop + 1;
    }
  }
}
