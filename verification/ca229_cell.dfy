/** The full CA229 layer-5 pyramidal cell builder.  The constructor wires
    the 85 sections, sets Ra and the segment count, reshapes basal[16] into
    the axon, inserts the mechanisms and then runs the density passes, each
    of which assigns range variables segment by segment as a function of
    the segment's section list and path distance. */
module CA229Cell {
  import opened Segments
  import opened ChannelRules
  import opened CA229Topology
  import PyOps

  // Passive properties
  const GlobalRa: real := 100.0
  const SpineFactor: real := 1.5
  const SomaRm: real := 1500.0 / 0.04
  const DendRm: real := SomaRm / SpineFactor
  const SomaCm: real := 1.45
  const DendCm: real := SomaCm * SpineFactor
  const SpineDist: real := 40.0
  const Vk: real := -87.0
  const VNa: real := 60.0
  const PasVm: real := -65.0
  const ECa: real := 140.0
  // Sodium, pS/um2
  const SomaNa: real := 900.0
  const AxonNa: real := 5000.0
  const BasalNa: real := 150.0
  const MNa: real := 0.5
  const ApicalNa: real := 375.0
  const GNaMax: real := 2000.0
  // Delayed-rectifier potassium
  const SomaKv: real := 40.0
  const MKv: real := 0.0
  const GKvMax: real := 500.0
  const AxonKv: real := 100.0
  // A-type potassium
  const SomaKA: real := 150.0
  const MGka: real := 0.7
  const ApicalKA: real := 300.0
  const GkaMax: real := 2000.0
  // Calcium
  const SomaCa: real := 2.0
  const DendCa: real := 0.4
  const SomaCaT: real := 2.0
  const DendCaT: real := 1.6
  const CaDistB: real := 30.0
  const CaDistA: real := 30.0
  // Axonal leak potassium and BK
  const Gkl: real := 0.005
  const ILDist: real := 15.0
  const KBKGpeak: real := 0.000268
  const KBKCaVhminShift: real := 45.0

  /** NEURON's defaults for a new section. */
  const DefaultRa: real := 35.4
  const DefaultNseg: int := 1

  /** The constructor's scale factors for Na, HVA Ca, LVA Ca, KA and BK. */
  datatype Ratios = Ratios(na: real, hva: real, lva: real, ka: real, bk: real)
  const DefaultRatios: Ratios := Ratios(1.0, 1.0, 1.0, 1.0, 1.0)

  /** The section list a section belongs to: `basals` leaves out basal[16],
      which forms the `axon` list. */
  function RegionOf(sec: nat): (g: Region)
    ensures g == Axon <==> sec == AxonSec
    ensures g == Soma <==> sec < NSoma
    ensures g == Apical <==> NSoma <= sec < NSoma + NApical
    ensures g == Basal <==> NSoma + NApical <= sec && sec != AxonSec
  {
    if sec < NSoma then Soma
    else if sec < NSoma + NApical then Apical
    else if sec == AxonSec then Axon
    else Basal
  }

  // ----- Section geometry -----

  /** Length, axial resistance and segment count of one section. */
  datatype SecGeom = SecGeom(len: real, ra: real, nseg: int)

  /** geom_nseg's d_lambda rule: the number of segments that keeps each at
      most 5% of the AC length constant, rounded to an odd count. */
  const DLambda: real := 0.05

  function GeomNseg(len: real, lambda: real): (n: int)
    requires 0.0 < lambda
    ensures n % 2 == 1
    ensures 0.0 <= len ==> 1 <= n
  {
    PyOps.Trunc((len / (DLambda * lambda) + 0.9) / 2.0) * 2 + 1
  }

  /** A longer section never gets fewer segments. */
  lemma GeomNsegMonotone(len1: real, len2: real, lambda: real)
    requires 0.0 < lambda && len1 <= len2
    ensures GeomNseg(len1, lambda) <= GeomNseg(len2, lambda)
  {
    var c := DLambda * lambda;
    assert len1 / c <= len2 / c;
    PyOps.TruncMonotone((len1 / c + 0.9) / 2.0, (len2 / c + 0.9) / 2.0);
  }

  /** add_axon's diameter windows along basal[16]. */
  function AxonDiam(d: real): (diam: real)
    ensures diam == 1.725 <==> d <= 15.0
    ensures diam == 1.119 <==> 15.0 < d <= 30.0
    ensures diam == 0.96 <==> 30.0 < d
  {
    if d <= 15.0 then 1.725 else if d <= 30.0 then 1.119 else 0.96
  }

  // ----- Density rules -----

  /** gna_control's sodium density for a segment of the given list. */
  function NaDensity(r: Ratios, g: Region, d: real): real
  {
    match g
    case Soma => SomaNa * r.na
    case Basal => ClampToCap(BasalNa - MNa * d, GNaMax) * r.na
    case Axon => if 35.0 <= d <= 50.0 then AxonNa else SomaNa
    case Apical => ApicalNa * r.na
  }

  /** distKV's delayed-rectifier density. */
  function KvDensity(g: Region, d: real): real
  {
    match g
    case Soma => SomaKv
    case Basal => ClampToCap(SomaKv + MKv * d, GKvMax)
    case Axon => AxonKv
    case Apical => SomaKv
  }

  /** distKA's total A-type budget in pS/um2 for the dendritic lists. */
  function KaTotal(g: Region, d: real): real
  {
    if g == Basal then ClampToCap(SomaKA + MGka * d, GkaMax) else ApicalKA
  }

  /** distCa's (gbar_ca, gbar_it) pair: dendritic values beyond cadist,
      somatic values up to and including it. */
  function CaPair(r: Ratios, g: Region, d: real): (real, real)
  {
    var far := (g == Basal && d > CaDistB) || (g == Apical && d > CaDistA);
    if far then (DendCa * r.hva, DendCaT / 10000.0 * r.lva)
    else (SomaCa * r.hva, SomaCaT / 10000.0 * r.lva)
  }

  // ----- The passes, one segment at a time -----

  /** optimize_nseg sets cm = 1 everywhere before computing nseg. */
  function OptimizeNsegSeg(s: Seg): Seg
  {
    s.(cm := Set(1.0))
  }

  function AddAxonSeg(g: Region, d: real, s: Seg): Seg
  {
    if g == Axon then s.(diam := Set(AxonDiam(d))) else s
  }

  /** add_all: pas, na and kv with their reversal potentials everywhere;
      kap, ca and it with eca everywhere but the axon. */
  function AddAllSeg(g: Region, s: Seg): Seg
  {
    var t := s.(gPas := Insert(s.gPas), ePas := Set(PasVm), na := Insert(s.na),
                ena := Set(VNa), ek := Set(Vk), kv := Insert(s.kv));
    if g == Axon then t
    else t.(kap := Insert(t.kap), ca := Insert(t.ca), it := Insert(t.it), eca := Set(ECa))
  }

  function AddSomaChanSeg(g: Region, s: Seg): Seg
  {
    if g == Soma then s.(cm := Set(SomaCm), gPas := Set(1.0 / SomaRm)) else s
  }

  function AddApicalChanSeg(g: Region, s: Seg): Seg
  {
    if g == Apical then s.(kad := Insert(s.kad)) else s
  }

  function AddBasalChanSeg(g: Region, s: Seg): Seg
  {
    if g == Basal then s.(kad := Insert(s.kad)) else s
  }

  /** addaxonchan: somatic cm and leak, and the kl channel from ILdist on. */
  function AddAxonChanSeg(g: Region, d: real, s: Seg): Seg
  {
    if g == Axon
    then s.(cm := Set(SomaCm), gPas := Set(1.0 / SomaRm), kl := Set(if d >= ILDist then Gkl else 0.0))
    else s
  }

  function GnaControlSeg(r: Ratios, g: Region, d: real, s: Seg): Seg
  {
    s.(na := Set(NaDensity(r, g, d)))
  }

  function DistCaSeg(r: Ratios, g: Region, d: real, s: Seg): Seg
  {
    if g == Axon then s
    else s.(ca := Set(CaPair(r, g, d).0), it := Set(CaPair(r, g, d).1))
  }

  function DistKVSeg(g: Region, d: real, s: Seg): Seg
  {
    s.(kv := Set(KvDensity(g, d)))
  }

  /** distKA: only basals and apical are written; the soma loop binds a
      local and assigns nothing. */
  function DistKASeg(r: Ratios, g: Region, d: real, s: Seg): Seg
  {
    if g == Basal || g == Apical
    then
      var p := KaSplit(KaTotal(g, d), d, r.ka);
      s.(kap := Set(p.0), kad := Set(p.1))
    else s
  }

  function DistSpinesSeg(g: Region, d: real, s: Seg): Seg
  {
    if g == Basal || g == Apical
    then
      if d >= SpineDist then s.(cm := Set(DendCm), gPas := Set(1.0 / DendRm))
      else s.(cm := Set(SomaCm), gPas := Set(1.0 / SomaRm))
    else s
  }

  function AddCaKSeg(r: Ratios, g: Region, s: Seg): Seg
  {
    if g == Axon then s
    else s.(bk := Set(KBKGpeak * r.bk), bkVhmin := Set(-46.08 + KBKCaVhminShift))
  }

  function TtxSeg(s: Seg): Seg
  {
    s.(na := Set(0.0))
  }

  function TtxBapSeg(g: Region, s: Seg): Seg
  {
    if g == Basal then s.(na := Set(0.0)) else s
  }

  function NoCaSeg(g: Region, s: Seg): Seg
  {
    if g == Axon then s else s.(ca := Set(0.0), it := Set(0.0))
  }

  /** A segment at distance d in list g after the whole constructor, in the
      constructor's order (add_ih writes only Ih, which is not modelled). */
  function Built(r: Ratios, g: Region, d: real): Seg
  {
    var s1 := OptimizeNsegSeg(Bare);
    var s2 := AddAxonSeg(g, d, s1);
    Densities(r, g, d, Inserted(g, d, s2))
  }

  /** The mechanism-inserting passes, from add_all to add_axon_chan. */
  function Inserted(g: Region, d: real, s: Seg): Seg
  {
    var s3 := AddAllSeg(g, s);
    var s4 := AddSomaChanSeg(g, s3);
    var s5 := AddApicalChanSeg(g, s4);
    var s6 := AddBasalChanSeg(g, s5);
    AddAxonChanSeg(g, d, s6)
  }

  /** The distance-dependent density passes, from gna_control to add_CaK. */
  function Densities(r: Ratios, g: Region, d: real, s: Seg): Seg
  {
    var s8 := GnaControlSeg(r, g, d, s);
    var s9 := DistCaSeg(r, g, d, s8);
    var s10 := DistKVSeg(g, d, s9);
    var s11 := DistKASeg(r, g, d, s10);
    var s12 := DistSpinesSeg(g, d, s11);
    AddCaKSeg(r, g, s12)
  }

  // ----- Properties of the built cell -----

  /** Basal sodium is the clamped linear rule times Na_ratio, hence within
      [0, gNamax*Na_ratio]. */
  lemma BasalNaClamped(r: Ratios, d: real)
    ensures Built(r, Basal, d).na == Set(ClampToCap(BasalNa - MNa * d, GNaMax) * r.na)
    ensures 0.0 <= r.na ==> 0.0 <= Built(r, Basal, d).na.v <= GNaMax * r.na
  {
    var c := ClampToCap(BasalNa - MNa * d, GNaMax);
    if 0.0 <= r.na {
      assert c * r.na <= GNaMax * r.na;
    }
  }

  /** Axon sodium is axonNa exactly on [35, 50] um and somaNa elsewhere,
      whatever the ratios. */
  lemma AxonNaWindow(r: Ratios, r': Ratios, d: real)
    ensures Built(r, Axon, d).na == Set(AxonNa) <==> 35.0 <= d <= 50.0
    ensures Built(r, Axon, d).na == Set(if 35.0 <= d <= 50.0 then AxonNa else SomaNa)
    ensures Built(r, Axon, d).na == Built(r', Axon, d).na
  {
  }

  /** Basal KA: kap + kad is the clamped budget scaled by KA_ratio. */
  lemma BasalKaConserved(r: Ratios, d: real)
    ensures Built(r, Basal, d).kap.Set? && Built(r, Basal, d).kad.Set?
    ensures Built(r, Basal, d).kap.v + Built(r, Basal, d).kad.v
         == ClampToCap(SomaKA + MGka * d, GkaMax) / 10000.0 * r.ka
  {
  }

  /** Apical KA: kap + kad is apicalKA scaled by KA_ratio. */
  lemma ApicalKaConserved(r: Ratios, d: real)
    ensures Built(r, Apical, d).kap.Set? && Built(r, Apical, d).kad.Set?
    ensures Built(r, Apical, d).kap.v + Built(r, Apical, d).kad.v == ApicalKA / 10000.0 * r.ka
  {
  }

  /** The kap share is max(0, 1 - d/300): no kap from 300 um on. */
  lemma KapVanishesFar(r: Ratios, g: Region, d: real)
    requires g == Basal || g == Apical
    ensures Built(r, g, d).kap == Set(0.0) <==> d >= 300.0 || KaTotal(g, d) * r.ka == 0.0
  {
    var f := KapShare(d);
    var t := KaTotal(g, d) * r.ka;
    assert Built(r, g, d).kap == Set(KaTotal(g, d) * f / 10000.0 * r.ka);
    assert KaTotal(g, d) * f / 10000.0 * r.ka == t * f / 10000.0;
    ZeroDensity(t, f);
    assert f == 0.0 <==> d >= 300.0;
  }

  /** A density t * f / 10000 is zero exactly when one of its factors is. */
  lemma ZeroDensity(t: real, f: real)
    ensures t * f / 10000.0 == 0.0 <==> t == 0.0 || f == 0.0
  {
    if t != 0.0 && f != 0.0 {
      assert t * f != 0.0;
    }
  }

  /** distKA assigns nothing on the soma: its kap stays at the mechanism's
      default and it has no kad. */
  lemma DistKaSparesSoma(r: Ratios, d: real, s: Seg)
    ensures DistKASeg(r, Soma, d, s) == s
    ensures Built(r, Soma, d).kap == Default && Built(r, Soma, d).kad == Absent
  {
  }

  /** Ca switches to the dendritic densities strictly beyond 30 um. */
  lemma CaThreshold(r: Ratios, g: Region, d: real)
    requires g == Basal || g == Apical
    ensures Built(r, g, d).ca == Set(if d > 30.0 then DendCa * r.hva else SomaCa * r.hva)
    ensures Built(r, g, d).it == Set(if d > 30.0 then DendCaT / 10000.0 * r.lva else SomaCaT / 10000.0 * r.lva)
  {
  }

  /** The spine correction from 40 um on (inclusive), on basals and apical
      only; soma and axon keep the somatic cm and leak set before. */
  lemma SpineThreshold(r: Ratios, g: Region, d: real)
    ensures g == Basal || g == Apical ==>
              Built(r, g, d).cm == Set(if d >= 40.0 then DendCm else SomaCm) &&
              Built(r, g, d).gPas == Set(if d >= 40.0 then 1.0 / DendRm else 1.0 / SomaRm)
    ensures g == Soma || g == Axon ==>
              Built(r, g, d).cm == Set(SomaCm) && Built(r, g, d).gPas == Set(1.0 / SomaRm)
    ensures forall s :: g == Soma || g == Axon ==> DistSpinesSeg(g, d, s) == s
  {
  }

  /** Axonal kl is gkl from ILdist on and zero before; no other list has kl. */
  lemma KlRule(r: Ratios, g: Region, d: real)
    ensures g == Axon ==> Built(r, g, d).kl == Set(if d >= 15.0 then Gkl else 0.0)
    ensures g != Axon ==> Built(r, g, d).kl == Absent
  {
  }

  /** TTX zeroes sodium and nothing else, and applying it twice is applying
      it once; likewise TTX_bAP on basals and no_ca on Ca and T-type Ca. */
  lemma KnockoutsTouchOnlyTheirField(g: Region, s: Seg)
    ensures TtxSeg(s).na == Set(0.0) && TtxSeg(s).(na := s.na) == s
    ensures TtxSeg(TtxSeg(s)) == TtxSeg(s)
    ensures TtxBapSeg(g, s).na == (if g == Basal then Set(0.0) else s.na)
    ensures TtxBapSeg(g, s).(na := s.na) == s
    ensures TtxBapSeg(g, TtxBapSeg(g, s)) == TtxBapSeg(g, s)
    ensures g != Axon ==> NoCaSeg(g, s).ca == Set(0.0) && NoCaSeg(g, s).it == Set(0.0)
    ensures NoCaSeg(g, s).(ca := s.ca, it := s.it) == s
    ensures g == Axon ==> NoCaSeg(g, s) == s
    ensures NoCaSeg(g, NoCaSeg(g, s)) == NoCaSeg(g, s)
  {
  }

  // ----- The cell -----

  class Cell {
    const ratios: Ratios
    /** Section and path distance of every segment. */
    const layout: seq<Site>
    /** The AC length constant lambda_f computes for each section once Ra
        and cm are set. */
    const lambdas: seq<real>
    var geom: array<SecGeom>
    /** parent[s] is the section s is connected to, -1 while unconnected. */
    var parent: array<int>
    var seg: array<Seg>

    ghost predicate Valid()
      reads this
    {
      geom.Length == NSections && parent.Length == NSections && |lambdas| == NSections &&
      seg.Length == |layout| && (forall j :: 0 <= j < |layout| ==> layout[j].sec < NSections) &&
      (forall s :: 0 <= s < NSections ==> 0.0 < lambdas[s])
    }

    constructor (ratios: Ratios, layout: seq<Site>, lengths: seq<real>, lambdas: seq<real>)
      requires |lengths| == NSections && |lambdas| == NSections
      requires forall s :: 0 <= s < NSections ==> 0.0 < lambdas[s]
      requires forall j :: 0 <= j < |layout| ==> layout[j].sec < NSections
      ensures Valid() && this.ratios == ratios && this.layout == layout
      ensures fresh(geom) && fresh(parent) && fresh(seg)
      ensures parent[SomaSec(0)] == -1
      ensures forall s :: 1 <= s < NSections ==> parent[s] == ParentOf(s)
      ensures geom[AxonSec] == SecGeom(200.0, GlobalRa, 15)
      ensures forall s :: 0 <= s < NSections && s != AxonSec ==>
                geom[s] == SecGeom(lengths[s], GlobalRa, GeomNseg(lengths[s], lambdas[s]))
      ensures forall j :: 0 <= j < seg.Length ==>
                seg[j] == Built(ratios, RegionOf(layout[j].sec), layout[j].dist)
    {
      this.ratios := ratios;
      this.layout := layout;
      this.lambdas := lambdas;
      geom := new SecGeom[NSections](s requires 0 <= s < NSections => SecGeom(lengths[s], DefaultRa, DefaultNseg));
      parent := new int[NSections](_ => -1);
      seg := new Seg[|layout|](_ => Bare);
      new;
      CreateCell();
      OptimizeNseg();
      AddAxon();
      InsertMechanisms();
      SetDensities();
    }

    /** The constructor's add_all, add_somachan, add_apicalchan,
        add_basalchan and add_axonchan calls. */
    method InsertMechanisms()
      requires Valid()
      modifies seg
      ensures forall j :: 0 <= j < seg.Length ==>
                seg[j] == Inserted(RegionOf(layout[j].sec), layout[j].dist, old(seg[j]))
    {
      AddAll();
      AddSomaChan();
      AddApicalChan();
      AddBasalChan();
      AddAxonChan();
    }

    /** The constructor's gna_control, dist_Ca, dist_KV, dist_KA,
        dist_spines and add_CaK calls. */
    method SetDensities()
      requires Valid()
      modifies seg
      ensures forall j :: 0 <= j < seg.Length ==>
                seg[j] == Densities(ratios, RegionOf(layout[j].sec), layout[j].dist, old(seg[j]))
    {
      GnaControl();
      DistCa();
      DistKV();
      DistKA();
      DistSpines();
      AddCaK();
    }

    /** `child.connect(parent)`. */
    method Connect(child: nat, par: nat)
      requires Valid() && child < NSections
      modifies parent
      ensures parent[child] == par
      ensures forall s :: 0 <= s < NSections && s != child ==> parent[s] == old(parent[s])
    {
      parent[child] := par;
    }

    /** The connect statements of create_cell, in their order. */
    method CreateCell()
      requires Valid()
      modifies parent
      ensures parent[SomaSec(0)] == old(parent[SomaSec(0)])
      ensures forall s :: 1 <= s < NSections ==> parent[s] == ParentOf(s)
    {
      ConnectsAttachEachOnce();
      var k := 0;
      while k < NConnects
        invariant 0 <= k <= NConnects
        invariant parent[SomaSec(0)] == old(parent[SomaSec(0)])
        invariant forall s :: 1 <= s < NSections ==>
                    parent[s] == if CallOf(s) < k then ParentOf(s) else old(parent[s])
      {
        ConnectsPointBack();
        var call := ConnectCall(k);
        Connect(call.0, call.1);
        k := k + 1;
      }
    }

    /** optimize_nseg: Ra = 100 and cm = 1 everywhere, then geom_nseg. */
    method OptimizeNseg()
      requires Valid()
      modifies geom, seg
      ensures forall s :: 0 <= s < NSections ==>
                geom[s] == old(geom[s]).(ra := GlobalRa, nseg := GeomNseg(old(geom[s]).len, lambdas[s]))
      ensures forall j :: 0 <= j < seg.Length ==> seg[j] == OptimizeNsegSeg(old(seg[j]))
    {
      ApplyPass(seg, layout, (x: Site, s: Seg) => OptimizeNsegSeg(s));
      var s := 0;
      while s < NSections
        invariant 0 <= s <= NSections
        invariant forall t :: 0 <= t < s ==> geom[t] == old(geom[t]).(ra := GlobalRa)
        invariant forall t :: s <= t < NSections ==> geom[t] == old(geom[t])
        invariant forall j :: 0 <= j < seg.Length ==> seg[j] == OptimizeNsegSeg(old(seg[j]))
      {
        geom[s] := geom[s].(ra := GlobalRa);
        s := s + 1;
      }
      SetNseg();
    }

    /** geom_nseg: every section gets the d_lambda segment count. */
    method SetNseg()
      requires Valid()
      modifies geom
      ensures forall s :: 0 <= s < NSections ==>
                geom[s] == old(geom[s]).(nseg := GeomNseg(old(geom[s]).len, lambdas[s]))
    {
      var s := 0;
      while s < NSections
        invariant 0 <= s <= NSections
        invariant forall t :: 0 <= t < s ==> geom[t] == old(geom[t]).(nseg := GeomNseg(old(geom[t]).len, lambdas[t]))
        invariant forall t :: s <= t < NSections ==> geom[t] == old(geom[t])
      {
        geom[s] := geom[s].(nseg := GeomNseg(geom[s].len, lambdas[s]));
        s := s + 1;
      }
    }

    /** add_axon: basal[16] becomes 200 um long with 15 segments and the
        stepped axonal diameter. */
    method AddAxon()
      requires Valid()
      modifies geom, seg
      ensures geom[AxonSec] == old(geom[AxonSec]).(len := 200.0, nseg := 15)
      ensures forall s :: 0 <= s < NSections && s != AxonSec ==> geom[s] == old(geom[s])
      ensures forall j :: 0 <= j < seg.Length ==>
                seg[j] == AddAxonSeg(RegionOf(layout[j].sec), layout[j].dist, old(seg[j]))
    {
      geom[AxonSec] := geom[AxonSec].(len := 200.0, nseg := 15);
      ApplyPass(seg, layout, (x: Site, s: Seg) => AddAxonSeg(RegionOf(x.sec), x.dist, s));
    }

    method AddAll()
      requires Valid()
      modifies seg
      ensures forall j :: 0 <= j < seg.Length ==> seg[j] == AddAllSeg(RegionOf(layout[j].sec), old(seg[j]))
    {
      ApplyPass(seg, layout, (x: Site, s: Seg) => AddAllSeg(RegionOf(x.sec), s));
    }

    method AddSomaChan()
      requires Valid()
      modifies seg
      ensures forall j :: 0 <= j < seg.Length ==> seg[j] == AddSomaChanSeg(RegionOf(layout[j].sec), old(seg[j]))
    {
      ApplyPass(seg, layout, (x: Site, s: Seg) => AddSomaChanSeg(RegionOf(x.sec), s));
    }

    method AddApicalChan()
      requires Valid()
      modifies seg
      ensures forall j :: 0 <= j < seg.Length ==> seg[j] == AddApicalChanSeg(RegionOf(layout[j].sec), old(seg[j]))
    {
      ApplyPass(seg, layout, (x: Site, s: Seg) => AddApicalChanSeg(RegionOf(x.sec), s));
    }

    method AddBasalChan()
      requires Valid()
      modifies seg
      ensures forall j :: 0 <= j < seg.Length ==> seg[j] == AddBasalChanSeg(RegionOf(layout[j].sec), old(seg[j]))
    {
      ApplyPass(seg, layout, (x: Site, s: Seg) => AddBasalChanSeg(RegionOf(x.sec), s));
    }

    method AddAxonChan()
      requires Valid()
      modifies seg
      ensures forall j :: 0 <= j < seg.Length ==>
                seg[j] == AddAxonChanSeg(RegionOf(layout[j].sec), layout[j].dist, old(seg[j]))
    {
      ApplyPass(seg, layout, (x: Site, s: Seg) => AddAxonChanSeg(RegionOf(x.sec), x.dist, s));
    }

    method GnaControl()
      requires Valid()
      modifies seg
      ensures forall j :: 0 <= j < seg.Length ==>
                seg[j] == GnaControlSeg(ratios, RegionOf(layout[j].sec), layout[j].dist, old(seg[j]))
    {
      ApplyPass(seg, layout, (x: Site, s: Seg) => GnaControlSeg(ratios, RegionOf(x.sec), x.dist, s));
    }

    method DistCa()
      requires Valid()
      modifies seg
      ensures forall j :: 0 <= j < seg.Length ==>
                seg[j] == DistCaSeg(ratios, RegionOf(layout[j].sec), layout[j].dist, old(seg[j]))
    {
      ApplyPass(seg, layout, (x: Site, s: Seg) => DistCaSeg(ratios, RegionOf(x.sec), x.dist, s));
    }

    method DistKV()
      requires Valid()
      modifies seg
      ensures forall j :: 0 <= j < seg.Length ==>
                seg[j] == DistKVSeg(RegionOf(layout[j].sec), layout[j].dist, old(seg[j]))
    {
      ApplyPass(seg, layout, (x: Site, s: Seg) => DistKVSeg(RegionOf(x.sec), x.dist, s));
    }

    method DistKA()
      requires Valid()
      modifies seg
      ensures forall j :: 0 <= j < seg.Length ==>
                seg[j] == DistKASeg(ratios, RegionOf(layout[j].sec), layout[j].dist, old(seg[j]))
    {
      ApplyPass(seg, layout, (x: Site, s: Seg) => DistKASeg(ratios, RegionOf(x.sec), x.dist, s));
    }

    method DistSpines()
      requires Valid()
      modifies seg
      ensures forall j :: 0 <= j < seg.Length ==>
                seg[j] == DistSpinesSeg(RegionOf(layout[j].sec), layout[j].dist, old(seg[j]))
    {
      ApplyPass(seg, layout, (x: Site, s: Seg) => DistSpinesSeg(RegionOf(x.sec), x.dist, s));
    }

    method AddCaK()
      requires Valid()
      modifies seg
      ensures forall j :: 0 <= j < seg.Length ==> seg[j] == AddCaKSeg(ratios, RegionOf(layout[j].sec), old(seg[j]))
    {
      ApplyPass(seg, layout, (x: Site, s: Seg) => AddCaKSeg(ratios, RegionOf(x.sec), s));
    }

    /** TTX: gbar_na = 0 on every section, the axon included. */
    method TTX()
      requires Valid()
      modifies seg
      ensures forall j :: 0 <= j < seg.Length ==> seg[j] == TtxSeg(old(seg[j]))
    {
      ApplyPass(seg, layout, (x: Site, s: Seg) => TtxSeg(s));
    }

    /** TTX_bAP: gbar_na = 0 on the basals only. */
    method TTXbAP()
      requires Valid()
      modifies seg
      ensures forall j :: 0 <= j < seg.Length ==> seg[j] == TtxBapSeg(RegionOf(layout[j].sec), old(seg[j]))
    {
      ApplyPass(seg, layout, (x: Site, s: Seg) => TtxBapSeg(RegionOf(x.sec), s));
    }

    /** no_ca: gbar_ca = gbar_it = 0 on soma, apical and basals. */
    method NoCa()
      requires Valid()
      modifies seg
      ensures forall j :: 0 <= j < seg.Length ==> seg[j] == NoCaSeg(RegionOf(layout[j].sec), old(seg[j]))
    {
      ApplyPass(seg, layout, (x: Site, s: Seg) => NoCaSeg(RegionOf(x.sec), s));
    }
  }
}
