/** The simplified CA229 cell: seven unbranched sections created one by one
    and appended to the cell's section list, with the same kinds of density
    passes as the full cell but its own constants, no scale ratios and no
    segment-count optimisation. */
module SimpCell {
  import opened Segments
  import opened ChannelRules

  // Passive properties
  const SpineFactor: real := 1.5
  const SomaRm: real := 1000.0 / 0.04
  const DendRm: real := SomaRm / SpineFactor
  const SomaCm: real := 1.0
  const DendCm: real := SomaCm * SpineFactor
  const SpineDist: real := 50.0
  const Vk: real := -95.0
  const VNa: real := 65.0
  const PasVm: real := -80.0
  const ECa: real := 140.0
  // Sodium, pS/um2
  const SomaNa: real := 150.0
  const AxonNa: real := 5000.0
  const BasalNa: real := 150.0
  const MNa: real := 0.5
  const ApicalNa: real := 375.0
  const GNaMax: real := 2000.0
  // Potassium
  const SomaKv: real := 40.0
  const MKv: real := 0.0
  const GKvMax: real := 500.0
  const AxonKv: real := 100.0
  const SomaKA: real := 150.0
  const MGka: real := 0.7
  const ApicalKA: real := 300.0
  const GkaMax: real := 2000.0
  // Calcium
  const SomaCa: real := 0.5
  const DendCa: real := 0.4
  const SomaCaT: real := 1.0
  const DendCaT: real := 1.6
  const CaDistB: real := 30.0
  const CaDistA: real := 30.0
  // Axonal leak potassium and BK
  const Gkl: real := 0.005
  const ILDist: real := 15.0
  const KBKGpeak: real := 0.000268
  const KBKCaVhminShift: real := 45.0

  // ----- Morphology -----

  /** Section numbers: the order in which create_cell calls add_comp. */
  const Soma2: nat := 0
  const AxonS: nat := 1
  const Bdend1: nat := 2
  const Bdend2: nat := 3
  const Adend1: nat := 4
  const Adend2: nat := 5
  const Adend3: nat := 6
  const NSections: nat := 7

  function RegionOf(sec: nat): Region
  {
    if sec == Soma2 then Soma
    else if sec == AxonS then Axon
    else if sec == Bdend1 || sec == Bdend2 then Basal
    else Apical
  }

  /** NEURON's defaults for a new section: L = 100 um, diam = 500 um, one segment. */
  const DefaultL: real := 100.0
  const DefaultDiam: real := 500.0
  const DefaultNseg: int := 1

  datatype Section = Section(name: string, len: real, diam: real, nseg: int)

  /** `child.connect(parent, parentX, childX)`: the childX end of the child
      sits at position parentX of the parent. */
  datatype Attach = Attach(parent: nat, parentX: real, childX: real)

  /** The sections create_cell leaves behind, in `self.all` order. */
  function Morphology(): (m: seq<Section>)
    ensures |m| == NSections
    ensures forall i :: 0 <= i < NSections ==> m[i].nseg == (if i == Bdend1 || i == Bdend2 then 99 else DefaultNseg)
    ensures forall i :: 0 <= i < NSections && RegionOf(i) == Apical ==> m[i].len == 261.9 && m[i].diam == 1.58
    ensures forall i :: 0 <= i < NSections && RegionOf(i) == Basal ==> m[i].len == 200.0 && m[i].diam == 2.28
  {
    [Section("soma_2", 48.4, 28.2, DefaultNseg),
     Section("axon", 594.3, 1.41, DefaultNseg),
     Section("Bdend1", 200.0, 2.28, 99),
     Section("Bdend2", 200.0, 2.28, 99),
     Section("Adend1", 261.9, 1.58, DefaultNseg),
     Section("Adend2", 261.9, 1.58, DefaultNseg),
     Section("Adend3", 261.9, 1.58, DefaultNseg)]
  }

  /** The six connect statements of create_cell. */
  function Topology(): map<nat, Attach>
  {
    map[][AxonS := Attach(Soma2, 0.0, 0.0)]
         [Bdend1 := Attach(Soma2, 0.5, 0.0)]
         [Bdend2 := Attach(Soma2, 0.5, 0.0)]
         [Adend1 := Attach(Soma2, 1.0, 0.0)]
         [Adend2 := Attach(Adend1, 1.0, 0.0)]
         [Adend3 := Attach(Adend2, 1.0, 0.0)]
  }

  /** Every section but soma_2 has exactly one parent, created before it, so
      the sections form a tree rooted at soma_2; the axon, the basal and the
      first apical section hang off soma_2 at 0, 0.5 and 1, and the apical
      sections form a chain, each at the far end of the previous one. */
  lemma TopologyIsTree()
    ensures forall s: nat :: s in Topology() <==> 1 <= s < NSections
    ensures forall s :: s in Topology() ==> Topology()[s].parent < s && Topology()[s].childX == 0.0
    ensures Topology()[AxonS].parentX == 0.0 && Topology()[Bdend1].parentX == 0.5
    ensures Topology()[Bdend2].parentX == 0.5 && Topology()[Adend1].parentX == 1.0
    ensures forall s :: s in Topology() ==> (Topology()[s].parent == Soma2 <==> s <= Adend1)
  {
  }

  /** The chain of parents from section s to soma_2. */
  function PathToRoot(s: nat): (path: seq<nat>)
    requires s < NSections
    ensures |path| >= 1 && path[0] == s && path[|path| - 1] == Soma2
    ensures forall i :: 0 <= i < |path| - 1 ==> path[i] in Topology() && path[i + 1] == Topology()[path[i]].parent
    decreases s
  {
    TopologyIsTree();
    if s == Soma2 then [s] else [s] + PathToRoot(Topology()[s].parent)
  }

  // ----- Density rules -----

  function NaDensity(g: Region, d: real): real
  {
    match g
    case Soma => SomaNa
    case Basal => ClampToCap(BasalNa - MNa * d, GNaMax)
    case Axon => if 50.0 <= d <= 100.0 then AxonNa else SomaNa
    case Apical => ApicalNa
  }

  function KvDensity(g: Region, d: real): real
  {
    match g
    case Soma => SomaKv
    case Basal => ClampToCap(SomaKv + MKv * d, GKvMax)
    case Axon => AxonKv
    case Apical => SomaKv
  }

  function KaTotal(g: Region, d: real): real
  {
    if g == Basal then ClampToCap(SomaKA + MGka * d, GkaMax) else ApicalKA
  }

  function CaPair(g: Region, d: real): (real, real)
  {
    var far := (g == Basal && d > CaDistB) || (g == Apical && d > CaDistA);
    if far then (DendCa, DendCaT / 10000.0) else (SomaCa, SomaCaT / 10000.0)
  }

  // ----- The passes, one segment at a time -----

  function AddAllSeg(g: Region, s: Seg): Seg
  {
    var t := s.(gPas := Insert(s.gPas), ePas := Set(PasVm), na := Insert(s.na),
                ena := Set(VNa), ek := Set(Vk), kv := Insert(s.kv));
    if g == Axon then t
    else t.(kap := Insert(t.kap), ca := Insert(t.ca), it := Insert(t.it), eca := Set(ECa))
  }

  function AddSomaChanSeg(g: Region, s: Seg): Seg
  {
    if g == Soma then s.(cm := Set(SomaCm), gPas := Set(1.0 / SomaRm)) else s
  }

  function AddApicalChanSeg(g: Region, s: Seg): Seg
  {
    if g == Apical then s.(kad := Insert(s.kad)) else s
  }

  function AddBasalChanSeg(g: Region, s: Seg): Seg
  {
    if g == Basal then s.(kad := Insert(s.kad)) else s
  }

  function AddAxonChanSeg(g: Region, d: real, s: Seg): Seg
  {
    if g == Axon
    then s.(cm := Set(SomaCm), gPas := Set(1.0 / SomaRm), kl := Set(if d >= ILDist then Gkl else 0.0))
    else s
  }

  function GnaControlSeg(g: Region, d: real, s: Seg): Seg
  {
    s.(na := Set(NaDensity(g, d)))
  }

  function DistCaSeg(g: Region, d: real, s: Seg): Seg
  {
    if g == Axon then s else s.(ca := Set(CaPair(g, d).0), it := Set(CaPair(g, d).1))
  }

  function DistKVSeg(g: Region, d: real, s: Seg): Seg
  {
    s.(kv := Set(KvDensity(g, d)))
  }

  function DistKASeg(g: Region, d: real, s: Seg): Seg
  {
    if g == Basal || g == Apical
    then
      var p := KaSplit(KaTotal(g, d), d, 1.0);
      s.(kap := Set(p.0), kad := Set(p.1))
    else s
  }

  function DistSpinesSeg(g: Region, d: real, s: Seg): Seg
  {
    if g == Basal || g == Apical
    then
      if d >= SpineDist then s.(cm := Set(DendCm), gPas := Set(1.0 / DendRm))
      else s.(cm := Set(SomaCm), gPas := Set(1.0 / SomaRm))
    else s
  }

  function AddCaKSeg(g: Region, s: Seg): Seg
  {
    if g == Axon then s
    else s.(bk := Set(KBKGpeak), bkVhmin := Set(-46.08 + KBKCaVhminShift))
  }

  function TtxSeg(s: Seg): Seg
  {
    s.(na := Set(0.0))
  }

  function NoCaSeg(g: Region, s: Seg): Seg
  {
    if g == Axon then s else s.(ca := Set(0.0), it := Set(0.0))
  }

  /** A segment after the whole constructor (add_ih writes only Ih). */
  function Built(g: Region, d: real): Seg
  {
    var s1 := AddAllSeg(g, Bare);
    var s2 := AddSomaChanSeg(g, s1);
    var s3 := AddApicalChanSeg(g, s2);
    var s4 := AddBasalChanSeg(g, s3);
    var s5 := AddAxonChanSeg(g, d, s4);
    var s6 := GnaControlSeg(g, d, s5);
    var s7 := DistCaSeg(g, d, s6);
    var s8 := DistKVSeg(g, d, s7);
    var s9 := DistKASeg(g, d, s8);
    var s10 := DistSpinesSeg(g, d, s9);
    AddCaKSeg(g, s10)
  }

  // ----- Properties of the built cell -----

  /** Axon sodium is axonNa exactly on [50, 100] um and somaNa (150) elsewhere. */
  lemma AxonNaWindow(d: real)
    ensures Built(Axon, d).na == Set(AxonNa) <==> 50.0 <= d <= 100.0
    ensures Built(Axon, d).na == Set(if 50.0 <= d <= 100.0 then 5000.0 else 150.0)
  {
  }

  /** Basal sodium is the clamped linear rule, with no scale factor, and
      lies in [0, gNamax]. */
  lemma BasalNaClamped(d: real)
    ensures Built(Basal, d).na == Set(ClampToCap(BasalNa - MNa * d, GNaMax))
    ensures 0.0 <= Built(Basal, d).na.v <= GNaMax
  {
  }

  /** Basal KA: kap + kad is the clamped budget in S/cm2. */
  lemma BasalKaConserved(d: real)
    ensures Built(Basal, d).kap.Set? && Built(Basal, d).kad.Set?
    ensures Built(Basal, d).kap.v + Built(Basal, d).kad.v == ClampToCap(SomaKA + MGka * d, GkaMax) / 10000.0
  {
  }

  /** Spine correction from 50 um on (inclusive); Ca switch beyond 30 um (strict). */
  lemma Thresholds(g: Region, d: real)
    requires g == Basal || g == Apical
    ensures Built(g, d).cm == Set(if d >= 50.0 then DendCm else SomaCm)
    ensures Built(g, d).gPas == Set(if d >= 50.0 then 1.0 / DendRm else 1.0 / SomaRm)
    ensures Built(g, d).ca == Set(if d > 30.0 then DendCa else SomaCa)
    ensures Built(g, d).it == Set(if d > 30.0 then DendCaT / 10000.0 else SomaCaT / 10000.0)
  {
  }

  /** TTX zeroes sodium in every one of the seven sections and nothing else;
      no_ca leaves the axon, which has no Ca mechanisms, untouched. */
  lemma Knockouts(g: Region, d: real, s: Seg)
    ensures TtxSeg(s).na == Set(0.0) && TtxSeg(s).(na := s.na) == s
    ensures TtxSeg(TtxSeg(s)) == TtxSeg(s)
    ensures NoCaSeg(Axon, s) == s && Built(Axon, d).ca == Absent && Built(Axon, d).it == Absent
    ensures g != Axon ==> NoCaSeg(g, s) == s.(ca := Set(0.0), it := Set(0.0))
  {
  }

  // ----- The cell -----

  class Cell {
    const layout: seq<Site>
    /** `self.all`: the sections in the order add_comp created them. */
    var all: seq<Section>
    /** The connect statements made so far, by child section. */
    var attach: map<nat, Attach>
    var seg: array<Seg>

    ghost predicate Valid()
      reads this
    {
      seg.Length == |layout| && forall j :: 0 <= j < |layout| ==> layout[j].sec < NSections
    }

    constructor (layout: seq<Site>)
      requires forall j :: 0 <= j < |layout| ==> layout[j].sec < NSections
      ensures Valid() && this.layout == layout && fresh(seg)
      ensures all == Morphology() && attach == Topology()
      ensures forall j :: 0 <= j < seg.Length ==> seg[j] == Built(RegionOf(layout[j].sec), layout[j].dist)
    {
      this.layout := layout;
      all := [];
      attach := map[];
      seg := new Seg[|layout|](_ => Bare);
      new;
      CreateCell();
      AddAll();
      AddSomaChan();
      AddApicalChan();
      AddBasalChan();
      AddAxonChan();
      GnaControl();
      DistCa();
      DistKV();
      DistKA();
      DistSpines();
      AddCaK();
    }

    /** add_comp: create a section with NEURON's defaults and append it to `all`. */
    method AddComp(name: string)
      modifies this
      ensures all == old(all) + [Section(name, DefaultL, DefaultDiam, DefaultNseg)]
      ensures attach == old(attach) && seg == old(seg)
    {
      all := all + [Section(name, DefaultL, DefaultDiam, DefaultNseg)];
    }

    /** `child.connect(parent, parentX, childX)`. */
    method Connect(child: nat, parent: nat, parentX: real, childX: real)
      modifies this
      ensures attach == old(attach)[child := Attach(parent, parentX, childX)]
      ensures all == old(all) && seg == old(seg)
    {
      attach := attach[child := Attach(parent, parentX, childX)];
    }

    /** The seven add_comp calls of create_cell: every section with
        NEURON's default geometry. */
    method AddComps()
      requires all == []
      modifies this
      ensures |all| == NSections
      ensures forall k :: 0 <= k < NSections ==> all[k] == Morphology()[k].(len := DefaultL, diam := DefaultDiam, nseg := DefaultNseg)
      ensures attach == old(attach) && seg == old(seg)
    {
      AddComp("soma_2");
      AddComp("axon");
      AddComp("Bdend1");
      AddComp("Bdend2");
      AddComp("Adend1");
      AddComp("Adend2");
      AddComp("Adend3");
    }

    /** The geometry create_cell sets on the sections it added. */
    method SetGeometry()
      requires |all| == NSections
      requires forall k :: 0 <= k < NSections ==> all[k] == Morphology()[k].(len := DefaultL, diam := DefaultDiam, nseg := DefaultNseg)
      modifies this
      ensures all == Morphology() && attach == old(attach) && seg == old(seg)
    {
      all := all[AxonS := all[AxonS].(len := 594.3, diam := 1.41)];
      all := all[Soma2 := all[Soma2].(len := 48.4, diam := 28.2)];
      var i := 0;
      while i < 3
        invariant 0 <= i <= 3 && |all| == NSections && seg == old(seg) && attach == old(attach)
        invariant all[Soma2] == Section("soma_2", 48.4, 28.2, DefaultNseg)
        invariant all[AxonS] == Section("axon", 594.3, 1.41, DefaultNseg)
        invariant all[Bdend1] == Section("Bdend1", DefaultL, DefaultDiam, DefaultNseg)
        invariant all[Bdend2] == Section("Bdend2", DefaultL, DefaultDiam, DefaultNseg)
        invariant forall k :: Adend1 <= k < Adend1 + i ==> all[k] == Morphology()[k]
        invariant forall k :: Adend1 + i <= k < NSections ==> all[k] == Morphology()[k].(len := DefaultL, diam := DefaultDiam)
      {
        all := all[Adend1 + i := all[Adend1 + i].(len := 261.9, diam := 1.58)];
        i := i + 1;
      }
      all := all[Bdend1 := all[Bdend1].(len := 200.0, diam := 2.28)];
      all := all[Bdend2 := all[Bdend2].(len := 200.0, diam := 2.28)];
      all := all[Bdend1 := all[Bdend1].(nseg := 99)];
      all := all[Bdend2 := all[Bdend2].(nseg := 99)];
    }

    method CreateCell()
      requires all == [] && attach == map[]
      modifies this
      ensures all == Morphology() && attach == Topology() && seg == old(seg)
    {
      AddComps();
      SetGeometry();
      Connect(AxonS, Soma2, 0.0, 0.0);
      Connect(Bdend1, Soma2, 0.5, 0.0);
      Connect(Bdend2, Soma2, 0.5, 0.0);
      Connect(Adend1, Soma2, 1.0, 0.0);
      Connect(Adend2, Adend1, 1.0, 0.0);
      Connect(Adend3, Adend2, 1.0, 0.0);
    }

    method AddAll()
      requires Valid()
      modifies seg
      ensures forall j :: 0 <= j < seg.Length ==> seg[j] == AddAllSeg(RegionOf(layout[j].sec), old(seg[j]))
    {
      ApplyPass(seg, layout, (x: Site, s: Seg) => AddAllSeg(RegionOf(x.sec), s));
    }

    method AddSomaChan()
      requires Valid()
      modifies seg
      ensures forall j :: 0 <= j < seg.Length ==> seg[j] == AddSomaChanSeg(RegionOf(layout[j].sec), old(seg[j]))
    {
      ApplyPass(seg, layout, (x: Site, s: Seg) => AddSomaChanSeg(RegionOf(x.sec), s));
    }

    method AddApicalChan()
      requires Valid()
      modifies seg
      ensures forall j :: 0 <= j < seg.Length ==> seg[j] == AddApicalChanSeg(RegionOf(layout[j].sec), old(seg[j]))
    {
      ApplyPass(seg, layout, (x: Site, s: Seg) => AddApicalChanSeg(RegionOf(x.sec), s));
    }

    method AddBasalChan()
      requires Valid()
      modifies seg
      ensures forall j :: 0 <= j < seg.Length ==> seg[j] == AddBasalChanSeg(RegionOf(layout[j].sec), old(seg[j]))
    {
      ApplyPass(seg, layout, (x: Site, s: Seg) => AddBasalChanSeg(RegionOf(x.sec), s));
    }

    method AddAxonChan()
      requires Valid()
      modifies seg
      ensures forall j :: 0 <= j < seg.Length ==>
                seg[j] == AddAxonChanSeg(RegionOf(layout[j].sec), layout[j].dist, old(seg[j]))
    {
      ApplyPass(seg, layout, (x: Site, s: Seg) => AddAxonChanSeg(RegionOf(x.sec), x.dist, s));
    }

    method GnaControl()
      requires Valid()
      modifies seg
      ensures forall j :: 0 <= j < seg.Length ==>
                seg[j] == GnaControlSeg(RegionOf(layout[j].sec), layout[j].dist, old(seg[j]))
    {
      ApplyPass(seg, layout, (x: Site, s: Seg) => GnaControlSeg(RegionOf(x.sec), x.dist, s));
    }

    method DistCa()
      requires Valid()
      modifies seg
      ensures forall j :: 0 <= j < seg.Length ==>
                seg[j] == DistCaSeg(RegionOf(layout[j].sec), layout[j].dist, old(seg[j]))
    {
      ApplyPass(seg, layout, (x: Site, s: Seg) => DistCaSeg(RegionOf(x.sec), x.dist, s));
    }

    method DistKV()
      requires Valid()
      modifies seg
      ensures forall j :: 0 <= j < seg.Length ==>
                seg[j] == DistKVSeg(RegionOf(layout[j].sec), layout[j].dist, old(seg[j]))
    {
      ApplyPass(seg, layout, (x: Site, s: Seg) => DistKVSeg(RegionOf(x.sec), x.dist, s));
    }

    method DistKA()
      requires Valid()
      modifies seg
      ensures forall j :: 0 <= j < seg.Length ==>
                seg[j] == DistKASeg(RegionOf(layout[j].sec), layout[j].dist, old(seg[j]))
    {
      ApplyPass(seg, layout, (x: Site, s: Seg) => DistKASeg(RegionOf(x.sec), x.dist, s));
    }

    method DistSpines()
      requires Valid()
      modifies seg
      ensures forall j :: 0 <= j < seg.Length ==>
                seg[j] == DistSpinesSeg(RegionOf(layout[j].sec), layout[j].dist, old(seg[j]))
    {
      ApplyPass(seg, layout, (x: Site, s: Seg) => DistSpinesSeg(RegionOf(x.sec), x.dist, s));
    }

    method AddCaK()
      requires Valid()
      modifies seg
      ensures forall j :: 0 <= j < seg.Length ==> seg[j] == AddCaKSeg(RegionOf(layout[j].sec), old(seg[j]))
    {
      ApplyPass(seg, layout, (x: Site, s: Seg) => AddCaKSeg(RegionOf(x.sec), s));
    }

    /** TTX: gbar_na = 0 on all seven sections. */
    method TTX()
      requires Valid()
      modifies seg
      ensures forall j :: 0 <= j < seg.Length ==> seg[j] == TtxSeg(old(seg[j]))
    {
      ApplyPass(seg, layout, (x: Site, s: Seg) => TtxSeg(s));
    }

    /** no_ca: gbar_ca = gbar_it = 0 on soma_2, the apical and the basal sections. */
    method NoCa()
      requires Valid()
      modifies seg
      ensures forall j :: 0 <= j < seg.Length ==> seg[j] == NoCaSeg(RegionOf(layout[j].sec), old(seg[j]))
    {
      ApplyPass(seg, layout, (x: Site, s: Seg) => NoCaSeg(RegionOf(x.sec), s));
    }
  }
}
