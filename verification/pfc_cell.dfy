/** The CA229 cell as the PFC network loads it: the morphology comes from
    the same CA229 reconstruction (soma, apical, the basal list without
    basal[16], and basal[16] as the axon), and init_once sets up every
    section and runs its own density passes.  The module-level helpers
    distNaSD, distKASD and TTX rewrite a loaded cell in place. */
module PfcCell {
  import opened Wrappers
  import opened Segments
  import opened ChannelRules
  import opened CA229Topology
  import CA229Cell

  // Passive properties
  const GlobalRa: real := 90.0
  const SpineFactor: real := 1.5
  const SomaRm: real := 1000.0 / 0.04
  const DendRm: real := SomaRm / SpineFactor
  const SomaCm: real := 1.0
  const DendCm: real := SomaCm * SpineFactor
  const SpineDist: real := 50.0
  const Vk: real := -80.0
  const VNa: real := 60.0
  const PasVm: real := -65.0
  const ECa: real := 140.0
  // Sodium, pS/um2
  const SomaNa: real := 900.0
  const AxonNa: real := 5000.0
  const BasalNa: real := 150.0
  const MNa: real := 0.5
  const ApicalNa: real := 375.0
  const GNaMax: real := 2000.0
  // Potassium
  const SomaKv: real := 40.0
  const MKv: real := 0.0
  const GKvMax: real := 500.0
  const AxonKv: real := 100.0
  const SomaKA: real := 150.0
  const MGka: real := 0.7
  const ApicalKA: real := 300.0
  const GkaMax: real := 2000.0
  // Calcium: a total split between HVA (gcaratio) and T-type
  const SomaCa: real := 10.0
  const DendCa: real := 2.0
  const CaDist: real := 30.0
  const GCaRatio: real := 0.2
  // Axonal leak potassium
  const Gkl: real := 0.005
  const ILDist: real := 15.0

  /** The axial resistance of the loaded sections before init_once: taken to
      be NEURON's default, since the hoc morphology file is not part of this
      model.  init_once sets it to 90, so no result depends on it. */
  const DefaultRa: real := 35.4

  /** The lists are those of the CA229 reconstruction. */
  function RegionOf(sec: nat): Region
  {
    CA229Cell.RegionOf(sec)
  }

  // ----- Density rules -----

  function NaDensity(g: Region, d: real): real
  {
    match g
    case Soma => SomaNa
    case Basal => ClampToCap(BasalNa - MNa * d, GNaMax)
    case Axon => AxonNa
    case Apical => ApicalNa
  }

  function KvDensity(g: Region, d: real): real
  {
    match g
    case Soma => SomaKv
    case Basal => ClampToCap(SomaKv + MKv * d, GKvMax)
    case Axon => AxonKv
    case Apical => SomaKv
  }

  function KaTotal(g: Region, d: real): real
  {
    if g == Basal then ClampToCap(SomaKA + MGka * d, GkaMax) else ApicalKA
  }

  /** distCa's total calcium density: dendritic beyond cadist on basals and
      apical, somatic otherwise. */
  function CaTotal(g: Region, d: real): real
  {
    if (g == Basal || g == Apical) && d > CaDist then DendCa else SomaCa
  }

  /** The total split into (gbar_ca, gbar_it). */
  function CaSplit(total: real): (p: (real, real))
    ensures p.0 + 10000.0 * p.1 == total
    ensures p.0 == total * GCaRatio
  {
    (total * GCaRatio, total * (1.0 - GCaRatio) / 10000.0)
  }

  // ----- The passes, one segment at a time -----

  /** The per-list set-up of init_once, before its density passes. */
  function InitSeg(g: Region, d: real, s: Seg): Seg
  {
    match g
    case Soma =>
      s.(cm := Set(SomaCm), gPas := Set(1.0 / SomaRm), ePas := Set(PasVm), na := Insert(s.na),
         ena := Set(VNa), kv := Insert(s.kv), ek := Set(Vk), kap := Insert(s.kap),
         ca := Insert(s.ca), it := Insert(s.it), eca := Set(ECa))
    case Basal =>
      s.(gPas := Insert(s.gPas), ePas := Set(PasVm), na := Insert(s.na), ena := Set(VNa),
         kv := Insert(s.kv), ek := Set(Vk), kap := Insert(s.kap), kad := Insert(s.kad),
         ca := Insert(s.ca), it := Insert(s.it), eca := Set(ECa))
    case Axon =>
      s.(cm := Set(SomaCm), gPas := Set(1.0 / SomaRm), ePas := Set(PasVm), na := Insert(s.na),
         ena := Set(VNa), kv := Insert(s.kv), ek := Set(Vk), kl := Set(if d >= ILDist then Gkl else 0.0))
    case Apical =>
      s.(gPas := Insert(s.gPas), ePas := Set(PasVm), na := Insert(s.na), ena := Set(VNa),
         kv := Insert(s.kv), ek := Set(Vk), kap := Insert(s.kap), kad := Insert(s.kad),
         ca := Insert(s.ca), it := Insert(s.it), eca := Set(ECa))
  }

  function GnaControlSeg(g: Region, d: real, s: Seg): Seg
  {
    s.(na := Set(NaDensity(g, d)))
  }

  function DistCaSeg(g: Region, d: real, s: Seg): Seg
  {
    if g == Axon then s
    else
      var p := CaSplit(CaTotal(g, d));
      s.(ca := Set(p.0), it := Set(p.1))
  }

  function DistKVSeg(g: Region, d: real, s: Seg): Seg
  {
    s.(kv := Set(KvDensity(g, d)))
  }

  function DistKASeg(g: Region, d: real, s: Seg): Seg
  {
    if g == Basal || g == Apical
    then
      var p := KaSplit(KaTotal(g, d), d, 1.0);
      s.(kap := Set(p.0), kad := Set(p.1))
    else s
  }

  function DistSpinesSeg(g: Region, d: real, s: Seg): Seg
  {
    if g == Basal || g == Apical
    then
      if d >= SpineDist then s.(cm := Set(DendCm), gPas := Set(1.0 / DendRm))
      else s.(cm := Set(SomaCm), gPas := Set(1.0 / SomaRm))
    else s
  }

  /** A segment after init_once. */
  function Built(g: Region, d: real): Seg
  {
    var s1 := InitSeg(g, d, Bare);
    var s2 := GnaControlSeg(g, d, s1);
    var s3 := DistCaSeg(g, d, s2);
    var s4 := DistKVSeg(g, d, s3);
    var s5 := DistKASeg(g, d, s4);
    DistSpinesSeg(g, d, s5)
  }

  /** distNaSD's density for a basal Na of bNa at the soma. */
  function NaSD(bNa: real, d: real): (v: real)
    ensures 0.0 <= v <= GNaMax
  {
    ClampToCap(bNa - MNa * d, GNaMax)
  }

  /** distKASD's (kap, kad): the budget is capped at gkamax but not floored. */
  function KaSD(somaKA: real, d: real): (p: (real, real))
    ensures p.0 + p.1 == CapOnly(somaKA + MGka * d, GkaMax) / 10000.0
  {
    KaSplit(CapOnly(somaKA + MGka * d, GkaMax), d, 1.0)
  }

  function TtxSeg(s: Seg): Seg
  {
    s.(na := Set(0.0))
  }

  // ----- Properties -----

  /** distCa splits a total: gbar_ca + 1e4*gbar_it is somaCa or dendCa. */
  lemma CaTotalSplit(g: Region, d: real)
    requires g != Axon
    ensures Built(g, d).ca.Set? && Built(g, d).it.Set?
    ensures Built(g, d).ca.v + 10000.0 * Built(g, d).it.v
         == if g != Soma && d > 30.0 then DendCa else SomaCa
    ensures Built(g, d).ca.v == GCaRatio * (Built(g, d).ca.v + 10000.0 * Built(g, d).it.v)
  {
  }

  /** Axon sodium is axonNa at every distance. */
  lemma AxonNaUniform(d: real)
    ensures Built(Axon, d).na == Set(AxonNa)
  {
  }

  /** Axonal kl is gkl from 15 um on and zero before. */
  lemma AxonKl(d: real)
    ensures Built(Axon, d).kl == Set(if d >= 15.0 then Gkl else 0.0)
  {
  }

  /** The spine correction from 50 um on, on the basal list and apical only. */
  lemma SpineThreshold(g: Region, d: real, s: Seg)
    ensures g == Basal || g == Apical ==>
              Built(g, d).cm == Set(if d >= 50.0 then DendCm else SomaCm)
    ensures g == Basal || g == Apical ==>
              Built(g, d).gPas == Set(if d >= 50.0 then 1.0 / DendRm else 1.0 / SomaRm)
    ensures g == Soma || g == Axon ==> DistSpinesSeg(g, d, s) == s
  {
  }

  /** distKASD's budget can be negative: a negative soma_KA at the soma gives
      a negative kap + kad, which the two-sided clamp would have made zero. */
  lemma KaSDNotFloored()
    ensures KaSD(-10.0, 0.0).0 + KaSD(-10.0, 0.0).1 < 0.0
    ensures ClampToCap(-10.0 + MGka * 0.0, GkaMax) == 0.0
  {
  }

  /** What init_once inserts: na everywhere, kap and kad on the basal list
      and the apical dendrites, kap without kad on the soma, neither on the
      axon.  So on a built cell TTX and distNaSD raise nothing, and
      distKASD raises on a soma section and on the axon. */
  lemma BuiltMechanisms(g: Region, d: real)
    ensures Built(g, d).na != Absent
    ensures g == Basal || g == Apical ==> HasKa(Built(g, d))
    ensures g == Soma ==> Built(g, d).kap != Absent && Built(g, d).kad == Absent
    ensures g == Axon ==> Built(g, d).kap == Absent && Built(g, d).kad == Absent
  {
  }

  /** TTX zeroes sodium and nothing else; twice is once. */
  lemma TtxIdempotent(s: Seg)
    ensures TtxSeg(s).na == Set(0.0) && TtxSeg(s).(na := s.na) == s
    ensures TtxSeg(TtxSeg(s)) == TtxSeg(s)
  {
  }

  // ----- The cell -----

  class Cell {
    const layout: seq<Site>
    /** Ra of every section. */
    var ra: array<real>
    var seg: array<Seg>

    ghost predicate Valid()
      reads this
    {
      ra.Length == NSections && seg.Length == |layout| &&
      forall j :: 0 <= j < |layout| ==> layout[j].sec < NSections
    }

    /** The loaded morphology, before init_once. */
    constructor (layout: seq<Site>)
      requires forall j :: 0 <= j < |layout| ==> layout[j].sec < NSections
      ensures Valid() && this.layout == layout && fresh(ra) && fresh(seg)
      ensures forall s :: 0 <= s < NSections ==> ra[s] == DefaultRa
      ensures forall j :: 0 <= j < seg.Length ==> seg[j] == Bare
    {
      this.layout := layout;
      ra := new real[NSections](_ => DefaultRa);
      seg := new Seg[|layout|](_ => Bare);
    }

    /** init_once: Ra = 90 on every section, the per-list set-up, then
        gna_control, distCa, distKV, distKA and distspines. */
    method InitOnce()
      requires Valid()
      requires forall j :: 0 <= j < seg.Length ==> seg[j] == Bare
      modifies ra, seg
      ensures forall s :: 0 <= s < NSections ==> ra[s] == GlobalRa
      ensures forall j :: 0 <= j < seg.Length ==> seg[j] == Built(RegionOf(layout[j].sec), layout[j].dist)
    {
      var s := 0;
      while s < NSections
        invariant 0 <= s <= NSections
        invariant forall t :: 0 <= t < s ==> ra[t] == GlobalRa
        invariant forall j :: 0 <= j < seg.Length ==> seg[j] == Bare
      {
        ra[s] := GlobalRa;
        s := s + 1;
      }
      ApplyPass(seg, layout, (x: Site, t: Seg) => InitSeg(RegionOf(x.sec), x.dist, t));
      GnaControl();
      DistCa();
      DistKV();
      DistKA();
      DistSpines();
    }

    method GnaControl()
      requires Valid()
      modifies seg
      ensures forall j :: 0 <= j < seg.Length ==>
                seg[j] == GnaControlSeg(RegionOf(layout[j].sec), layout[j].dist, old(seg[j]))
    {
      ApplyPass(seg, layout, (x: Site, s: Seg) => GnaControlSeg(RegionOf(x.sec), x.dist, s));
    }

    method DistCa()
      requires Valid()
      modifies seg
      ensures forall j :: 0 <= j < seg.Length ==>
                seg[j] == DistCaSeg(RegionOf(layout[j].sec), layout[j].dist, old(seg[j]))
    {
      ApplyPass(seg, layout, (x: Site, s: Seg) => DistCaSeg(RegionOf(x.sec), x.dist, s));
    }

    method DistKV()
      requires Valid()
      modifies seg
      ensures forall j :: 0 <= j < seg.Length ==>
                seg[j] == DistKVSeg(RegionOf(layout[j].sec), layout[j].dist, old(seg[j]))
    {
      ApplyPass(seg, layout, (x: Site, s: Seg) => DistKVSeg(RegionOf(x.sec), x.dist, s));
    }

    method DistKA()
      requires Valid()
      modifies seg
      ensures forall j :: 0 <= j < seg.Length ==>
                seg[j] == DistKASeg(RegionOf(layout[j].sec), layout[j].dist, old(seg[j]))
    {
      ApplyPass(seg, layout, (x: Site, s: Seg) => DistKASeg(RegionOf(x.sec), x.dist, s));
    }

    method DistSpines()
      requires Valid()
      modifies seg
      ensures forall j :: 0 <= j < seg.Length ==>
                seg[j] == DistSpinesSeg(RegionOf(layout[j].sec), layout[j].dist, old(seg[j]))
    {
      ApplyPass(seg, layout, (x: Site, s: Seg) => DistSpinesSeg(RegionOf(x.sec), x.dist, s));
    }
  }

  /** distNaSD(section, b_Na): the clamped basal Na rule with b_Na at the
      soma, written to the segments of that one section in layout order.
      Assigning gbar_na where na is not inserted raises AttributeError;
      reached is the segment where it raised (the segments before it keep
      their new density), or the number of segments. */
  method DistNaSD(cell: Cell, sec: nat, bNa: real) returns (r: Result<()>, reached: nat)
    requires cell.Valid()
    modifies cell.seg
    ensures r.Err? <==> exists j :: 0 <= j < cell.seg.Length && cell.layout[j].sec == sec && old(cell.seg[j]).na == Absent
    ensures r.Err? ==> r.error == AttributeError
    ensures r.Ok? <==> reached == cell.seg.Length
    ensures reached <= cell.seg.Length
    ensures forall j :: 0 <= j < reached ==>
              cell.seg[j] == if cell.layout[j].sec == sec
                             then old(cell.seg[j]).(na := Set(NaSD(bNa, cell.layout[j].dist)))
                             else old(cell.seg[j])
    ensures forall j :: reached <= j < cell.seg.Length ==> cell.seg[j] == old(cell.seg[j])
  {
    reached := ApplyChecked(cell.seg, cell.layout, (x: Site) => x.sec == sec, (s: Seg) => s.na != Absent,
                            (x: Site, s: Seg) => s.(na := Set(NaSD(bNa, x.dist))), (x: Site, s: Seg) => s);
    if reached < cell.seg.Length {
      r := Err(AttributeError);
    } else {
      r := Ok(());
    }
  }

  /** Both A-type mechanisms are inserted. */
  predicate HasKa(s: Seg)
  {
    s.kap != Absent && s.kad != Absent
  }

  /** distKASD(section, soma_KA): the A-type split with soma_KA at the soma,
      capped at gkamax only, written to the segments of that one section in
      layout order, gkabar_kap before gkabar_kad.  Where kap or kad is not
      inserted (a soma section has no kad) AttributeError is raised; the
      segment where it raised keeps the kap it was given if it has kap. */
  method DistKASD(cell: Cell, sec: nat, somaKA: real) returns (r: Result<()>, reached: nat)
    requires cell.Valid()
    modifies cell.seg
    ensures r.Err? <==> exists j :: 0 <= j < cell.seg.Length && cell.layout[j].sec == sec && !HasKa(old(cell.seg[j]))
    ensures r.Err? ==> r.error == AttributeError
    ensures r.Ok? <==> reached == cell.seg.Length
    ensures reached <= cell.seg.Length
    ensures forall j :: 0 <= j < reached ==>
              cell.seg[j] == if cell.layout[j].sec == sec
                             then old(cell.seg[j]).(kap := Set(KaSD(somaKA, cell.layout[j].dist).0),
                                                    kad := Set(KaSD(somaKA, cell.layout[j].dist).1))
                             else old(cell.seg[j])
    ensures reached < cell.seg.Length ==>
              cell.seg[reached] == if old(cell.seg[reached]).kap != Absent
                                   then old(cell.seg[reached]).(kap := Set(KaSD(somaKA, cell.layout[reached].dist).0))
                                   else old(cell.seg[reached])
    ensures forall j :: reached < j < cell.seg.Length ==> cell.seg[j] == old(cell.seg[j])
  {
    reached := ApplyChecked(cell.seg, cell.layout, (x: Site) => x.sec == sec, HasKa,
                            (x: Site, s: Seg) => s.(kap := Set(KaSD(somaKA, x.dist).0), kad := Set(KaSD(somaKA, x.dist).1)),
                            (x: Site, s: Seg) => if s.kap != Absent then s.(kap := Set(KaSD(somaKA, x.dist).0)) else s);
    if reached < cell.seg.Length {
      r := Err(AttributeError);
    } else {
      r := Ok(());
    }
  }

  /** TTX(): gbar_na = 0 on every section, in layout order; AttributeError
      at the first segment without na (every segment of a cell before
      init_once), the segments before it zeroed. */
  method Ttx(cell: Cell) returns (r: Result<()>, reached: nat)
    requires cell.Valid()
    modifies cell.seg
    ensures r.Err? <==> exists j :: 0 <= j < cell.seg.Length && old(cell.seg[j]).na == Absent
    ensures r.Err? ==> r.error == AttributeError
    ensures r.Ok? <==> reached == cell.seg.Length
    ensures reached <= cell.seg.Length
    ensures forall j :: 0 <= j < reached ==> cell.seg[j] == TtxSeg(old(cell.seg[j]))
    ensures forall j :: reached <= j < cell.seg.Length ==> cell.seg[j] == old(cell.seg[j])
  {
    reached := ApplyChecked(cell.seg, cell.layout, (x: Site) => true, (s: Seg) => s.na != Absent,
                            (x: Site, s: Seg) => TtxSeg(s), (x: Site, s: Seg) => s);
    if reached < cell.seg.Length {
      r := Err(AttributeError);
    } else {
      r := Ok(());
    }
  }
}
