/** The NetPyNE network parameters of the batch runs: the per-section
    rescaling of channel densities and passive properties by the run's
    configuration, the synaptic mechanisms, and the NetStim stimulation
    targets.  Section parameters are NetPyNE's nested dictionaries; a
    channel density is a number or a list of per-segment numbers. */
module NetParams {
  import opened Wrappers
  import opened PyOps

  /** A parameter value: one number, or one number per segment. */
  datatype PVal = Scalar(x: real) | Vector(xs: seq<real>)

  type Params = map<string, PVal>

  /** One section of a cell's parameters: vinit, the inserted mechanisms
      with their parameters, and the geometry. */
  datatype Sec = Sec(vinit: Option<real>, mechs: map<string, Params>, geom: Params)

  /** An "all sections" and a "dendritic sections" scale for one group of
      channels; a scale the configuration does not define is None. */
  datatype Scales = Scales(all: Option<real>, dend: Option<real>)

  /** The scales of Ih and of the passive properties. */
  datatype PassiveScales = PassiveScales(ih: Option<real>, rm: Option<real>, gpasSoma: Option<real>,
                                         dendRa: Option<real>, dendRm: Option<real>)

  /** The configuration attributes the scaling reads: e_pas,
      allNaScale/dendNaScale, allKScale/dendKScale, and ihScale, RmScale,
      gpasSomaScale, dendRaScale, dendRmScale.  An attribute the
      configuration does not define is None; e_pas is read without a
      hasattr test, so a missing one raises AttributeError. */
  datatype Cfg = Cfg(ePas: Option<real>, na: Scales, k: Scales, passive: PassiveScales)

  /** A section as far as the scaling got, and the exception that stopped
      it, if any: the dictionaries are changed in place, so the steps run
      before an exception keep their effect. */
  datatype Outcome = Outcome(sec: Sec, err: Option<PyError>)

  /** The numbers of np.array(v, ndmin=1). */
  function Elems(v: PVal): seq<real>
  {
    match v
    case Scalar(x) => [x]
    case Vector(xs) => xs
  }

  /** list(np.array(v, ndmin=1) * s): always a list. */
  function ArrayScale(v: PVal, s: real): (r: PVal)
    ensures r.Vector? && |r.xs| == |Elems(v)|
    ensures forall i :: 0 <= i < |r.xs| ==> r.xs[i] == Elems(v)[i] * s
  {
    Vector(seq(|Elems(v)|, i requires 0 <= i < |Elems(v)| => Elems(v)[i] * s))
  }

  function SetParam(sec: Sec, mech: string, param: string, v: PVal): (r: Sec)
    requires mech in sec.mechs
  {
    sec.(mechs := sec.mechs[mech := sec.mechs[mech][param := v]])
  }

  /** b is a with at most mechanism mech's parameters changed. */
  predicate OnlyMech(a: Sec, b: Sec, mech: string)
  {
    b.vinit == a.vinit && b.geom == a.geom && b.mechs.Keys == a.mechs.Keys
    && (mech in a.mechs ==> mech in b.mechs && b.mechs == a.mechs[mech := b.mechs[mech]])
    && (mech !in a.mechs ==> b.mechs == a.mechs)
  }

  /** A change confined to mechanism mech leaves every other one alone. */
  lemma KeepsOther(a: Sec, b: Sec, mech: string, other: string)
    requires OnlyMech(a, b, mech) && mech != other
    ensures other in a.mechs ==> other in b.mechs && b.mechs[other] == a.mechs[other]
  {
  }

  /** The sections the dendritic channel scales apply to. */
  predicate Dendritic(name: string)
  {
    Contains(name, "basal") || Contains(name, "apical")
  }

  /** The rescaling of one channel's density param: when mech is inserted
      and either scale is set, it is orig * dend on basal and apical
      sections and then orig * all on every section, orig being the value
      before either; a missing param is then a KeyError. */
  function ScaleChannel(sc: Scales, name: string, sec: Sec, mech: string, param: string): (o: Outcome)
    ensures OnlyMech(sec, o.sec, mech)
    ensures o.err.Some? <==> (sc.all.Some? || sc.dend.Some?) && mech in sec.mechs && param !in sec.mechs[mech]
    ensures o.err.Some? ==> o.err.value == KeyError && o.sec == sec
    ensures mech !in sec.mechs || (sc.all.None? && (sc.dend.None? || !Dendritic(name))) ==> o.sec == sec
    ensures o.err.None? && mech in sec.mechs && sc.all.Some? ==>
              o.sec.mechs[mech] == sec.mechs[mech][param := ArrayScale(sec.mechs[mech][param], sc.all.value)]
    ensures o.err.None? && mech in sec.mechs && sc.all.None? && sc.dend.Some? && Dendritic(name) ==>
              o.sec.mechs[mech] == sec.mechs[mech][param := ArrayScale(sec.mechs[mech][param], sc.dend.value)]
  {
    if (sc.all.None? && sc.dend.None?) || mech !in sec.mechs then Outcome(sec, None)
    else if param !in sec.mechs[mech] then Outcome(sec, Some(KeyError))
    else
      var orig := sec.mechs[mech][param];
      var s1 := if sc.dend.Some? && Dendritic(name) then SetParam(sec, mech, param, ArrayScale(orig, sc.dend.value)) else sec;
      var s2 := if sc.all.Some? then SetParam(s1, mech, param, ArrayScale(orig, sc.all.value)) else s1;
      Outcome(s2, None)
  }

  /** When the "all" scale is set, the dendritic one has no effect: the
      two do not compound. */
  lemma AllOverridesDend(all: real, dend: Option<real>, name: string, sec: Sec, mech: string, param: string)
    ensures ScaleChannel(Scales(Some(all), dend), name, sec, mech, param)
            == ScaleChannel(Scales(Some(all), None), name, sec, mech, param)
  {
    var o := ScaleChannel(Scales(Some(all), dend), name, sec, mech, param);
    var o' := ScaleChannel(Scales(Some(all), None), name, sec, mech, param);
    if mech in sec.mechs && param in sec.mechs[mech] {
      assert o.sec.mechs == o'.sec.mechs;
    }
  }

  /** The dendritic scale has no effect on a section that is neither
      basal nor apical, as long as the channel has its parameter. */
  lemma DendOnlyDendritic(sc: Scales, name: string, sec: Sec, mech: string, param: string)
    requires !Dendritic(name) && (mech in sec.mechs ==> param in sec.mechs[mech])
    ensures ScaleChannel(sc, name, sec, mech, param) == ScaleChannel(sc.(dend := None), name, sec, mech, param)
  {
  }

  /** The channel groups scaled, with the parameter holding the density. */
  predicate HasDensities(sec: Sec)
  {
    ("na" in sec.mechs ==> "gbar" in sec.mechs["na"])
    && ("kv" in sec.mechs ==> "gbar" in sec.mechs["kv"])
    && ("kap" in sec.mechs ==> "gkabar" in sec.mechs["kap"])
    && ("kad" in sec.mechs ==> "gkabar" in sec.mechs["kad"])
    && ("kBK" in sec.mechs ==> "gpeak" in sec.mechs["kBK"])
  }

  /** The four potassium channels under allKScale / dendKScale. */
  function ScaleK(sc: Scales, name: string, sec: Sec): (o: Outcome)
    ensures o.sec.vinit == sec.vinit && o.sec.geom == sec.geom
    ensures o.sec.mechs.Keys == sec.mechs.Keys
    ensures "na" in sec.mechs ==> o.sec.mechs["na"] == sec.mechs["na"]
  {
    var o1 := ScaleChannel(sc, name, sec, "kv", "gbar");
    KeepsOther(sec, o1.sec, "kv", "na");
    if o1.err.Some? then o1 else
    var o2 := ScaleChannel(sc, name, o1.sec, "kap", "gkabar");
    KeepsOther(o1.sec, o2.sec, "kap", "na");
    if o2.err.Some? then o2 else
    var o3 := ScaleChannel(sc, name, o2.sec, "kad", "gkabar");
    KeepsOther(o2.sec, o3.sec, "kad", "na");
    if o3.err.Some? then o3 else
    var o4 := ScaleChannel(sc, name, o3.sec, "kBK", "gpeak");
    KeepsOther(o3.sec, o4.sec, "kBK", "na");
    o4
  }

  /** allKScale overrides dendKScale on all four potassium channels. */
  lemma AllKOverridesDendK(all: real, dend: Option<real>, name: string, sec: Sec)
    ensures ScaleK(Scales(Some(all), dend), name, sec) == ScaleK(Scales(Some(all), None), name, sec)
  {
    var sc := Scales(Some(all), dend);
    var o1 := ScaleChannel(sc, name, sec, "kv", "gbar");
    var o2 := ScaleChannel(sc, name, o1.sec, "kap", "gkabar");
    var o3 := ScaleChannel(sc, name, o2.sec, "kad", "gkabar");
    AllOverridesDend(all, dend, name, sec, "kv", "gbar");
    AllOverridesDend(all, dend, name, o1.sec, "kap", "gkabar");
    AllOverridesDend(all, dend, name, o2.sec, "kad", "gkabar");
    AllOverridesDend(all, dend, name, o3.sec, "kBK", "gpeak");
  }

  /** dendKScale has no effect on a section that is neither basal nor
      apical. */
  lemma KDendOnlyDendritic(sc: Scales, name: string, sec: Sec)
    requires !Dendritic(name) && HasDensities(sec)
    ensures ScaleK(sc, name, sec) == ScaleK(sc.(dend := None), name, sec)
  {
    var o1 := ScaleChannel(sc, name, sec, "kv", "gbar");
    var o2 := ScaleChannel(sc, name, o1.sec, "kap", "gkabar");
    var o3 := ScaleChannel(sc, name, o2.sec, "kad", "gkabar");
    DendOnlyDendritic(sc, name, sec, "kv", "gbar");
    DendOnlyDendritic(sc, name, o1.sec, "kap", "gkabar");
    DendOnlyDendritic(sc, name, o2.sec, "kad", "gkabar");
    DendOnlyDendritic(sc, name, o3.sec, "kBK", "gpeak");
  }

  /** factor * sec['mechs'][mech][param] stored back: KeyError when the
      mechanism or parameter is missing, TypeError when the value is a
      list (a float times a list). */
  function MulMech(sec: Sec, mech: string, param: string, factor: real): (o: Outcome)
    ensures OnlyMech(sec, o.sec, mech)
    ensures o.err.None? <==> mech in sec.mechs && param in sec.mechs[mech] && sec.mechs[mech][param].Scalar?
    ensures mech !in sec.mechs || param !in sec.mechs[mech] ==> o.err == Some(KeyError)
    ensures mech in sec.mechs && param in sec.mechs[mech] && sec.mechs[mech][param].Vector? ==> o.err == Some(TypeError)
    ensures o.err.Some? ==> o.sec == sec
    ensures o.err.None? ==>
              o.sec.mechs[mech] == sec.mechs[mech][param := Scalar(factor * sec.mechs[mech][param].x)]
  {
    if mech !in sec.mechs || param !in sec.mechs[mech] then Outcome(sec, Some(KeyError))
    else
      var v := sec.mechs[mech][param];
      if v.Vector? then Outcome(sec, Some(TypeError))
      else
        var nv := Scalar(factor * v.x);
        assert nv == Scalar(factor * sec.mechs[mech][param].x);
        var s' := SetParam(sec, mech, param, nv);
        assert s'.mechs[mech] == sec.mechs[mech][param := nv];
        Outcome(s', None)
  }

  /** 1.0 / k, for the scales that divide. */
  function Recip(k: real): real
    requires k != 0.0
  {
    1.0 / k
  }

  /** ihScale multiplies the Ih density of sections that have Ih. */
  function ScaleIh(ih: Option<real>, sec: Sec): (o: Outcome)
    ensures OnlyMech(sec, o.sec, "ih")
  {
    if ih.Some? && "ih" in sec.mechs then MulMech(sec, "ih", "gbar", ih.value)
    else Outcome(sec, None)
  }

  /** RmScale divides the leak conductance of every section (1.0/RmScale
      is computed first, so a zero scale fails before the lookup). */
  function ScaleRm(rm: Option<real>, sec: Sec): (o: Outcome)
    ensures OnlyMech(sec, o.sec, "pas")
    ensures rm.None? ==> o == Outcome(sec, None)
    ensures rm == Some(0.0) ==> o.err == Some(ZeroDivisionError)
    ensures rm.Some? && rm.value != 0.0 && ("pas" !in sec.mechs || "g" !in sec.mechs["pas"]) ==> o.err == Some(KeyError)
    ensures rm.Some? && rm.value != 0.0 && "pas" in sec.mechs && "g" in sec.mechs["pas"] && sec.mechs["pas"]["g"].Vector? ==> o.err == Some(TypeError)
    ensures rm.Some? && o.err.None? ==>
              rm.value != 0.0 && "pas" in sec.mechs && "g" in sec.mechs["pas"] && sec.mechs["pas"]["g"].Scalar?
              && o.sec.mechs["pas"].Keys == sec.mechs["pas"].Keys
              && o.sec.mechs["pas"]["g"] == Scalar(Recip(rm.value) * sec.mechs["pas"]["g"].x)
              && (forall q :: q in sec.mechs["pas"] && q != "g" ==> o.sec.mechs["pas"][q] == sec.mechs["pas"][q])
  {
    match rm
    case None => Outcome(sec, None)
    case Some(r) =>
      if r == 0.0 then Outcome(sec, Some(ZeroDivisionError))
      else
        var o := MulMech(sec, "pas", "g", Recip(r));
        assert o.err.None? ==> o.sec.mechs["pas"]["g"] == Scalar(Recip(r) * sec.mechs["pas"]["g"].x);
        o
  }

  /** pas.e := e_pas on sections with the passive mechanism. */
  function SetEPas(ePas: real, sec: Sec): (o: Outcome)
    ensures o.err.None? && OnlyMech(sec, o.sec, "pas")
    ensures "pas" in sec.mechs ==> o.sec.mechs["pas"] == sec.mechs["pas"]["e" := Scalar(ePas)]
  {
    if "pas" in sec.mechs then Outcome(SetParam(sec, "pas", "e", Scalar(ePas)), None)
    else Outcome(sec, None)
  }

  /** gpasSomaScale multiplies the leak conductance of somatic sections. */
  function ScaleSomaG(g: Option<real>, name: string, sec: Sec): (o: Outcome)
    ensures OnlyMech(sec, o.sec, "pas")
    ensures !Contains(name, "soma") ==> o == Outcome(sec, None)
  {
    if Contains(name, "soma") && g.Some? then MulMech(sec, "pas", "g", g.value)
    else Outcome(sec, None)
  }

  /** dendRaScale multiplies the axial resistance of sections whose name
      holds "dend". */
  function ScaleDendRa(ra: Option<real>, name: string, sec: Sec): (o: Outcome)
    ensures o.sec.vinit == sec.vinit && o.sec.mechs == sec.mechs
    ensures !Contains(name, "dend") ==> o == Outcome(sec, None)
  {
    if ra.Some? && Contains(name, "dend") then
      if "Ra" !in sec.geom then Outcome(sec, Some(KeyError))
      else
        var v := sec.geom["Ra"];
        if v.Vector? then Outcome(sec, Some(TypeError))
        else Outcome(sec.(geom := sec.geom["Ra" := Scalar(ra.value * v.x)]), None)
    else Outcome(sec, None)
  }

  /** dendRmScale divides the leak conductance of sections whose name
      holds "dend" (the conductance is read before 1/dendRmScale). */
  function ScaleDendRm(rm: Option<real>, name: string, sec: Sec): (o: Outcome)
    ensures OnlyMech(sec, o.sec, "pas")
    ensures !Contains(name, "dend") ==> o == Outcome(sec, None)
  {
    if rm.Some? && Contains(name, "dend") then
      if "pas" !in sec.mechs || "g" !in sec.mechs["pas"] then Outcome(sec, Some(KeyError))
      else if rm.value == 0.0 then Outcome(sec, Some(ZeroDivisionError))
      else MulMech(sec, "pas", "g", Recip(rm.value))
    else Outcome(sec, None)
  }

  /** The steps after the channel densities: Ih, RmScale, e_pas, the
      somatic leak, and the dendritic Ra and Rm. */
  function ScalePassive(ePas: real, p: PassiveScales, name: string, sec: Sec): (o: Outcome)
    ensures o.sec.vinit == sec.vinit
    ensures !Contains(name, "dend") ==> o.sec.geom == sec.geom
    ensures o.sec.mechs.Keys == sec.mechs.Keys
    ensures "na" in sec.mechs ==> o.sec.mechs["na"] == sec.mechs["na"]
  {
    var o1 := ScaleIh(p.ih, sec);
    KeepsOther(sec, o1.sec, "ih", "na");
    if o1.err.Some? then o1 else
    var o2 := ScaleRm(p.rm, o1.sec);
    KeepsOther(o1.sec, o2.sec, "pas", "na");
    if o2.err.Some? then o2 else
    var o3 := SetEPas(ePas, o2.sec);
    KeepsOther(o2.sec, o3.sec, "pas", "na");
    var o4 := ScaleSomaG(p.gpasSoma, name, o3.sec);
    KeepsOther(o3.sec, o4.sec, "pas", "na");
    if o4.err.Some? then o4 else
    var o5 := ScaleDendRa(p.dendRa, name, o4.sec);
    if o5.err.Some? then o5 else
    var o6 := ScaleDendRm(p.dendRm, name, o5.sec);
    KeepsOther(o5.sec, o6.sec, "pas", "na");
    o6
  }

  /** dendRaScale and dendRmScale do nothing to a section whose name does
      not hold "dend". */
  lemma PassiveDendOnlyDend(ePas: real, p: PassiveScales, name: string, sec: Sec)
    requires !Contains(name, "dend")
    ensures ScalePassive(ePas, p, name, sec) == ScalePassive(ePas, p.(dendRa := None, dendRm := None), name, sec)
  {
  }

  /** With no "soma" or "dend" in its name, a section that completes the
      passive steps under RmScale has its leak conductance divided by
      RmScale, and its reversal potential set to e_pas. */
  lemma RmScaleDivides(ePas: real, p: PassiveScales, name: string, sec: Sec)
    requires !Contains(name, "soma") && !Contains(name, "dend") && p.rm.Some?
    requires ScalePassive(ePas, p, name, sec).err.None?
    ensures "pas" in sec.mechs && "g" in sec.mechs["pas"] && sec.mechs["pas"]["g"].Scalar?
    ensures "pas" in ScalePassive(ePas, p, name, sec).sec.mechs
    ensures ScalePassive(ePas, p, name, sec).sec.mechs["pas"].Keys == sec.mechs["pas"].Keys + {"e"}
    ensures ScalePassive(ePas, p, name, sec).sec.mechs["pas"]["g"]
            == Scalar(Recip(p.rm.value) * sec.mechs["pas"]["g"].x)
    ensures ScalePassive(ePas, p, name, sec).sec.mechs["pas"]["e"] == Scalar(ePas)
    ensures forall q :: q in sec.mechs["pas"] && q != "g" && q != "e" ==>
              ScalePassive(ePas, p, name, sec).sec.mechs["pas"][q] == sec.mechs["pas"][q]
  {
    PassiveAsRm(ePas, p, name, sec);
  }

  /** Away from "soma" and "dend" sections, the passive steps that touch
      the leak mechanism are RmScale and e_pas. */
  lemma PassiveAsRm(ePas: real, p: PassiveScales, name: string, sec: Sec)
    requires !Contains(name, "soma") && !Contains(name, "dend")
    requires ScalePassive(ePas, p, name, sec).err.None?
    ensures ScaleIh(p.ih, sec).err.None? && ScaleRm(p.rm, ScaleIh(p.ih, sec).sec).err.None?
    ensures "pas" in sec.mechs ==> ScaleIh(p.ih, sec).sec.mechs["pas"] == sec.mechs["pas"]
    ensures ScalePassive(ePas, p, name, sec) == SetEPas(ePas, ScaleRm(p.rm, ScaleIh(p.ih, sec).sec).sec)
  {
  }

  /** One pass of the scaling loop over a section named name: vinit is
      e_pas on every section (AttributeError, before anything is changed,
      when the configuration has no e_pas), then the sodium and potassium
      densities, then Ih and the passive properties. */
  function ScaleSection(cfg: Cfg, name: string, sec: Sec): (o: Outcome)
    ensures cfg.ePas.None? ==> o == Outcome(sec, Some(AttributeError))
    ensures cfg.ePas.Some? ==> o.sec.vinit == cfg.ePas
    ensures o.sec.mechs.Keys == sec.mechs.Keys
    ensures !Contains(name, "dend") ==> o.sec.geom == sec.geom
  {
    match cfg.ePas
    case None => Outcome(sec, Some(AttributeError))
    case Some(ePas) =>
      var s0 := sec.(vinit := Some(ePas));
      var o1 := ScaleChannel(cfg.na, name, s0, "na", "gbar");
      if o1.err.Some? then o1 else
      var o2 := ScaleK(cfg.k, name, o1.sec);
      if o2.err.Some? then o2 else
      ScalePassive(ePas, cfg.passive, name, o2.sec)
  }

  /** Once a section's scaling completes, its sodium density is the
      original times allNaScale whenever allNaScale is set, whatever
      dendNaScale is, and the original times dendNaScale on basal and
      apical sections when only dendNaScale is set; other sections, and
      sections without sodium channels, keep their sodium entry. */
  lemma SodiumFinal(cfg: Cfg, name: string, sec: Sec)
    requires ScaleSection(cfg, name, sec).err.None?
    ensures "na" !in sec.mechs ==> "na" !in ScaleSection(cfg, name, sec).sec.mechs
    ensures "na" in sec.mechs && cfg.na.all.Some? ==>
              ScaleSection(cfg, name, sec).sec.mechs["na"]
              == sec.mechs["na"]["gbar" := ArrayScale(sec.mechs["na"]["gbar"], cfg.na.all.value)]
    ensures "na" in sec.mechs && cfg.na.all.None? ==>
              ScaleSection(cfg, name, sec).sec.mechs["na"]
              == if cfg.na.dend.Some? && Dendritic(name)
                 then sec.mechs["na"]["gbar" := ArrayScale(sec.mechs["na"]["gbar"], cfg.na.dend.value)]
                 else sec.mechs["na"]
  {
    var ePas := cfg.ePas.value;
    var s0 := sec.(vinit := Some(ePas));
    var o1 := ScaleChannel(cfg.na, name, s0, "na", "gbar");
    var o2 := ScaleK(cfg.k, name, o1.sec);
    var o3 := ScalePassive(ePas, cfg.passive, name, o2.sec);
    assert ScaleSection(cfg, name, sec) == o3;
  }

  /** dendNaScale, dendKScale, dendRaScale and dendRmScale leave a section
      whose name holds neither "basal", "apical" nor "dend" exactly as if
      they were not set. */
  lemma DendScalesOnlyDendrites(cfg: Cfg, name: string, sec: Sec)
    requires !Dendritic(name) && !Contains(name, "dend") && HasDensities(sec)
    ensures ScaleSection(cfg, name, sec)
            == ScaleSection(Cfg(cfg.ePas, cfg.na.(dend := None), cfg.k.(dend := None),
                                cfg.passive.(dendRa := None, dendRm := None)), name, sec)
  {
    if cfg.ePas.Some? {
      var s0 := sec.(vinit := cfg.ePas);
      DendOnlyDendritic(cfg.na, name, s0, "na", "gbar");
      var o1 := ScaleChannel(cfg.na, name, s0, "na", "gbar");
      KDendOnlyDendritic(cfg.k, name, o1.sec);
      var o2 := ScaleK(cfg.k, name, o1.sec);
      PassiveDendOnlyDend(cfg.ePas.value, cfg.passive, name, o2.sec);
    }
  }

  /** When allNaScale is set dendNaScale has no effect, and when allKScale
      is set dendKScale has none, on any section. */
  lemma AllOverridesDendScales(cfg: Cfg, name: string, sec: Sec)
    ensures cfg.na.all.Some? ==>
              ScaleSection(cfg, name, sec) == ScaleSection(cfg.(na := cfg.na.(dend := None)), name, sec)
    ensures cfg.k.all.Some? ==>
              ScaleSection(cfg, name, sec) == ScaleSection(cfg.(k := cfg.k.(dend := None)), name, sec)
  {
    var s0 := sec.(vinit := cfg.ePas);
    if cfg.na.all.Some? {
      AllOverridesDend(cfg.na.all.value, cfg.na.dend, name, s0, "na", "gbar");
    }
    if cfg.k.all.Some? {
      var o1 := ScaleChannel(cfg.na, name, s0, "na", "gbar");
      AllKOverridesDendK(cfg.k.all.value, cfg.k.dend, name, o1.sec);
    }
  }

  /** The sections of one cell once the first n of them have been through
      their outcomes; the loop stops at the first outcome that raised,
      whose section keeps what was done to it before the exception. */
  function Fold(secs: seq<(string, Sec)>, outs: seq<Outcome>, n: nat): (r: (seq<(string, Sec)>, Option<PyError>))
    requires |outs| == |secs| && n <= |secs|
    ensures |r.0| == |secs|
    ensures forall i :: 0 <= i < |secs| ==> r.0[i].0 == secs[i].0
    ensures forall i :: n <= i < |secs| ==> r.0[i] == secs[i]
  {
    if n == 0 then (secs, None)
    else
      var p := Fold(secs, outs, n - 1);
      if p.1.Some? then p
      else (p.0[n - 1 := (secs[n - 1].0, outs[n - 1].sec)], outs[n - 1].err)
  }

  /** Without an exception, each of the first n sections is its outcome's. */
  lemma {:induction false} FoldComplete(secs: seq<(string, Sec)>, outs: seq<Outcome>, n: nat)
    requires |outs| == |secs| && n <= |secs| && Fold(secs, outs, n).1.None?
    ensures forall i :: 0 <= i < n ==> Fold(secs, outs, n).0[i].1 == outs[i].sec && outs[i].err.None?
  {
    if n > 0 {
      FoldComplete(secs, outs, n - 1);
    }
  }

  /** One more section through the loop, when none has raised yet. */
  lemma FoldStep(secs: seq<(string, Sec)>, outs: seq<Outcome>, n: nat, cur: seq<(string, Sec)>)
    requires |outs| == |secs| && n < |secs| && Fold(secs, outs, n) == (cur, None)
    ensures cur[n] == secs[n]
    ensures Fold(secs, outs, n + 1) == (cur[n := (secs[n].0, outs[n].sec)], outs[n].err)
  {
  }

  /** After the first exception the later sections are left as they were. */
  lemma {:induction false} FoldStops(secs: seq<(string, Sec)>, outs: seq<Outcome>, n: nat)
    requires |outs| == |secs| && n <= |secs| && Fold(secs, outs, n).1.Some?
    ensures Fold(secs, outs, |secs|) == Fold(secs, outs, n)
    decreases |secs| - n
  {
    if n < |secs| {
      assert Fold(secs, outs, n + 1) == Fold(secs, outs, n);
      FoldStops(secs, outs, n + 1);
    }
  }

  /** The body of the scaling loop as a value: what it does to one
      section, given the section's name. */
  function ScaleStep(cfg: Cfg): (string, Sec) -> Outcome
  {
    (name, sec) => ScaleSection(cfg, name, sec)
  }

  /** The outcome of step on each section on its own. */
  function Outcomes(step: (string, Sec) -> Outcome, secs: seq<(string, Sec)>): (outs: seq<Outcome>)
    ensures |outs| == |secs|
  {
    seq(|secs|, i requires 0 <= i < |secs| => step(secs[i].0, secs[i].1))
  }

  /** One cell's sections after a loop running step on each in turn, and
      its exception. */
  function RunSecs(step: (string, Sec) -> Outcome, secs: seq<(string, Sec)>): (r: (seq<(string, Sec)>, Option<PyError>))
    ensures |r.0| == |secs|
    ensures forall i :: 0 <= i < |secs| ==> r.0[i].0 == secs[i].0
  {
    Fold(secs, Outcomes(step, secs), |secs|)
  }

  /** One cell's sections after the scaling loop, and its exception. */
  function ScaleSecs(cfg: Cfg, secs: seq<(string, Sec)>): (r: (seq<(string, Sec)>, Option<PyError>))
    ensures |r.0| == |secs|
    ensures forall i :: 0 <= i < |secs| ==> r.0[i].0 == secs[i].0
  {
    RunSecs(ScaleStep(cfg), secs)
  }

  /** Without an exception, every section of the cell is the scaled
      original, and has vinit = e_pas. */
  lemma ScaleSecsComplete(cfg: Cfg, secs: seq<(string, Sec)>)
    requires ScaleSecs(cfg, secs).1.None?
    ensures forall i :: 0 <= i < |secs| ==>
              ScaleSecs(cfg, secs).0[i].1 == ScaleSection(cfg, secs[i].0, secs[i].1).sec
              && ScaleSecs(cfg, secs).0[i].1.vinit == cfg.ePas
  {
    FoldComplete(secs, Outcomes(ScaleStep(cfg), secs), |secs|);
  }

  /** The cells once the first c of them have been through their
      outcomes; the loop stops at the first cell that raised. */
  function FoldCells(cells: seq<seq<(string, Sec)>>, outs: seq<(seq<(string, Sec)>, Option<PyError>)>, c: nat)
    : (r: (seq<seq<(string, Sec)>>, Option<PyError>))
    requires |outs| == |cells| && c <= |cells|
    ensures |r.0| == |cells|
    ensures forall k :: c <= k < |cells| ==> r.0[k] == cells[k]
  {
    if c == 0 then (cells, None)
    else
      var p := FoldCells(cells, outs, c - 1);
      if p.1.Some? then p
      else (p.0[c - 1 := outs[c - 1].0], outs[c - 1].1)
  }

  /** Without an exception, each of the first c cells is its outcome's. */
  lemma {:induction false} FoldCellsComplete(cells: seq<seq<(string, Sec)>>, outs: seq<(seq<(string, Sec)>, Option<PyError>)>, c: nat)
    requires |outs| == |cells| && c <= |cells| && FoldCells(cells, outs, c).1.None?
    ensures forall k :: 0 <= k < c ==> FoldCells(cells, outs, c).0[k] == outs[k].0 && outs[k].1.None?
  {
    if c > 0 {
      FoldCellsComplete(cells, outs, c - 1);
    }
  }

  /** One more cell through the loop, when none has raised yet. */
  lemma FoldCellsStep(cells: seq<seq<(string, Sec)>>, outs: seq<(seq<(string, Sec)>, Option<PyError>)>, c: nat,
                      cur: seq<seq<(string, Sec)>>)
    requires |outs| == |cells| && c < |cells| && FoldCells(cells, outs, c) == (cur, None)
    ensures cur[c] == cells[c]
    ensures FoldCells(cells, outs, c + 1) == (cur[c := outs[c].0], outs[c].1)
  {
  }

  /** After the first exception the later cells are left as they were. */
  lemma {:induction false} FoldCellsStops(cells: seq<seq<(string, Sec)>>, outs: seq<(seq<(string, Sec)>, Option<PyError>)>, c: nat)
    requires |outs| == |cells| && c <= |cells| && FoldCells(cells, outs, c).1.Some?
    ensures FoldCells(cells, outs, |cells|) == FoldCells(cells, outs, c)
    decreases |cells| - c
  {
    if c < |cells| {
      assert FoldCells(cells, outs, c + 1) == FoldCells(cells, outs, c);
      FoldCellsStops(cells, outs, c + 1);
    }
  }

  /** The outcome of running step over each cell on its own. */
  function CellOutcomes(step: (string, Sec) -> Outcome, cells: seq<seq<(string, Sec)>>)
    : (outs: seq<(seq<(string, Sec)>, Option<PyError>)>)
    ensures |outs| == |cells|
  {
    seq(|cells|, k requires 0 <= k < |cells| => RunSecs(step, cells[k]))
  }

  /** The cells after a loop running step over every section of every
      cell, and its exception. */
  function RunCells(step: (string, Sec) -> Outcome, cells: seq<seq<(string, Sec)>>)
    : (r: (seq<seq<(string, Sec)>>, Option<PyError>))
    ensures |r.0| == |cells|
  {
    FoldCells(cells, CellOutcomes(step, cells), |cells|)
  }

  /** The cells after the scaling loop, and its exception. */
  function ScaleCells(cfg: Cfg, cells: seq<seq<(string, Sec)>>): (r: (seq<seq<(string, Sec)>>, Option<PyError>))
    ensures |r.0| == |cells|
  {
    RunCells(ScaleStep(cfg), cells)
  }

  /** When the scaling loop raises nothing, every section of every cell is
      the scaled original and has vinit = e_pas, and every cell keeps its
      section names in order. */
  lemma ScaleCellsComplete(cfg: Cfg, cells: seq<seq<(string, Sec)>>)
    requires ScaleCells(cfg, cells).1.None?
    ensures forall k :: 0 <= k < |cells| ==> |ScaleCells(cfg, cells).0[k]| == |cells[k]|
    ensures forall k, i :: 0 <= k < |cells| && 0 <= i < |cells[k]| ==>
              ScaleCells(cfg, cells).0[k][i].0 == cells[k][i].0
              && ScaleCells(cfg, cells).0[k][i].1 == ScaleSection(cfg, cells[k][i].0, cells[k][i].1).sec
              && ScaleCells(cfg, cells).0[k][i].1.vinit == cfg.ePas
  {
    var outs := CellOutcomes(ScaleStep(cfg), cells);
    FoldCellsComplete(cells, outs, |cells|);
    forall k | 0 <= k < |cells|
      ensures ScaleCells(cfg, cells).0[k] == ScaleSecs(cfg, cells[k]).0 && ScaleSecs(cfg, cells[k]).1.None?
    {
      assert outs[k] == ScaleSecs(cfg, cells[k]);
    }
    forall k | 0 <= k < |cells|
      ensures forall i :: 0 <= i < |cells[k]| ==>
                ScaleSecs(cfg, cells[k]).0[i].1 == ScaleSection(cfg, cells[k][i].0, cells[k][i].1).sec
                && ScaleSecs(cfg, cells[k]).0[i].1.vinit == cfg.ePas
    {
      ScaleSecsComplete(cfg, cells[k]);
    }
  }

  /** Without e_pas, a cell's loop raises AttributeError at its first
      section and changes nothing. */
  lemma NoEPasSecs(cfg: Cfg, secs: seq<(string, Sec)>)
    requires cfg.ePas.None?
    ensures ScaleSecs(cfg, secs) == (secs, if secs == [] then None else Some(AttributeError))
  {
    if secs != [] {
      var outs := Outcomes(ScaleStep(cfg), secs);
      assert outs[0] == Outcome(secs[0].1, Some(AttributeError));
      assert secs[0 := (secs[0].0, outs[0].sec)] == secs;
      assert Fold(secs, outs, 0) == (secs, None);
      assert Fold(secs, outs, 1) == (secs, Some(AttributeError));
      FoldStops(secs, outs, 1);
    }
  }

  /** The first c cells, when every cell's loop changes nothing and raises
      exactly when the cell has a section. */
  lemma {:induction false} FoldCellsUnchanged(cells: seq<seq<(string, Sec)>>,
                                              outs: seq<(seq<(string, Sec)>, Option<PyError>)>, c: nat)
    requires |outs| == |cells| && c <= |cells|
    requires forall k :: 0 <= k < |cells| ==>
               outs[k] == (cells[k], if cells[k] == [] then None else Some(AttributeError))
    ensures FoldCells(cells, outs, c)
            == (cells, if exists k :: 0 <= k < c && cells[k] != [] then Some(AttributeError) else None)
  {
    if c > 0 {
      FoldCellsUnchanged(cells, outs, c - 1);
      assert cells[c - 1 := outs[c - 1].0] == cells;
      var before := exists k :: 0 <= k < c - 1 && cells[k] != [];
      var now := exists k :: 0 <= k < c && cells[k] != [];
      if before {
        var k :| 0 <= k < c - 1 && cells[k] != [];
        assert 0 <= k < c && cells[k] != [];
      } else if cells[c - 1] != [] {
        assert now;
      } else {
        assert !now by {
          forall k | 0 <= k < c
            ensures cells[k] == []
          {
            if k < c - 1 {
              assert !(0 <= k < c - 1 && cells[k] != []);
            }
          }
        }
      }
    }
  }

  /** Without e_pas the scaling loop changes nothing: it raises
      AttributeError at the first section of the first cell that has one,
      and raises nothing when no cell has a section. */
  lemma NoEPasRaises(cfg: Cfg, cells: seq<seq<(string, Sec)>>)
    requires cfg.ePas.None?
    ensures ScaleCells(cfg, cells)
            == (cells, if exists k :: 0 <= k < |cells| && cells[k] != [] then Some(AttributeError) else None)
  {
    var outs := CellOutcomes(ScaleStep(cfg), cells);
    forall k | 0 <= k < |cells|
      ensures outs[k] == (cells[k], if cells[k] == [] then None else Some(AttributeError))
    {
      NoEPasSecs(cfg, cells[k]);
    }
    FoldCellsUnchanged(cells, outs, |cells|);
  }

  /** The NMDA and AMPA synapse parameters. */
  datatype SynMechs = SynMechs(nmdaCdur: real, nmdaAlpha: real, nmdaBeta: real, nmdaGmax: real,
                               ampaGmax: real)

  /** NMDA kinetics are the defaults (Cdur 1 ms, Alpha 4, Beta 0.0015)
      times their scales; the AMPA conductance is ratioAMPANMDA times the
      NMDA one. */
  function SynMechParams(cdurScale: real, alphaScale: real, betaScale: real, nmdaGmax: real,
                         ratioAmpaNmda: real): (m: SynMechs)
    ensures m.nmdaGmax == nmdaGmax
    ensures nmdaGmax != 0.0 ==> m.ampaGmax / m.nmdaGmax == ratioAmpaNmda
    ensures cdurScale == 1.0 && alphaScale == 1.0 && betaScale == 1.0 ==>
              m.nmdaCdur == 1.0 && m.nmdaAlpha == 4.0 && m.nmdaBeta == 0.0015
  {
    SynMechs(cdurScale * 1.0, alphaScale * 4.0, betaScale * 0.0015, nmdaGmax, ratioAmpaNmda * nmdaGmax)
  }

  /** A NetStim's configuration entry. */
  datatype NetStimCfg = NetStimCfg(pops: seq<string>, sec: string, synMechs: seq<string>,
                                   start: real, interval: real, noise: real, number: real, delay: real)

  datatype StimSource = StimSource(start: real, interval: real, noise: real, number: real)

  datatype StimTarget = StimTarget(source: string, pop: string, sec: string, synsPerConn: nat,
                                   locs: seq<real>, synMech: string, weight: real, delay: real)

  /** The weight of a NetStim's synapses, from its stim: glutAmp scaled
      for "ExSyn" labels, glutAmp for other "Syn" labels, and an exception
      for any other stim. */
  function NetStimWeight(stim: string, glutAmp: real, exSynScale: real): (r: Result<real>)
    ensures r.Err? <==> !Contains(stim, "Syn")
    ensures r.Err? ==> r.error == RaisedException
    ensures Contains(stim, "ExSyn") ==> r == Ok(glutAmp * exSynScale)
    ensures !Contains(stim, "ExSyn") && Contains(stim, "Syn") ==> r == Ok(glutAmp)
  {
    if Contains(stim, "ExSyn") then
      ContainsSuffix(stim, "ExSyn", 2);
      assert "ExSyn"[2..] == "Syn";
      Ok(glutAmp * exSynScale)
    else if Contains(stim, "Syn") then Ok(glutAmp)
    else Err(RaisedException)
  }

  /** nslabel + '_' + pop + '_' + synMech */
  function TargetKey(stim: string, pop: string, mech: string): string
  {
    stim + "_" + pop + "_" + mech
  }

  /** The target NetStim stim makes for population pop and synaptic
      mechanism mech: its synapses at locs, with the NetStim's section,
      delay and weight. */
  function Target(stim: string, ns: NetStimCfg, pop: string, mech: string, weight: real,
                  numSyns: nat, locs: seq<real>): (t: StimTarget)
    ensures t.source == stim && t.pop == pop && t.synMech == mech && t.sec == ns.sec
    ensures t.synsPerConn == numSyns && t.locs == locs && t.weight == weight && t.delay == ns.delay
  {
    StimTarget(stim, pop, ns.sec, numSyns, locs, mech, weight, ns.delay)
  }

  /** The keys of population pop's targets for the first m mechanisms. */
  function PopKeys(stim: string, pop: string, mechs: seq<string>, m: nat): set<string>
    requires m <= |mechs|
  {
    set b | 0 <= b < m :: TargetKey(stim, pop, mechs[b])
  }

  /** One more mechanism adds its key. */
  lemma NextPopKeys(stim: string, pop: string, mechs: seq<string>, m: nat)
    requires m < |mechs|
    ensures PopKeys(stim, pop, mechs, m + 1) == PopKeys(stim, pop, mechs, m) + {TargetKey(stim, pop, mechs[m])}
  {
    forall k | k in PopKeys(stim, pop, mechs, m + 1)
      ensures k in PopKeys(stim, pop, mechs, m) + {TargetKey(stim, pop, mechs[m])}
    {
      var b :| 0 <= b < m + 1 && k == TargetKey(stim, pop, mechs[b]);
      if b < m {
        assert k in PopKeys(stim, pop, mechs, m);
      }
    }
  }

  /** The targets map after population pop's first m mechanisms: base
      with exactly their keys added, each holding its mechanism's target,
      and every other key as it was. */
  predicate MechsAdded(stim: string, pop: string, ns: NetStimCfg, m: nat, weight: real, numSyns: nat,
                       locs: seq<real>, base: map<string, StimTarget>, cur: map<string, StimTarget>)
    requires m <= |ns.synMechs|
  {
    && cur.Keys == base.Keys + PopKeys(stim, pop, ns.synMechs, m)
    && (forall b :: 0 <= b < m ==>
          cur[TargetKey(stim, pop, ns.synMechs[b])] == Target(stim, ns, pop, ns.synMechs[b], weight, numSyns, locs))
    && (forall k :: k in base && k !in PopKeys(stim, pop, ns.synMechs, m) ==> cur[k] == base[k])
  }

  /** Storing mechanism m's target keeps MechsAdded. */
  lemma MechStep(stim: string, pop: string, ns: NetStimCfg, m: nat, weight: real, numSyns: nat,
                 locs: seq<real>, base: map<string, StimTarget>, before: map<string, StimTarget>)
    requires m < |ns.synMechs|
    requires MechsAdded(stim, pop, ns, m, weight, numSyns, locs, base, before)
    ensures MechsAdded(stim, pop, ns, m + 1, weight, numSyns, locs, base,
                       before[TargetKey(stim, pop, ns.synMechs[m]) := Target(stim, ns, pop, ns.synMechs[m], weight, numSyns, locs)])
  {
    var mech := ns.synMechs[m];
    var key := TargetKey(stim, pop, mech);
    var after := before[key := Target(stim, ns, pop, mech, weight, numSyns, locs)];
    NextPopKeys(stim, pop, ns.synMechs, m);
    forall b | 0 <= b < m + 1
      ensures after[TargetKey(stim, pop, ns.synMechs[b])] == Target(stim, ns, pop, ns.synMechs[b], weight, numSyns, locs)
    {
      if b < m && TargetKey(stim, pop, ns.synMechs[b]) != key {
        assert TargetKey(stim, pop, ns.synMechs[b]) in PopKeys(stim, pop, ns.synMechs, m);
      } else if b < m {
        TargetKeyInjective(stim, pop, ns.synMechs[b], mech);
      }
    }
  }

  /** The keys of the targets of the first p populations of NetStim stim. */
  function StimKeys(stim: string, ns: NetStimCfg, p: nat): set<string>
    requires p <= |ns.pops|
  {
    set a, b | 0 <= a < p && 0 <= b < |ns.synMechs| :: TargetKey(stim, ns.pops[a], ns.synMechs[b])
  }

  /** t, stored under key k, is a target NetStim stim made: on one of its
      populations, for one of its mechanisms, under that pair's key. */
  predicate MadeBy(t: StimTarget, k: string, stim: string, ns: NetStimCfg, weight: real, numSyns: nat, locs: seq<real>)
  {
    t.pop in ns.pops && t.synMech in ns.synMechs && k == TargetKey(stim, t.pop, t.synMech)
    && t == Target(stim, ns, t.pop, t.synMech, weight, numSyns, locs)
  }

  /** With the label and population fixed, the key determines the
      mechanism. */
  lemma TargetKeyInjective(stim: string, pop: string, m1: string, m2: string)
    requires TargetKey(stim, pop, m1) == TargetKey(stim, pop, m2)
    ensures m1 == m2
  {
    var pre := stim + "_" + pop + "_";
    assert TargetKey(stim, pop, m1) == pre + m1 && TargetKey(stim, pop, m2) == pre + m2;
    assert m1 == (pre + m1)[|pre|..];
    assert m2 == (pre + m2)[|pre|..];
  }

  /** For populations whose names hold no "_", such as the network's eeeD
      and eeeS, the key also determines the population, so each key's
      target has exactly that key's population and mechanism. */
  lemma TargetKeyPinned(stim: string, p1: string, m1: string, p2: string, m2: string)
    requires '_' !in p1 && '_' !in p2
    requires TargetKey(stim, p1, m1) == TargetKey(stim, p2, m2)
    ensures p1 == p2 && m1 == m2
  {
    var pre := stim + "_";
    var k1 := TargetKey(stim, p1, m1);
    assert k1 == pre + (p1 + "_" + m1);
    assert TargetKey(stim, p2, m2) == pre + (p2 + "_" + m2);
    var r1 := p1 + "_" + m1;
    var r2 := p2 + "_" + m2;
    assert r1 == k1[|pre|..] == r2;
    if |p1| < |p2| {
      UnderscoreInLonger(p1, m1, p2, m2);
      assert false;
    } else if |p2| < |p1| {
      UnderscoreInLonger(p2, m2, p1, m1);
      assert false;
    }
    assert p1 == r1[..|p1|] == r2[..|p2|] == p2;
    assert m1 == r1[|p1| + 1..] == r2[|p2| + 1..] == m2;
  }

  /** Of two equal joins around '_', the longer first part holds a '_'. */
  lemma UnderscoreInLonger(p1: string, m1: string, p2: string, m2: string)
    requires |p1| < |p2| && p1 + "_" + m1 == p2 + "_" + m2
    ensures '_' in p2
  {
    assert (p1 + "_" + m1)[|p1|] == '_';
    assert (p2 + "_" + m2)[|p1|] == p2[|p1|];
  }

  /** Every population-mechanism pair of NetStim stim has its target. */
  predicate AllKeysMade(stim: string, ns: NetStimCfg, targets: map<string, StimTarget>)
  {
    forall a, b :: 0 <= a < |ns.pops| && 0 <= b < |ns.synMechs| ==> TargetKey(stim, ns.pops[a], ns.synMechs[b]) in targets
  }

  /** The configuration entries the NetStim loop visits. */
  predicate IsNetStim(name: string)
  {
    StartsWith(name, "NetStim")
  }

  /** An entry that makes the NetStim loop raise. */
  predicate Raises(name: string, ns: NetStimCfg)
  {
    IsNetStim(name) && ns.pops != [] && !Contains(name, "Syn")
  }

  /** The network parameters the batch runs build: each cell's sections
      (in the order NetPyNE holds them), the stimulation sources and the
      stimulation targets. */
  class NetParams {
    var cells: seq<seq<(string, Sec)>>
    var stimSources: map<string, StimSource>
    var stimTargets: map<string, StimTarget>

    constructor (cells: seq<seq<(string, Sec)>>)
      ensures this.cells == cells && stimSources == map[] && stimTargets == map[]
    {
      this.cells := cells;
      stimSources := map[];
      stimTargets := map[];
    }

    /** The inner loop over one cell's sections, on a copy of the list:
        each section in turn is replaced by what step makes of it, and the
        loop stops at the first exception. */
    static method RunSections(step: (string, Sec) -> Outcome, secs0: seq<(string, Sec)>)
      returns (secs: seq<(string, Sec)>, err: Option<PyError>)
      ensures (secs, err) == RunSecs(step, secs0)
    {
      ghost var outs := Outcomes(step, secs0);
      secs := secs0;
      err := None;
      var i := 0;
      while i < |secs|
        invariant |secs| == |secs0| && i <= |secs0|
        invariant Fold(secs0, outs, i) == (secs, None)
      {
        FoldStep(secs0, outs, i, secs);
        var (name, sec) := secs[i];
        var o := step(name, sec);
        secs := secs[i := (name, o.sec)];
        if o.err.Some? {
          FoldStops(secs0, outs, i + 1);
          return secs, o.err;
        }
        i := i + 1;
      }
      assert i == |secs0|;
    }

    /** The inner loop run on cell c, whose list is then replaced. */
    method RunCell(step: (string, Sec) -> Outcome, c: nat) returns (err: Option<PyError>)
      requires c < |cells|
      modifies this
      ensures cells == old(cells)[c := RunSecs(step, old(cells)[c]).0]
      ensures err == RunSecs(step, old(cells)[c]).1
      ensures stimSources == old(stimSources) && stimTargets == old(stimTargets)
    {
      var secs;
      secs, err := RunSections(step, cells[c]);
      cells := cells[c := secs];
    }

    /** The loop over every section of every cell, running step on each; it
        stops at the first exception. */
    method RunAll(step: (string, Sec) -> Outcome) returns (err: Option<PyError>)
      modifies this
      ensures (cells, err) == RunCells(step, old(cells))
      ensures stimSources == old(stimSources) && stimTargets == old(stimTargets)
    {
      ghost var cells0 := cells;
      ghost var outs := CellOutcomes(step, cells0);
      var c := 0;
      while c < |cells|
        invariant |cells| == |cells0| && c <= |cells|
        invariant FoldCells(cells0, outs, c) == (cells, None)
        invariant stimSources == old(stimSources) && stimTargets == old(stimTargets)
      {
        FoldCellsStep(cells0, outs, c, cells);
        err := RunCell(step, c);
        if err.Some? {
          FoldCellsStops(cells0, outs, c + 1);
          return err;
        }
        c := c + 1;
      }
      assert c == |cells0|;
      return None;
    }

    /** The scaling loop of the network parameters: every section of every
        cell goes through ScaleSection, until the first exception. */
    method ScaleAll(cfg: Cfg) returns (err: Option<PyError>)
      modifies this
      ensures (cells, err) == ScaleCells(cfg, old(cells))
      ensures stimSources == old(stimSources) && stimTargets == old(stimTargets)
    {
      err := RunAll(ScaleStep(cfg));
    }

    /** The targets of NetStim stim on population pop: one per synaptic
        mechanism, keyed by label, population and mechanism. */
    method AddTargets(stim: string, pop: string, ns: NetStimCfg, weight: real, numSyns: nat, locs: seq<real>)
      modifies this
      ensures cells == old(cells) && stimSources == old(stimSources)
      ensures stimTargets.Keys == old(stimTargets).Keys + PopKeys(stim, pop, ns.synMechs, |ns.synMechs|)
      ensures forall b :: 0 <= b < |ns.synMechs| ==>
                stimTargets[TargetKey(stim, pop, ns.synMechs[b])]
                == Target(stim, ns, pop, ns.synMechs[b], weight, numSyns, locs)
      ensures forall k :: k in old(stimTargets) && k !in PopKeys(stim, pop, ns.synMechs, |ns.synMechs|) ==>
                stimTargets[k] == old(stimTargets)[k]
    {
      assert PopKeys(stim, pop, ns.synMechs, 0) == {};
      var m := 0;
      while m < |ns.synMechs|
        invariant m <= |ns.synMechs|
        invariant cells == old(cells) && stimSources == old(stimSources)
        invariant MechsAdded(stim, pop, ns, m, weight, numSyns, locs, old(stimTargets), stimTargets)
      {
        var mech := ns.synMechs[m];
        ghost var before := stimTargets;
        stimTargets := stimTargets[TargetKey(stim, pop, mech) := Target(stim, ns, pop, mech, weight, numSyns, locs)];
        MechStep(stim, pop, ns, m, weight, numSyns, locs, old(stimTargets), before);
        m := m + 1;
      }
    }

    /** The NetStim stim: for each population the weight is computed
        (raising, before anything is added, for a label without "Syn"),
        the source is recorded and the targets are added; the synapses
        are spread evenly over [locStart, locStart + locSpread].  The keys
        added are exactly those of the NetStim's population-mechanism
        pairs, each holding a target made for a pair with that key. */
    method AddNetStim(stim: string, ns: NetStimCfg, glutAmp: real, exSynScale: real,
                      numSyns: nat, locStart: real, locSpread: real) returns (r: Result<()>)
      modifies this
      ensures cells == old(cells)
      ensures r.Err? <==> ns.pops != [] && !Contains(stim, "Syn")
      ensures r.Err? ==> r.error == RaisedException
      ensures r.Err? || ns.pops == [] ==> stimSources == old(stimSources) && stimTargets == old(stimTargets)
      ensures r.Ok? && ns.pops != [] ==>
                stimSources == old(stimSources)[stim := StimSource(ns.start, ns.interval, ns.noise, ns.number)]
      ensures r.Ok? ==> stimTargets.Keys == old(stimTargets).Keys + StimKeys(stim, ns, |ns.pops|)
      ensures r.Ok? && ns.pops != [] ==> forall k :: k in StimKeys(stim, ns, |ns.pops|) ==>
                MadeBy(stimTargets[k], k, stim, ns, NetStimWeight(stim, glutAmp, exSynScale).value,
                       numSyns, Linspace(locStart, locStart + locSpread, numSyns))
      ensures forall k :: k in old(stimTargets) && k !in StimKeys(stim, ns, |ns.pops|) ==>
                k in stimTargets && stimTargets[k] == old(stimTargets)[k]
    {
      if ns.pops == [] {
        assert StimKeys(stim, ns, |ns.pops|) == {};
        return Ok(());
      }
      // The weight is recomputed for every population, always to the same
      // value, so computing it for the first one decides whether it raises.
      var w := NetStimWeight(stim, glutAmp, exSynScale);
      if w.Err? {
        return Err(w.error);
      }
      var weight := w.value;
      var locs := Linspace(locStart, locStart + locSpread, numSyns);
      AddPops(stim, ns, weight, numSyns, locs);
      return Ok(());
    }

    /** The loop over a NetStim's populations, with its weight computed:
        the source is recorded and each population's targets are added,
        so the keys added are exactly those of the NetStim's
        population-mechanism pairs. */
    method AddPops(stim: string, ns: NetStimCfg, weight: real, numSyns: nat, locs: seq<real>)
      requires ns.pops != []
      modifies this
      ensures cells == old(cells)
      ensures stimSources == old(stimSources)[stim := StimSource(ns.start, ns.interval, ns.noise, ns.number)]
      ensures stimTargets.Keys == old(stimTargets).Keys + StimKeys(stim, ns, |ns.pops|)
      ensures forall k :: k in StimKeys(stim, ns, |ns.pops|) ==> MadeBy(stimTargets[k], k, stim, ns, weight, numSyns, locs)
      ensures forall k :: k in old(stimTargets) && k !in StimKeys(stim, ns, |ns.pops|) ==>
                stimTargets[k] == old(stimTargets)[k]
    {
      var source := StimSource(ns.start, ns.interval, ns.noise, ns.number);
      stimSources := stimSources[stim := source];
      PopsAddedNone(stim, ns, weight, numSyns, locs, stimTargets);
      var p := 0;
      while p < |ns.pops|
        invariant p <= |ns.pops| && cells == old(cells)
        invariant stimSources == old(stimSources)[stim := source]
        invariant PopsAdded(stim, ns, p, weight, numSyns, locs, old(stimTargets), stimTargets)
      {
        ghost var before := stimTargets;
        stimSources := stimSources[stim := source];
        AddTargets(stim, ns.pops[p], ns, weight, numSyns, locs);
        PopStep(stim, ns, p, weight, numSyns, locs, old(stimTargets), before, stimTargets);
        p := p + 1;
      }
    }

    /** The NetStim loop over the configuration entries, in the order
        given: when addNetStim is set, every entry whose label starts with
        "NetStim" is added, and the first one that raises stops the
        loop.  Every target it stores, under any key, was made by one of
        the entries for one of its population-mechanism pairs. */
    method AddNetStims(addNetStim: bool, entries: seq<(string, NetStimCfg)>, glutAmp: real, exSynScale: real,
                       numSyns: nat, locStart: real, locSpread: real) returns (r: Result<()>)
      modifies this
      ensures cells == old(cells)
      ensures !addNetStim ==> r.Ok? && stimSources == old(stimSources) && stimTargets == old(stimTargets)
      ensures r.Err? <==> addNetStim && exists i :: 0 <= i < |entries| && Raises(entries[i].0, entries[i].1)
      ensures r.Ok? ==> forall i :: 0 <= i < |entries| && addNetStim && IsNetStim(entries[i].0) ==>
                AllKeysMade(entries[i].0, entries[i].1, stimTargets)
                && (entries[i].1.pops != [] ==> entries[i].0 in stimSources)
      ensures old(stimTargets).Keys <= stimTargets.Keys
      ensures forall k :: k in stimTargets ==>
                (k in old(stimTargets) && stimTargets[k] == old(stimTargets)[k])
                || exists i :: 0 <= i < |entries| && MadeByEntry(stimTargets[k], k, entries, i, glutAmp, exSynScale,
                                                                 numSyns, locStart, locSpread)
    {
      if !addNetStim {
        return Ok(());
      }
      var locs := Linspace(locStart, locStart + locSpread, numSyns);
      var i := 0;
      while i < |entries|
        invariant i <= |entries| && cells == old(cells)
        invariant forall j :: 0 <= j < i ==> !Raises(entries[j].0, entries[j].1)
        invariant forall j :: 0 <= j < i && IsNetStim(entries[j].0) ==>
                    AllKeysMade(entries[j].0, entries[j].1, stimTargets)
                    && (entries[j].1.pops != [] ==> entries[j].0 in stimSources)
        invariant old(stimTargets).Keys <= stimTargets.Keys
        invariant forall k :: k in stimTargets ==>
                    (k in old(stimTargets) && stimTargets[k] == old(stimTargets)[k])
                    || exists j :: 0 <= j < i && MadeByEntry(stimTargets[k], k, entries, j, glutAmp, exSynScale, numSyns, locStart, locSpread)
      {
        var (name, ns) := entries[i];
        if IsNetStim(name) {
          ghost var targets0 := stimTargets;
          ghost var sources0 := stimSources;
          r := AddNetStim(name, ns, glutAmp, exSynScale, numSyns, locStart, locSpread);
          if r.Err? {
            return;
          }
          forall j | 0 <= j < i && IsNetStim(entries[j].0)
            ensures AllKeysMade(entries[j].0, entries[j].1, stimTargets)
            ensures entries[j].1.pops != [] ==> entries[j].0 in stimSources
          {
            KeysKept(entries[j].0, entries[j].1, targets0, stimTargets);
          }
          AllKeysOfStim(name, ns, stimTargets);
          forall k | k in stimTargets
            ensures (k in old(stimTargets) && stimTargets[k] == old(stimTargets)[k])
                    || exists j :: 0 <= j < i + 1 && MadeByEntry(stimTargets[k], k, entries, j, glutAmp, exSynScale, numSyns, locStart, locSpread)
          {
            if k in StimKeys(name, ns, |ns.pops|) {
              assert MadeByEntry(stimTargets[k], k, entries, i, glutAmp, exSynScale, numSyns, locStart, locSpread);
            } else if !(k in old(stimTargets) && stimTargets[k] == old(stimTargets)[k]) {
              assert k in targets0 && stimTargets[k] == targets0[k];
              var j :| 0 <= j < i && MadeByEntry(targets0[k], k, entries, j, glutAmp, exSynScale, numSyns, locStart, locSpread);
              assert MadeByEntry(stimTargets[k], k, entries, j, glutAmp, exSynScale, numSyns, locStart, locSpread);
            }
          }
        }
        i := i + 1;
      }
      return Ok(());
    }
  }

  /** Stored under key k, t was made by entry i of the NetStim loop. */
  predicate MadeByEntry(t: StimTarget, k: string, entries: seq<(string, NetStimCfg)>, i: nat,
                        glutAmp: real, exSynScale: real, numSyns: nat, locStart: real, locSpread: real)
    requires i < |entries|
  {
    IsNetStim(entries[i].0) && Contains(entries[i].0, "Syn")
    && MadeBy(t, k, entries[i].0, entries[i].1, NetStimWeight(entries[i].0, glutAmp, exSynScale).value,
              numSyns, Linspace(locStart, locStart + locSpread, numSyns))
  }

  /** The keys of one more population are those of its mechanisms. */
  lemma NextStimKeys(stim: string, ns: NetStimCfg, p: nat)
    requires p < |ns.pops|
    ensures StimKeys(stim, ns, p + 1) == StimKeys(stim, ns, p) + PopKeys(stim, ns.pops[p], ns.synMechs, |ns.synMechs|)
  {
    var lhs := StimKeys(stim, ns, p + 1);
    var rhs := StimKeys(stim, ns, p) + PopKeys(stim, ns.pops[p], ns.synMechs, |ns.synMechs|);
    forall k | k in lhs
      ensures k in rhs
    {
      var a, b :| 0 <= a < p + 1 && 0 <= b < |ns.synMechs| && k == TargetKey(stim, ns.pops[a], ns.synMechs[b]);
      if a == p {
        assert k in PopKeys(stim, ns.pops[p], ns.synMechs, |ns.synMechs|);
      }
    }
  }

  /** The targets map after the NetStim's first p populations: base
      with exactly the keys of their pairs added, each made by the
      NetStim, and every other key as it was. */
  predicate PopsAdded(stim: string, ns: NetStimCfg, p: nat, weight: real, numSyns: nat, locs: seq<real>,
                      base: map<string, StimTarget>, cur: map<string, StimTarget>)
    requires p <= |ns.pops|
  {
    && cur.Keys == base.Keys + StimKeys(stim, ns, p)
    && (forall k :: k in StimKeys(stim, ns, p) ==> MadeBy(cur[k], k, stim, ns, weight, numSyns, locs))
    && (forall k :: k in base && k !in StimKeys(stim, ns, p) ==> cur[k] == base[k])
  }

  /** Before any population, nothing is added. */
  lemma PopsAddedNone(stim: string, ns: NetStimCfg, weight: real, numSyns: nat, locs: seq<real>,
                      base: map<string, StimTarget>)
    ensures PopsAdded(stim, ns, 0, weight, numSyns, locs, base, base)
  {
    assert StimKeys(stim, ns, 0) == {};
  }

  /** The NetStim loop's step over population p keeps PopsAdded. */
  lemma PopStep(stim: string, ns: NetStimCfg, p: nat, weight: real, numSyns: nat, locs: seq<real>,
                base: map<string, StimTarget>, before: map<string, StimTarget>, after: map<string, StimTarget>)
    requires p < |ns.pops|
    requires PopsAdded(stim, ns, p, weight, numSyns, locs, base, before)
    requires after.Keys == before.Keys + PopKeys(stim, ns.pops[p], ns.synMechs, |ns.synMechs|)
    requires forall b :: 0 <= b < |ns.synMechs| ==>
               after[TargetKey(stim, ns.pops[p], ns.synMechs[b])]
               == Target(stim, ns, ns.pops[p], ns.synMechs[b], weight, numSyns, locs)
    requires forall k :: k in before && k !in PopKeys(stim, ns.pops[p], ns.synMechs, |ns.synMechs|) ==>
               after[k] == before[k]
    ensures PopsAdded(stim, ns, p + 1, weight, numSyns, locs, base, after)
  {
    PopStepKeys(stim, ns, p, base, before, after);
    PopStepMade(stim, ns, p, weight, numSyns, locs, before, after);
    PopStepKept(stim, ns, p, base, before, after);
  }

  /** The NetStim loop's step over population p adds that population's
      keys to those of the pairs seen so far. */
  lemma PopStepKeys(stim: string, ns: NetStimCfg, p: nat,
                    base: map<string, StimTarget>, before: map<string, StimTarget>, after: map<string, StimTarget>)
    requires p < |ns.pops|
    requires before.Keys == base.Keys + StimKeys(stim, ns, p)
    requires after.Keys == before.Keys + PopKeys(stim, ns.pops[p], ns.synMechs, |ns.synMechs|)
    ensures after.Keys == base.Keys + StimKeys(stim, ns, p + 1)
  {
    NextStimKeys(stim, ns, p);
  }

  /** The step keeps every key of the pairs seen so far made by the
      NetStim. */
  lemma PopStepMade(stim: string, ns: NetStimCfg, p: nat, weight: real, numSyns: nat, locs: seq<real>,
                    before: map<string, StimTarget>, after: map<string, StimTarget>)
    requires p < |ns.pops|
    requires StimKeys(stim, ns, p) <= before.Keys
    requires forall k :: k in StimKeys(stim, ns, p) ==> MadeBy(before[k], k, stim, ns, weight, numSyns, locs)
    requires after.Keys == before.Keys + PopKeys(stim, ns.pops[p], ns.synMechs, |ns.synMechs|)
    requires forall b :: 0 <= b < |ns.synMechs| ==>
               after[TargetKey(stim, ns.pops[p], ns.synMechs[b])]
               == Target(stim, ns, ns.pops[p], ns.synMechs[b], weight, numSyns, locs)
    requires forall k :: k in before && k !in PopKeys(stim, ns.pops[p], ns.synMechs, |ns.synMechs|) ==>
               after[k] == before[k]
    ensures forall k :: k in StimKeys(stim, ns, p + 1) ==> MadeBy(after[k], k, stim, ns, weight, numSyns, locs)
  {
    var pop := ns.pops[p];
    var added := PopKeys(stim, pop, ns.synMechs, |ns.synMechs|);
    NextStimKeys(stim, ns, p);
    forall k | k in StimKeys(stim, ns, p + 1)
      ensures MadeBy(after[k], k, stim, ns, weight, numSyns, locs)
    {
      if k in added {
        var b :| 0 <= b < |ns.synMechs| && k == TargetKey(stim, pop, ns.synMechs[b]);
        assert after[k] == Target(stim, ns, pop, ns.synMechs[b], weight, numSyns, locs);
      } else {
        assert k in StimKeys(stim, ns, p) && after[k] == before[k];
      }
    }
  }

  /** The step leaves every key outside the NetStim's pairs as it was. */
  lemma PopStepKept(stim: string, ns: NetStimCfg, p: nat,
                    base: map<string, StimTarget>, before: map<string, StimTarget>, after: map<string, StimTarget>)
    requires p < |ns.pops|
    requires base.Keys <= before.Keys <= after.Keys
    requires forall k :: k in base && k !in StimKeys(stim, ns, p) ==> before[k] == base[k]
    requires forall k :: k in before && k !in PopKeys(stim, ns.pops[p], ns.synMechs, |ns.synMechs|) ==>
               after[k] == before[k]
    ensures forall k :: k in base && k !in StimKeys(stim, ns, p + 1) ==> after[k] == base[k]
  {
    NextStimKeys(stim, ns, p);
  }

  /** Every key of a NetStim's pairs is one AllKeysMade asks for. */
  lemma AllKeysOfStim(stim: string, ns: NetStimCfg, targets: map<string, StimTarget>)
    requires StimKeys(stim, ns, |ns.pops|) <= targets.Keys
    ensures AllKeysMade(stim, ns, targets)
  {
    forall a, b | 0 <= a < |ns.pops| && 0 <= b < |ns.synMechs|
      ensures TargetKey(stim, ns.pops[a], ns.synMechs[b]) in targets
    {
      assert TargetKey(stim, ns.pops[a], ns.synMechs[b]) in StimKeys(stim, ns, |ns.pops|);
    }
  }

  /** Targets once made stay made as keys are added. */
  lemma KeysKept(stim: string, ns: NetStimCfg, t1: map<string, StimTarget>, t2: map<string, StimTarget>)
    requires t1.Keys <= t2.Keys && AllKeysMade(stim, ns, t1)
    ensures AllKeysMade(stim, ns, t2)
  {
  }
}
