# EEE detailed cell: a Dafny model

This project models the core of the EEE detailed-cell code base. That code builds a NEURON model of a layer-5 prefrontal pyramidal cell (CA229), runs stimulation experiments on it and analyses the recorded voltage traces. The model covers six parts.

- **The three cell builders.**
  - The full CA229 cell, with its 85 sections wired into a tree (`CA229.py`).
  - The seven-section simplified cell (`CA229simp.py`).
  - The hoc-loaded cell the PFC network uses (`CA229_PFC.py`).

  Each builder is a class whose passes write range variables segment by segment: sodium, delayed-rectifier and A-type potassium, calcium, spines and BK. Each pass is a Dafny method over an `array` of segment records. The method is proved equal to a per-segment function, and the distance rules are stated as lemmas about the segment a builder leaves behind: clamps, thresholds, conservation of the A-type budget, and knockouts that touch only their own field.
- **The trace analysis** (`analysis_utils.py` and its Python 3 port).
  - Plateau duration and amplitude.
  - Spike counting.
  - EPSP peak detection.
  - Inter-spike troughs.
  - Half widths.
  - The TTX amplitude measures.
- **The stimulation sites of Fig. 3**, which pair the segment centres of a branch.
- **The glutamate synapse layout** of the no-spines experiment: positions, distance-scaled weights and delays of the two pools.
- **The NetPyNE network parameters of the batch runs.**
  - The loop that rescales every section's channel densities and passive properties by the run configuration.
  - The NMDA/AMPA parameters.
  - The NetStim sources and targets.
- **The distance binning** of the back-propagation figure.

Python values map onto Dafny as follows.

- Floats are `real`.
- Traces are `seq<real>`.
- Python's `int()`, `round()`, negative indexing, `max`/`index`, `np.argmin` and `np.digitize` are written out in `PyOps` and `Bins`.
- Exceptions are `Result` values carrying the Python error class.
- The segment positions (section and path distance) and each section's AC length constant come from NEURON's 3-D morphology, so they are inputs of the cell classes.
- The passes loop over `sec.allseg()`, which visits x = 0, every segment centre and x = 1. A write at x lands on segment int(x*nseg), and x = 1 lands on the last segment, so the last write to a segment wins. Each segment's distance is therefore taken at its centre, except on a section's last segment, where it is taken at x = 1 (`Segments.LastWrite`).
- Assigning a variable of a mechanism that is not inserted raises AttributeError in NEURON. The passes that can meet such a segment (`distNaSD`, `distKASD`, `TTX`) stop there with that error.

Files:

- `wrappers.dfy`: Option, Result and the Python error classes.
- `pyops.dfy`: Python and NumPy built-ins.
- `rules.dfy`: the clamped linear densities and the A-type split shared by the builders.
- `segments.dfy`: the segment record and the density pass loop.
- `ca229_topology.dfy`: the 85 connect statements of the full cell.
- `ca229_cell.dfy`, `simp_cell.dfy`, `pfc_cell.dfy`: the three builders.
- `traces.dfy`, `spikes.dfy`, `plateau.dfy`, `halfwidth.dfy`: the trace analysis.
- `stim_loc.dfy`: the Fig. 3 stimulation sites.
- `syn_layout.dfy`: the synapse layout.
- `net_params.dfy`: the network parameters.
- `bins.dfy`: the distance binning.

## Model

| member | source | states |
|---|---|---|
| ChannelRules.ClampToCap | CA229.py:310-318 | A linear density above the cap becomes the cap and one below zero becomes zero: the result lies in [0, cap], equals min(max(x, 0), cap), and is x itself inside [0, cap] |
| ChannelRules.CapOnly | CA229_PFC.py:441-446 | distKASD's one-sided clamp: at most the cap and either x or the cap; x itself whenever x <= cap, so a negative budget passes through |
| ChannelRules.ClampIsCapThenFloor | CA229.py:379-384 | The two-sided clamp is the cap-only clamp raised to zero |
| ChannelRules.ClampMonotone | CA229.py:379-384 | A larger linear density never gives a smaller clamped density |
| ChannelRules.KapShare | CA229.py:373-377 | The kap ratio max(0, 1 - d/300) lies in [0, 1] for d >= 0, is 1 - d/300 up to 300 um, and is zero exactly from 300 um on |
| ChannelRules.KaSplit | CA229.py:385-386 | The kap and kad densities add up to total/1e4*scale; from 300 um on all of it is kad; both are non-negative for non-negative inputs |
| Segments.Insert | CA229.py:226-256 | Inserting a mechanism makes its variables exist and keeps values already assigned |
| Segments.ApplyPass | CA229.py:306-319 | A density pass over all segments: every segment becomes the rule applied to its old value at its own site, and nothing else changes |
| Segments.CentreLands | CA229.py:308-318 | Each centre visited by allseg lands on its own segment |
| Segments.LastWrite | CA229.py:308-318 | Segment i is written last at LastWriteX: its centre, or x = 1 for the section's last segment; no later allseg point lands on it |
| Segments.ApplyChecked | CA229_PFC.py:415-425 | A pass that walks the segments in order and stops at the first touched one lacking the mechanism: the touched segments before it get the rule, that one gets its partial write, everything else is unchanged |
| CA229Topology.BasalParentsOlder | CA229.py:554-1160 | Each basal section is connected to a section created before it |
| CA229Topology.ApicalParentsOlder | CA229.py:1180-2045 | Each apical section is connected to a section created before it |
| CA229Topology.ConnectsPointBack | CA229.py:526-2054 | Every connect statement of create_cell attaches a section to an older one |
| CA229Topology.ConnectsAttachEachOnce | CA229.py:526-2054 | The connect statements attach every section except soma[0], each exactly once |
| CA229Topology.ParentOf | CA229.py:526-2054 | The parent of every section other than soma[0] is an older section |
| CA229Topology.PathToRoot | CA229.py:526-2054 | The parent chain from any section starts there, ends at soma[0], and each step goes to the parent |
| CA229Topology.RootedAtSoma0 | CA229.py:526-2054 | The connections form a tree rooted at soma[0]: the path to it strictly decreases and takes at most s steps |
| CA229Cell.RegionOf | CA229.py:172-199 | The section lists, each exactly: soma = the soma sections, apicals = the apical sections, axon = basal[16], basals = the other basal sections |
| CA229Cell.GeomNseg | CA229.py:135-146 | The d_lambda segment count int((L/(0.05*lambda)+0.9)/2)*2+1 is odd and at least 1 |
| CA229Cell.GeomNsegMonotone | CA229.py:146 | A longer section never gets fewer segments |
| CA229Cell.AxonDiam | CA229.py:207-224 | add_axon's diameter windows: 1.725 up to 15 um, 1.119 up to 30 um, 0.96 beyond |
| CA229Cell.BasalNaClamped | CA229.py:306-319 | Basal sodium is the clamped linear rule times Na_ratio, within [0, gNamax*Na_ratio] |
| CA229Cell.AxonNaWindow | CA229.py:322-329 | Axon sodium is axonNa exactly on [35, 50] um and somaNa elsewhere, independent of the ratios |
| CA229Cell.BasalKaConserved | CA229.py:368-386 | On basals kap + kad equals the clamped A-type budget /1e4 times KA_ratio |
| CA229Cell.ApicalKaConserved | CA229.py:388-398 | On apicals kap + kad equals apicalKA/1e4 times KA_ratio |
| CA229Cell.KapVanishesFar | CA229.py:373-377 | On basals and apicals kap is zero exactly from 300 um on, or where the budget is zero |
| CA229Cell.DistKaSparesSoma | CA229.py:365-366 | The soma loop of distKA assigns nothing: soma kap keeps the mechanism default and soma has no kad |
| CA229Cell.CaThreshold | CA229.py:403-428 | HVA and T-type Ca switch to the dendritic densities strictly beyond 30 um, scaled by HVA_ratio and LVA_ratio |
| CA229Cell.SpineThreshold | CA229.py:433-454 | The spine correction of cm and g_pas applies from 40 um on, inclusive, on basals and apicals only |
| CA229Cell.KlRule | CA229.py:283-297 | Axonal kl is gkl from ILdist = 15 um on and 0 before; no other list has kl |
| CA229Cell.KnockoutsTouchOnlyTheirField | CA229.py:495-515 | TTX zeroes sodium, TTX_bAP zeroes basal sodium and no_ca zeroes Ca and T-type Ca; each leaves every other field alone and is idempotent |
| CA229Cell.Cell.constructor | CA229.py:108-133 | The cell after create_cell, optimize_nseg, add_axon and the channel passes: the tree of connections, Ra = 100 and the d_lambda nseg on every section, the 200 um, 15-segment axon, and every segment equal to the built segment for its list and distance |
| CA229Cell.Cell.InsertMechanisms | CA229.py:117-121 | The mechanism-inserting passes in the constructor's order |
| CA229Cell.Cell.SetDensities | CA229.py:122-128 | The density passes in the constructor's order |
| CA229Cell.Cell.Connect | CA229.py:538 | child.connect(parent) records the parent and changes nothing else |
| CA229Cell.Cell.CreateCell | CA229.py:520-2054 | After create_cell every section except soma[0] is connected to its parent |
| CA229Cell.Cell.OptimizeNseg | CA229.py:172-205 | Ra = 100 and cm = 1 on every section, then the d_lambda nseg |
| CA229Cell.Cell.SetNseg | CA229.py:135-148 | Every section gets the d_lambda segment count from its length and lambda |
| CA229Cell.Cell.AddAxon | CA229.py:207-224 | basal[16] becomes 200 um long with 15 segments and the windowed diameters |
| CA229Cell.Cell.AddAll | CA229.py:226-256 | pas, na and kv with their reversal potentials everywhere; kap, ca and it outside the axon |
| CA229Cell.Cell.AddSomaChan | CA229.py:261-264 | Somatic cm and leak on the soma |
| CA229Cell.Cell.AddApicalChan | CA229.py:269-271 | kad inserted on the apicals |
| CA229Cell.Cell.AddBasalChan | CA229.py:276-278 | kad inserted on the basals |
| CA229Cell.Cell.AddAxonChan | CA229.py:283-297 | Somatic cm and leak on the axon and kl set by ILdist |
| CA229Cell.Cell.GnaControl | CA229.py:302-332 | Each segment gets gna_control's sodium density for its list and distance |
| CA229Cell.Cell.DistCa | CA229.py:403-428 | Each segment gets distCa's Ca pair |
| CA229Cell.Cell.DistKV | CA229.py:337-358 | Each segment gets distKV's delayed-rectifier density |
| CA229Cell.Cell.DistKA | CA229.py:363-398 | Each basal and apical segment gets distKA's kap/kad split |
| CA229Cell.Cell.DistSpines | CA229.py:433-454 | The spine correction on basal and apical segments |
| CA229Cell.Cell.AddCaK | CA229.py:478-490 | kBK with gpeak*BK_ratio and caVhmin on apicals, basals and soma |
| CA229Cell.Cell.TTX | CA229.py:495-497 | gbar_na = 0 on every segment |
| CA229Cell.Cell.TTXbAP | CA229.py:499-501 | gbar_na = 0 on the basals only |
| CA229Cell.Cell.NoCa | CA229.py:506-515 | gbar_ca = gbar_it = 0 on soma, apicals and basals |
| SimpCell.Morphology | CA229simp.py:427-466 | The seven sections in add_comp order with their lengths, diameters and nseg |
| SimpCell.TopologyIsTree | CA229simp.py:467-472 | Every section except soma_2 has exactly one parent, created before it |
| SimpCell.PathToRoot | CA229simp.py:467-472 | Every section reaches soma_2 through its parents |
| SimpCell.AxonNaWindow | CA229simp.py:217-224 | Axon sodium is axonNa exactly on [50, 100] um and 150 elsewhere |
| SimpCell.BasalNaClamped | CA229simp.py:201-214 | Basal sodium is the clamped rule with no ratio, within [0, gNamax] |
| SimpCell.BasalKaConserved | CA229simp.py:263-281 | Basal kap + kad is the clamped budget /1e4 |
| SimpCell.Thresholds | CA229simp.py:298-349 | Spine correction from 50 um inclusive; Ca switch strictly beyond 30 um |
| SimpCell.Knockouts | CA229simp.py:403-421 | TTX zeroes sodium only and is idempotent; no_ca leaves the axon, which has no Ca, alone and zeroes Ca elsewhere |
| SimpCell.Cell.constructor | CA229simp.py:91-105 | The created morphology and connections, and every segment equal to the built segment |
| SimpCell.Cell.AddComp | CA229simp.py:474-476 | Appends a default section to self.all and changes nothing else |
| SimpCell.Cell.Connect | CA229simp.py:467 | Records the attachment of the child and changes nothing else |
| SimpCell.Cell.AddComps | CA229simp.py:446-452 | The seven sections in order with NEURON's default geometry |
| SimpCell.Cell.SetGeometry | CA229simp.py:458-465 | The sections get the lengths, diameters and nseg of create_cell |
| SimpCell.Cell.CreateCell | CA229simp.py:427-472 | self.all is the morphology and the connections are the six connect statements |
| SimpCell.Cell.AddAll | CA229simp.py:111-142 | Each segment after add_all |
| SimpCell.Cell.AddSomaChan | CA229simp.py:147-150 | Somatic cm and leak on soma_2 |
| SimpCell.Cell.AddApicalChan | CA229simp.py:162-164 | kad on the apical sections |
| SimpCell.Cell.AddBasalChan | CA229simp.py:169-171 | kad on the basal sections |
| SimpCell.Cell.AddAxonChan | CA229simp.py:176-192 | Somatic cm and leak and kl on the axon |
| SimpCell.Cell.GnaControl | CA229simp.py:197-227 | Each segment gets its sodium density |
| SimpCell.Cell.DistCa | CA229simp.py:298-323 | Each segment gets its Ca pair |
| SimpCell.Cell.DistKV | CA229simp.py:232-253 | Each segment gets its delayed-rectifier density |
| SimpCell.Cell.DistKA | CA229simp.py:258-293 | Each basal and apical segment gets its kap/kad split |
| SimpCell.Cell.DistSpines | CA229simp.py:328-349 | The spine correction on basal and apical segments |
| SimpCell.Cell.AddCaK | CA229simp.py:385-398 | kBK on apicals, basals and soma_2 |
| SimpCell.Cell.TTX | CA229simp.py:403-405 | gbar_na = 0 on all seven sections |
| SimpCell.Cell.NoCa | CA229simp.py:411-421 | gbar_ca = gbar_it = 0 on soma_2, apicals and basals |
| PfcCell.CaSplit | CA229_PFC.py:346-371 | gbar_ca + 1e4*gbar_it gives back the total, split at the fixed ratio |
| PfcCell.NaSD | CA229_PFC.py:411-425 | distNaSD's density lies in [0, gNamax] |
| PfcCell.KaSD | CA229_PFC.py:428-446 | distKASD's kap + kad is the cap-only budget /1e4 |
| PfcCell.CaTotalSplit | CA229_PFC.py:346-371 | Outside the axon gbar_ca + 1e4*gbar_it is dendCa beyond 30 um on dendrites and somaCa otherwise, split at the fixed ratio |
| PfcCell.AxonNaUniform | CA229_PFC.py:269-270 | Axon sodium is axonNa at every distance |
| PfcCell.AxonKl | CA229_PFC.py:195-202 | Axonal kl is gkl from 15 um on and 0 before |
| PfcCell.SpineThreshold | CA229_PFC.py:376-398 | From 50 um on, on the basal list and the apicals only, cm becomes dendCm and g_pas 1/dendRm (somaCm and 1/somaRm before); soma and axon segments are unchanged |
| PfcCell.KaSDNotFloored | CA229_PFC.py:428-446 | distKASD does not floor the budget: a negative soma_KA gives a negative kap + kad where the two-sided clamp gives 0 |
| PfcCell.BuiltMechanisms | CA229_PFC.py:111-202 | init_once inserts na everywhere, kap and kad on the basal list and apicals, kap without kad on the soma, neither on the axon |
| PfcCell.TtxIdempotent | CA229_PFC.py:449-451 | TTX zeroes sodium and nothing else; applying it twice is applying it once |
| PfcCell.Cell.constructor | CA229_PFC.py:77-98 | The loaded cell: default Ra, no mechanisms |
| PfcCell.Cell.InitOnce | CA229_PFC.py:100-106 | Ra = 90 on every section, and every segment equal to the built segment |
| PfcCell.Cell.GnaControl | CA229_PFC.py:249-276 | Each segment gets its sodium density |
| PfcCell.Cell.DistCa | CA229_PFC.py:346-371 | Each segment gets its Ca pair |
| PfcCell.Cell.DistKV | CA229_PFC.py:278-304 | Each segment gets its delayed-rectifier density |
| PfcCell.Cell.DistKA | CA229_PFC.py:306-344 | Each segment gets its kap/kad split |
| PfcCell.Cell.DistSpines | CA229_PFC.py:376-398 | The spine correction |
| PfcCell.DistNaSD | CA229_PFC.py:411-425 | AttributeError exactly when a segment of the named section has no na; the named section's segments before the first such one get the clamped Na rule for b_Na; every other segment is unchanged |
| PfcCell.DistKASD | CA229_PFC.py:428-446 | AttributeError exactly when a segment of the named section lacks kap or kad; the section's segments before the first such one get the cap-only kap/kad split, that one keeps the kap written before kad raised; every other segment is unchanged |
| PfcCell.Ttx | CA229_PFC.py:449-451 | AttributeError exactly when some segment has no na; gbar_na = 0 on every segment before the first such one, the rest unchanged |
| Traces.Stable | analysis_utils.py:40 | data[6000:]: its samples are those of data from index 6000 on |
| Traces.MeasPlatdur | analysis_utils.py:25-43 | dt times the number of stable samples strictly above baseline + thresh; non-negative for dt >= 0 |
| Traces.MeasPlatdurAntitone | analysis_utils.py:41-42 | A higher threshold never gives a longer plateau |
| Traces.ThreeQuarter | analysis_utils.py:315 | The three-quarter point lies between the first and the last above-threshold index |
| Traces.ThreeQuarterIsTrunc | analysis_utils.py:315 | The integer form is int(0.75*idx2 + 0.25*idx1) |
| Traces.PlateauPoint | PYTHON3/analysis_utils.py:212-220 | The read point is the first stable maximum when at most 15 samples exceed the level, else the three-quarter point; it lies in the stable part |
| Traces.SomaPlatampTTX | PYTHON3/analysis_utils.py:209-222 | ValueError on an empty stable part; otherwise an index at or after 6000 whose sample is baseline + amplitude |
| Traces.TTXPlatamp | analysis_utils.py:305-316 | ValueError exactly on an empty stable part; otherwise at most the stable maximum above baseline |
| Traces.TTXPlatampIsSomaAmplitude | PYTHON3/analysis_utils.py:190-222 | TTX_platamp is the amplitude half of soma_platamp_TTX, failing alike |
| Traces.SomaPlatdurTTX | PYTHON3/analysis_utils.py:224-230 | dt times the count of stable samples above baseline + amp/2; fails exactly when soma_platamp_TTX does |
| Traces.DendPlat | PYTHON3/analysis_utils.py:261-270 | IndexError for an index out of range; otherwise the amplitude at data[idx] and the duration above half of it |
| Traces.VCurrInj | PYTHON3/analysis_utils.py:272-276 | The stable maximum above baseline; ValueError on an empty stable part |
| Traces.SingleSpike | PYTHON3/analysis_utils.py:140-153 | The stable maximum above baseline and the time of its first occurrence |
| Traces.SingleSpikePeakIsVCurrInj | PYTHON3/analysis_utils.py:140-153 | single_spike's peak voltage equals v_curr_inj's amplitude |
| Spikes.CountSpikes | analysis_utils.py:48-75 | The loop's count equals the number of armed downward crossings of thresh, at most half the samples |
| Spikes.NoCrossingNoSpike | PYTHON3/analysis_utils.py:53-80 | A trace that never reaches thresh, or never drops below it, has no spike |
| Spikes.PeaksBeforeExact | analysis_utils.py:171-172 | The peak list holds exactly the peaks scanned so far, in increasing order |
| Spikes.PeakIndexesExact | analysis_utils.py:159-175 | The reported indexes are exactly the stable-part peaks that reach baseline + thresh |
| Spikes.EPSPsAt | analysis_utils.py:173-174 | Entry k is ((index)*dt, value) of the k-th peak |
| Spikes.EPSPsOrdered | PYTHON3/analysis_utils.py:119-135 | Every reported voltage reaches baseline + thresh, and for dt > 0 the reported times strictly increase |
| Spikes.GetEPSPs | analysis_utils.py:159-175 | The loop returns exactly the stamped peak list |
| Spikes.ScanPeaks | analysis_utils.py:171-174 | The loop over stable[:-1] appends (time, value) at exactly the peaks at or above the level, in order |
| Spikes.IntervalsTelescope | PYTHON3/analysis_utils.py:105-106 | The inter-spike intervals add up to the span from the first spike time to the last |
| Spikes.WindowMinIsFirstMin | PYTHON3/analysis_utils.py:109-111 | np.min/np.argmin of a window: the smallest sample and its first index |
| Spikes.GapMinimaAt | PYTHON3/analysis_utils.py:105-111 | Entry k of spike_mvalue/spike_midx is the minimum of the k-th gap |
| Spikes.GapMinimaInGap | PYTHON3/analysis_utils.py:109-111 | Each trough lies between its two spikes and is the gap's first minimum |
| Spikes.Ist | PYTHON3/analysis_utils.py:85-114 | Fewer than two 60 mV spikes give (0, [], []); otherwise the mean interval and the gap minima, and ZeroDivisionError for dt = 0 |
| Spikes.SpikeSample | PYTHON3/analysis_utils.py:107-108 | round(time/dt) of a spike time recovers its sample index |
| Spikes.IstSpikes | PYTHON3/analysis_utils.py:85-114 | The loop computes Ist |
| Plateau.AfterSpikeIndex | analysis_utils.py:281-282 | The index int(5/dt) samples past the first maximum of the trace: at or after it for dt > 0 |
| Plateau.LastTrough | PYTHON3/analysis_utils.py:256-258 | IndexError with fewer than two 60 mV peaks, ZeroDivisionError for dt = 0, otherwise the last inter-spike trough's index and value |
| Plateau.MeasPlatamp | analysis_utils.py:269-302 | Three spike-count cases: the stable maximum above baseline, the sample 5 ms after the peak, and the last trough above baseline; ValueError on an empty stable part with no spike, ZeroDivisionError for dt = 0 and IndexError past the end with one spike, and LastTrough's error with two or more |
| Plateau.SomaPlat | PYTHON3/analysis_utils.py:241-259 | soma_plat as written: with no spike it fails exactly on an empty stable part and otherwise returns the trace's first maximum as index with the stable maximum above baseline; with spikes the index holds baseline + amplitude |
| Plateau.QuietPlat | PYTHON3/analysis_utils.py:247-250 | The no-spike case: ValueError exactly on an empty stable part, otherwise (data.index(max(data)), max(stable) - baseline) |
| Plateau.SpikingPlat | PYTHON3/analysis_utils.py:251-258 | With spikes the returned index holds baseline + amplitude |
| Plateau.SomaPlatTrough | PYTHON3/analysis_utils.py:255-258 | With two or more spikes the index lies between the last two 60 mV peaks |
| Plateau.SomaPlatAmplitude | PYTHON3/analysis_utils.py:241-259 | soma_plat and meas_platamp report the same amplitude and fail alike |
| Plateau.SomaPlatIndexMissesPlateau | PYTHON3/analysis_utils.py:247-250 | With no spike and an earlier sample above every stable one, the returned index is before 6000 and its sample exceeds baseline + amplitude |
| Plateau.SomaPlatFixedIndex | PYTHON3/analysis_utils.py:241-259 | In the corrected soma_plat the returned index always holds baseline + amplitude, and with no spike it lies in the stable part |
| Plateau.SomaPlatFixedAgrees | PYTHON3/analysis_utils.py:241-259 | The corrected soma_plat fails exactly when soma_plat does, with the same amplitude, differing only in the no-spike index |
| HalfWidth.GetClosest | analysis_utils.py:253-265 | ValueError on an empty list; otherwise an index into it |
| HalfWidth.GetClosestIsFirstMinimiser | PYTHON3/analysis_utils.py:157-161 | The index is the first minimiser of abs(x - target) |
| HalfWidth.HalfPoints | analysis_utils.py:246-247 | ValueError when the rising side is empty; otherwise one < peak <= two, each the closest point on its side |
| HalfWidth.HalfWidthOneEPSP | analysis_utils.py:207-249 | NameError when no EPSP reaches baseline + thresh; ValueError when the maximum is the first sample; otherwise (two - one)*dt, at least dt |
| HalfWidth.ClosestInSlice | analysis_utils.py:251-265 | get_closest on data[lo:hi] finds the first index of that part minimising abs(x - target) |
| HalfWidth.EachEPSP | analysis_utils.py:178-199 | Each_EPSP as written: ValueError on empty data, 0 when no EPSP, and a non-zero width only above threshold |
| HalfWidth.EachRise | analysis_utils.py:190-193 | The rising index: 0 when the trace starts above half amplitude, ValueError when it does not and the peak is the first sample, else the first closest point of data[:peak] |
| HalfWidth.EachFall | analysis_utils.py:194-197 | The falling index: the first sample equal to the last one when the trace ends below half amplitude, else the first closest point of data[peak:] |
| HalfWidth.EachEPSPPoints | analysis_utils.py:178-199 | The width Each_EPSP returns for an EPSP: ValueError exactly when the trace starts at or below half amplitude and peaks at its first sample, otherwise (two - one)*dt with one and two the rising and falling indexes just described |
| HalfWidth.EachEPSPIsHalfPoints | analysis_utils.py:178-199 | On a trace that starts at or below and ends at or above half amplitude, Each_EPSP measures between the same two half-amplitude points as half_width_one_EPSP |
| HalfWidth.EachEPSPNegativeWidth | analysis_utils.py:194-195 | For [0, 1, 2, 10, 0], baseline 0 and thresh 2, Each_EPSP returns -2 |
| HalfWidth.EachEPSPFixed | analysis_utils.py:178-199 | With the falling test mirroring the rising one, it fails exactly where Each_EPSP does, with ValueError, and the width is never negative for dt >= 0 |
| HalfWidth.FixedRise | analysis_utils.py:190-193 | The corrected rising index: 0 above half amplitude, else the first closest point of data[:peak]; never after the peak |
| HalfWidth.FixedFall | analysis_utils.py:194-197 | The corrected falling index: the last index when the trace ends above half amplitude, else the first closest point of data[peak:]; never before the peak |
| HalfWidth.EachEPSPFixedPoints | analysis_utils.py:178-199 | The corrected points bracket the peak, one <= peak <= two, and the width is (two - one)*dt for them |
| HalfWidth.EachEPSPFixedIsOneEPSP | analysis_utils.py:178-247 | On a trace that starts and ends at or below half amplitude, the corrected Each_EPSP with the trace's own baseline is half_width_one_EPSP |
| StimLoc.EachLen | Fig3/Fig3_stim_loc.py:32 | each_len lies in [0, 1], so the each_len > 10 branch is dead |
| StimLoc.StimLocs | Fig3/Fig3_stim_loc.py:24-45 | IndexError exactly when the branch has no point; otherwise window k spans x(2k+1)..x(2k+3) with the distance of x(2k+2) |
| StimLoc.WindowsOfBranch | Fig3/Fig3_stim_loc.py:40-44 | A branch of nseg segments gets nseg/2 windows |
| StimLoc.WindowsTile | Fig3/Fig3_stim_loc.py:40-44 | On a non-decreasing branch each window holds its centre and starts where the previous one ends |
| StimLoc.CurrentInjLoc | Fig3/Fig3_stim_loc.py:47-55 | The loop returns the x and distance of exactly the interior points, in order |
| StimLoc.CurrentInjLocKeepsInterior | Fig3/Fig3_stim_loc.py:52-54 | Every kept x is neither 0 nor 1, every such point is kept, in order, with its own distance |
| SynLayout.Stretch | Experiment_no_spines_Joe.py:72-73 | middle minus and plus radius give back loc[0] and loc[1] |
| SynLayout.Weight | Experiment_no_spines_Joe.py:85-86 | Weights are non-negative, equal to the clamped amplitude when decay is 0, and at most the amplitude |
| SynLayout.WeightAntitone | Experiment_no_spines_Joe.py:85 | A synapse farther from the middle never gets a larger weight |
| SynLayout.Dist | Experiment_no_spines_Joe.py:84 | The distance from the middle is non-negative and zero exactly at the middle |
| SynLayout.Delay | Experiment_no_spines_Joe.py:87 | Delays are at least initDelay, equal to it exactly at the middle |
| SynLayout.LayPool | Experiment_no_spines_Joe.py:83-87 | Each synapse's layout point, distance, weight and delay |
| SynLayout.GluStimLayout | Experiment_no_spines_Joe.py:69-93 | ZeroDivisionError exactly when Syn_w1 is 0; otherwise pool 1 weighs w1 with 0.5 ms/um, pool 2 weighs w2 with 1 ms/um |
| SynLayout.GluStimWeightsAndDelays | Experiment_no_spines_Joe.py:83-93 | Every synapse gets its pool's clamped weight and a delay of at least initDelay |
| SynLayout.PoolSymmetric | Experiment_no_spines_Joe.py:83-87 | Synapses at the same rank from either end get equal weights and delays |
| SynLayout.EarliestAtMiddle | Experiment_no_spines_Joe.py:87 | A synapse gets the smallest delay exactly when it lies at the middle |
| SynLayout.SitesAreLocs | Experiment_no_spines_Joe.py:83 | The synapses sit where their delays were computed only when the stretch is the module-level one |
| NetParams.ArrayScale | netpyne/batch_comp/netParams.py:83 | list(np.array(v, ndmin=1) * s) is a list with each number scaled |
| NetParams.ScaleChannel | netpyne/batch_comp/netParams.py:79-87 | Only the named mechanism changes; KeyError for a missing parameter; all-scale wins, the dendritic scale on basal/apical names |
| NetParams.AllOverridesDend | netpyne/batch_comp/netParams.py:81-86 | When allNaScale is set the dendritic scale has no effect: the two do not compound |
| NetParams.DendOnlyDendritic | netpyne/batch_comp/netParams.py:82 | The dendritic scale does nothing off basal and apical sections |
| NetParams.ScaleK | netpyne/batch_comp/netParams.py:89-125 | The four potassium channels scaled; keys, vinit, geometry and sodium unchanged |
| NetParams.AllKOverridesDendK | netpyne/batch_comp/netParams.py:89-125 | allKScale overrides dendKScale on all four potassium channels |
| NetParams.KDendOnlyDendritic | netpyne/batch_comp/netParams.py:93-120 | dendKScale does nothing off basal and apical sections |
| NetParams.MulMech | netpyne/batch_comp/netParams.py:129 | KeyError on a missing mechanism or parameter, TypeError on a list value; otherwise the product, nothing else changed |
| NetParams.ScaleIh | netpyne/batch_comp/netParams.py:127-129 | ihScale multiplies Ih where present |
| NetParams.ScaleRm | netpyne/batch_comp/netParams.py:131-132 | RmScale divides g_pas; a zero scale is a ZeroDivisionError before the lookup; otherwise KeyError without pas or its g, TypeError when g is a list |
| NetParams.SetEPas | netpyne/batch_comp/netParams.py:134-136 | e_pas set where pas exists |
| NetParams.ScaleSomaG | netpyne/batch_comp/netParams.py:138-141 | gpasSomaScale multiplies g_pas on soma sections |
| NetParams.ScaleDendRa | netpyne/batch_comp/netParams.py:143-146 | dendRaScale multiplies Ra on "dend" sections, mechanisms unchanged |
| NetParams.ScaleDendRm | netpyne/batch_comp/netParams.py:148-151 | dendRmScale divides g_pas on "dend" sections |
| NetParams.ScalePassive | netpyne/batch_comp/netParams.py:127-151 | The passive steps keep the mechanism keys and the sodium entry |
| NetParams.PassiveDendOnlyDend | netpyne/batch_comp/netParams.py:143-151 | dendRa/dendRm do nothing to non-"dend" sections |
| NetParams.RmScaleDivides | netpyne/batch_comp/netParams.py:131-136 | Off soma and dend sections, a completed passive pass divides g_pas by RmScale and sets e_pas |
| NetParams.PassiveAsRm | netpyne/batch_comp/netParams.py:131-151 | Off soma and dend sections the passive steps touching pas are RmScale and e_pas |
| NetParams.ScaleSection | netpyne/batch_comp/netParams.py:76-151 | AttributeError before any change when the configuration has no e_pas; otherwise vinit = e_pas, keys unchanged, geometry unchanged off "dend" sections |
| NetParams.SodiumFinal | netpyne/batch_comp/netParams.py:79-87 | After a completed pass the Na density is orig*allNaScale when set, orig*dendNaScale on basal/apical when only that is set, else unchanged |
| NetParams.DendScalesOnlyDendrites | netpyne/batch_comp/netParams.py:79-151 | The dendritic scales leave sections without basal/apical/dend names exactly as if unset |
| NetParams.AllOverridesDendScales | netpyne/batch_comp/netParams.py:79-125 | allNaScale and allKScale override their dendritic scales on any section |
| NetParams.ScaleSecsComplete | netpyne/batch_comp/netParams.py:76-151 | Without an exception every section is its scaled original with vinit = e_pas |
| NetParams.NoEPasSecs | netpyne/batch_comp/netParams.py:76-77 | Without e_pas the section loop raises AttributeError on its first section and changes nothing |
| NetParams.NoEPasRaises | netpyne/batch_comp/netParams.py:74-77 | Without e_pas the whole loop raises AttributeError exactly when some cell has a section, and changes nothing |
| NetParams.ScaleCellsComplete | netpyne/batch_comp/netParams.py:74-151 | Without an exception every section of every cell is scaled, with names kept in order |
| NetParams.NetParams.constructor | netpyne/batch_comp/netParams.py:74 | The cells with no stimulation sources or targets |
| NetParams.NetParams.RunSections | netpyne/batch_comp/netParams.py:76-151 | The section loop computes the fold of the step, stopping at the first exception |
| NetParams.NetParams.RunCell | netpyne/batch_comp/netParams.py:76-151 | One cell's list replaced by the loop's result |
| NetParams.NetParams.RunAll | netpyne/batch_comp/netParams.py:74-151 | All cells go through the loop, stopping at the first exception |
| NetParams.NetParams.ScaleAll | netpyne/batch_comp/netParams.py:74-151 | The scaling loop's cells and exception equal ScaleCells of the old cells |
| NetParams.SynMechParams | netpyne/batch_comp/netParams.py:169-171 | NMDA kinetics are the defaults times their scales; AMPA gmax / NMDA gmax = ratioAMPANMDA |
| NetParams.NetStimWeight | netpyne/batch_comp/netParams.py:185-190 | glutAmp*exSynScale for "ExSyn" labels, glutAmp for other "Syn" labels, an exception exactly when "Syn" is absent |
| NetParams.TargetKeyInjective | netpyne/batch_comp/netParams.py:199 | With the label and population fixed, the key label_pop_mech determines the mechanism |
| NetParams.TargetKeyPinned | netpyne/batch_comp/netParams.py:199 | For populations without '_' the key determines both the population and the mechanism |
| NetParams.NetParams.AddTargets | netpyne/batch_comp/netParams.py:196-200 | Exactly the keys label_pop_mech of the population's mechanisms are added, each holding the target for that population and mechanism; every other key keeps its target |
| NetParams.NetParams.AddPops | netpyne/batch_comp/netParams.py:180-200 | Over all populations: the source is recorded and exactly the keys of the NetStim's population-mechanism pairs are added, each holding a target made for a pair with that key |
| NetParams.NetParams.AddNetStim | netpyne/batch_comp/netParams.py:181-200 | Raises before any change exactly for a label without "Syn" and some population; otherwise the source is recorded, the keys added are exactly those of its population-mechanism pairs, each made by this NetStim for that pair, and every other key is unchanged |
| NetParams.NetParams.AddNetStims | netpyne/batch_comp/netParams.py:177-200 | Raises exactly when addNetStim is set and some NetStim entry with populations lacks "Syn"; otherwise every NetStim entry with populations has its source and all its targets; no target is removed, and every stored target is either unchanged or was made by some NetStim entry for the pair its key names |
| NetParams.KeysKept | netpyne/batch_comp/netParams.py:199 | Targets already made stay made as keys are added |
| Bins.Digitize | Fig2_bAP_anaPlot.py:85 | np.digitize on increasing bins is at most len(bins) |
| Bins.DigitizeSplits | Fig2_bAP_anaPlot.py:85 | The edges left of x are exactly the first Digitize ones |
| Bins.DigitizeBrackets | Fig2_bAP_anaPlot.py:85-86 | bins[i-1] <= x < bins[i] (right=False) or bins[i-1] < x <= bins[i] (right=True) |
| Bins.MapBin | Fig2_bAP_anaPlot.py:74-87 | ValueError on no bins; IndexError exactly when x is above the last edge; both edges are bins |
| Bins.MapBinInside | Fig2_bAP_anaPlot.py:74-87 | Inside the range x gets [bins[k-1], bins[k]] with bins[k-1] <= x < bins[k] |
| Bins.MapBinAtMax | Fig2_bAP_anaPlot.py:83-84 | x equal to the largest edge gets the last bin, closed on the right |
| Bins.MapBinBelowFirst | Fig2_bAP_anaPlot.py:86 | x below the first edge gets lower edge bins[-1] |
| Bins.MapBinMonotone | Fig2_bAP_anaPlot.py:74-87 | Binning keeps order |
| Bins.FreqBins | Fig2_bAP_anaPlot.py:90 | np.arange(0, 300, 20) has 15 edges |
| Bins.FreqBinsSorted | Fig2_bAP_anaPlot.py:90 | Increasing from 0 to 280 in steps of 20 |
| Bins.FreqBinOfDistance | Fig2_bAP_anaPlot.py:90-92 | A distance in [0, 280] gets a 20 um bin holding it; beyond 280 is IndexError |

## Left out

- The NEURON simulator itself (section creation in hoc, `h.distance`, `allseg`, `n3d`/`arc3d`/`diam3d`), simulations, plotting, file I/O, JSON and pandas: segment sites and each section's AC length constant (`lambda_f`, with its square roots) are inputs.
- `add_ih` is not modelled (its apical density uses `exp`); the passes after it are unaffected.
- `CA229.hoc`, loaded by the PFC builder, is not part of this model: its sections and lists are an input layout; only `init_once`'s listed passes are modelled, with the per-list set-up collapsed into one function.
- Global NEURON parameters (`h.vshift_na`, `h.thi1_na`, `taur_cad`, CaT gating constants) and the `vmax`/`cad`/ion mechanisms are not tracked.
- Floating point: all arithmetic is on reals; Python's `round` is modelled only on values that are whole up to noise; NaN and np.mean of an empty list are not modelled.
- `half_width_2EPSP` and `tableau` in the analysis utilities are not part of this model.
- Python 2 division: `1/cfg.dendRmScale` is modelled as real division (configuration values are floats).
- NetPyNE's `popParams`, the `IClamp` inputs and the `importCellParams` calls are not modelled; the order of `dir(cfg)` is taken as the given order of entries.
- NetParams.NetParams.RunSections, RunCell and RunAll are stated over any step function; only ScaleAll instantiates them with the scaling step.
- Bins.MapBin: returns the pair (lower, upper) instead of the label string; only increasing bins are modelled.
- StimLoc.StimLocs: the `each_len > 10` branch is unreachable (each_len is at most 1) and is left as dead code.
- SynLayout.PoolSymmetric: excludes a pool of exactly one synapse, which np.linspace places at loc[0] rather than at the middle.
- Printed diagnostics are not modelled: the "No EPSP found." messages of analysis_utils.py and the per-section "Scaling ..." messages of netParams.py. No result depends on them.
- NetParams.NetParams.AddNetStim: the weight is computed once per NetStim, as it does not depend on the population.
- The order in which the passes visit segments is the given layout, taken to be NEURON's `allsec`/`allseg` order. It matters only for which segments a pass that raises has already written.
- NetPyNE's `cellParams` and each cell's `secs` are walked with Python 2 `iteritems`, whose order is not specified. The model walks them in the order of the given sequences.
- PfcCell.Cell.Valid and CA229Cell.Cell.Valid: the layout is an input, and the number of sites per section is not tied to that section's nseg.
- NetParams.NetParams.AddNetStims: a key names its population and mechanism only when population names hold no '_' (`NetParams.TargetKeyPinned`); otherwise the contract says that a stored target was made for some pair with that key.

## Findings

| source | as written | input that shows it | evidently intended | confidence | as-written member | corrected member |
|---|---|---|---|---|---|---|
| analysis_utils.py:194-195 | When the trace ends below half amplitude, the falling index is `data.index(data[-1])`, the first sample equal to the last one | data [0, 1, 2, 10, 0], baseline 0, thresh 2: falling index 0, rising index 2, width -2*dt | A falling test that mirrors the rising one: the last index when the trace ends above half amplitude, and otherwise the half-amplitude point of the falling side, so that the points bracket the peak and the width is non-negative | not executed; the intended test is inferred from the rising side's | HalfWidth.EachEPSPNegativeWidth | HalfWidth.EachEPSPFixed |
| PYTHON3/analysis_utils.py:247-250 | With no spike the index is `data.index(max(data))` over the whole trace while the amplitude comes from the stable part | A trace whose largest sample lies before index 6000 (a stimulus artefact) and no spike after it | The index of the stable maximum, offset by 6000 | not executed | Plateau.SomaPlatIndexMissesPlateau | Plateau.SomaPlatFixedIndex |
