/** The distance rules shared by the three cell builders: the clamped linear
    densities and the split of the A-type potassium budget between the
    proximal (kap) and distal (kad) channels. */
module ChannelRules {

  function RMin(x: real, y: real): real { if x <= y then x else y }
  function RMax(x: real, y: real): real { if x >= y then x else y }

  /** A linear density above `cap` is set to `cap`; one below zero is set
      to zero. */
  function ClampToCap(x: real, cap: real): (r: real)
    ensures 0.0 <= cap ==> 0.0 <= r <= cap
    ensures 0.0 <= cap ==> r == RMin(RMax(x, 0.0), cap)
    ensures 0.0 <= x <= cap ==> r == x
  {
    if x > cap then cap else if x < 0.0 then 0.0 else x
  }

  /** The one-sided clamp of the PFC builder's distKASD: only the cap is
      enforced, a negative value passes through. */
  function CapOnly(x: real, cap: real): (r: real)
    ensures r <= cap && (r == x || r == cap)
    ensures x <= cap ==> r == x
  {
    if x > cap then cap else x
  }

  /** The clamped value is the cap-only value, raised to zero where negative. */
  lemma ClampIsCapThenFloor(x: real, cap: real)
    requires 0.0 <= cap
    ensures ClampToCap(x, cap) == RMax(CapOnly(x, cap), 0.0)
  {
  }

  /** The clamp is monotone in the linear value. */
  lemma ClampMonotone(x: real, y: real, cap: real)
    requires x <= y && 0.0 <= cap
    ensures ClampToCap(x, cap) <= ClampToCap(y, cap)
  {
  }

  /** `mgkaratio`: the kap share drops linearly by 1/300 per micrometre. */
  const MgkaRatio: real := 1.0 / 300.0

  /** The proximal share `max(0, 1 - d/300)` of the A-type budget. */
  function KapShare(d: real): (f: real)
    ensures 0.0 <= f
    ensures 0.0 <= d ==> f <= 1.0
    ensures f == 0.0 <==> d >= 300.0
    ensures d <= 300.0 ==> f == 1.0 - d / 300.0
  {
    var lin := 1.0 - MgkaRatio * d;
    if lin < 0.0 then 0.0 else lin
  }

  /** `(total*ratio/1e4*scale, total*(1-ratio)/1e4*scale)`: the kap and kad
      densities, in S/cm2, carved out of a total given in pS/um2. */
  function KaSplit(total: real, d: real, scale: real): (p: (real, real))
    ensures p.0 + p.1 == total / 10000.0 * scale
    ensures d >= 300.0 ==> p.0 == 0.0 && p.1 == total / 10000.0 * scale
    ensures 0.0 <= d && 0.0 <= total && 0.0 <= scale ==> 0.0 <= p.0 && 0.0 <= p.1
  {
    var f := KapShare(d);
    var kap := total * f / 10000.0 * scale;
    var kad := total * (1.0 - f) / 10000.0 * scale;
    SharesAddUp(total, f, scale);
    ShareNonNegative(total, f, scale);
    ShareNonNegative(total, 1.0 - f, scale);
    (kap, kad)
  }

  /** The two shares of a budget split at fraction f add up to the budget. */
  lemma SharesAddUp(total: real, f: real, scale: real)
    ensures total * f / 10000.0 * scale + total * (1.0 - f) / 10000.0 * scale == total / 10000.0 * scale
  {
    var a := total * f;
    var b := total * (1.0 - f);
    assert a + b == total;
    assert a / 10000.0 * scale + b / 10000.0 * scale == (a + b) / 10000.0 * scale;
  }

  /** A non-negative share of a non-negative budget is non-negative. */
  lemma ShareNonNegative(total: real, f: real, scale: real)
    ensures 0.0 <= total && 0.0 <= f && 0.0 <= scale ==> 0.0 <= total * f / 10000.0 * scale
  {
    if 0.0 <= total && 0.0 <= f && 0.0 <= scale {
      var a := total * f;
      assert 0.0 <= a;
      assert 0.0 <= a / 10000.0;
    }
  }
}
