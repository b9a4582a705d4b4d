/** The scalar side of the conjugation surface: the parameter record, the
    effective parameters the surface is built from, and the profile constants
    (amplitude a, floored tangent, period c, height bound b) that both the
    surface regeneration and the keyboard navigation derive from them.
    Arithmetic is over exact reals; JavaScript's doubles are not modelled. */
module Profile {

  /** Math.PI. */
  const PI: real := 3.141592653589793

  /** Magnitude below which tan(fi) is replaced, and the value it is replaced by. */
  const TanFloorValue: real := 0.000001

  /** The slider-driven parameter record: the two radii, the profile angle fi
      (radians) and the tessellation resolution. Every slider value is a real,
      the resolution included. */
  datatype Params = Params(R1: real, R2: real, fi: real, uSteps: real, vSteps: real)

  /** The derived profile constants. */
  datatype Constants = Constants(a: real, tanFi: real, c: real, b: real)

  function Abs(x: real): real { if x < 0.0 then -x else x }

  /** A copy of the record in which the angle is negated exactly when R1 < R2. */
  function EffectiveParams(p: Params): (e: Params)
    ensures e.fi == (if p.R1 < p.R2 then -p.fi else p.fi)
    ensures e.(fi := p.fi) == p
    ensures Abs(e.fi) == Abs(p.fi)
  {
    if p.R1 < p.R2 then p.(fi := -p.fi) else p
  }

  /** Deriving the effective parameters twice gives the UI record back: the
      negation depends only on the radii, which it does not touch. */
  lemma EffectiveParamsInvolution(p: Params)
    ensures EffectiveParams(EffectiveParams(p)) == p
  {
  }

  /** The guard against a vanishing tangent. It is not sign-preserving: every
      tangent of magnitude below the floor becomes +TanFloorValue. */
  function TanFloor(t: real): (r: real)
    ensures r != 0.0 && Abs(r) >= TanFloorValue
    ensures Abs(t) < TanFloorValue ==> r == TanFloorValue
    ensures Abs(t) >= TanFloorValue ==> r == t
  {
    if Abs(t) < TanFloorValue then TanFloorValue else t
  }

  /** Flooring an already floored tangent changes nothing. */
  lemma TanFloorIdempotent(t: real)
    ensures TanFloor(TanFloor(t)) == TanFloor(t)
  {
  }

  /** The profile constants of parameters p, given the value tanOfFi of tan(p.fi). */
  function ProfileConstants(p: Params, tanOfFi: real): (k: Constants)
    ensures k.a == p.R2 - p.R1
    ensures k.tanFi == TanFloor(tanOfFi)
    ensures k.c * k.tanFi == -2.0 * PI * k.a
    ensures 4.0 * k.b == 3.0 * k.c
  {
    var a := p.R2 - p.R1;
    var t := TanFloor(tanOfFi);
    var c := (-2.0 * PI * a) / t;
    DivMul(-2.0 * PI * a, t);
    Constants(a, t, c, (3.0 * c) / 4.0)
  }

  lemma DivMul(x: real, y: real)
    requires y != 0.0
    ensures (x / y) * y == x
  {
  }

  lemma AbsMul(x: real, y: real)
    ensures Abs(x * y) == Abs(x) * Abs(y)
  {
    if x < 0.0 && y < 0.0 {
      assert x * y == (-x) * (-y);
    } else if x < 0.0 {
      assert -(x * y) == (-x) * y;
    } else if y < 0.0 {
      assert -(x * y) == x * (-y);
    }
  }

  /** The usable height of the v domain, |b|: the upper bound of the pivot's v
      coordinate and the base of its v step. */
  function VMax(p: Params, tanOfFi: real): (m: real)
    ensures m >= 0.0
    ensures m * Abs(TanFloor(tanOfFi)) == 1.5 * PI * Abs(p.R2 - p.R1)
  {
    var k := ProfileConstants(p, tanOfFi);
    VMaxClosedForm(k);
    Abs(k.b)
  }

  lemma VMaxClosedForm(k: Constants)
    requires k.c * k.tanFi == -2.0 * PI * k.a
    requires 4.0 * k.b == 3.0 * k.c
    ensures Abs(k.b) * Abs(k.tanFi) == 1.5 * PI * Abs(k.a)
  {
    AbsMul(k.b, k.tanFi);
    assert k.b * k.tanFi == 0.75 * (k.c * k.tanFi);
    assert k.b * k.tanFi == -1.5 * PI * k.a;
    AbsMul(-1.5 * PI, k.a);
  }

  /** The height bound vanishes exactly when the radii are equal (the cylinder). */
  lemma VMaxZeroIffEqualRadii(p: Params, tanOfFi: real)
    ensures VMax(p, tanOfFi) == 0.0 <==> p.R1 == p.R2
  {
    var m := VMax(p, tanOfFi);
    var t := Abs(TanFloor(tanOfFi));
    assert t > 0.0;
    if m == 0.0 {
      assert 1.5 * PI * Abs(p.R2 - p.R1) == 0.0;
    } else {
      assert m * t > 0.0;
    }
  }

  /** Thanks to the floor, the height bound never exceeds
      1.5e6 * PI * |R2 - R1|, whatever the angle. */
  lemma VMaxBounded(p: Params, tanOfFi: real)
    ensures VMax(p, tanOfFi) <= 1500000.0 * PI * Abs(p.R2 - p.R1)
  {
    var m := VMax(p, tanOfFi);
    var t := Abs(TanFloor(tanOfFi));
    var k := 1.5 * PI * Abs(p.R2 - p.R1);
    assert m >= 0.0 && t >= TanFloorValue && m * t == k;
    assert m * (t - TanFloorValue) >= 0.0;
    assert m * TanFloorValue <= k;
    assert m <= k * 1000000.0;
  }

  /** What the negation in EffectiveParams achieves: for an odd tangent and an
      angle whose tangent clears the floor, the period of the effective profile
      is non-negative whichever radius is the larger. */
  lemma EffectivePeriodNonNegative(p: Params, tan: real -> real)
    requires tan(-p.fi) == -tan(p.fi)
    requires tan(p.fi) >= TanFloorValue
    ensures var e := EffectiveParams(p); ProfileConstants(e, tan(e.fi)).c >= 0.0
  {
    var e := EffectiveParams(p);
    var k := ProfileConstants(e, tan(e.fi));
    if p.R1 < p.R2 {
      assert k.tanFi == -tan(p.fi) < 0.0 && k.a > 0.0;
      assert k.c * k.tanFi < 0.0;
    } else {
      assert k.tanFi == tan(p.fi) > 0.0 && k.a <= 0.0;
      assert k.c * k.tanFi >= 0.0;
    }
  }

  /** ... but not near a zero tangent: the floor replaces it by +1e-6 whatever
      its sign, so with R1 < R2 the period comes out negative. */
  lemma FloorDefeatsFlip(p: Params, tanOfFi: real)
    requires p.R1 < p.R2
    requires Abs(tanOfFi) < TanFloorValue
    ensures ProfileConstants(EffectiveParams(p), tanOfFi).c < 0.0
  {
    var k := ProfileConstants(EffectiveParams(p), tanOfFi);
    assert k.tanFi == TanFloorValue && k.a > 0.0;
    assert k.c * TanFloorValue < 0.0;
  }
}
