/** The viewer's mutable scene state and the event handlers that update it:
    surface regeneration with its default pivot, the keyboard pivot stepper,
    the wheel zoom, the slider and angle inputs, and the choice of the pivot
    the object rotates about. */
module Viewer {
  import opened Profile
  import opened Navigation

  datatype Vec3 = Vec3(x: real, y: real, z: real)

  /** The four numeric sliders; each sets one field of the parameter record. */
  datatype Slider = R1Slider | R2Slider | USlider | VSlider

  /** The parameter record after a slider sets field s to x. */
  function WithSlider(p: Params, s: Slider, x: real): (q: Params)
    ensures s == R1Slider ==> q == p.(R1 := x)
    ensures s == R2Slider ==> q == p.(R2 := x)
    ensures s == USlider ==> q == p.(uSteps := x)
    ensures s == VSlider ==> q == p.(vSteps := x)
    ensures q.fi == p.fi
  {
    match s
    case R1Slider => p.(R1 := x)
    case R2Slider => p.(R2 := x)
    case USlider => p.(uSteps := x)
    case VSlider => p.(vSteps := x)
  }

  /** The angle an angle-selector value yields: only the two recognised
      strings change it. */
  function SelectFi(value: string, fi: real): (r: real)
    ensures value == "pi/6" ==> r == PI / 6.0
    ensures value == "-pi/6" ==> r == -PI / 6.0
    ensures value != "pi/6" && value != "-pi/6" ==> r == fi
    ensures r != fi ==> value == "pi/6" || value == "-pi/6"
  {
    if value == "pi/6" then PI / 6.0
    else if value == "-pi/6" then -PI / 6.0
    else fi
  }

  class Scene {
    /** Math.tan, not modelled beyond being a function of the angle. */
    const tan: real -> real
    /** The position the surface evaluator gives for (u, v) and the parameters;
        the evaluator is not part of this model. */
    const surfacePoint: (real, real, Params) -> Vec3

    var viewDistance: real
    var pivotMode: string
    var pivotU: real
    var pivotV: real
    var pivotCustom: Vec3
    var params: Params
    /** The parameters the current surface buffers were generated from. */
    var surfaceFrom: Params

    /** The invariant every handler keeps. */
    ghost predicate Valid()
      reads this
    {
      InRangeU(pivotU) && 0.0 <= pivotV && MinDistance <= viewDistance <= MaxDistance
    }

    /** The state before initialisation: the unset pivot sentinel (0, 0), the
        surface pivot source, a view distance of 15, and R1 = 3, R2 = 2,
        fi = PI / 6 at a resolution of 30 by 30. */
    constructor (tan: real -> real, surfacePoint: (real, real, Params) -> Vec3)
      ensures Valid()
      ensures this.tan == tan && this.surfacePoint == surfacePoint
      ensures viewDistance == 15.0 && pivotMode == "surface"
      ensures pivotU == 0.0 && pivotV == 0.0 && pivotCustom == Vec3(0.0, 0.0, 0.0)
      ensures params == Params(3.0, 2.0, PI / 6.0, 30.0, 30.0)
      ensures surfaceFrom == params
    {
      this.tan := tan;
      this.surfacePoint := surfacePoint;
      viewDistance := 15.0;
      pivotMode := "surface";
      pivotU, pivotV := 0.0, 0.0;
      pivotCustom := Vec3(0.0, 0.0, 0.0);
      params := Params(3.0, 2.0, PI / 6.0, 30.0, 30.0);
      surfaceFrom := params;
    }

    /** The parameters the surface and the pivot are computed from; the
        record the sliders write is only read. */
    function Effective(): (e: Params)
      reads this
      ensures e.fi == (if params.R1 < params.R2 then -params.fi else params.fi)
      ensures e.(fi := params.fi) == params
    {
      EffectiveParams(params)
    }

    /** The current height bound |b| of the pivot's v coordinate. */
    function PivotVMax(): (m: real)
      reads this
      ensures m >= 0.0
      ensures m == 0.0 <==> params.R1 == params.R2
    {
      var e := Effective();
      VMaxZeroIffEqualRadii(e, tan(e.fi));
      VMax(e, tan(e.fi))
    }

    function Pivot(): UV
      reads this
    {
      UV(pivotU, pivotV)
    }

    /** The point the object rotates about: on the surface at the pivot's
        (u, v) in surface mode, the custom coordinates verbatim otherwise. */
    function CurrentPivot(): (c: Vec3)
      reads this
      ensures pivotMode == "surface" ==> c == surfacePoint(pivotU, pivotV, Effective())
      ensures pivotMode != "surface" ==> c == pivotCustom
    {
      if pivotMode == "surface" then surfacePoint(pivotU, pivotV, Effective())
      else pivotCustom
    }

    /** Rebuilds the surface from the effective parameters and, when the pivot
        is still the sentinel (0, 0), places it at (PI, |b| / 2). */
    method Regenerate()
      requires Valid()
      modifies this`pivotU, this`pivotV, this`surfaceFrom
      ensures Valid()
      ensures surfaceFrom == Effective()
      ensures Pivot() == PlaceDefault(old(Pivot()), PivotVMax())
      ensures pivotMode != "surface" ==> CurrentPivot() == old(CurrentPivot())
    {
      var eff := EffectiveParams(params);
      surfaceFrom := eff;
      var k := ProfileConstants(eff, tan(eff.fi));
      if pivotU == 0.0 && pivotV == 0.0 {
        pivotU := PI;
        pivotV := Abs(k.b) / 2.0;
      }
    }

    /** The keydown handler: in surface mode, key a/d turns u by a fiftieth of
        a turn with wrap-around and key s/w moves v by a fiftieth of |b|,
        clamped; any other key, or custom mode, changes nothing. */
    method KeyDown(key: string)
      requires Valid()
      modifies this`pivotU, this`pivotV
      ensures Valid()
      ensures pivotMode == "surface" ==> Pivot() == Step(old(Pivot()), KeyOf(key), PivotVMax())
      ensures pivotMode != "surface" ==> Pivot() == old(Pivot())
      ensures old(pivotV) <= PivotVMax() ==> pivotV <= PivotVMax()
      ensures pivotMode != "surface" ==> CurrentPivot() == old(CurrentPivot())
    {
      if pivotMode != "surface" {
        return;
      }
      var eff := EffectiveParams(params);
      var k := ProfileConstants(eff, tan(eff.fi));
      var uMax := 2.0 * PI;
      var vMax := Abs(k.b);
      var stepU := uMax / 50.0;
      var stepV := vMax / 50.0;
      match KeyOf(key) {
        case A =>
          pivotU := pivotU - stepU;
          if pivotU < 0.0 {
            pivotU := pivotU + uMax;
          }
        case D =>
          pivotU := pivotU + stepU;
          if pivotU > uMax {
            pivotU := pivotU - uMax;
          }
        case S =>
          pivotV := Max(0.0, pivotV - stepV);
        case W =>
          pivotV := Min(vMax, pivotV + stepV);
        case Unbound =>
      }
    }

    /** The wheel handler: scales the view distance by 0.9 or 1.1 and clamps
        it to [3, 50]. */
    method Wheel(deltaY: real)
      requires Valid()
      modifies this`viewDistance
      ensures Valid()
      ensures viewDistance == Zoom(old(viewDistance), deltaY)
    {
      var scale := if deltaY < 0.0 then 0.9 else 1.1;
      viewDistance := viewDistance * scale;
      viewDistance := Max(3.0, Min(50.0, viewDistance));
    }

    /** A numeric slider: sets its field, then regenerates. */
    method SetSlider(s: Slider, x: real)
      requires Valid()
      modifies this`params, this`pivotU, this`pivotV, this`surfaceFrom
      ensures Valid()
      ensures params == WithSlider(old(params), s, x)
      ensures surfaceFrom == Effective()
      ensures Pivot() == PlaceDefault(old(Pivot()), PivotVMax())
    {
      match s {
        case R1Slider => params := params.(R1 := x);
        case R2Slider => params := params.(R2 := x);
        case USlider => params := params.(uSteps := x);
        case VSlider => params := params.(vSteps := x);
      }
      Regenerate();
    }

    /** The angle selector: "pi/6" and "-pi/6" set fi, any other value leaves
        it; the surface is regenerated either way. */
    method SetFi(value: string)
      requires Valid()
      modifies this`params, this`pivotU, this`pivotV, this`surfaceFrom
      ensures Valid()
      ensures params == old(params).(fi := SelectFi(value, old(params.fi)))
      ensures surfaceFrom == Effective()
      ensures Pivot() == PlaceDefault(old(Pivot()), PivotVMax())
    {
      if value == "pi/6" {
        params := params.(fi := PI / 6.0);
      } else if value == "-pi/6" {
        params := params.(fi := -PI / 6.0);
      }
      Regenerate();
    }

    /** The pivot-source radio buttons store their value as the mode. */
    method SetPivotMode(mode: string)
      requires Valid()
      modifies this`pivotMode
      ensures Valid()
      ensures pivotMode == mode
    {
      pivotMode := mode;
    }

    /** The custom pivot inputs store the three coordinates. */
    method SetCustomPivot(x: real, y: real, z: real)
      requires Valid()
      modifies this`pivotCustom
      ensures Valid()
      ensures pivotCustom == Vec3(x, y, z)
    {
      pivotCustom := Vec3(x, y, z);
    }
  }

  /** Start-up as init performs it: the initial state, then one regeneration,
      which places the pivot at (PI, |b| / 2) of the default parameters. */
  method Start(tan: real -> real, surfacePoint: (real, real, Params) -> Vec3) returns (s: Scene)
    ensures fresh(s) && s.Valid()
    ensures s.tan == tan && s.surfacePoint == surfacePoint
    ensures s.params == Params(3.0, 2.0, PI / 6.0, 30.0, 30.0)
    ensures s.viewDistance == 15.0 && s.pivotMode == "surface" && s.pivotCustom == Vec3(0.0, 0.0, 0.0)
    ensures s.Pivot() == UV(PI, VMax(Params(3.0, 2.0, PI / 6.0, 30.0, 30.0), tan(PI / 6.0)) / 2.0)
    ensures s.surfaceFrom == Params(3.0, 2.0, PI / 6.0, 30.0, 30.0)
  {
    s := new Scene(tan, surfacePoint);
    s.Regenerate();
  }
}
