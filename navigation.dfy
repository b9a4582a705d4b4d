/** Keyboard navigation of the pivot over the (u, v) parameter domain and the
    mouse-wheel zoom of the view distance, as pure transitions on values.
    The class in viewer.dfy performs them in place and is proved equal to them. */
module Navigation {
  import opened Profile

  /** The range of u is [0, UMax]; u is cyclic. */
  const UMax: real := 2.0 * PI

  /** One key press moves u by a fiftieth of its range. */
  const StepU: real := UMax / 50.0

  /** Nearest and farthest view distance the wheel allows. */
  const MinDistance: real := 3.0
  const MaxDistance: real := 50.0

  /** The four navigation keys, after case folding; every other key is Unbound. */
  datatype Key = A | D | S | W | Unbound

  /** A pivot position in the parameter domain. */
  datatype UV = UV(u: real, v: real)

  function Max(x: real, y: real): real { if x >= y then x else y }
  function Min(x: real, y: real): real { if x <= y then x else y }

  /** Case folding of one character, for the ASCII letters. */
  function LowerChar(c: char): char
  {
    if 'A' <= c <= 'Z' then (c as int + 32) as char else c
  }

  /** ASCII case folding of a key name: no capital is left, every other
      character is kept, and each capital becomes its small letter. */
  function Lower(s: string): (r: string)
    ensures |r| == |s|
    ensures forall i :: 0 <= i < |s| ==> !('A' <= r[i] <= 'Z')
    ensures forall i :: 0 <= i < |s| && !('A' <= s[i] <= 'Z') ==> r[i] == s[i]
    ensures forall i :: 0 <= i < |s| && 'A' <= s[i] <= 'Z' ==> r[i] as int == s[i] as int + 32
  {
    seq(|s|, i requires 0 <= i < |s| => LowerChar(s[i]))
  }

  /** A key name folds to the one-letter name [lc] exactly when it is [lc]
      itself or its capital [uc]. */
  lemma LowerIsLetter(name: string, lc: char, uc: char)
    requires 'a' <= lc <= 'z' && uc as int == lc as int - 32
    ensures Lower(name) == [lc] <==> name == [lc] || name == [uc]
  {
    if Lower(name) == [lc] {
      assert |name| == 1 && LowerChar(name[0]) == lc;
      assert name == [name[0]];
    }
    if name == [lc] || name == [uc] {
      assert Lower(name)[0] == lc;
    }
  }

  /** The key a key name stands for, case-insensitively. */
  function KeyOf(name: string): (k: Key)
    ensures k == A <==> name == "a" || name == "A"
    ensures k == D <==> name == "d" || name == "D"
    ensures k == S <==> name == "s" || name == "S"
    ensures k == W <==> name == "w" || name == "W"
  {
    LowerIsLetter(name, 'a', 'A');
    LowerIsLetter(name, 'd', 'D');
    LowerIsLetter(name, 's', 'S');
    LowerIsLetter(name, 'w', 'W');
    var l := Lower(name);
    if l == "a" then A
    else if l == "d" then D
    else if l == "s" then S
    else if l == "w" then W
    else Unbound
  }

  predicate InRangeU(u: real) { 0.0 <= u <= UMax }

  predicate InRangeV(v: real, vMax: real) { 0.0 <= v <= vMax }

  /** One key press: A and D move u by StepU and wrap it back into [0, UMax];
      S and W move v by vMax / 50 and clamp it to [0, vMax]. */
  function Step(p: UV, k: Key, vMax: real): (q: UV)
    ensures k == A || k == D ==> q.v == p.v
    ensures k == S || k == W ==> q.u == p.u
    ensures k == Unbound ==> q == p
    ensures k == A ==> q.u == p.u - StepU || q.u == p.u - StepU + UMax
    ensures k == D ==> q.u == p.u + StepU || q.u == p.u + StepU - UMax
    ensures k == A && p.u >= StepU ==> q.u == p.u - StepU
    ensures k == A && p.u < StepU ==> q.u == p.u - StepU + UMax
    ensures k == D && p.u + StepU <= UMax ==> q.u == p.u + StepU
    ensures k == D && p.u + StepU > UMax ==> q.u == p.u + StepU - UMax
    ensures k == S && p.v >= vMax / 50.0 ==> q.v == p.v - vMax / 50.0
    ensures k == S && p.v < vMax / 50.0 ==> q.v == 0.0
    ensures k == W && p.v + vMax / 50.0 <= vMax ==> q.v == p.v + vMax / 50.0
    ensures k == W && p.v + vMax / 50.0 > vMax ==> q.v == vMax
    ensures InRangeU(p.u) ==> InRangeU(q.u)
    ensures k == S ==> q.v >= 0.0
    ensures k == W ==> q.v <= vMax
    ensures vMax >= 0.0 && 0.0 <= p.v ==> 0.0 <= q.v
    ensures vMax >= 0.0 && InRangeV(p.v, vMax) ==> InRangeV(q.v, vMax)
  {
    match k
    case A => var u := p.u - StepU; UV(if u < 0.0 then u + UMax else u, p.v)
    case D => var u := p.u + StepU; UV(if u > UMax then u - UMax else u, p.v)
    case S => UV(p.u, Max(0.0, p.v - vMax / 50.0))
    case W => UV(p.u, Min(vMax, p.v + vMax / 50.0))
    case Unbound => p
  }

  /** Key A at u = 0 wraps below zero to one step short of a full turn. */
  lemma WrapBelowZero(v: real, vMax: real)
    ensures Step(UV(0.0, v), A, vMax) == UV(UMax - StepU, v)
  {
  }

  /** D undoes A everywhere except at u = 0, which comes back as the equivalent
      angle UMax. */
  lemma DUndoesA(p: UV, vMax: real)
    requires InRangeU(p.u)
    ensures Step(Step(p, A, vMax), D, vMax) == if p.u == 0.0 then UV(UMax, p.v) else p
  {
  }

  /** A undoes D everywhere except at u = UMax, which comes back as 0. */
  lemma AUndoesD(p: UV, vMax: real)
    requires InRangeU(p.u)
    ensures Step(Step(p, D, vMax), A, vMax) == if p.u == UMax then UV(0.0, p.v) else p
  {
  }

  /** S undoes W away from the clamped top of [0, vMax]. */
  lemma SUndoesW(p: UV, vMax: real)
    requires vMax >= 0.0 && 0.0 <= p.v && p.v + vMax / 50.0 <= vMax
    ensures Step(Step(p, W, vMax), S, vMax) == p
  {
  }

  /** W undoes S away from the clamped bottom of [0, vMax]. */
  lemma WUndoesS(p: UV, vMax: real)
    requires vMax / 50.0 <= p.v <= vMax
    ensures Step(Step(p, S, vMax), W, vMax) == p
  {
  }

  /** n presses of the same key. */
  function Presses(p: UV, k: Key, vMax: real, n: nat): UV
  {
    if n == 0 then p else Step(Presses(p, k, vMax, n - 1), k, vMax)
  }

  /** Pressing A n times lowers u by n steps, as long as u starts at least n
      steps above 0, so that no press wraps. */
  lemma {:induction false} PressesA(p: UV, vMax: real, n: nat)
    requires p.u >= (n as real) * StepU
    ensures Presses(p, A, vMax, n) == UV(p.u - (n as real) * StepU, p.v)
  {
    if n > 0 {
      PressesA(p, vMax, n - 1);
    }
  }

  /** Pressing S n times lowers v by n steps of vMax / 50, as long as v starts
      at least n steps above 0, so that no press clamps. */
  lemma {:induction false} PressesS(p: UV, vMax: real, n: nat)
    requires vMax >= 0.0 && p.v >= (n as real) * (vMax / 50.0)
    ensures Presses(p, S, vMax, n) == UV(p.u, p.v - (n as real) * (vMax / 50.0))
  {
    if n > 0 {
      var step := vMax / 50.0;
      OneStepLess(n, step);
      assert p.v >= ((n - 1) as real) * step;
      PressesS(p, vMax, n - 1);
      var q := Presses(p, S, vMax, n - 1);
      assert q.v == p.v - ((n - 1) as real) * step;
      assert q.v >= step;
      assert Presses(p, S, vMax, n) == Step(q, S, vMax);
    }
  }

  lemma OneStepLess(n: nat, step: real)
    requires n > 0
    ensures ((n - 1) as real) * step == (n as real) * step - step
  {
  }

  /** From u = PI, each of the first 25 presses of A lowers u by exactly one
      step, without wrapping. */
  lemma PressesAFromPi(v: real, vMax: real, n: nat)
    requires n <= 25
    ensures Presses(UV(PI, v), A, vMax, n) == UV(PI - (n as real) * StepU, v)
  {
    PressesA(UV(PI, v), vMax, n);
  }

  /** From half height, each of the first 25 presses of S lowers v by exactly
      one step, without clamping. */
  lemma PressesSFromHalf(u: real, vMax: real, n: nat)
    requires vMax >= 0.0 && n <= 25
    ensures Presses(UV(u, vMax / 2.0), S, vMax, n) == UV(u, vMax / 2.0 - (n as real) * (vMax / 50.0))
  {
    var step := vMax / 50.0;
    var left := 25.0 - n as real;
    assert step >= 0.0 && left >= 0.0;
    assert left * step >= 0.0;
    assert vMax / 2.0 - (n as real) * step == left * step;
    PressesS(UV(u, vMax / 2.0), vMax, n);
  }

  /** The default pivot (PI, vMax / 2) reaches the unset-pivot sentinel (0, 0)
      after 25 presses of A and 25 presses of S. */
  lemma DefaultPivotReachesSentinel(vMax: real)
    requires vMax >= 0.0
    ensures Presses(Presses(UV(PI, vMax / 2.0), A, vMax, 25), S, vMax, 25) == UV(0.0, 0.0)
  {
    PressesAFromPi(vMax / 2.0, vMax, 25);
    PressesSFromHalf(0.0, vMax, 25);
  }

  /** The pivot after a regeneration: the unset sentinel (0, 0) becomes the
      default (PI, vMax / 2); any other pivot stays. */
  function PlaceDefault(p: UV, vMax: real): (q: UV)
    ensures q != p <==> p == UV(0.0, 0.0)
    ensures p == UV(0.0, 0.0) ==> q == UV(PI, vMax / 2.0)
    ensures q != UV(0.0, 0.0)
  {
    if p.u == 0.0 && p.v == 0.0 then UV(PI, vMax / 2.0) else p
  }

  /** The factor one wheel event applies: towards the object when scrolling up
      (deltaY < 0), away from it otherwise, a zero delta included. */
  function ZoomScale(deltaY: real): real
  {
    if deltaY < 0.0 then 0.9 else 1.1
  }

  /** The view distance after one wheel event: scaled, then clamped. */
  function Zoom(d: real, deltaY: real): (r: real)
    ensures MinDistance <= r <= MaxDistance
    ensures MinDistance <= d * ZoomScale(deltaY) <= MaxDistance ==> r == d * ZoomScale(deltaY)
    ensures d * ZoomScale(deltaY) < MinDistance ==> r == MinDistance
    ensures d * ZoomScale(deltaY) > MaxDistance ==> r == MaxDistance
    ensures deltaY < 0.0 && d >= MinDistance ==> r <= d
    ensures deltaY >= 0.0 && d <= MaxDistance ==> r >= d
  {
    Max(MinDistance, Min(MaxDistance, d * ZoomScale(deltaY)))
  }
}
