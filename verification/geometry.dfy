/** Plane vectors and the small numeric helpers the scripts lean on
    (Vector2 arithmetic, Vector2.Lerp, Calc.Approach, Math.Sign).
    Engine floats are modelled as mathematical reals. */
module Geometry {

  datatype Vec = Vec(x: real, y: real)

  const Zero: Vec := Vec(0.0, 0.0)

  function Add(a: Vec, b: Vec): Vec { Vec(a.x + b.x, a.y + b.y) }

  function Sub(a: Vec, b: Vec): Vec { Vec(a.x - b.x, a.y - b.y) }

  function Scale(v: Vec, k: real): Vec { Vec(v.x * k, v.y * k) }

  /** Vector2.Lerp: a + (b - a) * t. */
  function Lerp(a: Vec, b: Vec, t: real): (r: Vec)
    ensures t == 0.0 ==> r == a
    ensures t == 1.0 ==> r == b
  {
    Add(a, Scale(Sub(b, a), t))
  }

  /** Math.Sign on a float, as a real. */
  function Sign(r: real): (s: real)
    ensures s == -1.0 || s == 0.0 || s == 1.0
    ensures (s > 0.0 <==> r > 0.0) && (s < 0.0 <==> r < 0.0)
  {
    if r > 0.0 then 1.0 else if r < 0.0 then -1.0 else 0.0
  }

  /** Monocle's Calc.Sign on a vector: the sign of each component. */
  function SignVec(v: Vec): Vec { Vec(Sign(v.x), Sign(v.y)) }

  /** Calc.Approach: move `val` toward `target` by at most `maxMove`. */
  function Approach(val: real, target: real, maxMove: real): (r: real)
    requires maxMove >= 0.0
    ensures val <= target ==> val <= r <= target
    ensures val >= target ==> target <= r <= val
    ensures r - val <= maxMove && val - r <= maxMove
    ensures r == target <==> (val - target <= maxMove && target - val <= maxMove)
    ensures !(val - target <= maxMove && target - val <= maxMove) ==>
      r == (if val <= target then val + maxMove else val - maxMove)
  {
    if val <= target then Min(val + maxMove, target) else Max(val - maxMove, target)
  }

  function Min(a: real, b: real): real { if a <= b then a else b }

  function Max(a: real, b: real): real { if a >= b then a else b }

  predicate IsUnit(v: Vec) { v.x * v.x + v.y * v.y == 1.0 }

  /** `n` is what Vector2.SafeNormalize returns for `v`: zero for the zero
      vector, otherwise the unit vector pointing the same way. */
  predicate IsSafeNormalOf(n: Vec, v: Vec)
  {
    if v == Zero then n == Zero
    else IsUnit(n) && n.x * v.y == n.y * v.x && n.x * v.x + n.y * v.y > 0.0
  }

  /** A vector with at most one non-zero component. */
  predicate AxisAligned(v: Vec) { v.x == 0.0 || v.y == 0.0 }

  /** For an axis-aligned vector the component-wise sign is its SafeNormalize. */
  lemma AxisSignIsSafeNormal(v: Vec)
    requires AxisAligned(v)
    ensures IsSafeNormalOf(SignVec(v), v)
  {
    var n := SignVec(v);
    if v != Zero {
      if v.x == 0.0 {
        assert n.x == 0.0 && n.y * n.y == 1.0;
        assert n.y * v.y > 0.0 by {
          if v.y > 0.0 { assert n.y == 1.0; } else { assert n.y == -1.0; }
        }
      } else {
        assert v.y == 0.0 && n.y == 0.0 && n.x * n.x == 1.0;
        assert n.x * v.x > 0.0 by {
          if v.x > 0.0 { assert n.x == 1.0; } else { assert n.x == -1.0; }
        }
      }
    }
  }

  /** The point `k` unit steps of `n` away from `p`. */
  function StepPos(p: Vec, n: Vec, k: nat): Vec { Add(p, Scale(n, k as real)) }

  lemma StepPosSucc(p: Vec, n: Vec, k: nat)
    ensures StepPos(Add(p, n), n, k) == StepPos(p, n, k + 1)
  {
    assert (k + 1) as real * n.x == k as real * n.x + n.x;
    assert (k + 1) as real * n.y == k as real * n.y + n.y;
  }
}
