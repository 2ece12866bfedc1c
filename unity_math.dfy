/** The parts of Unity's vector types and of `Mathf` that the game code relies on.
    A C# `float` is modelled as a `real`: rounding is not modelled. */
module UnityMath {

  /** `Vector2`: a pair of reals with the component-wise operators the game uses. */
  datatype Vec2 = Vec2(x: real, y: real) {
    function Plus(o: Vec2): Vec2 { Vec2(x + o.x, y + o.y) }
    function Minus(o: Vec2): Vec2 { Vec2(x - o.x, y - o.y) }
    function Scaled(k: real): Vec2 { Vec2(k * x, k * y) }
    function Negated(): Vec2 { Vec2(-x, -y) }

    /** `Vector2.sqrMagnitude`. */
    function SqrMagnitude(): (r: real)
      ensures r >= 0.0
    {
      x * x + y * y
    }
  }

  /** `Vector3`, used only for positions that are saved and restored. */
  datatype Vec3 = Vec3(x: real, y: real, z: real)

  const Zero2 := Vec2(0.0, 0.0)
  /** `Vector2.up` and `Vector2.right`. */
  const Up := Vec2(0.0, 1.0)
  const Right := Vec2(1.0, 0.0)

  function Dot(a: Vec2, b: Vec2): real { a.x * b.x + a.y * b.y }

  /** `Mathf.Abs`. */
  function Abs(v: real): (r: real)
    ensures r >= 0.0 && (r == v || r == -v)
  {
    if v < 0.0 then -v else v
  }

  /** `Mathf.Max(a, b)`. */
  function Max(a: real, b: real): (r: real)
    ensures r >= a && r >= b && (r == a || r == b)
  {
    if a > b then a else b
  }

  /** `Mathf.Max(int, int)`. */
  function MaxInt(a: int, b: int): (r: int)
    ensures r >= a && r >= b && (r == a || r == b)
  {
    if a > b then a else b
  }

  /** `Mathf.Clamp(value, min, max)`: the lower bound is tested first, so when
      `min > max` a value below `min` yields `min` and any other value yields `max`. */
  function Clamp(value: real, min: real, max: real): (r: real)
    ensures min <= max ==> min <= r <= max
    ensures min <= value <= max ==> r == value
    ensures value < min ==> r == min
  {
    if value < min then min else if value > max then max else value
  }

  /** `Mathf.Clamp(int, int, int)`, same shape as the float overload. */
  function ClampInt(value: int, min: int, max: int): (r: int)
    ensures min <= max ==> min <= r <= max
    ensures min <= value <= max ==> r == value
    ensures value < min ==> r == min
    ensures min <= max && value > max ==> r == max
  {
    if value < min then min else if value > max then max else value
  }

  /** `Mathf.Clamp01`. */
  function Clamp01(value: real): (r: real)
    ensures 0.0 <= r <= 1.0
    ensures 0.0 <= value <= 1.0 ==> r == value
    ensures value <= 0.0 ==> r == 0.0
    ensures value >= 1.0 ==> r == 1.0
  {
    if value < 0.0 then 0.0 else if value > 1.0 then 1.0 else value
  }

  /** `Mathf.Lerp(a, b, t)`: `t` is clamped into [0, 1] first. */
  function Lerp(a: real, b: real, t: real): (r: real)
    ensures t <= 0.0 ==> r == a
    ensures t >= 1.0 ==> r == b
  {
    LerpUnclamped(a, b, Clamp01(t))
  }

  /** `Mathf.LerpUnclamped(a, b, c)`. */
  function LerpUnclamped(a: real, b: real, c: real): real
  {
    a + (b - a) * c
  }

  /** With ordered ends and a fraction in [0, 1], the blend stays between the ends. */
  lemma UnclampedBetween(a: real, b: real, c: real)
    requires a <= b && 0.0 <= c <= 1.0
    ensures a <= LerpUnclamped(a, b, c) <= b
  {
    MulMonotone(b - a, 0.0, c);
    MulMonotone(b - a, c, 1.0);
  }

  /** With ordered ends, the blend grows with the fraction. */
  lemma UnclampedMonotone(a: real, b: real, c1: real, c2: real)
    requires a <= b && c1 <= c2
    ensures LerpUnclamped(a, b, c1) <= LerpUnclamped(a, b, c2)
  {
    MulMonotone(b - a, c1, c2);
  }

  /** With ordered ends, `Lerp` stays between them. */
  lemma LerpBetween(a: real, b: real, t: real)
    requires a <= b
    ensures a <= Lerp(a, b, t) <= b
  {
    UnclampedBetween(a, b, Clamp01(t));
  }

  /** `Lerp` stays between its ends, whichever of the two is larger. */
  lemma LerpWithin(a: real, b: real, t: real)
    ensures a <= b ==> a <= Lerp(a, b, t) <= b
    ensures b <= a ==> b <= Lerp(a, b, t) <= a
  {
    if a <= b {
      LerpBetween(a, b, t);
    }
    if b <= a {
      LerpBetweenDescending(a, b, t);
    }
  }

  lemma LerpBetweenDescending(a: real, b: real, t: real)
    requires b <= a
    ensures b <= Lerp(a, b, t) <= a
  {
    UnclampedBetweenDescending(a, b, Clamp01(t));
  }

  lemma UnclampedBetweenDescending(a: real, b: real, c: real)
    requires b <= a && 0.0 <= c <= 1.0
    ensures b <= LerpUnclamped(a, b, c) <= a
  {
    MulAntitone(b - a, 0.0, c);
    MulAntitone(b - a, c, 1.0);
  }

  /** Multiplying by a non-positive factor reverses the order. */
  lemma MulAntitone(k: real, x: real, y: real)
    requires k <= 0.0 && x <= y
    ensures k * y <= k * x
  {
    MulMonotone(-k, x, y);
    assert k * y == -((-k) * y);
    assert k * x == -((-k) * x);
  }

  /** A non-negative amount times a fraction in [0, 1] is at most the amount. */
  lemma ScaledDown(k: real, r: real)
    ensures k >= 0.0 && 0.0 <= r <= 1.0 ==> 0.0 <= k * r <= k
  {
    if k >= 0.0 && 0.0 <= r <= 1.0 {
      MulMonotone(k, r, 1.0);
      MulMonotone(k, 0.0, r);
    }
  }

  /** Multiplying by a non-negative factor keeps the order. */
  lemma MulMonotone(k: real, x: real, y: real)
    requires k >= 0.0 && x <= y
    ensures k * x <= k * y
  {
    assert k * y - k * x == k * (y - x);
    assert k * (y - x) >= 0.0;
  }

  /** `Mathf.InverseLerp(a, b, v)`: where `v` lies between `a` and `b`, as a
      fraction clamped into [0, 1]; 0 when the bounds coincide. */
  function InverseLerp(a: real, b: real, v: real): (r: real)
    ensures 0.0 <= r <= 1.0
    ensures a < b && v <= a ==> r == 0.0
    ensures a < b && v >= b ==> r == 1.0
  {
    if a != b then
      FractionEnds(v - a, b - a);
      Clamp01((v - a) / (b - a))
    else
      0.0
  }

  /** `Mathf.Sign`: zero counts as positive. */
  function Sign(v: real): (r: real)
    ensures r == 1.0 || r == -1.0
    ensures r == 1.0 <==> v >= 0.0
  {
    if v >= 0.0 then 1.0 else -1.0
  }

  /** `Lerp` is non-decreasing in its parameter when its ends are ordered. */
  lemma LerpMonotone(a: real, b: real, t1: real, t2: real)
    requires a <= b && t1 <= t2
    ensures Lerp(a, b, t1) <= Lerp(a, b, t2)
  {
    assert Clamp01(t1) <= Clamp01(t2);
    UnclampedMonotone(a, b, Clamp01(t1), Clamp01(t2));
  }

  /** `InverseLerp` is non-decreasing in its value when `a <= b`. */
  lemma InverseLerpMonotone(a: real, b: real, v1: real, v2: real)
    requires a <= b && v1 <= v2
    ensures InverseLerp(a, b, v1) <= InverseLerp(a, b, v2)
  {
    if a != b {
      assert (v1 - a) / (b - a) <= (v2 - a) / (b - a) by {
        DivMonotone(v1 - a, v2 - a, b - a);
      }
    }
  }

  lemma FractionEnds(p: real, d: real)
    requires d != 0.0
    ensures d > 0.0 && p <= 0.0 ==> p / d <= 0.0
    ensures d > 0.0 && p >= d ==> p / d >= 1.0
  {
    if d > 0.0 && p <= 0.0 {
      DivMonotone(p, 0.0, d);
    }
    if d > 0.0 && p >= d {
      DivMonotone(d, p, d);
    }
  }

  /** Dividing by a positive divisor keeps the order. */
  lemma DivMonotone(p: real, q: real, d: real)
    requires p <= q && d > 0.0
    ensures p / d <= q / d
  {
    assert q / d - p / d == (q - p) / d;
    assert (q - p) / d >= 0.0;
  }

  /** `Lerp` between the ends and `InverseLerp` compose into a linear ramp:
      for `0 <= e <= d`, `Lerp(0, g, e / d) == g * e / d`. */
  lemma LerpFromZeroIsLinear(g: real, e: real, d: real)
    requires d > 0.0 && 0.0 <= e <= d
    ensures Lerp(0.0, g, e / d) == g * (e / d)
  {
    FractionInUnit(e, d);
  }

  /** A part no larger than a positive whole is a fraction in [0, 1]. */
  lemma FractionInUnit(p: real, d: real)
    requires d > 0.0 && 0.0 <= p <= d
    ensures 0.0 <= p / d <= 1.0
  {
    DivMonotone(0.0, p, d);
    DivMonotone(p, d, d);
  }
}
