/** The vector types and the common functions of the OpenGL ES Shading Language
    1.00 (section 8.3, "Common Functions") that the grass shaders use, over the
    real numbers. GPU floating point is not modelled: every value here is exact. */
module Glsl {
  import opened RealFacts

  datatype Vec2 = Vec2(x: real, y: real)

  datatype Vec3 = Vec3(x: real, y: real, z: real)

  datatype Vec4 = Vec4(x: real, y: real, z: real, w: real) {
    /** The `.rgb` / `.xyz` swizzle. */
    function Xyz(): Vec3 {
      Vec3(x, y, z)
    }
  }

  /** mix(x, y, a): the linear blend x*(1-a) + y*a, which is x at a = 0 and y at a = 1. */
  function Mix(x: real, y: real, a: real): (r: real)
    ensures a == 0.0 ==> r == x
    ensures a == 1.0 ==> r == y
    ensures 0.0 <= a <= 1.0 && x <= y ==> x <= r <= y
    ensures 0.0 <= a <= 1.0 && y <= x ==> y <= r <= x
  {
    assert x * (1.0 - a) + y * a == x + a * (y - x);
    assert 0.0 <= a <= 1.0 ==> Between(x, y, x + a * (y - x)) by {
      if 0.0 <= a <= 1.0 { StepBetween(x, y, a); }
    }
    x * (1.0 - a) + y * a
  }

  /** r lies between x and y, whichever of them is the smaller. */
  ghost predicate Between(x: real, y: real, r: real) {
    (x <= y ==> x <= r <= y) && (y <= x ==> y <= r <= x)
  }

  lemma StepBetween(x: real, y: real, a: real)
    requires 0.0 <= a <= 1.0
    ensures Between(x, y, x + a * (y - x))
  {
    if x <= y {
      MulNonneg(a, y - x);
      MulNonneg(1.0 - a, y - x);
    } else {
      MulNonneg(a, x - y);
      MulNonneg(1.0 - a, x - y);
    }
  }

  /** mix on three-component vectors, component by component. */
  function Mix3(p: Vec3, q: Vec3, a: real): (r: Vec3)
    ensures a == 0.0 ==> r == p
    ensures a == 1.0 ==> r == q
  {
    Vec3(Mix(p.x, q.x, a), Mix(p.y, q.y, a), Mix(p.z, q.z, a))
  }

  /** Blending from x toward y never moves back: a larger weight lands nearer y. */
  lemma MixMonotone(x: real, y: real, a1: real, a2: real)
    requires a1 <= a2
    ensures x <= y ==> Mix(x, y, a1) <= Mix(x, y, a2)
    ensures y <= x ==> Mix(x, y, a2) <= Mix(x, y, a1)
  {
    assert Mix(x, y, a2) - Mix(x, y, a1) == (a2 - a1) * (y - x);
    if x <= y { MulNonneg(a2 - a1, y - x); } else { MulNonneg(a2 - a1, x - y); }
  }

  /** Blending two blends by the same pair of weights does not depend on the order
      of the two blends (bilinear interpolation). */
  lemma MixCommutes(x0: real, x1: real, y0: real, y1: real, a: real, b: real)
    ensures Mix(Mix(x0, x1, a), Mix(y0, y1, a), b) == Mix(Mix(x0, y0, b), Mix(x1, y1, b), a)
  {
    var d := (y1 - y0) - (x1 - x0);
    var normal := x0 + a * (x1 - x0) + b * (y0 - x0) + (a * b) * d;
    MixStep(x0, x1, a);
    MixStep(y0, y1, a);
    MixStep(x0, y0, b);
    MixStep(x1, y1, b);
    MixStep(Mix(x0, x1, a), Mix(y0, y1, a), b);
    MixStep(Mix(x0, y0, b), Mix(x1, y1, b), a);
    assert b * ((y0 + a * (y1 - y0)) - (x0 + a * (x1 - x0))) == b * (y0 - x0) + (a * b) * d;
    assert a * ((x1 + b * (y1 - x1)) - (x0 + b * (y0 - x0))) == a * (x1 - x0) + (a * b) * d;
  }

  /** mix as a step from x toward y. */
  lemma MixStep(x: real, y: real, a: real)
    ensures Mix(x, y, a) == x + a * (y - x)
  {
  }

  /** clamp(x, minVal, maxVal) = min(max(x, minVal), maxVal); undefined when minVal > maxVal. */
  function Clamp(x: real, lo: real, hi: real): (r: real)
    requires lo <= hi
    ensures lo <= r <= hi
    ensures lo <= x <= hi ==> r == x
    ensures x <= lo ==> r == lo
    ensures hi <= x ==> r == hi
  {
    var m := if x < lo then lo else x;
    if m > hi then hi else m
  }

  /** smoothstep(edge0, edge1, x): the Hermite ease t*t*(3 - 2t) of
      t = clamp((x - edge0) / (edge1 - edge0), 0, 1); undefined when edge0 >= edge1. */
  function Smoothstep(edge0: real, edge1: real, x: real): (r: real)
    requires edge0 < edge1
    ensures 0.0 <= r <= 1.0
    ensures x <= edge0 ==> r == 0.0
    ensures edge1 <= x ==> r == 1.0
  {
    var t := Clamp((x - edge0) / (edge1 - edge0), 0.0, 1.0);
    EaseInUnit(t);
    assert edge1 <= x ==> t == 1.0 by {
      if edge1 <= x { QuotientAtLeastOne(x - edge0, edge1 - edge0); }
    }
    assert x <= edge0 ==> t == 0.0 by {
      if x <= edge0 { DivMonotone(x - edge0, 0.0, edge1 - edge0); }
    }
    t * t * (3.0 - 2.0 * t)
  }

  /** The Hermite ease maps [0, 1] into [0, 1]. */
  lemma EaseInUnit(t: real)
    requires 0.0 <= t <= 1.0
    ensures 0.0 <= t * t * (3.0 - 2.0 * t) <= 1.0
  {
    MulNonneg(t, t);
    MulNonneg(t * t, 3.0 - 2.0 * t);
    assert 1.0 - t * t * (3.0 - 2.0 * t) == (1.0 - t) * (1.0 - t) * (1.0 + 2.0 * t);
    MulNonneg(1.0 - t, 1.0 - t);
    MulNonneg((1.0 - t) * (1.0 - t), 1.0 + 2.0 * t);
  }

  /** The Hermite ease is non-decreasing on [0, 1]. */
  lemma EaseMonotone(s: real, t: real)
    requires 0.0 <= s <= t <= 1.0
    ensures s * s * (3.0 - 2.0 * s) <= t * t * (3.0 - 2.0 * t)
  {
    var k := s * (3.0 - 2.0 * s - t) + t * (3.0 - s - 2.0 * t);
    assert t * t * (3.0 - 2.0 * t) - s * s * (3.0 - 2.0 * s) == (t - s) * k;
    MulNonneg(s, 3.0 - 2.0 * s - t);
    MulNonneg(t, 3.0 - s - 2.0 * t);
    MulNonneg(t - s, k);
  }

  /** smoothstep is non-decreasing in x. */
  lemma SmoothstepMonotone(edge0: real, edge1: real, x1: real, x2: real)
    requires edge0 < edge1 && x1 <= x2
    ensures Smoothstep(edge0, edge1, x1) <= Smoothstep(edge0, edge1, x2)
  {
    var w := edge1 - edge0;
    DivMonotone(x1 - edge0, x2 - edge0, w);
    EaseMonotone(Clamp((x1 - edge0) / w, 0.0, 1.0), Clamp((x2 - edge0) / w, 0.0, 1.0));
  }




  /** fract(x) = x - floor(x): the part of x above the integer below it. */
  function Fract(x: real): (r: real)
    ensures 0.0 <= r < 1.0
    ensures (x - r).Floor as real == x - r
  {
    x - x.Floor as real
  }

  /** fract has period one: shifting by a whole number does not change it. */
  lemma FractPeriodic(x: real, n: int)
    ensures Fract(x + n as real) == Fract(x)
  {
    assert (x + n as real).Floor == x.Floor + n;
  }

  /** vec2 * float. */
  function Scale2(v: Vec2, s: real): Vec2 {
    Vec2(v.x * s, v.y * s)
  }

  lemma ScaleByZero(v: Vec2)
    ensures Scale2(v, 0.0) == Vec2(0.0, 0.0)
  {
  }

  /** fract on a vec2, component by component: a point of the unit square. */
  function Fract2(v: Vec2): (r: Vec2)
    ensures 0.0 <= r.x < 1.0 && 0.0 <= r.y < 1.0
  {
    Vec2(Fract(v.x), Fract(v.y))
  }

  /** Two points whose scaled difference is a whole vector have the same fract. */
  lemma Fract2Tiles(c1: Vec2, c2: Vec2, s: real, n: int, m: int)
    requires (c2.x - c1.x) * s == n as real && (c2.y - c1.y) * s == m as real
    ensures Fract2(Scale2(c1, s)) == Fract2(Scale2(c2, s))
  {
    var p1, p2 := Scale2(c1, s), Scale2(c2, s);
    ScaleShift(c1, c2, s, n, m);
    FractPeriodic(p1.x, n);
    FractPeriodic(p1.y, m);
  }

  lemma ScaleShift(c1: Vec2, c2: Vec2, s: real, n: int, m: int)
    requires (c2.x - c1.x) * s == n as real && (c2.y - c1.y) * s == m as real
    ensures Scale2(c2, s).x == Scale2(c1, s).x + n as real
    ensures Scale2(c2, s).y == Scale2(c1, s).y + m as real
  {
  }
}
