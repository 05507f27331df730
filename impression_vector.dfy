/**
 * The eight-dimensional impression vector (LoreGen.Core.ImpressionVector). The C# struct has
 * `float` fields; here they are `real`, so rounding is not modelled.
 */
module Impressions {

  /** The eight dimensions, in declaration order. */
  datatype Dimension =
    | Hardness | Sharpness | Complexity | Rhythmicity
    | Antiquity | Formality | Exoticism | Mysticism

  /** A value struct; every field defaults to 0 as in `new ImpressionVector()`. */
  datatype ImpressionVector = ImpressionVector(
    Hardness: real := 0.0,
    Sharpness: real := 0.0,
    Complexity: real := 0.0,
    Rhythmicity: real := 0.0,
    Antiquity: real := 0.0,
    Formality: real := 0.0,
    Exoticism: real := 0.0,
    Mysticism: real := 0.0)
  {
    /** The component along dimension `d`. */
    function At(d: Dimension): real {
      match d
      case Hardness => this.Hardness
      case Sharpness => this.Sharpness
      case Complexity => this.Complexity
      case Rhythmicity => this.Rhythmicity
      case Antiquity => this.Antiquity
      case Formality => this.Formality
      case Exoticism => this.Exoticism
      case Mysticism => this.Mysticism
    }

    /** Every component lies in [0, 1], the range `ImpressionVector.cs:12,26` documents for each dimension (0.0 ~ 1.0). */
    predicate InRange() {
      forall d: Dimension :: 0.0 <= At(d) <= 1.0
    }

    /** `Normalize`: every component clamped into [0, 1]. */
    function Normalize(): (r: ImpressionVector)
      ensures forall d: Dimension :: r.At(d) == MathClamp(At(d), 0.0, 1.0)
      ensures r.InRange()
    {
      ImpressionVector(
        Hardness := MathClamp(this.Hardness, 0.0, 1.0),
        Sharpness := MathClamp(this.Sharpness, 0.0, 1.0),
        Complexity := MathClamp(this.Complexity, 0.0, 1.0),
        Rhythmicity := MathClamp(this.Rhythmicity, 0.0, 1.0),
        Antiquity := MathClamp(this.Antiquity, 0.0, 1.0),
        Formality := MathClamp(this.Formality, 0.0, 1.0),
        Exoticism := MathClamp(this.Exoticism, 0.0, 1.0),
        Mysticism := MathClamp(this.Mysticism, 0.0, 1.0))
    }
  }

  /** `ImpressionVector.Zero`: the vector with every component 0. */
  function Zero(): (z: ImpressionVector)
    ensures forall d: Dimension :: z.At(d) == 0.0
  {
    ImpressionVector()
  }

  /** `Math.Clamp(value, min, max)`; .NET throws when `min > max`, which no caller here does. */
  function MathClamp(value: real, min: real, max: real): (r: real)
    requires min <= max
    ensures min <= r <= max
    ensures min <= value <= max ==> r == value
    ensures value < min ==> r == min
    ensures value > max ==> r == max
  {
    if value < min then min else if value > max then max else value
  }

  /** Two vectors that agree on every dimension are equal. */
  lemma {:induction false} Extensionality(a: ImpressionVector, b: ImpressionVector)
    requires forall d: Dimension :: a.At(d) == b.At(d)
    ensures a == b
  {
    assert a.At(Hardness) == b.At(Hardness) && a.At(Sharpness) == b.At(Sharpness);
    assert a.At(Complexity) == b.At(Complexity) && a.At(Rhythmicity) == b.At(Rhythmicity);
    assert a.At(Antiquity) == b.At(Antiquity) && a.At(Formality) == b.At(Formality);
    assert a.At(Exoticism) == b.At(Exoticism) && a.At(Mysticism) == b.At(Mysticism);
  }

  /** Normalizing leaves an in-range vector as it is. */
  lemma {:induction false} NormalizeIdentityOnRange(v: ImpressionVector)
    requires v.InRange()
    ensures v.Normalize() == v
  {
    Extensionality(v.Normalize(), v);
  }

  /** Normalizing twice is normalizing once. */
  lemma {:induction false} NormalizeIdempotent(v: ImpressionVector)
    ensures v.Normalize().Normalize() == v.Normalize()
  {
    NormalizeIdentityOnRange(v.Normalize());
  }

  /** The linear interpolation `x*(1-w) + y*w` of one component. */
  function Mix(x: real, y: real, w: real): real {
    x * (1.0 - w) + y * w
  }

  /** `Blend(a, b, weight)`: the weight is clamped into [0, 1], then each component is `a*(1-w) + b*w`. */
  function Blend(a: ImpressionVector, b: ImpressionVector, weight: real): (r: ImpressionVector)
    ensures forall d: Dimension :: r.At(d) == Mix(a.At(d), b.At(d), MathClamp(weight, 0.0, 1.0))
  {
    var w := MathClamp(weight, 0.0, 1.0);
    ImpressionVector(
      Hardness := Mix(a.Hardness, b.Hardness, w),
      Sharpness := Mix(a.Sharpness, b.Sharpness, w),
      Complexity := Mix(a.Complexity, b.Complexity, w),
      Rhythmicity := Mix(a.Rhythmicity, b.Rhythmicity, w),
      Antiquity := Mix(a.Antiquity, b.Antiquity, w),
      Formality := Mix(a.Formality, b.Formality, w),
      Exoticism := Mix(a.Exoticism, b.Exoticism, w),
      Mysticism := Mix(a.Mysticism, b.Mysticism, w))
  }

  /** A weight at or below 0 gives the first vector, at or above 1 the second. */
  lemma {:induction false} BlendEndpoints(a: ImpressionVector, b: ImpressionVector, weight: real)
    ensures weight <= 0.0 ==> Blend(a, b, weight) == a
    ensures weight >= 1.0 ==> Blend(a, b, weight) == b
  {
    if weight <= 0.0 {
      forall d: Dimension ensures Blend(a, b, weight).At(d) == a.At(d) {
        assert Mix(a.At(d), b.At(d), 0.0) == a.At(d);
      }
      Extensionality(Blend(a, b, weight), a);
    }
    if weight >= 1.0 {
      forall d: Dimension ensures Blend(a, b, weight).At(d) == b.At(d) {
        assert Mix(a.At(d), b.At(d), 1.0) == b.At(d);
      }
      Extensionality(Blend(a, b, weight), b);
    }
  }

  /** Weight 0.5 gives the componentwise midpoint. */
  lemma {:induction false} BlendHalfIsMidpoint(a: ImpressionVector, b: ImpressionVector)
    ensures forall d: Dimension :: Blend(a, b, 0.5).At(d) == (a.At(d) + b.At(d)) / 2.0
  {
    forall d: Dimension ensures Blend(a, b, 0.5).At(d) == (a.At(d) + b.At(d)) / 2.0 {
      assert Mix(a.At(d), b.At(d), 0.5) == (a.At(d) + b.At(d)) / 2.0;
    }
  }

  /** A convex combination of two numbers in [0, 1] stays in [0, 1]. */
  lemma ConvexInUnit(x: real, y: real, w: real)
    requires 0.0 <= x <= 1.0 && 0.0 <= y <= 1.0 && 0.0 <= w <= 1.0
    ensures 0.0 <= Mix(x, y, w) <= 1.0
  {
    assert 0.0 <= x * (1.0 - w) <= 1.0 - w;
    assert 0.0 <= y * w <= w;
  }

  /** Blending two in-range vectors gives an in-range vector, whatever the weight. */
  lemma {:induction false} BlendInRange(a: ImpressionVector, b: ImpressionVector, weight: real)
    requires a.InRange() && b.InRange()
    ensures Blend(a, b, weight).InRange()
  {
    var w := MathClamp(weight, 0.0, 1.0);
    forall d: Dimension ensures 0.0 <= Blend(a, b, weight).At(d) <= 1.0 {
      ConvexInUnit(a.At(d), b.At(d), w);
    }
  }

  /** The componentwise sum, the step of the running total in `NameGenerator.CalculateImpression`. */
  function Add(a: ImpressionVector, b: ImpressionVector): (r: ImpressionVector)
    ensures forall d: Dimension :: r.At(d) == a.At(d) + b.At(d)
  {
    ImpressionVector(
      Hardness := a.Hardness + b.Hardness,
      Sharpness := a.Sharpness + b.Sharpness,
      Complexity := a.Complexity + b.Complexity,
      Rhythmicity := a.Rhythmicity + b.Rhythmicity,
      Antiquity := a.Antiquity + b.Antiquity,
      Formality := a.Formality + b.Formality,
      Exoticism := a.Exoticism + b.Exoticism,
      Mysticism := a.Mysticism + b.Mysticism)
  }

  /** Every component divided by `n`. */
  function DivideBy(a: ImpressionVector, n: real): (r: ImpressionVector)
    requires n != 0.0
    ensures forall d: Dimension :: r.At(d) == a.At(d) / n
  {
    ImpressionVector(
      Hardness := a.Hardness / n,
      Sharpness := a.Sharpness / n,
      Complexity := a.Complexity / n,
      Rhythmicity := a.Rhythmicity / n,
      Antiquity := a.Antiquity / n,
      Formality := a.Formality / n,
      Exoticism := a.Exoticism / n,
      Mysticism := a.Mysticism / n)
  }
}
