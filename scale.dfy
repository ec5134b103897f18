/**
  The score range of src/scale.py: a bounded interval [min, max] with a derived
  centre (`mean`) and unit (`sigma`), and the translation of a z-score back
  into the interval.
 */
module Scales {

  function Min(a: real, b: real): real { if a <= b then a else b }
  function Max(a: real, b: real): real { if a >= b then a else b }

  /** The integers lo, lo+1, ..., hi-1 (numpy's arange with step 1). */
  function Range(lo: int, hi: int): seq<int>
    decreases hi - lo
  {
    if lo >= hi then [] else [lo] + Range(lo + 1, hi)
  }

  /** An immutable score range; `Scale()` is the default range 1..10. */
  datatype Scale = Scale(min: int := 1, max: int := 10) {

    /** The centre of the range: as far from `min` as from `max`. */
    function Mean(): (m: real)
      ensures m - min as real == max as real - m
      ensures min <= max ==> min as real <= m <= max as real
    {
      (min + max) as real / 2.0
    }

    /** One standard unit: three of them reach from the centre to either bound. */
    function Sigma(): (sg: real)
      ensures 6.0 * sg == (max - min) as real
      ensures Mean() + 3.0 * sg == max as real && Mean() - 3.0 * sg == min as real
      ensures min <= max ==> sg >= 0.0
      ensures min < max ==> sg > 0.0
    {
      (max as real - Mean()) / 3.0
    }

    /** The integers from `min` to `max`, both included, counting up by one. */
    function Arange(): (r: seq<int>)
      ensures |r| == if min <= max then max - min + 1 else 0
      ensures forall i :: 0 <= i < |r| ==> r[i] == min + i
    {
      RangeElements(min, max + 1);
      Range(min, max + 1)
    }

    /** z * sigma + mean, clamped into [min, max]. */
    function TranslateZ(z: real): (r: real)
      ensures min <= max ==> min as real <= r <= max as real
    {
      Max(Min(z * Sigma() + Mean(), max as real), min as real)
    }
  }

  /** Within three sigmas of the centre nothing is clamped. */
  lemma TranslateZUnclamped(s: Scale, z: real)
    requires s.min <= s.max
    requires -3.0 <= z <= 3.0
    ensures s.TranslateZ(z) == z * s.Sigma() + s.Mean()
  {
    NonNegativeProduct(3.0 - z, s.Sigma());
    NonNegativeProduct(z + 3.0, s.Sigma());
  }

  lemma NonNegativeProduct(a: real, b: real)
    requires a >= 0.0 && b >= 0.0
    ensures a * b >= 0.0
  {
  }

  /** Zero maps to the centre, +3 to `max` and -3 to `min`. */
  lemma TranslateZLandmarks(s: Scale)
    requires s.min <= s.max
    ensures s.TranslateZ(0.0) == s.Mean()
    ensures s.TranslateZ(3.0) == s.max as real
    ensures s.TranslateZ(-3.0) == s.min as real
  {
  }

  /** Beyond three sigmas the result sticks to the nearer bound. */
  lemma TranslateZSaturates(s: Scale, z: real)
    requires s.min <= s.max
    ensures z >= 3.0 ==> s.TranslateZ(z) == s.max as real
    ensures z <= -3.0 ==> s.TranslateZ(z) == s.min as real
  {
    if z >= 3.0 {
      NonNegativeProduct(z - 3.0, s.Sigma());
    }
    if z <= -3.0 {
      NonNegativeProduct(-3.0 - z, s.Sigma());
    }
  }

  /** A larger z-score never gives a smaller value (for any bounds). */
  lemma TranslateZMonotone(s: Scale, z1: real, z2: real)
    requires z1 <= z2
    ensures s.TranslateZ(z1) <= s.TranslateZ(z2)
  {
    if s.min <= s.max {
      NonNegativeProduct(z2 - z1, s.Sigma());
      assert z1 * s.Sigma() <= z2 * s.Sigma();
    }
  }

  /** The result is the point of [min, max] nearest to z * sigma + mean. */
  lemma TranslateZIsNearest(s: Scale, z: real, y: real)
    requires s.min <= s.max
    requires s.min as real <= y <= s.max as real
    ensures var t := z * s.Sigma() + s.Mean();
            var r := s.TranslateZ(z);
            (if r >= t then r - t else t - r) <= (if y >= t then y - t else t - y)
  {
  }

  /** The default range 1..10. */
  lemma DefaultScale()
    ensures Scale().min == 1 && Scale().max == 10
    ensures Scale().Mean() == 5.5 && Scale().Sigma() == 1.5
    ensures Scale().TranslateZ(0.0) == 5.5
    ensures Scale().TranslateZ(100.0) == 10.0 && Scale().TranslateZ(-100.0) == 1.0
    ensures Scale().Arange() == [1, 2, 3, 4, 5, 6, 7, 8, 9, 10]
  {
  }

  /** Range(lo, hi) counts up from lo in steps of one and stops before hi. */
  lemma {:induction false} RangeElements(lo: int, hi: int)
    ensures |Range(lo, hi)| == if lo <= hi then hi - lo else 0
    ensures forall i :: 0 <= i < |Range(lo, hi)| ==> Range(lo, hi)[i] == lo + i
    decreases hi - lo
  {
    if lo < hi {
      RangeElements(lo + 1, hi);
    }
  }

  /**
    Arange is strictly increasing and holds exactly the integers of
    [min, max].
   */
  lemma ArangeSpec(s: Scale)
    ensures forall i, j :: 0 <= i < j < |s.Arange()| ==> s.Arange()[i] < s.Arange()[j]
    ensures forall x :: x in s.Arange() <==> s.min <= x <= s.max
  {
    var a := s.Arange();
    forall x | s.min <= x <= s.max
      ensures x in a
    {
      assert a[x - s.min] == x;
    }
  }
}
