/** norm_rgb: scaling primary weights so that the most intense is 1. */
module Normalise {
  import opened ColorTypes
  import opened Gamut

  /** The weights divided by the greatest of them when that is positive;
      otherwise the weights unchanged. */
  function Normalised(c: Rgb): (n: Rgb)
    ensures var m := Max3(c.r, c.g, c.b);
      && (m > 0.0 ==> Max3(n.r, n.g, n.b) == 1.0 && n.r <= 1.0 && n.g <= 1.0 && n.b <= 1.0)
      && (m > 0.0 ==> n.r * m == c.r && n.g * m == c.g && n.b * m == c.b)
      && (m <= 0.0 ==> n == c)
  {
    var m := Max3(c.r, c.g, c.b);
    if m > 0.0 then Rgb(c.r / m, c.g / m, c.b / m) else c
  }

  /** norm_rgb in place: find the greatest weight, then divide every weight by it. */
  method NormRgb(r: real, g: real, b: real) returns (r': real, g': real, b': real)
    ensures Rgb(r', g', b') == Normalised(Rgb(r, g, b))
  {
    r', g', b' := r, g, b;
    var greatest := Max(r, Max(g, b));
    assert greatest == Max3(r, g, b);
    if greatest > 0.0 {
      r' := r' / greatest;
      g' := g' / greatest;
      b' := b' / greatest;
    }
  }

  /** Normalising twice is normalising once. */
  lemma NormalisedIdempotent(c: Rgb)
    ensures Normalised(Normalised(c)) == Normalised(c)
  {
    var m := Max3(c.r, c.g, c.b);
    if m > 0.0 {
      var n := Normalised(c);
      assert Max3(n.r, n.g, n.b) == 1.0;
      assert Normalised(n) == Rgb(n.r / 1.0, n.g / 1.0, n.b / 1.0);
    }
  }

  /** Normalising keeps the ratios between the weights and their signs, so it
      keeps a colour inside or outside the gamut. */
  lemma NormalisedPreservesGamut(c: Rgb)
    ensures InsideGamut(Normalised(c)) <==> InsideGamut(c)
  {
    var m := Max3(c.r, c.g, c.b);
    if m > 0.0 {
      var n := Normalised(c);
      SignPreserved(c.r, n.r, m);
      SignPreserved(c.g, n.g, m);
      SignPreserved(c.b, n.b, m);
    }
  }

  lemma SignPreserved(x: real, y: real, m: real)
    requires m > 0.0 && y * m == x
    ensures y >= 0.0 <==> x >= 0.0
  {
    if y < 0.0 {
      assert y * m < 0.0;
    }
    if y >= 0.0 {
      assert y * m >= 0.0;
    }
  }

  /** A colour constrained into the gamut and then normalised has every weight
      in [0, 1], the range a display channel takes. */
  lemma ConstrainThenNormaliseInRange(c: Rgb)
    ensures var n := Normalised(Desaturated(c));
      0.0 <= n.r <= 1.0 && 0.0 <= n.g <= 1.0 && 0.0 <= n.b <= 1.0
  {
    var d := Desaturated(c);
    NormalisedPreservesGamut(d);
  }
}
