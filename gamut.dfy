/** inside_gamut and constrain_rgb: whether primary weights are realisable on
    a display, and desaturation of those that are not by adding white. */
module Gamut {
  import opened ColorTypes
  import opened ColorSystems
  import opened Primaries

  /** A colour is inside the gamut of the primaries when no weight is negative. */
  function InsideGamut(c: Rgb): (inside: bool)
    ensures inside <==> Min3(c.r, c.g, c.b) >= 0.0
  {
    c.r >= 0.0 && c.g >= 0.0 && c.b >= 0.0
  }

  /** Equal quantities w of the three primaries added to c. */
  function AddWhite(c: Rgb, w: real): (d: Rgb)
    ensures Min3(d.r, d.g, d.b) == Min3(c.r, c.g, c.b) + w
    ensures d.r - d.g == c.r - c.g && d.g - d.b == c.g - c.b && d.b - d.r == c.b - c.r
  {
    Rgb(c.r + w, c.g + w, c.b + w)
  }

  /** Amount of white constrain_rgb adds: -min(0, r, g, b). */
  function WhiteNeeded(c: Rgb): (w: real)
    ensures w >= 0.0
    ensures w == 0.0 <==> InsideGamut(c)
    ensures w > 0.0 ==> w == -Min3(c.r, c.g, c.b)
  {
    var m := Min3(c.r, c.g, c.b);
    if m < 0.0 then -m else 0.0
  }

  /** The colour constrain_rgb returns: c with just enough white added to make
      every weight non-negative. */
  function Desaturated(c: Rgb): (d: Rgb)
    ensures InsideGamut(d)
    ensures d == c <==> InsideGamut(c)
    ensures !InsideGamut(c) ==> Min3(d.r, d.g, d.b) == 0.0
    ensures d.r - d.g == c.r - c.g && d.g - d.b == c.g - c.b && d.b - d.r == c.b - c.r
  {
    var w := WhiteNeeded(c);
    if w > 0.0 then AddWhite(c, w) else c
  }

  /** Adding white w brings c inside the gamut exactly when w makes up for the
      most negative weight, so WhiteNeeded is the least non-negative amount
      that does. */
  lemma AddWhiteInsideGamut(c: Rgb, w: real)
    ensures InsideGamut(AddWhite(c, w)) <==> w >= -Min3(c.r, c.g, c.b)
    ensures w >= 0.0 && InsideGamut(AddWhite(c, w)) ==> w >= WhiteNeeded(c)
  {
  }

  /** Desaturation is white added: the result is c plus WhiteNeeded(c). */
  lemma DesaturatedAddsWhite(c: Rgb)
    ensures Desaturated(c) == AddWhite(c, WhiteNeeded(c))
  {
  }

  /** Constraining twice is constraining once. */
  lemma DesaturatedIdempotent(c: Rgb)
    ensures Desaturated(Desaturated(c)) == Desaturated(c)
  {
  }

  /** constrain_rgb, step by step: the amount of white is found by a chain of
      comparisons starting from 0, then added to all three weights. */
  method ConstrainRgb(r: real, g: real, b: real) returns (r': real, g': real, b': real)
    ensures Rgb(r', g', b') == Desaturated(Rgb(r, g, b))
  {
    var w := if 0.0 < r then 0.0 else r;
    w := if w < g then w else g;
    w := if w < b then w else b;
    w := -w;
    r', g', b' := r, g, b;
    if w > 0.0 {
      r', g', b' := r' + w, g' + w, b' + w;
      return;
    }
  }

  /** For a colour system with positive determinant and white scales, the
      weights xyz_to_rgb returns are inside the gamut exactly when the
      requested triple is a non-negative mix of the system's primaries: a colour
      outside the triangle of the primaries gets a negative weight. */
  lemma InsideGamutIffMixable(cs: ColorSystem, c: Xyz)
    requires WellFormed(cs)
    ensures InsideGamut(XyzToRgb(cs, c))
        <==> exists k :: InsideGamut(k) && SystemMix(cs, k) == Scale(SystemDet(cs), c)
  {
    var v := XyzToRgb(cs, c);
    XyzToRgbMixesBack(cs, c);
    if k :| InsideGamut(k) && SystemMix(cs, k) == Scale(SystemDet(cs), c) {
      XyzToRgbUnique(cs, c, k);
    }
  }

  lemma ScaleTwice(d: real, k: real, v: Xyz)
    ensures Scale(d * k, v) == Scale(d, Scale(k, v))
  {
  }

  lemma ScaleSum(d: real, u: Xyz, v: Xyz)
    ensures Add(Scale(d, u), Scale(d, v)) == Scale(d, Add(u, v))
  {
  }

  /** Mixing with the weights d a is mixing with a, scaled by d. */
  lemma MixHomogeneous(p: Matrix, d: real, a: Rgb)
    ensures Mix(p, Rgb(d * a.r, d * a.g, d * a.b)) == Scale(d, Mix(p, a))
  {
    var u, v, w := Scale(a.r, p.r), Scale(a.g, p.g), Scale(a.b, p.b);
    calc {
      Mix(p, Rgb(d * a.r, d * a.g, d * a.b));
      Add(Add(Scale(d * a.r, p.r), Scale(d * a.g, p.g)), Scale(d * a.b, p.b));
      { ScaleTwice(d, a.r, p.r); ScaleTwice(d, a.g, p.g); ScaleTwice(d, a.b, p.b); }
      Add(Add(Scale(d, u), Scale(d, v)), Scale(d, w));
      { ScaleSum(d, u, v); }
      Add(Scale(d, Add(u, v)), Scale(d, w));
      { ScaleSum(d, Add(u, v), w); }
      Scale(d, Add(Add(u, v), w));
    }
  }

  lemma ScaleCancel(d: real, u: Xyz, v: Xyz)
    requires d != 0.0 && Scale(d, u) == Scale(d, v)
    ensures u == v
  {
    Cancel(u.x, v.x, d);
    Cancel(u.y, v.y, d);
    Cancel(u.z, v.z, d);
  }

  lemma QuotientTimes(x: real, d: real)
    requires d != 0.0
    ensures d * (x / d) == x && (x / d) * d == x
  {
  }

  lemma QuotientNonNegative(x: real, d: real)
    requires x >= 0.0 && d > 0.0
    ensures x / d >= 0.0 && d * x >= 0.0
  {
  }

  /** Non-negative weights that mix the s-scaled rows of p to d c give
      non-negative weights that mix the rows of p to c. */
  lemma Unscale(p: Matrix, s: Rgb, d: real, c: Xyz, k: Rgb)
    requires d > 0.0 && s.r > 0.0 && s.g > 0.0 && s.b > 0.0
    requires InsideGamut(k) && Mix(p, Weighted(k, s)) == Scale(d, c)
    ensures exists a :: InsideGamut(a) && Mix(p, a) == c
  {
    var e := Weighted(k, s);
    var a := Rgb(e.r / d, e.g / d, e.b / d);
    QuotientTimes(e.r, d);
    QuotientTimes(e.g, d);
    QuotientTimes(e.b, d);
    QuotientNonNegative(k.r, s.r);
    QuotientNonNegative(k.g, s.g);
    QuotientNonNegative(k.b, s.b);
    QuotientNonNegative(e.r, d);
    QuotientNonNegative(e.g, d);
    QuotientNonNegative(e.b, d);
    assert e == Rgb(d * a.r, d * a.g, d * a.b);
    MixHomogeneous(p, d, a);
    ScaleCancel(d, Mix(p, a), c);
  }

  /** Non-negative weights that mix the rows of p to c give non-negative
      weights that mix the s-scaled rows of p to d c. */
  lemma Rescale(p: Matrix, s: Rgb, d: real, c: Xyz, a: Rgb)
    requires d > 0.0 && s.r > 0.0 && s.g > 0.0 && s.b > 0.0
    requires InsideGamut(a) && Mix(p, a) == c
    ensures exists k :: InsideGamut(k) && Mix(p, Weighted(k, s)) == Scale(d, c)
  {
    var e := Rgb(d * a.r, d * a.g, d * a.b);
    var k := Rgb(e.r / s.r, e.g / s.g, e.b / s.b);
    QuotientTimes(e.r, s.r);
    QuotientTimes(e.g, s.g);
    QuotientTimes(e.b, s.b);
    QuotientNonNegative(a.r, d);
    QuotientNonNegative(a.g, d);
    QuotientNonNegative(a.b, d);
    QuotientNonNegative(e.r, s.r);
    QuotientNonNegative(e.g, s.g);
    QuotientNonNegative(e.b, s.b);
    assert Weighted(k, s) == e;
    MixHomogeneous(p, d, a);
  }

  /** With a positive factor d and positive scales s, some non-negative weights
      mix the s-scaled rows of p to d c exactly when some non-negative weights
      mix the rows of p themselves to c. */
  lemma MixableUnscaled(p: Matrix, s: Rgb, d: real, c: Xyz)
    requires d > 0.0 && s.r > 0.0 && s.g > 0.0 && s.b > 0.0
    ensures (exists k :: InsideGamut(k) && Mix(p, Weighted(k, s)) == Scale(d, c))
        <==> (exists a :: InsideGamut(a) && Mix(p, a) == c)
  {
    if k :| InsideGamut(k) && Mix(p, Weighted(k, s)) == Scale(d, c) {
      Unscale(p, s, d, c, k);
    }
    if a :| InsideGamut(a) && Mix(p, a) == c {
      Rescale(p, s, d, c, a);
    }
  }

  /** For a well-formed colour system, xyz_to_rgb's weights are inside the
      gamut exactly when the requested triple is a non-negative combination of
      the system's primaries, that is, lies in the cone over their triangle. */
  lemma InsideGamutIffInTriangle(cs: ColorSystem, c: Xyz)
    requires WellFormed(cs)
    ensures InsideGamut(XyzToRgb(cs, c))
        <==> exists a :: InsideGamut(a) && Mix(PrimaryTriples(cs), a) == c
  {
    var p, s := PrimaryTriples(cs), WhiteScales(PrimaryTriples(cs), Derived(cs.white));
    InsideGamutIffMixable(cs, c);
    MixableUnscaled(p, s, SystemDet(cs), c);
    assert forall k :: SystemMix(cs, k) == Mix(p, Weighted(k, s));
  }
}
