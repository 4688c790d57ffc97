/** xyz_to_rgb: the weights of a colour system's three primaries that mix to a
    requested CIE XYZ triple, through the adjugate of the primaries matrix
    scaled so that the white point gets equal weights.

    The solver is written once over an arbitrary primaries matrix (its rows are
    the primaries' chromaticity triples) and an arbitrary white triple; a colour
    system supplies both by deriving z = 1 - (x + y). */
module Primaries {
  import opened ColorTypes
  import opened ColorSystems

  /** A 3x3 matrix given by its three rows. */
  datatype Matrix = Matrix(r: Xyz, g: Xyz, b: Xyz)

  /** The matrix applied to a triple: one weight per row. */
  function Apply(m: Matrix, c: Xyz): Rgb
  {
    Rgb(Dot(m.r, c), Dot(m.g, c), Dot(m.b, c))
  }

  /** The three triples in the rows of p mixed with weights k. */
  function Mix(p: Matrix, k: Rgb): Xyz
  {
    Add(Add(Scale(k.r, p.r), Scale(k.g, p.g)), Scale(k.b, p.b))
  }

  predicate NonZero(s: Rgb)
  {
    s.r != 0.0 && s.g != 0.0 && s.b != 0.0
  }

  /** Every entry of a row divided by that row's factor (as a product with
      1 / k, which is the same quotient over the reals). */
  function DivideRow(q: Xyz, k: real): Xyz
    requires k != 0.0
  {
    Scale(1.0 / k, q)
  }

  // ---------------------------------------------------------------------
  // The solver over a primaries matrix p (rows R, G, B) and a white triple w

  /** Determinant of the matrix whose columns are R, G, B, by cofactor
      expansion along its first row. xyz_to_rgb never computes it; it is what
      the solver's results are stated in terms of. */
  function Det(p: Matrix): real
  {
    var R, G, B := p.r, p.g, p.b;
    R.x * (G.y * B.z - B.y * G.z) - G.x * (R.y * B.z - B.y * R.z) + B.x * (R.y * G.z - G.y * R.z)
  }

  /** The xyz -> rgb matrix before scaling to white: row k holds the cofactors
      belonging to primary k, the cross product of the other two primaries. */
  function Cofactors(p: Matrix): Matrix
  {
    var R, G, B := p.r, p.g, p.b;
    Matrix(
      Xyz(G.y * B.z - B.y * G.z, B.x * G.z - G.x * B.z, G.x * B.y - B.x * G.y),
      Xyz(B.y * R.z - R.y * B.z, R.x * B.z - B.x * R.z, B.x * R.y - R.x * B.y),
      Xyz(R.y * G.z - G.y * R.z, G.x * R.z - R.x * G.z, R.x * G.y - G.x * R.y))
  }

  /** Each weight divided by k. */
  function DivideAll(t: Rgb, k: real): Rgb
    requires k != 0.0
  {
    Rgb(t.r / k, t.g / k, t.b / k)
  }

  /** Each weight multiplied by its own factor. */
  function Weighted(k: Rgb, s: Rgb): Rgb
  {
    Rgb(k.r * s.r, k.g * s.g, k.b * s.b)
  }

  /** Each row of a divided by its own factor. */
  function DivideRows(a: Matrix, s: Rgb): Matrix
    requires NonZero(s)
  {
    Matrix(DivideRow(a.r, s.r), DivideRow(a.g, s.g), DivideRow(a.b, s.b))
  }

  /** White scaling factors rw, gw, bw: each unscaled row applied to the white
      triple, divided by its y so that the white luminance becomes unity. */
  function WhiteScales(p: Matrix, w: Xyz): Rgb
    requires w.y != 0.0
  {
    DivideAll(Apply(Cofactors(p), w), w.y)
  }

  /** No division of the solver is by zero. */
  predicate Solvable(p: Matrix, w: Xyz)
  {
    w.y != 0.0 && NonZero(WhiteScales(p, w))
  }

  /** The xyz -> rgb matrix correctly scaled to white. */
  function RgbMatrix(p: Matrix, w: Xyz): Matrix
    requires Solvable(p, w)
  {
    DivideRows(Cofactors(p), WhiteScales(p, w))
  }

  /** The primaries mixed with weights k, primary i scaled by its white factor. */
  function ScaledMix(p: Matrix, w: Xyz, k: Rgb): Xyz
    requires Solvable(p, w)
  {
    Mix(p, Weighted(k, WhiteScales(p, w)))
  }

  // ---------------------------------------------------------------------
  // The colour system's instance

  /** The chromaticity triples of the red, green and blue primaries. */
  function PrimaryTriples(cs: ColorSystem): Matrix
  {
    Matrix(Derived(cs.red), Derived(cs.green), Derived(cs.blue))
  }

  predicate SystemSolvable(cs: ColorSystem)
  {
    Solvable(PrimaryTriples(cs), Derived(cs.white))
  }

  /** Weights of the primaries of cs that mix to the requested triple c. */
  function XyzToRgb(cs: ColorSystem, c: Xyz): Rgb
    requires SystemSolvable(cs)
  {
    Apply(RgbMatrix(PrimaryTriples(cs), Derived(cs.white)), c)
  }

  // ---------------------------------------------------------------------
  // Linear algebra on abstract matrices, free of division

  lemma DotLinear(q: Xyz, a: real, u: Xyz, b: real, v: Xyz)
    ensures Dot(q, Add(Scale(a, u), Scale(b, v))) == a * Dot(q, u) + b * Dot(q, v)
  {
  }

  lemma ApplyLinear(m: Matrix, a: real, u: Xyz, b: real, v: Xyz)
    ensures var wu, wv := Apply(m, u), Apply(m, v);
      Apply(m, Add(Scale(a, u), Scale(b, v)))
        == Rgb(a * wu.r + b * wv.r, a * wu.g + b * wv.g, a * wu.b + b * wv.b)
  {
    DotLinear(m.r, a, u, b, v);
    DotLinear(m.g, a, u, b, v);
    DotLinear(m.b, a, u, b, v);
  }

  /** A row applied to a mix is the mix of that row applied to each triple. */
  lemma DotOfMix(q: Xyz, p: Matrix, k: Rgb)
    ensures Dot(q, Mix(p, k)) == k.r * Dot(q, p.r) + k.g * Dot(q, p.g) + k.b * Dot(q, p.b)
  {
  }

  /** x e1 + y e2 + z e3 when exactly one of the e's is d and the others are 0. */
  lemma Collapse(x: real, y: real, z: real, e1: real, e2: real, e3: real, d: real, t: real)
    requires (e1 == d && e2 == 0.0 && e3 == 0.0 && t == x)
          || (e1 == 0.0 && e2 == d && e3 == 0.0 && t == y)
          || (e1 == 0.0 && e2 == 0.0 && e3 == d && t == z)
    ensures x * e1 + y * e2 + z * e3 == t * d
  {
  }

  /** The cross product u x v. */
  function Cross(u: Xyz, v: Xyz): Xyz
  {
    Xyz(u.y * v.z - u.z * v.y, u.z * v.x - u.x * v.z, u.x * v.y - u.y * v.x)
  }

  lemma CrossOrthogonal(u: Xyz, v: Xyz)
    ensures Dot(Cross(u, v), u) == 0.0 && Dot(Cross(u, v), v) == 0.0
  {
  }

  /** The scalar triple product is invariant under cyclic rotation. */
  lemma TripleCyclic(u: Xyz, v: Xyz, w: Xyz)
    ensures Dot(Cross(v, w), u) == Dot(Cross(u, v), w)
  {
  }

  /** Row k of the cofactor matrix is the cross product of the two other
      primaries, and the determinant is the triple product. */
  lemma CofactorsAreCrosses(p: Matrix)
    ensures Cofactors(p) == Matrix(Cross(p.g, p.b), Cross(p.b, p.r), Cross(p.r, p.g))
    ensures Det(p) == Dot(Cross(p.g, p.b), p.r)
  {
  }

  function Transpose(m: Matrix): Matrix
  {
    Matrix(Xyz(m.r.x, m.g.x, m.b.x), Xyz(m.r.y, m.g.y, m.b.y), Xyz(m.r.z, m.g.z, m.b.z))
  }

  /** The cofactors of the transpose are the transpose of the cofactors,
      compared row by row. */
  lemma TransposeCofactors(p: Matrix)
    ensures Cofactors(Transpose(p)) == Transpose(Cofactors(p))
  {
    var a, b := Cofactors(Transpose(p)), Transpose(Cofactors(p));
    assert a.r.x == b.r.x;
    assert a.r.y == b.r.y;
    assert a.r.z == b.r.z;
    assert a.g.x == b.g.x;
    assert a.g.y == b.g.y;
    assert a.g.z == b.g.z;
    assert a.b.x == b.b.x;
    assert a.b.y == b.b.y;
    assert a.b.z == b.b.z;
  }

  lemma TransposeDet(p: Matrix)
    ensures Det(Transpose(p)) == Det(p)
  {
  }

  /** a's rows meet p's rows in d times the identity: a p^T = d I. */
  predicate RowsInverse(p: Matrix, a: Matrix, d: real)
  {
    && Dot(a.r, p.r) == d && Dot(a.r, p.g) == 0.0 && Dot(a.r, p.b) == 0.0
    && Dot(a.g, p.r) == 0.0 && Dot(a.g, p.g) == d && Dot(a.g, p.b) == 0.0
    && Dot(a.b, p.r) == 0.0 && Dot(a.b, p.g) == 0.0 && Dot(a.b, p.b) == d
  }

  /** The relation is symmetric: Dot is commutative. */
  lemma RowsInverseSymmetric(p: Matrix, a: Matrix, d: real)
    requires RowsInverse(p, a, d)
    ensures RowsInverse(a, p, d)
  {
  }

  /** Each cofactor row is orthogonal to the other two primaries and meets its
      own primary in the determinant. */
  lemma CofactorsOrthogonal(p: Matrix)
    ensures RowsInverse(p, Cofactors(p), Det(p))
  {
    CofactorsAreCrosses(p);
    CrossOrthogonal(p.g, p.b);
    CrossOrthogonal(p.b, p.r);
    CrossOrthogonal(p.r, p.g);
    TripleCyclic(p.r, p.g, p.b);
  }

  /** Weights read as a triple. */
  function AsXyz(k: Rgb): Xyz
  {
    Xyz(k.r, k.g, k.b)
  }

  /** A matrix applied to c is the mix of its columns with c's coordinates as weights. */
  lemma ApplyAsMix(a: Matrix, c: Xyz)
    ensures AsXyz(Apply(a, c)) == Mix(Transpose(a), Rgb(c.x, c.y, c.z))
  {
  }

  /** A mix of rows is the transpose applied to the weights. */
  lemma MixAsApply(p: Matrix, k: Rgb)
    ensures Mix(p, k) == AsXyz(Apply(Transpose(p), AsXyz(k)))
  {
  }

  /** The triples of p mixed with the rows of a applied to c give d c when
      the columns of a and of p meet in d times the identity. */
  lemma MixOfInverse(p: Matrix, a: Matrix, d: real, c: Xyz)
    requires RowsInverse(Transpose(a), Transpose(p), d)
    ensures Mix(p, Apply(a, c)) == Scale(d, c)
  {
    var k := Apply(a, c);
    MixAsApply(p, k);
    assert AsXyz(k) == Mix(Transpose(a), Rgb(c.x, c.y, c.z)) by { ApplyAsMix(a, c); }
    ApplyOfInverse(Transpose(a), Transpose(p), d, Rgb(c.x, c.y, c.z));
  }

  /** The rows of a applied to a mix of p's triples give d times the weights
      when a p^T = d I. */
  lemma ApplyOfInverse(p: Matrix, a: Matrix, d: real, k: Rgb)
    requires RowsInverse(p, a, d)
    ensures Apply(a, Mix(p, k)) == Rgb(d * k.r, d * k.g, d * k.b)
  {
    DotOfMix(a.r, p, k);
    DotOfMix(a.g, p, k);
    DotOfMix(a.b, p, k);
    Collapse(k.r, k.g, k.b, Dot(a.r, p.r), Dot(a.r, p.g), Dot(a.r, p.b), d, k.r);
    Collapse(k.r, k.g, k.b, Dot(a.g, p.r), Dot(a.g, p.g), Dot(a.g, p.b), d, k.g);
    Collapse(k.r, k.g, k.b, Dot(a.b, p.r), Dot(a.b, p.g), Dot(a.b, p.b), d, k.b);
  }

  /** Mixing the primaries with the unscaled rows applied to c gives d times c. */
  lemma MixOfCofactors(p: Matrix, c: Xyz)
    ensures Mix(p, Apply(Cofactors(p), c)) == Scale(Det(p), c)
  {
    CofactorsOrthogonal(Transpose(p));
    TransposeCofactors(p);
    TransposeDet(p);
    RowsInverseSymmetric(Transpose(p), Transpose(Cofactors(p)), Det(p));
    MixOfInverse(p, Cofactors(p), Det(p), c);
  }

  // ---------------------------------------------------------------------
  // The divisions of the solver, one at a time

  /** A row divided by k, applied to c, times k, is the row applied to c. */
  lemma DivideRowCancels(q: Xyz, k: real, c: Xyz)
    requires k != 0.0
    ensures Dot(DivideRow(q, k), c) * k == Dot(q, c)
  {
    var i := 1.0 / k;
    assert i * k == 1.0;
    calc {
      Dot(DivideRow(q, k), c) * k;
      == ((i * q.x) * c.x + (i * q.y) * c.y + (i * q.z) * c.z) * k;
      == (i * k) * (q.x * c.x + q.y * c.y + q.z * c.z);
    }
  }

  /** Weighting by s undoes dividing the rows by s. */
  lemma DivideRowsCancel(a: Matrix, s: Rgb, c: Xyz)
    requires NonZero(s)
    ensures Weighted(Apply(DivideRows(a, s), c), s) == Apply(a, c)
  {
    DivideRowCancels(a.r, s.r, c);
    DivideRowCancels(a.g, s.g, c);
    DivideRowCancels(a.b, s.b, c);
  }

  lemma DivideAllCancels(t: Rgb, y: real)
    requires y != 0.0
    ensures Weighted(Rgb(y, y, y), DivideAll(t, y)) == t
  {
    assert y * (t.r / y) == t.r;
    assert y * (t.g / y) == t.g;
    assert y * (t.b / y) == t.b;
  }

  lemma Cancel(x: real, y: real, s: real)
    requires s != 0.0 && x * s == y * s
    ensures x == y
  {
    assert (x - y) * s == 0.0;
  }

  /** The rows of a divided by s send m to v exactly when a sends m to v weighted by s. */
  lemma DivideRowsSolves(a: Matrix, s: Rgb, m: Xyz, v: Rgb)
    requires NonZero(s) && Apply(a, m) == Weighted(v, s)
    ensures Apply(DivideRows(a, s), m) == v
  {
    var u := Apply(DivideRows(a, s), m);
    DivideRowsCancel(a, s, m);
    Cancel(u.r, v.r, s.r);
    Cancel(u.g, v.g, s.g);
    Cancel(u.b, v.b, s.b);
  }

  lemma WeightedScaled(d: real, k: Rgb, s: Rgb)
    ensures Weighted(Rgb(d * k.r, d * k.g, d * k.b), s)
         == Rgb(d * Weighted(k, s).r, d * Weighted(k, s).g, d * Weighted(k, s).b)
  {
  }

  // ---------------------------------------------------------------------
  // Properties of the solver

  /** The white triple gets equal weights r = g = b = its y. */
  lemma SolveWhite(p: Matrix, w: Xyz)
    requires Solvable(p, w)
    ensures Apply(RgbMatrix(p, w), w) == Rgb(w.y, w.y, w.y)
  {
    DivideAllCancels(Apply(Cofactors(p), w), w.y);
    DivideRowsSolves(Cofactors(p), WhiteScales(p, w), w, Rgb(w.y, w.y, w.y));
  }

  /** Solving and mixing back the white-scaled primaries returns d times c. */
  lemma SolveThenMix(p: Matrix, w: Xyz, c: Xyz)
    requires Solvable(p, w)
    ensures ScaledMix(p, w, Apply(RgbMatrix(p, w), c)) == Scale(Det(p), c)
  {
    DivideRowsCancel(Cofactors(p), WhiteScales(p, w), c);
    MixOfCofactors(p, c);
  }

  /** Mixing the primaries weighted by s and applying a's rows divided by s
      returns d times the weights, when a p^T = d I. */
  lemma DividedInverseOfMix(p: Matrix, a: Matrix, d: real, s: Rgb, k: Rgb)
    requires NonZero(s) && RowsInverse(p, a, d)
    ensures Apply(DivideRows(a, s), Mix(p, Weighted(k, s))) == Rgb(d * k.r, d * k.g, d * k.b)
  {
    ApplyOfInverse(p, a, d, Weighted(k, s));
    WeightedScaled(d, k, s);
    DivideRowsSolves(a, s, Mix(p, Weighted(k, s)), Rgb(d * k.r, d * k.g, d * k.b));
  }

  /** Mixing the white-scaled primaries and solving returns d times the weights. */
  lemma MixThenSolve(p: Matrix, w: Xyz, k: Rgb)
    requires Solvable(p, w)
    ensures Apply(RgbMatrix(p, w), ScaledMix(p, w, k)) == Rgb(Det(p) * k.r, Det(p) * k.g, Det(p) * k.b)
  {
    CofactorsOrthogonal(p);
    DividedInverseOfMix(p, Cofactors(p), Det(p), WhiteScales(p, w), k);
  }

  /** Each primary is solved to a weight on its own channel only: the other
      two weights are zero, and its own weight times its white scale is d. */
  lemma SolvePrimaries(p: Matrix, w: Xyz)
    requires Solvable(p, w)
    ensures var m, s, d := RgbMatrix(p, w), WhiteScales(p, w), Det(p);
      && Apply(m, p.r).g == 0.0 && Apply(m, p.r).b == 0.0 && Apply(m, p.r).r * s.r == d
      && Apply(m, p.g).r == 0.0 && Apply(m, p.g).b == 0.0 && Apply(m, p.g).g * s.g == d
      && Apply(m, p.b).r == 0.0 && Apply(m, p.b).g == 0.0 && Apply(m, p.b).b * s.b == d
  {
    CofactorsOrthogonal(p);
    DividedPrimaries(p, Cofactors(p), Det(p), WhiteScales(p, w));
  }

  lemma DividedPrimaries(p: Matrix, a: Matrix, d: real, s: Rgb)
    requires NonZero(s) && RowsInverse(p, a, d)
    ensures var m := DivideRows(a, s);
      && Apply(m, p.r).g == 0.0 && Apply(m, p.r).b == 0.0 && Apply(m, p.r).r * s.r == d
      && Apply(m, p.g).r == 0.0 && Apply(m, p.g).b == 0.0 && Apply(m, p.g).g * s.g == d
      && Apply(m, p.b).r == 0.0 && Apply(m, p.b).g == 0.0 && Apply(m, p.b).b * s.b == d
  {
    var m := DivideRows(a, s);
    DivideRowsCancel(a, s, p.r);
    DivideRowsCancel(a, s, p.g);
    DivideRowsCancel(a, s, p.b);
    Cancel(Apply(m, p.r).g, 0.0, s.g);
    Cancel(Apply(m, p.r).b, 0.0, s.b);
    Cancel(Apply(m, p.g).r, 0.0, s.r);
    Cancel(Apply(m, p.g).b, 0.0, s.b);
    Cancel(Apply(m, p.b).r, 0.0, s.r);
    Cancel(Apply(m, p.b).g, 0.0, s.g);
  }

  lemma DotScale(q: Xyz, d: real, c: Xyz)
    ensures Dot(q, Scale(d, c)) == d * Dot(q, c)
  {
  }

  /** A linear map that sends d c to d k, d nonzero, sends c to k. */
  lemma ApplyCancel(m: Matrix, d: real, c: Xyz, k: Rgb)
    requires d != 0.0 && Apply(m, Scale(d, c)) == Rgb(d * k.r, d * k.g, d * k.b)
    ensures Apply(m, c) == k
  {
    var v := Apply(m, c);
    DotScale(m.r, d, c);
    DotScale(m.g, d, c);
    DotScale(m.b, d, c);
    Cancel(v.r, k.r, d);
    Cancel(v.g, k.g, d);
    Cancel(v.b, k.b, d);
  }

  /** With a nonzero determinant the weights are the only ones whose
      white-scaled mix of primaries is d times the requested triple. */
  lemma SolveUnique(p: Matrix, w: Xyz, c: Xyz, k: Rgb)
    requires Solvable(p, w) && Det(p) != 0.0
    requires ScaledMix(p, w, k) == Scale(Det(p), c)
    ensures Apply(RgbMatrix(p, w), c) == k
  {
    MixThenSolve(p, w, k);
    ApplyCancel(RgbMatrix(p, w), Det(p), c, k);
  }

  // ---------------------------------------------------------------------
  // The same properties for a colour system

  function SystemDet(cs: ColorSystem): real
  {
    Det(PrimaryTriples(cs))
  }

  /** The colour system's primaries mixed with weights k, each scaled to white. */
  function SystemMix(cs: ColorSystem, k: Rgb): Xyz
    requires SystemSolvable(cs)
  {
    ScaledMix(PrimaryTriples(cs), Derived(cs.white), k)
  }

  /** The white point gets equal weights, each equal to its y. */
  lemma WhiteIsNeutral(cs: ColorSystem)
    requires SystemSolvable(cs)
    ensures XyzToRgb(cs, Derived(cs.white)) == Rgb(cs.white.y, cs.white.y, cs.white.y)
  {
    SolveWhite(PrimaryTriples(cs), Derived(cs.white));
  }

  /** Weights depend linearly on the requested triple. */
  lemma XyzToRgbLinear(cs: ColorSystem, a: real, u: Xyz, b: real, v: Xyz)
    requires SystemSolvable(cs)
    ensures var wu, wv := XyzToRgb(cs, u), XyzToRgb(cs, v);
      XyzToRgb(cs, Add(Scale(a, u), Scale(b, v)))
        == Rgb(a * wu.r + b * wv.r, a * wu.g + b * wv.g, a * wu.b + b * wv.b)
  {
    ApplyLinear(RgbMatrix(PrimaryTriples(cs), Derived(cs.white)), a, u, b, v);
  }

  /** The primaries of cs, each scaled to white and mixed with the weights
      xyz_to_rgb returns, give back the requested triple times the determinant. */
  lemma XyzToRgbMixesBack(cs: ColorSystem, c: Xyz)
    requires SystemSolvable(cs)
    ensures SystemMix(cs, XyzToRgb(cs, c)) == Scale(SystemDet(cs), c)
  {
    SolveThenMix(PrimaryTriples(cs), Derived(cs.white), c);
  }

  /** The returned weights are exactly the weights whose mix is the requested
      triple (up to the determinant): a colour outside the triangle of the
      primaries can only be reached with a negative weight. */
  lemma XyzToRgbUnique(cs: ColorSystem, c: Xyz, k: Rgb)
    requires SystemSolvable(cs) && SystemDet(cs) != 0.0
    ensures SystemMix(cs, k) == Scale(SystemDet(cs), c) <==> XyzToRgb(cs, c) == k
  {
    var p, w := PrimaryTriples(cs), Derived(cs.white);
    if SystemMix(cs, k) == Scale(SystemDet(cs), c) {
      SolveUnique(p, w, c, k);
    } else {
      SolveThenMix(p, w, c);
    }
  }

  /** A pure primary of cs is solved to weight on its own channel alone. */
  lemma PrimaryWeights(cs: ColorSystem)
    requires SystemSolvable(cs)
    ensures var vr, vg, vb := XyzToRgb(cs, Derived(cs.red)), XyzToRgb(cs, Derived(cs.green)), XyzToRgb(cs, Derived(cs.blue));
      && vr.g == 0.0 && vr.b == 0.0 && (vr.r != 0.0 <==> SystemDet(cs) != 0.0)
      && vg.r == 0.0 && vg.b == 0.0 && (vg.g != 0.0 <==> SystemDet(cs) != 0.0)
      && vb.r == 0.0 && vb.g == 0.0 && (vb.b != 0.0 <==> SystemDet(cs) != 0.0)
  {
    SolvePrimaries(PrimaryTriples(cs), Derived(cs.white));
  }

  // ---------------------------------------------------------------------
  // The shipped presets

  /** The solver has no zero divisor for cs, its determinant is positive and
      all three white scales are positive. */
  predicate WellFormed(cs: ColorSystem)
  {
    && SystemSolvable(cs) && SystemDet(cs) > 0.0
    && var s := WhiteScales(PrimaryTriples(cs), Derived(cs.white));
       s.r > 0.0 && s.g > 0.0 && s.b > 0.0
  }

  /** A system is well formed once its determinant and its unscaled rows
      applied to white are positive and its white y is positive. */
  lemma WellFormedByValues(cs: ColorSystem, d: real, t: Rgb)
    requires cs.white.y > 0.0 && d > 0.0 && t.r > 0.0 && t.g > 0.0 && t.b > 0.0
    requires SystemDet(cs) == d
    requires Apply(Cofactors(PrimaryTriples(cs)), Derived(cs.white)) == t
    ensures WellFormed(cs)
  {
    var y := cs.white.y;
    assert t.r / y > 0.0 && t.g / y > 0.0 && t.b / y > 0.0;
  }

  lemma NtscWellFormed()
    ensures WellFormed(NtscSystem)
  {
    WellFormedByValues(NtscSystem, 0.3164, Rgb(0.090629, 0.082661, 0.14311));
  }

  lemma EbuWellFormed()
    ensures WellFormed(EbuSystem)
  {
    WellFormedByValues(EbuSystem, 0.2268, Rgb(0.050184, 0.08793, 0.088686));
  }

  lemma SmpteWellFormed()
    ensures WellFormed(SmpteSystem)
  {
    WellFormedByValues(SmpteSystem, 0.207525, Rgb(0.042632, 0.0804935, 0.0843995));
  }

  lemma HdtvWellFormed()
    ensures WellFormed(HdtvSystem)
  {
    WellFormedByValues(HdtvSystem, 0.3218, Rgb(0.089609, 0.096003, 0.136188));
  }

  lemma CieWellFormed()
    ensures WellFormed(CieSystem)
  {
    WellFormedByValues(CieSystem, 0.38168548, Rgb(0.087006961277, 0.142093298958, 0.152585219765));
  }

  lemma Rec709WellFormed()
    ensures WellFormed(Rec709System)
  {
    WellFormedByValues(Rec709System, 0.2241, Rgb(0.047493, 0.08793, 0.088677));
  }

  /** Every colour system in the shipped preset list is well formed. */
  lemma PresetsWellFormed()
    ensures forall i :: 0 <= i < |Presets| ==> WellFormed(Presets[i])
  {
    NtscWellFormed();
    EbuWellFormed();
    SmpteWellFormed();
    HdtvWellFormed();
    CieWellFormed();
    Rec709WellFormed();
  }
}
