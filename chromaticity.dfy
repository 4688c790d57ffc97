/** Conversions between CIE 1931 (x, y) and CIE 1976 UCS (u', v')
    chromaticities (CIE 15:2004 section 8.1). Both are linear-fractional maps;
    each is undefined on the line where its denominator vanishes, where the
    original raises a division-by-zero error. */
module Chromaticity {
  import opened ColorTypes

  function XyDenominator(p: Xy): real
  {
    -2.0 * p.x + 12.0 * p.y + 3.0
  }

  function UpvpDenominator(q: Upvp): real
  {
    6.0 * q.u - 16.0 * q.v + 12.0
  }

  /** Given 1976 coordinates u', v', determine 1931 chromaticities x, y. The
      result always lies off the singular line of the opposite map, so it can
      be converted back. */
  function UpvpToXy(q: Upvp): (p: Xy)
    requires UpvpDenominator(q) != 0.0
    ensures XyDenominator(p) * UpvpDenominator(q) == 36.0
  {
    var d := UpvpDenominator(q);
    Xy((9.0 * q.u) / d, (4.0 * q.v) / d)
  }

  /** Given 1931 chromaticities x, y, determine 1976 coordinates u', v'. The
      result always lies off the singular line of the opposite map. */
  function XyToUpvp(p: Xy): (q: Upvp)
    requires XyDenominator(p) != 0.0
    ensures UpvpDenominator(q) * XyDenominator(p) == 36.0
  {
    var d := XyDenominator(p);
    Upvp((4.0 * p.x) / d, (9.0 * p.y) / d)
  }

  /** (x, y) -> (u', v') -> (x, y) is the identity wherever the first map is defined. */
  lemma XyRoundTrip(p: Xy)
    requires XyDenominator(p) != 0.0
    ensures UpvpToXy(XyToUpvp(p)) == p
  {
    var d := XyDenominator(p);
    var q := XyToUpvp(p);
    var e := UpvpDenominator(q);
    assert e == 36.0 / d;
    assert 9.0 * q.u == (36.0 * p.x) / d;
    assert 4.0 * q.v == (36.0 * p.y) / d;
  }

  /** (u', v') -> (x, y) -> (u', v') is the identity wherever the first map is defined. */
  lemma UpvpRoundTrip(q: Upvp)
    requires UpvpDenominator(q) != 0.0
    ensures XyToUpvp(UpvpToXy(q)) == q
  {
    var e := UpvpDenominator(q);
    var p := UpvpToXy(q);
    var d := XyDenominator(p);
    assert d == 36.0 / e;
    assert 4.0 * p.x == (36.0 * q.u) / e;
    assert 9.0 * p.y == (36.0 * q.v) / e;
  }

  /** Distinct chromaticities have distinct (u', v') images: the map is a bijection
      off its singular line. */
  lemma XyToUpvpInjective(p1: Xy, p2: Xy)
    requires XyDenominator(p1) != 0.0 && XyDenominator(p2) != 0.0
    requires XyToUpvp(p1) == XyToUpvp(p2)
    ensures p1 == p2
  {
    XyRoundTrip(p1);
    XyRoundTrip(p2);
  }
}
