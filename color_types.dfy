/** Value triples and pairs passed between the colour-conversion routines.
    Every one is a plain value: no identity, copied on each call. */
module ColorTypes {

  /** A CIE 1931 chromaticity (x, y); the third coordinate is always derived
      as 1 - (x + y) and never stored. */
  datatype Xy = Xy(x: real, y: real)

  /** A CIE 1976 UCS chromaticity (u', v'). */
  datatype Upvp = Upvp(u: real, v: real)

  /** A CIE XYZ triple: tristimulus values (X, Y, Z), a chromaticity (x, y, z),
      one row of coefficients that is dotted with such a triple, or one entry
      (x-bar, y-bar, z-bar) of the colour-matching table. */
  datatype Xyz = Xyz(x: real, y: real, z: real)

  /** Weights of the three primaries of a colour system. */
  datatype Rgb = Rgb(r: real, g: real, b: real)

  /** The chromaticity triple of an (x, y) pair, z = 1 - (x + y). */
  function Derived(p: Xy): (c: Xyz)
    ensures c.x + c.y + c.z == 1.0
    ensures c.x == p.x && c.y == p.y
  {
    Xyz(p.x, p.y, 1.0 - (p.x + p.y))
  }

  function Dot(a: Xyz, b: Xyz): real
  {
    a.x * b.x + a.y * b.y + a.z * b.z
  }

  function Scale(k: real, a: Xyz): Xyz
  {
    Xyz(k * a.x, k * a.y, k * a.z)
  }

  function Add(a: Xyz, b: Xyz): Xyz
  {
    Xyz(a.x + b.x, a.y + b.y, a.z + b.z)
  }

  function Sum(a: Xyz): real
  {
    a.x + a.y + a.z
  }

  /** The greater of two reals; on a tie the first, as Python's max keeps it. */
  function Max(a: real, b: real): (m: real)
    ensures a <= m && b <= m
    ensures m == a || m == b
  {
    if b > a then b else a
  }

  /** The least of three reals. */
  function Min3(a: real, b: real, c: real): (m: real)
    ensures m <= a && m <= b && m <= c
    ensures m == a || m == b || m == c
  {
    if a <= b && a <= c then a else if b <= c then b else c
  }

  /** The greatest of three reals. */
  function Max3(a: real, b: real, c: real): (m: real)
    ensures a <= m && b <= m && c <= m
    ensures m == a || m == b || m == c
  {
    if a >= b && a >= c then a else if b >= c then b else c
  }
}
