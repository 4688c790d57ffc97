/** spectrum_to_xyz: the chromaticity of a light source, from its spectral
    emittance weighted by the CIE 1931 2-degree standard observer's
    colour-matching functions at 5 nm steps from 380 to 780 nm. */
module Spectrum {
  import opened ColorTypes

  /** (x-bar, y-bar, z-bar) for the wavelengths 380, 385, ..., 780 nm: entry i
      belongs to 380 + 5 i nm. Written as three runs of 27 entries (380-510,
      515-645 and 650-780 nm) joined together. */
  const CieColorMatch: seq<Xyz> :=
    [
      Xyz(0.0014, 0.0000, 0.0065), Xyz(0.0022, 0.0001, 0.0105), Xyz(0.0042, 0.0001, 0.0201),
      Xyz(0.0076, 0.0002, 0.0362), Xyz(0.0143, 0.0004, 0.0679), Xyz(0.0232, 0.0006, 0.1102),
      Xyz(0.0435, 0.0012, 0.2074), Xyz(0.0776, 0.0022, 0.3713), Xyz(0.1344, 0.0040, 0.6456),
      Xyz(0.2148, 0.0073, 1.0391), Xyz(0.2839, 0.0116, 1.3856), Xyz(0.3285, 0.0168, 1.6230),
      Xyz(0.3483, 0.0230, 1.7471), Xyz(0.3481, 0.0298, 1.7826), Xyz(0.3362, 0.0380, 1.7721),
      Xyz(0.3187, 0.0480, 1.7441), Xyz(0.2908, 0.0600, 1.6692), Xyz(0.2511, 0.0739, 1.5281),
      Xyz(0.1954, 0.0910, 1.2876), Xyz(0.1421, 0.1126, 1.0419), Xyz(0.0956, 0.1390, 0.8130),
      Xyz(0.0580, 0.1693, 0.6162), Xyz(0.0320, 0.2080, 0.4652), Xyz(0.0147, 0.2586, 0.3533),
      Xyz(0.0049, 0.3230, 0.2720), Xyz(0.0024, 0.4073, 0.2123), Xyz(0.0093, 0.5030, 0.1582)
    ]
  + [
      Xyz(0.0291, 0.6082, 0.1117), Xyz(0.0633, 0.7100, 0.0782), Xyz(0.1096, 0.7932, 0.0573),
      Xyz(0.1655, 0.8620, 0.0422), Xyz(0.2257, 0.9149, 0.0298), Xyz(0.2904, 0.9540, 0.0203),
      Xyz(0.3597, 0.9803, 0.0134), Xyz(0.4334, 0.9950, 0.0087), Xyz(0.5121, 1.0000, 0.0057),
      Xyz(0.5945, 0.9950, 0.0039), Xyz(0.6784, 0.9786, 0.0027), Xyz(0.7621, 0.9520, 0.0021),
      Xyz(0.8425, 0.9154, 0.0018), Xyz(0.9163, 0.8700, 0.0017), Xyz(0.9786, 0.8163, 0.0014),
      Xyz(1.0263, 0.7570, 0.0011), Xyz(1.0567, 0.6949, 0.0010), Xyz(1.0622, 0.6310, 0.0008),
      Xyz(1.0456, 0.5668, 0.0006), Xyz(1.0026, 0.5030, 0.0003), Xyz(0.9384, 0.4412, 0.0002),
      Xyz(0.8544, 0.3810, 0.0002), Xyz(0.7514, 0.3210, 0.0001), Xyz(0.6424, 0.2650, 0.0000),
      Xyz(0.5419, 0.2170, 0.0000), Xyz(0.4479, 0.1750, 0.0000), Xyz(0.3608, 0.1382, 0.0000)
    ]
  + [
      Xyz(0.2835, 0.1070, 0.0000), Xyz(0.2187, 0.0816, 0.0000), Xyz(0.1649, 0.0610, 0.0000),
      Xyz(0.1212, 0.0446, 0.0000), Xyz(0.0874, 0.0320, 0.0000), Xyz(0.0636, 0.0232, 0.0000),
      Xyz(0.0468, 0.0170, 0.0000), Xyz(0.0329, 0.0119, 0.0000), Xyz(0.0227, 0.0082, 0.0000),
      Xyz(0.0158, 0.0057, 0.0000), Xyz(0.0114, 0.0041, 0.0000), Xyz(0.0081, 0.0029, 0.0000),
      Xyz(0.0058, 0.0021, 0.0000), Xyz(0.0041, 0.0015, 0.0000), Xyz(0.0029, 0.0010, 0.0000),
      Xyz(0.0020, 0.0007, 0.0000), Xyz(0.0014, 0.0005, 0.0000), Xyz(0.0010, 0.0004, 0.0000),
      Xyz(0.0007, 0.0002, 0.0000), Xyz(0.0005, 0.0002, 0.0000), Xyz(0.0003, 0.0001, 0.0000),
      Xyz(0.0002, 0.0001, 0.0000), Xyz(0.0002, 0.0001, 0.0000), Xyz(0.0001, 0.0000, 0.0000),
      Xyz(0.0001, 0.0000, 0.0000), Xyz(0.0001, 0.0000, 0.0000), Xyz(0.0000, 0.0000, 0.0000)
    ]

  /** The wavelength, in nanometres, at which entry i of the table is sampled. */
  function Wavelength(i: nat): (lambda: real)
    ensures lambda >= 380.0
  {
    380.0 + (i * 5) as real
  }

  /** The first n wavelengths spectrum_to_xyz samples, in the order it samples them. */
  function Samples(n: nat): (ws: seq<real>)
    ensures |ws| == n
    ensures forall i :: 0 <= i < n ==> ws[i] == Wavelength(i)
    ensures forall i :: 0 < i < n ==> ws[i] == ws[i - 1] + 5.0
  {
    seq(n, i requires 0 <= i => Wavelength(i))
  }

  /** The wavelengths sampled over the whole table: 81 of them, 380 to 780 nm. */
  lemma SampledBand()
    ensures |CieColorMatch| == 81
    ensures var ws := Samples(|CieColorMatch|); ws[0] == 380.0 && ws[80] == 780.0
  {
  }

  /** The tristimulus sums (X, Y, Z) over the first n entries of a
      colour-matching table for the spectral emittance spec. */
  function Accumulated(spec: real -> real, table: seq<Xyz>, n: nat): Xyz
    requires n <= |table|
  {
    if n == 0 then Xyz(0.0, 0.0, 0.0)
    else Add(Accumulated(spec, table, n - 1), Scale(spec(Wavelength(n - 1)), table[n - 1]))
  }

  /** The tristimulus values (X, Y, Z) of spec over the whole CIE table. */
  function Tristimulus(spec: real -> real): Xyz
  {
    Accumulated(spec, CieColorMatch, |CieColorMatch|)
  }

  /** Tristimulus values divided by their sum. */
  function ChromaticityOf(t: Xyz): (c: Xyz)
    requires Sum(t) != 0.0
    ensures c.x + c.y + c.z == 1.0
  {
    var s := Sum(t);
    assert t.x / s + t.y / s + t.z / s == (t.x + t.y + t.z) / s;
    Xyz(t.x / s, t.y / s, t.z / s)
  }

  /** The chromaticity (x, y, z) of spec. */
  function SpectrumChromaticity(spec: real -> real): (c: Xyz)
    requires Sum(Tristimulus(spec)) != 0.0
    ensures c.x + c.y + c.z == 1.0
  {
    ChromaticityOf(Tristimulus(spec))
  }

  /** The accumulation loop of spectrum_to_xyz: for each entry i of the table,
      spec is called at 380 + 5 i nm and the emittance times the entry is added
      to X, Y and Z. The ghost result records the wavelengths spec was called
      with, in order. */
  method Accumulate(spec: real -> real, table: seq<Xyz>) returns (bigX: real, bigY: real, bigZ: real, ghost sampled: seq<real>)
    ensures Xyz(bigX, bigY, bigZ) == Accumulated(spec, table, |table|)
    ensures sampled == Samples(|table|)
  {
    bigX, bigY, bigZ := 0.0, 0.0, 0.0;
    sampled := [];
    for i := 0 to |table|
      invariant Xyz(bigX, bigY, bigZ) == Accumulated(spec, table, i)
      invariant sampled == Samples(i)
    {
      var cm := table[i];
      var lambda := 380.0 + (i * 5) as real;
      var me := spec(lambda);
      bigX := bigX + me * cm.x;
      bigY := bigY + me * cm.y;
      bigZ := bigZ + me * cm.z;
      sampled := sampled + [lambda];
      assert lambda == Wavelength(i);
      SamplesExtend(i);
    }
  }

  lemma SamplesExtend(n: nat)
    ensures Samples(n + 1) == Samples(n) + [Wavelength(n)]
  {
  }

  /** spectrum_to_xyz: the tristimulus values of spec over the CIE table,
      divided by their sum. A zero sum is the division error of the original. */
  method SpectrumToXyz(spec: real -> real) returns (x: real, y: real, z: real, ghost sampled: seq<real>)
    requires Sum(Tristimulus(spec)) != 0.0
    ensures Xyz(x, y, z) == SpectrumChromaticity(spec)
    ensures sampled == Samples(|CieColorMatch|)
  {
    var bigX, bigY, bigZ;
    bigX, bigY, bigZ, sampled := Accumulate(spec, CieColorMatch);
    var xyz := bigX + bigY + bigZ;
    x, y, z := bigX / xyz, bigY / xyz, bigZ / xyz;
  }

  predicate TableNonNegative(table: seq<Xyz>)
  {
    forall i :: 0 <= i < |table| ==> table[i].x >= 0.0 && table[i].y >= 0.0 && table[i].z >= 0.0
  }

  /** Entries i, i + 1, ... of the table are all non-negative. */
  predicate NonNegativeFrom(table: seq<Xyz>, i: nat)
    decreases |table| - i
  {
    i >= |table| || (table[i].x >= 0.0 && table[i].y >= 0.0 && table[i].z >= 0.0 && NonNegativeFrom(table, i + 1))
  }

  lemma {:induction false} NonNegativeFromAll(table: seq<Xyz>, i: nat)
    requires NonNegativeFrom(table, i)
    decreases |table| - i
    ensures forall j :: i <= j < |table| ==> table[j].x >= 0.0 && table[j].y >= 0.0 && table[j].z >= 0.0
  {
    if i < |table| {
      NonNegativeFromAll(table, i + 1);
    }
  }

  /** The CIE table checked entry by entry, from 780 nm down to 380 nm.
      The verifier cannot index deep into a literal table of 81 entries in one
      step, so the check is unrolled: each assertion adds one entry to a suffix
      already known to be non-negative. */
  lemma CieColorMatchNonNegativeFrom()
    ensures NonNegativeFrom(CieColorMatch, 0)
  {
    assert NonNegativeFrom(CieColorMatch, 81);
    assert NonNegativeFrom(CieColorMatch, 80);
    assert NonNegativeFrom(CieColorMatch, 79);
    assert NonNegativeFrom(CieColorMatch, 78);
    assert NonNegativeFrom(CieColorMatch, 77);
    assert NonNegativeFrom(CieColorMatch, 76);
    assert NonNegativeFrom(CieColorMatch, 75);
    assert NonNegativeFrom(CieColorMatch, 74);
    assert NonNegativeFrom(CieColorMatch, 73);
    assert NonNegativeFrom(CieColorMatch, 72);
    assert NonNegativeFrom(CieColorMatch, 71);
    assert NonNegativeFrom(CieColorMatch, 70);
    assert NonNegativeFrom(CieColorMatch, 69);
    assert NonNegativeFrom(CieColorMatch, 68);
    assert NonNegativeFrom(CieColorMatch, 67);
    assert NonNegativeFrom(CieColorMatch, 66);
    assert NonNegativeFrom(CieColorMatch, 65);
    assert NonNegativeFrom(CieColorMatch, 64);
    assert NonNegativeFrom(CieColorMatch, 63);
    assert NonNegativeFrom(CieColorMatch, 62);
    assert NonNegativeFrom(CieColorMatch, 61);
    assert NonNegativeFrom(CieColorMatch, 60);
    assert NonNegativeFrom(CieColorMatch, 59);
    assert NonNegativeFrom(CieColorMatch, 58);
    assert NonNegativeFrom(CieColorMatch, 57);
    assert NonNegativeFrom(CieColorMatch, 56);
    assert NonNegativeFrom(CieColorMatch, 55);
    assert NonNegativeFrom(CieColorMatch, 54);
    assert NonNegativeFrom(CieColorMatch, 53);
    assert NonNegativeFrom(CieColorMatch, 52);
    assert NonNegativeFrom(CieColorMatch, 51);
    assert NonNegativeFrom(CieColorMatch, 50);
    assert NonNegativeFrom(CieColorMatch, 49);
    assert NonNegativeFrom(CieColorMatch, 48);
    assert NonNegativeFrom(CieColorMatch, 47);
    assert NonNegativeFrom(CieColorMatch, 46);
    assert NonNegativeFrom(CieColorMatch, 45);
    assert NonNegativeFrom(CieColorMatch, 44);
    assert NonNegativeFrom(CieColorMatch, 43);
    assert NonNegativeFrom(CieColorMatch, 42);
    assert NonNegativeFrom(CieColorMatch, 41);
    assert NonNegativeFrom(CieColorMatch, 40);
    assert NonNegativeFrom(CieColorMatch, 39);
    assert NonNegativeFrom(CieColorMatch, 38);
    assert NonNegativeFrom(CieColorMatch, 37);
    assert NonNegativeFrom(CieColorMatch, 36);
    assert NonNegativeFrom(CieColorMatch, 35);
    assert NonNegativeFrom(CieColorMatch, 34);
    assert NonNegativeFrom(CieColorMatch, 33);
    assert NonNegativeFrom(CieColorMatch, 32);
    assert NonNegativeFrom(CieColorMatch, 31);
    assert NonNegativeFrom(CieColorMatch, 30);
    assert NonNegativeFrom(CieColorMatch, 29);
    assert NonNegativeFrom(CieColorMatch, 28);
    assert NonNegativeFrom(CieColorMatch, 27);
    assert NonNegativeFrom(CieColorMatch, 26);
    assert NonNegativeFrom(CieColorMatch, 25);
    assert NonNegativeFrom(CieColorMatch, 24);
    assert NonNegativeFrom(CieColorMatch, 23);
    assert NonNegativeFrom(CieColorMatch, 22);
    assert NonNegativeFrom(CieColorMatch, 21);
    assert NonNegativeFrom(CieColorMatch, 20);
    assert NonNegativeFrom(CieColorMatch, 19);
    assert NonNegativeFrom(CieColorMatch, 18);
    assert NonNegativeFrom(CieColorMatch, 17);
    assert NonNegativeFrom(CieColorMatch, 16);
    assert NonNegativeFrom(CieColorMatch, 15);
    assert NonNegativeFrom(CieColorMatch, 14);
    assert NonNegativeFrom(CieColorMatch, 13);
    assert NonNegativeFrom(CieColorMatch, 12);
    assert NonNegativeFrom(CieColorMatch, 11);
    assert NonNegativeFrom(CieColorMatch, 10);
    assert NonNegativeFrom(CieColorMatch, 9);
    assert NonNegativeFrom(CieColorMatch, 8);
    assert NonNegativeFrom(CieColorMatch, 7);
    assert NonNegativeFrom(CieColorMatch, 6);
    assert NonNegativeFrom(CieColorMatch, 5);
    assert NonNegativeFrom(CieColorMatch, 4);
    assert NonNegativeFrom(CieColorMatch, 3);
    assert NonNegativeFrom(CieColorMatch, 2);
    assert NonNegativeFrom(CieColorMatch, 1);
    assert NonNegativeFrom(CieColorMatch, 0);
  }

  /** Every entry of the CIE colour-matching table is non-negative. */
  lemma CieColorMatchNonNegative()
    ensures TableNonNegative(CieColorMatch)
  {
    CieColorMatchNonNegativeFrom();
    NonNegativeFromAll(CieColorMatch, 0);
  }

  /** spec emits no negative power at any of the first n sampled wavelengths. */
  predicate NonNegativeOnBand(spec: real -> real, n: nat)
  {
    forall i :: 0 <= i < n ==> spec(Wavelength(i)) >= 0.0
  }

  lemma {:induction false} AccumulatedNonNegative(spec: real -> real, table: seq<Xyz>, n: nat)
    requires n <= |table| && TableNonNegative(table) && NonNegativeOnBand(spec, n)
    ensures var t := Accumulated(spec, table, n); t.x >= 0.0 && t.y >= 0.0 && t.z >= 0.0
  {
    if n > 0 {
      AccumulatedNonNegative(spec, table, n - 1);
      var k, e := spec(Wavelength(n - 1)), table[n - 1];
      assert k >= 0.0 && e.x >= 0.0 && e.y >= 0.0 && e.z >= 0.0;
      assert k * e.x >= 0.0 && k * e.y >= 0.0 && k * e.z >= 0.0;
    }
  }

  /** For a source that is nowhere negative on the band, each chromaticity
      coordinate lies in [0, 1]. */
  lemma ChromaticityInUnitRange(spec: real -> real)
    requires NonNegativeOnBand(spec, |CieColorMatch|) && Sum(Tristimulus(spec)) != 0.0
    ensures var c := SpectrumChromaticity(spec);
      0.0 <= c.x <= 1.0 && 0.0 <= c.y <= 1.0 && 0.0 <= c.z <= 1.0
  {
    CieColorMatchNonNegative();
    AccumulatedNonNegative(spec, CieColorMatch, |CieColorMatch|);
    UnitRange(Tristimulus(spec));
  }

  lemma UnitRange(t: Xyz)
    requires t.x >= 0.0 && t.y >= 0.0 && t.z >= 0.0 && Sum(t) != 0.0
    ensures var c := ChromaticityOf(t);
      0.0 <= c.x <= 1.0 && 0.0 <= c.y <= 1.0 && 0.0 <= c.z <= 1.0
  {
    var s := Sum(t);
    assert t.x / s >= 0.0 && t.y / s >= 0.0 && t.z / s >= 0.0;
  }

  /** spec scaled by the constant k. */
  function Scaled(spec: real -> real, k: real): real -> real
  {
    lambda => k * spec(lambda)
  }

  lemma ScaleDistributes(k: real, t: Xyz, m: real, e: Xyz)
    ensures Add(Scale(k, t), Scale(k * m, e)) == Scale(k, Add(t, Scale(m, e)))
  {
  }

  lemma {:induction false} AccumulatedScaled(spec: real -> real, k: real, table: seq<Xyz>, n: nat)
    requires n <= |table|
    ensures Accumulated(Scaled(spec, k), table, n) == Scale(k, Accumulated(spec, table, n))
  {
    if n > 0 {
      AccumulatedScaled(spec, k, table, n - 1);
      var t, m, e := Accumulated(spec, table, n - 1), spec(Wavelength(n - 1)), table[n - 1];
      assert Scaled(spec, k)(Wavelength(n - 1)) == k * m;
      ScaleDistributes(k, t, m, e);
    }
  }

  lemma ChromaticityOfScaled(t: Xyz, k: real)
    requires k != 0.0 && Sum(t) != 0.0
    ensures Sum(Scale(k, t)) != 0.0 && ChromaticityOf(Scale(k, t)) == ChromaticityOf(t)
  {
    var s := Sum(t);
    assert Sum(Scale(k, t)) == k * s;
    assert (k * t.x) / (k * s) == t.x / s;
    assert (k * t.y) / (k * s) == t.y / s;
    assert (k * t.z) / (k * s) == t.z / s;
  }

  /** Emittance is in arbitrary units: scaling the source by any nonzero
      constant leaves its chromaticity unchanged. */
  lemma ChromaticityScaleInvariant(spec: real -> real, k: real)
    requires k != 0.0 && Sum(Tristimulus(spec)) != 0.0
    ensures Sum(Tristimulus(Scaled(spec, k))) != 0.0
    ensures SpectrumChromaticity(Scaled(spec, k)) == SpectrumChromaticity(spec)
  {
    AccumulatedScaled(spec, k, CieColorMatch, |CieColorMatch|);
    ChromaticityOfScaled(Tristimulus(spec), k);
  }

  lemma {:induction false} AccumulatedSeesOnlySamples(spec1: real -> real, spec2: real -> real, table: seq<Xyz>, n: nat)
    requires n <= |table|
    requires forall i :: 0 <= i < n ==> spec1(Wavelength(i)) == spec2(Wavelength(i))
    ensures Accumulated(spec1, table, n) == Accumulated(spec2, table, n)
  {
    if n > 0 {
      AccumulatedSeesOnlySamples(spec1, spec2, table, n - 1);
    }
  }

  /** Two sources that agree at the sampled wavelengths have the same tristimulus
      values: nothing between the 5 nm steps or outside 380..780 nm is seen. */
  lemma TristimulusSeesOnlySamples(spec1: real -> real, spec2: real -> real)
    requires forall w :: w in Samples(|CieColorMatch|) ==> spec1(w) == spec2(w)
    ensures Tristimulus(spec1) == Tristimulus(spec2)
  {
    var ws := Samples(|CieColorMatch|);
    forall i | 0 <= i < |CieColorMatch|
      ensures spec1(Wavelength(i)) == spec2(Wavelength(i))
    {
      assert ws[i] in ws;
    }
    AccumulatedSeesOnlySamples(spec1, spec2, CieColorMatch, |CieColorMatch|);
  }
}
