/** The colour-system record of specrend: three primaries, a white point and
    the transfer function the system expects, with the six shipped presets. */
module ColorSystems {
  import opened ColorTypes

  /** The transfer function selector: the Rec. 709 sentinel object, or a
      plain power-law exponent. */
  datatype Gamma = Rec709 | PowerLaw(exponent: real)

  datatype ColorSystem = ColorSystem(
    name: string,
    red: Xy,
    green: Xy,
    blue: Xy,
    white: Xy,
    gamma: Gamma)

  // White point chromaticities.
  const IlluminantC: Xy := Xy(0.3101, 0.3162)
  const IlluminantD65: Xy := Xy(0.3127, 0.3291)
  const IlluminantE: Xy := Xy(0.33333333, 0.33333333)

  const NtscSystem: ColorSystem :=
    ColorSystem("NTSC", Xy(0.67, 0.33), Xy(0.21, 0.71), Xy(0.14, 0.08), IlluminantC, Rec709)
  const EbuSystem: ColorSystem :=
    ColorSystem("EBU (PAL/SECAM)", Xy(0.64, 0.33), Xy(0.29, 0.60), Xy(0.15, 0.06), IlluminantD65, Rec709)
  const SmpteSystem: ColorSystem :=
    ColorSystem("SMPTE", Xy(0.630, 0.340), Xy(0.310, 0.595), Xy(0.155, 0.070), IlluminantD65, Rec709)
  const HdtvSystem: ColorSystem :=
    ColorSystem("HDTV", Xy(0.670, 0.330), Xy(0.210, 0.710), Xy(0.150, 0.060), IlluminantD65, Rec709)
  const CieSystem: ColorSystem :=
    ColorSystem("CIE", Xy(0.7355, 0.2645), Xy(0.2658, 0.7243), Xy(0.1669, 0.0085), IlluminantE, Rec709)
  const Rec709System: ColorSystem :=
    ColorSystem("CIE REC 709", Xy(0.64, 0.33), Xy(0.30, 0.60), Xy(0.15, 0.06), IlluminantD65, Rec709)

  const Presets: seq<ColorSystem> :=
    [NtscSystem, EbuSystem, SmpteSystem, HdtvSystem, CieSystem, Rec709System]
}
