/** The fixed reference tables of the wire model. */
module Constants {
  import opened Types

  /** Resistivity in Ω·mm²/m, defined for every material. */
  function Resistivity(m: WireMaterial): (rho: real)
    ensures rho > 0.0
  {
    match m
    case KanthalA1 => 1.45
    case Nichrome80 => 1.09
    case SS316L => 0.74
    case Ni200 => 0.096
    case Titanium => 0.42
  }

  /** Kanthal A1 is the most resistive alloy and Nickel 200 the least. */
  lemma ResistivityExtremes(m: WireMaterial)
    ensures Resistivity(Ni200) <= Resistivity(m) <= Resistivity(KanthalA1)
    ensures m != Ni200 ==> Resistivity(Ni200) < Resistivity(m)
    ensures m != KanthalA1 ==> Resistivity(m) < Resistivity(KanthalA1)
  {
    match m
    case KanthalA1 =>
    case Nichrome80 =>
    case SS316L =>
    case Ni200 =>
    case Titanium =>
  }

  /** Wire diameter in mm for the listed AWG gauges.  JavaScript looks a
      number up by its string form, so 26 and 26.0 are the same key and
      26.5 is not a key; the keys are therefore reals. */
  const GaugeToMm: map<real, real> := map[
    20.0 := 0.812,
    22.0 := 0.644,
    24.0 := 0.511,
    26.0 := 0.405,
    28.0 := 0.321,
    30.0 := 0.255,
    32.0 := 0.202
  ]

  /** The table lists exactly the even gauges 20 to 32, and gauge 26 is
      0.405 mm. */
  lemma GaugeTableKeys()
    ensures GaugeToMm.Keys == {20.0, 22.0, 24.0, 26.0, 28.0, 30.0, 32.0}
    ensures GaugeToMm[26.0] == 0.405
  {
  }

  /** Every listed diameter is positive (so the `|| 0.4` fallback never
      fires for a listed gauge) and a larger gauge number is a strictly
      thinner wire. */
  lemma GaugeDiametersDecreasing(g1: real, g2: real)
    requires g1 in GaugeToMm && g2 in GaugeToMm
    ensures GaugeToMm[g1] > 0.0
    ensures g1 < g2 ==> GaugeToMm[g1] > GaugeToMm[g2]
  {
    GaugeTableKeys();
  }

  lemma ListedDiametersPositive()
    ensures forall g :: g in GaugeToMm ==> GaugeToMm[g] > 0.0
  {
    forall g | g in GaugeToMm ensures GaugeToMm[g] > 0.0 {
      GaugeDiametersDecreasing(g, g);
    }
  }
}
