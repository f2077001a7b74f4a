/** The coil electro-thermal simulator: from a wire build it derives
    resistance, surface area, power, heat flux, heat capacity, ramp-up
    time and the derived scores, in one straight-line pipeline. */
module SimulationEngine {
  import opened Types
  import opened Constants

  /** `Math.PI`, as the decimal literal JavaScript prints for it. */
  const PI: real := 3.141592653589793

  /** Length of the two legs clamped at the posts, in mm. */
  const LegLength: real := 5.0

  /** Diameter used for a gauge that is not in the table, in mm. */
  const FallbackDiameter: real := 0.4

  /** Temperature rise from 25 °C to 200 °C used for the ramp-up time. */
  const RampDelta: real := 175.0

  /** Heat flux taken as the reference maximum: stress index 100. */
  const ReferenceFlux: real := 350.0

  /** Specific heat capacity in J/(g·K). */
  function HeatCapacity(m: WireMaterial): (c: real)
    ensures c > 0.0
  {
    match m
    case KanthalA1 => 0.46
    case Nichrome80 => 0.45
    case SS316L => 0.50
    case Ni200 => 0.44
    case Titanium => 0.52
  }

  /** Density in g/cm³. */
  function Density(m: WireMaterial): (rho: real)
    ensures rho > 0.0
  {
    match m
    case KanthalA1 => 7.1
    case Nichrome80 => 8.4
    case SS316L => 8.0
    case Ni200 => 8.9
    case Titanium => 4.5
  }

  /** `GAUGE_TO_MM[gauge] || 0.4`: the listed diameter, or the fallback
      for any other gauge (non-integers included). */
  function WireDiameter(gauge: real): (d: real)
    ensures d > 0.0
    ensures gauge in GaugeToMm ==> d == GaugeToMm[gauge]
    ensures gauge !in GaugeToMm ==> d == FallbackDiameter
  {
    ListedDiametersPositive();
    if gauge in GaugeToMm && GaugeToMm[gauge] != 0.0 then GaugeToMm[gauge]
    else
      FallbackDiameter
  }

  /** Effective number of strands: 1, 2, and 2.1 for twisted wire. */
  function StrandMultiplier(w: WireType): (k: real)
    ensures k >= 1.0
  {
    match w
    case Parallel => 2.0
    case Twisted => 2.1
    case Round => 1.0
  }

  /** Number of identical coils on the deck. */
  function CoilCountOf(c: CoilConfig): (n: real)
    ensures 1.0 <= n <= 4.0
  {
    match c
    case Dual => 2.0
    case Triple => 3.0
    case Quad => 4.0
    case Single => 1.0
  }

  /** Wound length of one strand of one coil, legs included, in mm: the
      mean circumference (inner diameter plus one wire thickness) times
      the wraps, plus the legs. */
  function WoundLength(id: real, d: real, wraps: real): (length: real)
    ensures id >= 0.0 && d > 0.0 && wraps >= 0.0 ==> length >= LegLength
    ensures wraps == 0.0 ==> length == LegLength
  {
    CoilPartNonNegative(id, d, wraps);
    PI * (id + d) * wraps + LegLength
  }

  lemma CoilPartNonNegative(id: real, d: real, wraps: real)
    ensures id >= 0.0 && d > 0.0 && wraps >= 0.0 ==> PI * (id + d) * wraps >= 0.0
  {
    if id >= 0.0 && d > 0.0 && wraps >= 0.0 {
      ProductPositive(PI, id + d);
      ProductNonNegative(PI * (id + d), wraps);
    }
  }

  /** The pipeline divides by the resistance, the surface area and the
      power; these are all non-zero exactly when the wound length and the
      voltage are.  The source passes any other input through as
      Infinity/NaN, which this model does not have. */
  predicate Computable(gauge: real, id: real, wraps: real, voltage: real)
    ensures voltage != 0.0 && id >= 0.0 && wraps >= 0.0 ==> Computable(gauge, id, wraps, voltage)
  {
    voltage != 0.0 && WoundLength(id, WireDiameter(gauge), wraps) != 0.0
  }

  /** `Math.max(0, Math.min(100, x))`. */
  function ClampPercent(x: real): (r: real)
    ensures 0.0 <= r <= 100.0
    ensures 0.0 <= x <= 100.0 ==> r == x
    ensures x < 0.0 ==> r == 0.0
    ensures x > 100.0 ==> r == 100.0
  {
    if 100.0 < x then 100.0 else if x < 0.0 then 0.0 else x
  }

  function Abs(x: real): real
  {
    if x < 0.0 then -x else x
  }

  /** The thermal class, chosen by the checks `< 120`, `> 300`, `> 220`
      in that order, Balanced otherwise. */
  function Classify(heatFlux: real): (c: ThermalClass)
    ensures c == Cool <==> heatFlux < 120.0
    ensures c == Hot <==> heatFlux > 300.0
    ensures c == Warm <==> 220.0 < heatFlux <= 300.0
    ensures c == Balanced <==> 120.0 <= heatFlux <= 220.0
  {
    if heatFlux < 120.0 then Cool
    else if heatFlux > 300.0 then Hot
    else if heatFlux > 220.0 then Warm
    else Balanced
  }

  /** `Math.pow(x, 2)`. */
  function Square(x: real): real
  {
    x * x
  }

  /** `Math.PI * Math.pow(d / 2, 2)`: the wire's cross-section in mm². */
  function CrossSection(d: real): (a: real)
    requires d > 0.0
    ensures a > 0.0
  {
    SquarePositive(d / 2.0);
    PI * Square(d / 2.0)
  }

  /** `RESISTIVITY[material] * (length / 1000) / area`: resistance of one
      strand of `length` mm, rho·L/A with the length in metres. */
  function StrandResistance(material: WireMaterial, length: real, area: real): (r: real)
    requires area != 0.0
    ensures length != 0.0 ==> r != 0.0
    ensures length > 0.0 && area > 0.0 ==> r > 0.0
  {
    ResistivitySigns(Resistivity(material), length, area);
    (Resistivity(material) * (length / 1000.0)) / area
  }

  lemma ResistivitySigns(rho: real, length: real, area: real)
    requires rho > 0.0 && area != 0.0
    ensures length != 0.0 ==> (rho * (length / 1000.0)) / area != 0.0
    ensures length > 0.0 && area > 0.0 ==> (rho * (length / 1000.0)) / area > 0.0
  {
    if length != 0.0 {
      ProductNonZero(rho, length / 1000.0);
      QuotientNonZero(rho * (length / 1000.0), area);
    }
    if length > 0.0 && area > 0.0 {
      ProductPositive(rho, length / 1000.0);
      QuotientPositive(rho * (length / 1000.0), area);
    }
  }

  /** Heat capacity in mJ/K of `volume` mm³ of the alloy: the volume in
      cm³ times the density gives grams, times the specific heat. */
  function HeatCapacityOf(material: WireMaterial, volume: real): (hc: real)
    ensures volume > 0.0 ==> hc > 0.0
  {
    MassHeatPositive(volume, Density(material), HeatCapacity(material));
    (volume / 1000.0) * Density(material) * HeatCapacity(material) * 1000.0
  }

  lemma MassHeatPositive(volume: real, rho: real, c: real)
    requires rho > 0.0 && c > 0.0
    ensures volume > 0.0 ==> (volume / 1000.0) * rho * c * 1000.0 > 0.0
  {
    if volume > 0.0 {
      ProductPositive(volume / 1000.0, rho);
      ProductPositive((volume / 1000.0) * rho, c);
    }
  }

  /** `singleCoilRes` and `finalResistance`: the strands of one coil are
      in parallel, and so are the coils of the deck. */
  function ParallelResistance(strand: real, strands: real, coils: real): (r: real)
    requires strands != 0.0 && coils != 0.0
    ensures r * (strands * coils) == strand
    ensures strand != 0.0 ==> r != 0.0
  {
    var singleCoilRes := strand / strands;
    ParallelSplit(strand, strands, coils);
    singleCoilRes / coils
  }

  /** `totalSurfaceArea = surfaceAreaPerCoil * numCoils`: every strand
      of every coil exposes a lateral surface of perimeter times length. */
  function DeckSurfaceArea(d: real, length: real, strands: real, coils: real): (sa: real)
    requires d > 0.0 && length != 0.0 && strands != 0.0 && coils != 0.0
    ensures sa == (PI * d * length) * (strands * coils)
    ensures sa != 0.0
  {
    var totalWireLengthPerCoil := length * strands;
    var surfaceAreaPerCoil := PI * d * totalWireLengthPerCoil;
    Regroup(PI * d, length, strands, coils);
    ProductPositive(PI, d);
    ProductNonZero(PI * d, length);
    ProductNonZero(strands, coils);
    ProductNonZero(PI * d * length, strands * coils);
    surfaceAreaPerCoil * coils
  }

  /** `totalVolume`: the volume of all the wire on the deck. */
  function DeckVolume(area: real, length: real, strands: real, coils: real): (v: real)
    ensures v == (area * length) * (strands * coils)
  {
    var totalWireLengthPerCoil := length * strands;
    Regroup(area, length, strands, coils);
    area * totalWireLengthPerCoil * coils
  }

  /** `strands · coils`: how many identical wound strands the deck
      carries. */
  function StrandCount(wireConfig: WireType, coilCount: CoilConfig): (k: real)
    ensures 1.0 <= k <= 8.4
  {
    StrandMultiplier(wireConfig) * CoilCountOf(coilCount)
  }

  /** The electrical and caloric part of the build, before the voltage
      is applied. */
  datatype Build = Build(resistance: real, surfaceArea: real, heatCapacity: real)

  /** The geometric and electrical half of `runSimulation`.  The deck is `k = strands · coils`
      identical strands of the wound length in parallel: the resistance is
      that of one strand divided by k, the surface area and the heat
      capacity are k times those of one strand. */
  function WireBuild(material: WireMaterial, wireConfig: WireType, coilCount: CoilConfig,
                     d: real, id: real, wraps: real): (b: Build)
    requires d > 0.0 && WoundLength(id, d, wraps) != 0.0
    ensures b.resistance != 0.0 && b.surfaceArea != 0.0
  {
    DeckBuild(material, d, CrossSection(d), WoundLength(id, d, wraps),
              StrandMultiplier(wireConfig), CoilCountOf(coilCount))
  }

  /** The build of `coils` coils of `strands` strands each, every strand
      `length` mm of wire of diameter `d` and cross-section `area`. */
  function DeckBuild(material: WireMaterial, d: real, area: real, length: real,
                     strands: real, coils: real): (b: Build)
    requires d > 0.0 && area != 0.0 && length != 0.0 && strands != 0.0 && coils != 0.0
    ensures b.resistance * (strands * coils) == StrandResistance(material, length, area)
    ensures b.surfaceArea == Times(PI * d * length, strands * coils)
    ensures b.heatCapacity == Times(HeatCapacityOf(material, area * length), strands * coils)
    ensures b.resistance != 0.0 && b.surfaceArea != 0.0
  {
    var resPerStrand := StrandResistance(material, length, area);
    HeatScales(material, area * length, strands * coils);
    Build(ParallelResistance(resPerStrand, strands, coils),
          DeckSurfaceArea(d, length, strands, coils),
          HeatCapacityOf(material, DeckVolume(area, length, strands, coils)))
  }

  /** The thermal half of `runSimulation`: the power P spreads over the surface area as the heat
      flux, heats the wire's heat capacity by 175 K in the ramp-up time,
      and the scores and the class are derived from the flux and the
      ramp-up time. */
  function Thermal(power: real, sa: real, hc: real): (s: SimulationResult)
    requires power != 0.0 && sa != 0.0
    ensures s.heatFlux * sa == power * 1000.0
    ensures s.rampUpTime * (power * 1000.0) == hc * RampDelta
    ensures s.stressIndex * ReferenceFlux == s.heatFlux * 100.0
    ensures s.stressIndex > 100.0 <==> s.heatFlux > ReferenceFlux
    ensures 0.0 <= s.efficiencyScore <= 100.0
    ensures s.thermalClass == Classify(s.heatFlux)
  {
    var heatFlux := power / sa * 1000.0;
    ProductNonZero(power, 1000.0);
    var rampUpTime := (hc * RampDelta) / (power * 1000.0);
    var stressIndex := (heatFlux / ReferenceFlux) * 100.0;
    var efficiencyScore := 100.0 - (rampUpTime * 10.0) - (Abs(heatFlux - 200.0) / 10.0);
    QuotientTimes(power, sa);
    QuotientTimes(hc * RampDelta, power * 1000.0);
    SimulationResult(heatFlux, rampUpTime, Classify(heatFlux), stressIndex, ClampPercent(efficiencyScore))
  }

  /** `power = Math.pow(voltage, 2) / finalResistance`, in W. */
  function Power(voltage: real, r: real): (p: real)
    requires voltage != 0.0 && r != 0.0
    ensures p != 0.0
    ensures Times(p, r) == Square(voltage)
  {
    SquarePositive(voltage);
    QuotientNonZero(Square(voltage), r);
    QuotientTimes(Square(voltage), r);
    Square(voltage) / r
  }

  /** The simulator's result, as `runSimulation` returns it. */
  datatype SimulationOutput = SimulationOutput(
    simulation: SimulationResult,
    resistance: real,       // Ω
    surfaceArea: real,      // mm²
    heatCapacity: real)     // mJ/K

  /** `runSimulation`: the build gives resistance, surface area and heat
      capacity, the voltage across the resistance gives the power, and the
      power through the build gives the thermal figures. */
  function RunSimulation(material: WireMaterial, wireConfig: WireType, coilCount: CoilConfig,
                         gauge: real, id: real, wraps: real, voltage: real): (out: SimulationOutput)
    requires Computable(gauge, id, wraps, voltage)
    ensures out.resistance != 0.0 && out.surfaceArea != 0.0
    ensures out.simulation.stressIndex * ReferenceFlux == out.simulation.heatFlux * 100.0
    ensures out.simulation.stressIndex > 100.0 <==> out.simulation.heatFlux > ReferenceFlux
    ensures 0.0 <= out.simulation.efficiencyScore <= 100.0
    ensures out.simulation.thermalClass == Classify(out.simulation.heatFlux)
  {
    var b := WireBuild(material, wireConfig, coilCount, WireDiameter(gauge), id, wraps);
    SimulationOutput(Thermal(Power(voltage, b.resistance), b.surfaceArea, b.heatCapacity),
                     b.resistance, b.surfaceArea, b.heatCapacity)
  }

  /** One strand of the wound length: its resistance, lateral surface and
      heat capacity. */
  function SingleStrandResistance(material: WireMaterial, d: real, id: real, wraps: real): real
    requires d > 0.0
  {
    StrandResistance(material, WoundLength(id, d, wraps), CrossSection(d))
  }

  function SingleStrandSurface(d: real, id: real, wraps: real): real
  {
    PI * d * WoundLength(id, d, wraps)
  }

  function SingleStrandHeatCapacity(material: WireMaterial, d: real, id: real, wraps: real): real
    requires d > 0.0
  {
    HeatCapacityOf(material, CrossSection(d) * WoundLength(id, d, wraps))
  }

  /** The parallel law: the deck resistance times the strand count is the
      resistance of a single strand of the wound length. */
  lemma ResistanceTimesStrands(material: WireMaterial, wireConfig: WireType, coilCount: CoilConfig,
                               d: real, id: real, wraps: real)
    requires d > 0.0 && WoundLength(id, d, wraps) != 0.0
    ensures Times(WireBuild(material, wireConfig, coilCount, d, id, wraps).resistance, StrandCount(wireConfig, coilCount))
            == SingleStrandResistance(material, d, id, wraps)
  {
    var length := WoundLength(id, d, wraps);
    var strands, coils := StrandMultiplier(wireConfig), CoilCountOf(coilCount);
    assert WireBuild(material, wireConfig, coilCount, d, id, wraps)
           == DeckBuild(material, d, CrossSection(d), length, strands, coils);
  }

  /** The surface area is the strand count times the lateral surface of
      one strand. */
  lemma SurfaceAreaOfStrands(material: WireMaterial, wireConfig: WireType, coilCount: CoilConfig,
                             d: real, id: real, wraps: real)
    requires d > 0.0 && WoundLength(id, d, wraps) != 0.0
    ensures WireBuild(material, wireConfig, coilCount, d, id, wraps).surfaceArea
            == Times(SingleStrandSurface(d, id, wraps), StrandCount(wireConfig, coilCount))
  {
    var length := WoundLength(id, d, wraps);
    var strands, coils := StrandMultiplier(wireConfig), CoilCountOf(coilCount);
    assert WireBuild(material, wireConfig, coilCount, d, id, wraps)
           == DeckBuild(material, d, CrossSection(d), length, strands, coils);
  }

  /** The heat capacity is the strand count times that of one strand. */
  lemma HeatCapacityOfStrands(material: WireMaterial, wireConfig: WireType, coilCount: CoilConfig,
                              d: real, id: real, wraps: real)
    requires d > 0.0 && WoundLength(id, d, wraps) != 0.0
    ensures WireBuild(material, wireConfig, coilCount, d, id, wraps).heatCapacity
            == Times(SingleStrandHeatCapacity(material, d, id, wraps), StrandCount(wireConfig, coilCount))
  {
    var length := WoundLength(id, d, wraps);
    var strands, coils := StrandMultiplier(wireConfig), CoilCountOf(coilCount);
    assert WireBuild(material, wireConfig, coilCount, d, id, wraps)
           == DeckBuild(material, d, CrossSection(d), length, strands, coils);
  }

  /** Scaling the resistance down by k scales the power up by k. */
  lemma PowerScales(voltage: real, r: real, k: real)
    requires voltage != 0.0 && r != 0.0 && k != 0.0
    ensures Times(r, k) != 0.0
    ensures Power(voltage, r) == Times(Power(voltage, Times(r, k)), k)
  {
    ProductNonZero(r, k);
    var p := Power(voltage, r);
    var q := Power(voltage, Times(r, k));
    assert p * r == q * (r * k);
    assert p == q * k by {
      CancelNonZero(p, q * k, r);
    }
  }

  /** k times the power through k times the surface and k times the heat
      capacity gives the same thermal figures. */
  lemma ThermalScales(power: real, sa: real, hc: real, k: real)
    requires power != 0.0 && sa != 0.0 && k != 0.0
    ensures Times(power, k) != 0.0 && Times(sa, k) != 0.0
    ensures Thermal(Times(power, k), Times(sa, k), Times(hc, k)) == Thermal(power, sa, hc)
  {
    ProductNonZero(power, k);
    ProductNonZero(sa, k);
    CancelFactor(power, sa, k);
    CancelFactor(hc * RampDelta, power * 1000.0, k);
    assert Times(hc, k) * RampDelta == Times(hc * RampDelta, k);
    assert Times(power, k) * 1000.0 == Times(power * 1000.0, k);
  }

  /** Whatever the wire configuration and coil count, the thermal figures
      are those of one strand driven by the power the voltage develops
      across one strand's resistance. */
  lemma SimulationOfOneStrand(material: WireMaterial, wireConfig: WireType, coilCount: CoilConfig,
                              gauge: real, id: real, wraps: real, voltage: real)
    requires Computable(gauge, id, wraps, voltage)
    ensures SingleStrandResistance(material, WireDiameter(gauge), id, wraps) != 0.0
    ensures SingleStrandSurface(WireDiameter(gauge), id, wraps) != 0.0
    ensures RunSimulation(material, wireConfig, coilCount, gauge, id, wraps, voltage).simulation
            == Thermal(Power(voltage, SingleStrandResistance(material, WireDiameter(gauge), id, wraps)),
                       SingleStrandSurface(WireDiameter(gauge), id, wraps),
                       SingleStrandHeatCapacity(material, WireDiameter(gauge), id, wraps))
  {
    var d := WireDiameter(gauge);
    var k := StrandCount(wireConfig, coilCount);
    var b := WireBuild(material, wireConfig, coilCount, d, id, wraps);
    ResistanceTimesStrands(material, wireConfig, coilCount, d, id, wraps);
    SurfaceAreaOfStrands(material, wireConfig, coilCount, d, id, wraps);
    HeatCapacityOfStrands(material, wireConfig, coilCount, d, id, wraps);
    TimesNonZero(b.resistance, k);
    FactorNonZero(SingleStrandSurface(d, id, wraps), k);
    PowerScales(voltage, b.resistance, k);
    ThermalScales(Power(voltage, SingleStrandResistance(material, d, id, wraps)),
                  SingleStrandSurface(d, id, wraps), SingleStrandHeatCapacity(material, d, id, wraps), k);
  }

  /** Heat flux, ramp-up time, and with them the stress index, efficiency
      and thermal class, do not depend on the wire configuration or the
      coil count: the multipliers cancel between power, surface area and
      heated mass. */
  lemma ThermalFiguresIndependentOfStrands(material: WireMaterial, w1: WireType, c1: CoilConfig,
                                           w2: WireType, c2: CoilConfig,
                                           gauge: real, id: real, wraps: real, voltage: real)
    requires Computable(gauge, id, wraps, voltage)
    ensures RunSimulation(material, w1, c1, gauge, id, wraps, voltage).simulation
            == RunSimulation(material, w2, c2, gauge, id, wraps, voltage).simulation
  {
    SimulationOfOneStrand(material, w1, c1, gauge, id, wraps, voltage);
    SimulationOfOneStrand(material, w2, c2, gauge, id, wraps, voltage);
  }

  /** For a real build (non-negative inner diameter and wraps) the wound
      length includes at least the legs, the inputs are computable for any
      non-zero voltage, and the resistance is strictly positive. */
  lemma ResistancePositive(material: WireMaterial, wireConfig: WireType, coilCount: CoilConfig,
                           gauge: real, id: real, wraps: real, voltage: real)
    requires id >= 0.0 && wraps >= 0.0 && voltage != 0.0
    ensures WoundLength(id, WireDiameter(gauge), wraps) >= LegLength
    ensures Computable(gauge, id, wraps, voltage)
            && RunSimulation(material, wireConfig, coilCount, gauge, id, wraps, voltage).resistance > 0.0
  {
    var d := WireDiameter(gauge);
    WoundLengthAtLeastLegs(id, d, wraps);
    ResistanceTimesStrands(material, wireConfig, coilCount, d, id, wraps);
    PositiveFactor(WireBuild(material, wireConfig, coilCount, d, id, wraps).resistance,
                   StrandCount(wireConfig, coilCount));
  }

  /** For a real build (non-negative inner diameter and wraps) and any
      non-zero voltage, every figure the pipeline derives from the build
      is positive: resistance, surface area, heat capacity, and with them
      the power, heat flux, ramp-up time and stress index. */
  lemma FiguresPositive(material: WireMaterial, wireConfig: WireType, coilCount: CoilConfig,
                        gauge: real, id: real, wraps: real, voltage: real)
    requires id >= 0.0 && wraps >= 0.0 && voltage != 0.0
    ensures Computable(gauge, id, wraps, voltage)
    ensures var out := RunSimulation(material, wireConfig, coilCount, gauge, id, wraps, voltage);
            out.resistance > 0.0 && out.surfaceArea > 0.0 && out.heatCapacity > 0.0
            && out.simulation.heatFlux > 0.0 && out.simulation.rampUpTime > 0.0
            && out.simulation.stressIndex > 0.0
  {
    var d := WireDiameter(gauge);
    ResistancePositive(material, wireConfig, coilCount, gauge, id, wraps, voltage);
    BuildPositive(material, wireConfig, coilCount, d, id, wraps);
    var b := WireBuild(material, wireConfig, coilCount, d, id, wraps);
    PowerPositive(voltage, b.resistance);
    ThermalPositive(Power(voltage, b.resistance), b.surfaceArea, b.heatCapacity);
  }

  /** A positive wound length gives a positive surface area and heat
      capacity. */
  lemma BuildPositive(material: WireMaterial, wireConfig: WireType, coilCount: CoilConfig,
                      d: real, id: real, wraps: real)
    requires d > 0.0 && id >= 0.0 && wraps >= 0.0
    ensures WoundLength(id, d, wraps) > 0.0
    ensures WireBuild(material, wireConfig, coilCount, d, id, wraps).surfaceArea > 0.0
    ensures WireBuild(material, wireConfig, coilCount, d, id, wraps).heatCapacity > 0.0
  {
    var length := WoundLength(id, d, wraps);
    var k := StrandCount(wireConfig, coilCount);
    WoundLengthAtLeastLegs(id, d, wraps);
    SurfaceAreaOfStrands(material, wireConfig, coilCount, d, id, wraps);
    HeatCapacityOfStrands(material, wireConfig, coilCount, d, id, wraps);
    ProductPositive(PI, d);
    ProductPositive(PI * d, length);
    TimesPositive(SingleStrandSurface(d, id, wraps), k);
    ProductPositive(CrossSection(d), length);
    TimesPositive(SingleStrandHeatCapacity(material, d, id, wraps), k);
  }

  /** A positive resistance takes positive power from any non-zero
      voltage. */
  lemma PowerPositive(voltage: real, r: real)
    requires voltage != 0.0 && r > 0.0
    ensures Power(voltage, r) > 0.0
  {
    SquarePositive(voltage);
    PositiveFactor(Power(voltage, r), r);
  }

  /** Positive power, surface and heat capacity give a positive heat flux,
      ramp-up time and stress index. */
  lemma ThermalPositive(power: real, sa: real, hc: real)
    requires power > 0.0 && sa > 0.0 && hc > 0.0
    ensures Thermal(power, sa, hc).heatFlux > 0.0
    ensures Thermal(power, sa, hc).rampUpTime > 0.0
    ensures Thermal(power, sa, hc).stressIndex > 0.0
  {
    var s := Thermal(power, sa, hc);
    assert Times(s.heatFlux, sa) == power * 1000.0;
    PositiveFactor(s.heatFlux, sa);
    ProductPositive(power, 1000.0);
    assert Times(s.rampUpTime, power * 1000.0) == hc * RampDelta;
    PositiveFactor(s.rampUpTime, power * 1000.0);
    assert Times(s.stressIndex, ReferenceFlux) == s.heatFlux * 100.0;
    PositiveFactor(s.stressIndex, ReferenceFlux);
  }

  /** With everything else fixed, more wraps give a strictly higher
      resistance. */
  lemma ResistanceIncreasesWithWraps(material: WireMaterial, wireConfig: WireType, coilCount: CoilConfig,
                                     gauge: real, id: real, wraps1: real, wraps2: real, voltage: real)
    requires id >= 0.0 && 0.0 <= wraps1 < wraps2 && voltage != 0.0
    ensures Computable(gauge, id, wraps1, voltage) && Computable(gauge, id, wraps2, voltage)
            && RunSimulation(material, wireConfig, coilCount, gauge, id, wraps1, voltage).resistance
               < RunSimulation(material, wireConfig, coilCount, gauge, id, wraps2, voltage).resistance
  {
    var d := WireDiameter(gauge);
    var k := StrandCount(wireConfig, coilCount);
    WoundLengthAtLeastLegs(id, d, wraps1);
    WoundLengthAtLeastLegs(id, d, wraps2);
    WoundLengthIncreases(id, d, wraps1, wraps2);
    StrandResistanceIncreases(material, WoundLength(id, d, wraps1), WoundLength(id, d, wraps2), CrossSection(d));
    ResistanceTimesStrands(material, wireConfig, coilCount, d, id, wraps1);
    ResistanceTimesStrands(material, wireConfig, coilCount, d, id, wraps2);
    CancelLess(WireBuild(material, wireConfig, coilCount, d, id, wraps1).resistance,
               WireBuild(material, wireConfig, coilCount, d, id, wraps2).resistance, k);
  }

  /** With the geometry fixed, a deck with more parallel strands has a
      strictly lower resistance. */
  lemma ResistanceDecreasesWithStrands(material: WireMaterial, w1: WireType, c1: CoilConfig,
                                       w2: WireType, c2: CoilConfig,
                                       gauge: real, id: real, wraps: real, voltage: real)
    requires id >= 0.0 && wraps >= 0.0 && voltage != 0.0
    requires StrandCount(w1, c1) < StrandCount(w2, c2)
    ensures Computable(gauge, id, wraps, voltage)
            && RunSimulation(material, w1, c1, gauge, id, wraps, voltage).resistance
               > RunSimulation(material, w2, c2, gauge, id, wraps, voltage).resistance
  {
    var d := WireDiameter(gauge);
    WoundLengthAtLeastLegs(id, d, wraps);
    ResistanceTimesStrands(material, w1, c1, d, id, wraps);
    ResistanceTimesStrands(material, w2, c2, d, id, wraps);
    SharedProductDecreases(WireBuild(material, w1, c1, d, id, wraps).resistance, StrandCount(w1, c1),
                           WireBuild(material, w2, c2, d, id, wraps).resistance, StrandCount(w2, c2));
  }

  /** Single, Dual, Triple, Quad: each step down the list lowers the
      resistance. */
  lemma MoreCoilsLowerResistance(material: WireMaterial, wireConfig: WireType, c1: CoilConfig, c2: CoilConfig,
                                 gauge: real, id: real, wraps: real, voltage: real)
    requires id >= 0.0 && wraps >= 0.0 && voltage != 0.0
    requires CoilCountOf(c1) < CoilCountOf(c2)
    ensures Computable(gauge, id, wraps, voltage)
            && RunSimulation(material, wireConfig, c1, gauge, id, wraps, voltage).resistance
               > RunSimulation(material, wireConfig, c2, gauge, id, wraps, voltage).resistance
  {
    assert StrandCount(wireConfig, c1) < StrandCount(wireConfig, c2) by {
      match wireConfig
      case Round =>
      case Parallel =>
      case Twisted =>
    }
    ResistanceDecreasesWithStrands(material, wireConfig, c1, wireConfig, c2, gauge, id, wraps, voltage);
  }

  /** Round, Parallel, Twisted: each step down the list lowers the
      resistance. */
  lemma MoreStrandsLowerResistance(material: WireMaterial, w1: WireType, w2: WireType, coilCount: CoilConfig,
                                   gauge: real, id: real, wraps: real, voltage: real)
    requires id >= 0.0 && wraps >= 0.0 && voltage != 0.0
    requires StrandMultiplier(w1) < StrandMultiplier(w2)
    ensures Computable(gauge, id, wraps, voltage)
            && RunSimulation(material, w1, coilCount, gauge, id, wraps, voltage).resistance
               > RunSimulation(material, w2, coilCount, gauge, id, wraps, voltage).resistance
  {
    assert StrandCount(w1, coilCount) < StrandCount(w2, coilCount) by {
      match coilCount
      case Single =>
      case Dual =>
      case Triple =>
      case Quad =>
    }
    ResistanceDecreasesWithStrands(material, w1, coilCount, w2, coilCount, gauge, id, wraps, voltage);
  }

  /** The calculator's default build (Kanthal A1, gauge 26, round wire,
      single coil, 3 mm inner diameter, 6 wraps, 3.7 V) comes out at about
      0.779 Ω with a flux of about 199.7 mW/mm², which is Balanced. */
  lemma DefaultBuildIsBalanced()
    ensures Computable(26.0, 3.0, 6.0, 3.7)
    ensures var out := RunSimulation(KanthalA1, Round, Single, 26.0, 3.0, 6.0, 3.7);
            0.778 < out.resistance < 0.779
            && 199.0 < out.simulation.heatFlux < 200.0
            && out.simulation.thermalClass == Balanced
  {
    GaugeTableKeys();
    var d := WireDiameter(26.0);
    assert d == 0.405;
    var length, area := WoundLength(3.0, d, 6.0), CrossSection(d);
    assert length == PI * 3.405 * 6.0 + 5.0;
    assert area == PI * (0.2025 * 0.2025);
    var b := WireBuild(KanthalA1, Round, Single, d, 3.0, 6.0);
    ResistanceTimesStrands(KanthalA1, Round, Single, d, 3.0, 6.0);
    SurfaceAreaOfStrands(KanthalA1, Round, Single, d, 3.0, 6.0);
    assert StrandCount(Round, Single) == 1.0;
    var r := 1.45 * (length / 1000.0) / area;
    assert b.resistance == r;
    var sa := PI * d * length;
    assert b.surfaceArea == sa;
    DefaultBuildFigures(length, area, r, sa);
    var flux := Thermal(Power(3.7, r), sa, b.heatCapacity).heatFlux;
    assert flux == (3.7 * 3.7) / r / sa * 1000.0;
  }

  /** The default build's figures, worked out from its wound length and
      cross-section. */
  lemma DefaultBuildFigures(length: real, area: real, r: real, sa: real)
    requires length == PI * 3.405 * 6.0 + 5.0 && area == PI * (0.2025 * 0.2025)
    requires r == 1.45 * (length / 1000.0) / area && sa == PI * 0.405 * length
    ensures 0.778 < r < 0.779
    ensures 199.0 < (3.7 * 3.7) / r / sa * 1000.0 < 200.0
  {
  }

  /** A thin build (Kanthal A1, gauge 32, 2 mm, 3 wraps, 3.7 V) runs
      Hot, past the reference flux: its stress index, which is not clamped,
      exceeds 100. */
  lemma ThinBuildOverstressed()
    ensures Computable(32.0, 2.0, 3.0, 3.7)
    ensures var out := RunSimulation(KanthalA1, Round, Single, 32.0, 2.0, 3.0, 3.7);
            out.simulation.thermalClass == Hot && out.simulation.stressIndex > 200.0
  {
    var d := WireDiameter(32.0);
    assert d == 0.202;
    var length, area := WoundLength(2.0, d, 3.0), CrossSection(d);
    assert length == PI * 2.202 * 3.0 + 5.0;
    assert area == PI * (0.101 * 0.101);
    var b := WireBuild(KanthalA1, Round, Single, d, 2.0, 3.0);
    ResistanceTimesStrands(KanthalA1, Round, Single, d, 2.0, 3.0);
    SurfaceAreaOfStrands(KanthalA1, Round, Single, d, 2.0, 3.0);
    assert StrandCount(Round, Single) == 1.0;
    var r := 1.45 * (length / 1000.0) / area;
    assert b.resistance == r;
    var sa := PI * d * length;
    assert b.surfaceArea == sa;
    ThinBuildFigures(length, area, r, sa);
    var flux := Thermal(Power(3.7, r), sa, b.heatCapacity).heatFlux;
    assert flux == (3.7 * 3.7) / r / sa * 1000.0;
  }

  /** The thin build's flux, worked out from its wound length and
      cross-section. */
  lemma ThinBuildFigures(length: real, area: real, r: real, sa: real)
    requires length == PI * 2.202 * 3.0 + 5.0 && area == PI * (0.101 * 0.101)
    requires r == 1.45 * (length / 1000.0) / area && sa == PI * 0.202 * length
    ensures r > 0.0 && (3.7 * 3.7) / r / sa * 1000.0 > 700.0
  {
  }

  // ---- arithmetic steps the solver is given explicitly ----

  /** A square of a non-zero number is positive. */
  lemma SquarePositive(x: real)
    requires x != 0.0
    ensures Square(x) > 0.0
  {
    if x > 0.0 {
      TimesPositive(x, x);
    } else {
      TimesPositive(-x, -x);
      assert Times(-x, -x) == Square(x);
    }
    assert Square(x) == Times(x, x);
  }

  function Times(x: real, y: real): real
  {
    x * y
  }

  lemma TimesPositive(x: real, y: real)
    requires x > 0.0 && y > 0.0
    ensures Times(x, y) > 0.0
  {
  }

  /** Dividing by the strands and then by the coils is dividing by their
      product. */
  lemma ParallelSplit(x: real, m: real, n: real)
    requires m != 0.0 && n != 0.0
    ensures (x / m) / n * (m * n) == x
  {
    QuotientTimes(x / m, n);
    QuotientTimes(x, m);
  }

  lemma Regroup(a: real, b: real, m: real, n: real)
    ensures (a * (b * m)) * n == (a * b) * (m * n)
  {
  }

  /** Heat capacity is proportional to the volume. */
  lemma HeatScales(material: WireMaterial, v: real, k: real)
    ensures HeatCapacityOf(material, v * k) == HeatCapacityOf(material, v) * k
  {
  }

  lemma CancelFactor(x: real, y: real, k: real)
    requires y != 0.0 && k != 0.0
    ensures Times(y, k) != 0.0
    ensures Times(x, k) / Times(y, k) == x / y
  {
    ProductNonZero(y, k);
    var q := x / y;
    QuotientTimes(x, y);
    assert Times(x, k) == q * Times(y, k);
  }

  lemma TimesNonZero(x: real, y: real)
    requires x != 0.0 && y != 0.0
    ensures Times(x, y) != 0.0
  {
    ProductNonZero(x, y);
  }

  lemma FactorNonZero(x: real, y: real)
    requires Times(x, y) != 0.0
    ensures x != 0.0
  {
  }

  lemma WoundLengthAtLeastLegs(id: real, d: real, wraps: real)
    requires id >= 0.0 && d > 0.0 && wraps >= 0.0
    ensures WoundLength(id, d, wraps) >= LegLength
  {
    ProductPositive(PI, id + d);
    ProductNonNegative(PI * (id + d), wraps);
  }

  lemma WoundLengthIncreases(id: real, d: real, wraps1: real, wraps2: real)
    requires id >= 0.0 && d > 0.0 && wraps1 < wraps2
    ensures WoundLength(id, d, wraps1) < WoundLength(id, d, wraps2)
  {
    ProductPositive(PI, id + d);
    ProductIncreases(PI * (id + d), wraps1, wraps2);
  }

  lemma StrandResistanceIncreases(material: WireMaterial, length1: real, length2: real, area: real)
    requires length1 < length2 && area > 0.0
    ensures StrandResistance(material, length1, area) < StrandResistance(material, length2, area)
  {
    ProductIncreases(Resistivity(material), length1 / 1000.0, length2 / 1000.0);
    QuotientIncreases(Resistivity(material) * (length1 / 1000.0), Resistivity(material) * (length2 / 1000.0), area);
  }

  lemma PositiveFactor(x: real, k: real)
    requires k > 0.0 && Times(x, k) > 0.0
    ensures x > 0.0
  {
    if x <= 0.0 {
      ProductNonPositive(x, k);
    }
  }

  lemma CancelLess(x: real, y: real, k: real)
    requires k > 0.0 && Times(x, k) < Times(y, k)
    ensures x < y
  {
    if y <= x {
      ProductIncreasesWeakly(k, y, x);
    }
  }

  /** Two products equal to the same positive value: the larger second
      factor goes with the smaller first factor. */
  lemma SharedProductDecreases(x1: real, k1: real, x2: real, k2: real)
    requires 0.0 < k1 < k2 && Times(x1, k1) == Times(x2, k2) && Times(x1, k1) > 0.0
    ensures x1 > x2
  {
    PositiveFactor(x2, k2);
    ProductIncreases(x2, k1, k2);
    if x1 <= x2 {
      ProductIncreasesWeakly(k1, x1, x2);
    }
  }

  lemma ProductNonNegative(x: real, y: real)
    requires x >= 0.0 && y >= 0.0
    ensures x * y >= 0.0
  {
  }

  lemma ProductNonPositive(x: real, k: real)
    requires x <= 0.0 && k > 0.0
    ensures Times(x, k) <= 0.0
  {
  }

  lemma ProductIncreases(c: real, x: real, y: real)
    requires c > 0.0 && x < y
    ensures c * x < c * y
  {
  }

  lemma ProductIncreasesWeakly(c: real, x: real, y: real)
    requires c > 0.0 && x <= y
    ensures Times(x, c) <= Times(y, c)
  {
  }

  lemma QuotientPositive(x: real, y: real)
    requires x > 0.0 && y > 0.0
    ensures x / y > 0.0
  {
  }

  lemma QuotientIncreases(x: real, y: real, c: real)
    requires x < y && c > 0.0
    ensures x / c < y / c
  {
  }

  lemma CancelNonZero(x: real, y: real, c: real)
    requires c != 0.0 && x * c == y * c
    ensures x == y
  {
  }

  lemma ProductPositive(x: real, y: real)
    requires x > 0.0 && y > 0.0
    ensures x * y > 0.0
  {
  }

  lemma ProductNonZero(x: real, y: real)
    requires x != 0.0 && y != 0.0
    ensures x * y != 0.0
  {
  }

  lemma QuotientNonZero(x: real, y: real)
    requires x != 0.0 && y != 0.0
    ensures x / y != 0.0
  {
  }

  lemma QuotientTimes(x: real, y: real)
    requires y != 0.0
    ensures (x / y) * y == x
  {
  }
}
