/** The coil calculator screen: it re-runs the simulator whenever an input
    changes, derives the amp draw and the safety flag against the
    battery's continuous discharge rating (CDR), bands the heat flux for
    display, and saves the current build as a coil class. */
module CoilCalculator {
  import opened Seqs
  import opened Types
  import opened SimulationEngine

  /** The `sim` state record: the simulator's outputs plus amp draw and
      the safety flag. */
  datatype SimState = SimState(
    res: real,
    sa: real,
    hc: real,
    data: SimulationResult,
    amp: real,
    isSafe: bool)

  /** Ohm's law: the current drawn at `voltage` through `res`. */
  function AmpDraw(voltage: real, res: real): (amp: real)
    requires res != 0.0
    ensures Times(amp, res) == voltage
  {
    QuotientTimes(voltage, res);
    voltage / res
  }

  /** The effect body: the simulator's outputs for the inputs, the amp
      draw, and "safe" exactly when the draw stays strictly below the
      CDR. */
  function Simulate(material: WireMaterial, wireConfig: WireType, coilCount: CoilConfig,
                    gauge: real, id: real, wraps: real, voltage: real, cdr: real): (s: SimState)
    requires Computable(gauge, id, wraps, voltage)
    ensures var out := RunSimulation(material, wireConfig, coilCount, gauge, id, wraps, voltage);
            s.res == out.resistance && s.sa == out.surfaceArea && s.hc == out.heatCapacity
            && s.data == out.simulation
    ensures s.res != 0.0 && Times(s.amp, s.res) == voltage
    ensures s.isSafe <==> s.amp < cdr
  {
    var out := RunSimulation(material, wireConfig, coilCount, gauge, id, wraps, voltage);
    var amp := AmpDraw(voltage, out.resistance);
    SimState(out.resistance, out.surfaceArea, out.heatCapacity, out.simulation, amp, amp < cdr)
  }

  /** For a positive resistance the flag is the current limit in Ohm's
      form: safe exactly when the voltage is below CDR times resistance.
      An amp draw equal to the CDR is unsafe. */
  lemma SafeIffBelowCurrentLimit(material: WireMaterial, wireConfig: WireType, coilCount: CoilConfig,
                                 gauge: real, id: real, wraps: real, voltage: real, cdr: real)
    requires Computable(gauge, id, wraps, voltage)
    requires Simulate(material, wireConfig, coilCount, gauge, id, wraps, voltage, cdr).res > 0.0
    ensures var s := Simulate(material, wireConfig, coilCount, gauge, id, wraps, voltage, cdr);
            s.isSafe <==> voltage < Times(cdr, s.res)
  {
    var s := Simulate(material, wireConfig, coilCount, gauge, id, wraps, voltage, cdr);
    if s.amp < cdr {
      ProductIncreasesStrictly(s.res, s.amp, cdr);
    } else {
      ProductIncreasesWeakly(s.res, cdr, s.amp);
    }
  }

  /** A real build on a positive voltage draws a positive current. */
  lemma AmpPositive(material: WireMaterial, wireConfig: WireType, coilCount: CoilConfig,
                    gauge: real, id: real, wraps: real, voltage: real, cdr: real)
    requires id >= 0.0 && wraps >= 0.0 && voltage > 0.0
    ensures Computable(gauge, id, wraps, voltage)
    ensures var s := Simulate(material, wireConfig, coilCount, gauge, id, wraps, voltage, cdr);
            s.res > 0.0 && s.amp > 0.0
  {
    ResistancePositive(material, wireConfig, coilCount, gauge, id, wraps, voltage);
    var s := Simulate(material, wireConfig, coilCount, gauge, id, wraps, voltage, cdr);
    PositiveFactor(s.amp, s.res);
  }

  lemma ProductIncreasesStrictly(c: real, x: real, y: real)
    requires c > 0.0 && x < y
    ensures Times(x, c) < Times(y, c)
  {
  }

  /** The colour of the heat-flux read-out. */
  datatype FluxBand = Blue | Green | Orange | Red

  function FluxColor(heatFlux: real): (b: FluxBand)
    ensures b == Blue <==> heatFlux < 150.0
    ensures b == Green <==> 150.0 <= heatFlux < 250.0
    ensures b == Orange <==> 250.0 <= heatFlux < 350.0
    ensures b == Red <==> heatFlux >= 350.0
  {
    if heatFlux < 150.0 then Blue
    else if heatFlux < 250.0 then Green
    else if heatFlux < 350.0 then Orange
    else Red
  }

  /** The stress read-out is red above 80. */
  predicate StressShownRed(stressIndex: real)
  {
    stressIndex > 80.0
  }

  /** On a simulated build the red flux band is exactly a stress index of
      at least 100, and the stress read-out turns red exactly above a flux
      of 280 mW/mm², well before the flux band does. */
  lemma ReadOutsAgree(material: WireMaterial, wireConfig: WireType, coilCount: CoilConfig,
                      gauge: real, id: real, wraps: real, voltage: real)
    requires Computable(gauge, id, wraps, voltage)
    ensures var sim := RunSimulation(material, wireConfig, coilCount, gauge, id, wraps, voltage).simulation;
            (FluxColor(sim.heatFlux) == Red <==> sim.stressIndex >= 100.0)
            && (StressShownRed(sim.stressIndex) <==> sim.heatFlux > 280.0)
  {
  }

  /** The flux bands refine the thermal classes at their ends: a Cool
      build is always shown blue and a Hot build orange or red. */
  lemma BandsAgreeWithClass(heatFlux: real)
    ensures Classify(heatFlux) == Cool ==> FluxColor(heatFlux) == Blue
    ensures Classify(heatFlux) == Hot ==> FluxColor(heatFlux) in {Orange, Red}
  {
  }

  /** The coil class `handleSave` builds from the current inputs and
      simulation.  `stamp` is the text of `Date.now()` and `resLabel` the
      two-decimal rendering of the resistance, both supplied by the
      caller. */
  function SavedCoil(material: WireMaterial, wireConfig: WireType, coilCount: CoilConfig,
                     gauge: real, id: real, wraps: real, sim: SimState, name: string,
                     stamp: string, now: int, resLabel: string): (c: CoilStats)
    ensures c.id == "coil-" + stamp && c.createdAt == now
    ensures c.name == Some(if name != "" then name
                           else MaterialName(material) + " " + WireTypeName(wireConfig) + " " + resLabel + "Ω")
    ensures c.material == Some(material) && c.wireConfig == Some(wireConfig) && c.coilCount == Some(coilCount)
    ensures c.gauge == Some(gauge) && c.innerDiameter == Some(id) && c.wraps == Some(wraps)
    ensures c.resistance == sim.res && c.coilType == Some(Contact)
    ensures c.liquidConsumed == Some(0.0) && c.usageCount == Some(0) && c.images == []
    ensures c.simulation == Some(sim.data) && c.heatCapacity == Some(sim.hc) && c.surfaceArea == Some(sim.sa)
  {
    var title := if name != "" then name
                 else MaterialName(material) + " " + WireTypeName(wireConfig) + " " + resLabel + "Ω";
    CoilStats("coil-" + stamp, Some(title), Some(gauge), sim.res, Some(material), Some(wraps), Some(id),
              Some(Contact), Some(wireConfig), Some(coilCount), Some(0.0), Some(0), Some(sim.data),
              Some(sim.hc), Some(sim.sa), [], now)
  }

  /** A coil saved from an up-to-date simulation records a build whose
      re-simulation reproduces the stored figures. */
  lemma SavedCoilReproducible(material: WireMaterial, wireConfig: WireType, coilCount: CoilConfig,
                              gauge: real, id: real, wraps: real, voltage: real, cdr: real,
                              name: string, stamp: string, now: int, resLabel: string)
    requires Computable(gauge, id, wraps, voltage)
    ensures var c := SavedCoil(material, wireConfig, coilCount, gauge, id, wraps,
                               Simulate(material, wireConfig, coilCount, gauge, id, wraps, voltage, cdr),
                               name, stamp, now, resLabel);
            var out := RunSimulation(c.material.value, c.wireConfig.value, c.coilCount.value,
                                     c.gauge.value, c.innerDiameter.value, c.wraps.value, voltage);
            c.simulation == Some(out.simulation) && c.resistance == out.resistance
            && c.surfaceArea == Some(out.surfaceArea) && c.heatCapacity == Some(out.heatCapacity)
  {
  }

  /** The calculator's state.  `sim` is `None` until the effect has run
      once; from then on it holds the simulation of the current inputs. */
  class Calculator {
    var material: WireMaterial
    var wireConfig: WireType
    var coilCount: CoilConfig
    var gauge: real
    var innerDiameter: real
    var wraps: real
    var voltage: real
    var cdr: real
    var sim: Option<SimState>
    var name: string

    /** The simulation, when present, is that of the current inputs. */
    ghost predicate Valid()
      reads this
    {
      sim.Some? ==>
        Computable(gauge, innerDiameter, wraps, voltage)
        && sim.value == Simulate(material, wireConfig, coilCount, gauge, innerDiameter, wraps, voltage, cdr)
    }

    /** The initial inputs: Kanthal A1, round wire, a single coil of 26 AWG
        on a 3 mm core with 6 wraps, 3.7 V against a 20 A battery. */
    constructor ()
      ensures Valid()
      ensures material == KanthalA1 && wireConfig == Round && coilCount == Single
      ensures gauge == 26.0 && innerDiameter == 3.0 && wraps == 6.0
      ensures voltage == 3.7 && cdr == 20.0
      ensures sim == None && name == ""
    {
      material, wireConfig, coilCount := KanthalA1, Round, Single;
      gauge, innerDiameter, wraps := 26.0, 3.0, 6.0;
      voltage, cdr := 3.7, 20.0;
      sim := None;
      name := "";
    }

    /** The effect: recompute the simulation from the current inputs,
        including when only the CDR changed. */
    method Refresh()
      requires Computable(gauge, innerDiameter, wraps, voltage)
      modifies this`sim
      ensures Valid()
      ensures sim == Some(Simulate(material, wireConfig, coilCount, gauge, innerDiameter, wraps, voltage, cdr))
    {
      sim := Some(Simulate(material, wireConfig, coilCount, gauge, innerDiameter, wraps, voltage, cdr));
    }

    /** An edit of the build inputs followed by the effect it triggers.
        The screen has no control for the voltage or the battery rating,
        so those keep their initial values. */
    method SetBuild(material': WireMaterial, wireConfig': WireType, coilCount': CoilConfig,
                    gauge': real, id': real, wraps': real)
      requires Computable(gauge', id', wraps', voltage)
      modifies this
      ensures Valid()
      ensures material == material' && wireConfig == wireConfig' && coilCount == coilCount'
      ensures gauge == gauge' && innerDiameter == id' && wraps == wraps'
      ensures voltage == old(voltage) && cdr == old(cdr) && name == old(name)
      ensures sim == Some(Simulate(material', wireConfig', coilCount', gauge', id', wraps', voltage, cdr))
    {
      material, wireConfig, coilCount := material', wireConfig', coilCount';
      gauge, innerDiameter, wraps := gauge', id', wraps';
      Refresh();
    }

    method SetName(name': string)
      requires Valid()
      modifies this`name
      ensures Valid() && name == name'
    {
      name := name';
    }

    /** `handleSave`: nothing happens without a save callback or before
        the first simulation; otherwise the coil class is produced and the
        name field is cleared. */
    method HandleSave(hasCallback: bool, stamp: string, now: int, resLabel: string)
      returns (saved: Option<CoilStats>)
      requires Valid()
      modifies this`name
      ensures Valid()
      ensures !hasCallback || old(sim).None? ==> saved == None && name == old(name)
      ensures hasCallback && sim.Some? ==>
                saved == Some(SavedCoil(material, wireConfig, coilCount, gauge, innerDiameter, wraps,
                                        sim.value, old(name), stamp, now, resLabel))
                && name == ""
    {
      if !hasCallback || sim.None? {
        return None;
      }
      saved := Some(SavedCoil(material, wireConfig, coilCount, gauge, innerDiameter, wraps,
                              sim.value, name, stamp, now, resLabel));
      name := "";
    }
  }
}
