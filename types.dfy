/** The records and enumerations of the gear tracker.  Optional
    TypeScript properties (`name?: string`) become `Option` fields; numbers
    are `real`, timestamps from `Date.now()` are `int`. */
module Types {
  import opened Seqs

  /** The supported alloys; `MaterialName` is the enum's string value. */
  datatype WireMaterial = KanthalA1 | Nichrome80 | SS316L | Ni200 | Titanium

  function MaterialName(m: WireMaterial): (name: string)
    ensures name != ""
  {
    match m
    case KanthalA1 => "Kanthal A1"
    case Nichrome80 => "Ni80"
    case SS316L => "SS316L"
    case Ni200 => "Ni200"
    case Titanium => "Titanium"
  }

  /** The enum's string values are distinct, so a saved coil's label names
      its alloy unambiguously. */
  lemma MaterialNamesDistinct(m1: WireMaterial, m2: WireMaterial)
    ensures MaterialName(m1) == MaterialName(m2) <==> m1 == m2
  {
  }

  datatype WireType = Round | Parallel | Twisted

  function WireTypeName(w: WireType): string
  {
    match w
    case Round => "Round"
    case Parallel => "Parallel"
    case Twisted => "Twisted"
  }

  datatype CoilConfig = Single | Dual | Triple | Quad

  datatype CoilType = Spaced | Contact

  datatype ThermalClass = Cool | Balanced | Warm | Hot

  datatype SimulationResult = SimulationResult(
    heatFlux: real,         // mW/mm²
    rampUpTime: real,       // seconds
    thermalClass: ThermalClass,
    stressIndex: real,
    efficiencyScore: real)

  /** A coil class in the library. */
  datatype CoilStats = CoilStats(
    id: string,
    name: Option<string>,
    gauge: Option<real>,
    resistance: real,
    material: Option<WireMaterial>,
    wraps: Option<real>,
    innerDiameter: Option<real>,
    coilType: Option<CoilType>,
    wireConfig: Option<WireType>,
    coilCount: Option<CoilConfig>,
    liquidConsumed: Option<real>,
    usageCount: Option<int>,
    simulation: Option<SimulationResult>,
    heatCapacity: Option<real>,
    surfaceArea: Option<real>,
    images: seq<string>,
    createdAt: int)

  datatype WickStatus = Active | Archived

  /** One wicking session on an atomizer.  The fields are those the
      wicking form actually writes (it writes `airflowType` and
      `airflowSetting` and no `status`), so `status` is optional. */
  datatype WickingHistory = WickingHistory(
    id: string,
    atomizerId: string,
    coilId: Option<string>,
    cottonId: string,
    liquidId: string,
    wattage: real,
    airflowType: string,
    airflowSetting: string,
    mlConsumed: real,
    maxWickLife: real,
    notes: string,
    sweetSpot: Option<string>,
    degradationScore: real,
    status: Option<WickStatus>,
    date: int,
    isActive: bool)

  datatype LiquidType = Freebase | NicSalt | Shortfill

  datatype ItemSpecs = ItemSpecs(
    liquidType: Option<LiquidType>,
    nicotineStrength: Option<real>,
    flavor: Option<string>,
    bottleSize: Option<string>)

  /** An inventory item.  The category is kept as a string: the wicking
      form looks for `liquid_salt` and `liquid_ejuice`, the DIY mixer
      writes `liquid`.  An item not yet added carries the id "". */
  datatype InventoryItem = InventoryItem(
    id: string,
    name: string,
    brand: Option<string>,
    imageUrl: Option<string>,
    description: Option<string>,
    category: string,
    price: Option<real>,
    specs: Option<ItemSpecs>,
    createdAt: Option<int>)

  datatype UserExperience = UserExperience(
    id: string,
    topic: string,
    content: string,
    setupIds: seq<string>,
    aiAnalysis: Option<string>,
    rating: int,
    date: int)

  datatype Language = En | Fa
}
