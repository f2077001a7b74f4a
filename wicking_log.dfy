/** The wicking form: the option lists it offers, the wick-life default a
    chosen coil sets, and the session record a submission produces. */
module WickingLog {
  import opened Seqs
  import opened Types
  import Inventory
  import App
  import Stats
  import LiquidCalculator

  predicate IsCotton(item: InventoryItem)
  {
    item.category == "cotton"
  }

  /** The liquids the form offers: salts and e-juices. */
  predicate IsWickLiquid(item: InventoryItem)
  {
    item.category == "liquid_salt" || item.category == "liquid_ejuice"
  }

  predicate IsStockCoil(item: InventoryItem)
  {
    item.category == "prebuilt_coil" || item.category == "pod_cartridge"
  }

  /** The four option lists, each the matching items in inventory order. */
  function Atomizers(inventory: seq<InventoryItem>): (r: seq<InventoryItem>)
    ensures forall x :: x in r <==> x in inventory && Inventory.IsDevice(x)
    ensures SubsequenceOf(r, inventory)
  {
    FilterIsSubsequence(Inventory.IsDevice, inventory);
    Filter(Inventory.IsDevice, inventory)
  }

  function Cottons(inventory: seq<InventoryItem>): (r: seq<InventoryItem>)
    ensures forall x :: x in r <==> x in inventory && IsCotton(x)
    ensures SubsequenceOf(r, inventory)
  {
    FilterIsSubsequence(IsCotton, inventory);
    Filter(IsCotton, inventory)
  }

  function WickLiquids(inventory: seq<InventoryItem>): (r: seq<InventoryItem>)
    ensures forall x :: x in r <==> x in inventory && IsWickLiquid(x)
    ensures SubsequenceOf(r, inventory)
  {
    FilterIsSubsequence(IsWickLiquid, inventory);
    Filter(IsWickLiquid, inventory)
  }

  function StockCoils(inventory: seq<InventoryItem>): (r: seq<InventoryItem>)
    ensures forall x :: x in r <==> x in inventory && IsStockCoil(x)
    ensures SubsequenceOf(r, inventory)
  {
    FilterIsSubsequence(IsStockCoil, inventory);
    Filter(IsStockCoil, inventory)
  }

  /** No item is offered in two of the lists. */
  lemma OptionListsDisjoint(item: InventoryItem)
    ensures Inventory.IsDevice(item) ==> !IsCotton(item) && !IsWickLiquid(item) && !IsStockCoil(item)
    ensures IsCotton(item) ==> !IsWickLiquid(item) && !IsStockCoil(item)
    ensures IsWickLiquid(item) ==> !IsStockCoil(item)
  {
  }

  /** Every liquid the form offers is also a liquid to the cost engine,
      but a DIY recipe saved from the mixer (category `liquid`) is costed
      there and never offered here. */
  lemma WickLiquidsAreCosted(item: InventoryItem, recipeName: string, targetNic: real,
                             flavorText: string, nicText: string, volumeText: string)
    ensures IsWickLiquid(item) ==> Stats.IsLiquid(item)
    ensures var recipe := LiquidCalculator.RecipeItem(recipeName, targetNic, flavorText, nicText, volumeText);
            Stats.IsLiquid(recipe) && !IsWickLiquid(recipe)
  {
    assert OccursAt("liquid_salt", "liquid", 0);
    assert OccursAt("liquid_ejuice", "liquid", 0);
    assert OccursAt("liquid", "liquid", 0);
  }

  /** The wick life a coil of this material suggests. */
  function SuggestedLife(material: Option<WireMaterial>): (life: real)
    ensures life == 12.0 <==> material == Some(KanthalA1)
    ensures life == 7.0 <==> material == Some(SS316L)
    ensures life in {12.0, 7.0, 10.0}
  {
    if material == Some(KanthalA1) then 12.0
    else if material == Some(SS316L) then 7.0
    else 10.0
  }

  /** The effect on the coil selection: a known coil sets the wick life
      from its material, an unknown id (or none) leaves it as it is. */
  function MaxLifeAfterSelect(coils: seq<CoilStats>, coilId: string, maxLife: real): (life: real)
    ensures (forall i :: 0 <= i < |coils| ==> coils[i].id != coilId) ==> life == maxLife
    ensures (exists i :: 0 <= i < |coils| && coils[i].id == coilId) ==>
              exists i :: 0 <= i < |coils| && coils[i].id == coilId
                          && life == SuggestedLife(coils[i].material)
                          && forall j :: 0 <= j < i ==> coils[j].id != coilId
  {
    match FindFirst((c: CoilStats) => c.id == coilId, coils)
    case None => maxLife
    case Some(c) => SuggestedLife(c.material)
  }

  /** The session a submission records.  `stamp` is the text of
      `Date.now()` and `now` its value. */
  function NewLog(attyId: string, coilId: string, cottonId: string, liquidId: string, wattage: real,
                  airflowType: string, airflowSetting: string, maxLife: real, notes: string,
                  aiFinding: Option<string>, stamp: string, now: int): (log: WickingHistory)
    ensures log.id == stamp && log.date == now
    ensures log.atomizerId == attyId && log.cottonId == cottonId && log.liquidId == liquidId
    ensures log.coilId == if coilId == "" then None else Some(coilId)
    ensures log.sweetSpot == if aiFinding == None || aiFinding == Some("") then None else aiFinding
    ensures log.mlConsumed == 0.0 && log.degradationScore == 0.0 && log.isActive && log.status == None
    ensures log.wattage == wattage && log.maxWickLife == maxLife && log.notes == notes
    ensures log.airflowType == airflowType && log.airflowSetting == airflowSetting
  {
    WickingHistory(stamp, attyId, if coilId == "" then None else Some(coilId), cottonId, liquidId,
                   wattage, airflowType, airflowSetting, 0.0, maxLife, notes,
                   if aiFinding == None || aiFinding == Some("") then None else aiFinding,
                   0.0, None, now, true)
  }

  /** A submitted session is active, counts as using a coil exactly when
      one was chosen, and after it is added it is the only active session
      on its atomizer. */
  lemma SubmittedSessionTakesOver(history: seq<WickingHistory>, attyId: string, coilId: string,
                                  cottonId: string, liquidId: string, wattage: real,
                                  airflowType: string, airflowSetting: string, maxLife: real,
                                  notes: string, aiFinding: Option<string>, stamp: string, now: int)
    ensures var log := NewLog(attyId, coilId, cottonId, liquidId, wattage, airflowType, airflowSetting,
                              maxLife, notes, aiFinding, stamp, now);
            var r := App.AddSession(history, log);
            (App.NamesCoil(log) <==> coilId != "")
            && forall i :: 0 <= i < |r| && r[i].atomizerId == attyId && r[i].isActive ==> i == |history|
  {
    var log := NewLog(attyId, coilId, cottonId, liquidId, wattage, airflowType, airflowSetting,
                      maxLife, notes, aiFinding, stamp, now);
    App.AddSessionKeepsOneActive(history, log);
  }

  /** The form's state. */
  class WickingForm {
    var attyId: string
    var coilId: string
    var cottonId: string
    var liquidId: string
    var airflowType: string
    var airflowSetting: string
    var wattage: real
    var maxLife: real
    var notes: string
    var aiFinding: Option<string>

    constructor ()
      ensures attyId == "" && coilId == "" && cottonId == "" && liquidId == ""
      ensures airflowType == "AFC" && airflowSetting == "" && wattage == 15.0 && maxLife == 8.0
      ensures notes == "" && aiFinding == None
    {
      attyId, coilId, cottonId, liquidId := "", "", "", "";
      airflowType, airflowSetting := "AFC", "";
      wattage, maxLife := 15.0, 8.0;
      notes, aiFinding := "", None;
    }

    /** Choosing a coil, followed by the effect that suggests a wick life. */
    method SelectCoil(coils: seq<CoilStats>, coilId': string)
      modifies this`coilId, this`maxLife
      ensures coilId == coilId'
      ensures maxLife == MaxLifeAfterSelect(coils, coilId', old(maxLife))
    {
      coilId := coilId';
      maxLife := MaxLifeAfterSelect(coils, coilId, maxLife);
    }

    /** The finding the sweet-spot service returned, taken as given. */
    method SetFinding(finding: string)
      modifies this`aiFinding
      ensures aiFinding == Some(finding)
    {
      aiFinding := Some(finding);
    }

    /** `handleSubmit`: nothing happens unless an atomizer, a cotton and a
        liquid are chosen; otherwise the session is produced and the
        selections, the notes, the wattage and the finding are reset,
        while the wick life and the airflow fields stay. */
    method HandleSubmit(stamp: string, now: int) returns (log: Option<WickingHistory>)
      modifies this
      ensures old(attyId) == "" || old(cottonId) == "" || old(liquidId) == "" ==>
                log == None
                && attyId == old(attyId) && coilId == old(coilId) && cottonId == old(cottonId)
                && liquidId == old(liquidId) && wattage == old(wattage) && notes == old(notes)
                && aiFinding == old(aiFinding)
      ensures old(attyId) != "" && old(cottonId) != "" && old(liquidId) != "" ==>
                log == Some(NewLog(old(attyId), old(coilId), old(cottonId), old(liquidId), old(wattage),
                                   old(airflowType), old(airflowSetting), old(maxLife), old(notes),
                                   old(aiFinding), stamp, now))
                && attyId == "" && coilId == "" && cottonId == "" && liquidId == ""
                && wattage == 15.0 && notes == "" && aiFinding == None
      ensures maxLife == old(maxLife) && airflowType == old(airflowType)
      ensures airflowSetting == old(airflowSetting)
    {
      if attyId == "" || cottonId == "" || liquidId == "" {
        return None;
      }
      log := Some(NewLog(attyId, coilId, cottonId, liquidId, wattage, airflowType, airflowSetting,
                         maxLife, notes, aiFinding, stamp, now));
      attyId, coilId, cottonId, liquidId := "", "", "", "";
      wattage, notes, aiFinding := 15.0, "", None;
    }
  }
}
