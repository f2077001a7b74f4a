/** The DIY liquid mixer: how much nicotine base, flavour concentrate and
    diluent make a bottle of the target strength, and the inventory item
    a saved recipe becomes. */
module LiquidCalculator {
  import opened Seqs
  import opened Types

  /** The amounts of a mix, in ml. */
  datatype Mix = Mix(nicBaseAmount: real, flavorAmount: real, diluentAmount: real)

  /** The `results` memo, before its two-decimal rounding.  The nicotine
      base obeys the dilution law (strength times volume is conserved),
      the flavour is its percentage of the volume, and the diluent fills
      up the rest, going negative when the other two overflow the bottle. */
  function MixFor(targetNic: real, baseNic: real, targetVolume: real, flavorPercentage: real): (m: Mix)
    requires baseNic != 0.0
    ensures m.nicBaseAmount * baseNic == targetNic * targetVolume
    ensures m.flavorAmount * 100.0 == flavorPercentage * targetVolume
    ensures m.nicBaseAmount + m.flavorAmount + m.diluentAmount == targetVolume
    ensures m.diluentAmount < 0.0 <==> m.nicBaseAmount + m.flavorAmount > targetVolume
  {
    var nicBaseAmount := (targetNic * targetVolume) / baseNic;
    var flavorAmount := (flavorPercentage / 100.0) * targetVolume;
    Mix(nicBaseAmount, flavorAmount, targetVolume - nicBaseAmount - flavorAmount)
  }

  /** The finished bottle has the target nicotine strength and the target
      flavour percentage. */
  lemma MixHitsTargets(targetNic: real, baseNic: real, targetVolume: real, flavorPercentage: real)
    requires baseNic != 0.0 && targetVolume != 0.0
    ensures var m := MixFor(targetNic, baseNic, targetVolume, flavorPercentage);
            m.nicBaseAmount * baseNic / targetVolume == targetNic
            && m.flavorAmount / targetVolume * 100.0 == flavorPercentage
  {
    var m := MixFor(targetNic, baseNic, targetVolume, flavorPercentage);
    DivideBack(targetNic, targetVolume);
    assert m.flavorAmount == flavorPercentage * targetVolume / 100.0;
    DivideBack(flavorPercentage / 100.0, targetVolume);
  }

  lemma DivideBack(x: real, v: real)
    requires v != 0.0
    ensures x * v / v == x
  {
  }

  /** With the default strengths (6 mg from a 100 mg base, 15 % flavour,
      60 ml) the mix is 3.6 ml base, 9 ml flavour and 47.4 ml diluent. */
  lemma DefaultMix()
    ensures MixFor(6.0, 100.0, 60.0, 15.0) == Mix(3.6, 9.0, 47.4)
  {
  }

  /** Above 12 mg the recipe is filed as a nicotine salt, otherwise as a
      freebase e-juice. */
  function LiquidTypeFor(targetNic: real): (t: LiquidType)
    ensures t == NicSalt <==> targetNic > 12.0
    ensures t != NicSalt ==> t == Freebase
  {
    if targetNic > 12.0 then NicSalt else Freebase
  }

  /** The item `handleSaveToGear` hands over.  `nicText`, `volumeText`
      and `flavorText` are the decimal renderings of the target strength,
      the volume and the flavour percentage.  The item is a draft: the
      application assigns its id. */
  function RecipeItem(recipeName: string, targetNic: real, flavorText: string,
                      nicText: string, volumeText: string): (item: InventoryItem)
    ensures item.name == if recipeName != "" then recipeName else "DIY " + nicText + "mg " + volumeText + "ml"
    ensures item.name != ""
    ensures item.brand == Some("DIY Lab") && item.category == "liquid" && item.price == Some(0.0)
    ensures item.specs == Some(ItemSpecs(Some(LiquidTypeFor(targetNic)), Some(targetNic),
                                         Some(flavorText + "% Concentration"), Some(volumeText)))
    ensures item.imageUrl == None && item.description == None && item.createdAt == None
  {
    var name := if recipeName != "" then recipeName else "DIY " + nicText + "mg " + volumeText + "ml";
    InventoryItem("", name, Some("DIY Lab"), None, None, "liquid", Some(0.0),
                  Some(ItemSpecs(Some(LiquidTypeFor(targetNic)), Some(targetNic),
                                 Some(flavorText + "% Concentration"), Some(volumeText))),
                  None)
  }

  /** The result of pressing save: the item handed over, if any, and the
      recipe-name field afterwards. */
  datatype SaveOutcome = SaveOutcome(item: Option<InventoryItem>, recipeName: string)

  /** Without a save callback nothing happens; otherwise the recipe is
      handed over and the name field is cleared. */
  function SaveToGear(hasCallback: bool, recipeName: string, targetNic: real, flavorText: string,
                      nicText: string, volumeText: string): (r: SaveOutcome)
    ensures !hasCallback ==> r == SaveOutcome(None, recipeName)
    ensures hasCallback ==>
              r.recipeName == "" && r.item == Some(RecipeItem(recipeName, targetNic, flavorText, nicText, volumeText))
  {
    if !hasCallback then SaveOutcome(None, recipeName)
    else SaveOutcome(Some(RecipeItem(recipeName, targetNic, flavorText, nicText, volumeText)), "")
  }
}
