/** The history screen: the atomizer filter, the newest-first order the
    cards are shown in and the names each card resolves. */
module History {
  import opened Seqs
  import opened Types
  import App
  import Sorting

  /** `filteredHistory`: the whole history for "all", otherwise exactly
      the sessions on that atomizer, in their order. */
  function FilteredHistory(history: seq<WickingHistory>, filter: string): (r: seq<WickingHistory>)
    ensures filter == "all" ==> r == history
    ensures filter != "all" ==>
              (forall h :: h in r <==> h in history && h.atomizerId == filter) && SubsequenceOf(r, history)
    ensures filter != "all" ==> forall i :: 0 <= i < |history| ==>
              multiset(r)[history[i]] == if history[i].atomizerId == filter then multiset(history)[history[i]] else 0
  {
    if filter == "all" then history
    else
      FilterIsSubsequence((h: WickingHistory) => h.atomizerId == filter, history);
      Filter((h: WickingHistory) => h.atomizerId == filter, history)
  }

  /** An atomizer without sessions shows the empty-history message, and
      every session shows up under its own atomizer. */
  lemma FilteredHistoryByAtomizer(history: seq<WickingHistory>, filter: string)
    requires filter != "all"
    ensures (forall i :: 0 <= i < |history| ==> history[i].atomizerId != filter)
            <==> FilteredHistory(history, filter) == []
    ensures forall i :: 0 <= i < |history| && history[i].atomizerId == filter ==>
              history[i] in FilteredHistory(history, filter)
  {
    var r := FilteredHistory(history, filter);
    if r != [] {
      assert r[0] in r;
    }
  }

  function DateOf(h: WickingHistory): int
  {
    h.date
  }

  /** The cards as shown: the filtered sessions sorted newest first.  For
      "all" the sort runs on the history array itself, so the
      application's own list is reordered; for an atomizer the filter has
      made a fresh array and the history is left alone. */
  method ShownEntries(history: array<WickingHistory>, filter: string) returns (shown: array<WickingHistory>)
    modifies history
    ensures filter == "all" ==> shown == history
    ensures filter != "all" ==> fresh(shown) && history[..] == old(history[..])
    ensures Sorting.SortedDescending(shown[..], DateOf)
    ensures multiset(shown[..]) == multiset(FilteredHistory(old(history[..]), filter))
  {
    if filter == "all" {
      shown := history;
      Sorting.SortByKeyDescending(shown, DateOf);
    } else {
      shown := CopyFiltered(history, filter);
      Sorting.SortByKeyDescending(shown, DateOf);
    }
  }

  /** The filter's fresh array, before it is sorted. */
  method CopyFiltered(history: array<WickingHistory>, filter: string) returns (shown: array<WickingHistory>)
    ensures fresh(shown) && shown[..] == FilteredHistory(history[..], filter)
  {
    var f := FilteredHistory(history[..], filter);
    shown := new WickingHistory[|f|](i requires 0 <= i < |f| => f[i]);
    assert shown[..] == f;
  }

  /** The fallback labels, in the screen's language. */
  function UnknownDevice(lang: Language): string
  {
    if lang == Fa then "دستگاه نامعلوم" else "Unknown Device"
  }

  function UnknownLiquid(lang: Language): string
  {
    if lang == Fa then "لیکوئید نامعلوم" else "Unknown Liquid"
  }

  function UnknownCotton(lang: Language): string
  {
    if lang == Fa then "پنبه نامعلوم" else "Unknown Cotton"
  }

  /** `getAttyName`, `getLiquidName` and `getCottonName`: the name of the
      first inventory item with the id, or the language's fallback when
      there is none or its name is empty. */
  function AttyName(inventory: seq<InventoryItem>, id: string, lang: Language): (name: string)
    ensures name != ""
    ensures (forall i :: 0 <= i < |inventory| ==> inventory[i].id != id) ==> name == UnknownDevice(lang)
    ensures forall i :: 0 <= i < |inventory| && inventory[i].id == id
                        && (forall j :: 0 <= j < i ==> inventory[j].id != id) ==>
              name == if inventory[i].name != "" then inventory[i].name else UnknownDevice(lang)
  {
    App.ItemNameAtFirstMatch(inventory, id, UnknownDevice(lang));
    App.ItemName(inventory, id, UnknownDevice(lang))
  }

  function LiquidName(inventory: seq<InventoryItem>, id: string, lang: Language): (name: string)
    ensures name != ""
    ensures (forall i :: 0 <= i < |inventory| ==> inventory[i].id != id) ==> name == UnknownLiquid(lang)
    ensures forall i :: 0 <= i < |inventory| && inventory[i].id == id
                        && (forall j :: 0 <= j < i ==> inventory[j].id != id) ==>
              name == if inventory[i].name != "" then inventory[i].name else UnknownLiquid(lang)
  {
    App.ItemNameAtFirstMatch(inventory, id, UnknownLiquid(lang));
    App.ItemName(inventory, id, UnknownLiquid(lang))
  }

  function CottonName(inventory: seq<InventoryItem>, id: string, lang: Language): (name: string)
    ensures name != ""
    ensures (forall i :: 0 <= i < |inventory| ==> inventory[i].id != id) ==> name == UnknownCotton(lang)
    ensures forall i :: 0 <= i < |inventory| && inventory[i].id == id
                        && (forall j :: 0 <= j < i ==> inventory[j].id != id) ==>
              name == if inventory[i].name != "" then inventory[i].name else UnknownCotton(lang)
  {
    App.ItemNameAtFirstMatch(inventory, id, UnknownCotton(lang));
    App.ItemName(inventory, id, UnknownCotton(lang))
  }

  /** A card names its atomizer as the alert does, apart from the
      fallback: the first inventory item with the id decides both. */
  lemma CardAndAlertAgree(inventory: seq<InventoryItem>, id: string, lang: Language, i: nat)
    requires i < |inventory| && inventory[i].id == id && inventory[i].name != ""
    requires forall j :: 0 <= j < i ==> inventory[j].id != id
    ensures AttyName(inventory, id, lang) == App.DeviceName(inventory, id) == inventory[i].name
  {
    App.ItemNameOfFirstMatch(inventory, id, UnknownDevice(lang), i);
    App.ItemNameOfFirstMatch(inventory, id, "Device", i);
  }

  /** `getCoilName`: the name of the first coil with the session's coil
      id, or the custom-setup label when the session names no coil, the
      coil is unknown, or it has no name. */
  function CoilName(coils: seq<CoilStats>, id: Option<string>, customSetup: string): (name: string)
    ensures customSetup != "" ==> name != ""
    ensures (forall i :: 0 <= i < |coils| ==> Some(coils[i].id) != id) ==> name == customSetup
    ensures forall i :: 0 <= i < |coils| && Some(coils[i].id) == id
                        && (forall j :: 0 <= j < i ==> Some(coils[j].id) != id) ==>
              name == if coils[i].name.Some? && coils[i].name.value != "" then coils[i].name.value
                      else customSetup
  {
    match FindFirst((c: CoilStats) => Some(c.id) == id, coils)
    case None => customSetup
    case Some(c) => if c.name.Some? && c.name.value != "" then c.name.value else customSetup
  }

  /** A session without a coil always reads as a custom setup. */
  lemma NoCoilIsCustomSetup(coils: seq<CoilStats>, customSetup: string)
    ensures CoilName(coils, None, customSetup) == customSetup
  {
    assert forall i :: 0 <= i < |coils| ==> Some(coils[i].id) != None;
  }
}
