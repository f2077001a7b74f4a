/** The application state and its updaters: the inventory, the wicking
    history, the coil library and the experience notes, each replaced by
    a list transform on every change. */
module App {
  import opened Seqs
  import opened Types

  /** The start-up language: the saved value when it is "en" or "fa",
      English for anything else and when nothing was saved. */
  function InitialLanguage(saved: Option<string>): (l: Language)
    ensures l == Fa <==> saved == Some("fa")
    ensures l == En <==> saved != Some("fa")
  {
    if saved == Some("fa") then Fa else En
  }

  /** A new inventory item gets the id `inv-<stamp>`, replacing whatever
      id the draft carried. */
  function WithInventoryId(item: InventoryItem, stamp: string): (r: InventoryItem)
    ensures r.id == "inv-" + stamp
    ensures r.(id := item.id) == item
  {
    item.(id := "inv-" + stamp)
  }

  /** Every session on the given atomizer is made inactive; every other
      session and every other field is kept. */
  function DeactivateAtomizer(history: seq<WickingHistory>, atomizerId: string): (r: seq<WickingHistory>)
    ensures |r| == |history|
    ensures forall i :: 0 <= i < |r| ==> r[i] == history[i].(isActive := r[i].isActive)
    ensures forall i :: 0 <= i < |r| && history[i].atomizerId == atomizerId ==> !r[i].isActive
    ensures forall i :: 0 <= i < |r| && history[i].atomizerId != atomizerId ==> r[i] == history[i]
  {
    seq(|history|, i requires 0 <= i < |history| =>
      if history[i].atomizerId == atomizerId then history[i].(isActive := false) else history[i])
  }

  /** The history after `addWickingSession`. */
  function AddSession(history: seq<WickingHistory>, session: WickingHistory): (r: seq<WickingHistory>)
    ensures |r| == |history| + 1 && r[|history|] == session
    ensures r[..|history|] == DeactivateAtomizer(history, session.atomizerId)
  {
    DeactivateAtomizer(history, session.atomizerId) + [session]
  }

  /** No atomizer carries two active sessions. */
  predicate OneActivePerAtomizer(history: seq<WickingHistory>)
  {
    forall i, j :: 0 <= i < j < |history| && history[i].isActive && history[j].isActive
      ==> history[i].atomizerId != history[j].atomizerId
  }

  /** After a session is added it is the only active session on its
      atomizer, and if no atomizer had two active sessions before, none
      has afterwards. */
  lemma AddSessionKeepsOneActive(history: seq<WickingHistory>, session: WickingHistory)
    ensures var r := AddSession(history, session);
            forall i :: 0 <= i < |history| && r[i].atomizerId == session.atomizerId ==> !r[i].isActive
    ensures OneActivePerAtomizer(history) ==> OneActivePerAtomizer(AddSession(history, session))
  {
    var r := AddSession(history, session);
    var d := DeactivateAtomizer(history, session.atomizerId);
    assert forall i :: 0 <= i < |history| ==> r[i] == d[i];
    if OneActivePerAtomizer(history) {
      forall i, j | 0 <= i < j < |r| && r[i].isActive && r[j].isActive
        ensures r[i].atomizerId != r[j].atomizerId
      {
        if j < |history| {
          assert history[i].isActive && history[j].isActive;
        }
      }
    }
  }

  /** `session.coilId` is truthy: present and not the empty string. */
  predicate NamesCoil(session: WickingHistory)
  {
    session.coilId.Some? && session.coilId.value != ""
  }

  /** `(c.usageCount || 0) + 1`. */
  function NextUsage(c: CoilStats): (n: int)
    ensures c.usageCount == None ==> n == 1
    ensures c.usageCount.Some? ==> n == c.usageCount.value + 1
  {
    match c.usageCount
    case None => 1
    case Some(k) => k + 1
  }

  /** The coils after a session on `coilId`: each coil with that id has
      its usage count raised by one; everything else is kept. */
  function BumpUsage(coils: seq<CoilStats>, coilId: string): (r: seq<CoilStats>)
    ensures |r| == |coils|
    ensures forall i :: 0 <= i < |r| && coils[i].id == coilId ==>
              r[i] == coils[i].(usageCount := Some(NextUsage(coils[i])))
    ensures forall i :: 0 <= i < |r| && coils[i].id != coilId ==> r[i] == coils[i]
  {
    seq(|coils|, i requires 0 <= i < |coils| =>
      if coils[i].id == coilId then coils[i].(usageCount := Some(NextUsage(coils[i]))) else coils[i])
  }

  /** The usage counts summed over the library, a missing count as 0. */
  function TotalUsage(coils: seq<CoilStats>): int
  {
    if coils == [] then 0
    else (match coils[0].usageCount case None => 0 case Some(k) => k) + TotalUsage(coils[1..])
  }

  /** How many coils carry the id. */
  function CountId(coils: seq<CoilStats>, coilId: string): (n: nat)
    ensures n <= |coils|
    ensures n == |Filter((c: CoilStats) => c.id == coilId, coils)|
    ensures n == 0 <==> forall i :: 0 <= i < |coils| ==> coils[i].id != coilId
  {
    if coils == [] then 0
    else
      assert forall i :: 1 <= i < |coils| ==> coils[i] == coils[1..][i - 1];
      (if coils[0].id == coilId then 1 else 0) + CountId(coils[1..], coilId)
  }

  /** A session raises the library's total usage by the number of coils
      with its coil id: by exactly one when ids are unique. */
  lemma {:induction false} BumpUsageTotal(coils: seq<CoilStats>, coilId: string)
    ensures TotalUsage(BumpUsage(coils, coilId)) == TotalUsage(coils) + CountId(coils, coilId)
  {
    if coils != [] {
      var b, t := BumpUsage(coils, coilId), coils[1..];
      BumpUsageTotal(t, coilId);
      assert b[1..] == BumpUsage(t, coilId);
      assert TotalUsage(b) == (match b[0].usageCount case None => 0 case Some(k) => k) + TotalUsage(b[1..]);
      assert TotalUsage(coils) == (match coils[0].usageCount case None => 0 case Some(k) => k) + TotalUsage(t);
      assert CountId(coils, coilId) == (if coils[0].id == coilId then 1 else 0) + CountId(t, coilId);
    }
  }

  /** `Math.max(0, ml + delta)`. */
  function NewMl(ml: real, delta: real): (r: real)
    ensures r >= 0.0
    ensures r >= ml + delta && (r == ml + delta || r == 0.0)
  {
    if ml + delta > 0.0 then ml + delta else 0.0
  }

  /** The wick alert: the consumed volume reaches the wick's life on this
      step, having been below it before. */
  predicate AlertFires(oldMl: real, newMl: real, maxWickLife: real)
  {
    newMl >= maxWickLife && oldMl < maxWickLife
  }

  /** Once the volume has reached the wick life, a further step cannot
      alert again: the alert fires once per upward crossing. */
  lemma AlertOncePerCrossing(ml: real, d1: real, d2: real, maxWickLife: real)
    requires AlertFires(ml, NewMl(ml, d1), maxWickLife)
    ensures !AlertFires(NewMl(ml, d1), NewMl(NewMl(ml, d1), d2), maxWickLife)
  {
  }

  /** A step down from a non-negative volume never alerts, and a step up
      followed by a step down of the same size restores it. */
  lemma MlStepsInvert(ml: real, delta: real, maxWickLife: real)
    requires ml >= 0.0 && delta >= 0.0
    ensures !AlertFires(ml, NewMl(ml, -delta), maxWickLife)
    ensures NewMl(NewMl(ml, delta), -delta) == ml
  {
  }

  /** The history after `updateMl(id, delta)`: only entries with that id
      change, and only their consumed volume. */
  function UpdateMlIn(history: seq<WickingHistory>, id: string, delta: real): (r: seq<WickingHistory>)
    ensures |r| == |history|
    ensures forall i :: 0 <= i < |r| && history[i].id == id ==>
              r[i] == history[i].(mlConsumed := NewMl(history[i].mlConsumed, delta))
    ensures forall i :: 0 <= i < |r| && history[i].id != id ==> r[i] == history[i]
  {
    seq(|history|, i requires 0 <= i < |history| =>
      if history[i].id == id then history[i].(mlConsumed := NewMl(history[i].mlConsumed, delta))
      else history[i])
  }

  /** Every updated entry ends with a non-negative volume, so a history
      with no negative volumes keeps none. */
  lemma UpdateMlNonNegative(history: seq<WickingHistory>, id: string, delta: real)
    requires forall i :: 0 <= i < |history| ==> history[i].mlConsumed >= 0.0
    ensures var r := UpdateMlIn(history, id, delta);
            forall i :: 0 <= i < |r| ==> r[i].mlConsumed >= 0.0
  {
  }

  /** `inventory.find(i => i.id === id)?.name || fallback`: the name of
      the first item with the id, or the fallback when there is no such
      item or its name is empty. */
  function ItemName(inventory: seq<InventoryItem>, id: string, fallback: string): (name: string)
    ensures fallback != "" ==> name != ""
    ensures (forall i :: 0 <= i < |inventory| ==> inventory[i].id != id) ==> name == fallback
    ensures (exists i :: 0 <= i < |inventory| && inventory[i].id == id) ==>
              exists i :: 0 <= i < |inventory| && inventory[i].id == id
                          && (forall j :: 0 <= j < i ==> inventory[j].id != id)
                          && name == if inventory[i].name != "" then inventory[i].name else fallback
  {
    match FindFirst((i: InventoryItem) => i.id == id, inventory)
    case None => fallback
    case Some(item) => if item.name != "" then item.name else fallback
  }

  /** Whichever item is first with the id decides the name. */
  lemma ItemNameOfFirstMatch(inventory: seq<InventoryItem>, id: string, fallback: string, i: nat)
    requires i < |inventory| && inventory[i].id == id
    requires forall j :: 0 <= j < i ==> inventory[j].id != id
    ensures ItemName(inventory, id, fallback)
            == if inventory[i].name != "" then inventory[i].name else fallback
  {
    var k :| 0 <= k < |inventory| && inventory[k].id == id
             && (forall j :: 0 <= j < k ==> inventory[j].id != id)
             && ItemName(inventory, id, fallback)
                == if inventory[k].name != "" then inventory[k].name else fallback;
    assert !(k < i) && !(i < k);
  }

  /** The same for every position at once. */
  lemma ItemNameAtFirstMatch(inventory: seq<InventoryItem>, id: string, fallback: string)
    ensures forall i :: 0 <= i < |inventory| && inventory[i].id == id
                        && (forall j :: 0 <= j < i ==> inventory[j].id != id) ==>
              ItemName(inventory, id, fallback) == if inventory[i].name != "" then inventory[i].name else fallback
  {
    forall i | 0 <= i < |inventory| && inventory[i].id == id && (forall j :: 0 <= j < i ==> inventory[j].id != id)
      ensures ItemName(inventory, id, fallback) == if inventory[i].name != "" then inventory[i].name else fallback
    {
      ItemNameOfFirstMatch(inventory, id, fallback, i);
    }
  }

  /** The name the alert shows: the atomizer's name, or "Device" when the
      atomizer is unknown or its name is empty. */
  function DeviceName(inventory: seq<InventoryItem>, atomizerId: string): (name: string)
    ensures name != ""
    ensures (forall i :: 0 <= i < |inventory| ==> inventory[i].id != atomizerId) ==> name == "Device"
    ensures name == "Device"
            || exists i :: 0 <= i < |inventory| && inventory[i].id == atomizerId && inventory[i].name == name
  {
    ItemName(inventory, atomizerId, "Device")
  }

  /** The step of `updateMl` on entry `h` crosses its wick life. */
  predicate Crosses(h: WickingHistory, delta: real)
  {
    AlertFires(h.mlConsumed, NewMl(h.mlConsumed, delta), h.maxWickLife)
  }

  /** The alerts `updateMl` sends, in history order: one per entry with
      the id whose step crosses the wick life, naming that entry's
      atomizer. */
  function MlAlerts(history: seq<WickingHistory>, inventory: seq<InventoryItem>,
                    id: string, delta: real): (alerts: seq<string>)
    ensures |alerts| <= |history|
    ensures alerts == [] <==>
              forall i :: 0 <= i < |history| && history[i].id == id ==> !Crosses(history[i], delta)
    ensures forall a :: a in alerts ==>
              exists i :: 0 <= i < |history| && history[i].id == id && Crosses(history[i], delta)
                          && a == DeviceName(inventory, history[i].atomizerId)
  {
    if history == [] then []
    else
      var h := history[0];
      var rest := MlAlerts(history[1..], inventory, id, delta);
      assert forall i :: 1 <= i < |history| ==> history[i] == history[1..][i - 1];
      if h.id == id && Crosses(h, delta)
      then [DeviceName(inventory, h.atomizerId)] + rest
      else rest
  }

  /** One alert per entry with the id whose step crosses the wick life, in
      history order, each named after that entry's atomizer: the alerts
      are the names of the entries the crossing test `p` keeps. */
  lemma {:induction false} AlertsNameCrossings(history: seq<WickingHistory>, inventory: seq<InventoryItem>,
                                               id: string, delta: real, p: WickingHistory -> bool)
    requires forall h :: p(h) == (h.id == id && Crosses(h, delta))
    ensures var alerts, crossing := MlAlerts(history, inventory, id, delta), Filter(p, history);
            |alerts| == |crossing|
            && forall j :: 0 <= j < |crossing| ==> alerts[j] == DeviceName(inventory, crossing[j].atomizerId)
  {
    if history != [] {
      var h, t := history[0], history[1..];
      AlertsNameCrossings(t, inventory, id, delta, p);
      var rest, kept := MlAlerts(t, inventory, id, delta), Filter(p, t);
      if p(h) {
        assert MlAlerts(history, inventory, id, delta) == [DeviceName(inventory, h.atomizerId)] + rest;
        assert Filter(p, history) == [h] + kept;
        NamesOfCons(inventory, h, kept, rest);
      } else {
        assert MlAlerts(history, inventory, id, delta) == rest;
        assert Filter(p, history) == kept;
      }
    }
  }

  /** Naming the entries element by element survives putting one more
      entry, and its name, in front. */
  lemma NamesOfCons(inventory: seq<InventoryItem>, h: WickingHistory,
                    kept: seq<WickingHistory>, names: seq<string>)
    requires |names| == |kept|
    requires forall j :: 0 <= j < |kept| ==> names[j] == DeviceName(inventory, kept[j].atomizerId)
    ensures var n, k := [DeviceName(inventory, h.atomizerId)] + names, [h] + kept;
            |n| == |k| && forall j :: 0 <= j < |k| ==> n[j] == DeviceName(inventory, k[j].atomizerId)
  {
    var n, k := [DeviceName(inventory, h.atomizerId)] + names, [h] + kept;
    forall j | 0 <= j < |k|
      ensures n[j] == DeviceName(inventory, k[j].atomizerId)
    {
      if j > 0 {
        assert n[j] == names[j - 1] && k[j] == kept[j - 1];
      }
    }
  }

  /** With ids unique, the entry with the id sends exactly one alert, with
      its atomizer's name, when its step crosses the wick life, and none
      otherwise. */
  lemma {:induction false} AlertOfUniqueEntry(history: seq<WickingHistory>, inventory: seq<InventoryItem>,
                                              id: string, delta: real, i: nat)
    requires i < |history| && history[i].id == id
    requires forall j :: 0 <= j < |history| && j != i ==> history[j].id != id
    ensures MlAlerts(history, inventory, id, delta)
            == if Crosses(history[i], delta) then [DeviceName(inventory, history[i].atomizerId)] else []
  {
    var tail := history[1..];
    if i == 0 {
      assert forall j :: 0 <= j < |tail| ==> tail[j].id != id by {
        assert forall j :: 0 <= j < |tail| ==> tail[j] == history[j + 1];
      }
    } else {
      assert forall j :: 0 <= j < |tail| && j != i - 1 ==> tail[j].id != id by {
        assert forall j :: 0 <= j < |tail| ==> tail[j] == history[j + 1];
      }
      AlertOfUniqueEntry(tail, inventory, id, delta, i - 1);
    }
  }

  /** With no negative volumes, a decrement never alerts. */
  lemma {:induction false} DecrementNeverAlerts(history: seq<WickingHistory>, inventory: seq<InventoryItem>,
                                                id: string, delta: real)
    requires delta <= 0.0
    requires forall i :: 0 <= i < |history| ==> history[i].mlConsumed >= 0.0
    ensures MlAlerts(history, inventory, id, delta) == []
  {
    if history != [] {
      DecrementNeverAlerts(history[1..], inventory, id, delta);
    }
  }

  /** The delete handlers: every item, or coil, with the id is removed and
      the rest keep their order. */
  function RemoveInventoryItem(inventory: seq<InventoryItem>, id: string): (r: seq<InventoryItem>)
    ensures forall x :: x in r <==> x in inventory && x.id != id
    ensures SubsequenceOf(r, inventory)
    ensures forall i :: 0 <= i < |inventory| ==>
              multiset(r)[inventory[i]] == if inventory[i].id != id then multiset(inventory)[inventory[i]] else 0
  {
    FilterIsSubsequence((i: InventoryItem) => i.id != id, inventory);
    Filter((i: InventoryItem) => i.id != id, inventory)
  }

  function RemoveCoil(coils: seq<CoilStats>, id: string): (r: seq<CoilStats>)
    ensures forall x :: x in r <==> x in coils && x.id != id
    ensures SubsequenceOf(r, coils)
    ensures forall i :: 0 <= i < |coils| ==>
              multiset(r)[coils[i]] == if coils[i].id != id then multiset(coils)[coils[i]] else 0
  {
    FilterIsSubsequence((c: CoilStats) => c.id != id, coils);
    Filter((c: CoilStats) => c.id != id, coils)
  }

  /** Deleting an id that is not present changes nothing. */
  lemma RemoveAbsentInventoryItem(inventory: seq<InventoryItem>, id: string)
    requires forall i :: 0 <= i < |inventory| ==> inventory[i].id != id
    ensures RemoveInventoryItem(inventory, id) == inventory
  {
    FilterKeepsAll((i: InventoryItem) => i.id != id, inventory);
  }

  /** The state the root component holds.  Loading it from local storage
      is outside the model: the constructor takes the loaded values. */
  class AppState {
    var lang: Language
    var inventory: seq<InventoryItem>
    var wickingHistory: seq<WickingHistory>
    var coils: seq<CoilStats>
    var experiences: seq<UserExperience>

    constructor (savedLang: Option<string>, inventory0: seq<InventoryItem>, history0: seq<WickingHistory>,
                 coils0: seq<CoilStats>, experiences0: seq<UserExperience>)
      ensures lang == InitialLanguage(savedLang)
      ensures inventory == inventory0 && wickingHistory == history0
      ensures coils == coils0 && experiences == experiences0
    {
      lang := InitialLanguage(savedLang);
      inventory, wickingHistory := inventory0, history0;
      coils, experiences := coils0, experiences0;
    }

    /** `addInventoryItem`: one item appended at the end, with its new id. */
    method AddInventoryItem(item: InventoryItem, stamp: string)
      modifies this`inventory
      ensures inventory == old(inventory) + [WithInventoryId(item, stamp)]
    {
      inventory := inventory + [WithInventoryId(item, stamp)];
    }

    /** `addCoilClass`: one coil appended at the end. */
    method AddCoilClass(coil: CoilStats)
      modifies this`coils
      ensures coils == old(coils) + [coil]
    {
      coils := coils + [coil];
    }

    /** `addWickingSession`: the session is appended and earlier sessions
        on its atomizer are deactivated; when it names a coil, that coil's
        usage count rises, otherwise the library is untouched. */
    method AddWickingSession(session: WickingHistory)
      modifies this`wickingHistory, this`coils
      ensures wickingHistory == AddSession(old(wickingHistory), session)
      ensures coils == if NamesCoil(session) then BumpUsage(old(coils), session.coilId.value) else old(coils)
    {
      wickingHistory := AddSession(wickingHistory, session);
      if NamesCoil(session) {
        coils := BumpUsage(coils, session.coilId.value);
      }
    }

    /** `updateMl`: the matching entries' volumes move by `delta`, clamped
        at zero; the alerts sent are returned. */
    method UpdateMl(id: string, delta: real) returns (alerts: seq<string>)
      modifies this`wickingHistory
      ensures wickingHistory == UpdateMlIn(old(wickingHistory), id, delta)
      ensures alerts == MlAlerts(old(wickingHistory), inventory, id, delta)
    {
      alerts := MlAlerts(wickingHistory, inventory, id, delta);
      wickingHistory := UpdateMlIn(wickingHistory, id, delta);
    }

    method DeleteInventoryItem(id: string)
      modifies this`inventory
      ensures inventory == RemoveInventoryItem(old(inventory), id)
    {
      inventory := RemoveInventoryItem(inventory, id);
    }

    method DeleteCoil(id: string)
      modifies this`coils
      ensures coils == RemoveCoil(old(coils), id)
    {
      coils := RemoveCoil(coils, id);
    }

    /** The experience screen's `onAdd`: one note appended at the end. */
    method AddExperience(note: UserExperience)
      modifies this`experiences
      ensures experiences == old(experiences) + [note]
    {
      experiences := experiences + [note];
    }

    method SetLang(l: Language)
      modifies this`lang
      ensures lang == l
    {
      lang := l;
    }
  }
}
