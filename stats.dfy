/** The statistics screen: consumption totals and the average wick life,
    the cost engine over the liquids in the inventory, the per-liquid
    consumption tally and the most used liquid. */
module Stats {
  import opened Seqs
  import opened Types
  import Dashboard
  import App
  import LiquidCalculator

  /** `totalMl`: the same sum of consumed volumes the dashboard shows. */
  function TotalMl(history: seq<WickingHistory>): real
  {
    Dashboard.TotalConsumed(history)
  }

  /** The average volume a wick lasted: 0 for an empty history. */
  function AvgLife(history: seq<WickingHistory>): (avg: real)
    ensures |history| == 0 ==> avg == 0.0
    ensures |history| > 0 ==> avg * (|history| as real) == TotalMl(history)
  {
    if |history| > 0 then TotalMl(history) / (|history| as real) else 0.0
  }

  /** An item counts as a liquid when its category contains "liquid":
      `liquid`, `liquid_salt` and `liquid_ejuice` all do. */
  predicate IsLiquid(item: InventoryItem)
  {
    Contains(item.category, "liquid")
  }

  function Liquids(inventory: seq<InventoryItem>): (r: seq<InventoryItem>)
    ensures forall x :: x in r <==> x in inventory && IsLiquid(x)
    ensures |r| <= |inventory|
    ensures SubsequenceOf(r, inventory)
    ensures forall i :: 0 <= i < |inventory| ==>
              multiset(r)[inventory[i]] == if IsLiquid(inventory[i]) then multiset(inventory)[inventory[i]] else 0
  {
    FilterIsSubsequence(IsLiquid, inventory);
    Filter(IsLiquid, inventory)
  }

  /** `i.price || 0`. */
  function PriceOf(item: InventoryItem): real
  {
    match item.price
    case None => 0.0
    case Some(p) => p
  }

  function TotalSpent(inventory: seq<InventoryItem>): real
  {
    SumOf(Liquids(inventory), PriceOf)
  }

  /** Every liquid is taken to be a 60 ml bottle. */
  const BottleMl: real := 60.0

  function TotalVolume(inventory: seq<InventoryItem>): (v: real)
    ensures v == BottleMl * (|Liquids(inventory)| as real)
    ensures v == 0.0 <==> |Liquids(inventory)| == 0
    ensures v >= 0.0
  {
    (|Liquids(inventory)| as real) * BottleMl
  }

  /** The cost per ml, before its two-decimal rounding. */
  function CostPerMl(inventory: seq<InventoryItem>): real
  {
    SpreadCost(TotalSpent(inventory), TotalVolume(inventory))
  }

  /** Nothing spent, nothing to spread: the cost per ml is zero. */
  lemma CostZeroWithoutSpend(inventory: seq<InventoryItem>)
    ensures TotalSpent(inventory) <= 0.0 ==> CostPerMl(inventory) == 0.0
  {
  }

  /** Money is only spent on bottles: a positive spend means at least one
      liquid, so the volume it is spread over is not zero. */
  lemma SpendNeedsBottle(inventory: seq<InventoryItem>)
    ensures TotalSpent(inventory) > 0.0 ==> |Liquids(inventory)| > 0 && TotalVolume(inventory) > 0.0
  {
    EmptySpend(inventory);
  }

  /** A positive spend is spread exactly over the bottles' volume. */
  lemma CostSpreadOverBottles(inventory: seq<InventoryItem>)
    ensures TotalSpent(inventory) > 0.0 ==>
              CostPerMl(inventory) * TotalVolume(inventory) == TotalSpent(inventory)
  {
    SpendNeedsBottle(inventory);
    CostIsSpreadSpend(inventory);
    SpreadTimesVolume(CostPerMl(inventory), TotalSpent(inventory), TotalVolume(inventory));
  }

  lemma SpreadTimesVolume(c: real, spent: real, volume: real)
    requires c == SpreadCost(spent, volume) && (spent > 0.0 ==> volume > 0.0)
    ensures spent > 0.0 ==> c * volume == spent
  {
  }

  lemma CostIsSpreadSpend(inventory: seq<InventoryItem>)
    ensures CostPerMl(inventory) == SpreadCost(TotalSpent(inventory), TotalVolume(inventory))
  {
  }

  /** `spent` spread over `volume` ml, zero when nothing was spent.  A
      positive spend over no volume cannot arise from an inventory (see
      `SpendNeedsBottle`) and is given zero too. */
  function SpreadCost(spent: real, volume: real): (c: real)
    ensures spent <= 0.0 ==> c == 0.0
    ensures spent > 0.0 && volume > 0.0 ==> c * volume == spent
  {
    if spent > 0.0 && volume > 0.0 then
      DivTimes(spent, volume);
      spent / volume
    else 0.0
  }

  /** The monthly projection, before its rounding to a whole number. */
  function MonthlyProjection(history: seq<WickingHistory>, inventory: seq<InventoryItem>): real
  {
    Project(CostPerMl(inventory), TotalMl(history), |history|)
  }

  /** `cost * total / (sessions || 1) * 30` when something was consumed,
      otherwise zero. */
  function Project(cost: real, total: real, sessions: nat): (p: real)
    ensures total <= 0.0 ==> p == 0.0
    ensures total > 0.0 && sessions > 0 ==> p == cost * (total / (sessions as real)) * 30.0
  {
    if total > 0.0 then
      var n := if sessions == 0 then 1.0 else sessions as real;
      Regroup(cost, total, n);
      cost * total / n * 30.0
    else 0.0
  }

  /** The monthly projection is zero unless something was consumed, and
      then the cost of 30 wicks of average life. */
  lemma ProjectionOfAverageLife(history: seq<WickingHistory>, inventory: seq<InventoryItem>)
    ensures TotalMl(history) <= 0.0 ==> MonthlyProjection(history, inventory) == 0.0
    ensures TotalMl(history) > 0.0 ==>
              |history| > 0
              && MonthlyProjection(history, inventory) == CostPerMl(inventory) * AvgLife(history) * 30.0
  {
    ProjectionAtCost(history, CostPerMl(inventory));
  }

  /** The same for any cost per ml: the projection spreads the average
      life of a session over a month at that price. */
  lemma ProjectionAtCost(history: seq<WickingHistory>, cost: real)
    ensures TotalMl(history) <= 0.0 ==> Project(cost, TotalMl(history), |history|) == 0.0
    ensures TotalMl(history) > 0.0 ==>
              |history| > 0 && Project(cost, TotalMl(history), |history|) == cost * AvgLife(history) * 30.0
  {
    ProjectionParts(history);
    ProjectedAverage(Project(cost, TotalMl(history), |history|), cost, TotalMl(history),
                     |history|, AvgLife(history));
  }

  lemma ProjectedAverage(p: real, cost: real, total: real, sessions: nat, avg: real)
    requires p == Project(cost, total, sessions)
    requires sessions == 0 ==> total == 0.0
    requires sessions > 0 ==> avg == total / (sessions as real)
    ensures total <= 0.0 ==> p == 0.0
    ensures total > 0.0 ==> sessions > 0 && p == cost * avg * 30.0
  {
  }

  lemma ProjectionParts(history: seq<WickingHistory>)
    ensures |history| == 0 ==> TotalMl(history) == 0.0
    ensures |history| > 0 ==> AvgLife(history) == TotalMl(history) / (|history| as real)
  {
  }

  /** Money is only ever spent on bottles: a positive spend means there
      is at least one liquid. */
  lemma EmptySpend(inventory: seq<InventoryItem>)
    ensures |Liquids(inventory)| == 0 ==> TotalSpent(inventory) == 0.0
    ensures TotalVolume(inventory) == 0.0 ==> TotalSpent(inventory) == 0.0
  {
  }

  lemma EmptyHistoryTotal(history: seq<WickingHistory>)
    ensures |history| == 0 ==> TotalMl(history) == 0.0
  {
  }

  lemma DivTimes(x: real, y: real)
    requires y != 0.0
    ensures (x / y) * y == x
  {
  }

  lemma Regroup(c: real, t: real, n: real)
    requires n != 0.0
    ensures c * t / n == c * (t / n)
  {
  }

  /** A DIY recipe saved from the mixer is a free liquid: it adds a
      bottle to the volume and nothing to the spend, so it lowers the cost
      per ml. */
  lemma SavedRecipeIsFreeBottle(inventory: seq<InventoryItem>, recipeName: string, targetNic: real,
                                flavorText: string, nicText: string, volumeText: string, stamp: string)
    ensures var item := App.WithInventoryId(
                          LiquidCalculator.RecipeItem(recipeName, targetNic, flavorText, nicText, volumeText), stamp);
            TotalSpent(inventory + [item]) == TotalSpent(inventory)
            && |Liquids(inventory + [item])| == |Liquids(inventory)| + 1
  {
    var item := App.WithInventoryId(
                  LiquidCalculator.RecipeItem(recipeName, targetNic, flavorText, nicText, volumeText), stamp);
    assert OccursAt(item.category, "liquid", 0);
    FreeLiquidAddsBottle(inventory, item);
  }

  lemma FreeLiquidAddsBottle(inventory: seq<InventoryItem>, item: InventoryItem)
    requires IsLiquid(item) && item.price == Some(0.0)
    ensures TotalSpent(inventory + [item]) == TotalSpent(inventory)
    ensures |Liquids(inventory + [item])| == |Liquids(inventory)| + 1
  {
    FilterConcat(IsLiquid, inventory, [item]);
    assert Filter(IsLiquid, [item]) == [item];
    SumOfConcat(Liquids(inventory), [item], PriceOf);
    assert SumOf([item], PriceOf) == 0.0;
  }

  // ---- the per-liquid tally ----

  /** The liquid ids of the history, each once, in order of first use:
      the order in which `liquidCounts` acquires its keys. */
  function LiquidKeys(history: seq<WickingHistory>): seq<string>
  {
    if history == [] then []
    else
      var keys := LiquidKeys(history[..|history| - 1]);
      var k := history[|history| - 1].liquidId;
      if k in keys then keys else keys + [k]
  }

  /** The dictionary `liquidCounts` after the `forEach`. */
  function LiquidTally(history: seq<WickingHistory>): map<string, real>
  {
    if history == [] then map[]
    else
      var counts := LiquidTally(history[..|history| - 1]);
      var h := history[|history| - 1];
      counts[h.liquidId := (if h.liquidId in counts then counts[h.liquidId] else 0.0) + h.mlConsumed]
  }

  /** The consumed volume of one liquid, summed independently of the
      dictionary. */
  function LiquidVolume(history: seq<WickingHistory>, k: string): real
  {
    if history == [] then 0.0
    else (if history[0].liquidId == k then history[0].mlConsumed else 0.0) + LiquidVolume(history[1..], k)
  }

  /** The `forEach` loop that builds `liquidCounts`: the key order and the
      dictionary it ends with. */
  method CountByLiquid(history: seq<WickingHistory>) returns (keys: seq<string>, counts: map<string, real>)
    ensures keys == LiquidKeys(history) && counts == LiquidTally(history)
  {
    keys, counts := [], map[];
    var i := 0;
    while i < |history|
      invariant 0 <= i <= |history|
      invariant keys == LiquidKeys(history[..i])
      invariant counts == LiquidTally(history[..i])
    {
      var h := history[i];
      assert history[..i + 1][..i] == history[..i];
      if h.liquidId !in keys {
        keys := keys + [h.liquidId];
      }
      counts := counts[h.liquidId := (if h.liquidId in counts then counts[h.liquidId] else 0.0) + h.mlConsumed];
      i := i + 1;
    }
    assert history[..i] == history;
  }

  predicate Distinct(keys: seq<string>)
  {
    forall i, j :: 0 <= i < j < |keys| ==> keys[i] != keys[j]
  }

  /** The keys are distinct, they are exactly the dictionary's keys and
      exactly the liquids used, and there are none for an empty history. */
  lemma {:induction false} TallyKeys(history: seq<WickingHistory>)
    ensures Distinct(LiquidKeys(history))
    ensures forall k :: k in LiquidKeys(history) <==> k in LiquidTally(history)
    ensures forall k :: k in LiquidTally(history) <==> exists i :: 0 <= i < |history| && history[i].liquidId == k
    ensures LiquidKeys(history) == [] <==> history == []
  {
    if history != [] {
      var prefix := history[..|history| - 1];
      TallyKeys(prefix);
      forall k | k in LiquidTally(history)
        ensures exists i :: 0 <= i < |history| && history[i].liquidId == k
      {
        if k != history[|history| - 1].liquidId {
          assert k in LiquidTally(prefix);
          var i :| 0 <= i < |prefix| && prefix[i].liquidId == k;
          assert history[i] == prefix[i];
        }
      }
      forall k | exists i :: 0 <= i < |history| && history[i].liquidId == k
        ensures k in LiquidTally(history)
      {
        var i :| 0 <= i < |history| && history[i].liquidId == k;
        if i < |prefix| {
          assert prefix[i] == history[i];
        }
      }
    }
  }

  /** Each count is the consumed volume of its liquid. */
  lemma {:induction false} TallyIsLiquidVolume(history: seq<WickingHistory>, k: string)
    requires k in LiquidTally(history)
    ensures LiquidTally(history)[k] == LiquidVolume(history, k)
  {
    var prefix := history[..|history| - 1];
    var h := history[|history| - 1];
    LiquidVolumeSnoc(prefix, h, k);
    assert prefix + [h] == history;
    if k in LiquidTally(prefix) {
      TallyIsLiquidVolume(prefix, k);
    } else {
      LiquidVolumeAbsent(prefix, k);
    }
  }

  lemma {:induction false} LiquidVolumeSnoc(history: seq<WickingHistory>, h: WickingHistory, k: string)
    ensures LiquidVolume(history + [h], k)
            == LiquidVolume(history, k) + (if h.liquidId == k then h.mlConsumed else 0.0)
  {
    if history != [] {
      assert (history + [h])[1..] == history[1..] + [h];
      LiquidVolumeSnoc(history[1..], h, k);
    }
  }

  /** A liquid that was never used has volume zero. */
  lemma {:induction false} LiquidVolumeAbsent(history: seq<WickingHistory>, k: string)
    requires k !in LiquidTally(history)
    ensures LiquidVolume(history, k) == 0.0
  {
    TallyKeys(history);
    ZeroWhenUnused(history, k);
  }

  lemma {:induction false} ZeroWhenUnused(history: seq<WickingHistory>, k: string)
    requires forall i :: 0 <= i < |history| ==> history[i].liquidId != k
    ensures LiquidVolume(history, k) == 0.0
  {
    if history != [] {
      ZeroWhenUnused(history[1..], k);
    }
  }

  /** The counts of the listed keys, summed in key order. */
  function SumOverKeys(keys: seq<string>, counts: map<string, real>): real
    requires forall k :: k in keys ==> k in counts
  {
    if keys == [] then 0.0 else counts[keys[0]] + SumOverKeys(keys[1..], counts)
  }

  /** The counts add up to the total consumed volume. */
  lemma {:induction false} TallySumsToTotal(history: seq<WickingHistory>)
    ensures forall k :: k in LiquidKeys(history) ==> k in LiquidTally(history)
    ensures SumOverKeys(LiquidKeys(history), LiquidTally(history)) == TotalMl(history)
  {
    if history != [] {
      var prefix := history[..|history| - 1];
      var h := history[|history| - 1];
      assert prefix + [h] == history;
      TallySumsToTotal(prefix);
      TallySnoc(prefix, h);
      SumOfConcat(prefix, [h], Dashboard.MlOf);
      assert SumOf([h], Dashboard.MlOf) == h.mlConsumed;
    }
  }

  /** One more session adds its volume to the sum of the counts. */
  lemma TallySnoc(prefix: seq<WickingHistory>, h: WickingHistory)
    requires forall k :: k in LiquidKeys(prefix) ==> k in LiquidTally(prefix)
    ensures forall k :: k in LiquidKeys(prefix + [h]) ==> k in LiquidTally(prefix + [h])
    ensures SumOverKeys(LiquidKeys(prefix + [h]), LiquidTally(prefix + [h]))
            == SumOverKeys(LiquidKeys(prefix), LiquidTally(prefix)) + h.mlConsumed
  {
    var history := prefix + [h];
    assert history[..|history| - 1] == prefix;
    TallyKeys(prefix);
    TallyStep(LiquidKeys(prefix), LiquidTally(prefix), h, LiquidKeys(history), LiquidTally(history));
  }

  /** One step of the `forEach`, on the key list and dictionary it had
      reached. */
  lemma TallyStep(keys: seq<string>, counts: map<string, real>, h: WickingHistory,
                  keys': seq<string>, counts': map<string, real>)
    requires Distinct(keys) && forall x :: x in keys <==> x in counts
    requires keys' == if h.liquidId in keys then keys else keys + [h.liquidId]
    requires counts' == counts[h.liquidId := (if h.liquidId in counts then counts[h.liquidId] else 0.0) + h.mlConsumed]
    ensures forall x :: x in keys' ==> x in counts'
    ensures SumOverKeys(keys', counts') == SumOverKeys(keys, counts) + h.mlConsumed
  {
    var k := h.liquidId;
    if k in keys {
      assert keys' == keys && counts' == counts[k := counts[k] + h.mlConsumed];
      TallyStepSeen(keys, counts, k, h.mlConsumed, counts');
    } else {
      assert keys' == keys + [k] && counts' == counts[k := 0.0 + h.mlConsumed];
      TallyStepNew(keys, counts, k, h.mlConsumed, counts');
    }
  }

  /** A liquid seen before keeps its place and its count grows. */
  lemma TallyStepSeen(keys: seq<string>, counts: map<string, real>, k: string, v: real,
                      counts': map<string, real>)
    requires Distinct(keys) && k in keys && forall x :: x in keys ==> x in counts
    requires counts' == counts[k := counts[k] + v]
    ensures forall x :: x in keys ==> x in counts'
    ensures SumOverKeys(keys, counts') == SumOverKeys(keys, counts) + v
  {
    SumOverKeysBump(keys, counts, k, v);
  }

  /** A new liquid goes to the end of the key list with its first count. */
  lemma TallyStepNew(keys: seq<string>, counts: map<string, real>, k: string, v: real,
                     counts': map<string, real>)
    requires k !in keys && forall x :: x in keys ==> x in counts
    requires counts' == counts[k := 0.0 + v]
    ensures forall x :: x in keys + [k] ==> x in counts'
    ensures SumOverKeys(keys + [k], counts') == SumOverKeys(keys, counts) + v
  {
    SumOverKeysFrame(keys, counts, counts');
    SumOverKeysSnoc(keys, k, counts');
  }

  /** Raising one listed key's count raises the sum by the same amount. */
  lemma {:induction false} SumOverKeysBump(keys: seq<string>, counts: map<string, real>, k: string, v: real)
    requires Distinct(keys) && k in keys
    requires forall x :: x in keys ==> x in counts
    ensures forall x :: x in keys ==> x in counts[k := counts[k] + v]
    ensures SumOverKeys(keys, counts[k := counts[k] + v]) == SumOverKeys(keys, counts) + v
  {
    var counts' := counts[k := counts[k] + v];
    if keys[0] == k {
      assert k !in keys[1..];
      SumOverKeysFrame(keys[1..], counts, counts');
    } else {
      SumOverKeysBump(keys[1..], counts, k, v);
    }
  }

  /** Counts of unlisted keys do not enter the sum. */
  lemma {:induction false} SumOverKeysFrame(keys: seq<string>, a: map<string, real>, b: map<string, real>)
    requires forall x :: x in keys ==> x in a && x in b && a[x] == b[x]
    ensures SumOverKeys(keys, a) == SumOverKeys(keys, b)
  {
    if keys != [] {
      SumOverKeysFrame(keys[1..], a, b);
    }
  }

  lemma {:induction false} SumOverKeysSnoc(keys: seq<string>, k: string, counts: map<string, real>)
    requires forall x :: x in keys + [k] ==> x in counts
    ensures SumOverKeys(keys + [k], counts) == SumOverKeys(keys, counts) + counts[k]
  {
    if keys == [] {
      assert keys + [k] == [k];
    } else {
      assert (keys + [k])[1..] == keys[1..] + [k];
      SumOverKeysSnoc(keys[1..], k, counts);
    }
  }

  // ---- the most used liquid ----

  /** The first entry of the count-descending stable sort: the first key,
      in key order, whose count is maximal. */
  function TopKey(keys: seq<string>, counts: map<string, real>): (top: Option<string>)
    requires forall k :: k in keys ==> k in counts
    ensures top.None? <==> keys == []
    ensures top.Some? ==>
              top.value in keys
              && (forall k :: k in keys ==> counts[k] <= counts[top.value])
              && exists i :: 0 <= i < |keys| && keys[i] == top.value
                             && forall j :: 0 <= j < i ==> counts[keys[j]] < counts[top.value]
  {
    if keys == [] then None
    else
      var rest := TopKey(keys[1..], counts);
      assert forall k :: k in keys ==> k == keys[0] || k in keys[1..];
      if rest.None? || counts[keys[0]] >= counts[rest.value] then
        Some(keys[0])
      else
        var i :| 0 <= i < |keys[1..]| && keys[1..][i] == rest.value
                 && forall j :: 0 <= j < i ==> counts[keys[1..][j]] < counts[rest.value];
        EarlierKeysBelow(keys, counts, rest.value, i);
        rest
  }

  /** A key that beats every key before it in the tail, and the head too,
      beats every key before it in the whole list. */
  lemma EarlierKeysBelow(keys: seq<string>, counts: map<string, real>, t: string, i: nat)
    requires forall k :: k in keys ==> k in counts
    requires i + 1 < |keys| && keys[1..][i] == t && t in counts
    requires counts[keys[0]] < counts[t]
    requires forall j :: 0 <= j < i ==> counts[keys[1..][j]] < counts[t]
    ensures keys[i + 1] == t && forall j :: 0 <= j < i + 1 ==> counts[keys[j]] < counts[t]
  {
    forall j | 0 < j < i + 1
      ensures counts[keys[j]] < counts[t]
    {
      assert keys[j] == keys[1..][j - 1];
    }
  }

  /** `topLiquidId`: defined exactly when there is some history, and then
      a liquid used in it with the largest consumed volume. */
  function TopLiquidId(history: seq<WickingHistory>): (top: Option<string>)
    ensures top.None? <==> history == []
    ensures top.Some? ==>
              (exists i :: 0 <= i < |history| && history[i].liquidId == top.value)
              && forall i :: 0 <= i < |history| ==>
                   LiquidVolume(history, history[i].liquidId) <= LiquidVolume(history, top.value)
  {
    TallyKeys(history);
    var top := TopKey(LiquidKeys(history), LiquidTally(history));
    if top.Some? then TopIsMaximal(history, top); top else top
  }

  lemma TopIsMaximal(history: seq<WickingHistory>, top: Option<string>)
    requires forall k :: k in LiquidKeys(history) ==> k in LiquidTally(history)
    requires top.Some? && top.value in LiquidKeys(history)
    requires forall k :: k in LiquidKeys(history) ==> LiquidTally(history)[k] <= LiquidTally(history)[top.value]
    ensures forall i :: 0 <= i < |history| ==>
              LiquidVolume(history, history[i].liquidId) <= LiquidVolume(history, top.value)
  {
    TallyKeys(history);
    TallyIsLiquidVolume(history, top.value);
    forall i | 0 <= i < |history|
      ensures LiquidVolume(history, history[i].liquidId) <= LiquidVolume(history, top.value)
    {
      TallyIsLiquidVolume(history, history[i].liquidId);
    }
  }

  /** `topLiquid`: the first inventory item carrying the top liquid id. */
  function TopLiquid(history: seq<WickingHistory>, inventory: seq<InventoryItem>): (item: Option<InventoryItem>)
    ensures history == [] ==> item == None
    ensures item.Some? ==> item.value in inventory && Some(item.value.id) == TopLiquidId(history)
    ensures TopLiquidId(history).Some? ==>
              (item.None? <==> forall i :: 0 <= i < |inventory| ==> inventory[i].id != TopLiquidId(history).value)
    ensures item.Some? ==>
              exists i :: 0 <= i < |inventory| && inventory[i] == item.value
                          && forall j :: 0 <= j < i ==> inventory[j].id != item.value.id
  {
    match TopLiquidId(history)
    case None => None
    case Some(k) => FindFirst((i: InventoryItem) => i.id == k, inventory)
  }
}
