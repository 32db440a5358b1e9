/**
 * The behaviour every repair tool shares: opening the list of items the tool
 * can work on, and repairing the item the player picks from it (gates on
 * condition, skill, fatigue and scraps; the repair itself; wear on the tool).
 *
 * A tool item is a `RepairTool`: its `kind` selects the per-tool strategy of
 * `ItemsRepairTools`, its `item` is the tool's own item state (its condition
 * counts the uses left), and its mutable fields are the list the picker was
 * filled from and the collection the tool was used from.
 */
module AbstractItemRepairTools {

  import opened Wrappers
  import opened Inventory
  import opened Scraps
  import opened TextUtil
  import opened RepairTools
  import opened ItemsRepairTools

  // ------------------------------------------------------------- audio clip

  /** The index of the tool's sound in `AudioClips`: its template index minus the whetstone's. */
  function GetAudioClipNum(kind: ToolKind): (r: int)
    ensures 0 <= r < |AudioClips|
    ensures KindOfTemplate(800 + r) == Some(kind)
  {
    kind.TemplateIndex() - 800
  }

  // ---------------------------------------------------------- picker labels

  /** One cost as the label prints it: the count, a space, the enum name. */
  function CostText(c: ScrapsCost): string {
    IntToString(c.count) + " " + c.scrapsType.Name()
  }

  /** The costs joined by ", ". */
  function CostList(costs: seq<ScrapsCost>): string
    requires |costs| > 0
  {
    if |costs| == 1 then CostText(costs[0])
    else CostList(costs[..|costs| - 1]) + ", " + CostText(costs[|costs| - 1])
  }

  /** Two costs are joined by one ", ". */
  lemma CostListPair(costs: seq<ScrapsCost>)
    requires |costs| == 2
    ensures CostList(costs) == CostText(costs[0]) + ", " + CostText(costs[1])
  {
    assert costs[..1] == [costs[0]];
  }

  /** The part of a picker label after the percentages: the costs in parentheses, or nothing. */
  function CostSuffix(costs: seq<ScrapsCost>): string {
    if costs == [] then "" else "  (" + CostList(costs) + ")"
  }

  /** The suffix is empty exactly without costs; one or two costs read "  (c1 T1)" or "  (c1 T1, c2 T2)". */
  lemma CostSuffixShape(costs: seq<ScrapsCost>)
    ensures CostSuffix(costs) == "" <==> costs == []
    ensures |costs| == 1 ==> CostSuffix(costs) == "  (" + CostText(costs[0]) + ")"
    ensures |costs| == 2 ==> CostSuffix(costs) == "  (" + CostText(costs[0]) + ", " + CostText(costs[1]) + ")"
  {
    if |costs| == 2 {
      CostListPair(costs);
    }
  }

  /** The maximum condition percentage `player` can restore `item` to. */
  function MaxPercentageFor(player: Player, item: Item, trig: Trig): int
    requires trig.pi > 0.0
  {
    MaxConditionPercent(
      EffectiveRepairSkill(player.level, player.stats, player.careerName),
      SkillTarget(item.itemGroup, item.nativeMaterialValue),
      trig)
  }

  /**
   * The efficiency the drains are divided by: the source's `int` ratio
   * `RepairEfficiencyRatio`, widened to a float. It is 1 for every player
   * and item, so the drains are never scaled by skill.
   */
  function EfficiencyFor(player: Player, item: Item, trig: Trig): (r: real)
    requires IsArcTangent(trig)
    ensures r == 1.0
  {
    var playerSkill := EffectiveRepairSkill(player.level, player.stats, player.careerName);
    var targetSkill := SkillTarget(item.itemGroup, item.nativeMaterialValue);
    RepairEfficiencyRatioIsOne(playerSkill, targetSkill, trig);
    RepairEfficiencyRatio(playerSkill, targetSkill, trig) as real
  }

  /** Whether the picker lists `item`, whose charge record is `props`. */
  predicate ValidAt(kind: ToolKind, item: Item, props: ItemProperties)
    reads props
  {
    if kind == ChargingPowder then props.currentCharge != props.maxCharge && IsValidForRepair(kind, item)
    else IsValidForRepair(kind, item)
  }

  /**
   * The picker line for `item`: for a condition tool its name, condition
   * percentage, reachable percentage and cost; for the powder its charge.
   */
  function LabelAt(kind: ToolKind, player: Player, item: Item, props: ItemProperties, trig: Trig): string
    requires trig.pi > 0.0
    requires kind != ChargingPowder ==> item.maxCondition > 0
    reads item, props
  {
    if kind == ChargingPowder then
      IntToString(props.currentCharge) + " / " + IntToString(props.maxCharge) + "  " + item.longName
    else
      item.longName + "  " + IntToString(ConditionPercentage(item)) + "% | "
      + IntToString(MaxPercentageFor(player, item, trig)) + " %" + CostSuffix(GetScrapsCosts(kind, item))
  }

  /**
   * The positions among the first `n` inventory slots of the items the
   * picker lists. `CandidateIndicesIncreasing` shows they follow inventory
   * order, `CandidateIndicesValid` that each holds an item the tool accepts,
   * and `CandidateIndicesComplete` that no such item is missed.
   */
  function CandidateIndices(kind: ToolKind, items: seq<Item>, props: seq<ItemProperties>, n: int): (r: seq<int>)
    requires 0 <= n <= |items| == |props|
    reads props
    ensures forall k :: 0 <= k < |r| ==> 0 <= r[k] < n
    decreases n
  {
    if n == 0 then []
    else CandidateIndices(kind, items, props, n - 1) + (if ValidAt(kind, items[n - 1], props[n - 1]) then [n - 1] else [])
  }

  /** The listed positions strictly increase: the picker keeps inventory order. */
  lemma {:induction false} CandidateIndicesIncreasing(kind: ToolKind, items: seq<Item>, props: seq<ItemProperties>,
                                                      n: int, k: int, l: int)
    requires 0 <= n <= |items| == |props| && 0 <= k < l < |CandidateIndices(kind, items, props, n)|
    ensures CandidateIndices(kind, items, props, n)[k] < CandidateIndices(kind, items, props, n)[l]
    decreases n
  {
    var prior := CandidateIndices(kind, items, props, n - 1);
    if l < |prior| {
      CandidateIndicesIncreasing(kind, items, props, n - 1, k, l);
    }
  }

  /** Every listed position holds an item the tool accepts. */
  lemma {:induction false} CandidateIndicesValid(kind: ToolKind, items: seq<Item>, props: seq<ItemProperties>,
                                                 n: int, k: int)
    requires 0 <= n <= |items| == |props| && 0 <= k < |CandidateIndices(kind, items, props, n)|
    ensures var j := CandidateIndices(kind, items, props, n)[k]; ValidAt(kind, items[j], props[j])
    decreases n
  {
    var prior := CandidateIndices(kind, items, props, n - 1);
    if k < |prior| {
      CandidateIndicesValid(kind, items, props, n - 1, k);
    }
  }

  /** Every position holding a valid item is listed. */
  lemma {:induction false} CandidateIndicesComplete(kind: ToolKind, items: seq<Item>, props: seq<ItemProperties>,
                                                    n: int, j: int)
    requires 0 <= j < n <= |items| == |props| && ValidAt(kind, items[j], props[j])
    ensures j in CandidateIndices(kind, items, props, n)
    decreases n
  {
    if j < n - 1 {
      CandidateIndicesComplete(kind, items, props, n - 1, j);
    }
  }

  /** The items among the first `n` slots that the picker lists, in inventory order. */
  function Candidates(kind: ToolKind, items: seq<Item>, props: seq<ItemProperties>, n: int): seq<Item>
    requires 0 <= n <= |items| == |props|
    reads props
    decreases n
  {
    if n == 0 then []
    else Candidates(kind, items, props, n - 1) + (if ValidAt(kind, items[n - 1], props[n - 1]) then [items[n - 1]] else [])
  }

  /** The listed items are exactly the items at the listed positions. */
  lemma {:induction false} CandidatesAtIndices(kind: ToolKind, items: seq<Item>, props: seq<ItemProperties>, n: int)
    requires 0 <= n <= |items| == |props|
    ensures |Candidates(kind, items, props, n)| == |CandidateIndices(kind, items, props, n)|
    ensures forall k :: 0 <= k < |Candidates(kind, items, props, n)| ==>
      Candidates(kind, items, props, n)[k] == items[CandidateIndices(kind, items, props, n)[k]]
    decreases n
  {
    if n > 0 {
      CandidatesAtIndices(kind, items, props, n - 1);
    }
  }

  /** Every item a condition tool lists has a positive maximum condition. */
  predicate ConditionsKnown(kind: ToolKind, items: seq<Item>) {
    kind != ChargingPowder ==>
      forall j :: 0 <= j < |items| && IsValidForRepair(kind, items[j]) ==> items[j].maxCondition > 0
  }

  /** The picker's lines for the first `n` slots, one per listed item, in the same order. */
  function PickerLabels(kind: ToolKind, player: Player, items: seq<Item>, props: seq<ItemProperties>, trig: Trig,
                        n: int): seq<string>
    requires 0 <= n <= |items| == |props| && trig.pi > 0.0 && ConditionsKnown(kind, items)
    reads items, props
    decreases n
  {
    if n == 0 then []
    else
      PickerLabels(kind, player, items, props, trig, n - 1)
      + (if ValidAt(kind, items[n - 1], props[n - 1]) then [LabelAt(kind, player, items[n - 1], props[n - 1], trig)] else [])
  }

  /** The picker has one line per listed position. */
  lemma {:induction false} PickerLabelsLength(kind: ToolKind, player: Player, items: seq<Item>,
                                              props: seq<ItemProperties>, trig: Trig, n: int)
    requires 0 <= n <= |items| == |props| && trig.pi > 0.0 && ConditionsKnown(kind, items)
    ensures |PickerLabels(kind, player, items, props, trig, n)| == |CandidateIndices(kind, items, props, n)|
    decreases n
  {
    if n > 0 {
      PickerLabelsLength(kind, player, items, props, trig, n - 1);
    }
  }

  /**
   * The picker's lines and its items stay in step: line `k` describes the
   * `k`-th listed item, using that item's own charge record.
   */
  lemma {:induction false} PickerLabelsAligned(kind: ToolKind, player: Player, items: seq<Item>,
                                               props: seq<ItemProperties>, trig: Trig, n: int, k: int)
    requires 0 <= n <= |items| == |props| && trig.pi > 0.0 && ConditionsKnown(kind, items)
    requires 0 <= k < |CandidateIndices(kind, items, props, n)|
    ensures |PickerLabels(kind, player, items, props, trig, n)| == |CandidateIndices(kind, items, props, n)|
    ensures var j := CandidateIndices(kind, items, props, n)[k];
      && ValidAt(kind, items[j], props[j])
      && PickerLabels(kind, player, items, props, trig, n)[k] == LabelAt(kind, player, items[j], props[j], trig)
    decreases n
  {
    var prior := CandidateIndices(kind, items, props, n - 1);
    var lines := PickerLabels(kind, player, items, props, trig, n - 1);
    PickerLabelsLength(kind, player, items, props, trig, n);
    PickerLabelsLength(kind, player, items, props, trig, n - 1);
    CandidateIndicesValid(kind, items, props, n, k);
    if k < |prior| {
      PickerLabelsAligned(kind, player, items, props, trig, n - 1, k);
      assert PickerLabels(kind, player, items, props, trig, n)[k] == lines[k];
    }
  }

  /**
   * The loop that fills the picker: walks the inventory in order and, for
   * each item the tool can work on, keeps it and builds its line (name,
   * condition, reachable percentage, then the costs joined by ", ").
   */
  method CollectCandidates(kind: ToolKind, player: Player, items: seq<Item>, props: seq<ItemProperties>, trig: Trig)
    returns (valid: seq<Item>, labels: seq<string>)
    requires |items| == |props| && trig.pi > 0.0 && ConditionsKnown(kind, items)
    ensures valid == Candidates(kind, items, props, |items|)
    ensures labels == PickerLabels(kind, player, items, props, trig, |items|)
  {
    valid, labels := [], [];
    var i := 0;
    while i < |items|
      invariant 0 <= i <= |items|
      invariant valid == Candidates(kind, items, props, i)
      invariant labels == PickerLabels(kind, player, items, props, trig, i)
    {
      var x := items[i];
      if ValidAt(kind, x, props[i]) {
        var line := BuildLabel(kind, player, x, props[i], trig);
        valid := valid + [x];
        labels := labels + [line];
      }
      i := i + 1;
    }
  }

  /** The body of that loop for one accepted item: its line, the costs joined one by one. */
  method BuildLabel(kind: ToolKind, player: Player, x: Item, props: ItemProperties, trig: Trig) returns (line: string)
    requires trig.pi > 0.0
    requires kind != ChargingPowder ==> x.maxCondition > 0
    ensures line == LabelAt(kind, player, x, props, trig)
  {
    if kind == ChargingPowder {
      line := IntToString(props.currentCharge) + " / " + IntToString(props.maxCharge) + "  " + x.longName;
    } else {
      var maxPercentage := MaxPercentageFor(player, x, trig);
      var costs := GetScrapsCosts(kind, x);
      var suffix := "";
      if |costs| > 0 {
        // the first cost, then ", " before each further one
        var list := CostText(costs[0]);
        var j := 1;
        while j < |costs|
          invariant 1 <= j <= |costs|
          invariant list == CostList(costs[..j])
        {
          assert costs[..j + 1][..j] == costs[..j];
          list := list + ", " + CostText(costs[j]);
          j := j + 1;
        }
        assert costs[..|costs|] == costs;
        suffix := "  (" + list + ")";
      }
      line := x.longName + "  " + IntToString(ConditionPercentage(x)) + "% | " + IntToString(maxPercentage) + " %" + suffix;
    }
  }

  // -------------------------------------------------------------- outcomes

  /** What using a tool from the inventory leads to. */
  datatype UseOutcome = EnemiesNearby | TooExhausted | NothingToRepair | PickerShown

  /** The fatigue at or below which the player is too exhausted to use a tool: 20 displayed points. */
  const ExhaustedFatigue: int := 20 * FatigueMultiplier

  function UseItemOutcome(enemiesNearby: bool, fatigue: int, candidates: nat): (r: UseOutcome)
    ensures r == EnemiesNearby <==> enemiesNearby
    ensures r == TooExhausted <==> !enemiesNearby && fatigue <= ExhaustedFatigue
    ensures r == NothingToRepair <==> !enemiesNearby && fatigue > ExhaustedFatigue && candidates == 0
    ensures r == PickerShown <==> !enemiesNearby && fatigue > ExhaustedFatigue && candidates > 0
  {
    if enemiesNearby then EnemiesNearby
    else if fatigue <= ExhaustedFatigue then TooExhausted
    else if candidates == 0 then NothingToRepair
    else PickerShown
  }

  /** What picking an item from the list leads to, gate by gate. */
  datatype Verdict = TooDamaged | NotDamagedEnough | TooTired | NotEnoughScraps | Repaired

  function PickVerdict(condition: int, conditionPercent: int, maxPercent: int,
                       fatigue: int, staminaDrain: int, affordable: bool): (v: Verdict)
    ensures v == TooDamaged <==> condition <= 0
    ensures v == NotDamagedEnough <==> condition > 0 && conditionPercent >= maxPercent
    ensures v == TooTired <==> condition > 0 && conditionPercent < maxPercent && fatigue < staminaDrain
    ensures v == NotEnoughScraps <==>
      condition > 0 && conditionPercent < maxPercent && fatigue >= staminaDrain && !affordable
    ensures v == Repaired <==>
      condition > 0 && conditionPercent < maxPercent && fatigue >= staminaDrain && affordable
  {
    if condition <= 0 then TooDamaged
    else if conditionPercent >= maxPercent then NotDamagedEnough
    else if fatigue < staminaDrain then TooTired
    else if !affordable then NotEnoughScraps
    else Repaired
  }

  // ------------------------------------------------------------ fatigue cost

  /** `(int)` applied to a float: truncation toward zero. */
  function TruncateToInt(x: real): (r: int)
    ensures x >= 0.0 ==> r as real <= x < r as real + 1.0
    ensures x < 0.0 ==> r as real - 1.0 < x <= r as real
  {
    if x >= 0.0 then x.Floor else -((-x).Floor)
  }

  /**
   * The share of the maximum condition a repair to `threshold` percent
   * restores: the rounded target condition minus the current one, over the
   * maximum.
   */
  function GetRepairPercentage(item: Item, threshold: int): real
    requires item.maxCondition > 0
    reads item
  {
    (RoundHalfEvenDiv(item.maxCondition * threshold, 100) - item.currentCondition) as real
    / item.maxCondition as real
  }

  /** An item that passed the percentage gate has a share to restore that is not negative. */
  lemma RepairPercentageNonNegative(item: Item, threshold: int)
    requires 0 < item.currentCondition && 0 < item.maxCondition
    requires ConditionPercentage(item) < threshold
    ensures GetRepairPercentage(item, threshold) >= 0.0
  {
    PercentBelowThreshold(item.currentCondition, item.maxCondition, threshold);
    var r := RoundHalfEvenDiv(item.maxCondition * threshold, 100);
    assert NearestEven(item.maxCondition * threshold, 100, r);
    assert r >= item.currentCondition;
  }

  /** The fatigue a repair costs, in the host's stored units. */
  function StaminaDrainValue(kind: ToolKind, stats: Stats, bonus: real, repairPercentage: real, efficiency: real): (r: int)
    requires kind == ChargingPowder ==> bonus > 0.0
    requires efficiency > 0.0
    ensures repairPercentage >= 0.0 ==> r >= 0
  {
    var drain := GetStaminaDrain(kind, stats, bonus);
    ScaledDrainNonNegative(drain, repairPercentage, efficiency);
    TruncateToInt(drain * repairPercentage / efficiency * FatigueMultiplier as real)
  }

  /** The game time a repair takes, in seconds. */
  function TimeDrainValue(kind: ToolKind, stats: Stats, bonus: real, repairPercentage: real, efficiency: real): (r: real)
    requires kind == ChargingPowder ==> bonus > 0.0
    requires efficiency > 0.0
    ensures repairPercentage >= 0.0 ==> r >= 0.0
  {
    var drain := GetTimeDrain(kind, stats, bonus);
    ScaledDrainNonNegative(drain, repairPercentage, efficiency);
    drain * repairPercentage / efficiency
  }

  // ---------------------------------------------------------- scraps stacks

  predicate Matches(x: Item, group: ItemGroup, templateIndex: int) {
    x.itemGroup == group && x.templateIndex == templateIndex
  }

  /** The host's `SearchItems`: the items of a group and template, in collection order. */
  function SearchItems(items: seq<Item>, group: ItemGroup, templateIndex: int): (r: seq<Item>)
    ensures forall k :: 0 <= k < |r| ==> r[k] in items && Matches(r[k], group, templateIndex)
    ensures |r| == 0 <==> forall i :: 0 <= i < |items| ==> !Matches(items[i], group, templateIndex)
  {
    if items == [] then []
    else
      var rest := SearchItems(items[1..], group, templateIndex);
      if Matches(items[0], group, templateIndex) then [items[0]] + rest else rest
  }

  /** The stack a cost of kind `t` is taken from: the first search result. */
  function FirstStack(t: ScrapsType, items: seq<Item>): (r: Option<Item>)
    ensures r.Some? ==> r.value in items && r.value.templateIndex == t.GetTemplateIndex()
  {
    var found := SearchItems(items, t.GetItemGroups(), t.GetTemplateIndex());
    if |found| == 0 then None else Some(found[0])
  }

  /** Whether the first stack of each cost's kind holds at least that cost. */
  predicate CanAfford(costs: seq<ScrapsCost>, items: seq<Item>)
    reads items
  {
    forall j :: 0 <= j < |costs| ==>
      FirstStack(costs[j].scrapsType, items).Some?
      && FirstStack(costs[j].scrapsType, items).value.stackCount >= costs[j].count
  }

  /** The total `costs` take from stack `x`. */
  function Charged(costs: seq<ScrapsCost>, items: seq<Item>, x: Item): int
  {
    if costs == [] then 0
    else
      var last := costs[|costs| - 1];
      Charged(costs[..|costs| - 1], items, x)
      + (if FirstStack(last.scrapsType, items) == Some(x) then last.count else 0)
  }

  /**
   * Takes the scraps for one repair out of `inventory`, all or nothing: it
   * succeeds exactly when every cost's first stack holds enough, and then
   * every stack loses what the costs charge to it; otherwise no stack changes.
   */
  method TryConsumeResources(costs: seq<ScrapsCost>, inventory: ItemCollection) returns (ok: bool)
    modifies inventory.items`stackCount
    ensures ok == old(CanAfford(costs, inventory.items))
    ensures forall x :: x in inventory.items ==>
      x.stackCount == old(x.stackCount) - (if ok then Charged(costs, inventory.items, x) else 0)
  {
    var items := inventory.items;
    var stacks: seq<Item> := [];
    var i := 0;
    while i < |costs|
      invariant 0 <= i <= |costs| && |stacks| == i
      invariant forall j :: 0 <= j < i ==>
        FirstStack(costs[j].scrapsType, items) == Some(stacks[j]) && stacks[j].stackCount >= costs[j].count
    {
      var t := costs[i].scrapsType;
      var result := SearchItems(items, t.GetItemGroups(), t.GetTemplateIndex());
      if |result| == 0 {
        return false;
      }
      var scraps := result[0];
      if scraps.stackCount < costs[i].count {
        return false;
      }
      stacks := stacks + [scraps];
      i := i + 1;
    }
    var k := 0;
    while k < |costs|
      invariant 0 <= k <= |costs|
      invariant forall x :: x in items ==> x.stackCount == old(x.stackCount) - Charged(costs[..k], items, x)
    {
      ChargedPrefixStep(costs, items, k);
      stacks[k].stackCount := stacks[k].stackCount - costs[k].count;
      k := k + 1;
    }
    assert costs[..|costs|] == costs;
    return true;
  }

  /** Charging one more cost adds that cost's count to its own stack only. */
  lemma ChargedPrefixStep(costs: seq<ScrapsCost>, items: seq<Item>, k: int)
    requires 0 <= k < |costs|
    ensures forall x ::
              Charged(costs[..k + 1], items, x)
              == Charged(costs[..k], items, x) + (if FirstStack(costs[k].scrapsType, items) == Some(x) then costs[k].count else 0)
  {
    assert costs[..k + 1][..k] == costs[..k];
  }

  /** With no kind named twice, each cost is charged exactly once, to its own stack. */
  lemma {:induction false} ChargedOwnStack(costs: seq<ScrapsCost>, items: seq<Item>, j: int)
    requires forall a, b :: 0 <= a < b < |costs| ==> costs[a].scrapsType != costs[b].scrapsType
    requires 0 <= j < |costs| && FirstStack(costs[j].scrapsType, items).Some?
    ensures Charged(costs, items, FirstStack(costs[j].scrapsType, items).value) == costs[j].count
    decreases |costs|
  {
    var x := FirstStack(costs[j].scrapsType, items).value;
    var n := |costs| - 1;
    var last := costs[n];
    if j == n {
      ChargedElsewhere(costs[..n], items, x);
    } else {
      ChargedOwnStack(costs[..n], items, j);
      if FirstStack(last.scrapsType, items) == Some(x) {
        assert false;
      }
    }
  }

  /**
   * A repair charges each of its costs exactly once: the first stack of a
   * cost's kind loses that cost's count and no more.
   */
  lemma RepairChargesOwnStack(kind: ToolKind, item: Item, items: seq<Item>, j: int)
    requires 0 <= j < |GetScrapsCosts(kind, item)|
    requires FirstStack(GetScrapsCosts(kind, item)[j].scrapsType, items).Some?
    ensures var costs := GetScrapsCosts(kind, item);
      Charged(costs, items, FirstStack(costs[j].scrapsType, items).value) == costs[j].count
  {
    GetScrapsCostsSchedule(kind, item);
    ChargedOwnStack(GetScrapsCosts(kind, item), items, j);
  }

  /** A stack that no cost's kind leads to is charged nothing. */
  lemma {:induction false} ChargedElsewhere(costs: seq<ScrapsCost>, items: seq<Item>, x: Item)
    requires forall j :: 0 <= j < |costs| ==> FirstStack(costs[j].scrapsType, items) != Some(x)
    ensures Charged(costs, items, x) == 0
    decreases |costs|
  {
    if costs != [] {
      ChargedElsewhere(costs[..|costs| - 1], items, x);
    }
  }

  // --------------------------------------------------------------- messages

  /** One line of the "not enough resources" message: the count and the kind's long name. */
  function CostLine(c: ScrapsCost): string {
    "- " + IntToString(c.count) + " " + c.scrapsType.GetLongName()
  }

  /** The first line of the "not enough resources" message. */
  const NeedHeader: string := "You need at least:"

  /** The left-justified lines of the "not enough resources" message: a header, then one line per cost. */
  function NotEnoughScrapsLines(costs: seq<ScrapsCost>): seq<string> {
    [NeedHeader] + seq(|costs|, k requires 0 <= k < |costs| => CostLine(costs[k]))
  }

  /**
   * The message lists every cost, in order, under the header: line `k + 1`
   * shows cost `k`'s count and then its kind's long name.
   */
  lemma NotEnoughScrapsLinesListEachCost(costs: seq<ScrapsCost>, k: int)
    requires 0 <= k < |costs|
    ensures var r := NotEnoughScrapsLines(costs);
      var count := IntToString(costs[k].count);
      && |r| == |costs| + 1 && r[0] == NeedHeader
      && OccursAt(r[k + 1], count, 2)
      && OccursAt(r[k + 1], costs[k].scrapsType.GetLongName(), 3 + |count|)
  {
    var count := IntToString(costs[k].count);
    var name := costs[k].scrapsType.GetLongName();
    var prefix := "- " + count + " ";
    var line := NotEnoughScrapsLines(costs)[k + 1];
    assert line == prefix + name;
    assert |prefix| == 3 + |count|;
    assert line[2..2 + |count|] == prefix[2..2 + |count|] == count;
    assert line[|prefix|..|prefix| + |name|] == name;
  }

  /** The centred lines of each refusal; every refusal names the item it refuses. */
  function RefusalLines(v: Verdict, itemName: string): (r: seq<string>)
    requires v != Repaired
    ensures |r| >= 1 && Occurs(r[0], itemName)
  {
    var professional := "You will need to seek the services of a professional.";
    match v
    case TooDamaged =>
      var l := "This " + itemName + " is damaged beyond your abilities.";
      assert OccursAt(l, itemName, 5);
      [l, professional]
    case NotDamagedEnough =>
      var l := "You cannot improve the condition of this " + itemName + " with your current abilities.";
      assert OccursAt(l, itemName, 41);
      [l, professional]
    case TooTired =>
      var l := "You are too exhausted to repair this " + itemName + ".";
      assert OccursAt(l, itemName, 37);
      [l]
    case NotEnoughScraps =>
      var l := "You do not have the resources to repair this " + itemName + ".";
      assert OccursAt(l, itemName, 45);
      [l]
  }

  /**
   * The gates a picked item passes before any scraps are looked at: broken,
   * already at the reachable percentage, or too costly in fatigue. A verdict
   * of `Repaired` here means all three passed. Also computes the reachable
   * percentage and the fatigue and time the repair would cost, both divided
   * by the source's `int` efficiency ratio, `RepairEfficiencyRatio`, which
   * is always 1 (`RepairEfficiency` is the real ratio it was meant to be).
   */
  method AssessPick(kind: ToolKind, target: Item, player: Player, bonus: real, trig: Trig)
    returns (gate: Verdict, maxPercentage: int, staminaDrainValue: int, timeDrainValue: real)
    requires IsArcTangent(trig)
    requires kind == ChargingPowder ==> bonus > 0.0
    requires target.maxCondition > 0
    ensures maxPercentage == MaxPercentageFor(player, target, trig) && 20 <= maxPercentage <= 100
    ensures gate == PickVerdict(target.currentCondition, ConditionPercentage(target), maxPercentage,
      player.currentFatigue, staminaDrainValue, true)
    ensures target.currentCondition > 0 && ConditionPercentage(target) < maxPercentage ==>
      && staminaDrainValue == StaminaDrainValue(kind, player.stats, bonus, GetRepairPercentage(target, maxPercentage),
           EfficiencyFor(player, target, trig))
      && staminaDrainValue >= 0
      && timeDrainValue == TimeDrainValue(kind, player.stats, bonus, GetRepairPercentage(target, maxPercentage),
           EfficiencyFor(player, target, trig))
  {
    staminaDrainValue, timeDrainValue := 0, 0.0;
    var playerSkill := EffectiveRepairSkill(player.level, player.stats, player.careerName);
    var targetSkill := SkillTarget(target.itemGroup, target.nativeMaterialValue);
    maxPercentage := MaxConditionPercent(playerSkill, targetSkill, trig);
    MaxConditionPercentRange(playerSkill, targetSkill, trig);
    if target.currentCondition <= 0 {
      return TooDamaged, maxPercentage, staminaDrainValue, timeDrainValue;
    }
    if ConditionPercentage(target) >= maxPercentage {
      return NotDamagedEnough, maxPercentage, staminaDrainValue, timeDrainValue;
    }
    var repairEfficiency := RepairEfficiencyRatio(playerSkill, targetSkill, trig) as real;
    RepairEfficiencyRatioIsOne(playerSkill, targetSkill, trig);
    var repairPercentage := GetRepairPercentage(target, maxPercentage);
    RepairPercentageNonNegative(target, maxPercentage);
    staminaDrainValue := StaminaDrainValue(kind, player.stats, bonus, repairPercentage, repairEfficiency);
    timeDrainValue := TimeDrainValue(kind, player.stats, bonus, repairPercentage, repairEfficiency);
    gate := if player.currentFatigue < staminaDrainValue then TooTired else Repaired;
  }

  // ---------------------------------------------------------------- the tool

  class RepairTool {
    const kind: ToolKind
    const item: Item
    var validRepairItems: seq<Item>
    var pickerLabels: seq<string>
    var repairItemCollection: ItemCollection?

    constructor (kind: ToolKind, item: Item)
      ensures this.kind == kind && this.item == item
      ensures validRepairItems == [] && pickerLabels == [] && repairItemCollection == null
    {
      this.kind := kind;
      this.item := item;
      validRepairItems := [];
      pickerLabels := [];
      repairItemCollection := null;
    }

    /**
     * Using the tool from `collection`: refuses when enemies are near or the
     * player is exhausted; otherwise remembers the collection and fills the
     * picker, in inventory order, with every item the tool can work on.
     * `props[i]` is the charge record of the i-th inventory item.
     */
    method UseItem(collection: ItemCollection, player: Player, enemiesNearby: bool,
                   props: seq<ItemProperties>, trig: Trig) returns (outcome: UseOutcome)
      requires |props| == |player.items.items|
      requires trig.pi > 0.0
      requires ConditionsKnown(kind, player.items.items)
      modifies this
      ensures outcome == UseItemOutcome(enemiesNearby, player.currentFatigue,
        |old(Candidates(kind, player.items.items, props, |props|))|)
      ensures outcome == EnemiesNearby || outcome == TooExhausted ==>
        validRepairItems == old(validRepairItems) && pickerLabels == old(pickerLabels)
        && repairItemCollection == old(repairItemCollection)
      ensures outcome == NothingToRepair || outcome == PickerShown ==>
        repairItemCollection == collection
        && validRepairItems == old(Candidates(kind, player.items.items, props, |props|))
        && pickerLabels == old(PickerLabels(kind, player, player.items.items, props, trig, |props|))
    {
      if enemiesNearby {
        return EnemiesNearby;
      }
      if player.currentFatigue <= ExhaustedFatigue {
        return TooExhausted;
      }
      var valid, labels := CollectCandidates(kind, player, player.items.items, props, trig);
      repairItemCollection := collection;
      validRepairItems := valid;
      pickerLabels := labels;
      outcome := if |valid| > 0 then PickerShown else NothingToRepair;
    }

    /**
     * The tool loses `amount` condition; at zero or below it breaks: its
     * condition is set to zero and it leaves the collection it was used from.
     */
    method LowerConditionWorkaround(amount: int)
      requires repairItemCollection != null
      modifies item`currentCondition, repairItemCollection`items
      ensures old(item.currentCondition) - amount > 0 ==>
        item.currentCondition == old(item.currentCondition) - amount
        && repairItemCollection.items == old(repairItemCollection.items)
      ensures old(item.currentCondition) - amount <= 0 ==>
        item.currentCondition == 0
        && repairItemCollection.items == Without(old(repairItemCollection.items), item)
    {
      item.currentCondition := item.currentCondition - amount;
      if item.currentCondition <= 0 {
        item.currentCondition := 0;
        repairItemCollection.RemoveItem(item);
      }
    }

    /**
     * The repair itself: a condition tool sets the item's condition to
     * `threshold` percent of its maximum, the powder sets the item's charge
     * to `threshold` percent of its maximum charge.
     */
    method DoRepair(target: Item, threshold: int, props: ItemProperties)
      modifies target`currentCondition, props`currentCharge
      ensures kind != ChargingPowder ==>
        target.currentCondition == ConditionAfterRepair(target.maxCondition, threshold)
        && props.currentCharge == old(props.currentCharge)
      ensures kind == ChargingPowder ==>
        props.currentCharge == ChargeAfterRepair(props.maxCharge, threshold)
        && target.currentCondition == old(target.currentCondition)
    {
      if kind == ChargingPowder {
        props.currentCharge := RoundHalfEvenDiv(props.maxCharge * threshold, 100);
      } else {
        target.currentCondition := CsDiv(threshold * target.maxCondition, 100);
      }
    }

    /**
     * Picking entry `index` of the list. The verdict follows the gates in
     * order (broken item, skill ceiling reached, too tired, scraps short);
     * a refusal changes nothing. A repair takes the scraps, restores the item
     * (never below its old condition, never above its maximum), wears the
     * tool by one point and costs the player the fatigue the gate checked.
     * `props` is the picked item's charge record, `bonus` the host's
     * enchantment bonus multiplier for it; `timeDrainValue` is the game time
     * the repair takes.
     */
    method OnItemPicked(index: int, player: Player, props: ItemProperties, bonus: real, trig: Trig)
      returns (verdict: Verdict, toolBroke: bool, staminaDrainValue: int, timeDrainValue: real)
      requires 0 <= index < |validRepairItems|
      requires IsArcTangent(trig)
      requires kind == ChargingPowder ==> bonus > 0.0
      requires validRepairItems[index].maxCondition > 0
      requires validRepairItems[index] != item
      requires repairItemCollection != null
      modifies {validRepairItems[index]}`currentCondition, props`currentCharge, player`currentFatigue
      modifies player.items.items`stackCount, item`currentCondition, repairItemCollection`items
      ensures var target := validRepairItems[index];
        verdict == PickVerdict(old(target.currentCondition), old(ConditionPercentage(target)),
          MaxPercentageFor(player, target, trig), old(player.currentFatigue), staminaDrainValue,
          old(CanAfford(GetScrapsCosts(kind, target), player.items.items)))
      ensures var target := validRepairItems[index];
        old(target.currentCondition) > 0 && old(ConditionPercentage(target)) < MaxPercentageFor(player, target, trig) ==>
          staminaDrainValue == StaminaDrainValue(kind, player.stats, bonus,
            old(GetRepairPercentage(target, MaxPercentageFor(player, target, trig))), EfficiencyFor(player, target, trig))
          && staminaDrainValue >= 0
          && timeDrainValue == TimeDrainValue(kind, player.stats, bonus,
            old(GetRepairPercentage(target, MaxPercentageFor(player, target, trig))), EfficiencyFor(player, target, trig))
      ensures verdict != Repaired ==>
        && !toolBroke
        && validRepairItems[index].currentCondition == old(validRepairItems[index].currentCondition)
        && props.currentCharge == old(props.currentCharge)
        && player.currentFatigue == old(player.currentFatigue)
        && item.currentCondition == old(item.currentCondition)
        && repairItemCollection.items == old(repairItemCollection.items)
        && (forall x :: x in old(player.items.items) ==> x.stackCount == old(x.stackCount))
      ensures verdict == Repaired ==>
        var target := validRepairItems[index];
        var costs := GetScrapsCosts(kind, target);
        && (forall x :: x in old(player.items.items) ==>
              x.stackCount == old(x.stackCount) - Charged(costs, old(player.items.items), x))
        && (kind != ChargingPowder ==>
              old(target.currentCondition) <= target.currentCondition <= target.maxCondition
              && target.currentCondition == ConditionAfterRepair(target.maxCondition, MaxPercentageFor(player, target, trig))
              && props.currentCharge == old(props.currentCharge))
        && (kind == ChargingPowder ==>
              props.currentCharge == ChargeAfterRepair(props.maxCharge, MaxPercentageFor(player, target, trig))
              && target.currentCondition == old(target.currentCondition))
        && toolBroke == (old(item.currentCondition) == 1)
        && item.currentCondition == (if old(item.currentCondition) - 1 <= 0 then 0 else old(item.currentCondition) - 1)
        && repairItemCollection.items == (if old(item.currentCondition) - 1 <= 0
             then Without(old(repairItemCollection.items), item) else old(repairItemCollection.items))
        && player.currentFatigue == old(player.currentFatigue) - staminaDrainValue
        && 0 <= player.currentFatigue <= old(player.currentFatigue)
    {
      var target := validRepairItems[index];
      var maxPercentage;
      verdict, maxPercentage, staminaDrainValue, timeDrainValue := AssessPick(kind, target, player, bonus, trig);
      toolBroke := false;
      if verdict != Repaired {
        return;
      }
      var repaired;
      repaired, toolBroke := ConsumeAndRepair(target, GetScrapsCosts(kind, target), maxPercentage, props, player, staminaDrainValue);
      if !repaired {
        verdict := NotEnoughScraps;
      }
    }

    /**
     * The part of a pick after the gates passed: the scraps `costs` are taken all
     * or nothing; when they were there the repair to `threshold` percent follows,
     * which never lowers the item's condition. Short of scraps, nothing changes.
     */
    method ConsumeAndRepair(target: Item, costs: seq<ScrapsCost>, threshold: int, props: ItemProperties, player: Player, staminaDrainValue: int)
      returns (repaired: bool, toolBroke: bool)
      requires target != item && repairItemCollection != null
      requires target.maxCondition > 0 && target.currentCondition > 0
      requires ConditionPercentage(target) < threshold <= 100
      modifies target`currentCondition, props`currentCharge, player`currentFatigue
      modifies player.items.items`stackCount, item`currentCondition, repairItemCollection`items
      ensures repaired == old(CanAfford(costs, player.items.items))
      ensures !repaired ==>
        && !toolBroke
        && target.currentCondition == old(target.currentCondition)
        && props.currentCharge == old(props.currentCharge)
        && player.currentFatigue == old(player.currentFatigue)
        && item.currentCondition == old(item.currentCondition)
        && repairItemCollection.items == old(repairItemCollection.items)
        && (forall x :: x in old(player.items.items) ==> x.stackCount == old(x.stackCount))
      ensures repaired ==>
        && (forall x :: x in old(player.items.items) ==>
              x.stackCount == old(x.stackCount) - Charged(costs, old(player.items.items), x))
        && (kind != ChargingPowder ==>
              old(target.currentCondition) <= target.currentCondition <= target.maxCondition
              && target.currentCondition == ConditionAfterRepair(target.maxCondition, threshold)
              && props.currentCharge == old(props.currentCharge))
        && (kind == ChargingPowder ==>
              props.currentCharge == ChargeAfterRepair(props.maxCharge, threshold)
              && target.currentCondition == old(target.currentCondition))
        && toolBroke == (old(item.currentCondition) == 1)
        && item.currentCondition == (if old(item.currentCondition) - 1 <= 0 then 0 else old(item.currentCondition) - 1)
        && repairItemCollection.items == (if old(item.currentCondition) - 1 <= 0
             then Without(old(repairItemCollection.items), item) else old(repairItemCollection.items))
        && player.currentFatigue == old(player.currentFatigue) - staminaDrainValue
    {
      toolBroke := false;
      repaired := TryConsumeResources(costs, player.items);
      if !repaired {
        return;
      }
      RepairNeverLowersCondition(target.currentCondition, target.maxCondition, threshold);
      toolBroke := FinishRepair(target, threshold, props, player, staminaDrainValue);
    }

    /**
     * What follows once the scraps are taken: the repair, one point of wear
     * on the tool (which may break it), and the fatigue cost.
     */
    method FinishRepair(target: Item, threshold: int, props: ItemProperties, player: Player, staminaDrainValue: int)
      returns (toolBroke: bool)
      requires target != item && repairItemCollection != null
      modifies target`currentCondition, props`currentCharge, item`currentCondition, repairItemCollection`items
      modifies player`currentFatigue
      ensures kind != ChargingPowder ==>
        target.currentCondition == ConditionAfterRepair(target.maxCondition, threshold)
        && props.currentCharge == old(props.currentCharge)
      ensures kind == ChargingPowder ==>
        props.currentCharge == ChargeAfterRepair(props.maxCharge, threshold)
        && target.currentCondition == old(target.currentCondition)
      ensures toolBroke == (old(item.currentCondition) == 1)
      ensures item.currentCondition == (if old(item.currentCondition) - 1 <= 0 then 0 else old(item.currentCondition) - 1)
      ensures repairItemCollection.items == (if old(item.currentCondition) - 1 <= 0
        then Without(old(repairItemCollection.items), item) else old(repairItemCollection.items))
      ensures player.currentFatigue == old(player.currentFatigue) - staminaDrainValue
    {
      DoRepair(target, threshold, props);
      toolBroke := item.currentCondition == 1;
      LowerConditionWorkaround(1);
      player.currentFatigue := player.currentFatigue - staminaDrainValue;
    }
  }
}
