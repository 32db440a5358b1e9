/**
 * The mod's testing commands for the in-game console: damage or repair every
 * item in the player's inventory, clear the inventory, and refill the charge
 * of every tracked magic item.
 *
 * `Mathf.Ceil` of a float product is modelled as the exact ceiling of the
 * rational value. The host's `LowerCondition` subtracts and clamps at 0.
 */
module RepairToolsConsoleCommands {

  import opened Inventory
  import opened ItemsRepairTools

  /** The template indices of the six tools, which `damage_equip` leaves alone. */
  const ToolTemplateIndices: seq<int> := [
    Whetstone.TemplateIndex(), SewingKit.TemplateIndex(), ArmorersHammer.TemplateIndex(),
    JewelersPliers.TemplateIndex(), EpoxyGlue.TemplateIndex(), ChargingPowder.TemplateIndex()]

  /** The table holds six distinct indices, and an index is in it exactly when it names a tool. */
  lemma ToolTemplateIndicesAreTheTools(t: int)
    ensures |ToolTemplateIndices| == 6 && Distinct(ToolTemplateIndices)
    ensures t in ToolTemplateIndices <==> KindOfTemplate(t).Some?
  {
    if KindOfTemplate(t).Some? {
      var k := KindOfTemplate(t).value;
      assert k.TemplateIndex() == t;
      assert k.TemplateIndex() in ToolTemplateIndices by {
        match k
        case Whetstone => assert ToolTemplateIndices[0] == t;
        case SewingKit => assert ToolTemplateIndices[1] == t;
        case ArmorersHammer => assert ToolTemplateIndices[2] == t;
        case JewelersPliers => assert ToolTemplateIndices[3] == t;
        case EpoxyGlue => assert ToolTemplateIndices[4] == t;
        case ChargingPowder => assert ToolTemplateIndices[5] == t;
      }
    }
  }

  /** `(int)Mathf.Ceil(a / b)` for an exact quotient: the least integer at or above it. */
  function CeilDiv(a: int, b: int): (r: int)
    requires b > 0
    ensures b * (r - 1) < a <= b * r
  {
    -((-a) / b)
  }

  /** Ten percent of `maxCondition`, rounded up: what `damage_equip` takes off each item. */
  function DamageAmount(maxCondition: int): (r: int)
    ensures 10 * (r - 1) < maxCondition <= 10 * r
  {
    CeilDiv(maxCondition, 10)
  }

  /** The host's `LowerCondition`: subtract, and stop at 0 (the item breaks there). */
  function LoweredCondition(condition: int, amount: int): (r: int)
    ensures r >= 0
    ensures r > 0 <==> condition - amount > 0
    ensures r > 0 ==> r == condition - amount
  {
    if condition - amount <= 0 then 0 else condition - amount
  }

  /** An item's condition after `damage_equip`: tools are skipped, everything else loses ten percent. */
  function DamagedCondition(templateIndex: int, condition: int, maxCondition: int): (r: int)
    ensures templateIndex in ToolTemplateIndices ==> r == condition
    ensures templateIndex !in ToolTemplateIndices ==> r == LoweredCondition(condition, DamageAmount(maxCondition))
    ensures templateIndex !in ToolTemplateIndices && maxCondition > 0 && condition > 0 ==> 0 <= r < condition
  {
    if templateIndex in ToolTemplateIndices then condition
    else LoweredCondition(condition, DamageAmount(maxCondition))
  }

  /** `damage_equip`: walks the inventory and lowers the condition of every item that is not a tool. */
  method DamageEquipment(inventory: ItemCollection)
    requires Distinct(inventory.items)
    modifies inventory.items`currentCondition
    ensures forall j :: 0 <= j < |inventory.items| ==>
      inventory.items[j].currentCondition
        == DamagedCondition(inventory.items[j].templateIndex, old(inventory.items[j].currentCondition),
                            inventory.items[j].maxCondition)
  {
    var items := inventory.items;
    for i := 0 to |items|
      invariant forall j :: 0 <= j < i ==>
        items[j].currentCondition
          == DamagedCondition(items[j].templateIndex, old(items[j].currentCondition), items[j].maxCondition)
      invariant forall j :: i <= j < |items| ==> items[j].currentCondition == old(items[j].currentCondition)
    {
      var item := items[i];
      if item.templateIndex in ToolTemplateIndices {
        continue;
      }
      var percentReduce := CeilDiv(item.maxCondition, 10);
      item.currentCondition := LoweredCondition(item.currentCondition, percentReduce);
    }
  }

  /**
   * The repair amount as the command computes it: `ceil(max * ceil(max / 10) / 100)`.
   * It scales with the square of `maxCondition` rather than being a tenth of it.
   */
  function RepairAmountAsWritten(maxCondition: int): (r: int)
    ensures 100 * (r - 1) < maxCondition * DamageAmount(maxCondition) <= 100 * r
  {
    CeilDiv(maxCondition * DamageAmount(maxCondition), 100)
  }

  /** With a maximum of 200 the command adds 40 points, twenty percent, where its description promises ten. */
  lemma RepairAmountAsWrittenIsNotTenPercent()
    ensures RepairAmountAsWritten(200) == 40
    ensures RepairAmount(200) == 20
  {
  }

  /** Ten percent of `maxCondition`, rounded up: the repair the command's description promises. */
  function RepairAmount(maxCondition: int): (r: int)
    ensures 10 * (r - 1) < maxCondition <= 10 * r
  {
    DamageAmount(maxCondition)
  }

  /**
   * An item's condition after `repair_equip` as written: raised by the
   * command's amount `RepairAmountAsWritten`, but never past its maximum.
   */
  function RepairedCondition(condition: int, maxCondition: int): (r: int)
    ensures 0 <= maxCondition && condition <= maxCondition ==> condition <= r <= maxCondition
    ensures 0 < maxCondition && condition < maxCondition ==> condition < r
    ensures r == maxCondition || r == condition + RepairAmountAsWritten(maxCondition)
  {
    if condition + RepairAmountAsWritten(maxCondition) < maxCondition then condition + RepairAmountAsWritten(maxCondition)
    else maxCondition
  }

  /**
   * `repair_equip`: walks the inventory and raises every item's condition by
   * the command's amount as written (not the ten percent it promises), up to
   * its maximum.
   */
  method RepairEquipment(inventory: ItemCollection)
    requires Distinct(inventory.items)
    modifies inventory.items`currentCondition
    ensures forall j :: 0 <= j < |inventory.items| ==>
      inventory.items[j].currentCondition
        == RepairedCondition(old(inventory.items[j].currentCondition), inventory.items[j].maxCondition)
  {
    var items := inventory.items;
    for i := 0 to |items|
      invariant forall j :: 0 <= j < i ==>
        items[j].currentCondition == RepairedCondition(old(items[j].currentCondition), items[j].maxCondition)
      invariant forall j :: i <= j < |items| ==> items[j].currentCondition == old(items[j].currentCondition)
    {
      var item := items[i];
      var repairAmount := RepairAmountAsWritten(item.maxCondition);
      item.currentCondition := if item.currentCondition + repairAmount < item.maxCondition
        then item.currentCondition + repairAmount else item.maxCondition;
    }
  }

  /** The elements at odd positions (1, 3, 5, ...) of `s`, in order. */
  function OddPositions<T>(s: seq<T>): (r: seq<T>)
    ensures 2 * |r| <= |s| <= 2 * |r| + 1
  {
    if |s| < 2 then [] else [s[1]] + OddPositions(s[2..])
  }

  /** The `k`-th kept element is the original element at position `2 * k + 1`. */
  lemma {:induction false} OddPositionsAt<T>(s: seq<T>, k: int)
    requires 0 <= k && 2 * k + 1 < |s|
    ensures OddPositions(s)[k] == s[2 * k + 1]
  {
    if k > 0 {
      OddPositionsAt(s[2..], k - 1);
    }
  }

  /** Cutting `s` after an odd-length prefix keeps the same odd positions as the even prefix before it. */
  lemma {:induction false} OddPositionsPrefix<T>(s: seq<T>, n: int)
    requires 0 <= n && 2 * n + 1 <= |s|
    ensures OddPositions(s[..2 * n + 1]) == OddPositions(s[..2 * n])
    ensures 2 * n + 2 <= |s| ==> OddPositions(s[..2 * n + 2]) == OddPositions(s[..2 * n]) + [s[2 * n + 1]]
  {
    if n == 0 {
      if 2 <= |s| {
        assert s[..2][2..] == [];
      }
    } else {
      OddPositionsPrefix(s[2..], n - 1);
      assert s[..2 * n + 1][2..] == s[2..][..2 * (n - 1) + 1];
      assert s[..2 * n][2..] == s[2..][..2 * (n - 1)];
      if 2 * n + 2 <= |s| {
        assert s[..2 * n + 2][2..] == s[2..][..2 * (n - 1) + 2];
        assert s[..2 * n + 2][1] == s[1];
      }
      assert s[..2 * n + 1][1] == s[1] && s[..2 * n][1] == s[1];
    }
  }

  /**
   * `clear_inventory` as written: it removes the item at position `i` and
   * then moves on to `i + 1`, so the item that slid into position `i` is
   * skipped. Only the items at odd original positions remain.
   */
  method ClearInventoryAsWritten(inventory: ItemCollection)
    requires Distinct(inventory.items)
    modifies inventory`items
    ensures inventory.items == OddPositions(old(inventory.items))
  {
    ghost var original := inventory.items;
    assert original[..0] == [] && original[0..] == original;
    var i := 0;
    while i < inventory.Count()
      invariant 0 <= i && 2 * i <= |original| + 1
      invariant inventory.items == Remaining(original, i)
      invariant Distinct(inventory.items)
      decreases |original| - 2 * i
    {
      var item := inventory.GetItem(i);
      ClearRound(original, i);
      inventory.RemoveItem(item);
      i := i + 1;
    }
    ClearDone(original, i);
  }

  /** One round of the loop on the sequence alone: removing the item at `i` leaves `Remaining(original, i + 1)`. */
  lemma ClearRound<T>(original: seq<T>, i: int)
    requires 0 <= i && 2 * i <= |original| + 1 && i < |Remaining(original, i)|
    requires Distinct(Remaining(original, i))
    ensures 2 * (i + 1) <= |original| + 1
    ensures Without(Remaining(original, i), Remaining(original, i)[i]) == Remaining(original, i + 1)
    ensures Distinct(Remaining(original, i + 1))
  {
    var cur := Remaining(original, i);
    ClearStep(original, i);
    WithoutAt(cur, i);
    DistinctSkip(cur, i);
  }

  /** When the loop stops, what is left is exactly the odd positions. */
  lemma ClearDone<T>(original: seq<T>, i: int)
    requires 0 <= i && 2 * i <= |original| + 1 && i >= |Remaining(original, i)|
    ensures Remaining(original, i) == OddPositions(original)
  {
    if 2 * i <= |original| {
      assert original[..2 * i] == original;
      assert original[2 * i..] == [];
    }
  }

  /**
   * What is left after `i` rounds of the loop above: the odd positions of
   * the first `2 * i` items, then the untouched tail.
   */
  ghost function Remaining<T>(original: seq<T>, i: int): (r: seq<T>)
    requires 0 <= i && 2 * i <= |original| + 1
    ensures 2 * i <= |original| ==> |r| == |original| - i
    ensures 2 * i > |original| ==> |r| == i - 1
  {
    if 2 * i <= |original| then OddPositions(original[..2 * i]) + original[2 * i..]
    else OddPositions(original)
  }

  /** Cutting a concatenation at the end of its first part, or one past it. */
  lemma ConcatSplit<T>(a: seq<T>, b: seq<T>)
    requires |b| > 0
    ensures (a + b)[..|a|] == a && (a + b)[|a|] == b[0] && (a + b)[|a| + 1..] == b[1..]
  {
  }

  /** One round removes the item at position `i`, which is the original item at `2 * i`. */
  lemma ClearStep<T>(original: seq<T>, i: int)
    requires 0 <= i && 2 * i < |original|
    ensures |Remaining(original, i)| > i
    ensures Remaining(original, i)[i] == original[2 * i]
    ensures Remaining(original, i)[..i] + Remaining(original, i)[i + 1..] == Remaining(original, i + 1)
  {
    var prefix := OddPositions(original[..2 * i]);
    var tail := original[2 * i..];
    assert Remaining(original, i) == prefix + tail;
    ConcatSplit(prefix, tail);
    RemainingNext(original, i);
  }

  /** After round `i`, the odd positions seen so far are followed by the items from `2 * i + 1` on. */
  lemma RemainingNext<T>(original: seq<T>, i: int)
    requires 0 <= i && 2 * i < |original|
    ensures OddPositions(original[..2 * i]) + original[2 * i..][1..] == Remaining(original, i + 1)
  {
    var prefix := OddPositions(original[..2 * i]);
    assert original[2 * i..][1..] == original[2 * i + 1..];
    OddPositionsPrefix(original, i);
    if 2 * i + 2 <= |original| {
      assert original[2 * i + 1..] == [original[2 * i + 1]] + original[2 * i + 2..];
      assert prefix + ([original[2 * i + 1]] + original[2 * i + 2..])
          == (prefix + [original[2 * i + 1]]) + original[2 * i + 2..];
    } else {
      assert original[..2 * i + 1] == original;
      assert original[2 * i + 1..] == [];
    }
  }

  /** Taking one element out of a sequence without repeats leaves one without repeats. */
  lemma DistinctSkip<T>(s: seq<T>, i: int)
    requires Distinct(s) && 0 <= i < |s|
    ensures Distinct(s[..i] + s[i + 1..])
  {
    var t := s[..i] + s[i + 1..];
    forall a, b | 0 <= a < b < |t| ensures t[a] != t[b] {
      var a' := if a < i then a else a + 1;
      var b' := if b < i then b else b + 1;
      assert t[a] == s[a'] && t[b] == s[b'];
    }
  }

  /** Any inventory of two or more items is not emptied by `clear_inventory` as written. */
  lemma ClearInventoryAsWrittenLeavesItems<T>(s: seq<T>)
    requires |s| >= 2
    ensures OddPositions(s) != [] && OddPositions(s)[0] == s[1]
  {
  }

  /**
   * `clear_inventory` as its description promises: the same removal walked
   * from the last position down, so no item slides past the index.
   */
  method ClearInventory(inventory: ItemCollection)
    requires Distinct(inventory.items)
    modifies inventory`items
    ensures inventory.items == []
  {
    var i := inventory.Count() - 1;
    while i >= 0
      invariant -1 <= i < |inventory.items| && i + 1 == |inventory.items|
      invariant inventory.items == old(inventory.items)[..i + 1]
      invariant Distinct(inventory.items)
      decreases i
    {
      var item := inventory.GetItem(i);
      WithoutAt(inventory.items, i);
      DistinctSkip(inventory.items, i);
      inventory.RemoveItem(item);
      assert old(inventory.items)[..i + 1][..i] == old(inventory.items)[..i];
      i := i - 1;
    }
  }

  /**
   * `recharge_items`: every charge record the mod tracks (the values of its
   * item-properties dictionary, in enumeration order) is filled back to its
   * maximum; maxima are left alone.
   */
  method RechargeAllItems(records: seq<ItemProperties>)
    modifies records`currentCharge
    ensures forall k :: 0 <= k < |records| ==> records[k].currentCharge == records[k].maxCharge
    ensures forall k :: 0 <= k < |records| ==> records[k].maxCharge == old(records[k].maxCharge)
  {
    for i := 0 to |records|
      invariant forall k :: 0 <= k < i ==> records[k].currentCharge == records[k].maxCharge
    {
      records[i].currentCharge := records[i].maxCharge;
    }
  }
}
