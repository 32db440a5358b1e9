/**
 * The six repair tools: what each may repair, what a repair costs in scraps,
 * how much fatigue and time it takes, and what "repaired" means for it.
 * Each tool is one constructor of `ToolKind`; the per-tool overrides become
 * functions that match on it.
 */
module ItemsRepairTools {

  import opened Wrappers
  import opened Inventory
  import opened Scraps
  import opened RepairTools

  datatype ToolKind = Whetstone | SewingKit | ArmorersHammer | JewelersPliers | EpoxyGlue | ChargingPowder {

    /** The tool's template index (`GetItemID`): 800 to 805 in declaration order. */
    function TemplateIndex(): (t: int)
      ensures 800 <= t <= 805
      ensures KindOfTemplate(t) == Some(this)
    {
      match this
      case Whetstone => 800
      case SewingKit => 801
      case ArmorersHammer => 802
      case JewelersPliers => 803
      case EpoxyGlue => 804
      case ChargingPowder => 805
    }
  }

  /** The inverse of `TemplateIndex`: which tool, if any, the host registers under `t`. */
  function KindOfTemplate(t: int): (r: Option<ToolKind>)
    ensures r.Some? <==> 800 <= t <= 805
  {
    if t == 800 then Some(Whetstone)
    else if t == 801 then Some(SewingKit)
    else if t == 802 then Some(ArmorersHammer)
    else if t == 803 then Some(JewelersPliers)
    else if t == 804 then Some(EpoxyGlue)
    else if t == 805 then Some(ChargingPowder)
    else None
  }

  /** Whether `item` is something this tool can work on. */
  predicate IsValidForRepair(kind: ToolKind, item: Item) {
    match kind
    case Whetstone =>
      item.weaponSkill == ShortBlade || item.weaponSkill == LongBlade || item.weaponSkill == Axe
    case SewingKit =>
      (item.itemGroup == Armor
        && item.nativeMaterialValue >= LeatherMaterial
        && item.nativeMaterialValue <= DaedricMaterial - 0x200)
      || item.itemGroup == MensClothing
      || item.itemGroup == WomensClothing
      || item.templateIndex == 530
    case ArmorersHammer =>
      item.itemGroup == Armor && item.nativeMaterialValue >= IronMaterial
    case JewelersPliers =>
      item.itemGroup == Armor && item.nativeMaterialValue >= ChainMaterial
      && item.nativeMaterialValue <= DaedricMaterial - 0x100
    case EpoxyGlue =>
      item.weaponSkill == BluntWeapon || item.weaponSkill == Archery
    case ChargingPowder =>
      item.isEnchanted
  }

  /**
   * The three armour tools split armour by material band: leather (up to
   * 0x009) takes the sewing kit, chain (0x100 to 0x109) the pliers, plate
   * (from 0x200) the hammer. Apart from the one template the sewing kit
   * accepts outright, no armour piece is valid for two of them.
   */
  lemma ArmorToolsDisjoint(item: Item)
    requires item.itemGroup == Armor && item.templateIndex != 530
    ensures !(IsValidForRepair(SewingKit, item) && IsValidForRepair(JewelersPliers, item))
    ensures !(IsValidForRepair(SewingKit, item) && IsValidForRepair(ArmorersHammer, item))
    ensures !(IsValidForRepair(JewelersPliers, item) && IsValidForRepair(ArmorersHammer, item))
  {
  }

  /**
   * Armour a material-band tool accepts has a skill target inside the range
   * the condition curve is drawn for: 10 to 100 for leather and chain, and at
   * least 10 for plate. (The sewing kit also takes one template outright,
   * whatever its material.)
   */
  lemma ArmorTargetInBand(kind: ToolKind, item: Item)
    requires item.itemGroup == Armor && item.templateIndex != 530
    requires kind == SewingKit || kind == JewelersPliers || kind == ArmorersHammer
    requires IsValidForRepair(kind, item)
    ensures kind != ArmorersHammer ==> 10 <= SkillTarget(item.itemGroup, item.nativeMaterialValue) <= 100
    ensures 10 <= SkillTarget(item.itemGroup, item.nativeMaterialValue)
  {
  }

  /** The blade tool and the glue never compete for the same weapon. */
  lemma WeaponToolsDisjoint(item: Item)
    ensures !(IsValidForRepair(Whetstone, item) && IsValidForRepair(EpoxyGlue, item))
  {
  }

  /** The scraps one repair of `item` consumes, in the order they are checked and taken. */
  function GetScrapsCosts(kind: ToolKind, item: Item): seq<ScrapsCost>
  {
    match kind
    case Whetstone =>
      if item.weaponSkill == Axe then [ScrapsCost(Metal, 1), ScrapsCost(Wood, 1)]
      else [ScrapsCost(Metal, 2)]
    case SewingKit => [ScrapsCost(Cloth, 2)]
    case ArmorersHammer => [ScrapsCost(Metal, 2)]
    case JewelersPliers => [ScrapsCost(Metal, 2)]
    case EpoxyGlue =>
      if item.weaponSkill == Archery then [ScrapsCost(Wood, 1), ScrapsCost(Cloth, 1)]
      else [ScrapsCost(Wood, 2)]
    case ChargingPowder => [ScrapsCost(Soul, 2)]
  }

  /**
   * Every tool's cost schedule has one or two entries with positive counts
   * and no kind twice; soul scraps are the powder's and only the powder's;
   * only the whetstone on axes and the glue on bows take two kinds, one of
   * each, and every single-kind cost is two scraps.
   */
  lemma GetScrapsCostsSchedule(kind: ToolKind, item: Item)
    ensures var costs := GetScrapsCosts(kind, item);
      && WellFormedCosts(costs)
      && (forall i :: 0 <= i < |costs| ==> (costs[i].scrapsType == Soul <==> kind == ChargingPowder))
      && (|costs| == 1 ==> costs[0].count == 2)
      && (|costs| == 2 ==> costs[0].count == 1 && costs[1].count == 1)
      && (|costs| == 2 <==> (kind == Whetstone && item.weaponSkill == Axe) || (kind == EpoxyGlue && item.weaponSkill == Archery))
  {
  }

  /** `Mathf.Max` on floats. */
  function MaxReal(a: real, b: real): (r: real)
    ensures r >= a && r >= b && (r == a || r == b)
  {
    if a >= b then a else b
  }

  /**
   * The fatigue points a full repair costs before scaling by the share of
   * condition restored. `bonus` is the host's enchantment bonus multiplier
   * for the item, which only the charging powder divides by.
   */
  function GetStaminaDrain(kind: ToolKind, stats: Stats, bonus: real): (r: real)
    requires kind == ChargingPowder ==> bonus > 0.0
    ensures (kind == Whetstone || kind == ArmorersHammer) ==> r >= 25.0
    ensures (kind == Whetstone || kind == ArmorersHammer) && NonNegative(stats) ==> r <= 75.0
    ensures (kind == SewingKit || kind == JewelersPliers || kind == EpoxyGlue) ==> r >= 10.0
    ensures (kind == SewingKit || kind == JewelersPliers || kind == EpoxyGlue) && NonNegative(stats) ==> r <= 40.0
    ensures kind == ChargingPowder ==> r * bonus >= 10.0
    ensures kind == ChargingPowder && NonNegative(stats) ==> r * bonus <= 40.0
    ensures r > 0.0
  {
    match kind
    case Whetstone => MaxReal(75.0 - stats.strength as real / 2.0, 25.0)
    case SewingKit => MaxReal(40.0 - stats.agility as real * 0.3, 10.0)
    case ArmorersHammer =>
      MaxReal(75.0 - stats.strength as real / 4.0 - stats.agility as real / 4.0, 25.0)
    case JewelersPliers => MaxReal(40.0 - stats.agility as real * 0.3, 10.0)
    case EpoxyGlue => MaxReal(40.0 - stats.agility as real * 0.3, 10.0)
    case ChargingPowder =>
      var full := MaxReal(40.0 - stats.intelligence as real * 0.3, 10.0);
      PositiveQuotient(full, bonus);
      full / bonus
  }

  /** The in-game seconds a full repair takes before the powder's bonus division. */
  function TimeDrainBase(kind: ToolKind, stats: Stats): (r: real)
    ensures r >= 1200.0
    ensures NonNegative(stats) ==> r <= 3600.0
  {
    var s := stats.strength as real;
    var e := stats.endurance as real;
    var sp := stats.speed as real;
    var ag := stats.agility as real;
    match kind
    case Whetstone => MaxReal(3600.0 - e * 6.0 - sp * 6.0 - s * 3.0, 1200.0)
    case SewingKit => MaxReal(3600.0 - ag * 9.0 - sp * 6.0, 1200.0)
    case ArmorersHammer => MaxReal(3600.0 - e * 6.0 - sp * 3.0 - s * 6.0, 1200.0)
    case JewelersPliers => MaxReal(3600.0 - ag * 9.0 - sp * 6.0, 1200.0)
    case EpoxyGlue => MaxReal(3600.0 - ag * 9.0 - sp * 6.0, 1200.0)
    case ChargingPowder =>
      MaxReal(3600.0 - stats.intelligence as real * 6.0 - stats.willpower as real * 6.0 - sp * 3.0, 1200.0)
  }

  /** The in-game seconds a full repair takes, scaled like `GetStaminaDrain`. */
  function GetTimeDrain(kind: ToolKind, stats: Stats, bonus: real): (r: real)
    requires kind == ChargingPowder ==> bonus > 0.0
    ensures kind != ChargingPowder ==> r >= 1200.0
    ensures kind != ChargingPowder && NonNegative(stats) ==> r <= 3600.0
    ensures kind == ChargingPowder ==> r * bonus >= 1200.0
    ensures kind == ChargingPowder && NonNegative(stats) ==> r * bonus <= 3600.0
    ensures r > 0.0
  {
    var base := TimeDrainBase(kind, stats);
    if kind == ChargingPowder then PositiveQuotient(base, bonus); base / bonus
    else base
  }

  /** A positive quantity divided by a positive one stays positive. */
  lemma PositiveQuotient(a: real, b: real)
    requires a > 0.0 && b > 0.0
    ensures a / b > 0.0
  {
    assert (a / b) * b == a;
  }

  /** A positive drain scaled by a non-negative share and divided by a positive efficiency is not negative. */
  lemma ScaledDrainNonNegative(drain: real, share: real, efficiency: real)
    requires drain > 0.0 && efficiency > 0.0
    ensures share >= 0.0 ==> drain * share / efficiency >= 0.0
  {
    if share >= 0.0 {
      assert drain * share >= 0.0;
      assert (drain * share / efficiency) * efficiency == drain * share;
    }
  }

  /** `c * m <= c * n` for `0 <= c` and `m <= n`. */
  lemma MulMonotone(c: int, m: int, n: int)
    requires 0 <= c && m <= n
    ensures c * m <= c * n
  {
    assert c * n - c * m == c * (n - m);
  }

  /**
   * The condition tools' repair: the item's condition becomes `threshold`
   * percent of its maximum, truncated. For a threshold between 0 and 100 the
   * result lies between 0 and the maximum.
   */
  function ConditionAfterRepair(maxCondition: int, threshold: int): (r: int)
    ensures 0 <= threshold <= 100 && 0 <= maxCondition ==> 0 <= r <= maxCondition
  {
    var r := CsDiv(threshold * maxCondition, 100);
    assert 0 <= threshold <= 100 && 0 <= maxCondition ==> 0 <= r <= maxCondition by {
      if 0 <= threshold <= 100 && 0 <= maxCondition {
        MulMonotone(maxCondition, threshold, 100);
      }
    }
    r
  }

  /**
   * An integer condition percentage below `threshold` means the exact
   * proportion is below it too.
   */
  lemma PercentBelowThreshold(currentCondition: int, maxCondition: int, threshold: int)
    requires 0 < currentCondition && 0 < maxCondition
    requires CsDiv(100 * currentCondition, maxCondition) < threshold
    ensures 100 * currentCondition < threshold * maxCondition
  {
    var p := (100 * currentCondition) / maxCondition;
    assert 100 * currentCondition < (p + 1) * maxCondition;
    MulMonotone(maxCondition, p + 1, threshold);
  }

  /**
   * An item that passed the "not damaged enough" gate (its condition
   * percentage is below the threshold) is never left worse off by
   * `ConditionAfterRepair`.
   */
  lemma RepairNeverLowersCondition(currentCondition: int, maxCondition: int, threshold: int)
    requires 0 < currentCondition && 0 < maxCondition
    requires CsDiv(100 * currentCondition, maxCondition) < threshold
    ensures ConditionAfterRepair(maxCondition, threshold) >= currentCondition
  {
    PercentBelowThreshold(currentCondition, maxCondition, threshold);
    assert (threshold * maxCondition) / 100 >= currentCondition;
  }

  /**
   * The charging powder's repair: the charge becomes `threshold` percent of
   * the maximum charge, rounded half to even. For a threshold between 0 and
   * 100 the result lies between 0 and the maximum.
   */
  function ChargeAfterRepair(maxCharge: int, threshold: int): (r: int)
    ensures 0 <= threshold <= 100 && 0 <= maxCharge ==> 0 <= r <= maxCharge
  {
    var r := RoundHalfEvenDiv(maxCharge * threshold, 100);
    assert 0 <= threshold <= 100 && 0 <= maxCharge ==> 0 <= r <= maxCharge by {
      if 0 <= threshold <= 100 && 0 <= maxCharge {
        MulMonotone(maxCharge, threshold, 100);
      }
    }
    r
  }
}
