/**
 * The "cast when used" enchantment with charges: using the item readies its
 * spell and costs a fixed ten points of charge, paid before the spell is
 * looked up. An item without enough charge left does nothing.
 *
 * The engine's answers (effect manager present, spell record found, bundle
 * settings built) arrive as a `UsedHost` value.
 */
module RepairToolsCastWhenUsed {

  import opened Wrappers
  import opened Inventory

  /** The charge one use costs. */
  const ChargeLossOnUse: int := 10

  /** What the engine reports during one callback. */
  datatype UsedHost = UsedHost(hasEffectManager: bool, spellFound: bool, bundleSettingsCreated: bool)

  /** How one use ended: ignored, refused for lack of charge, or paid for (and whether a spell got readied). */
  datatype UsedOutcome = Ignored | RanOut | Spent(spellReadied: bool)

  /**
   * How `EnchantmentPayloadCallback` ends. The charge test is skipped when
   * there is no source item; a custom parameter or a failed lookup still
   * leaves the charge paid.
   */
  function UsedOutcomeFor(context: PayloadFlags, param: Option<EnchantmentParam>, hasSourceEntity: bool,
                          hasSourceItem: bool, charge: int, host: UsedHost): (r: UsedOutcome)
    ensures r == Ignored <==> context != Used || !hasSourceEntity || param.None? || !host.hasEffectManager
    ensures r == RanOut <==> r != Ignored && hasSourceItem && charge < ChargeLossOnUse
    ensures r.Spent? && r.spellReadied <==>
      (r.Spent? && !HasCustomParam(param.value) && host.spellFound && host.bundleSettingsCreated)
  {
    if context != Used || !hasSourceEntity || param.None? then Ignored
    else if !host.hasEffectManager then Ignored
    else if hasSourceItem && charge < ChargeLossOnUse then RanOut
    else Spent(!HasCustomParam(param.value) && host.spellFound && host.bundleSettingsCreated)
  }

  /** The item's charge after the callback: ten points less exactly when the use was paid for. */
  function ChargeAfterUse(context: PayloadFlags, param: Option<EnchantmentParam>, hasSourceEntity: bool,
                          hasSourceItem: bool, charge: int, host: UsedHost): (r: int)
    ensures r == charge || r == charge - ChargeLossOnUse
    ensures r != charge <==> UsedOutcomeFor(context, param, hasSourceEntity, hasSourceItem, charge, host).Spent?
    ensures hasSourceItem && charge >= 0 ==> r >= 0
  {
    if UsedOutcomeFor(context, param, hasSourceEntity, hasSourceItem, charge, host).Spent? then charge - ChargeLossOnUse
    else charge
  }

  /**
   * `EnchantmentPayloadCallback` for a used item; `props` is the charge
   * record the mod hands back for `sourceItem`.
   */
  method EnchantmentPayloadCallback(context: PayloadFlags, param: Option<EnchantmentParam>, hasSourceEntity: bool,
                                    sourceItem: Item?, props: ItemProperties, host: UsedHost)
    returns (outcome: UsedOutcome)
    modifies props`currentCharge
    ensures outcome == UsedOutcomeFor(context, param, hasSourceEntity, sourceItem != null, old(props.currentCharge), host)
    ensures props.currentCharge
      == ChargeAfterUse(context, param, hasSourceEntity, sourceItem != null, old(props.currentCharge), host)
  {
    if context != Used || !hasSourceEntity || param.None? {
      return Ignored;
    }
    if !host.hasEffectManager {
      return Ignored;
    }
    if sourceItem != null && props.currentCharge < ChargeLossOnUse {
      return RanOut;
    }
    props.currentCharge := props.currentCharge - ChargeLossOnUse;
    var readied := false;
    if !HasCustomParam(param.value) {
      if host.spellFound {
        if host.bundleSettingsCreated {
          readied := true;
        }
      }
    }
    outcome := Spent(readied);
  }

  /**
   * The charge paid does not depend on the spell lookup: two engines that
   * differ only in whether the spell record and its bundle settings exist
   * leave the same charge.
   */
  lemma ChargeIndependentOfLookup(context: PayloadFlags, param: Option<EnchantmentParam>, hasSourceEntity: bool,
                                  hasSourceItem: bool, charge: int, h1: UsedHost, h2: UsedHost)
    requires h1.hasEffectManager == h2.hasEffectManager
    ensures ChargeAfterUse(context, param, hasSourceEntity, hasSourceItem, charge, h1)
         == ChargeAfterUse(context, param, hasSourceEntity, hasSourceItem, charge, h2)
  {
  }

  /**
   * The charge left after `uses` successive uses of a present item: each
   * paid use takes ten points, and once fewer than ten are left nothing
   * more is taken.
   */
  function ChargeAfterUses(charge: int, uses: nat): int
    decreases uses
  {
    if uses == 0 then charge
    else ChargeAfterUses(ChargeAfterUse(Used, Some(EnchantmentParam(0, "")), true, true, charge, UsedHost(true, true, true)), uses - 1)
  }

  /** Successive uses drain a charge `c >= 0` to `c % 10` at the lowest, ten points per use. */
  lemma {:induction false} ChargeAfterUsesValue(charge: int, uses: nat)
    requires charge >= 0
    ensures ChargeAfterUses(charge, uses) == if uses <= charge / ChargeLossOnUse then charge - ChargeLossOnUse * uses
                                             else charge % ChargeLossOnUse
    decreases uses
  {
    if uses > 0 {
      var next := ChargeAfterUse(Used, Some(EnchantmentParam(0, "")), true, true, charge, UsedHost(true, true, true));
      if charge < ChargeLossOnUse {
        assert next == charge;
        ChargeAfterUsesValue(next, uses - 1);
      } else {
        assert next == charge - ChargeLossOnUse;
        ChargeAfterUsesValue(next, uses - 1);
        assert next / ChargeLossOnUse == charge / ChargeLossOnUse - 1;
        assert next % ChargeLossOnUse == charge % ChargeLossOnUse;
      }
    }
  }
}
