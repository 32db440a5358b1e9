/**
 * The "cast when held" enchantment with charges: equipping the item casts
 * its spell bundle and costs the spell's casting cost in charge, every few
 * magic rounds the held item loses one charge point, and the engine's
 * reroll recasts the bundle for free as long as some charge is left.
 *
 * The engine's answers (effect manager present, travelling, resting, the
 * magic-round counter, the spell record lookup, the casting cost, the
 * bundle-settings conversion) arrive as a `HeldHost` value.
 */
module RepairToolsCastWhenHeld {

  import opened Wrappers
  import opened Inventory

  /** Magic rounds between two charge losses while awake, and while resting. */
  const NormalMagicItemDegradeRate: int := 4
  const RestingMagicItemDegradeRate: int := 60

  /** What the engine reports during one callback. */
  datatype HeldHost = HeldHost(
    hasEffectManager: bool,
    traveling: bool,
    resting: bool,
    magicRoundsSinceStartup: int,
    spellFound: bool,
    castingCost: int,
    bundleSettingsCreated: bool)

  /**
   * Whether this magic round costs a held item a charge point: never while
   * travelling, otherwise on every round counter that is a multiple of the
   * degrade rate. A zero test gives the same answer under C#'s truncating `%`
   * and Dafny's Euclidean one.
   */
  predicate ChargeLossDue(host: HeldHost) {
    var rate := if host.resting then RestingMagicItemDegradeRate else NormalMagicItemDegradeRate;
    !host.traveling && host.magicRoundsSinceStartup % rate == 0
  }

  /** The charge after `ApplyChargeLoss`: one point less when a loss is due and charge is left. */
  function ChargeAfterLoss(charge: int, host: HeldHost): (r: int)
    ensures r == charge || r == charge - 1
    ensures r < charge <==> ChargeLossDue(host) && charge > 0
    ensures charge >= 0 ==> r >= 0
  {
    if ChargeLossDue(host) && charge > 0 then charge - 1 else charge
  }

  /** `ApplyChargeLoss` on the item's charge record. */
  method ApplyChargeLoss(props: ItemProperties, host: HeldHost)
    modifies props`currentCharge
    ensures props.currentCharge == ChargeAfterLoss(old(props.currentCharge), host)
  {
    if host.traveling {
      return;
    }
    var degradeRate := if host.resting then RestingMagicItemDegradeRate else NormalMagicItemDegradeRate;
    if host.magicRoundsSinceStartup % degradeRate != 0 {
      return;
    }
    if props.currentCharge > 0 {
      props.currentCharge := props.currentCharge - 1;
    }
  }

  /** How casting the held bundle ended. */
  datatype BundleOutcome = CustomNotSupported | SpellNotFound | RunOut | SettingsRejected | BundleAssigned

  /** The charge `InstantiateSpellBundle` asks for: the casting cost on equip, nothing on a recast. */
  function BundleAmount(recast: bool, host: HeldHost): int {
    if recast then 0 else host.castingCost
  }

  /**
   * How `InstantiateSpellBundle` ends: a custom parameter and a missing
   * spell record return first; then a recast needs some charge left and an
   * equip needs at least the casting cost; then the engine builds the bundle.
   */
  function BundleOutcomeFor(param: EnchantmentParam, recast: bool, charge: int, host: HeldHost): (r: BundleOutcome)
    ensures r == CustomNotSupported <==> HasCustomParam(param)
    ensures r == SpellNotFound <==> !HasCustomParam(param) && !host.spellFound
    ensures r == RunOut <==>
      (!HasCustomParam(param) && host.spellFound && (if recast then charge <= 0 else charge < host.castingCost))
    ensures r == BundleAssigned ==> host.bundleSettingsCreated && charge >= BundleAmount(recast, host)
  {
    if HasCustomParam(param) then CustomNotSupported
    else if !host.spellFound then SpellNotFound
    else if recast && charge <= 0 then RunOut
    else if !recast && charge < host.castingCost then RunOut
    else if host.bundleSettingsCreated then BundleAssigned
    else SettingsRejected
  }

  /**
   * The charge after `InstantiateSpellBundle`: the casting cost comes off
   * only when an equip (never a recast) actually assigned the bundle.
   */
  function ChargeAfterBundle(param: EnchantmentParam, recast: bool, charge: int, host: HeldHost): (r: int)
    ensures recast ==> r == charge
    ensures r != charge ==> BundleOutcomeFor(param, recast, charge, host) == BundleAssigned
    ensures BundleOutcomeFor(param, recast, charge, host) == BundleAssigned ==> r == charge - BundleAmount(recast, host)
    ensures HasCustomParam(param) ==> r == charge
    ensures charge >= 0 && host.castingCost >= 0 ==> r >= 0
  {
    if BundleOutcomeFor(param, recast, charge, host) == BundleAssigned && !recast then charge - host.castingCost
    else charge
  }

  /** `InstantiateSpellBundle` on the item's charge record. */
  method InstantiateSpellBundle(param: EnchantmentParam, props: ItemProperties, recast: bool, host: HeldHost)
    returns (outcome: BundleOutcome)
    modifies props`currentCharge
    ensures outcome == BundleOutcomeFor(param, recast, old(props.currentCharge), host)
    ensures props.currentCharge == ChargeAfterBundle(param, recast, old(props.currentCharge), host)
  {
    if HasCustomParam(param) {
      return CustomNotSupported;
    }
    if !host.spellFound {
      return SpellNotFound;
    }
    var amount := if !recast then host.castingCost else 0;
    if recast {
      if props.currentCharge <= 0 {
        return RunOut;
      }
    } else {
      if props.currentCharge < amount {
        return RunOut;
      }
    }
    if host.bundleSettingsCreated {
      outcome := BundleAssigned;
      if !recast {
        props.currentCharge := props.currentCharge - amount;
      }
    } else {
      outcome := SettingsRejected;
    }
  }

  /** Whether the callback gets past its validation and finds the caster's effect manager. */
  predicate CallbackProceeds(context: PayloadFlags, param: Option<EnchantmentParam>, hasSourceEntity: bool,
                             hasSourceItem: bool, host: HeldHost) {
    (context == Equipped || context == MagicRound || context == RerollEffect)
    && param.Some? && hasSourceEntity && hasSourceItem && host.hasEffectManager
  }

  /** The item's charge after `EnchantmentPayloadCallback`. */
  function ChargeAfterCallback(context: PayloadFlags, param: Option<EnchantmentParam>, hasSourceEntity: bool,
                               hasSourceItem: bool, charge: int, host: HeldHost): (r: int)
    ensures !CallbackProceeds(context, param, hasSourceEntity, hasSourceItem, host) ==> r == charge
    ensures context == RerollEffect ==> r == charge
    ensures context == MagicRound ==> r == charge || r == charge - 1
    ensures r != charge ==> CallbackProceeds(context, param, hasSourceEntity, hasSourceItem, host)
  {
    if !CallbackProceeds(context, param, hasSourceEntity, hasSourceItem, host) then charge
    else if context == Equipped then ChargeAfterBundle(param.value, false, charge, host)
    else if context == MagicRound then ChargeAfterLoss(charge, host)
    else ChargeAfterBundle(param.value, true, charge, host)
  }

  /**
   * `EnchantmentPayloadCallback`: validates the call, then casts on equip,
   * loses charge on a magic round, or recasts on a reroll. `props` is the
   * charge record the mod keeps for `sourceItem`.
   */
  method EnchantmentPayloadCallback(context: PayloadFlags, param: Option<EnchantmentParam>, hasSourceEntity: bool,
                                    sourceItem: Item?, props: ItemProperties, host: HeldHost)
    modifies props`currentCharge
    ensures props.currentCharge
      == ChargeAfterCallback(context, param, hasSourceEntity, sourceItem != null, old(props.currentCharge), host)
  {
    if (context != Equipped && context != MagicRound && context != RerollEffect)
      || param.None? || !hasSourceEntity || sourceItem == null
    {
      return;
    }
    if !host.hasEffectManager {
      return;
    }
    if context == Equipped {
      var _ := InstantiateSpellBundle(param.value, props, false, host);
    } else if context == MagicRound {
      ApplyChargeLoss(props, host);
    } else {
      var _ := InstantiateSpellBundle(param.value, props, true, host);
    }
  }

  /**
   * A held item whose charge and casting cost are not negative never ends
   * a callback with negative charge.
   */
  lemma CallbackKeepsChargeNonNegative(context: PayloadFlags, param: Option<EnchantmentParam>, hasSourceEntity: bool,
                                       hasSourceItem: bool, charge: int, host: HeldHost)
    requires charge >= 0 && host.castingCost >= 0
    ensures ChargeAfterCallback(context, param, hasSourceEntity, hasSourceItem, charge, host) >= 0
  {
  }

  /**
   * The charge left after `rounds` consecutive magic rounds starting at
   * round `start`, the player neither travelling nor resting.
   */
  function ChargeAfterRounds(charge: int, start: int, rounds: nat): int
    decreases rounds
  {
    if rounds == 0 then charge
    else
      ChargeAfterRounds(
        ChargeAfterLoss(charge, HeldHost(true, false, false, start, false, 0, false)), start + 1, rounds - 1)
  }

  /**
   * Over consecutive awake rounds, starting just after a loss round, a held
   * item loses at most one point per full block of four rounds, and never
   * drops below zero.
   */
  lemma {:induction false} ChargeAfterRoundsBounds(charge: int, start: int, rounds: nat)
    requires charge >= 0 && start % NormalMagicItemDegradeRate == 1
    ensures 0 <= ChargeAfterRounds(charge, start, rounds) <= charge
    ensures charge - ChargeAfterRounds(charge, start, rounds) <= rounds / 4
    decreases rounds
  {
    if rounds >= 4 {
      var c1 := ChargeAfterLoss(charge, HeldHost(true, false, false, start, false, 0, false));
      var c2 := ChargeAfterLoss(c1, HeldHost(true, false, false, start + 1, false, 0, false));
      var c3 := ChargeAfterLoss(c2, HeldHost(true, false, false, start + 2, false, 0, false));
      var c4 := ChargeAfterLoss(c3, HeldHost(true, false, false, start + 3, false, 0, false));
      assert c3 == charge;
      ChargeAfterRoundsBounds(c4, start + 4, rounds - 4);
      assert ChargeAfterRounds(charge, start, rounds) == ChargeAfterRounds(c1, start + 1, rounds - 1);
      assert ChargeAfterRounds(c1, start + 1, rounds - 1) == ChargeAfterRounds(c2, start + 2, rounds - 2);
      assert ChargeAfterRounds(c2, start + 2, rounds - 2) == ChargeAfterRounds(c3, start + 3, rounds - 3);
      assert ChargeAfterRounds(c3, start + 3, rounds - 3) == ChargeAfterRounds(c4, start + 4, rounds - 4);
    } else if rounds > 0 {
      ChargeAfterRoundsQuiet(charge, start, rounds);
    }
  }

  /** The first three rounds after a loss round cost nothing. */
  lemma {:induction false} ChargeAfterRoundsQuiet(charge: int, start: int, rounds: nat)
    requires start % NormalMagicItemDegradeRate != 0 && (start % NormalMagicItemDegradeRate) + rounds <= 4
    ensures ChargeAfterRounds(charge, start, rounds) == charge
    decreases rounds
  {
    if rounds > 0 {
      assert ChargeAfterLoss(charge, HeldHost(true, false, false, start, false, 0, false)) == charge;
      if rounds > 1 {
        ChargeAfterRoundsQuiet(charge, start + 1, rounds - 1);
      }
    }
  }
}
