/**
 * The "cast when strikes" enchantment with charges: a damaging hit casts the
 * item's spell on the target and costs ten points of charge, paid before
 * the spell is looked up. An item without enough charge left does nothing.
 *
 * The engine's answers (the target's effect manager, spell record found,
 * bundle settings built) arrive as a `StrikesHost` value.
 */
module RepairToolsCastWhenStrikes {

  import opened Wrappers
  import opened Inventory

  /** The charge one casting strike costs. */
  const DurabilityLossOnStrike: int := 10

  /** What the engine reports during one callback. */
  datatype StrikesHost = StrikesHost(hasEffectManager: bool, spellFound: bool, bundleSettingsCreated: bool)

  /** How one strike ended: ignored, refused for lack of charge, or paid for (and whether a spell got cast). */
  datatype StrikeOutcome = Ignored | RanOut | Spent(spellCast: bool)

  /**
   * How `EnchantmentPayloadCallback` ends: a strike that deals damage to a
   * target with an effect manager pays ten charge when it has them; a
   * custom parameter or a failed lookup then casts nothing.
   */
  function StrikeOutcomeFor(context: PayloadFlags, param: Option<EnchantmentParam>, hasTargetEntity: bool,
                            sourceDamage: int, charge: int, host: StrikesHost): (r: StrikeOutcome)
    ensures r == Ignored <==>
      (context != Strikes || !hasTargetEntity || param.None? || sourceDamage == 0 || !host.hasEffectManager)
    ensures r == RanOut <==> r != Ignored && charge < DurabilityLossOnStrike
    ensures r.Spent? && r.spellCast <==>
      (r.Spent? && !HasCustomParam(param.value) && host.spellFound && host.bundleSettingsCreated)
  {
    if context != Strikes || !hasTargetEntity || param.None? || sourceDamage == 0 then Ignored
    else if !host.hasEffectManager then Ignored
    else if charge < DurabilityLossOnStrike then RanOut
    else Spent(!HasCustomParam(param.value) && host.spellFound && host.bundleSettingsCreated)
  }

  /** The item's charge after the callback: ten points less exactly when the strike was paid for. */
  function ChargeAfterStrike(context: PayloadFlags, param: Option<EnchantmentParam>, hasTargetEntity: bool,
                             sourceDamage: int, charge: int, host: StrikesHost): (r: int)
    ensures r == charge || r == charge - DurabilityLossOnStrike
    ensures r != charge <==> StrikeOutcomeFor(context, param, hasTargetEntity, sourceDamage, charge, host).Spent?
    ensures r < charge ==> r >= 0
  {
    if StrikeOutcomeFor(context, param, hasTargetEntity, sourceDamage, charge, host).Spent?
    then charge - DurabilityLossOnStrike
    else charge
  }

  /**
   * `EnchantmentPayloadCallback` for a striking item; `props` is the charge
   * record the mod hands back for the source item.
   */
  method EnchantmentPayloadCallback(context: PayloadFlags, param: Option<EnchantmentParam>, hasTargetEntity: bool,
                                    sourceDamage: int, props: ItemProperties, host: StrikesHost)
    returns (outcome: StrikeOutcome)
    modifies props`currentCharge
    ensures outcome == StrikeOutcomeFor(context, param, hasTargetEntity, sourceDamage, old(props.currentCharge), host)
    ensures props.currentCharge
      == ChargeAfterStrike(context, param, hasTargetEntity, sourceDamage, old(props.currentCharge), host)
  {
    if context != Strikes || !hasTargetEntity || param.None? || sourceDamage == 0 {
      return Ignored;
    }
    if !host.hasEffectManager {
      return Ignored;
    }
    if props.currentCharge < DurabilityLossOnStrike {
      return RanOut;
    }
    props.currentCharge := props.currentCharge - DurabilityLossOnStrike;
    if HasCustomParam(param.value) {
      return Spent(false);
    }
    var cast := false;
    if host.spellFound {
      if host.bundleSettingsCreated {
        cast := true;
      }
    }
    outcome := Spent(cast);
  }

  /** A custom parameter still costs the charge even though no spell is cast. */
  lemma CustomParamStillPays(param: EnchantmentParam, sourceDamage: int, charge: int, host: StrikesHost)
    requires HasCustomParam(param) && sourceDamage != 0 && host.hasEffectManager && charge >= DurabilityLossOnStrike
    ensures StrikeOutcomeFor(Strikes, Some(param), true, sourceDamage, charge, host) == Spent(false)
    ensures ChargeAfterStrike(Strikes, Some(param), true, sourceDamage, charge, host) == charge - DurabilityLossOnStrike
  {
  }
}
