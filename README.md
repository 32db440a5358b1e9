# Repair Tools for Daggerfall Unity, modelled in Dafny

Repair Tools is a Daggerfall Unity mod that adds six consumable tools:
- the Whetstone, Sewing Kit, Armorers Hammer, Jewelers Pliers and Epoxy Glue, which restore an item's condition;
- the Charging Powder, which restores an enchanted item's charge.

Using a tool does the following:
1. It opens a list of the items in the inventory that the tool can work on. Each entry shows the item's condition, the percentage the player's skill can reach, and the scraps the repair costs.
2. Picking an entry runs four gates in order: the item is broken, the item is already at the reachable percentage, the player is too tired, or the scraps are short.
3. If every gate passes, the repair sets the item to the reachable percentage, takes the scraps and the fatigue, and wears the tool by one use. A tool at its last use breaks and leaves the inventory.

The mod also does the following:
- It replaces the three charged enchantments (cast when held, cast when used, cast when strikes) so that they spend the mod's own charge records.
- It adds a line "Charge: c / m" to the item info in the inventory window.
- It adds console commands that damage, repair, clear and recharge the inventory.

The model has one module per source file:

| module | source file | form |
|---|---|---|
| `RepairTools` | `Scripts/RepairTools.cs` | functions (skill formulas, arctangent curves) |
| `Scraps` | `Scripts/AbstractItemRepairTools.cs` (scraps enum) and `Scripts/ItemsRepairTools.cs` (scrap items) | datatype with members |
| `ItemsRepairTools` | `Scripts/ItemsRepairTools.cs` | `ToolKind` datatype; each per-tool override is a function matching on it |
| `AbstractItemRepairTools` | `Scripts/AbstractItemRepairTools.cs` | class `RepairTool` with methods over mutable items; the picker loop is a method with invariants |
| `RepairToolsCastWhenHeld`, `…Used`, `…Strikes` | `Scripts/Effects/*.cs` | methods on a mutable charge record, each proved against an outcome function |
| `RepairToolsConsoleCommands` | `Scripts/RepairToolsConsoleCommands.cs` | loops over the inventory, each proved against a per-item function |
| `RepairToolsInventoryWindow` | `Scripts/UserInterfaceWindows/RepairToolsInventoryWindow.cs` | token-sequence functions; an in-place array rewrite loop |
| `RTTextTokenHolder` | `Scripts/RTTextTokenHolder.cs` | a pure lookup table |

Helper modules:
- `Wrappers` has `Option` and `Result`.
- `TextUtil` covers integer formatting, `string.Replace` and `Trim`.
- `Inventory` holds the host's entities:
  - items, item collections and the player;
  - the mod's per-item charge record;
  - text tokens.

Floats are modelled as exact reals and `int` as unbounded integers. Where the source's rounding matters, it is written out:
- `Mathf.Round` is round half to even (`RoundHalfEvenDiv`, `RoundHalfEvenReal`);
- integer `/` truncates (`CsDiv`);
- `(int)` on a float truncates (`TruncateToInt`);
- `Mathf.Ceil` of an exact quotient is `CeilDiv`.

The arctangent and pi are a parameter (`Trig`). The only facts the proofs use about them are those in `IsArcTangent`: atan is bounded by ±pi/2, monotone, zero at zero, and ±pi/4 at ±1.

## Model

| member | source | states |
|---|---|---|
| RepairTools.RoundHalfEvenDiv | Scripts/RepairTools.cs:101-102 | `Mathf.Round((stat - 50f) / 10)`: the result is the integer nearest to n/d, and the even one at a tie |
| RepairTools.RoundHalfEvenOdd | Scripts/RepairTools.cs:101-102 | banker's rounding is odd-symmetric: round(-n/d) = -round(n/d) |
| RepairTools.RoundHalfEvenReal | Scripts/RepairTools.cs:149 | `Mathf.Round` of a real is within 0.5 of it, and even at a tie |
| RepairTools.RoundHalfEvenRealMonotone | Scripts/RepairTools.cs:149 | rounding preserves order |
| RepairTools.LevelTerm | Scripts/RepairTools.cs:104 | `Clamp(level*5, 5, 100)` lies in [5, 100], equals level*5 for levels 1 to 20, and is 5 below and 100 above that range |
| RepairTools.AttributeMod | Scripts/RepairTools.cs:101-102 | the luck/agility term is the banker's rounding of (stat-50)/10, and 0 for stats in [45, 55] |
| RepairTools.AttributeModSymmetric | Scripts/RepairTools.cs:101-102 | the term is odd-symmetric around 50: mod(50+d) = -mod(50-d) |
| RepairTools.BackgroundMod | Scripts/RepairTools.cs:103 | the background term is 6 exactly when the career is "Knight", otherwise 0 |
| RepairTools.EffectiveRepairSkill | Scripts/RepairTools.cs:99-105 | the skill minus the two attribute terms and the background term lies in [5, 100]; with neutral attributes and no Knight bonus the skill itself lies in [5, 100] |
| RepairTools.SkillTarget | Scripts/RepairTools.cs:107-135 | target is a multiple of 10; non-weapon, non-armour items give 10; each armour band (leather, chain, plate up to Daedric) is re-based to tier 1 and gives 10 to 100 |
| RepairTools.ClampedDiff | Scripts/RepairTools.cs:147 | the difference is clamped below at -10 and unchanged above it |
| RepairTools.MaxConditionPercentRange | Scripts/RepairTools.cs:137-150 | the reachable percentage lies in [20, 100] |
| RepairTools.MaxConditionPercentMonotone | Scripts/RepairTools.cs:141-150 | a larger skill margin never gives a lower reachable percentage |
| RepairTools.ConditionCurveMonotone | Scripts/RepairTools.cs:148 | the unrounded curve is monotone in the clamped difference |
| RepairTools.MaxConditionPercentOnTarget | Scripts/RepairTools.cs:139-149 | "on target, you get 60%" |
| RepairTools.MaxConditionPercentFiveOff | Scripts/RepairTools.cs:138-149 | "at 5 under target, you get 40%" and "at 5 above target, you get 80%" |
| RepairTools.CurvesDependOnClampedDiff | Scripts/RepairTools.cs:147-149 | both curves depend only on the clamped difference, so every deficit beyond 10 points gives the same value |
| RepairTools.RepairEfficiencyRatioIsOne | Scripts/RepairTools.cs:156-165 | as written (`int`, rounded), the efficiency ratio is 1 for every skill and target |
| RepairTools.RepairEfficiency | Scripts/RepairTools.cs:152-163 | the documented real ratio lies strictly within (0.5, 1.5) |
| RepairTools.RepairEfficiencyMonotone | Scripts/RepairTools.cs:152-163 | the real ratio never decreases as the skill margin grows |
| RepairTools.EfficiencyCurveMonotone | Scripts/RepairTools.cs:162 | the unrounded efficiency curve is monotone in the clamped difference |
| RepairTools.RepairEfficiencyOnTarget | Scripts/RepairTools.cs:152-163 | "on target, you get 1": with equal skill and target the real ratio is exactly 1 |
| RepairTools.RepairEfficiencyFiveOff | Scripts/RepairTools.cs:152-163 | the real ratio is 0.75 at 5 under target and 1.25 at 5 above it, as the comment promises |
| Scraps.ScrapsType.GetItemGroups | Scripts/AbstractItemRepairTools.cs:40-51 | every kind of scraps is stored in group UselessItems2 |
| Scraps.ScrapsType.GetTemplateIndex | Scripts/AbstractItemRepairTools.cs:53-64 | each kind's template index lies in 810..813, and `ScrapsTypeOfTemplate` maps it back to the kind |
| Scraps.ScrapsTypeOfTemplate | Scripts/ItemsRepairTools.cs:368-462 | a template index names a scraps kind exactly when it lies in 810..813 |
| Scraps.TemplateIndexInjective | Scripts/AbstractItemRepairTools.cs:53-64 | distinct kinds have distinct template indices, so they never draw on the same stack |
| ItemsRepairTools.ToolKind.TemplateIndex | Scripts/ItemsRepairTools.cs:26-35 | the tools are registered under 800..805, and `KindOfTemplate` inverts the mapping |
| ItemsRepairTools.KindOfTemplate | Scripts/ItemsRepairTools.cs:26 | a template index names a tool exactly when it lies in 800..805 |
| ItemsRepairTools.ArmorToolsDisjoint | Scripts/ItemsRepairTools.cs:96-105 | apart from template 530, no armour piece is valid for two of the sewing kit, the pliers and the hammer |
| ItemsRepairTools.ArmorTargetInBand | Scripts/ItemsRepairTools.cs:147-150 | armour that an armour tool accepts has a skill target of at least 10, and at most 100 when the sewing kit or the pliers accept it |
| ItemsRepairTools.WeaponToolsDisjoint | Scripts/ItemsRepairTools.cs:44-49 | the whetstone and the glue never accept the same weapon |
| ItemsRepairTools.GetScrapsCostsSchedule | Scripts/ItemsRepairTools.cs:51-58 | every tool's cost schedule has one or two entries with positive counts and no repeated kind; Soul appears exactly for the powder; exactly the whetstone on axes and the glue on bows cost two kinds, one each; every other single-kind cost is 2 |
| ItemsRepairTools.MaxReal | Scripts/ItemsRepairTools.cs:63 | `Mathf.Max` is an upper bound of both arguments and equal to one of them |
| ItemsRepairTools.GetStaminaDrain | Scripts/ItemsRepairTools.cs:60-64 | whetstone and hammer drains lie in [25, 75] and the other condition tools in [10, 40] for non-negative stats; the powder's drain times the bonus multiplier lies in [10, 40] |
| ItemsRepairTools.TimeDrainBase | Scripts/ItemsRepairTools.cs:66-72 | every tool's undivided time drain lies in [1200, 3600] seconds for non-negative stats |
| ItemsRepairTools.GetTimeDrain | Scripts/ItemsRepairTools.cs:312-318 | condition tools take 1200 to 3600 seconds for non-negative stats; the powder's time drain times the bonus multiplier lies in the same band |
| ItemsRepairTools.ConditionAfterRepair | Scripts/AbstractItemRepairTools.cs:180-183 | the condition a repair sets lies in [0, max] for thresholds in [0, 100] |
| ItemsRepairTools.PercentBelowThreshold | Scripts/AbstractItemRepairTools.cs:204 | an integer condition percentage below the threshold means the exact proportion is below it too |
| ItemsRepairTools.RepairNeverLowersCondition | Scripts/AbstractItemRepairTools.cs:204-230 | an item that passed the "not damaged enough" gate is never left worse off by the repair |
| ItemsRepairTools.ChargeAfterRepair | Scripts/ItemsRepairTools.cs:320-324 | the charge the powder sets lies in [0, maxCharge] for thresholds in [0, 100] |
| AbstractItemRepairTools.GetAudioClipNum | Scripts/AbstractItemRepairTools.cs:105-109 | the clip number is a valid index into the six audio clips, and 800 plus it names the tool |
| AbstractItemRepairTools.CostSuffixShape | Scripts/AbstractItemRepairTools.cs:148-159 | the cost suffix is empty exactly when there are no costs; otherwise it is "  (c1 T1)" or "  (c1 T1, c2 T2)" |
| AbstractItemRepairTools.CandidateIndices | Scripts/AbstractItemRepairTools.cs:134-145 | every listed position is one of the inventory slots scanned so far |
| AbstractItemRepairTools.CandidateIndicesIncreasing | Scripts/AbstractItemRepairTools.cs:134-145 | listed positions strictly increase, so the picker keeps inventory order |
| AbstractItemRepairTools.CandidateIndicesValid | Scripts/AbstractItemRepairTools.cs:141-145 | every listed position holds an item the tool accepts (for the powder, one not already fully charged) |
| AbstractItemRepairTools.CandidateIndicesComplete | Scripts/AbstractItemRepairTools.cs:141-145 | no valid item is missed |
| AbstractItemRepairTools.CandidatesAtIndices | Scripts/AbstractItemRepairTools.cs:145 | the list of valid items is exactly the items at the listed positions |
| AbstractItemRepairTools.PickerLabelsLength | Scripts/AbstractItemRepairTools.cs:145-161 | there is one picker line per listed position |
| AbstractItemRepairTools.PickerLabelsAligned | Scripts/AbstractItemRepairTools.cs:145-161 | picker line k is the label of the item at the k-th listed position, which the tool accepts, built from that item's own charge record |
| AbstractItemRepairTools.BuildLabel | Scripts/AbstractItemRepairTools.cs:146-159 | the line built by appending the costs one by one, joined by ", ", is the item's label: name, condition percentage, reachable percentage and the cost suffix |
| AbstractItemRepairTools.CollectCandidates | Scripts/AbstractItemRepairTools.cs:134-163 | the loop that fills the picker produces exactly `Candidates` and `PickerLabels` over the whole inventory, costs joined by ", " |
| AbstractItemRepairTools.UseItemOutcome | Scripts/AbstractItemRepairTools.cs:112-171 | enemies nearby refuse first; then fatigue at or below 20×64 refuses; otherwise the picker shows when something is listed |
| AbstractItemRepairTools.PickVerdict | Scripts/AbstractItemRepairTools.cs:192-228 | each verdict holds exactly when the earlier gates passed and its own gate failed (iff for all five) |
| AbstractItemRepairTools.TruncateToInt | Scripts/AbstractItemRepairTools.cs:214 | `(int)` on a float truncates toward zero |
| AbstractItemRepairTools.RepairPercentageNonNegative | Scripts/AbstractItemRepairTools.cs:173-178 | an item below the threshold has a non-negative share of condition to restore |
| AbstractItemRepairTools.StaminaDrainValue | Scripts/AbstractItemRepairTools.cs:214 | the fatigue cost is never negative for a non-negative share |
| AbstractItemRepairTools.TimeDrainValue | Scripts/AbstractItemRepairTools.cs:215 | the time cost is never negative for a non-negative share |
| AbstractItemRepairTools.SearchItems | Scripts/AbstractItemRepairTools.cs:254 | search results are collection members of the group and template, and the result is empty exactly when none exists |
| AbstractItemRepairTools.FirstStack | Scripts/AbstractItemRepairTools.cs:254-258 | the stack a cost draws on is an inventory item with that kind's template |
| AbstractItemRepairTools.TryConsumeResources | Scripts/AbstractItemRepairTools.cs:248-271 | all or nothing: succeeds exactly when every cost's first stack holds enough; then each stack loses what the costs charge to it, and otherwise no stack changes |
| AbstractItemRepairTools.ChargedOwnStack | Scripts/AbstractItemRepairTools.cs:265-268 | with no kind repeated, each cost is charged exactly once, to its own stack |
| AbstractItemRepairTools.ChargedPrefixStep | Scripts/AbstractItemRepairTools.cs:265-268 | taking one more cost charges its count to its own first stack and nothing to any other stack |
| AbstractItemRepairTools.RepairChargesOwnStack | Scripts/AbstractItemRepairTools.cs:248-271 | a repair charges each of its costs exactly once: the first stack of the cost's kind loses exactly that count |
| AbstractItemRepairTools.ChargedElsewhere | Scripts/AbstractItemRepairTools.cs:265-268 | a stack that no cost leads to loses nothing |
| AbstractItemRepairTools.NotEnoughScrapsLinesListEachCost | Scripts/AbstractItemRepairTools.cs:315-318 | the message is the header and then one line per cost, in order; line k+1 shows cost k's count and then its kind's long name |
| AbstractItemRepairTools.RefusalLines | Scripts/AbstractItemRepairTools.cs:285-313 | every refusal's first line names the refused item |
| AbstractItemRepairTools.EfficiencyFor | Scripts/AbstractItemRepairTools.cs:210 | the efficiency the drains are divided by is the `int` ratio widened to a float, which is 1 for every player and item |
| AbstractItemRepairTools.AssessPick | Scripts/AbstractItemRepairTools.cs:192-221 | computes the reachable percentage, which lies in [20, 100], and the gate verdict; for an item past the first two gates, the fatigue and time costs divided by the `int` efficiency ratio (so undivided), the fatigue non-negative |
| AbstractItemRepairTools.RepairTool.UseItem | Scripts/AbstractItemRepairTools.cs:112-171 | refusals leave the tool's state alone; otherwise the tool remembers the collection, and its list and picker lines are exactly the valid items and their lines in inventory order |
| AbstractItemRepairTools.RepairTool.LowerConditionWorkaround | Scripts/AbstractItemRepairTools.cs:274-283 | the tool loses `amount` condition; at zero or below its condition is set to 0 and it is removed from its collection |
| AbstractItemRepairTools.RepairTool.DoRepair | Scripts/AbstractItemRepairTools.cs:180-183 | a condition tool sets the condition (charge unchanged); the powder sets the charge (condition unchanged) |
| AbstractItemRepairTools.RepairTool.OnItemPicked | Scripts/AbstractItemRepairTools.cs:186-246 | the verdict follows the gates in order and every refusal changes nothing. A repair takes exactly the charged scraps, restores the item without lowering it or exceeding its maximum, wears the tool (breaking it at 1) and costs the fatigue the gate checked, which stays non-negative |
| AbstractItemRepairTools.RepairTool.ConsumeAndRepair | Scripts/AbstractItemRepairTools.cs:224-239 | the scraps are taken all or nothing; short of scraps nothing changes; otherwise each stack loses exactly its charge, the repair never lowers the item's condition nor passes its maximum, the tool wears by one and the fatigue is paid |
| AbstractItemRepairTools.RepairTool.FinishRepair | Scripts/AbstractItemRepairTools.cs:230-239 | repair, one point of tool wear and the fatigue deduction, with their exact new values |
| RepairToolsCastWhenHeld.ChargeAfterLoss | Scripts/Effects/RepairToolsCastWhenHeld.cs:57-71 | a magic round costs one charge exactly when a loss is due (not travelling, round counter a multiple of 4, or 60 while resting) and charge is left; charge never goes negative |
| RepairToolsCastWhenHeld.ApplyChargeLoss | Scripts/Effects/RepairToolsCastWhenHeld.cs:57-71 | the new charge is `ChargeAfterLoss` of the old one |
| RepairToolsCastWhenHeld.BundleOutcomeFor | Scripts/Effects/RepairToolsCastWhenHeld.cs:73-131 | a custom parameter, a missing spell and running out each hold exactly when their condition holds (a recast needs charge > 0, an equip needs the casting cost); a bundle is assigned only with settings and enough charge |
| RepairToolsCastWhenHeld.ChargeAfterBundle | Scripts/Effects/RepairToolsCastWhenHeld.cs:86-131 | a recast never costs charge; an equip pays the casting cost exactly when it assigns the bundle; charge never goes negative |
| RepairToolsCastWhenHeld.InstantiateSpellBundle | Scripts/Effects/RepairToolsCastWhenHeld.cs:73-135 | the outcome and the new charge are `BundleOutcomeFor` and `ChargeAfterBundle` |
| RepairToolsCastWhenHeld.ChargeAfterCallback | Scripts/Effects/RepairToolsCastWhenHeld.cs:24-55 | a call failing validation changes nothing, a reroll never costs charge, and a magic round costs at most one |
| RepairToolsCastWhenHeld.EnchantmentPayloadCallback | Scripts/Effects/RepairToolsCastWhenHeld.cs:24-55 | the new charge is `ChargeAfterCallback` of the old one |
| RepairToolsCastWhenHeld.CallbackKeepsChargeNonNegative | Scripts/Effects/RepairToolsCastWhenHeld.cs:24-71 | whatever the context, the callback never drives a non-negative charge below 0 |
| RepairToolsCastWhenHeld.ChargeAfterRoundsBounds | Scripts/Effects/RepairToolsCastWhenHeld.cs:59-70 | over consecutive awake rounds a held item loses at most one charge per 4 rounds and never drops below 0 |
| RepairToolsCastWhenHeld.ChargeAfterRoundsQuiet | Scripts/Effects/RepairToolsCastWhenHeld.cs:63-64 | rounds that are not multiples of 4 cost nothing |
| RepairToolsCastWhenUsed.UsedOutcomeFor | Scripts/Effects/RepairToolsCastWhenUsed.cs:21-75 | ignored exactly when validation or the effect manager fails; refused exactly when a present source item has under 10 charge; a spell is readied exactly when it was paid for, is not custom, and the lookups succeed |
| RepairToolsCastWhenUsed.ChargeAfterUse | Scripts/Effects/RepairToolsCastWhenUsed.cs:35-45 | a use costs 10 exactly when it is paid for; a present item's charge never goes negative |
| RepairToolsCastWhenUsed.EnchantmentPayloadCallback | Scripts/Effects/RepairToolsCastWhenUsed.cs:21-75 | the outcome and the new charge are `UsedOutcomeFor` and `ChargeAfterUse` |
| RepairToolsCastWhenUsed.ChargeIndependentOfLookup | Scripts/Effects/RepairToolsCastWhenUsed.cs:35-72 | the charge is paid before the spell lookup, so whether the spell is found never changes the new charge |
| RepairToolsCastWhenUsed.ChargeAfterUsesValue | Scripts/Effects/RepairToolsCastWhenUsed.cs:35-45 | repeated uses take 10 each while they can, then stop at charge mod 10 |
| RepairToolsCastWhenStrikes.StrikeOutcomeFor | Scripts/Effects/RepairToolsCastWhenStrikes.cs:22-60 | ignored exactly when validation (including zero damage) or the effect manager fails; refused exactly when under 10 charge is left; a spell is cast exactly when it was paid for, is not custom, and the lookups succeed |
| RepairToolsCastWhenStrikes.ChargeAfterStrike | Scripts/Effects/RepairToolsCastWhenStrikes.cs:33-38 | a strike costs 10 exactly when it is paid for, and the paid charge stays non-negative |
| RepairToolsCastWhenStrikes.CustomParamStillPays | Scripts/Effects/RepairToolsCastWhenStrikes.cs:34-45 | a strike with a custom parameter casts nothing yet still costs 10 charge |
| RepairToolsCastWhenStrikes.EnchantmentPayloadCallback | Scripts/Effects/RepairToolsCastWhenStrikes.cs:22-60 | the outcome and the new charge are `StrikeOutcomeFor` and `ChargeAfterStrike` |
| RepairToolsConsoleCommands.ToolTemplateIndicesAreTheTools | Scripts/RepairToolsConsoleCommands.cs:23-30 | the table holds six distinct indices, and an index is in it exactly when it names a tool |
| RepairToolsConsoleCommands.CeilDiv | Scripts/RepairToolsConsoleCommands.cs:66 | `Mathf.Ceil` of an exact quotient is the least integer at or above it |
| RepairToolsConsoleCommands.DamageAmount | Scripts/RepairToolsConsoleCommands.cs:66 | the damage is ten percent of the maximum, rounded up |
| RepairToolsConsoleCommands.LoweredCondition | Scripts/RepairToolsConsoleCommands.cs:67 | lowering subtracts and stops at 0 |
| RepairToolsConsoleCommands.DamagedCondition | Scripts/RepairToolsConsoleCommands.cs:60-67 | tools are skipped; any other intact item loses condition and stays non-negative |
| RepairToolsConsoleCommands.DamageEquipment | Scripts/RepairToolsConsoleCommands.cs:54-71 | every inventory item ends at `DamagedCondition` of its old condition |
| RepairToolsConsoleCommands.RepairAmountAsWritten | Scripts/RepairToolsConsoleCommands.cs:88-89 | the command's amount is ceil(max × ceil(max/10) / 100) |
| RepairToolsConsoleCommands.RepairAmountAsWrittenIsNotTenPercent | Scripts/RepairToolsConsoleCommands.cs:77-89 | with a maximum of 200 the command adds 40, where ten percent is 20 |
| RepairToolsConsoleCommands.RepairAmount | Scripts/RepairToolsConsoleCommands.cs:77 | ten percent of the maximum, rounded up |
| RepairToolsConsoleCommands.RepairedCondition | Scripts/RepairToolsConsoleCommands.cs:88-91 | with the command's amount as written, a repair adds that amount up to the maximum: it never lowers the condition, never passes the maximum, and raises a damaged item |
| RepairToolsConsoleCommands.RepairEquipment | Scripts/RepairToolsConsoleCommands.cs:80-95 | every inventory item ends at `RepairedCondition` of its old condition, the amount being ceil(max × ceil(max/10) / 100) as written |
| RepairToolsConsoleCommands.OddPositions | Scripts/RepairToolsConsoleCommands.cs:109-113 | what the loop leaves is half the list, rounded down |
| RepairToolsConsoleCommands.OddPositionsAt | Scripts/RepairToolsConsoleCommands.cs:109-113 | element k of what is left is element 2k+1 of the original list, so odd positions survive in order |
| RepairToolsConsoleCommands.ClearInventoryAsWritten | Scripts/RepairToolsConsoleCommands.cs:104-119 | as written, the loop leaves exactly the items at odd original positions |
| RepairToolsConsoleCommands.ClearInventoryAsWrittenLeavesItems | Scripts/RepairToolsConsoleCommands.cs:101-113 | any inventory of two or more items is not emptied |
| RepairToolsConsoleCommands.ClearInventory | Scripts/RepairToolsConsoleCommands.cs:101 | the corrected loop empties the inventory |
| RepairToolsConsoleCommands.RechargeAllItems | Scripts/RepairToolsConsoleCommands.cs:146-154 | every tracked record ends with charge equal to its maximum, and maxima are unchanged |
| RepairToolsInventoryWindow.FindConditionIndexFrom | Scripts/UserInterfaceWindows/RepairToolsInventoryWindow.cs:102 | `First(StartsWith("Condition"))`: the first condition line, every earlier token having text; the error holds exactly when no line matches, or a token without text comes first |
| RepairToolsInventoryWindow.ChargeTokens | Scripts/UserInterfaceWindows/RepairToolsInventoryWindow.cs:105 | the inserted tokens are the "Charge: c / m" text, a centring token and the end of record |
| RepairToolsInventoryWindow.ModifyItemInfoTokens | Scripts/UserInterfaceWindows/RepairToolsInventoryWindow.cs:96-109 | without a positive maximum charge the tokens are unchanged. It fails exactly when there is no condition line or the insert point is past the end. Otherwise the length grows by 3 and the charge tokens sit two places after the condition line, with both sides unchanged |
| RepairToolsInventoryWindow.ModifyItemInfoTokensKeepsOriginal | Scripts/UserInterfaceWindows/RepairToolsInventoryWindow.cs:102-108 | removing the three inserted tokens gives back the input; the condition line keeps its index and the charge text follows it |
| RepairToolsInventoryWindow.ReplaceUnitsAbsent | Scripts/UserInterfaceWindows/RepairToolsInventoryWindow.cs:53 | a text with none of the three unit texts is unchanged by the replacements |
| RepairToolsInventoryWindow.RewriteToken | Scripts/UserInterfaceWindows/RepairToolsInventoryWindow.cs:50-53 | no centring token survives; other formattings stay; a missing text stays missing and a present text gets the replacements |
| RepairToolsInventoryWindow.UpdateItemInfoPanelTokens | Scripts/UserInterfaceWindows/RepairToolsInventoryWindow.cs:46-56 | every array element ends as `RewriteToken` of its old value |
| RepairToolsInventoryWindow.PaintingTokens | Scripts/UserInterfaceWindows/RepairToolsInventoryWindow.cs:40-41 | succeeds exactly when there is a last token with text, and then gives a single Text token holding its trimmed text |
| RepairToolsInventoryWindow.PaintingTokensIdempotent | Scripts/UserInterfaceWindows/RepairToolsInventoryWindow.cs:41 | a painting's panel rebuilt from itself is unchanged |
| RepairToolsInventoryWindow.PanelTokens | Scripts/UserInterfaceWindows/RepairToolsInventoryWindow.cs:39-43 | only paintings are truncated; other items pass through |
| RTTextTokenHolder.DiscardLines | Scripts/RTTextTokenHolder.cs:30-31 | each tool has two discard lines |
| RTTextTokenHolder.ItemRepairLinesAsWritten | Scripts/RTTextTokenHolder.cs:19-107 | as written, the message agrees with the intended one except for the pliers' worn-out message, whose first line carries the literal placeholder |
| RTTextTokenHolder.PliersBrokeMessageIgnoresName | Scripts/RTTextTokenHolder.cs:46-52 | as written, the pliers' worn-out message is the same for every item and contains `{itemRepaired.LongName}` |
| RTTextTokenHolder.ItemRepairLines | Scripts/RTTextTokenHolder.cs:19-107 | unknown ids give only "Text Token Not Found"; otherwise one opening line, or four lines with an empty second line and the tool's discard lines when the tool broke |
| RTTextTokenHolder.NameOccurs | Scripts/RTTextTokenHolder.cs:28 | an interpolated name occurs right after the text before it |
| RTTextTokenHolder.OpeningLineNamesItem | Scripts/RTTextTokenHolder.cs:28-100 | every intended opening line contains the item's name |
| RTTextTokenHolder.ItemRepairLinesDistinguishItems | Scripts/RTTextTokenHolder.cs:19-107 | different items give different intended messages |
| RTTextTokenHolder.ItemRepairTextTokens | Scripts/RTTextTokenHolder.cs:19-107 | the lines as written are laid out as centred text tokens, one text and one centring token per line |
| RTTextTokenHolder.ItemRepairTextTokensAgainstIntended | Scripts/RTTextTokenHolder.cs:19-107 | the tokens are those of the intended lines except for the pliers' worn-out message, whose first text token holds the literal placeholder |
| TextUtil.NatToStringRoundTrip | Scripts/UserInterfaceWindows/RepairToolsInventoryWindow.cs:105 | the decimal digits of a number read back to it |
| TextUtil.IntToStringRoundTrip | Scripts/AbstractItemRepairTools.cs:146 | parsing an interpolated integer gives it back |
| TextUtil.ReplaceAllAbsent | Scripts/UserInterfaceWindows/RepairToolsInventoryWindow.cs:53 | `Replace` of a text that does not occur changes nothing |
| TextUtil.TrimStart | Scripts/UserInterfaceWindows/RepairToolsInventoryWindow.cs:41 | removes exactly the leading white space, and the result is a suffix |
| TextUtil.TrimEnd | Scripts/UserInterfaceWindows/RepairToolsInventoryWindow.cs:41 | removes exactly the trailing white space, and the result is a prefix |
| TextUtil.TrimIdempotent | Scripts/UserInterfaceWindows/RepairToolsInventoryWindow.cs:41 | trimming twice is trimming once |
| Inventory.CsDiv | Scripts/AbstractItemRepairTools.cs:182 | C# integer division truncates toward zero: for a non-negative dividend the quotient is the largest q with q·b <= a, for a negative one the smallest q with a <= q·b |
| Inventory.WithoutAt | Scripts/RepairToolsConsoleCommands.cs:112 | removing an element of a repeat-free list is cutting it out at its position |
| Inventory.WithoutAbsent | Scripts/AbstractItemRepairTools.cs:281 | removing an item that is not there changes nothing |
| Inventory.ItemCollection.RemoveItem | Scripts/AbstractItemRepairTools.cs:281 | the collection loses that item and keeps all others in order |
| Inventory.CreateTokens | Scripts/RTTextTokenHolder.cs:26-31 | each line becomes a text token followed by a formatting token, and the list ends with an end-of-record token |

## Left out

- The user interface is left out: message boxes, the list-picker window, popups, the info popup and the mouse handlers. The picker is modelled as the list of valid items plus their lines; picking is a call with an index.
- Audio playback is left out: `PlayAudioTrack` and the cast sounds. Only the clip index is modelled.
- The game clock, `RaiseTime` and `timeEffectsLastRerolled` are left out. The time drain is returned, not applied.
- `ItemBreaks` and unequipping are left out. A tool that breaks is set to condition 0 and removed from its collection.
- Engine lookups are parameters:
  - enemies nearby and travelling;
  - resting and the magic-round counter;
  - the spell-record lookup and bundle-settings conversion;
  - the effect manager's presence;
  - `FormulaHelper.CalculateCastingCost`.

  Bundle creation and assignment themselves are not modelled.
- Host values and behaviour are not part of this model. They are constants or parameters with the stated behaviour:
  - the `ArmorMaterialTypes` values (0x000, 0x100, 0x200, 0x209);
  - `FatigueMultiplier` (64);
  - `CreateTokens` (a text token and a formatting token per line, then an end-of-record token);
  - `LowerCondition` (subtract, stop at 0);
  - `ConditionPercentage` (100 × current / max, truncated).
- `GetEnchantmentBonusMultipler` and `GetItemProperties` are not part of this model. The bonus is a positive real parameter. The charge records come in as an `ItemProperties` per item, one per inventory slot in the picker.
- `MacroHelper.ExpandMacros` is the host's. The panel functions take the tokens after expansion.
- The unit texts `kgSrc`, `damSrc` and `arSrc` and their replacements are declared in the host's window class. They are a non-empty parameter (`Replacements`).
- `RechargeAllItems` works on the values of the mod's item-properties dictionary, given as a sequence in enumeration order. Keys are not modelled.
- `add_repairtools`, command registration, `GetSaveData`, settings and mod start-up are foreign calls into the engine.
- `StartsWith("Condition")` is modelled as an ordinal prefix test. Culture-sensitive comparison is not modelled.
- `Mathf.Atan` and `Mathf.PI` are abstract. Floats are exact reals, so single-precision rounding in the drains and curves is not captured.
- AbstractItemRepairTools.RepairTool.OnItemPicked: requires the picked item not to be the tool itself. The tool is never valid for its own repair in the source's tables, and the aliasing case is not modelled.
- AbstractItemRepairTools.CollectCandidates: requires every item a condition tool lists to have a positive maximum condition (`ConditionsKnown`), because `ConditionPercentage` divides by it.
- ItemsRepairTools.ChargeAfterRepair: sets the charge to the rounded percentage of the maximum with no bonus-multiplier scaling, as ItemsRepairTools.cs:320-324 does. Likewise `ConditionAfterRepair` truncates with integer division, as AbstractItemRepairTools.cs:180-183 does.
- RepairTools.EffectiveRepairSkill: luck and agility are whole numbers, so `(stat - 50f) / 10` is an exact rational and its float rounding is not modelled.
- The "have run out"/"has run out" popups in the enchantment callbacks are UI and are not modelled. Only the refusal is.

## Findings

| source | as written | input that shows it | evidently intended | confidence | as-written member | corrected member |
|---|---|---|---|---|---|---|
| Scripts/RepairToolsConsoleCommands.cs:109-113 | removes the item at index `i` and then increments `i`, so the item that slid into `i` is skipped | an inventory of two items: the second remains | "Delete The Entire Current Inventory" (line 101) | not executed | RepairToolsConsoleCommands.ClearInventoryAsWritten | RepairToolsConsoleCommands.ClearInventory |
| Scripts/RepairToolsConsoleCommands.cs:88-89 | repair amount is ceil(max × ceil(max/10) / 100) | maximum condition 200: adds 40 (20%) | "By 10% Per Use" (line 77): ceil(max/10) | not executed | RepairToolsConsoleCommands.RepairAmountAsWrittenIsNotTenPercent | RepairToolsConsoleCommands.RepairAmount |
| Scripts/RTTextTokenHolder.cs:49 | the pliers' worn-out message is a plain string, so it prints `{itemRepaired.LongName}` | pliers on their last use, any item | the item's name, as in every other message | not executed | RTTextTokenHolder.PliersBrokeMessageIgnoresName | RTTextTokenHolder.ItemRepairLinesDistinguishItems |
| Scripts/RepairTools.cs:156-165 | `RepairEfficiencyRatio` returns `int`: every ratio in (0.5, 1.5) rounds to 1 | any skill and target, e.g. 5 above target: 1.25 becomes 1 | a real ratio that divides the fatigue and time costs (comment, lines 152-155; `float` at AbstractItemRepairTools.cs:210) | not executed | RepairTools.RepairEfficiencyRatioIsOne | RepairTools.RepairEfficiency |
