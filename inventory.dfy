/**
 * The host game's entities as far as the repair tools see them: items with a
 * durability (`currentCondition`) and a stack count, the keyed item
 * collections that hold them, the player, and the charge record the mod keeps
 * per enchanted item. Classification fields the tools only read are `const`.
 */
module Inventory {

  import opened Wrappers

  /** The item groups the tools test for; every other group is `OtherGroup`. */
  datatype ItemGroup = Weapons | Armor | MensClothing | WomensClothing | Paintings | UselessItems2 | OtherGroup

  /** What the host's `GetWeaponSkillID` reports for an item. */
  datatype WeaponSkill = ShortBlade | LongBlade | Axe | BluntWeapon | Archery | OtherSkill

  /** The host's armour material values (`ArmorMaterialTypes`); each band starts at a multiple of 0x100. */
  const LeatherMaterial: int := 0x0000
  const ChainMaterial: int := 0x0100
  const IronMaterial: int := 0x0200
  const DaedricMaterial: int := 0x0209

  /** The host's scale between displayed fatigue points and stored fatigue. */
  const FatigueMultiplier: int := 64

  /** The player's live attributes. */
  datatype Stats = Stats(
    strength: int, intelligence: int, willpower: int, agility: int,
    endurance: int, speed: int, luck: int)

  predicate NonNegative(s: Stats) {
    s.strength >= 0 && s.intelligence >= 0 && s.willpower >= 0 && s.agility >= 0
    && s.endurance >= 0 && s.speed >= 0 && s.luck >= 0
  }

  class Item {
    const templateIndex: int
    const itemGroup: ItemGroup
    const nativeMaterialValue: int
    const weaponSkill: WeaponSkill
    const isEnchanted: bool
    const maxCondition: int
    const longName: string
    var currentCondition: int
    var stackCount: int

    constructor (templateIndex: int, itemGroup: ItemGroup, nativeMaterialValue: int, weaponSkill: WeaponSkill,
                 isEnchanted: bool, maxCondition: int, longName: string, currentCondition: int, stackCount: int)
      ensures this.templateIndex == templateIndex && this.itemGroup == itemGroup
      ensures this.nativeMaterialValue == nativeMaterialValue && this.weaponSkill == weaponSkill
      ensures this.isEnchanted == isEnchanted && this.maxCondition == maxCondition && this.longName == longName
      ensures this.currentCondition == currentCondition && this.stackCount == stackCount
    {
      this.templateIndex := templateIndex;
      this.itemGroup := itemGroup;
      this.nativeMaterialValue := nativeMaterialValue;
      this.weaponSkill := weaponSkill;
      this.isEnchanted := isEnchanted;
      this.maxCondition := maxCondition;
      this.longName := longName;
      this.currentCondition := currentCondition;
      this.stackCount := stackCount;
    }
  }

  /** The host's `ConditionPercentage`: integer percentage of the maximum condition. */
  function ConditionPercentage(item: Item): int
    requires item.maxCondition > 0
    reads item
  {
    CsDiv(100 * item.currentCondition, item.maxCondition)
  }

  /** C#'s `/` on `int`: the quotient truncated toward zero. */
  function CsDiv(a: int, b: int): (q: int)
    requires b > 0
    ensures a >= 0 ==> q * b <= a < q * b + b
    ensures a < 0 ==> q * b - b < a <= q * b
  {
    if a >= 0 then a / b else -((-a) / b)
  }

  predicate Distinct<T(==)>(s: seq<T>) {
    forall i, j :: 0 <= i < j < |s| ==> s[i] != s[j]
  }

  /** `s` with `x` taken out. */
  function Without<T(==)>(s: seq<T>, x: T): (r: seq<T>)
    ensures |r| <= |s|
    ensures forall i :: 0 <= i < |r| ==> r[i] in s && r[i] != x
    ensures forall i :: 0 <= i < |s| && s[i] != x ==> s[i] in r
  {
    if s == [] then []
    else if s[0] == x then Without(s[1..], x)
    else [s[0]] + Without(s[1..], x)
  }

  /** In a sequence without repeats, taking out the element at `i` leaves the rest in order. */
  lemma {:induction false} WithoutAt<T>(s: seq<T>, i: int)
    requires Distinct(s) && 0 <= i < |s|
    ensures Without(s, s[i]) == s[..i] + s[i + 1..]
    decreases |s|
  {
    if i > 0 {
      assert Distinct(s[1..]) by {
        forall a, b | 0 <= a < b < |s[1..]| ensures s[1..][a] != s[1..][b] {
          assert s[1..][a] == s[a + 1] && s[1..][b] == s[b + 1];
        }
      }
      assert s[0] != s[i];
      assert Without(s, s[i]) == [s[0]] + Without(s[1..], s[i]);
      assert s[1..][i - 1] == s[i];
      WithoutAt(s[1..], i - 1);
      assert s[..i] + s[i + 1..] == [s[0]] + (s[1..][..i - 1] + s[1..][i..]);
    } else {
      WithoutAbsent(s[1..], s[0]);
    }
  }

  /** Taking out an element that is not there changes nothing. */
  lemma {:induction false} WithoutAbsent<T>(s: seq<T>, x: T)
    requires x !in s
    ensures Without(s, x) == s
    decreases |s|
  {
    if s != [] {
      assert s == [s[0]] + s[1..];
      WithoutAbsent(s[1..], x);
    }
  }

  /** The host's `ItemCollection`: items keyed by identity, enumerated in order. */
  class ItemCollection {
    var items: seq<Item>

    ghost predicate Valid()
      reads this
    {
      Distinct(items)
    }

    constructor (items: seq<Item>)
      ensures this.items == items
    {
      this.items := items;
    }

    function Count(): nat
      reads this
    {
      |items|
    }

    function GetItem(i: nat): Item
      requires i < |items|
      reads this
    {
      items[i]
    }

    /** `RemoveItem`: the collection no longer holds `x`; removing an absent item changes nothing. */
    method RemoveItem(x: Item)
      modifies this`items
      ensures items == Without(old(items), x)
    {
      items := Without(items, x);
    }
  }

  class Player {
    const level: int
    const stats: Stats
    const careerName: string
    const items: ItemCollection
    var currentFatigue: int

    constructor (level: int, stats: Stats, careerName: string, items: ItemCollection, currentFatigue: int)
      ensures this.level == level && this.stats == stats && this.careerName == careerName
      ensures this.items == items && this.currentFatigue == currentFatigue
    {
      this.level := level;
      this.stats := stats;
      this.careerName := careerName;
      this.items := items;
      this.currentFatigue := currentFatigue;
    }
  }

  /** The host's text-token formattings the mod uses or produces. */
  datatype Formatting = Text | JustifyCenter | NewLine | EndOfRecord | OtherFormatting

  /** A host text token: a formatting, and a text that may be null (`None`). */
  datatype Token = Token(formatting: Formatting, text: Option<string>)

  /**
   * The host's `CreateTokens(formatting, lines)`: each line as a `Text`
   * token followed by a `formatting` token, then an end-of-record token.
   */
  function CreateTokens(formatting: Formatting, lines: seq<string>): (r: seq<Token>)
    ensures |r| == 2 * |lines| + 1 && r[|r| - 1] == Token(EndOfRecord, None)
    ensures forall k :: 0 <= k < |lines| ==> r[2 * k] == Token(Text, Some(lines[k])) && r[2 * k + 1] == Token(formatting, None)
  {
    if lines == [] then [Token(EndOfRecord, None)]
    else [Token(Text, Some(lines[0])), Token(formatting, None)] + CreateTokens(formatting, lines[1..])
  }

  /** The moments at which the host invokes an enchantment's payload callback. */
  datatype PayloadFlags = Equipped | MagicRound | RerollEffect | Used | Strikes | OtherFlag

  /** An enchantment's parameter: a classic spell id, or a custom effect key (`""` when none). */
  datatype EnchantmentParam = EnchantmentParam(classicParam: int, customParam: string)

  /** `string.IsNullOrEmpty` on the custom key; a null key is modelled as `""`. */
  predicate HasCustomParam(p: EnchantmentParam) {
    |p.customParam| > 0
  }

  /** The charge record the mod keeps per enchanted item. */
  class ItemProperties {
    var currentCharge: int
    var maxCharge: int

    constructor (currentCharge: int, maxCharge: int)
      ensures this.currentCharge == currentCharge && this.maxCharge == maxCharge
    {
      this.currentCharge := currentCharge;
      this.maxCharge := maxCharge;
    }
  }
}
