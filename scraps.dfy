/** The four kinds of crafting scraps a repair consumes, and a repair's cost in them. */
module Scraps {

  import opened Wrappers
  import opened Inventory

  datatype ScrapsType = Metal | Cloth | Wood | Soul {

    /** The item group of this kind's stack items. */
    function GetItemGroups(): (g: ItemGroup)
      ensures g == UselessItems2
    {
      match this
      case Metal => UselessItems2
      case Cloth => UselessItems2
      case Wood => UselessItems2
      case Soul => UselessItems2
    }

    /** The template index of this kind's stack items: one of 810 to 813. */
    function GetTemplateIndex(): (t: int)
      ensures 810 <= t <= 813
      ensures ScrapsTypeOfTemplate(t) == Some(this)
    {
      match this
      case Metal => 810
      case Cloth => 811
      case Wood => 812
      case Soul => 813
    }

    /** The name shown in the "not enough resources" message. */
    function GetLongName(): string
    {
      match this
      case Metal => "Metal Scraps"
      case Cloth => "Cloth Scraps"
      case Wood => "Wood Scraps"
      case Soul => "Soul Crystals"
    }

    /** The enum's own name, as string interpolation prints it. */
    function Name(): string
    {
      match this
      case Metal => "Metal"
      case Cloth => "Cloth"
      case Wood => "Wood"
      case Soul => "Soul"
    }
  }

  /** The inverse of `GetTemplateIndex`: which kind, if any, a template index belongs to. */
  function ScrapsTypeOfTemplate(t: int): (r: Option<ScrapsType>)
    ensures r.Some? <==> 810 <= t <= 813
  {
    if t == 810 then Some(Metal)
    else if t == 811 then Some(Cloth)
    else if t == 812 then Some(Wood)
    else if t == 813 then Some(Soul)
    else None
  }

  /** Distinct kinds are stored as distinct items, so they never draw on the same stack. */
  lemma TemplateIndexInjective(a: ScrapsType, b: ScrapsType)
    requires a.GetTemplateIndex() == b.GetTemplateIndex()
    ensures a == b
  {
    assert ScrapsTypeOfTemplate(a.GetTemplateIndex()) == Some(a);
  }

  datatype ScrapsCost = ScrapsCost(scrapsType: ScrapsType, count: int)

  /** A cost schedule every tool keeps to: one or two entries, positive counts, no kind twice. */
  predicate WellFormedCosts(costs: seq<ScrapsCost>) {
    && 1 <= |costs| <= 2
    && (forall i :: 0 <= i < |costs| ==> costs[i].count > 0)
    && (forall i, j :: 0 <= i < j < |costs| ==> costs[i].scrapsType != costs[j].scrapsType)
  }
}
