/**
 * The message shown after a successful repair: one line naming the repaired
 * item, or, when the tool wore out with this use, that line, an empty line
 * and two lines about discarding the tool. Unknown tool ids get a single
 * "Text Token Not Found" line. The item is passed as its long name.
 */
module RTTextTokenHolder {

  import opened Wrappers
  import opened Inventory
  import opened TextUtil

  /** The interpolation hole left in a plain (non-interpolated) string literal. */
  const Placeholder: string := "{itemRepaired.LongName}"

  /** The line a message shows for an id no tool has. */
  const NotFoundLine: string := "Text Token Not Found"

  /** The words of tool `tokenId`'s opening line before the item's name. */
  function OpeningPrefix(tokenId: nat, toolBroke: bool): string
    requires 800 <= tokenId <= 805
  {
    match tokenId
    case 800 => if toolBroke then "You sharpen the blade of your " else "You sharpen your the blade of your "
    case 801 => "You sew together cuts and loose seams in your "
    case 802 => "You flatten and reshape dings and dents in your "
    case 803 => "You bend together broken links and close gaps in your "
    case 804 => "You glue and reinforce splits and cracks in the frame of your "
    case _ => "You sprinkle the strange powder on your "
  }

  /** The words of tool `tokenId`'s opening line after the item's name. */
  function OpeningSuffix(tokenId: nat): string
    requires 800 <= tokenId <= 805
  {
    if tokenId == 805 then ". It surges with energy." else "."
  }

  /** The opening line about the item named `name`, with the name interpolated. */
  function OpeningLine(tokenId: nat, toolBroke: bool, name: string): string
    requires 800 <= tokenId <= 805
  {
    OpeningPrefix(tokenId, toolBroke) + name + OpeningSuffix(tokenId)
  }

  /** The two lines about the worn-out tool. */
  function DiscardLines(tokenId: nat): (r: seq<string>)
    requires 800 <= tokenId <= 805
    ensures |r| == 2
  {
    match tokenId
    case 800 => ["The Whetstone has too much wear for further use,", "you discard it."]
    case 801 => ["The Sewing Kit spool has ran out of thread,", "you throw it away."]
    case 802 => ["The Armorers Hammer handle snaps near the sledge and breaks down completely,", "you toss it to your side."]
    case 803 => ["The Jewelers Pliers break off at the pivot point.", "You discard them."]
    case 804 => ["The Epoxy Glue bottle has run empty,", "you throw the container away."]
    case _ => ["The Charging Powder bag has gone empty,", "you toss the empty container away"]
  }

  /**
   * The lines of `ItemRepairTextTokens` as written. The pliers' worn-out
   * message is a plain string literal, not an interpolated one, so it shows
   * the placeholder `{itemRepaired.LongName}` instead of the item's name.
   */
  function ItemRepairLinesAsWritten(tokenId: nat, toolBroke: bool, name: string): (r: seq<string>)
    ensures !(tokenId == 803 && toolBroke) ==> r == ItemRepairLines(tokenId, toolBroke, name)
    ensures tokenId == 803 && toolBroke ==>
      r == [OpeningPrefix(803, true) + Placeholder + "."] + ItemRepairLines(tokenId, toolBroke, name)[1..]
  {
    if tokenId == 803 && toolBroke then
      [OpeningPrefix(803, true) + Placeholder + ".", ""] + DiscardLines(803)
    else if !(800 <= tokenId <= 805) then [NotFoundLine]
    else if toolBroke then [OpeningLine(tokenId, toolBroke, name), ""] + DiscardLines(tokenId)
    else [OpeningLine(tokenId, toolBroke, name)]
  }

  /** The pliers' worn-out message is the same whatever item was repaired: the name never reaches it. */
  lemma PliersBrokeMessageIgnoresName(a: string, b: string)
    ensures ItemRepairLinesAsWritten(803, true, a) == ItemRepairLinesAsWritten(803, true, b)
    ensures OccursAt(ItemRepairLinesAsWritten(803, true, a)[0], Placeholder, |OpeningPrefix(803, true)|)
  {
    NameOccurs(OpeningPrefix(803, true), Placeholder, ".");
  }

  /**
   * The lines the message is meant to hold: the opening line names the
   * repaired item, followed, when the tool wore out, by an empty line and
   * the two discard lines. Unknown ids give the single not-found line.
   */
  function ItemRepairLines(tokenId: nat, toolBroke: bool, name: string): (r: seq<string>)
    ensures !(800 <= tokenId <= 805) ==> r == [NotFoundLine]
    ensures 800 <= tokenId <= 805 && !toolBroke ==> |r| == 1
    ensures 800 <= tokenId <= 805 && toolBroke ==> |r| == 4 && r[1] == "" && r[2..] == DiscardLines(tokenId)
    ensures 800 <= tokenId <= 805 ==> r[0] == OpeningLine(tokenId, toolBroke, name)
  {
    if !(800 <= tokenId <= 805) then [NotFoundLine]
    else if toolBroke then [OpeningLine(tokenId, toolBroke, name), ""] + DiscardLines(tokenId)
    else [OpeningLine(tokenId, toolBroke, name)]
  }

  /** A name placed between two strings occurs right after the first. */
  lemma NameOccurs(prefix: string, name: string, suffix: string)
    ensures OccursAt(prefix + name + suffix, name, |prefix|)
  {
    assert (prefix + name + suffix)[|prefix|..|prefix| + |name|] == name;
  }

  /** Every known tool's opening line contains the repaired item's name. */
  lemma OpeningLineNamesItem(tokenId: nat, toolBroke: bool, name: string)
    requires 800 <= tokenId <= 805
    ensures OccursAt(OpeningLine(tokenId, toolBroke, name), name, |OpeningPrefix(tokenId, toolBroke)|)
  {
    NameOccurs(OpeningPrefix(tokenId, toolBroke), name, OpeningSuffix(tokenId));
  }

  /** Different items give different messages: the message tells which item was repaired. */
  lemma ItemRepairLinesDistinguishItems(tokenId: nat, toolBroke: bool, a: string, b: string)
    requires 800 <= tokenId <= 805 && a != b
    ensures ItemRepairLines(tokenId, toolBroke, a) != ItemRepairLines(tokenId, toolBroke, b)
  {
    var prefix, suffix := OpeningPrefix(tokenId, toolBroke), OpeningSuffix(tokenId);
    if OpeningLine(tokenId, toolBroke, a) == OpeningLine(tokenId, toolBroke, b) {
      assert |a| == |b|;
      NameOccurs(prefix, a, suffix);
      NameOccurs(prefix, b, suffix);
    }
  }

  /**
   * `ItemRepairTextTokens`: the lines as written laid out as centred host
   * tokens, so the pliers' worn-out message carries the placeholder.
   */
  function ItemRepairTextTokens(tokenId: nat, toolBroke: bool, name: string): (r: seq<Token>)
    ensures |r| == 2 * |ItemRepairLinesAsWritten(tokenId, toolBroke, name)| + 1
    ensures forall k :: 0 <= k < |ItemRepairLinesAsWritten(tokenId, toolBroke, name)| ==>
      r[2 * k] == Token(Text, Some(ItemRepairLinesAsWritten(tokenId, toolBroke, name)[k]))
      && r[2 * k + 1] == Token(JustifyCenter, None)
  {
    CreateTokens(JustifyCenter, ItemRepairLinesAsWritten(tokenId, toolBroke, name))
  }

  /**
   * Apart from the pliers' worn-out message, the tokens show the intended
   * lines; that message's first text token holds the placeholder, whatever
   * item was repaired.
   */
  lemma ItemRepairTextTokensAgainstIntended(tokenId: nat, toolBroke: bool, name: string)
    ensures !(tokenId == 803 && toolBroke) ==>
      ItemRepairTextTokens(tokenId, toolBroke, name) == CreateTokens(JustifyCenter, ItemRepairLines(tokenId, toolBroke, name))
    ensures tokenId == 803 && toolBroke ==>
      ItemRepairTextTokens(tokenId, toolBroke, name)[0] == Token(Text, Some(OpeningPrefix(803, true) + Placeholder + "."))
  {
    if tokenId == 803 && toolBroke {
      assert ItemRepairLinesAsWritten(tokenId, toolBroke, name)[0] == OpeningPrefix(803, true) + Placeholder + ".";
    }
  }
}
