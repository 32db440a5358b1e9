/**
 * The mod's inventory window: the item info tokens gain a "Charge: c / m"
 * line below the condition line for items with a charge record, the info
 * panel turns centred lines into plain new lines and swaps unit texts, and
 * a painting's panel keeps only its trimmed title.
 *
 * The host's info tokens arrive as a sequence of `Token`s; macro expansion
 * is the host's, so the panel functions take the tokens after it.
 */
module RepairToolsInventoryWindow {

  import opened Wrappers
  import opened Inventory
  import opened TextUtil

  /** Why the info tokens could not be built: each is an exception in the source. */
  datatype InfoError =
    | NullTokenText   // a token before the condition line has no text
    | NoConditionLine // no token text starts with "Condition"
    | InsertPastEnd   // the condition line is the last token
    | NoTokens        // a painting's token list is empty

  /** Whether a token's text starts with "Condition" (an ordinal prefix test). */
  predicate IsConditionLine(t: Token) {
    t.text.Some? && "Condition" <= t.text.value
  }

  /**
   * The index of the first condition line at or after `from`, scanning in
   * order: a token without text reached first stops the scan with an error.
   */
  function FindConditionIndexFrom(tokens: seq<Token>, from: nat): (r: Result<nat, InfoError>)
    requires from <= |tokens|
    ensures r.Ok? ==>
      (from <= r.value < |tokens| && IsConditionLine(tokens[r.value])
       && forall j :: from <= j < r.value ==> tokens[j].text.Some? && !IsConditionLine(tokens[j]))
    ensures r == Err(NoConditionLine) ==>
      forall j :: from <= j < |tokens| ==> tokens[j].text.Some? && !IsConditionLine(tokens[j])
    ensures r.Err? ==> r.error == NoConditionLine || r.error == NullTokenText
    ensures r == Err(NullTokenText) ==>
      exists k :: from <= k < |tokens| && tokens[k].text.None?
        && forall j :: from <= j < k ==> tokens[j].text.Some? && !IsConditionLine(tokens[j])
    decreases |tokens| - from
  {
    if from == |tokens| then Err(NoConditionLine)
    else if tokens[from].text.None? then Err(NullTokenText)
    else if IsConditionLine(tokens[from]) then Ok(from)
    else FindConditionIndexFrom(tokens, from + 1)
  }

  /** `First(token.text.StartsWith("Condition")).Index` over the whole list. */
  function FindConditionIndex(tokens: seq<Token>): (r: Result<nat, InfoError>)
  {
    FindConditionIndexFrom(tokens, 0)
  }

  /** The inserted line's text. */
  function ChargeText(currentCharge: int, maxCharge: int): string {
    "Charge: " + IntToString(currentCharge) + " / " + IntToString(maxCharge)
  }

  /** The tokens inserted for the charge line: the text, a centring token, and the end of record. */
  function ChargeTokens(currentCharge: int, maxCharge: int): (r: seq<Token>)
    ensures r == [Token(Text, Some(ChargeText(currentCharge, maxCharge))), Token(JustifyCenter, None), Token(EndOfRecord, None)]
  {
    CreateTokens(JustifyCenter, [ChargeText(currentCharge, maxCharge)])
  }

  /**
   * `ModifyItemInfoTokens`: without a positive maximum charge the tokens
   * come back unchanged; otherwise the charge tokens go in two places after
   * the first condition line (after its text and its formatting token).
   */
  function ModifyItemInfoTokens(tokens: seq<Token>, currentCharge: int, maxCharge: int): (r: Result<seq<Token>, InfoError>)
    ensures maxCharge <= 0 ==> r == Ok(tokens)
    ensures r.Err? <==>
      (maxCharge > 0 && (FindConditionIndex(tokens).Err? || FindConditionIndex(tokens).value + 2 > |tokens|))
    ensures r.Err? && FindConditionIndex(tokens).Err? ==> r.error == FindConditionIndex(tokens).error
    ensures maxCharge > 0 && r.Ok? ==>
      var i := FindConditionIndex(tokens).value + 2;
      |r.value| == |tokens| + |ChargeTokens(currentCharge, maxCharge)|
      && r.value[..i] == tokens[..i]
      && r.value[i..i + 3] == ChargeTokens(currentCharge, maxCharge)
      && r.value[i + 3..] == tokens[i..]
  {
    if maxCharge <= 0 then Ok(tokens)
    else
      match FindConditionIndex(tokens)
      case Err(e) => Err(e)
      case Ok(conditionIndex) =>
        if conditionIndex + 2 > |tokens| then Err(InsertPastEnd)
        else
          var i := conditionIndex + 2;
          Ok(tokens[..i] + ChargeTokens(currentCharge, maxCharge) + tokens[i..])
  }

  /**
   * Taking the three charge tokens back out of the result gives the input:
   * every original token survives, in its original order, and the
   * condition line still sits at its index with the charge line after it.
   */
  lemma ModifyItemInfoTokensKeepsOriginal(tokens: seq<Token>, currentCharge: int, maxCharge: int)
    requires maxCharge > 0 && ModifyItemInfoTokens(tokens, currentCharge, maxCharge).Ok?
    ensures var r := ModifyItemInfoTokens(tokens, currentCharge, maxCharge).value;
      var c := FindConditionIndex(tokens).value;
      r[..c + 2] + r[c + 5..] == tokens
      && IsConditionLine(r[c])
      && r[c + 2].text == Some(ChargeText(currentCharge, maxCharge))
  {
    var r := ModifyItemInfoTokens(tokens, currentCharge, maxCharge).value;
    var c := FindConditionIndex(tokens).value;
    assert r[..c + 2] == tokens[..c + 2];
    assert r[c + 5..] == tokens[c + 2..];
    assert tokens[..c + 2] + tokens[c + 2..] == tokens;
    assert r[c] == r[..c + 2][c];
    assert r[c + 2] == r[c + 2..c + 5][0];
  }

  /** The unit texts the panel swaps: each source text (never empty) and its replacement. */
  datatype Replacements = Replacements(kgSrc: string, kgRep: string, damSrc: string, damRep: string,
                                       arSrc: string, arRep: string)

  predicate ValidReplacements(reps: Replacements) {
    |reps.kgSrc| > 0 && |reps.damSrc| > 0 && |reps.arSrc| > 0
  }

  /** A text after the three unit replacements, in the order weight, damage, armour. */
  function ReplaceUnits(s: string, reps: Replacements): string
    requires ValidReplacements(reps)
  {
    ReplaceAll(ReplaceAll(ReplaceAll(s, reps.kgSrc, reps.kgRep), reps.damSrc, reps.damRep), reps.arSrc, reps.arRep)
  }

  /** A text with none of the unit texts in it reads the same after the replacements. */
  lemma ReplaceUnitsAbsent(s: string, reps: Replacements)
    requires ValidReplacements(reps)
    requires !Occurs(s, reps.kgSrc) && !Occurs(s, reps.damSrc) && !Occurs(s, reps.arSrc)
    ensures ReplaceUnits(s, reps) == s
  {
    ReplaceAllAbsent(s, reps.kgSrc, reps.kgRep);
    ReplaceAllAbsent(s, reps.damSrc, reps.damRep);
    ReplaceAllAbsent(s, reps.arSrc, reps.arRep);
  }

  /**
   * One token as the panel shows it: a centring token becomes a new line,
   * every other formatting stays, a missing text stays missing and a text
   * gets its units replaced.
   */
  function RewriteToken(t: Token, reps: Replacements): (r: Token)
    requires ValidReplacements(reps)
    ensures r.formatting != JustifyCenter
    ensures t.formatting != JustifyCenter ==> r.formatting == t.formatting
    ensures r.text.None? <==> t.text.None?
    ensures t.text.Some? ==> r.text.value == ReplaceUnits(t.text.value, reps)
  {
    var formatting := if t.formatting == JustifyCenter then NewLine else t.formatting;
    var text := if t.text.Some? then Some(ReplaceUnits(t.text.value, reps)) else None;
    Token(formatting, text)
  }

  /** The rewrite loop of `UpdateItemInfoPanel(TextFile.Token[])`, on the token array in place. */
  method UpdateItemInfoPanelTokens(tokens: array<Token>, reps: Replacements)
    requires ValidReplacements(reps)
    modifies tokens
    ensures forall i :: 0 <= i < tokens.Length ==> tokens[i] == RewriteToken(old(tokens[i]), reps)
  {
    for tokenIdx := 0 to tokens.Length
      invariant forall i :: 0 <= i < tokenIdx ==> tokens[i] == RewriteToken(old(tokens[i]), reps)
      invariant forall i :: tokenIdx <= i < tokens.Length ==> tokens[i] == old(tokens[i])
    {
      if tokens[tokenIdx].formatting == JustifyCenter {
        tokens[tokenIdx] := tokens[tokenIdx].(formatting := NewLine);
      }
      if tokens[tokenIdx].text.Some? {
        tokens[tokenIdx] := tokens[tokenIdx].(text := Some(ReplaceUnits(tokens[tokenIdx].text.value, reps)));
      }
    }
  }

  /**
   * A painting's panel: one text token holding the last token's trimmed
   * text. An empty list or a last token without text is an exception.
   */
  function PaintingTokens(tokens: seq<Token>): (r: Result<seq<Token>, InfoError>)
    ensures r.Ok? <==> |tokens| > 0 && tokens[|tokens| - 1].text.Some?
    ensures r.Ok? ==>
      (|r.value| == 1 && r.value[0].formatting == Text && r.value[0].text.Some?
       && r.value[0].text.value == Trim(tokens[|tokens| - 1].text.value))
  {
    if |tokens| == 0 then Err(NoTokens)
    else if tokens[|tokens| - 1].text.None? then Err(NullTokenText)
    else Ok([Token(Text, Some(Trim(tokens[|tokens| - 1].text.value)))])
  }

  /** The panel title is already trimmed: building a painting's panel from its own panel changes nothing. */
  lemma PaintingTokensIdempotent(tokens: seq<Token>)
    requires PaintingTokens(tokens).Ok?
    ensures PaintingTokens(PaintingTokens(tokens).value) == PaintingTokens(tokens)
  {
    TrimIdempotent(tokens[|tokens| - 1].text.value);
  }

  /** The tokens `UpdateItemInfoPanel(item)` passes on, from the tokens after macro expansion. */
  function PanelTokens(expanded: seq<Token>, group: ItemGroup): (r: Result<seq<Token>, InfoError>)
    ensures group != Paintings ==> r == Ok(expanded)
    ensures group == Paintings ==> r == PaintingTokens(expanded)
  {
    if group == Paintings then PaintingTokens(expanded) else Ok(expanded)
  }
}
