/** `Component.NameBlock` and `EndBlock` (src/Blocks/Structural/Component.py):
    the header `COMPONENT name IS`, the declarative region and the closing
    `END [COMPONENT] [name];` of a component declaration (section 6.8 of
    IEEE 1076-2008). The states follow the older entity states token for
    token; a component has no statement region, so BEGIN is not accepted. */
module Component {
  import opened Results
  import opened Tokens
  import opened Blocks
  import opened Handlers
  import opened Engine
  import opened Effects
  import opened Moves
  import opened CharMoves

  const NameBlock := "Component.NameBlock"
  const EndBlock := "Component.EndBlock"

  /** The declarations of the declarative region and the handler each pushes. */
  const Declarations: Table := [
    ("generic", OldGenericKeyword),
    ("port", Opaque("PortList.OpenBlock.statePortKeyword"))
  ]

  /** END leaves the declarative region for the end block. */
  const Ends: Table := [("end", ComponentEndKeyword)]

  // ---------------------------------------------------------------------------
  // NameBlock

  /** `stateComponentKeyword`: whitespace must follow COMPONENT. */
  method Keyword(s: ParserState) returns (r: Outcome)
    requires Ready(s)
    ensures WordEnded(s, r, NameBlock, ComponentWhitespace1, ComponentWhitespace1, Included, true, true, UnexpectedToken)
  {
    r := EndWord(s, NameBlock, ComponentWhitespace1, ComponentWhitespace1, Included, true, true, UnexpectedToken);
  }

  /** `stateWhitespace1`: a word is the component's name; besides it only a
      comment start is accepted. */
  method Whitespace1(s: ParserState) returns (r: Outcome)
    requires Ready(s)
    ensures r.Success? ==> Evolves(s, r.value)
    ensures Tok(s).kind == StringTok ==>
      r.Success? && Moved(s, r.value, ComponentName) && Retagged(s, r.value, IdentifierTok) &&
      NoBlock(s, r.value) && r.value.marker == s.marker
    ensures Tok(s).kind != StringTok ==> GapFilled(s, r, NameBlock, false, UnexpectedToken)
  {
    if Tok(s).kind == StringTok {
      var t := RetagTo(s, IdentifierTok, ComponentName);
      r := Success(t);
    } else {
      r := Between(s, NameBlock, false, UnexpectedToken);
    }
  }

  /** `stateComponentName`: whitespace must follow the name. */
  method Name(s: ParserState) returns (r: Outcome)
    requires Ready(s)
    ensures WordEnded(s, r, NameBlock, ComponentWhitespace2, ComponentWhitespace2, Included, false, true, UnexpectedToken)
  {
    r := EndWord(s, NameBlock, ComponentWhitespace2, ComponentWhitespace2, Included, false, true, UnexpectedToken);
  }

  /** `stateWhitespace2`: IS closes the header as one block from the marker
      through IS and enters the declarative region. */
  method Whitespace2(s: ParserState) returns (r: Outcome)
    requires Ready(s)
    ensures r.Success? ==> Evolves(s, r.value)
    ensures IsWord(s, "is") ==>
      r.Success? && Moved(s, r.value, ComponentDeclarativeRegion) &&
      EndedWith(s, r.value, KeywordTok("is"), NameBlock) && r.value.marker == Rebased(s)
    ensures !IsWord(s, "is") ==> GapFilled(s, r, NameBlock, false, UnexpectedToken)
  {
    if IsWord(s, "is") {
      var t := ThroughTo(s, KeywordTok("is"), NameBlock, ComponentDeclarativeRegion);
      r := Success(t);
    } else {
      r := Between(s, NameBlock, false, UnexpectedToken);
    }
  }

  /** `stateDeclarativeRegion`: a line break becomes an empty-line block
      that marks the start of the next clause; END moves on to the end
      block. */
  method DeclarativeRegion(s: ParserState) returns (r: Outcome)
    requires Ready(s)
    ensures CharRegionEffect(s, r, EmptyLineBlk, true, Declarations, Ends, None)
  {
    r := CharRegion(s, EmptyLineBlk, true, Declarations, Ends, None);
  }

  // ---------------------------------------------------------------------------
  // EndBlock

  /** `EndBlock.stateEndKeyword`. */
  method EndKeyword(s: ParserState) returns (r: Outcome)
    requires Ready(s)
    ensures r.Success? ==> Evolves(s, r.value)
    ensures IsSemicolon(s) ==> Closed(s, r, EndBlock)
    ensures !IsSemicolon(s) ==>
      WordEnded(s, r, EndBlock, ComponentEndWhitespace1, ComponentEndWhitespace1, Included, true, true, UnexpectedToken)
  {
    if IsSemicolon(s) {
      r := ThroughAndPop(s, EndTok, EndBlock, 1);
    } else {
      r := EndWord(s, EndBlock, ComponentEndWhitespace1, ComponentEndWhitespace1, Included, true, true, UnexpectedToken);
    }
  }

  /** `EndBlock.stateWhitespace1`: COMPONENT or the component's name. */
  method EndWhitespace1(s: ParserState) returns (r: Outcome)
    requires Ready(s)
    ensures r.Success? ==> Evolves(s, r.value)
    ensures IsSemicolon(s) ==> Closed(s, r, EndBlock)
    ensures IsWord(s, "component") ==>
      r.Success? && Moved(s, r.value, ComponentEndComponentKeyword) &&
      Retagged(s, r.value, KeywordTok("component")) && NoBlock(s, r.value) && r.value.marker == s.marker
    ensures Tok(s).kind == StringTok && !IsWord(s, "component") ==>
      r.Success? && Moved(s, r.value, ComponentEndComponentName) &&
      Retagged(s, r.value, IdentifierTok) && NoBlock(s, r.value) && r.value.marker == s.marker
    ensures !IsSemicolon(s) && Tok(s).kind != StringTok ==> GapFilled(s, r, EndBlock, false, UnexpectedToken)
  {
    if IsSemicolon(s) {
      r := ThroughAndPop(s, EndTok, EndBlock, 1);
    } else if IsWord(s, "component") {
      var t := RetagTo(s, KeywordTok("component"), ComponentEndComponentKeyword);
      r := Success(t);
    } else if Tok(s).kind == StringTok {
      var t := RetagTo(s, IdentifierTok, ComponentEndComponentName);
      r := Success(t);
    } else {
      r := Between(s, EndBlock, false, UnexpectedToken);
    }
  }

  /** `EndBlock.stateComponentKeyword`: a line break or a comment start comes
      back to `stateWhitespace1`, whitespace moves on to `stateWhitespace2`. */
  method EndComponentKeyword(s: ParserState) returns (r: Outcome)
    requires Ready(s)
    ensures r.Success? ==> Evolves(s, r.value)
    ensures IsSemicolon(s) ==> Closed(s, r, EndBlock)
    ensures !IsSemicolon(s) ==>
      WordEnded(s, r, EndBlock, ComponentEndWhitespace1, ComponentEndWhitespace2, Included, true, true, UnexpectedToken)
  {
    if IsSemicolon(s) {
      r := ThroughAndPop(s, EndTok, EndBlock, 1);
    } else {
      r := EndWord(s, EndBlock, ComponentEndWhitespace1, ComponentEndWhitespace2, Included, true, true, UnexpectedToken);
    }
  }

  /** `EndBlock.stateWhitespace2`: the component's name. */
  method EndWhitespace2(s: ParserState) returns (r: Outcome)
    requires Ready(s)
    ensures r.Success? ==> Evolves(s, r.value)
    ensures IsSemicolon(s) ==> Closed(s, r, EndBlock)
    ensures Tok(s).kind == StringTok ==>
      r.Success? && Moved(s, r.value, ComponentEndComponentName) &&
      Retagged(s, r.value, IdentifierTok) && NoBlock(s, r.value) && r.value.marker == s.marker
    ensures !IsSemicolon(s) && Tok(s).kind != StringTok ==> GapFilled(s, r, EndBlock, false, UnexpectedToken)
  {
    if IsSemicolon(s) {
      r := ThroughAndPop(s, EndTok, EndBlock, 1);
    } else if Tok(s).kind == StringTok {
      var t := RetagTo(s, IdentifierTok, ComponentEndComponentName);
      r := Success(t);
    } else {
      r := Between(s, EndBlock, false, UnexpectedToken);
    }
  }

  /** `EndBlock.stateComponentName`: whitespace moves on unretagged; the state
      has no final raise, so a token it does not handle changes nothing. */
  method EndComponentName(s: ParserState) returns (r: Outcome)
    requires Ready(s)
    ensures r.Success? ==> Evolves(s, r.value)
    ensures IsSemicolon(s) ==> Closed(s, r, EndBlock)
    ensures !IsSemicolon(s) ==>
      WordEnded(s, r, EndBlock, ComponentEndWhitespace2, ComponentEndWhitespace3, Included, false, false, UnexpectedToken)
  {
    if IsSemicolon(s) {
      r := ThroughAndPop(s, EndTok, EndBlock, 1);
    } else {
      r := EndWord(s, EndBlock, ComponentEndWhitespace2, ComponentEndWhitespace3, Included, false, false, UnexpectedToken);
    }
  }

  /** `EndBlock.stateWhitespace3`: only `";"` or a comment may follow. */
  method EndWhitespace3(s: ParserState) returns (r: Outcome)
    requires Ready(s)
    ensures r.Success? ==> Evolves(s, r.value)
    ensures IsSemicolon(s) ==> Closed(s, r, EndBlock)
    ensures !IsSemicolon(s) ==> GapFilled(s, r, EndBlock, false, UnexpectedToken)
  {
    if IsSemicolon(s) {
      r := ThroughAndPop(s, EndTok, EndBlock, 1);
    } else {
      r := Between(s, EndBlock, false, UnexpectedToken);
    }
  }
}
