/** `Entity.NameBlock`, `BeginBlock` and `EndBlock` of the older generation
    (src/Blocks/Structural/Entity.py): the header `ENTITY name IS`, the
    declarative region, the statement region and the closing
    `END [ENTITY] [name];` of an entity declaration (section 3.2 of IEEE
    1076-2008). Like the architecture states these read single characters;
    unlike them, a line break after a word ends the clause through the
    line break's replacement, and the whitespace states between two words
    accept only a comment start besides the word they wait for. */
module LegacyEntity {
  import opened Results
  import opened Tokens
  import opened Blocks
  import opened Handlers
  import opened Engine
  import opened Effects
  import opened Moves
  import opened CharMoves

  const NameBlock := "Entity.NameBlock"
  const BeginBlock := "Entity.BeginBlock"
  const EndBlock := "Entity.EndBlock"

  /** The declarations of the declarative region and the handler each pushes. */
  const Declarations: Table := [
    ("generic", OldGenericKeyword),
    ("port", Opaque("PortList.OpenBlock.statePortKeyword")),
    ("constant", Opaque("ObjectDeclaration.ConstantBlock.stateConstantKeyword"))
  ]

  /** The statements of the statement region and the handler each pushes. */
  const Statements: Table := [("process", Opaque("Process.OpenBlock.stateProcessKeyword"))]

  /** END leaves either region for the end block. */
  const Ends: Table := [("end", OldEntityEndKeyword)]

  // ---------------------------------------------------------------------------
  // NameBlock

  /** `stateEntityKeyword`: whitespace must follow ENTITY. */
  method Keyword(s: ParserState) returns (r: Outcome)
    requires Ready(s)
    ensures WordEnded(s, r, NameBlock, OldEntityWhitespace1, OldEntityWhitespace1, Included, true, true, UnexpectedToken)
  {
    r := EndWord(s, NameBlock, OldEntityWhitespace1, OldEntityWhitespace1, Included, true, true, UnexpectedToken);
  }

  /** `stateWhitespace1`: a word is the entity's name; besides it only a
      comment start is accepted. */
  method Whitespace1(s: ParserState) returns (r: Outcome)
    requires Ready(s)
    ensures r.Success? ==> Evolves(s, r.value)
    ensures Tok(s).kind == StringTok ==>
      r.Success? && Moved(s, r.value, OldEntityName) && Retagged(s, r.value, IdentifierTok) &&
      NoBlock(s, r.value) && r.value.marker == s.marker
    ensures Tok(s).kind != StringTok ==> GapFilled(s, r, NameBlock, false, UnexpectedToken)
  {
    if Tok(s).kind == StringTok {
      var t := RetagTo(s, IdentifierTok, OldEntityName);
      r := Success(t);
    } else {
      r := Between(s, NameBlock, false, UnexpectedToken);
    }
  }

  /** `stateEntityName`: whitespace must follow the name. */
  method Name(s: ParserState) returns (r: Outcome)
    requires Ready(s)
    ensures WordEnded(s, r, NameBlock, OldEntityWhitespace2, OldEntityWhitespace2, Included, false, true, UnexpectedToken)
  {
    r := EndWord(s, NameBlock, OldEntityWhitespace2, OldEntityWhitespace2, Included, false, true, UnexpectedToken);
  }

  /** `stateWhitespace2`: IS closes the header as one block from the marker
      through IS and enters the declarative region. */
  method Whitespace2(s: ParserState) returns (r: Outcome)
    requires Ready(s)
    ensures r.Success? ==> Evolves(s, r.value)
    ensures IsWord(s, "is") ==>
      r.Success? && Moved(s, r.value, OldEntityDeclarativeRegion) &&
      EndedWith(s, r.value, KeywordTok("is"), NameBlock) && r.value.marker == Rebased(s)
    ensures !IsWord(s, "is") ==> GapFilled(s, r, NameBlock, false, UnexpectedToken)
  {
    if IsWord(s, "is") {
      var t := ThroughTo(s, KeywordTok("is"), NameBlock, OldEntityDeclarativeRegion);
      r := Success(t);
    } else {
      r := Between(s, NameBlock, false, UnexpectedToken);
    }
  }

  /** `stateDeclarativeRegion`: a line break becomes an empty-line block
      that marks the start of the next clause; BEGIN opens the statement
      region. */
  method DeclarativeRegion(s: ParserState) returns (r: Outcome)
    requires Ready(s)
    ensures CharRegionEffect(s, r, EmptyLineBlk, true, Declarations, Ends, Some((BeginBlock, OldEntityBeginKeyword)))
  {
    r := CharRegion(s, EmptyLineBlk, true, Declarations, Ends, Some((BeginBlock, OldEntityBeginKeyword)));
  }

  // ---------------------------------------------------------------------------
  // BeginBlock

  /** `BeginBlock.stateBeginKeyword`: as the declarative region, with
      processes as the only statements and no BEGIN. */
  method BeginKeyword(s: ParserState) returns (r: Outcome)
    requires Ready(s)
    ensures CharRegionEffect(s, r, EmptyLineBlk, true, Statements, Ends, None)
  {
    r := CharRegion(s, EmptyLineBlk, true, Statements, Ends, None);
  }

  // ---------------------------------------------------------------------------
  // EndBlock

  /** `EndBlock.stateEndKeyword`. */
  method EndKeyword(s: ParserState) returns (r: Outcome)
    requires Ready(s)
    ensures r.Success? ==> Evolves(s, r.value)
    ensures IsSemicolon(s) ==> Closed(s, r, EndBlock)
    ensures !IsSemicolon(s) ==>
      WordEnded(s, r, EndBlock, OldEntityEndWhitespace1, OldEntityEndWhitespace1, Included, true, true, UnexpectedToken)
  {
    if IsSemicolon(s) {
      r := ThroughAndPop(s, EndTok, EndBlock, 1);
    } else {
      r := EndWord(s, EndBlock, OldEntityEndWhitespace1, OldEntityEndWhitespace1, Included, true, true, UnexpectedToken);
    }
  }

  /** `EndBlock.stateWhitespace1`: ENTITY or the entity's name. */
  method EndWhitespace1(s: ParserState) returns (r: Outcome)
    requires Ready(s)
    ensures r.Success? ==> Evolves(s, r.value)
    ensures IsSemicolon(s) ==> Closed(s, r, EndBlock)
    ensures IsWord(s, "entity") ==>
      r.Success? && Moved(s, r.value, OldEntityEndEntityKeyword) &&
      Retagged(s, r.value, KeywordTok("entity")) && NoBlock(s, r.value) && r.value.marker == s.marker
    ensures Tok(s).kind == StringTok && !IsWord(s, "entity") ==>
      r.Success? && Moved(s, r.value, OldEntityEndEntityName) &&
      Retagged(s, r.value, IdentifierTok) && NoBlock(s, r.value) && r.value.marker == s.marker
    ensures !IsSemicolon(s) && Tok(s).kind != StringTok ==> GapFilled(s, r, EndBlock, false, UnexpectedToken)
  {
    if IsSemicolon(s) {
      r := ThroughAndPop(s, EndTok, EndBlock, 1);
    } else if IsWord(s, "entity") {
      var t := RetagTo(s, KeywordTok("entity"), OldEntityEndEntityKeyword);
      r := Success(t);
    } else if Tok(s).kind == StringTok {
      var t := RetagTo(s, IdentifierTok, OldEntityEndEntityName);
      r := Success(t);
    } else {
      r := Between(s, EndBlock, false, UnexpectedToken);
    }
  }

  /** `EndBlock.stateEntityKeyword`: a line break or a comment start comes
      back to `stateWhitespace1`, whitespace moves on to `stateWhitespace2`. */
  method EndEntityKeyword(s: ParserState) returns (r: Outcome)
    requires Ready(s)
    ensures r.Success? ==> Evolves(s, r.value)
    ensures IsSemicolon(s) ==> Closed(s, r, EndBlock)
    ensures !IsSemicolon(s) ==>
      WordEnded(s, r, EndBlock, OldEntityEndWhitespace1, OldEntityEndWhitespace2, Included, true, true, UnexpectedToken)
  {
    if IsSemicolon(s) {
      r := ThroughAndPop(s, EndTok, EndBlock, 1);
    } else {
      r := EndWord(s, EndBlock, OldEntityEndWhitespace1, OldEntityEndWhitespace2, Included, true, true, UnexpectedToken);
    }
  }

  /** `EndBlock.stateWhitespace2`: the entity's name. */
  method EndWhitespace2(s: ParserState) returns (r: Outcome)
    requires Ready(s)
    ensures r.Success? ==> Evolves(s, r.value)
    ensures IsSemicolon(s) ==> Closed(s, r, EndBlock)
    ensures Tok(s).kind == StringTok ==>
      r.Success? && Moved(s, r.value, OldEntityEndEntityName) &&
      Retagged(s, r.value, IdentifierTok) && NoBlock(s, r.value) && r.value.marker == s.marker
    ensures !IsSemicolon(s) && Tok(s).kind != StringTok ==> GapFilled(s, r, EndBlock, false, UnexpectedToken)
  {
    if IsSemicolon(s) {
      r := ThroughAndPop(s, EndTok, EndBlock, 1);
    } else if Tok(s).kind == StringTok {
      var t := RetagTo(s, IdentifierTok, OldEntityEndEntityName);
      r := Success(t);
    } else {
      r := Between(s, EndBlock, false, UnexpectedToken);
    }
  }

  /** `EndBlock.stateEntityName`: whitespace moves on unretagged; the state
      has no final raise, so a token it does not handle changes nothing. */
  method EndEntityName(s: ParserState) returns (r: Outcome)
    requires Ready(s)
    ensures r.Success? ==> Evolves(s, r.value)
    ensures IsSemicolon(s) ==> Closed(s, r, EndBlock)
    ensures !IsSemicolon(s) ==>
      WordEnded(s, r, EndBlock, OldEntityEndWhitespace2, OldEntityEndWhitespace3, Included, false, false, UnexpectedToken)
  {
    if IsSemicolon(s) {
      r := ThroughAndPop(s, EndTok, EndBlock, 1);
    } else {
      r := EndWord(s, EndBlock, OldEntityEndWhitespace2, OldEntityEndWhitespace3, Included, false, false, UnexpectedToken);
    }
  }

  /** `EndBlock.stateWhitespace3`: only `";"` or a comment may follow. */
  method EndWhitespace3(s: ParserState) returns (r: Outcome)
    requires Ready(s)
    ensures r.Success? ==> Evolves(s, r.value)
    ensures IsSemicolon(s) ==> Closed(s, r, EndBlock)
    ensures !IsSemicolon(s) ==> GapFilled(s, r, EndBlock, false, UnexpectedToken)
  {
    if IsSemicolon(s) {
      r := ThroughAndPop(s, EndTok, EndBlock, 1);
    } else {
      r := Between(s, EndBlock, false, UnexpectedToken);
    }
  }
}
