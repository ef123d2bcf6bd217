/** `Architecture.NameBlock`, `BeginBlock` and `EndBlock`: the header
    `ARCHITECTURE name OF entity IS`, the declarative region, the statement
    region and the closing `END [ARCHITECTURE] [name];` of an architecture
    body (section 3.3 of IEEE 1076-2008). These states still read single
    characters: a line break, `-` and `/` are character tokens, not the
    line-break and comment tokens the newer states see. */
module Architecture {
  import opened Results
  import opened Tokens
  import opened Blocks
  import opened Handlers
  import opened Engine
  import opened Effects
  import opened Moves
  import opened CharMoves

  const NameBlock := "Architecture.NameBlock"
  const BeginBlock := "Architecture.BeginBlock"
  const EndBlock := "Architecture.EndBlock"

  /** The declarations of the declarative region and the handler each pushes;
      END is not accepted there, its branch being commented out. */
  const Declarations: Table := [
    ("signal", Opaque("Signal.SignalBlock.stateSignalKeyword")),
    ("constant", Opaque("Constant.ConstantBlock.stateConstantKeyword")),
    ("variable", Opaque("Variable.VariableBlock.stateVariableKeyword")),
    ("shared", Opaque("SharedVariable.SharedVariableBlock.stateSharedKeyword"))
  ]

  /** The statements of the statement region and the handler each pushes. */
  const Statements: Table := [
    ("process", Opaque("Process.OpenBlock.stateProcessKeyword")),
    ("assert", Opaque("Assert.AssertBlock.stateAssertKeyword"))
  ]

  /** END leaves the statement region for the end block. */
  const Ends: Table := [("end", ArchitectureEndKeyword)]

  // ---------------------------------------------------------------------------
  // NameBlock

  /** `stateArchitectureKeyword`: whitespace must follow ARCHITECTURE. */
  method Keyword(s: ParserState) returns (r: Outcome)
    requires Ready(s)
    ensures WordEnded(s, r, NameBlock, ArchitectureWhitespace1, ArchitectureWhitespace1, Chained, true, true, UnexpectedToken)
  {
    r := EndWord(s, NameBlock, ArchitectureWhitespace1, ArchitectureWhitespace1, Chained, true, true, UnexpectedToken);
  }

  /** `stateWhitespace1`: a word is the architecture's name. */
  method Whitespace1(s: ParserState) returns (r: Outcome)
    requires Ready(s)
    ensures r.Success? ==> Evolves(s, r.value)
    ensures Tok(s).kind == StringTok ==>
      r.Success? && Moved(s, r.value, ArchitectureName) && Retagged(s, r.value, IdentifierTok) &&
      NoBlock(s, r.value) && r.value.marker == s.marker
    ensures Tok(s).kind != StringTok ==> GapFilled(s, r, NameBlock, true, UnexpectedToken)
  {
    if Tok(s).kind == StringTok {
      var t := RetagTo(s, IdentifierTok, ArchitectureName);
      r := Success(t);
    } else {
      r := Between(s, NameBlock, true, UnexpectedToken);
    }
  }

  /** `stateArchitectureName`: whitespace must follow the name. */
  method Name(s: ParserState) returns (r: Outcome)
    requires Ready(s)
    ensures WordEnded(s, r, NameBlock, ArchitectureWhitespace2, ArchitectureWhitespace2, Chained, false, true, UnexpectedToken)
  {
    r := EndWord(s, NameBlock, ArchitectureWhitespace2, ArchitectureWhitespace2, Chained, false, true, UnexpectedToken);
  }

  /** `stateWhitespace2`: OF follows the name; any other word raises. */
  method Whitespace2(s: ParserState) returns (r: Outcome)
    requires Ready(s)
    ensures r.Success? ==> Evolves(s, r.value)
    ensures IsWord(s, "of") ==>
      r.Success? && Moved(s, r.value, ArchitectureOfKeyword) && Retagged(s, r.value, KeywordTok("of")) &&
      NoBlock(s, r.value) && r.value.marker == s.marker
    ensures !IsWord(s, "of") ==> GapFilled(s, r, NameBlock, true, UnexpectedToken)
  {
    if IsWord(s, "of") {
      var t := RetagTo(s, KeywordTok("of"), ArchitectureOfKeyword);
      r := Success(t);
    } else {
      r := Between(s, NameBlock, true, UnexpectedToken);
    }
  }

  /** `stateOfKeyword`: whitespace must follow OF. */
  method OfKeyword(s: ParserState) returns (r: Outcome)
    requires Ready(s)
    ensures WordEnded(s, r, NameBlock, ArchitectureWhitespace3, ArchitectureWhitespace3, Chained, true, true, UnexpectedToken)
  {
    r := EndWord(s, NameBlock, ArchitectureWhitespace3, ArchitectureWhitespace3, Chained, true, true, UnexpectedToken);
  }

  /** `stateWhitespace3`: a word is the entity's name. */
  method Whitespace3(s: ParserState) returns (r: Outcome)
    requires Ready(s)
    ensures r.Success? ==> Evolves(s, r.value)
    ensures Tok(s).kind == StringTok ==>
      r.Success? && Moved(s, r.value, ArchitectureEntityName) && Retagged(s, r.value, IdentifierTok) &&
      NoBlock(s, r.value) && r.value.marker == s.marker
    ensures Tok(s).kind != StringTok ==> GapFilled(s, r, NameBlock, true, UnexpectedToken)
  {
    if Tok(s).kind == StringTok {
      var t := RetagTo(s, IdentifierTok, ArchitectureEntityName);
      r := Success(t);
    } else {
      r := Between(s, NameBlock, true, UnexpectedToken);
    }
  }

  /** `stateEntityName`: whitespace must follow the entity's name. */
  method EntityName(s: ParserState) returns (r: Outcome)
    requires Ready(s)
    ensures WordEnded(s, r, NameBlock, ArchitectureWhitespace4, ArchitectureWhitespace4, Chained, false, true, UnexpectedToken)
  {
    r := EndWord(s, NameBlock, ArchitectureWhitespace4, ArchitectureWhitespace4, Chained, false, true, UnexpectedToken);
  }

  /** `stateWhitespace4`: IS closes the header as one block from the marker
      through IS and enters the declarative region; the marker stays. */
  method Whitespace4(s: ParserState) returns (r: Outcome)
    requires Ready(s)
    ensures r.Success? ==> Evolves(s, r.value)
    ensures IsWord(s, "is") ==>
      r.Success? && Moved(s, r.value, ArchitectureDeclarativeRegion) &&
      EndedWith(s, r.value, KeywordTok("is"), NameBlock) && r.value.marker == Rebased(s)
    ensures !IsWord(s, "is") ==> GapFilled(s, r, NameBlock, true, UnexpectedToken)
  {
    if IsWord(s, "is") {
      var t := ThroughTo(s, KeywordTok("is"), NameBlock, ArchitectureDeclarativeRegion);
      r := Success(t);
    } else {
      r := Between(s, NameBlock, true, UnexpectedToken);
    }
  }

  /** `stateDeclarativeRegion`: a line break marks the start of the next
      clause at its replacement; BEGIN opens the statement region. */
  method DeclarativeRegion(s: ParserState) returns (r: Outcome)
    requires Ready(s)
    ensures CharRegionEffect(s, r, LinebreakBlk, true, Declarations, [], Some((BeginBlock, ArchitectureBeginKeyword)))
  {
    r := CharRegion(s, LinebreakBlk, true, Declarations, [], Some((BeginBlock, ArchitectureBeginKeyword)));
  }

  // ---------------------------------------------------------------------------
  // BeginBlock

  /** `BeginBlock.stateBeginKeyword`: a line break clears the marker; END
      moves on to the end block. */
  method BeginKeyword(s: ParserState) returns (r: Outcome)
    requires Ready(s)
    ensures CharRegionEffect(s, r, LinebreakBlk, false, Statements, Ends, None)
  {
    r := CharRegion(s, LinebreakBlk, false, Statements, Ends, None);
  }

  // ---------------------------------------------------------------------------
  // EndBlock

  /** `EndBlock.stateEndKeyword`. */
  method EndKeyword(s: ParserState) returns (r: Outcome)
    requires Ready(s)
    ensures r.Success? ==> Evolves(s, r.value)
    ensures IsSemicolon(s) ==> Closed(s, r, EndBlock)
    ensures !IsSemicolon(s) ==>
      WordEnded(s, r, EndBlock, ArchitectureEndWhitespace1, ArchitectureEndWhitespace1, Chained, true, true, UnexpectedToken)
  {
    if IsSemicolon(s) {
      r := ThroughAndPop(s, EndTok, EndBlock, 1);
    } else {
      r := EndWord(s, EndBlock, ArchitectureEndWhitespace1, ArchitectureEndWhitespace1, Chained, true, true, UnexpectedToken);
    }
  }

  /** `EndBlock.stateWhitespace1`: ARCHITECTURE or the architecture's name. */
  method EndWhitespace1(s: ParserState) returns (r: Outcome)
    requires Ready(s)
    ensures r.Success? ==> Evolves(s, r.value)
    ensures IsSemicolon(s) ==> Closed(s, r, EndBlock)
    ensures IsWord(s, "architecture") ==>
      r.Success? && Moved(s, r.value, ArchitectureEndArchitectureKeyword) &&
      Retagged(s, r.value, KeywordTok("architecture")) && NoBlock(s, r.value) && r.value.marker == s.marker
    ensures Tok(s).kind == StringTok && !IsWord(s, "architecture") ==>
      r.Success? && Moved(s, r.value, ArchitectureEndArchitectureName) &&
      Retagged(s, r.value, IdentifierTok) && NoBlock(s, r.value) && r.value.marker == s.marker
    ensures !IsSemicolon(s) && Tok(s).kind != StringTok ==> GapFilled(s, r, EndBlock, true, UnexpectedToken)
  {
    if IsSemicolon(s) {
      r := ThroughAndPop(s, EndTok, EndBlock, 1);
    } else if IsWord(s, "architecture") {
      var t := RetagTo(s, KeywordTok("architecture"), ArchitectureEndArchitectureKeyword);
      r := Success(t);
    } else if Tok(s).kind == StringTok {
      var t := RetagTo(s, IdentifierTok, ArchitectureEndArchitectureName);
      r := Success(t);
    } else {
      r := Between(s, EndBlock, true, UnexpectedToken);
    }
  }

  /** `EndBlock.stateArchitectureKeyword`. */
  method EndArchitectureKeyword(s: ParserState) returns (r: Outcome)
    requires Ready(s)
    ensures r.Success? ==> Evolves(s, r.value)
    ensures IsSemicolon(s) ==> Closed(s, r, EndBlock)
    ensures !IsSemicolon(s) ==>
      WordEnded(s, r, EndBlock, ArchitectureEndWhitespace2, ArchitectureEndWhitespace2, Chained, true, true, UnexpectedToken)
  {
    if IsSemicolon(s) {
      r := ThroughAndPop(s, EndTok, EndBlock, 1);
    } else {
      r := EndWord(s, EndBlock, ArchitectureEndWhitespace2, ArchitectureEndWhitespace2, Chained, true, true, UnexpectedToken);
    }
  }

  /** `EndBlock.stateWhitespace2`: the architecture's name. */
  method EndWhitespace2(s: ParserState) returns (r: Outcome)
    requires Ready(s)
    ensures r.Success? ==> Evolves(s, r.value)
    ensures IsSemicolon(s) ==> Closed(s, r, EndBlock)
    ensures Tok(s).kind == StringTok ==>
      r.Success? && Moved(s, r.value, ArchitectureEndArchitectureName) &&
      Retagged(s, r.value, IdentifierTok) && NoBlock(s, r.value) && r.value.marker == s.marker
    ensures !IsSemicolon(s) && Tok(s).kind != StringTok ==> GapFilled(s, r, EndBlock, true, UnexpectedToken)
  {
    if IsSemicolon(s) {
      r := ThroughAndPop(s, EndTok, EndBlock, 1);
    } else if Tok(s).kind == StringTok {
      var t := RetagTo(s, IdentifierTok, ArchitectureEndArchitectureName);
      r := Success(t);
    } else {
      r := Between(s, EndBlock, true, UnexpectedToken);
    }
  }

  /** `EndBlock.stateArchitectureName`: it has no final raise, so a token it
      does not handle leaves the state as it was. */
  method EndArchitectureName(s: ParserState) returns (r: Outcome)
    requires Ready(s)
    ensures r.Success? ==> Evolves(s, r.value)
    ensures IsSemicolon(s) ==> Closed(s, r, EndBlock)
    ensures !IsSemicolon(s) ==>
      WordEnded(s, r, EndBlock, ArchitectureEndWhitespace3, ArchitectureEndWhitespace3, Chained, false, false, UnexpectedToken)
  {
    if IsSemicolon(s) {
      r := ThroughAndPop(s, EndTok, EndBlock, 1);
    } else {
      r := EndWord(s, EndBlock, ArchitectureEndWhitespace3, ArchitectureEndWhitespace3, Chained, false, false, UnexpectedToken);
    }
  }

  /** `EndBlock.stateWhitespace3`: only `";"` may follow. */
  method EndWhitespace3(s: ParserState) returns (r: Outcome)
    requires Ready(s)
    ensures r.Success? ==> Evolves(s, r.value)
    ensures IsSemicolon(s) ==> Closed(s, r, EndBlock)
    ensures !IsSemicolon(s) ==> GapFilled(s, r, EndBlock, true, UnexpectedToken)
  {
    if IsSemicolon(s) {
      r := ThroughAndPop(s, EndTok, EndBlock, 1);
    } else {
      r := Between(s, EndBlock, true, UnexpectedToken);
    }
  }
}
