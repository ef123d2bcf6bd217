/** `Procedure.NameBlock` and `Procedure.VoidBlock`: the header
    `PROCEDURE designator [(parameters)] ( ; | IS )` of a procedure (section
    4.2 of IEEE 1076-2008) and the dispatch of its declarative region. */
module Procedure {
  import opened Results
  import opened Tokens
  import opened Blocks
  import opened Handlers
  import opened Engine
  import opened Effects
  import opened Moves

  const NameBlock := "Procedure.NameBlock"
  const VoidBlock := "Procedure.VoidBlock"
  const BeginBlock := "Procedure.BeginBlock"

  /** The declaration keywords of the region; IMPURE and PURE name the
      function header states they were meant to start, which are not part of
      this model. */
  const Declarations: Table := [
    ("use", Opaque("Use.StartBlock.stateUseKeyword")),
    ("constant", Opaque("ConstantDeclarationBlock.stateConstantKeyword")),
    ("variable", Opaque("VariableDeclarationBlock.stateVariableKeyword")),
    ("function", FunctionKeyword),
    ("procedure", ProcedureKeyword),
    ("report", Opaque("ReportBlock.stateReportKeyword")),
    ("impure", Opaque("Function.NameBlock.stateImpureKeyword")),
    ("pure", Opaque("Function.NameBlock.statePureKeyword"))
  ]

  /** `EndBlock` comes from `Generic1`, which is not part of this model; it
      expects the keyword PROCEDURE and makes it optional. */
  const EndState := Opaque("Procedure.EndBlock.stateEndKeyword")
  const EndKeyword := "procedure"
  const EndKeywordIsOptional := true

  /** `BeginBlock` is a `SequentialBeginBlock` whose end block is `EndBlock`. */
  const BeginState := SequentialRegion(EndState)

  /** `stateProcedureKeyword`: whitespace must follow PROCEDURE. */
  method Keyword(s: ParserState) returns (r: Outcome)
    requires Ready(s)
    ensures AfterWordEffect(s, r, NameBlock, ProcedureWhitespace1, true)
  {
    r := AfterWord(s, NameBlock, ProcedureWhitespace1, true);
  }

  /** `stateWhitespace1`: a word is the designator; the gap before it keeps
      comments as blocks of their own and has no indentation rule. */
  method Whitespace1(s: ParserState) returns (r: Outcome)
    requires Ready(s)
    ensures r.Success? ==> Evolves(s, r.value)
    ensures Tok(s).kind == StringTok ==>
      r.Success? && Moved(s, r.value, ProcedureName) && Retagged(s, r.value, IdentifierTok) &&
      NoBlock(s, r.value) && r.value.marker == s.marker
    ensures Tok(s).kind != StringTok ==> GapEffect(s, r, NameBlock, false, false)
  {
    if Tok(s).kind == StringTok {
      var t := RetagTo(s, IdentifierTok, ProcedureName);
      r := Success(t);
    } else {
      r := Gap(s, NameBlock, false, false);
    }
  }

  /** `stateProcedureName`: `"("` opens the parameter list and resumes after
      it in the void block; otherwise whitespace must follow the designator. */
  method Name(s: ParserState) returns (r: Outcome)
    requires Ready(s)
    ensures IsChar(Tok(s), '(') ==>
      r.Success? && ParametersOpened(s, r.value, NameBlock, VoidAfterParameterList) && Evolves(s, r.value)
    ensures !IsChar(Tok(s), '(') ==> AfterWordEffect(s, r, NameBlock, ProcedureWhitespace2, true)
  {
    if IsChar(Tok(s), '(') {
      var t := OpenParameters(s, NameBlock, VoidAfterParameterList);
      r := Success(t);
    } else {
      r := AfterWord(s, NameBlock, ProcedureWhitespace2, true);
    }
  }

  /** `stateWhitespace2`:
      - `"("` opens the parameter list;
      - IS ends the header block before it, chains a void block over the IS
        replacement, hands the marker to it and enters the declarative
        region;
      - GENERIC and PARAMETER end the header block with the keyword and
        switch to the list's keyword state without pushing;
      - other words raise; whitespace is a gap in which a comment splits the
        header. */
  method Whitespace2(s: ParserState) returns (r: Outcome)
    requires Ready(s)
    ensures r.Success? ==> Evolves(s, r.value)
    ensures IsChar(Tok(s), '(') ==> r.Success? && ParametersOpened(s, r.value, NameBlock, VoidAfterParameterList)
    ensures IsWord(s, "is") ==>
      r.Success? && Moved(s, r.value, ProcedureDeclarativeRegion) && Retagged(s, r.value, KeywordTok("is")) &&
      AppendedTwo(s, r.value, Named(NameBlock), Rebased(s), Tok(s).prev, false, Named(VoidBlock), |s.tokens|) &&
      r.value.marker == Some(|s.tokens|)
    ensures IsWord(s, "generic") ==>
      r.Success? && Moved(s, r.value, GenericKeyword) && EndedWith(s, r.value, KeywordTok("generic"), NameBlock) &&
      r.value.marker == Rebased(s)
    ensures IsWord(s, "parameter") ==>
      r.Success? && Moved(s, r.value, Opaque("ParameterList.OpenBlock.stateParameterKeyword")) &&
      EndedWith(s, r.value, KeywordTok("parameter"), NameBlock) && r.value.marker == Rebased(s)
    ensures !IsChar(Tok(s), '(') && !IsWord(s, "is") && !IsWord(s, "generic") && !IsWord(s, "parameter") ==>
      GapEffect(s, r, NameBlock, true, false)
  {
    if IsChar(Tok(s), '(') {
      var t := OpenParameters(s, NameBlock, VoidAfterParameterList);
      r := Success(t);
    } else if IsWord(s, "is") {
      var t := PairOver(s, KeywordTok("is"), NameBlock, Named(VoidBlock), ProcedureDeclarativeRegion);
      r := Success(t);
    } else if IsWord(s, "generic") {
      var t := ThroughTo(s, KeywordTok("generic"), NameBlock, GenericKeyword);
      r := Success(t);
    } else if IsWord(s, "parameter") {
      var t := ThroughTo(s, KeywordTok("parameter"), NameBlock, Opaque("ParameterList.OpenBlock.stateParameterKeyword"));
      r := Success(t);
    } else {
      r := Gap(s, NameBlock, true, false);
    }
  }

  /** `VoidBlock.stateAfterParameterList`:
      - `";"` ends the declaration through `";"` and pops one level;
      - IS ends the void block with IS and enters the declarative region;
      - a space becomes a boundary, a line break or comment a block of its
        own that clears the marker, and each leads to `stateWhitespace1`;
      anything else raises. */
  method AfterParameterList(s: ParserState) returns (r: Outcome)
    requires Ready(s)
    ensures r.Success? ==> Evolves(s, r.value)
    ensures IsChar(Tok(s), ';') && |s.stack| >= 1 ==>
      r.Success? && EndedWith(s, r.value, EndTok, VoidBlock) && Popped(s, r.value, 1)
    ensures IsChar(Tok(s), ';') && |s.stack| == 0 ==> r == Fail(s, EmptyStack)
    ensures IsWord(s, "is") ==>
      r.Success? && Moved(s, r.value, ProcedureDeclarativeRegion) &&
      EndedWith(s, r.value, KeywordTok("is"), VoidBlock) && r.value.marker == Rebased(s)
    ensures !IsChar(Tok(s), ';') && !IsWord(s, "is") ==> AfterClauseEffect(s, r, VoidWhitespace1)
  {
    if IsChar(Tok(s), ';') {
      r := ThroughAndPop(s, EndTok, VoidBlock, 1);
    } else if IsWord(s, "is") {
      var t := ThroughTo(s, KeywordTok("is"), VoidBlock, ProcedureDeclarativeRegion);
      r := Success(t);
    } else {
      r := AfterClause(s, VoidWhitespace1);
    }
  }

  /** `VoidBlock.stateWhitespace1`: IS moves to the declarative region;
      whitespace is a gap that keeps comments as blocks of their own. */
  method VoidGap(s: ParserState) returns (r: Outcome)
    requires Ready(s)
    ensures r.Success? ==> Evolves(s, r.value)
    ensures IsWord(s, "is") ==>
      r.Success? && Moved(s, r.value, ProcedureDeclarativeRegion) && Retagged(s, r.value, KeywordTok("is")) &&
      NoBlock(s, r.value) && r.value.marker == s.marker
    ensures !IsWord(s, "is") ==> GapEffect(s, r, VoidBlock, false, false)
  {
    if IsWord(s, "is") {
      var t := RetagTo(s, KeywordTok("is"), ProcedureDeclarativeRegion);
      r := Success(t);
    } else {
      r := Gap(s, VoidBlock, false, false);
    }
  }

  /** `VoidBlock.stateDeclarativeRegion` as written: building its keyword
      table reads `Function.NameBlock.stateImpureKeyword`, which the function
      header does not define, so every call raises before the token is
      inspected. */
  method DeclarativeRegionAsWritten(s: ParserState) returns (r: Outcome)
    requires Ready(s)
    ensures r == Fail(s, UndefinedState)
  {
    r := Fail(s, UndefinedState);
  }

  /** `VoidBlock.stateDeclarativeRegion` as intended: BEGIN becomes a
      one-token begin block over its replacement, clears the marker and enters
      the sequential region; END moves to the end block with the marker at its
      replacement; everything else is the region of declarations, where a
      space keeps the marker. */
  method DeclarativeRegion(s: ParserState) returns (r: Outcome)
    requires Ready(s)
    ensures IsWord(s, "begin") ==>
      r.Success? && Moved(s, r.value, BeginState) && Retagged(s, r.value, KeywordTok("begin")) &&
      Appended(s, r.value, Named(BeginBlock), Some(|s.tokens|), Some(|s.tokens|), false) &&
      r.value.marker.None? && Evolves(s, r.value)
    ensures IsWord(s, "end") ==>
      r.Success? && Moved(s, r.value, EndState) && Retagged(s, r.value, KeywordTok("end")) &&
      NoBlock(s, r.value) && r.value.marker == Some(|s.tokens|) && Evolves(s, r.value)
    ensures !IsWord(s, "begin") && !IsWord(s, "end") ==> RegionEffect(s, r, Declarations, false, [])
  {
    if IsWord(s, "begin") {
      var t := Retag(s, KeywordTok("begin"));
      t := Queue(t, Named(BeginBlock), t.newToken, None, false);
      r := Success(Goto(SetMarker(t, None), BeginState));
    } else if IsWord(s, "end") {
      var t := MarkTo(s, KeywordTok("end"), EndState);
      r := Success(t);
    } else {
      r := Region(s, Declarations, false, []);
    }
  }

  /** On a declaration keyword, where the two readings part: the region as
      written raises and the region as intended pushes the keyword's
      handler. */
  method DeclarationRejected(s: ParserState) returns (asWritten: Outcome, intended: Outcome)
    requires Ready(s) && Tok(s).kind == StringTok && Lookup(Declarations, Word(s)).Some?
    ensures asWritten.Failure? && asWritten.error.kind == UndefinedState
    ensures intended.Success? && KeywordPushed(s, intended.value, Word(s), Lookup(Declarations, Word(s)).value)
  {
    DeclarationIsNoExit(s);
    asWritten := DeclarativeRegionAsWritten(s);
    intended := DeclarativeRegion(s);
  }

  /** No declaration keyword leaves the region: BEGIN and END are not in the
      table. */
  lemma DeclarationIsNoExit(s: ParserState)
    requires WF(s) && Lookup(Declarations, Word(s)).Some?
    ensures !IsWord(s, "begin") && !IsWord(s, "end")
  {
    var w := Word(s);
    var k :| 0 <= k < |Declarations| && Declarations[k] == (w, Lookup(Declarations, w).value);
    assert |w| != 5 && (|w| == 3 ==> w[0] != 'e');
  }
}
