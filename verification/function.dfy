/** `Function.NameBlock` and `Function.NameBlock2`: the header
    `FUNCTION designator [(parameters)] RETURN type_mark ( ; | IS )` of a
    function (section 4.2 of IEEE 1076-2008) and the dispatch of its
    declarative region. */
module Function {
  import opened Results
  import opened Tokens
  import opened Blocks
  import opened Handlers
  import opened Engine
  import opened Effects
  import opened Moves

  const NameBlock := "Function.NameBlock"
  const NameBlock2 := "Function.NameBlock2"
  const BeginBlock := "Function.BeginBlock"

  const Declarations: Table := [
    ("use", Opaque("Use.UseBlock.stateUseKeyword")),
    ("constant", Opaque("Constant.ConstantBlock.stateConstantKeyword")),
    ("variable", Opaque("Variable.VariableBlock.stateVariableKeyword")),
    ("function", FunctionKeyword),
    ("procedure", ProcedureKeyword),
    ("report", Opaque("ReportBlock.stateReportKeyword"))
  ]

  /** `EndBlock` comes from `Generic1`, which is not part of this model; it
      expects the keyword FUNCTION and makes it optional. */
  const EndState := Opaque("Function.EndBlock.stateEndKeyword")
  const EndKeyword := "function"
  const EndKeywordIsOptional := true

  /** `BeginBlock` is a `SequentialBeginBlock` whose end block is `EndBlock`. */
  const BeginState := SequentialRegion(EndState)

  /** `stateFunctionKeyword`: whitespace must follow FUNCTION. */
  method Keyword(s: ParserState) returns (r: Outcome)
    requires Ready(s)
    ensures AfterWordEffect(s, r, NameBlock, FunctionWhitespace1, true)
  {
    r := AfterWord(s, NameBlock, FunctionWhitespace1, true);
  }

  /** `stateWhitespace1`: a word is the designator; the gap before it keeps
      comments as blocks of their own and has no indentation rule. */
  method Whitespace1(s: ParserState) returns (r: Outcome)
    requires Ready(s)
    ensures r.Success? ==> Evolves(s, r.value)
    ensures Tok(s).kind == StringTok ==>
      r.Success? && Moved(s, r.value, FunctionName) && Retagged(s, r.value, IdentifierTok) &&
      NoBlock(s, r.value) && r.value.marker == s.marker
    ensures Tok(s).kind != StringTok ==> GapEffect(s, r, NameBlock, false, false)
  {
    if Tok(s).kind == StringTok {
      var t := RetagTo(s, IdentifierTok, FunctionName);
      r := Success(t);
    } else {
      r := Gap(s, NameBlock, false, false);
    }
  }

  /** `stateFunctionName`: `"("` opens the parameter list and resumes after
      it; otherwise whitespace must follow the designator. */
  method Name(s: ParserState) returns (r: Outcome)
    requires Ready(s)
    ensures IsChar(Tok(s), '(') ==>
      r.Success? && ParametersOpened(s, r.value, NameBlock, ReturnAfterParameterList) && Evolves(s, r.value)
    ensures !IsChar(Tok(s), '(') ==> AfterWordEffect(s, r, NameBlock, FunctionWhitespace2, true)
  {
    if IsChar(Tok(s), '(') {
      var t := OpenParameters(s, NameBlock, ReturnAfterParameterList);
      r := Success(t);
    } else {
      r := AfterWord(s, NameBlock, FunctionWhitespace2, true);
    }
  }

  /** `stateWhitespace2`:
      - `"("` opens the parameter list;
      - RETURN ends the header block before it and moves to the return
        keyword with the marker at the replacement;
      - GENERIC and PARAMETER end the header block with the keyword and
        switch to the list's keyword state without pushing;
      - other words raise; whitespace is a gap in which a comment splits the
        header. */
  method Whitespace2(s: ParserState) returns (r: Outcome)
    requires Ready(s)
    ensures r.Success? ==> Evolves(s, r.value)
    ensures IsChar(Tok(s), '(') ==> r.Success? && ParametersOpened(s, r.value, NameBlock, ReturnAfterParameterList)
    ensures IsWord(s, "return") ==>
      r.Success? && Moved(s, r.value, ReturnKeyword) && Retagged(s, r.value, KeywordTok("return")) &&
      Appended(s, r.value, Named(NameBlock), Rebased(s), Tok(s).prev, false) &&
      r.value.marker == Some(|s.tokens|)
    ensures IsWord(s, "generic") ==>
      r.Success? && Moved(s, r.value, GenericKeyword) && EndedWith(s, r.value, KeywordTok("generic"), NameBlock) &&
      r.value.marker == Rebased(s)
    ensures IsWord(s, "parameter") ==>
      r.Success? && Moved(s, r.value, Opaque("ParameterList.OpenBlock.stateParameterKeyword")) &&
      EndedWith(s, r.value, KeywordTok("parameter"), NameBlock) && r.value.marker == Rebased(s)
    ensures !IsChar(Tok(s), '(') && !IsWord(s, "return") && !IsWord(s, "generic") && !IsWord(s, "parameter") ==>
      GapEffect(s, r, NameBlock, true, false)
  {
    if IsChar(Tok(s), '(') {
      var t := OpenParameters(s, NameBlock, ReturnAfterParameterList);
      r := Success(t);
    } else if IsWord(s, "return") {
      var t := HandOver(s, KeywordTok("return"), NameBlock, ReturnKeyword);
      r := Success(t);
    } else if IsWord(s, "generic") {
      var t := ThroughTo(s, KeywordTok("generic"), NameBlock, GenericKeyword);
      r := Success(t);
    } else if IsWord(s, "parameter") {
      var t := ThroughTo(s, KeywordTok("parameter"), NameBlock, Opaque("ParameterList.OpenBlock.stateParameterKeyword"));
      r := Success(t);
    } else {
      r := Gap(s, NameBlock, true, false);
    }
  }

  /** `NameBlock2.stateAfterParameterList`: RETURN ends the block after the
      parameter list with the keyword; whitespace leads to the gap before
      RETURN, where a line break is a lone line-break block and a comment
      splits the block; anything else raises. */
  method AfterParameterList(s: ParserState) returns (r: Outcome)
    requires Ready(s)
    ensures IsWord(s, "return") ==>
      r.Success? && Moved(s, r.value, ReturnKeyword) && EndedWith(s, r.value, KeywordTok("return"), NameBlock2) &&
      r.value.marker == Rebased(s) && Evolves(s, r.value)
    ensures !IsWord(s, "return") ==> AfterWordEffect(s, r, NameBlock2, ReturnWhitespace1, false)
  {
    if IsWord(s, "return") {
      var t := ThroughTo(s, KeywordTok("return"), NameBlock2, ReturnKeyword);
      r := Success(t);
    } else {
      r := AfterWord(s, NameBlock2, ReturnWhitespace1, false);
    }
  }

  /** `NameBlock2.stateWhitespace1`: RETURN moves to the return keyword;
      whitespace is a gap that keeps comments as blocks of their own. */
  method ReturnGap(s: ParserState) returns (r: Outcome)
    requires Ready(s)
    ensures r.Success? ==> Evolves(s, r.value)
    ensures IsWord(s, "return") ==>
      r.Success? && Moved(s, r.value, ReturnKeyword) && Retagged(s, r.value, KeywordTok("return")) &&
      NoBlock(s, r.value) && r.value.marker == s.marker
    ensures !IsWord(s, "return") ==> GapEffect(s, r, NameBlock2, false, false)
  {
    if IsWord(s, "return") {
      var t := RetagTo(s, KeywordTok("return"), ReturnKeyword);
      r := Success(t);
    } else {
      r := Gap(s, NameBlock2, false, false);
    }
  }

  /** `NameBlock2.stateReturnKeyword`: whitespace must follow RETURN (the
      second `SpaceToken` branch of the source can never be taken). */
  method Return(s: ParserState) returns (r: Outcome)
    requires Ready(s)
    ensures AfterWordEffect(s, r, NameBlock2, ReturnWhitespace2, true)
  {
    r := AfterWord(s, NameBlock2, ReturnWhitespace2, true);
  }

  /** `NameBlock2.stateWhitespace2`: a word is the return type. */
  method TypeGap(s: ParserState) returns (r: Outcome)
    requires Ready(s)
    ensures r.Success? ==> Evolves(s, r.value)
    ensures Tok(s).kind == StringTok ==>
      r.Success? && Moved(s, r.value, ReturnType) && Retagged(s, r.value, IdentifierTok) &&
      NoBlock(s, r.value) && r.value.marker == s.marker
    ensures Tok(s).kind != StringTok ==> GapEffect(s, r, NameBlock2, false, false)
  {
    if Tok(s).kind == StringTok {
      var t := RetagTo(s, IdentifierTok, ReturnType);
      r := Success(t);
    } else {
      r := Gap(s, NameBlock2, false, false);
    }
  }

  /** `NameBlock2.stateReturnType`:
      - `";"` ends the declaration through `";"` and pops one level;
      - a space always moves to `stateWhitespace3` without a replacement (the
        second `SpaceToken` branch can never be taken);
      - a line break or comment splits the block and goes back to
        `stateWhitespace2`;
      anything else raises. */
  method Type(s: ParserState) returns (r: Outcome)
    requires Ready(s)
    ensures r.Success? ==> Evolves(s, r.value)
    ensures IsChar(Tok(s), ';') && |s.stack| >= 1 ==>
      r.Success? && EndedWith(s, r.value, EndTok, NameBlock2) && Popped(s, r.value, 1)
    ensures IsChar(Tok(s), ';') && |s.stack| == 0 ==> r == Fail(s, EmptyStack)
    ensures IsSpace(Tok(s).kind) ==> r == Success(s.(handler := ReturnWhitespace3))
    ensures Tok(s).kind == LinebreakTok || IsComment(Tok(s).kind) ==>
      r.Success? && Moved(s, r.value, ReturnWhitespace2) && SplitClause(s, r.value, NameBlock2, FillerBlock(Tok(s).kind))
    ensures !IsChar(Tok(s), ';') && !IsFiller(Tok(s).kind) ==> r == Fail(s, UnexpectedToken)
  {
    var k := Tok(s).kind;
    if IsChar(Tok(s), ';') {
      assert k == CharacterTok && !IsFiller(k);
      r := ThroughAndPop(s, EndTok, NameBlock2, 1);
    } else if IsSpace(k) {
      assert !(k == LinebreakTok || IsComment(k));
      r := Success(Goto(s, ReturnWhitespace3));
    } else if k == LinebreakTok || IsComment(k) {
      var t := SplitTo(s, NameBlock2, FillerBlock(k), ReturnWhitespace2);
      r := Success(t);
    } else {
      assert !IsFiller(k);
      r := Fail(s, UnexpectedToken);
    }
  }

  /** `NameBlock2.stateWhitespace3`: `";"` ends the declaration and pops; IS
      moves to the declarative region; whitespace is a gap. */
  method EndGap(s: ParserState) returns (r: Outcome)
    requires Ready(s)
    ensures r.Success? ==> Evolves(s, r.value)
    ensures IsChar(Tok(s), ';') && |s.stack| >= 1 ==>
      r.Success? && EndedWith(s, r.value, EndTok, NameBlock2) && Popped(s, r.value, 1)
    ensures IsChar(Tok(s), ';') && |s.stack| == 0 ==> r == Fail(s, EmptyStack)
    ensures IsWord(s, "is") ==>
      r.Success? && Moved(s, r.value, FunctionDeclarativeRegion) && Retagged(s, r.value, KeywordTok("is")) &&
      NoBlock(s, r.value) && r.value.marker == s.marker
    ensures !IsChar(Tok(s), ';') && !IsWord(s, "is") ==> GapEffect(s, r, NameBlock2, false, false)
  {
    if IsChar(Tok(s), ';') {
      r := ThroughAndPop(s, EndTok, NameBlock2, 1);
    } else if IsWord(s, "is") {
      var t := RetagTo(s, KeywordTok("is"), FunctionDeclarativeRegion);
      r := Success(t);
    } else {
      r := Gap(s, NameBlock2, false, false);
    }
  }

  /** `stateDeclarativeRegion`: BEGIN becomes a one-token begin block over
      its replacement and enters the sequential region; everything else is
      the region of declarations, where a space keeps the marker and END
      switches to the end block. */
  method DeclarativeRegion(s: ParserState) returns (r: Outcome)
    requires Ready(s)
    ensures IsWord(s, "begin") ==>
      r.Success? && Moved(s, r.value, BeginState) && Retagged(s, r.value, KeywordTok("begin")) &&
      Appended(s, r.value, Named(BeginBlock), Some(|s.tokens|), Some(|s.tokens|), false) &&
      r.value.marker == s.marker && Evolves(s, r.value)
    ensures !IsWord(s, "begin") ==> RegionEffect(s, r, Declarations, false, [("end", EndState)])
  {
    if IsWord(s, "begin") {
      var t := Retag(s, KeywordTok("begin"));
      t := Queue(t, Named(BeginBlock), t.newToken, None, false);
      r := Success(Goto(t, BeginState));
    } else {
      r := Region(s, Declarations, false, [("end", EndState)]);
    }
  }
}
