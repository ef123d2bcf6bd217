/** The generic list `GENERIC ( interface_constant { ; interface_constant } ) ;`
    of the current generation (section 6.5.6.2 of IEEE 1076-2008): an open
    block through `"("`, one interface-constant block per item with a
    delimiter block behind each `";"`, and a close block through the final
    `";"`. Only constant items are supported; a default value after `":="` is
    handed to the expression handler. */
module GenericList {
  import opened Results
  import opened Tokens
  import opened Blocks
  import opened Handlers
  import opened Engine
  import opened Effects
  import opened Moves

  const OpenBlock := "GenericList.OpenBlock"
  const ConstantBlock := "GenericList.InterfaceConstantBlock"
  const DelimiterBlock := "GenericList.DelimiterBlock"
  const CloseBlock := "GenericList.CloseBlock"

  /** The item kinds that raise `NotImplementedError`. */
  const Unsupported: seq<string> := ["type", "procedure", "function", "impure", "pure"]

  // ---------------------------------------------------------------------------
  // Shared steps

  /** `"("` opened the list: the open block runs from the marker through the
      boundary replacement of `"("`, the close block's state is saved under
      the item state, and the counter is 1. */
  ghost predicate Opened(s: ParserState, r: ParserState)
    requires Ready(s)
  {
    ListOpened(s, r, BoundaryTok, OpenBlock, GenericClosingParenthesis, GenericOpeningParenthesis, 1)
  }

  /** `Pop()` took the deepest frame's handler and counter; no token or block
      changed. */
  ghost predicate Unwound(s: ParserState, r: ParserState)
    requires 1 <= |s.stack|
  {
    var top := s.stack[|s.stack| - 1];
    r.stack == s.stack[..|s.stack| - 1] && r.handler == top.handler && r.counter == top.counter
  }

  /** The start of an item, shared by `OpenBlock.stateOpeningParenthesis` and
      `DelimiterBlock.stateItemDelimiter`:
      - CONSTANT is retagged as the keyword, marks the item's start and moves
        to `stateConstantKeyword`;
      - an unsupported item kind raises `NotImplementedError`;
      - any other word is the constant's name: an identifier that marks the
        item's start and moves to `stateConstantName`;
      - an extended identifier moves to `stateConstantName` and keeps the
        marker. */
  ghost predicate ItemStarted(s: ParserState, r: Outcome)
    requires Ready(s)
  {
    (r.Success? ==> Evolves(s, r.value) && NoBlock(s, r.value) && r.value.stack == s.stack && r.value.counter == s.counter) &&
    (IsWord(s, "constant") ==>
       r.Success? && r.value.handler == ConstantKeyword && Retagged(s, r.value, KeywordTok("constant")) &&
       r.value.marker == Some(|s.tokens|)) &&
    (Tok(s).kind == StringTok && Word(s) != "constant" && Word(s) in Unsupported ==> r == Fail(s, NotImplemented)) &&
    (Tok(s).kind == StringTok && Word(s) != "constant" && Word(s) !in Unsupported ==>
       r.Success? && r.value.handler == ConstantName && Retagged(s, r.value, IdentifierTok) &&
       r.value.marker == Some(|s.tokens|)) &&
    (Tok(s).kind == ExtendedIdentifierTok ==> r == Success(s.(handler := ConstantName)))
  }

  method Item(s: ParserState) returns (r: Outcome)
    requires Ready(s) && (Tok(s).kind == StringTok || Tok(s).kind == ExtendedIdentifierTok)
    ensures ItemStarted(s, r)
  {
    if Tok(s).kind == ExtendedIdentifierTok {
      r := Success(Goto(s, ConstantName));
    } else if Word(s) == "constant" {
      var t := MarkTo(s, KeywordTok("constant"), ConstantKeyword);
      r := Success(t);
    } else if Word(s) in Unsupported {
      r := Fail(s, NotImplemented);
    } else {
      var t := MarkTo(s, IdentifierTok, ConstantName);
      r := Success(t);
    }
  }

  /** The tokens that end a subtype indication. */
  predicate ItemEnds(s: ParserState)
    requires WF(s)
  {
    IsFused(Tok(s), ":=") || IsChar(Tok(s), ';') || IsChar(Tok(s), ')')
  }

  /** The end of a subtype indication, shared by `stateSubtypeIndication` and
      `stateWhitespace5`:
      - `":="` ends the item block through the assignment and pushes the
        expression handler over the delimiter state with counter 0;
      - `";"` ends the item block before the delimiter, chains a one-token
        delimiter block over it and moves to the delimiter state, keeping the
        marker;
      - `")"` ends the item block before the boundary, pops one level and
        marks the boundary; an empty stack raises. */
  ghost predicate ItemEnded(s: ParserState, r: Outcome)
    requires Ready(s)
  {
    (r.Success? ==> Evolves(s, r.value)) &&
    (IsFused(Tok(s), ":=") ==>
       r.Success? && ListOpened(s, r.value, VariableAssignmentTok, ConstantBlock, GenericItemDelimiter, Expression, 0)) &&
    (IsChar(Tok(s), ';') ==>
       r.Success? && Moved(s, r.value, GenericItemDelimiter) && Retagged(s, r.value, DelimiterTok) &&
       AppendedTwo(s, r.value, Named(ConstantBlock), Rebased(s), Tok(s).prev, false, Named(DelimiterBlock), |s.tokens|) &&
       r.value.marker == Rebased(s)) &&
    (IsChar(Tok(s), ')') && |s.stack| >= 1 ==>
       r.Success? && Unwound(s, r.value) && Retagged(s, r.value, BoundaryTok) &&
       Appended(s, r.value, Named(ConstantBlock), Rebased(s), Tok(s).prev, false) &&
       r.value.marker == Some(|s.tokens|)) &&
    (IsChar(Tok(s), ')') && |s.stack| == 0 ==> r == Fail(s, EmptyStack))
  }

  method ItemEnd(s: ParserState) returns (r: Outcome)
    requires Ready(s) && ItemEnds(s)
    ensures ItemEnded(s, r)
  {
    if IsFused(Tok(s), ":=") {
      var t := OpenList(s, VariableAssignmentTok, ConstantBlock, GenericItemDelimiter, Expression, 0);
      r := Success(t);
    } else if IsChar(Tok(s), ';') {
      var t := PairTo(s, DelimiterTok, ConstantBlock, Named(DelimiterBlock), GenericItemDelimiter);
      r := Success(t);
    } else {
      r := BeforeAndPop(s, BoundaryTok, ConstantBlock, 1);
      if r.Success? {
        r := Success(SetMarker(r.value, Some(|s.tokens|)));
      }
    }
  }

  /** A word after the colon: IN is the mode keyword, any other word the
      type mark. */
  method Typed(s: ParserState) returns (r: ParserState)
    requires Ready(s) && Tok(s).kind == StringTok
    ensures IsWord(s, "in") ==> Moved(s, r, ConstantInKeyword) && Retagged(s, r, KeywordTok("in"))
    ensures !IsWord(s, "in") ==> Moved(s, r, ConstantSubtypeIndication) && Retagged(s, r, IdentifierTok)
    ensures r.marker == s.marker && NoBlock(s, r)
    ensures Evolves(s, r)
  {
    if IsWord(s, "in") {
      r := RetagTo(s, KeywordTok("in"), ConstantInKeyword);
    } else {
      r := RetagTo(s, IdentifierTok, ConstantSubtypeIndication);
    }
  }

  // ---------------------------------------------------------------------------
  // OpenBlock

  /** `stateGenericKeyword`: `"("` opens the list; a space moves on without
      a boundary; a line break or comment splits the open block. */
  method Keyword(s: ParserState) returns (r: Outcome)
    requires Ready(s)
    ensures IsChar(Tok(s), '(') ==> r.Success? && Opened(s, r.value) && Evolves(s, r.value)
    ensures IsSpace(Tok(s).kind) ==> r == Success(s.(handler := GenericWhitespace1))
    ensures !IsChar(Tok(s), '(') && !IsSpace(Tok(s).kind) ==> AfterWordEffect(s, r, OpenBlock, GenericWhitespace1, true)
  {
    if IsChar(Tok(s), '(') {
      assert !IsSpace(Tok(s).kind);
      var t := OpenList(s, BoundaryTok, OpenBlock, GenericClosingParenthesis, GenericOpeningParenthesis, 1);
      r := Success(t);
    } else if IsSpace(Tok(s).kind) {
      r := Success(Goto(s, GenericWhitespace1));
    } else {
      r := AfterWord(s, OpenBlock, GenericWhitespace1, true);
    }
  }

  /** `stateWhitespace1`: `"("` opens the list; whitespace is a gap. */
  method Whitespace1(s: ParserState) returns (r: Outcome)
    requires Ready(s)
    ensures IsChar(Tok(s), '(') ==> r.Success? && Opened(s, r.value) && Evolves(s, r.value)
    ensures !IsChar(Tok(s), '(') ==> GapEffect(s, r, OpenBlock, false, true)
  {
    if IsChar(Tok(s), '(') {
      var t := OpenList(s, BoundaryTok, OpenBlock, GenericClosingParenthesis, GenericOpeningParenthesis, 1);
      r := Success(t);
    } else {
      r := Gap(s, OpenBlock, false, true);
    }
  }

  /** `")"` right after `"("`: `Pop()`, then the marker is the `")"` token. */
  method Empty(s: ParserState) returns (r: Outcome)
    requires Ready(s)
    ensures r.Success? ==> Evolves(s, r.value) && NoBlock(s, r.value) && NoRetag(s, r.value)
    ensures |s.stack| >= 1 ==> r.Success? && Unwound(s, r.value) && r.value.marker == Some(s.token)
    ensures |s.stack| == 0 ==> r == Fail(s, EmptyStack)
  {
    r := Pop(s, 1);
    if r.Success? {
      r := Success(SetMarker(r.value, Some(s.token)));
    }
  }

  /** `stateOpeningParenthesis`, the state before the first item and after
      each delimiter:
      - `")"` ends an empty list: one level is popped and the marker is the
        `")"` token;
      - a word or extended identifier starts an item;
      - a space becomes an indentation or whitespace block and keeps the
        marker; a line break a line-break block that marks itself; a comment
        splits the open block;
      anything else raises. */
  method OpeningParenthesis(s: ParserState) returns (r: Outcome)
    requires Ready(s)
    ensures r.Success? ==> Evolves(s, r.value)
    ensures IsChar(Tok(s), ')') && |s.stack| >= 1 ==>
      r.Success? && Unwound(s, r.value) && r.value.marker == Some(s.token) && NoBlock(s, r.value)
    ensures IsChar(Tok(s), ')') && |s.stack| == 0 ==> r == Fail(s, EmptyStack)
    ensures Tok(s).kind == StringTok || Tok(s).kind == ExtendedIdentifierTok ==> ItemStarted(s, r)
    ensures IsSpace(Tok(s).kind) ==>
      r.Success? && Kept(s, r.value) && OneTokenBlock(s, r.value, FillerBlock(Tok(s).kind)) && r.value.marker == s.marker
    ensures Tok(s).kind == LinebreakTok ==>
      r.Success? && Kept(s, r.value) && OneTokenBlock(s, r.value, LinebreakBlk) && r.value.marker == Some(s.token)
    ensures IsComment(Tok(s).kind) ==> r.Success? && Kept(s, r.value) && SplitClause(s, r.value, OpenBlock, CommentBlk)
    ensures (!IsChar(Tok(s), ')') && !IsFiller(Tok(s).kind) && Tok(s).kind != StringTok &&
             Tok(s).kind != ExtendedIdentifierTok) ==> r == Fail(s, UnexpectedToken)
  {
    var k := Tok(s).kind;
    if IsChar(Tok(s), ')') {
      assert k == CharacterTok;
      r := Empty(s);
    } else if k == StringTok || k == ExtendedIdentifierTok {
      assert !IsFiller(k);
      r := Item(s);
    } else if IsFiller(k) {
      var t := OpenFiller(s);
      r := Success(t);
    } else {
      r := Fail(s, UnexpectedToken);
    }
  }

  /** The filler tokens right after `"("`. */
  method OpenFiller(s: ParserState) returns (r: ParserState)
    requires Ready(s) && IsFiller(Tok(s).kind)
    ensures Evolves(s, r) && Kept(s, r)
    ensures IsSpace(Tok(s).kind) ==> OneTokenBlock(s, r, FillerBlock(Tok(s).kind)) && r.marker == s.marker
    ensures Tok(s).kind == LinebreakTok ==> OneTokenBlock(s, r, LinebreakBlk) && r.marker == Some(s.token)
    ensures IsComment(Tok(s).kind) ==> SplitClause(s, r, OpenBlock, CommentBlk)
  {
    var k := Tok(s).kind;
    if IsSpace(k) {
      r := Filler(s, false);
    } else if k == LinebreakTok {
      var t := Single(s, LinebreakBlk);
      r := SetMarker(t, Some(s.token));
    } else {
      r := Split(s, OpenBlock, CommentBlk);
    }
  }

  // ---------------------------------------------------------------------------
  // InterfaceConstantBlock

  /** `stateConstantKeyword`: a space moves on without a boundary; a line
      break or comment splits the item. */
  method ConstantKeywordState(s: ParserState) returns (r: Outcome)
    requires Ready(s)
    ensures IsSpace(Tok(s).kind) ==> r == Success(s.(handler := ConstantWhitespace1))
    ensures !IsSpace(Tok(s).kind) ==> AfterWordEffect(s, r, ConstantBlock, ConstantWhitespace1, true)
  {
    if IsSpace(Tok(s).kind) {
      r := Success(Goto(s, ConstantWhitespace1));
    } else {
      r := AfterWord(s, ConstantBlock, ConstantWhitespace1, true);
    }
  }

  /** `stateWhitespace1`: a word is the constant's name, an extended
      identifier too; whitespace is a gap. */
  method ConstantGap1(s: ParserState) returns (r: Outcome)
    requires Ready(s)
    ensures Tok(s).kind == StringTok ==>
      r.Success? && Moved(s, r.value, ConstantName) && Retagged(s, r.value, IdentifierTok) &&
      NoBlock(s, r.value) && r.value.marker == s.marker && Evolves(s, r.value)
    ensures Tok(s).kind == ExtendedIdentifierTok ==> r == Success(s.(handler := ConstantName))
    ensures Tok(s).kind != StringTok && Tok(s).kind != ExtendedIdentifierTok ==> GapEffect(s, r, ConstantBlock, false, true)
  {
    if Tok(s).kind == StringTok {
      var t := RetagTo(s, IdentifierTok, ConstantName);
      r := Success(t);
    } else if Tok(s).kind == ExtendedIdentifierTok {
      r := Success(Goto(s, ConstantName));
    } else {
      r := Gap(s, ConstantBlock, false, true);
    }
  }

  /** `stateConstantName`: whitespace must follow the name. */
  method ConstantNameState(s: ParserState) returns (r: Outcome)
    requires Ready(s)
    ensures AfterWordEffect(s, r, ConstantBlock, ConstantWhitespace2, true)
  {
    r := AfterWord(s, ConstantBlock, ConstantWhitespace2, true);
  }

  /** `stateWhitespace2`: `":"` is a delimiter; whitespace is a gap. */
  method ConstantGap2(s: ParserState) returns (r: Outcome)
    requires Ready(s)
    ensures IsChar(Tok(s), ':') ==>
      r.Success? && Moved(s, r.value, ConstantColon1) && Retagged(s, r.value, DelimiterTok) &&
      NoBlock(s, r.value) && r.value.marker == s.marker && Evolves(s, r.value)
    ensures !IsChar(Tok(s), ':') ==> GapEffect(s, r, ConstantBlock, false, true)
  {
    if IsChar(Tok(s), ':') {
      var t := RetagTo(s, DelimiterTok, ConstantColon1);
      r := Success(t);
    } else {
      r := Gap(s, ConstantBlock, false, true);
    }
  }

  /** `stateColon1`: a word is the mode IN or the type mark; whitespace must
      follow otherwise. An extended identifier raises here. */
  method Colon1(s: ParserState) returns (r: Outcome)
    requires Ready(s)
    ensures r.Success? ==> Evolves(s, r.value)
    ensures IsWord(s, "in") ==>
      r.Success? && Moved(s, r.value, ConstantInKeyword) && Retagged(s, r.value, KeywordTok("in")) && NoBlock(s, r.value)
    ensures Tok(s).kind == StringTok && !IsWord(s, "in") ==>
      r.Success? && Moved(s, r.value, ConstantSubtypeIndication) && Retagged(s, r.value, IdentifierTok) && NoBlock(s, r.value)
    ensures Tok(s).kind != StringTok ==> AfterWordEffect(s, r, ConstantBlock, ConstantWhitespace3, true)
  {
    if Tok(s).kind == StringTok {
      var t := Typed(s);
      r := Success(t);
    } else {
      r := AfterWord(s, ConstantBlock, ConstantWhitespace3, true);
    }
  }

  /** `stateWhitespace3`: a word is the mode IN or the type mark, an extended
      identifier the type mark; whitespace is a gap. */
  method ConstantGap3(s: ParserState) returns (r: Outcome)
    requires Ready(s)
    ensures r.Success? ==> Evolves(s, r.value)
    ensures IsWord(s, "in") ==>
      r.Success? && Moved(s, r.value, ConstantInKeyword) && Retagged(s, r.value, KeywordTok("in")) && NoBlock(s, r.value)
    ensures Tok(s).kind == StringTok && !IsWord(s, "in") ==>
      r.Success? && Moved(s, r.value, ConstantSubtypeIndication) && Retagged(s, r.value, IdentifierTok) && NoBlock(s, r.value)
    ensures Tok(s).kind == ExtendedIdentifierTok ==> r == Success(s.(handler := ConstantSubtypeIndication))
    ensures Tok(s).kind != StringTok && Tok(s).kind != ExtendedIdentifierTok ==> GapEffect(s, r, ConstantBlock, false, true)
  {
    if Tok(s).kind == StringTok {
      var t := Typed(s);
      r := Success(t);
    } else if Tok(s).kind == ExtendedIdentifierTok {
      r := Success(Goto(s, ConstantSubtypeIndication));
    } else {
      r := Gap(s, ConstantBlock, false, true);
    }
  }

  /** `stateInKeyword`: a space moves on without a boundary; a line break or
      comment splits the item. */
  method InKeyword(s: ParserState) returns (r: Outcome)
    requires Ready(s)
    ensures IsSpace(Tok(s).kind) ==> r == Success(s.(handler := ConstantWhitespace4))
    ensures !IsSpace(Tok(s).kind) ==> AfterWordEffect(s, r, ConstantBlock, ConstantWhitespace4, true)
  {
    if IsSpace(Tok(s).kind) {
      r := Success(Goto(s, ConstantWhitespace4));
    } else {
      r := AfterWord(s, ConstantBlock, ConstantWhitespace4, true);
    }
  }

  /** `stateWhitespace4`: a word or extended identifier is the type mark;
      whitespace is a gap. */
  method ConstantGap4(s: ParserState) returns (r: Outcome)
    requires Ready(s)
    ensures Tok(s).kind == StringTok ==>
      r.Success? && Moved(s, r.value, ConstantSubtypeIndication) && Retagged(s, r.value, IdentifierTok) &&
      NoBlock(s, r.value) && r.value.marker == s.marker && Evolves(s, r.value)
    ensures Tok(s).kind == ExtendedIdentifierTok ==> r == Success(s.(handler := ConstantSubtypeIndication))
    ensures Tok(s).kind != StringTok && Tok(s).kind != ExtendedIdentifierTok ==> GapEffect(s, r, ConstantBlock, false, true)
  {
    if Tok(s).kind == StringTok {
      var t := RetagTo(s, IdentifierTok, ConstantSubtypeIndication);
      r := Success(t);
    } else if Tok(s).kind == ExtendedIdentifierTok {
      r := Success(Goto(s, ConstantSubtypeIndication));
    } else {
      r := Gap(s, ConstantBlock, false, true);
    }
  }

  /** `stateSubtypeIndication`: `":="`, `";"` and `")"` end the subtype;
      whitespace must follow otherwise, and any other character raises. */
  method SubtypeIndication(s: ParserState) returns (r: Outcome)
    requires Ready(s)
    ensures ItemEnds(s) ==> ItemEnded(s, r)
    ensures !ItemEnds(s) ==> AfterWordEffect(s, r, ConstantBlock, ConstantWhitespace5, true)
  {
    if ItemEnds(s) {
      r := ItemEnd(s);
    } else {
      r := AfterWord(s, ConstantBlock, ConstantWhitespace5, true);
    }
  }

  /** `stateWhitespace5`: `":="`, `";"` and `")"` end the subtype; whitespace
      is a gap. */
  method ConstantGap5(s: ParserState) returns (r: Outcome)
    requires Ready(s)
    ensures ItemEnds(s) ==> ItemEnded(s, r)
    ensures !ItemEnds(s) ==> GapEffect(s, r, ConstantBlock, false, true)
  {
    if ItemEnds(s) {
      r := ItemEnd(s);
    } else {
      r := Gap(s, ConstantBlock, false, true);
    }
  }

  // ---------------------------------------------------------------------------
  // DelimiterBlock

  /** What `stateItemDelimiter` does with every token but a comment: a word
      or extended identifier starts the next item; a space moves back to the
      item state; a line break becomes a line-break block that marks itself
      and moves back too; anything else raises. */
  ghost predicate Delimited(s: ParserState, r: Outcome)
    requires Ready(s)
  {
    (Tok(s).kind == StringTok || Tok(s).kind == ExtendedIdentifierTok ==> ItemStarted(s, r)) &&
    (IsSpace(Tok(s).kind) ==> r == Success(s.(handler := GenericOpeningParenthesis))) &&
    (Tok(s).kind == LinebreakTok ==>
       r.Success? && Moved(s, r.value, GenericOpeningParenthesis) && OneTokenBlock(s, r.value, LinebreakBlk) &&
       r.value.marker == Some(s.token) && Evolves(s, r.value)) &&
    (!IsFiller(Tok(s).kind) && Tok(s).kind != StringTok && Tok(s).kind != ExtendedIdentifierTok ==>
       r == Fail(s, UnexpectedToken))
  }

  /** `stateItemDelimiter` as written: its comment branch calls the delimiter
      block class with `endToken` and `multiPart`, which its two-argument
      constructor does not take, so a comment after `";"` raises
      `TypeError`. */
  method ItemDelimiterAsWritten(s: ParserState) returns (r: Outcome)
    requires Ready(s)
    ensures IsComment(Tok(s).kind) ==> r == Fail(s, WrongArguments)
    ensures !IsComment(Tok(s).kind) ==> Delimited(s, r)
  {
    if IsComment(Tok(s).kind) {
      r := Fail(s, WrongArguments);
    } else {
      r := ItemDelimiter(s);
    }
  }

  /** `stateItemDelimiter` as intended: a comment splits the clause like it
      does in `stateOpeningParenthesis`, with the delimiter block's class. */
  method ItemDelimiter(s: ParserState) returns (r: Outcome)
    requires Ready(s)
    ensures IsComment(Tok(s).kind) ==>
      r.Success? && Kept(s, r.value) && SplitClause(s, r.value, DelimiterBlock, CommentBlk) && Evolves(s, r.value)
    ensures !IsComment(Tok(s).kind) ==> Delimited(s, r)
  {
    var k := Tok(s).kind;
    if k == StringTok || k == ExtendedIdentifierTok {
      r := Item(s);
    } else if IsSpace(k) {
      r := Success(Goto(s, GenericOpeningParenthesis));
    } else if k == LinebreakTok {
      var t := Single(s, LinebreakBlk);
      r := Success(Goto(SetMarker(t, Some(s.token)), GenericOpeningParenthesis));
    } else if IsComment(k) {
      var t := Split(s, DelimiterBlock, CommentBlk);
      r := Success(t);
    } else {
      r := Fail(s, UnexpectedToken);
    }
  }

  /** On a comment after `";"`, where the two readings part. */
  method CommentAfterDelimiter(s: ParserState) returns (asWritten: Outcome, intended: Outcome)
    requires Ready(s) && IsComment(Tok(s).kind)
    ensures asWritten.Failure? && asWritten.error.kind == WrongArguments
    ensures intended.Success? && SplitClause(s, intended.value, DelimiterBlock, CommentBlk)
  {
    asWritten := ItemDelimiterAsWritten(s);
    intended := ItemDelimiter(s);
  }

  // ---------------------------------------------------------------------------
  // CloseBlock

  /** `stateClosingParenthesis`, where the list resumes after `")"`: `";"`
      ends the close block through it and pops one level; a space moves on
      without a boundary; a line break or comment splits the close block. */
  method ClosingParenthesis(s: ParserState) returns (r: Outcome)
    requires Ready(s)
    ensures r.Success? ==> Evolves(s, r.value)
    ensures IsChar(Tok(s), ';') && |s.stack| >= 1 ==>
      r.Success? && EndedWith(s, r.value, EndTok, CloseBlock) && Popped(s, r.value, 1)
    ensures IsChar(Tok(s), ';') && |s.stack| == 0 ==> r == Fail(s, EmptyStack)
    ensures IsSpace(Tok(s).kind) ==> r == Success(s.(handler := GenericCloseWhitespace1))
    ensures !IsChar(Tok(s), ';') && !IsSpace(Tok(s).kind) ==> AfterWordEffect(s, r, CloseBlock, GenericCloseWhitespace1, true)
  {
    if IsChar(Tok(s), ';') {
      r := ThroughAndPop(s, EndTok, CloseBlock, 1);
    } else if IsSpace(Tok(s).kind) {
      r := Success(Goto(s, GenericCloseWhitespace1));
    } else {
      r := AfterWord(s, CloseBlock, GenericCloseWhitespace1, true);
    }
  }

  /** `CloseBlock.stateWhitespace1`: `";"` ends the close block and pops; a
      line break is a line-break block that clears the marker; a comment is a
      comment block that marks itself; an indentation after a line break is
      skipped and a space after a multi-line comment is a boundary; anything
      else raises. */
  method CloseGap(s: ParserState) returns (r: Outcome)
    requires Ready(s)
    ensures r.Success? ==> Evolves(s, r.value)
    ensures IsChar(Tok(s), ';') && |s.stack| >= 1 ==>
      r.Success? && EndedWith(s, r.value, EndTok, CloseBlock) && Popped(s, r.value, 1)
    ensures IsChar(Tok(s), ';') && |s.stack| == 0 ==> r == Fail(s, EmptyStack)
    ensures Tok(s).kind == LinebreakTok ==>
      r.Success? && Kept(s, r.value) && OneTokenBlock(s, r.value, LinebreakBlk) && r.value.marker.None?
    ensures IsComment(Tok(s).kind) ==>
      r.Success? && Kept(s, r.value) && OneTokenBlock(s, r.value, CommentBlk) && r.value.marker == Some(s.token)
    ensures Tok(s).kind == IndentationTok && PrevIsBreak(s) ==> r == Success(s)
    ensures IsSpace(Tok(s).kind) && !(Tok(s).kind == IndentationTok && PrevIsBreak(s)) && AfterMultiLineComment(s) ==>
      r.Success? && Kept(s, r.value) && Spaced(s, r.value)
    ensures !IsChar(Tok(s), ';') && !GapAccepts(s, true) ==> r == Fail(s, UnexpectedToken)
  {
    var k := Tok(s).kind;
    if IsChar(Tok(s), ';') {
      r := ThroughAndPop(s, EndTok, CloseBlock, 1);
    } else if k == LinebreakTok {
      var t := Blank(s, LinebreakBlk);
      r := Success(t);
    } else if IsComment(k) {
      var t := Single(s, CommentBlk);
      r := Success(SetMarker(t, Some(s.token)));
    } else if IsSpace(k) {
      r := Pad(s, true);
    } else {
      r := Fail(s, UnexpectedToken);
    }
  }
}
