/** The generic list `GENERIC ( ... );` of the older generation
    (src/Blocks/List/GenericList.py): the keyword and the opening
    parenthesis. The item, delimiter and close states are the shared list
    states of `Common` with the shape `Generics`. Every raise of this file
    names `BlockParserException`, which it never imports, so each one is a
    `NameError`. */
module LegacyGenericList {
  import opened Results
  import opened Tokens
  import opened Blocks
  import opened Handlers
  import opened Engine
  import opened Effects
  import opened Moves
  import opened CharMoves
  import Common

  const Generics := Common.ListShape(
    "GenericList.OpenBlock", "GenericList.ItemBlock", "GenericList.DelimiterBlock", "GenericList.CloseBlock",
    ';',
    OldGenericOpeningParenthesis, OldItemRemainder, OldItemDelimiter, OldCloseWhitespace1,
    NameNotDefined, NameNotDefined)

  /** `"("` opened the list: the open block ends with its boundary
      replacement, the opening-parenthesis state is pushed over the closing
      one and the depth is one. */
  ghost predicate Opened(s: ParserState, r: ParserState)
    requires Ready(s)
  {
    ListOpened(s, r, BoundaryTok, Generics.open, OldClosingParenthesis, OldGenericOpeningParenthesis, 1)
  }

  /** `OpenBlock.stateGenericKeyword`: `"("` opens the list; otherwise the
      keyword must be followed by whitespace, a line break or a comment. */
  method Keyword(s: ParserState) returns (r: Outcome)
    requires Ready(s)
    ensures IsChar(Tok(s), '(') ==> r.Success? && Opened(s, r.value) && Evolves(s, r.value)
    ensures !IsChar(Tok(s), '(') ==>
      WordEnded(s, r, Generics.open, OldGenericWhitespace1, OldGenericWhitespace1, Included, false, true, NameNotDefined)
  {
    if IsChar(Tok(s), '(') {
      var t := OpenList(s, BoundaryTok, Generics.open, OldClosingParenthesis, OldGenericOpeningParenthesis, 1);
      r := Success(t);
    } else {
      r := EndWord(s, Generics.open, OldGenericWhitespace1, OldGenericWhitespace1, Included, false, true, NameNotDefined);
    }
  }

  /** `OpenBlock.stateWhitespace1`: `"("` opens the list; a line break ends
      the open block through its replacement and a comment start splits it,
      both coming back here; anything else, whitespace included, raises. */
  method Whitespace1(s: ParserState) returns (r: Outcome)
    requires Ready(s)
    ensures r.Success? ==> Evolves(s, r.value)
    ensures IsChar(Tok(s), '(') ==> r.Success? && Opened(s, r.value)
    ensures IsNewline(s) ==> r.Success? && LineEnded(s, r.value, Generics.open, OldGenericWhitespace1)
    ensures IsCommentStart(s) ==> r.Success? && CommentStarted(s, r.value, Generics.open, OldGenericWhitespace1)
    ensures !IsChar(Tok(s), '(') && !IsNewline(s) && !IsCommentStart(s) ==> r == Fail(s, NameNotDefined)
  {
    if IsChar(Tok(s), '(') {
      assert !IsNewline(s) && !IsCommentStart(s);
      var t := OpenList(s, BoundaryTok, Generics.open, OldClosingParenthesis, OldGenericOpeningParenthesis, 1);
      r := Success(t);
    } else if IsNewline(s) {
      assert !IsCommentStart(s);
      var t := EndLine(s, Generics.open, OldGenericWhitespace1);
      r := Success(t);
    } else if IsCommentStart(s) {
      var t := CommentStart(s, Generics.open, OldGenericWhitespace1);
      r := Success(t);
    } else {
      r := Fail(s, NameNotDefined);
    }
  }

  /** `OpenBlock.stateOpeningParenthesis`: a comment start splits the open
      block and moves back to `stateWhitespace1`; every other token is
      handled as by the shared list states. */
  method OpeningParenthesis(s: ParserState) returns (r: Outcome)
    requires Ready(s)
    ensures IsCommentStart(s) ==>
      r.Success? && CommentStarted(s, r.value, Generics.open, OldGenericWhitespace1)
    ensures Common.ListOpen(s, r, Generics)
  {
    if IsCommentStart(s) {
      assert !IsChar(Tok(s), ')') && !IsNewline(s) && !IsSpace(Tok(s).kind);
      var t := CommentStart(s, Generics.open, OldGenericWhitespace1);
      r := Success(t);
    } else {
      r := Common.OpeningParenthesis(s, Generics);
    }
  }
}
