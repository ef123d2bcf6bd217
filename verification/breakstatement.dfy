/** `BreakBlock` of the older generation (src/Blocks/ControlStructure/Break.py):
    the states of the break statement's opening `BREAK name`. The file was
    written after the pattern of a header with a closing IS: a line break
    after a word chains a line-break block behind the clause, and IS after
    the name moves to `stateDeclarativeRegion`, which `BreakBlock` does not
    define. */
module BreakStatement {
  import opened Results
  import opened Tokens
  import opened Blocks
  import opened Handlers
  import opened Engine
  import opened Effects
  import opened Moves
  import opened CharMoves

  const BreakBlock := "Break.BreakBlock"

  /** `stateBreakKeyword`: whitespace must follow BREAK. */
  method Keyword(s: ParserState) returns (r: Outcome)
    requires Ready(s)
    ensures WordEnded(s, r, BreakBlock, BreakWhitespace1, BreakWhitespace1, Chained, true, true, UnexpectedToken)
  {
    r := EndWord(s, BreakBlock, BreakWhitespace1, BreakWhitespace1, Chained, true, true, UnexpectedToken);
  }

  /** `stateWhitespace1`: a word is the name; besides it only a comment start
      is accepted. */
  method Whitespace1(s: ParserState) returns (r: Outcome)
    requires Ready(s)
    ensures r.Success? ==> Evolves(s, r.value)
    ensures Tok(s).kind == StringTok ==>
      r.Success? && Moved(s, r.value, BreakName) && Retagged(s, r.value, IdentifierTok) &&
      NoBlock(s, r.value) && r.value.marker == s.marker
    ensures Tok(s).kind != StringTok ==> GapFilled(s, r, BreakBlock, false, UnexpectedToken)
  {
    if Tok(s).kind == StringTok {
      var t := RetagTo(s, IdentifierTok, BreakName);
      r := Success(t);
    } else {
      r := Between(s, BreakBlock, false, UnexpectedToken);
    }
  }

  /** `stateBreakName`: whitespace must follow the name. */
  method Name(s: ParserState) returns (r: Outcome)
    requires Ready(s)
    ensures WordEnded(s, r, BreakBlock, BreakWhitespace2, BreakWhitespace2, Chained, false, true, UnexpectedToken)
  {
    r := EndWord(s, BreakBlock, BreakWhitespace2, BreakWhitespace2, Chained, false, true, UnexpectedToken);
  }

  /** `stateWhitespace2`: a comment start splits the clause; IS names a
      successor state that does not exist, so it fails as every other token
      does, with an `AttributeError` instead of the parser exception. */
  method Whitespace2(s: ParserState) returns (r: Outcome)
    requires Ready(s)
    ensures IsWord(s, "is") ==> r == Fail(s, UndefinedState)
    ensures !IsWord(s, "is") ==> GapFilled(s, r, BreakBlock, false, UnexpectedToken)
  {
    if IsWord(s, "is") {
      r := Fail(s, UndefinedState);
    } else {
      r := Between(s, BreakBlock, false, UnexpectedToken);
    }
  }
}
