/** The shared blocks of the older generation (src/Blocks/Common.py): the
    state that follows a line break, the width of an indentation, and the
    sensitivity list `( name {, name} )` of a process (section 11.3 of
    IEEE 1076-2008). Every state here reads single characters. */
module Common {
  import opened Results
  import opened Tokens
  import opened Blocks
  import opened Handlers
  import opened Engine
  import opened Effects
  import opened Moves
  import opened CharMoves
  import GenericList

  // ---------------------------------------------------------------------------
  // EmptyLineBlock

  /** `EmptyLineBlock.stateLinebreak`, pushed over a state by a line break:
      - whitespace is retagged as indentation, an indentation block from the
        marker through the replacement is queued and the frame is left;
      - anything else leaves the frame, marks the current token when the
        marker is empty, and is handed to the resumed state again
        (`reissue`).
      An empty stack raises. */
  method Linebreak(s: ParserState) returns (r: Outcome, reissue: bool)
    requires Ready(s)
    ensures r.Success? ==> Evolves(s, r.value)
    ensures |s.stack| == 0 ==> r == Fail(s, EmptyStack)
    ensures IsSpace(Tok(s).kind) && 1 <= |s.stack| ==>
      r.Success? && !reissue && Retagged(s, r.value, IndentationTok) &&
      Appended(s, r.value, IndentationBlk, Rebased(s), Some(|s.tokens|), false) &&
      Popped(s, r.value, 1)
    ensures !IsSpace(Tok(s).kind) && 1 <= |s.stack| ==>
      r.Success? && reissue && NoBlock(s, r.value) && NoRetag(s, r.value) &&
      GenericList.Unwound(s, r.value) &&
      r.value.marker == (var top := s.stack[|s.stack| - 1];
                         if s.gen == Current && top.marker.Some? then top.marker else Some(s.token))
  {
    if IsSpace(Tok(s).kind) {
      r := Indent(s);
      reissue := false;
    } else {
      r := Resume(s);
      reissue := true;
    }
  }

  /** `stateLinebreak` on whitespace. */
  method Indent(s: ParserState) returns (r: Outcome)
    requires Ready(s)
    ensures |s.stack| == 0 ==> r == Fail(s, EmptyStack)
    ensures 1 <= |s.stack| ==>
      r.Success? && Retagged(s, r.value, IndentationTok) &&
      Appended(s, r.value, IndentationBlk, Rebased(s), Some(|s.tokens|), false) &&
      Popped(s, r.value, 1) && Evolves(s, r.value)
  {
    var t := IndentationThrough(s);
    r := Pop(t, 1);
  }

  /** The indentation block of `stateLinebreak`, from the marker through
      the replacement of the current token. */
  method IndentationThrough(s: ParserState) returns (r: ParserState)
    requires Ready(s)
    ensures Retagged(s, r, IndentationTok)
    ensures Appended(s, r, IndentationBlk, Rebased(s), Some(|s.tokens|), false)
    ensures Kept(s, r)
    ensures Evolves(s, r)
  {
    var t := Retag(s, IndentationTok);
    r := QueueAtMarker(t, IndentationBlk, t.newToken, false);
  }

  /** `stateLinebreak` on anything else, before the reissue. */
  method Resume(s: ParserState) returns (r: Outcome)
    requires Ready(s)
    ensures |s.stack| == 0 ==> r == Fail(s, EmptyStack)
    ensures 1 <= |s.stack| ==>
      r.Success? && NoBlock(s, r.value) && NoRetag(s, r.value) &&
      GenericList.Unwound(s, r.value) && Evolves(s, r.value) &&
      r.value.marker == (var top := s.stack[|s.stack| - 1];
                         if s.gen == Current && top.marker.Some? then top.marker else Some(s.token))
  {
    r := Pop(s, 1);
    if r.Success? && r.value.marker.None? {
      r := Success(SetMarker(r.value, Some(s.token)));
    }
  }

  // ---------------------------------------------------------------------------
  // IndentationBlock

  /** `IndentationBlock.__TABSIZE__`. */
  const TabSize := 2

  /** The width `IndentationBlock.__str__` reports for the text of its
      tokens: a tab counts `TabSize` columns, any other character one. */
  function IndentationWidth(text: string): (w: nat)
    ensures w == |text| + (TabSize - 1) * multiset(text)['\t']
    ensures |text| <= w <= TabSize * |text|
    ensures w == |text| <==> '\t' !in text
  {
    if text == [] then 0
    else
      assert text == [text[0]] + text[1..];
      assert multiset(text) == multiset{text[0]} + multiset(text[1..]);
      (if text[0] == '\t' then TabSize else 1) + IndentationWidth(text[1..])
  }

  /** The width only depends on how many tabs the text holds, not on where
      they stand. */
  lemma {:induction false} WidthOfConcatenation(a: string, b: string)
    ensures IndentationWidth(a + b) == IndentationWidth(a) + IndentationWidth(b)
    ensures IndentationWidth(a + b) == IndentationWidth(b + a)
  {
    assert multiset(a + b) == multiset(a) + multiset(b);
    assert multiset(b + a) == multiset(b) + multiset(a);
  }

  // ---------------------------------------------------------------------------
  // Parenthesised lists

  /** The older generation writes its parenthesised lists (the sensitivity
      list, the generic list) as the same four block classes with the same
      states; a `ListShape` names what differs: the block classes, the item
      separator, the handlers of the list's states and the error each raise
      produces. */
  datatype ListShape = ListShape(
    open: string, item: string, delimiter: string, close: string,
    separator: char,
    opening: Handler, remainder: Handler, delimiting: Handler, closeWhitespace: Handler,
    unexpected: ErrorKind, mismatch: ErrorKind)

  /** `SensitivityList` of src/Blocks/Common.py. */
  const Sensitivity := ListShape(
    "SensitivityList.OpenBlock", "SensitivityList.ItemBlock",
    "SensitivityList.DelimiterBlock", "SensitivityList.CloseBlock",
    ',',
    SensitivityOpeningParenthesis, SensitivityItemRemainder, SensitivityItemDelimiter, SensitivityCloseWhitespace1,
    UnexpectedToken, Mismatch)

  /** What `OpenBlock.stateOpeningParenthesis` does with every token but a
      comment start:
      - `")"` leaves the list and marks the parenthesis itself;
      - a line break is retagged and pushes `EmptyLineBlock.stateLinebreak`,
        marking its replacement;
      - whitespace becomes a one-token indentation block;
      - a word is an item's name: an identifier that marks the item's start
        and moves to the item state;
      anything else raises. */
  ghost predicate ListOpen(s: ParserState, r: Outcome, l: ListShape)
    requires Ready(s)
  {
    (r.Success? ==> Evolves(s, r.value)) &&
    (IsChar(Tok(s), ')') && 1 <= |s.stack| ==>
       r.Success? && GenericList.Unwound(s, r.value) && NoBlock(s, r.value) && NoRetag(s, r.value) &&
       r.value.marker == Some(s.token)) &&
    (IsChar(Tok(s), ')') && |s.stack| == 0 ==> r == Fail(s, EmptyStack)) &&
    (IsNewline(s) ==> r.Success? && LinePushed(s, r.value)) &&
    (IsSpace(Tok(s).kind) ==>
       r.Success? && Lone(s, r.value, IndentationTok, IndentationBlk) && Kept(s, r.value) &&
       r.value.marker == s.marker) &&
    (Tok(s).kind == StringTok ==>
       r.Success? && Moved(s, r.value, l.remainder) && Retagged(s, r.value, IdentifierTok) &&
       NoBlock(s, r.value) && r.value.marker == Some(|s.tokens|)) &&
    ((!IsChar(Tok(s), ')') && !IsNewline(s) && !IsCommentStart(s) && !IsSpace(Tok(s).kind) &&
      Tok(s).kind != StringTok) ==> r == Fail(s, l.unexpected))
  }

  /** `SensitivityList.OpenBlock.stateOpeningParenthesis` as written: a
      comment start moves on to `stateWhitespace1`, which `OpenBlock` does
      not define, so it raises `AttributeError`. */
  method SensitivityOpeningAsWritten(s: ParserState) returns (r: Outcome)
    requires Ready(s)
    ensures IsCommentStart(s) ==> r == Fail(s, UndefinedState)
    ensures ListOpen(s, r, Sensitivity)
  {
    if IsCommentStart(s) {
      assert !IsChar(Tok(s), ')') && !IsNewline(s) && !IsSpace(Tok(s).kind);
      r := Fail(s, UndefinedState);
    } else {
      r := OpeningParenthesis(s, Sensitivity);
    }
  }

  /** `SensitivityList.OpenBlock.stateOpeningParenthesis` as intended: a
      comment start splits the open block and the list resumes where it
      was, as the close block's `stateWhitespace1` does. */
  method SensitivityOpening(s: ParserState) returns (r: Outcome)
    requires Ready(s)
    ensures IsCommentStart(s) ==>
      r.Success? && CommentStarted(s, r.value, Sensitivity.open, SensitivityOpeningParenthesis)
    ensures ListOpen(s, r, Sensitivity)
  {
    if IsCommentStart(s) {
      assert !IsChar(Tok(s), ')') && !IsNewline(s) && !IsSpace(Tok(s).kind);
      var t := CommentStart(s, Sensitivity.open, SensitivityOpeningParenthesis);
      r := Success(t);
    } else {
      r := OpeningParenthesis(s, Sensitivity);
    }
  }

  /** `OpenBlock.stateOpeningParenthesis` on anything but a comment start. */
  method OpeningParenthesis(s: ParserState, l: ListShape) returns (r: Outcome)
    requires Ready(s) && !IsCommentStart(s)
    ensures ListOpen(s, r, l)
  {
    if IsChar(Tok(s), ')') {
      assert !IsNewline(s) && !IsSpace(Tok(s).kind);
      r := Pop(s, 1);
      if r.Success? {
        r := Success(SetMarker(r.value, Some(s.token)));
      }
    } else if IsNewline(s) {
      assert !IsSpace(Tok(s).kind);
      var t := PushLine(s);
      r := Success(t);
    } else if IsSpace(Tok(s).kind) {
      var t := Alone(s, IndentationTok, IndentationBlk, false);
      r := Success(t);
    } else if Tok(s).kind == StringTok {
      var t := MarkTo(s, IdentifierTok, l.remainder);
      r := Success(t);
    } else {
      r := Fail(s, l.unexpected);
    }
  }

  /** An item ended before the current token, whose replacement of class k
      is pending, and the replacement marks what follows. */
  ghost predicate ItemClosed(s: ParserState, r: ParserState, l: ListShape, k: Kind)
    requires Ready(s)
  {
    Retagged(s, r, k) && Appended(s, r, Named(l.item), Rebased(s), Tok(s).prev, false) &&
    r.marker == Some(|s.tokens|)
  }

  /** `ItemBlock.stateItemRemainder`: the counter is the parenthesis depth.
      `"("` deepens it; `")"` makes it shallower, and at depth zero the item
      ends before the boundary replacement and the list is left; the
      separator at depth one ends the item before the delimiter replacement,
      and deeper raises; anything else belongs to the item. While the list
      is not left, a positive depth stays positive. */
  method ItemRemainder(s: ParserState, l: ListShape) returns (r: Outcome)
    requires Ready(s) && l.separator != '(' && l.separator != ')'
    ensures r.Success? ==> Evolves(s, r.value)
    ensures IsChar(Tok(s), '(') ==> r == Success(s.(counter := s.counter + 1))
    ensures IsChar(Tok(s), ')') && s.counter != 1 ==> r == Success(s.(counter := s.counter - 1))
    ensures IsChar(Tok(s), ')') && s.counter == 1 && 1 <= |s.stack| ==>
      r.Success? && ItemClosed(s, r.value, l, BoundaryTok) && GenericList.Unwound(s, r.value)
    ensures IsChar(Tok(s), ')') && s.counter == 1 && |s.stack| == 0 ==> r == Fail(s, EmptyStack)
    ensures IsChar(Tok(s), l.separator) && s.counter == 1 ==>
      r.Success? && ItemClosed(s, r.value, l, DelimiterTok) && Moved(s, r.value, l.delimiting)
    ensures IsChar(Tok(s), l.separator) && s.counter != 1 ==> r == Fail(s, l.mismatch)
    ensures !IsChar(Tok(s), '(') && !IsChar(Tok(s), ')') && !IsChar(Tok(s), l.separator) ==> r == Success(s)
    ensures s.counter >= 1 && r.Success? && r.value.stack == s.stack ==> r.value.counter >= 1
  {
    if IsChar(Tok(s), '(') {
      r := Success(s.(counter := s.counter + 1));
    } else if IsChar(Tok(s), ')') && s.counter != 1 {
      r := Success(s.(counter := s.counter - 1));
    } else if IsChar(Tok(s), ')') {
      r := CloseItem(s, l);
    } else if IsChar(Tok(s), l.separator) && s.counter == 1 {
      var t := Before(s, DelimiterTok, l.item);
      r := Success(Goto(SetMarker(t, t.newToken), l.delimiting));
    } else if IsChar(Tok(s), l.separator) {
      r := Fail(s, l.mismatch);
    } else {
      r := Success(s);
    }
  }

  /** The closing `")"` of the list: the item ends and the frame is left. */
  method CloseItem(s: ParserState, l: ListShape) returns (r: Outcome)
    requires Ready(s)
    ensures 1 <= |s.stack| ==> r.Success? && ItemClosed(s, r.value, l, BoundaryTok) && GenericList.Unwound(s, r.value)
    ensures |s.stack| == 0 ==> r == Fail(s, EmptyStack)
    ensures r.Success? ==> Evolves(s, r.value) && r.value.stack != s.stack
  {
    r := BeforeAndPop(s, BoundaryTok, l.item, 1);
    if r.Success? {
      r := Success(SetMarker(r.value, Some(|s.tokens|)));
    }
  }

  /** `DelimiterBlock.stateItemDelimiter`: the delimiter the marker stands
      on always becomes a one-token block first; then a line break or
      whitespace goes back to the open state, a word starts the next item,
      and anything else raises. */
  method ItemDelimiter(s: ParserState, l: ListShape) returns (r: Outcome)
    requires Ready(s)
    ensures r.Success? ==> Evolves(s, r.value)
    ensures IsNewline(s) || IsSpace(Tok(s).kind) ==>
      r.Success? && Appended(s, r.value, Named(l.delimiter), MarkerNow(s), MarkerNow(s), false) &&
      NoRetag(s, r.value) && Moved(s, r.value, l.opening) && r.value.marker == MarkerNow(s)
    ensures Tok(s).kind == StringTok ==>
      r.Success? && Appended(s, r.value, Named(l.delimiter), MarkerNow(s), MarkerNow(s), false) &&
      Retagged(s, r.value, IdentifierTok) && Moved(s, r.value, l.remainder) &&
      r.value.marker == Some(|s.tokens|)
    ensures !IsNewline(s) && !IsSpace(Tok(s).kind) && Tok(s).kind != StringTok ==> r == Fail(s, l.unexpected)
  {
    var q := DelimiterQueued(s, l);
    if IsNewline(s) || IsSpace(Tok(s).kind) {
      r := Success(Goto(q, l.opening));
    } else if Tok(s).kind == StringTok {
      var t := Retag(q, IdentifierTok);
      r := Success(Goto(SetMarker(t, t.newToken), l.remainder));
    } else {
      r := Fail(s, l.unexpected);
    }
  }

  /** The delimiter block of `stateItemDelimiter`, over the marker alone. */
  method DelimiterQueued(s: ParserState, l: ListShape) returns (r: ParserState)
    requires Ready(s)
    ensures Appended(s, r, Named(l.delimiter), MarkerNow(s), MarkerNow(s), false)
    ensures NoRetag(s, r) && Kept(s, r) && r.marker == MarkerNow(s)
    ensures Evolves(s, r)
  {
    var m := MarkerNow(s);
    r := QueueAtMarker(s, Named(l.delimiter), m, false);
  }

  /** What both close-block states do with `";"`: the list statement ends
      through its end-token replacement and is left. */
  ghost predicate ListClosed(s: ParserState, r: Outcome, l: ListShape)
    requires Ready(s)
  {
    (1 <= |s.stack| ==> r.Success? && EndedWith(s, r.value, EndTok, l.close) && Popped(s, r.value, 1)) &&
    (|s.stack| == 0 ==> r == Fail(s, EmptyStack))
  }

  /** `CloseBlock.stateClosingParenthesis`: with `closes`, `";"` ends the
      list statement; a line break pushes the line-break state; a comment
      start splits the close block and moves on to `stateWhitespace1`;
      whitespace moves on to it; anything else raises. */
  method ClosingParenthesis(s: ParserState, l: ListShape, closes: bool) returns (r: Outcome)
    requires Ready(s)
    ensures r.Success? ==> Evolves(s, r.value)
    ensures closes && IsChar(Tok(s), ';') ==> ListClosed(s, r, l)
    ensures IsNewline(s) ==> r.Success? && LinePushed(s, r.value)
    ensures IsCommentStart(s) ==> r.Success? && CommentStarted(s, r.value, l.close, l.closeWhitespace)
    ensures IsSpace(Tok(s).kind) ==> r == Success(s.(handler := l.closeWhitespace))
    ensures !(closes && IsChar(Tok(s), ';')) && !WordEnds(s) ==> r == Fail(s, l.unexpected)
  {
    if closes && IsChar(Tok(s), ';') {
      assert !WordEnds(s);
      r := ThroughAndPop(s, EndTok, l.close, 1);
    } else if IsNewline(s) {
      assert !IsCommentStart(s) && !IsSpace(Tok(s).kind);
      var t := PushLine(s);
      r := Success(t);
    } else if IsCommentStart(s) {
      assert !IsSpace(Tok(s).kind);
      var t := CommentStart(s, l.close, l.closeWhitespace);
      r := Success(t);
    } else if IsSpace(Tok(s).kind) {
      r := Success(Goto(s, l.closeWhitespace));
    } else {
      r := Fail(s, l.unexpected);
    }
  }

  /** `CloseBlock.stateWhitespace1`: `";"` ends the list statement; a line
      break pushes the line-break state; a comment start splits the close
      block and resumes here; anything else raises. */
  method CloseWhitespace1(s: ParserState, l: ListShape) returns (r: Outcome)
    requires Ready(s)
    ensures r.Success? ==> Evolves(s, r.value)
    ensures IsChar(Tok(s), ';') ==> ListClosed(s, r, l)
    ensures IsNewline(s) ==> r.Success? && LinePushed(s, r.value)
    ensures IsCommentStart(s) ==> r.Success? && CommentStarted(s, r.value, l.close, s.handler)
    ensures !IsChar(Tok(s), ';') && !IsNewline(s) && !IsCommentStart(s) ==> r == Fail(s, l.unexpected)
  {
    if IsChar(Tok(s), ';') {
      assert !IsNewline(s) && !IsCommentStart(s);
      r := ThroughAndPop(s, EndTok, l.close, 1);
    } else if IsNewline(s) {
      assert !IsCommentStart(s);
      var t := PushLine(s);
      r := Success(t);
    } else if IsCommentStart(s) {
      var t := CommentStart(s, l.close, s.handler);
      r := Success(t);
    } else {
      r := Fail(s, l.unexpected);
    }
  }
}
