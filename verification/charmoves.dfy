/** The moves of the character-level handlers. In
    `pyVHDLParser/Blocks/Structural/Architecture.py` and in the older `src/`
    generation a line break, `"-"` and `"/"` arrive as character tokens: a
    line break is retagged by the handler itself and a `"-"` or `"/"` may start
    a comment, whose handler is pushed. */
module CharMoves {
  import opened Results
  import opened Tokens
  import opened Blocks
  import opened Handlers
  import opened Engine
  import opened Effects
  import opened Moves

  // ---------------------------------------------------------------------------
  // Tests on the current token

  /** The current token is the line-break character. */
  predicate IsNewline(s: ParserState)
    requires WF(s)
  {
    IsChar(Tok(s), '\n')
  }

  /** The current token is `"-"` or `"/"`: a possible comment start. */
  predicate IsCommentStart(s: ParserState)
    requires WF(s)
  {
    IsChar(Tok(s), '-') || IsChar(Tok(s), '/')
  }

  const SingleLineCommentStart := Opaque("SingleLineCommentBlock.statePossibleCommentStart")
  const MultiLineCommentStart := Opaque("MultiLineCommentBlock.statePossibleCommentStart")

  /** The handler a line break pushes in the current generation; it is not
      part of this model. */
  const LinebreakState := Opaque("LinebreakBlock.stateLinebreak")

  /** The comment handler a comment start pushes: `"-"` may start a
      single-line comment, `"/"` a multi-line one. */
  function CommentHandler(s: ParserState): (h: Handler)
    requires WF(s)
    ensures IsChar(Tok(s), '-') ==> h == SingleLineCommentStart
    ensures !IsChar(Tok(s), '-') ==> h == MultiLineCommentStart
  {
    if IsChar(Tok(s), '-') then SingleLineCommentStart else MultiLineCommentStart
  }

  /** How a line break after a word ends the clause:
      - `Chained`: the clause ends before the line break and a line-break block
        over its replacement is chained behind it; `LinebreakBlock.stateLinebreak`
        is pushed;
      - `Included`: the clause ends with the line-break replacement itself and
        `EmptyLineBlock.stateLinebreak` is pushed. */
  datatype LineStyle = Chained | Included

  // ---------------------------------------------------------------------------
  // Effects

  /** The marker was cleared and then `h` was pushed over `resume`: one frame
      of `resume`, no marker and the counter. */
  ghost predicate Suspended(s: ParserState, r: ParserState, resume: Handler, h: Handler) {
    r.stack == s.stack + [Frame(resume, None, s.counter)] && r.handler == h && r.counter == s.counter
  }

  /** A comment start split the clause: a multi-part `cls` block from the
      marker to the token before the character was queued, the comment
      handler was pushed over `resume`, and only then the marker was set to
      the character. */
  ghost predicate CommentStarted(s: ParserState, r: ParserState, cls: string, resume: Handler)
    requires Ready(s)
  {
    Appended(s, r, Named(cls), MarkerNow(s), Tok(s).prev, true) && NoRetag(s, r) &&
    Suspended(s, r, resume, CommentHandler(s)) && r.marker == Some(s.token)
  }

  /** A comment start in a region: the comment handler was pushed over the
      region with the marker as it stood, and then the marker was set to the
      character; no block. */
  ghost predicate CommentPushed(s: ParserState, r: ParserState)
    requires WF(s)
  {
    PushedTo(s, r, CommentHandler(s)) && NoBlock(s, r) && NoRetag(s, r) && r.marker == Some(s.token)
  }

  /** A line break after a word, `Chained` style: a multi-part `cls` block
      from the marker to the token before the line break, a line-break block
      over its replacement chained behind it, and `LinebreakBlock.stateLinebreak`
      pushed over `resume`. */
  ghost predicate LineSplit(s: ParserState, r: ParserState, cls: string, resume: Handler)
    requires Ready(s)
  {
    Retagged(s, r, LinebreakTok) &&
    AppendedTwo(s, r, Named(cls), MarkerNow(s), Tok(s).prev, true, LinebreakBlk, |s.tokens|) &&
    Suspended(s, r, resume, LinebreakState) && r.marker.None?
  }

  /** A line break after a word, `Included` style: a multi-part `cls` block
      from the marker through the line-break replacement, and
      `EmptyLineBlock.stateLinebreak` pushed over `resume`. */
  ghost predicate LineEnded(s: ParserState, r: ParserState, cls: string, resume: Handler)
    requires Ready(s)
  {
    Retagged(s, r, LinebreakTok) &&
    Appended(s, r, Named(cls), Rebased(s), Some(|s.tokens|), true) &&
    Suspended(s, r, resume, Linebreak) && r.marker.None?
  }

  /** A line break in a whitespace state of the current generation: it is
      retagged first; the clause so far becomes a multi-part `cls` block
      ending before it with a line-break block over the replacement chained
      behind, or, right after a multi-line comment block, the line-break
      block stands alone; `LinebreakBlock.stateLinebreak` is pushed over the
      state itself. */
  ghost predicate LineBroken(s: ParserState, r: ParserState, cls: string)
    requires Ready(s)
  {
    Retagged(s, r, LinebreakTok) &&
    (!AfterMultiLineCommentBlock(s) ==>
       AppendedTwo(s, r, Named(cls), Rebased(s), Tok(s).prev, true, LinebreakBlk, |s.tokens|)) &&
    (AfterMultiLineCommentBlock(s) ==>
       Appended(s, r, LinebreakBlk, Some(|s.tokens|), Some(|s.tokens|), false)) &&
    Suspended(s, r, s.handler, LinebreakState) && r.marker.None?
  }

  /** A line break inside a list of the older generation: it is retagged,
      `EmptyLineBlock.stateLinebreak` is pushed over the state itself and the
      marker is the replacement; no block. */
  ghost predicate LinePushed(s: ParserState, r: ParserState)
    requires WF(s)
  {
    Retagged(s, r, LinebreakTok) && NoBlock(s, r) &&
    Suspended(s, r, s.handler, Linebreak) && r.marker == Some(|s.tokens|)
  }

  /** The current token was retagged as k and a one-token block of class b
      over the replacement was queued. */
  ghost predicate Lone(s: ParserState, r: ParserState, k: Kind, b: BlockKind)
    requires Ready(s)
  {
    Retagged(s, r, k) && Appended(s, r, b, Some(|s.tokens|), Some(|s.tokens|), false)
  }

  // ---------------------------------------------------------------------------
  // Moves

  /** A comment start inside a clause: the clause so far becomes a
      multi-part `cls` block ending before the character, the marker is
      cleared, the comment handler is pushed over `resume` and the marker is
      set to the character. */
  method CommentStart(s: ParserState, cls: string, resume: Handler) returns (r: ParserState)
    requires Ready(s)
    ensures CommentStarted(s, r, cls, resume)
    ensures Evolves(s, r)
  {
    var q := QueueAtMarker(s, Named(cls), Tok(s).prev, true);
    q := Goto(SetMarker(q, None), resume);
    r := SetMarker(Push(q, CommentHandler(s)), Some(s.token));
  }

  /** The comment handler is pushed and the marker is set to the character. */
  method PushComment(s: ParserState) returns (r: ParserState)
    requires WF(s)
    ensures CommentPushed(s, r)
    ensures Evolves(s, r)
  {
    r := SetMarker(Push(s, CommentHandler(s)), Some(s.token));
  }

  /** A line break after a word, `Chained` style: the clause ends before the
      line break, a line-break block over its replacement is chained behind,
      the marker is cleared and `LinebreakBlock.stateLinebreak` is pushed over
      `resume`. */
  method SplitLine(s: ParserState, cls: string, resume: Handler) returns (r: ParserState)
    requires Ready(s)
    ensures LineSplit(s, r, cls, resume)
    ensures Evolves(s, r)
  {
    var t := LineBehind(s, cls);
    var a := SetMarker(t, None);
    var b := Goto(a, resume);
    r := Push(b, LinebreakState);
    LineSplitBehind(s, t, r, cls, resume);
    EvolvesTrans(s, t, a);
    EvolvesTrans(s, a, b);
    EvolvesTrans(s, b, r);
  }

  /** The frame of `SplitLine`: pushing over the blocks of `LineBehind`
      leaves them as they are. */
  lemma LineSplitBehind(s: ParserState, t: ParserState, r: ParserState, cls: string, resume: Handler)
    requires Ready(s) && Retagged(s, t, LinebreakTok) && Kept(s, t)
    requires AppendedTwo(s, t, Named(cls), MarkerNow(s), Tok(s).prev, true, LinebreakBlk, |s.tokens|)
    requires r.tokens == t.tokens && r.newToken == t.newToken && r.blocks == t.blocks && r.newBlock == t.newBlock
    requires r.stack == t.stack + [Frame(resume, None, t.counter)] && r.handler == LinebreakState
    requires r.counter == t.counter && r.marker.None?
    ensures LineSplit(s, r, cls, resume)
  {
  }

  /** The blocks of `SplitLine`: the clause ends before the line break and a
      line-break block over the replacement is chained behind it. */
  method LineBehind(s: ParserState, cls: string) returns (t: ParserState)
    requires Ready(s)
    ensures Retagged(s, t, LinebreakTok)
    ensures AppendedTwo(s, t, Named(cls), MarkerNow(s), Tok(s).prev, true, LinebreakBlk, |s.tokens|)
    ensures Kept(s, t)
    ensures Evolves(s, t)
  {
    var q := QueueAtMarker(s, Named(cls), Tok(s).prev, true);
    var u := Retag(q, LinebreakTok);
    ConstructTwice(s.blocks, Named(cls), s.lastBlock.value, MarkerNow(s), Tok(s).prev, true, LinebreakBlk, |s.tokens|);
    t := Chain(u, LinebreakBlk, u.newToken, None, false);
    EvolvesTrans(s, q, u);
    EvolvesTrans(s, u, t);
  }

  /** A line break after a word, `Included` style: the clause ends with the
      line-break replacement, the marker is cleared and
      `EmptyLineBlock.stateLinebreak` is pushed over `resume`. */
  method EndLine(s: ParserState, cls: string, resume: Handler) returns (r: ParserState)
    requires Ready(s)
    ensures LineEnded(s, r, cls, resume)
    ensures Evolves(s, r)
  {
    var q := RetagAndQueue(s, LinebreakTok, cls, true);
    r := Push(Goto(SetMarker(q, None), resume), Linebreak);
  }

  /** The current token is retagged as k and a multi-part `cls` block from
      the marker is queued; it ends with the replacement when `through` and
      with the token before it otherwise. */
  method RetagAndQueue(s: ParserState, k: Kind, cls: string, through: bool) returns (r: ParserState)
    requires Ready(s)
    ensures Retagged(s, r, k)
    ensures Appended(s, r, Named(cls), Rebased(s), if through then Some(|s.tokens|) else Tok(s).prev, true)
    ensures r.marker == Rebased(s)
    ensures Kept(s, r)
    ensures Evolves(s, r)
  {
    var t := Retag(s, k);
    r := QueueAtMarker(t, Named(cls), if through then t.newToken else Tok(s).prev, true);
  }

  /** The line break of a whitespace state of the current generation. */
  method BreakLine(s: ParserState, cls: string) returns (r: ParserState)
    requires Ready(s)
    ensures LineBroken(s, r, cls)
    ensures Evolves(s, r)
  {
    if !AfterMultiLineCommentBlock(s) {
      var t := LineBefore(s, cls);
      r := Push(SetMarker(t, None), LinebreakState);
    } else {
      var t := Alone(s, LinebreakTok, LinebreakBlk, false);
      r := Push(SetMarker(t, None), LinebreakState);
    }
  }

  /** The line break is retagged, the clause so far becomes a multi-part
      `cls` block ending before it, and a line-break block over the
      replacement is chained behind. */
  method LineBefore(s: ParserState, cls: string) returns (r: ParserState)
    requires Ready(s)
    ensures Retagged(s, r, LinebreakTok)
    ensures AppendedTwo(s, r, Named(cls), Rebased(s), Tok(s).prev, true, LinebreakBlk, |s.tokens|)
    ensures Kept(s, r)
    ensures Evolves(s, r)
  {
    var q := RetagAndQueue(s, LinebreakTok, cls, false);
    ChainBehind(Linked(s, |s.blocks|), q.blocks[|s.blocks|], Block(LinebreakBlk, q.newToken, q.newToken, false, Some(|s.blocks|), None), |s.blocks| + 1);
    r := Chain(q, LinebreakBlk, q.newToken, None, false);
  }

  /** The line break is retagged, `EmptyLineBlock.stateLinebreak` is pushed
      with the marker cleared, and the marker becomes the replacement. */
  method PushLine(s: ParserState) returns (r: ParserState)
    requires WF(s) && Tok(s).prev.Some?
    ensures LinePushed(s, r)
    ensures Evolves(s, r)
  {
    var t := Retag(s, LinebreakTok);
    r := SetMarker(Push(SetMarker(t, None), Linebreak), t.newToken);
  }

  /** The current token is retagged as k and a one-token block of kind b
      over the replacement is queued; with `mark` the marker becomes the
      replacement, otherwise it is kept. */
  method Alone(s: ParserState, k: Kind, b: BlockKind, mark: bool) returns (r: ParserState)
    requires Ready(s)
    ensures Lone(s, r, k, b)
    ensures r.marker == (if mark then Some(|s.tokens|) else s.marker)
    ensures Kept(s, r)
    ensures Evolves(s, r)
  {
    var t := Retag(s, k);
    r := Queue(t, b, t.newToken, None, false);
    if mark {
      r := SetMarker(r, t.newToken);
    }
  }

  // ---------------------------------------------------------------------------
  // The states right after a keyword or a name

  /** The tokens a state right after a word accepts. */
  predicate WordEnds(s: ParserState)
    requires WF(s)
  {
    IsNewline(s) || IsCommentStart(s) || IsSpace(Tok(s).kind)
  }

  /** What a character-level state right after a keyword or a name does:
      - a line break ends the clause in the given `style` and resumes at
        `next`;
      - a comment start splits the clause and resumes at `next`;
      - a space moves to `spaceNext`, retagged as a boundary when `boundary`;
      - anything else raises `err`, or, without `strict` (a state missing its
        closing `raise`), is ignored. */
  ghost predicate WordEnded(s: ParserState, r: Outcome, cls: string, next: Handler, spaceNext: Handler,
                            style: LineStyle, boundary: bool, strict: bool, err: ErrorKind)
    requires Ready(s)
  {
    (r.Success? ==> Evolves(s, r.value)) &&
    (IsNewline(s) && style == Chained ==> r.Success? && LineSplit(s, r.value, cls, next)) &&
    (IsNewline(s) && style == Included ==> r.Success? && LineEnded(s, r.value, cls, next)) &&
    (IsCommentStart(s) ==> r.Success? && CommentStarted(s, r.value, cls, next)) &&
    (IsSpace(Tok(s).kind) && boundary ==>
       r.Success? && Moved(s, r.value, spaceNext) && Retagged(s, r.value, BoundaryTok) &&
       NoBlock(s, r.value) && r.value.marker == s.marker) &&
    (IsSpace(Tok(s).kind) && !boundary ==> r == Success(s.(handler := spaceNext))) &&
    (!WordEnds(s) && strict ==> r == Fail(s, err)) &&
    (!WordEnds(s) && !strict ==> r == Success(s))
  }

  method EndWord(s: ParserState, cls: string, next: Handler, spaceNext: Handler,
                 style: LineStyle, boundary: bool, strict: bool, err: ErrorKind) returns (r: Outcome)
    requires Ready(s)
    ensures r.Success? ==> Evolves(s, r.value)
    ensures IsNewline(s) && style == Chained ==> r.Success? && LineSplit(s, r.value, cls, next)
    ensures IsNewline(s) && style == Included ==> r.Success? && LineEnded(s, r.value, cls, next)
    ensures IsCommentStart(s) ==> r.Success? && CommentStarted(s, r.value, cls, next)
    ensures IsSpace(Tok(s).kind) && boundary ==>
      r.Success? && Moved(s, r.value, spaceNext) && Retagged(s, r.value, BoundaryTok) &&
      NoBlock(s, r.value) && r.value.marker == s.marker
    ensures IsSpace(Tok(s).kind) && !boundary ==> r == Success(s.(handler := spaceNext))
    ensures !WordEnds(s) && strict ==> r == Fail(s, err)
    ensures !WordEnds(s) && !strict ==> r == Success(s)
  {
    if IsNewline(s) {
      assert !IsCommentStart(s) && !IsSpace(Tok(s).kind) && WordEnds(s);
      r := LineAfterWord(s, cls, next, style);
    } else {
      r := RestAfterWord(s, cls, next, spaceNext, boundary, strict, err);
    }
  }

  /** `EndWord` on a line break. */
  method LineAfterWord(s: ParserState, cls: string, next: Handler, style: LineStyle) returns (r: Outcome)
    requires Ready(s)
    ensures r.Success? && Evolves(s, r.value)
    ensures style == Chained ==> LineSplit(s, r.value, cls, next)
    ensures style == Included ==> LineEnded(s, r.value, cls, next)
  {
    if style == Chained {
      var t := SplitLine(s, cls, next);
      r := Success(t);
    } else {
      var t := EndLine(s, cls, next);
      r := Success(t);
    }
  }

  /** `EndWord` on anything but a line break. */
  method RestAfterWord(s: ParserState, cls: string, next: Handler, spaceNext: Handler,
                       boundary: bool, strict: bool, err: ErrorKind) returns (r: Outcome)
    requires Ready(s)
    ensures r.Success? ==> Evolves(s, r.value)
    ensures IsCommentStart(s) ==> r.Success? && CommentStarted(s, r.value, cls, next)
    ensures IsSpace(Tok(s).kind) && boundary ==>
      r.Success? && Moved(s, r.value, spaceNext) && Retagged(s, r.value, BoundaryTok) &&
      NoBlock(s, r.value) && r.value.marker == s.marker
    ensures IsSpace(Tok(s).kind) && !boundary ==> r == Success(s.(handler := spaceNext))
    ensures !IsCommentStart(s) && !IsSpace(Tok(s).kind) && strict ==> r == Fail(s, err)
    ensures !IsCommentStart(s) && !IsSpace(Tok(s).kind) && !strict ==> r == Success(s)
  {
    if IsCommentStart(s) {
      assert !IsSpace(Tok(s).kind);
      var t := CommentStart(s, cls, next);
      r := Success(t);
    } else {
      r := SpaceAfterWord(s, spaceNext, boundary, strict, err);
    }
  }

  /** The rest of `EndWord`: a space, or anything else. */
  method SpaceAfterWord(s: ParserState, spaceNext: Handler, boundary: bool, strict: bool, err: ErrorKind) returns (r: Outcome)
    requires Ready(s)
    ensures IsSpace(Tok(s).kind) && boundary ==>
      r.Success? && Moved(s, r.value, spaceNext) && Retagged(s, r.value, BoundaryTok) &&
      NoBlock(s, r.value) && r.value.marker == s.marker && Evolves(s, r.value)
    ensures IsSpace(Tok(s).kind) && !boundary ==> r == Success(s.(handler := spaceNext))
    ensures !IsSpace(Tok(s).kind) && strict ==> r == Fail(s, err)
    ensures !IsSpace(Tok(s).kind) && !strict ==> r == Success(s)
  {
    if IsSpace(Tok(s).kind) && boundary {
      var t := RetagTo(s, BoundaryTok, spaceNext);
      r := Success(t);
    } else if IsSpace(Tok(s).kind) {
      r := Success(Goto(s, spaceNext));
    } else if strict {
      r := Fail(s, err);
    } else {
      r := Success(s);
    }
  }

  // ---------------------------------------------------------------------------
  // Whitespace states

  /** The tokens a character-level whitespace state accepts besides its
      words: comment starts, and with `lines` also line breaks and a space
      right after a multi-line comment block. */
  predicate GapTakes(s: ParserState, lines: bool)
    requires Ready(s)
  {
    IsCommentStart(s) || (lines && (IsNewline(s) || (IsSpace(Tok(s).kind) && AfterMultiLineCommentBlock(s))))
  }

  /** What a character-level whitespace state does with the tokens between
      two words; the handler stays:
      - a comment start splits the clause;
      - with `lines`, a line break splits it too (a lone line-break block
        right after a multi-line comment block), and a space right after a
        multi-line comment block is a boundary with a whitespace block;
      anything else raises `err`. */
  ghost predicate GapFilled(s: ParserState, r: Outcome, cls: string, lines: bool, err: ErrorKind)
    requires Ready(s)
  {
    (r.Success? ==> Evolves(s, r.value)) &&
    (IsCommentStart(s) ==> r.Success? && CommentStarted(s, r.value, cls, s.handler)) &&
    (lines && IsNewline(s) ==> r.Success? && LineBroken(s, r.value, cls)) &&
    (lines && IsSpace(Tok(s).kind) && AfterMultiLineCommentBlock(s) ==>
       r.Success? && Spaced(s, r.value) && Kept(s, r.value)) &&
    (!GapTakes(s, lines) ==> r == Fail(s, err))
  }

  method Between(s: ParserState, cls: string, lines: bool, err: ErrorKind) returns (r: Outcome)
    requires Ready(s)
    ensures r.Success? ==> Evolves(s, r.value)
    ensures IsCommentStart(s) ==> r.Success? && CommentStarted(s, r.value, cls, s.handler)
    ensures lines && IsNewline(s) ==> r.Success? && LineBroken(s, r.value, cls)
    ensures lines && IsSpace(Tok(s).kind) && AfterMultiLineCommentBlock(s) ==>
      r.Success? && Spaced(s, r.value) && Kept(s, r.value)
    ensures !GapTakes(s, lines) ==> r == Fail(s, err)
  {
    if IsCommentStart(s) {
      assert !IsNewline(s) && !IsSpace(Tok(s).kind);
      var t := CommentStart(s, cls, s.handler);
      r := Success(t);
    } else if lines && IsNewline(s) {
      assert !IsSpace(Tok(s).kind);
      var t := BreakLine(s, cls);
      r := Success(t);
    } else if lines && IsSpace(Tok(s).kind) && AfterMultiLineCommentBlock(s) {
      var t := Spacer(s);
      r := Success(t);
    } else {
      r := Fail(s, err);
    }
  }

  // ---------------------------------------------------------------------------
  // End blocks

  /** `";"`: the current character token. */
  predicate IsSemicolon(s: ParserState)
    requires WF(s)
  {
    IsChar(Tok(s), ';')
  }

  /** What every state of an end block does with `";"`: the clause ends
      with its end-token replacement as a block of class `cls` and the
      block is left. */
  ghost predicate Closed(s: ParserState, r: Outcome, cls: string)
    requires Ready(s)
  {
    (1 <= |s.stack| ==> r.Success? && EndedWith(s, r.value, EndTok, cls) && Popped(s, r.value, 1)) &&
    (|s.stack| == 0 ==> r == Fail(s, EmptyStack))
  }

  // ---------------------------------------------------------------------------
  // Character-level regions

  /** What a character-level region does with a line break, a comment start
      or whitespace:
      - a line break becomes a one-token `lineBlk` block over its
        replacement, and the marker becomes that replacement when
        `lineMarks` and is cleared otherwise;
      - a comment start pushes the comment handler;
      - whitespace becomes a one-token indentation block over its
        replacement, and the marker stays. */
  ghost predicate LaidOut(s: ParserState, r: ParserState, lineBlk: BlockKind, lineMarks: bool)
    requires Ready(s)
  {
    (IsNewline(s) ==>
       Lone(s, r, LinebreakTok, lineBlk) && Kept(s, r) &&
       r.marker == (if lineMarks then Some(|s.tokens|) else None)) &&
    (IsCommentStart(s) ==> CommentPushed(s, r)) &&
    (IsSpace(Tok(s).kind) ==>
       Lone(s, r, IndentationTok, IndentationBlk) && Kept(s, r) && r.marker == s.marker)
  }

  /** The words a character-level region accepts. */
  predicate RegionTakes(s: ParserState, table: Table, marks: Table, begin: Option<(string, Handler)>)
    requires WF(s)
  {
    Tok(s).kind == StringTok &&
    (Lookup(table, Word(s)).Some? || Lookup(marks, Word(s)).Some? || (begin.Some? && Word(s) == "begin"))
  }

  /** What a character-level declarative or statement region does:
      - a line break, a comment start or whitespace is laid out as above;
      - a keyword of `table` is retagged and pushes its handler with the
        marker on the replacement;
      - a keyword of `marks` (END) is retagged, marks the start of the next
        clause and moves on to its handler;
      - with `begin`, BEGIN becomes a one-token block of the given class and
        moves on to the given handler, the marker untouched;
      anything else raises. */
  ghost predicate CharRegionEffect(s: ParserState, r: Outcome, lineBlk: BlockKind, lineMarks: bool,
                                   table: Table, marks: Table, begin: Option<(string, Handler)>)
    requires Ready(s)
  {
    (r.Success? ==> Evolves(s, r.value)) &&
    (WordEnds(s) ==> r.Success? && LaidOut(s, r.value, lineBlk, lineMarks)) &&
    (Tok(s).kind == StringTok && Lookup(table, Word(s)).Some? ==>
       r.Success? && KeywordPushed(s, r.value, Word(s), Lookup(table, Word(s)).value)) &&
    (Tok(s).kind == StringTok && Lookup(table, Word(s)).None? && Lookup(marks, Word(s)).Some? ==>
       r.Success? && Moved(s, r.value, Lookup(marks, Word(s)).value) &&
       Retagged(s, r.value, KeywordTok(Word(s))) && NoBlock(s, r.value) &&
       r.value.marker == Some(|s.tokens|)) &&
    (Tok(s).kind == StringTok && Lookup(table, Word(s)).None? && Lookup(marks, Word(s)).None? &&
     begin.Some? && Word(s) == "begin" ==>
       r.Success? && Lone(s, r.value, KeywordTok("begin"), Named(begin.value.0)) &&
       Moved(s, r.value, begin.value.1) && r.value.marker == s.marker) &&
    (!WordEnds(s) && !RegionTakes(s, table, marks, begin) ==> r == Fail(s, UnexpectedToken))
  }

  /** A character-level declarative or statement region. */
  method CharRegion(s: ParserState, lineBlk: BlockKind, lineMarks: bool,
                    table: Table, marks: Table, begin: Option<(string, Handler)>) returns (r: Outcome)
    requires Ready(s)
    ensures CharRegionEffect(s, r, lineBlk, lineMarks, table, marks, begin)
  {
    if WordEnds(s) {
      assert Tok(s).kind != StringTok;
      var t := Layout(s, lineBlk, lineMarks);
      r := Success(t);
    } else {
      r := RegionWordMove(s, table, marks, begin);
    }
  }

  /** `CharRegion` on a line break, a comment start or whitespace. */
  method Layout(s: ParserState, lineBlk: BlockKind, lineMarks: bool) returns (r: ParserState)
    requires Ready(s) && WordEnds(s)
    ensures LaidOut(s, r, lineBlk, lineMarks)
    ensures Evolves(s, r)
  {
    if IsNewline(s) {
      assert !IsCommentStart(s) && !IsSpace(Tok(s).kind);
      r := Alone(s, LinebreakTok, lineBlk, lineMarks);
      if !lineMarks {
        r := SetMarker(r, None);
      }
    } else if IsCommentStart(s) {
      assert !IsSpace(Tok(s).kind);
      r := PushComment(s);
    } else {
      r := Alone(s, IndentationTok, IndentationBlk, false);
    }
  }

  /** `CharRegion` on anything else. */
  method RegionWordMove(s: ParserState, table: Table, marks: Table, begin: Option<(string, Handler)>) returns (r: Outcome)
    requires Ready(s) && !WordEnds(s)
    ensures r.Success? ==> Evolves(s, r.value)
    ensures Tok(s).kind == StringTok && Lookup(table, Word(s)).Some? ==>
      r.Success? && KeywordPushed(s, r.value, Word(s), Lookup(table, Word(s)).value)
    ensures Tok(s).kind == StringTok && Lookup(table, Word(s)).None? && Lookup(marks, Word(s)).Some? ==>
      r.Success? && Moved(s, r.value, Lookup(marks, Word(s)).value) &&
      Retagged(s, r.value, KeywordTok(Word(s))) && NoBlock(s, r.value) &&
      r.value.marker == Some(|s.tokens|)
    ensures Tok(s).kind == StringTok && Lookup(table, Word(s)).None? && Lookup(marks, Word(s)).None? &&
            begin.Some? && Word(s) == "begin" ==>
      r.Success? && Lone(s, r.value, KeywordTok("begin"), Named(begin.value.0)) &&
      Moved(s, r.value, begin.value.1) && r.value.marker == s.marker
    ensures !RegionTakes(s, table, marks, begin) ==> r == Fail(s, UnexpectedToken)
  {
    if Tok(s).kind == StringTok && Lookup(table, Word(s)).Some? {
      var t := PushKeyword(s, Word(s), Lookup(table, Word(s)).value);
      r := Success(t);
    } else if Tok(s).kind == StringTok && Lookup(marks, Word(s)).Some? {
      var t := MarkTo(s, KeywordTok(Word(s)), Lookup(marks, Word(s)).value);
      r := Success(t);
    } else if Tok(s).kind == StringTok && begin.Some? && Word(s) == "begin" {
      var t := Alone(s, KeywordTok("begin"), Named(begin.value.0), false);
      r := Success(Goto(t, begin.value.1));
    } else {
      r := Fail(s, UnexpectedToken);
    }
  }
}
