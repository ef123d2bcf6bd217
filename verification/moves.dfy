/** The moves the state handlers are built from, and the vocabulary their
    contracts are stated in.

    A handler takes the parser state it is called with to the state it
    leaves behind or the exception it raises; the parser state is an
    immutable value, so a handler changes nothing else. Most handlers are a
    handful of recurring moves: queue a one-token block, split a clause into a
    multi-part block with a line-break or comment block chained behind it,
    push the handler of a keyword, and the shared treatment of a whitespace
    state. */
module Moves {
  import opened Results
  import opened Tokens
  import opened Blocks
  import opened Handlers
  import opened Engine
  import opened Effects

  // ---------------------------------------------------------------------------
  // Moves

  /** The current token becomes a one-token block of kind k queued behind
      the last block; the marker is kept. */
  method Single(s: ParserState, k: BlockKind) returns (r: ParserState)
    requires Ready(s)
    ensures OneTokenBlock(s, r, k)
    ensures Kept(s, r) && r.marker == s.marker
    ensures Evolves(s, r)
  {
    r := Queue(s, k, Some(s.token), None, false);
  }

  /** As `Single`, and the marker is cleared. */
  method Blank(s: ParserState, k: BlockKind) returns (r: ParserState)
    requires Ready(s)
    ensures OneTokenBlock(s, r, k) && r.marker.None?
    ensures Kept(s, r)
    ensures Evolves(s, r)
  {
    r := SetMarker(Queue(s, k, Some(s.token), None, false), None);
  }

  /** A filler token in a region: its own block, with the marker cleared or
      kept as the region does. */
  method Filler(s: ParserState, clear: bool) returns (r: ParserState)
    requires Ready(s) && IsFiller(Tok(s).kind)
    ensures OneTokenBlock(s, r, FillerBlock(Tok(s).kind))
    ensures r.marker == (if clear then None else s.marker)
    ensures Kept(s, r)
    ensures Evolves(s, r)
  {
    r := Queue(s, FillerBlock(Tok(s).kind), Some(s.token), None, false);
    if clear {
      r := SetMarker(r, None);
    }
  }

  /** A line break or comment inside a clause: the clause so far becomes a
      multi-part `cls` block from the marker to the previous token, a
      one-token block of kind `tail` is chained behind it, and the marker is
      cleared. */
  method Split(s: ParserState, cls: string, tail: BlockKind) returns (r: ParserState)
    requires Ready(s)
    ensures SplitClause(s, r, cls, tail)
    ensures Kept(s, r)
    ensures Evolves(s, r)
  {
    var q := QueueAtMarker(s, Named(cls), Tok(s).prev, true);
    var c := Chain(q, tail, Some(s.token), None, false);
    r := SetMarker(c, None);
    SplitBlocks(s, r, cls, tail);
    EvolvesTrans(s, q, c);
    EvolvesTrans(s, c, r);
  }

  /** The blocks of `Split`: the clause block constructed behind `LastBlock`
      and the tail block constructed behind it. */
  lemma SplitBlocks(s: ParserState, r: ParserState, cls: string, tail: BlockKind)
    requires Ready(s)
    requires r.blocks == Construct(Construct(s.blocks, Named(cls), s.lastBlock.value, MarkerNow(s), Tok(s).prev, true),
                                   tail, |s.blocks|, Some(s.token), None, false)
    requires r.newBlock == Some(|s.blocks|) && r.tokens == s.tokens && r.newToken == s.newToken && r.marker.None?
    ensures SplitClause(s, r, cls, tail)
  {
    ConstructTwice(s.blocks, Named(cls), s.lastBlock.value, MarkerNow(s), Tok(s).prev, true, tail, s.token);
  }

  /** A keyword that opens a nested construct: the current token is
      retagged as the keyword, the handler `h` is pushed and the marker is
      set to the replacement. */
  method PushKeyword(s: ParserState, kw: string, h: Handler) returns (r: ParserState)
    requires WF(s) && Tok(s).prev.Some?
    ensures KeywordPushed(s, r, kw, h)
    ensures Evolves(s, r)
  {
    var t := Retag(s, KeywordTok(kw));
    r := SetMarker(Push(t, h), t.newToken);
  }

  /** A `Blank`, then the handler becomes `next`. */
  method BlankTo(s: ParserState, k: BlockKind, next: Handler) returns (r: ParserState)
    requires Ready(s)
    ensures OneTokenBlock(s, r, k) && r.marker.None?
    ensures Moved(s, r, next)
    ensures Evolves(s, r)
  {
    r := Blank(s, k);
    r := Goto(r, next);
  }

  /** A `Through`, then the handler becomes `next`. */
  method ThroughTo(s: ParserState, k: Kind, cls: string, next: Handler) returns (r: ParserState)
    requires Ready(s)
    ensures EndedWith(s, r, k, cls) && r.marker == Rebased(s)
    ensures Moved(s, r, next)
    ensures Evolves(s, r)
  {
    r := Through(s, k, cls);
    r := Goto(r, next);
  }

  /** A `Before` that hands the marker to the replacement, which starts the
      next clause, then the handler becomes `next`. */
  method HandOver(s: ParserState, k: Kind, cls: string, next: Handler) returns (r: ParserState)
    requires Ready(s)
    ensures Retagged(s, r, k) && Appended(s, r, Named(cls), Rebased(s), Tok(s).prev, false)
    ensures r.marker == Some(|s.tokens|)
    ensures Moved(s, r, next)
    ensures Evolves(s, r)
  {
    r := Before(s, k, cls);
    r := Goto(SetMarker(r, r.newToken), next);
  }

  /** A `Split`, then the handler becomes `next`. */
  method SplitTo(s: ParserState, cls: string, tail: BlockKind, next: Handler) returns (r: ParserState)
    requires Ready(s)
    ensures SplitClause(s, r, cls, tail)
    ensures Moved(s, r, next)
    ensures Evolves(s, r)
  {
    r := Split(s, cls, tail);
    r := Goto(r, next);
  }

  /** The current token is retagged as k and the handler becomes `h`. */
  method RetagTo(s: ParserState, k: Kind, h: Handler) returns (r: ParserState)
    requires WF(s) && Tok(s).prev.Some?
    ensures Moved(s, r, h) && Retagged(s, r, k)
    ensures r.marker == s.marker && NoBlock(s, r)
    ensures Evolves(s, r)
  {
    r := Goto(Retag(s, k), h);
  }

  /** The current token is retagged as k and a `cls` block from the marker
      through that replacement is queued: the clause ends with the current
      token, and the marker the getter read (moved onto the replacement if it
      was on the current token) stays stored. */
  method Through(s: ParserState, k: Kind, cls: string) returns (r: ParserState)
    requires Ready(s)
    ensures EndedWith(s, r, k, cls)
    ensures r.marker == Rebased(s)
    ensures Kept(s, r)
    ensures Evolves(s, r)
  {
    var t := Retag(s, k);
    r := QueueAtMarker(t, Named(cls), t.newToken, false);
  }

  /** A clause that ends with the current token and moves on to `next` with
      the marker cleared. */
  method CloseTo(s: ParserState, k: Kind, cls: string, next: Handler) returns (r: ParserState)
    requires Ready(s)
    ensures EndedWith(s, r, k, cls) && r.marker.None?
    ensures Moved(s, r, next)
    ensures Evolves(s, r)
  {
    r := Through(s, k, cls);
    r := Goto(SetMarker(r, None), next);
  }

  /** A clause that ends with the current token, followed by `Pop(n)`. A
      stack with fewer than n frames raises. */
  method ThroughAndPop(s: ParserState, k: Kind, cls: string, n: nat) returns (r: Outcome)
    requires Ready(s) && 1 <= n
    ensures r.Success? ==> Evolves(s, r.value)
    ensures n <= |s.stack| ==> r.Success? && EndedWith(s, r.value, k, cls) && Popped(s, r.value, n)
    ensures n > |s.stack| ==> r == Fail(s, EmptyStack)
  {
    var t := Through(s, k, cls);
    r := Pop(t, n);
  }

  /** The current token is retagged as k and a `cls` block from the marker
      to the token before it is queued: the clause ends before the current
      token, whose replacement is pending. */
  method Before(s: ParserState, k: Kind, cls: string) returns (r: ParserState)
    requires Ready(s)
    ensures Retagged(s, r, k) && Appended(s, r, Named(cls), Rebased(s), Tok(s).prev, false)
    ensures r.marker == Rebased(s)
    ensures Kept(s, r)
    ensures Evolves(s, r)
  {
    var t := Retag(s, k);
    r := QueueAtMarker(t, Named(cls), Tok(s).prev, false);
  }

  /** A clause that ends before the current token, followed by `Pop(n)`. A
      stack with fewer than n frames raises. */
  method BeforeAndPop(s: ParserState, k: Kind, cls: string, n: nat) returns (r: Outcome)
    requires Ready(s) && 1 <= n
    ensures r.Success? ==> Evolves(s, r.value)
    ensures n <= |s.stack| ==>
      r.Success? && Retagged(s, r.value, k) && Appended(s, r.value, Named(cls), Rebased(s), Tok(s).prev, false) &&
      Popped(s, r.value, n)
    ensures n > |s.stack| ==> r == Fail(s, EmptyStack)
  {
    var t := Before(s, k, cls);
    r := Pop(t, n);
  }

  /** As `Before`, and a one-token block of kind `tail` over the
      replacement is chained behind the clause. */
  method Pair(s: ParserState, k: Kind, cls: string, tail: BlockKind) returns (r: ParserState)
    requires Ready(s)
    ensures Retagged(s, r, k)
    ensures AppendedTwo(s, r, Named(cls), Rebased(s), Tok(s).prev, false, tail, |s.tokens|)
    ensures r.marker == Rebased(s)
    ensures Kept(s, r)
    ensures Evolves(s, r)
  {
    var t := Before(s, k, cls);
    ChainBehind(Linked(s, |s.blocks|), t.blocks[|s.blocks|], Block(tail, t.newToken, t.newToken, false, Some(|s.blocks|), None), |s.blocks| + 1);
    r := Chain(t, tail, t.newToken, None, false);
  }

  /** A `Pair` that hands the marker to the replacement, then the handler
      becomes `next`. */
  method PairOver(s: ParserState, k: Kind, cls: string, tail: BlockKind, next: Handler) returns (r: ParserState)
    requires Ready(s)
    ensures Retagged(s, r, k)
    ensures AppendedTwo(s, r, Named(cls), Rebased(s), Tok(s).prev, false, tail, |s.tokens|)
    ensures r.marker == Some(|s.tokens|)
    ensures Moved(s, r, next)
    ensures Evolves(s, r)
  {
    r := Pair(s, k, cls, tail);
    r := Goto(SetMarker(r, r.newToken), next);
  }

  /** A `Pair`, then the handler becomes `next`; the marker stays. */
  method PairTo(s: ParserState, k: Kind, cls: string, tail: BlockKind, next: Handler) returns (r: ParserState)
    requires Ready(s)
    ensures Retagged(s, r, k)
    ensures AppendedTwo(s, r, Named(cls), Rebased(s), Tok(s).prev, false, tail, |s.tokens|)
    ensures r.marker == Rebased(s)
    ensures Moved(s, r, next)
    ensures Evolves(s, r)
  {
    r := Pair(s, k, cls, tail);
    r := Goto(r, next);
  }

  /** A `Through` that opens a list: `resume` is saved on the stack, `inner`
      becomes the handler and the counter is set to c. */
  method OpenList(s: ParserState, k: Kind, cls: string, resume: Handler, inner: Handler, c: int) returns (r: ParserState)
    requires Ready(s)
    ensures ListOpened(s, r, k, cls, resume, inner, c)
    ensures Evolves(s, r)
  {
    var t := Through(s, k, cls);
    r := SetCounter(Push(Goto(t, resume), inner), c);
  }

  /** The current token is retagged as k, the marker is set to the
      replacement and the handler becomes `next`. */
  method MarkTo(s: ParserState, k: Kind, next: Handler) returns (r: ParserState)
    requires WF(s) && Tok(s).prev.Some?
    ensures Moved(s, r, next) && Retagged(s, r, k)
    ensures r.marker == Some(|s.tokens|) && NoBlock(s, r)
    ensures Evolves(s, r)
  {
    var t := Retag(s, k);
    r := Goto(SetMarker(t, t.newToken), next);
  }

  /** The boundary pair with a parameter-list open block, then the marker is
      cleared, `resume` is saved on the stack, the parameter list's
      opening-parenthesis handler runs next and the counter is 1. */
  method OpenParameters(s: ParserState, cls: string, resume: Handler) returns (r: ParserState)
    requires Ready(s)
    ensures ParametersOpened(s, r, cls, resume)
    ensures Evolves(s, r)
  {
    var t := Pair(s, BoundaryTok, cls, Named("ParameterList.OpenBlock"));
    t := Goto(SetMarker(t, None), resume);
    r := SetCounter(Push(t, Opaque("ParameterList.OpenBlock.stateOpeningParenthesis")), 1);
  }

  /** The token right after a keyword or a name, case by case and then as
      the summary the handlers state. */
  method AfterWord(s: ParserState, cls: string, next: Handler, splitBreaks: bool) returns (r: Outcome)
    requires Ready(s)
    ensures r.Success? ==> Evolves(s, r.value) && Moved(s, r.value, next)
    ensures IsSpace(Tok(s).kind) ==>
      r.Success? && Retagged(s, r.value, BoundaryTok) && NoBlock(s, r.value) && r.value.marker == s.marker
    ensures Tok(s).kind == LinebreakTok && splitBreaks ==> r.Success? && SplitClause(s, r.value, cls, LinebreakBlk)
    ensures Tok(s).kind == LinebreakTok && !splitBreaks ==>
      r.Success? && OneTokenBlock(s, r.value, LinebreakBlk) && r.value.marker.None?
    ensures IsComment(Tok(s).kind) ==> r.Success? && SplitClause(s, r.value, cls, CommentBlk)
    ensures !IsFiller(Tok(s).kind) ==> r == Failure(ParseError(UnexpectedToken, s.token))
    ensures AfterWordEffect(s, r, cls, next, splitBreaks)
  {
    var k := Tok(s).kind;
    if IsSpace(k) {
      var t := RetagTo(s, BoundaryTok, next);
      r := Success(t);
    } else if k == LinebreakTok && splitBreaks {
      var t := SplitTo(s, cls, LinebreakBlk, next);
      r := Success(t);
    } else if k == LinebreakTok {
      var t := BlankTo(s, LinebreakBlk, next);
      r := Success(t);
    } else if IsComment(k) {
      var t := SplitTo(s, cls, CommentBlk, next);
      r := Success(t);
    } else {
      r := Fail(s, UnexpectedToken);
    }
  }

  /** Whitespace after a completed clause, case by case and then as the
      summary the handlers state. */
  method AfterClause(s: ParserState, next: Handler) returns (r: Outcome)
    requires Ready(s)
    ensures r.Success? ==> Evolves(s, r.value) && Moved(s, r.value, next)
    ensures IsSpace(Tok(s).kind) ==>
      r.Success? && Retagged(s, r.value, BoundaryTok) && NoBlock(s, r.value) && r.value.marker == s.marker
    ensures Tok(s).kind == LinebreakTok || IsComment(Tok(s).kind) ==>
      r.Success? && OneTokenBlock(s, r.value, FillerBlock(Tok(s).kind)) && r.value.marker.None?
    ensures !IsFiller(Tok(s).kind) ==> r == Failure(ParseError(UnexpectedToken, s.token))
    ensures AfterClauseEffect(s, r, next)
  {
    var k := Tok(s).kind;
    if IsSpace(k) {
      var t := RetagTo(s, BoundaryTok, next);
      r := Success(t);
    } else if k == LinebreakTok || IsComment(k) {
      var t := BlankTo(s, FillerBlock(k), next);
      r := Success(t);
    } else {
      r := Fail(s, UnexpectedToken);
    }
  }

  /** A line break inside a clause. */
  method Break(s: ParserState, cls: string) returns (r: ParserState)
    requires Ready(s)
    ensures BrokeLine(s, r, cls)
    ensures Kept(s, r)
    ensures Evolves(s, r)
  {
    if !AfterMultiLineComment(s) {
      r := Split(s, cls, LinebreakBlk);
    } else {
      r := Blank(s, LinebreakBlk);
    }
  }

  /** A space becomes a boundary token and a one-token whitespace block over
      it; the marker is cleared. */
  method Spacer(s: ParserState) returns (r: ParserState)
    requires Ready(s)
    ensures Spaced(s, r)
    ensures Kept(s, r)
    ensures Evolves(s, r)
  {
    var t := Retag(s, BoundaryTok);
    r := SetMarker(Queue(t, WhitespaceBlk, t.newToken, None, false), None);
  }

  /** A space in a whitespace state: with `skipIndent`, an indentation right
      after a line break or single-line comment is skipped; otherwise a space
      right after a multi-line comment is a `Spacer` and any other raises. */
  method Pad(s: ParserState, skipIndent: bool) returns (r: Outcome)
    requires Ready(s)
    ensures skipIndent && Tok(s).kind == IndentationTok && PrevIsBreak(s) ==> r == Success(s)
    ensures !(skipIndent && Tok(s).kind == IndentationTok && PrevIsBreak(s)) && AfterMultiLineComment(s) ==>
      r.Success? && Spaced(s, r.value) && Kept(s, r.value)
    ensures r.Failure? <==> !(AfterMultiLineComment(s) || (skipIndent && Tok(s).kind == IndentationTok && PrevIsBreak(s)))
    ensures r.Failure? ==> r.error == ParseError(UnexpectedToken, s.token)
    ensures r.Success? ==> Evolves(s, r.value) && Kept(s, r.value)
  {
    if skipIndent && Tok(s).kind == IndentationTok && PrevIsBreak(s) {
      r := Success(s);
    } else if AfterMultiLineComment(s) {
      var t := Spacer(s);
      r := Success(t);
    } else {
      r := Fail(s, UnexpectedToken);
    }
  }

  /** The whitespace between two parts of a clause, shared by the
      `stateWhitespace*` handlers of the current generation. */
  method Gap(s: ParserState, cls: string, splitComments: bool, skipIndent: bool) returns (r: Outcome)
    requires Ready(s)
    ensures GapEffect(s, r, cls, splitComments, skipIndent)
  {
    var k := Tok(s).kind;
    if k == LinebreakTok {
      var t := Break(s, cls);
      r := Success(t);
    } else if IsComment(k) {
      var t;
      if splitComments {
        t := Split(s, cls, CommentBlk);
      } else {
        t := Blank(s, CommentBlk);
      }
      r := Success(t);
    } else if IsSpace(k) {
      r := Pad(s, skipIndent);
    } else {
      r := Fail(s, UnexpectedToken);
    }
  }

  /** A declarative or statement region. */
  method Region(s: ParserState, table: Table, spaceClears: bool, moves: Table) returns (r: Outcome)
    requires Ready(s)
    ensures RegionEffect(s, r, table, spaceClears, moves)
  {
    var k := Tok(s).kind;
    if IsFiller(k) {
      var t := Filler(s, !IsSpace(k) || spaceClears);
      r := Success(t);
    } else if k == StringTok && Lookup(table, Word(s)).Some? {
      var t := PushKeyword(s, Word(s), Lookup(table, Word(s)).value);
      r := Success(t);
    } else if k == StringTok && Lookup(moves, Word(s)).Some? {
      var t := RetagTo(s, KeywordTok(Word(s)), Lookup(moves, Word(s)).value);
      r := Success(t);
    } else {
      r := Fail(s, UnexpectedToken);
    }
  }
}
