/** The vocabulary the handlers' contracts are stated in: tests on the
    current token and the last yielded block, and what a handler did to the
    parser state, field by field. */
module Effects {
  import opened Results
  import opened Tokens
  import opened Blocks
  import opened Handlers
  import opened Engine

  // ---------------------------------------------------------------------------
  // Tests on the current token and the last yielded block

  /** The last yielded block is a comment block that starts with a
      multi-line comment token. */
  predicate AfterMultiLineComment(s: ParserState)
    requires Ready(s)
  {
    var b := s.blocks[s.lastBlock.value];
    b.kind == CommentBlk && b.start.Some? && s.tokens[b.start.value].kind == MultiLineCommentTok
  }

  /** The last yielded block is a multi-line comment block: the
      character-level generation's form of the same test. */
  predicate AfterMultiLineCommentBlock(s: ParserState)
    requires Ready(s)
  {
    s.blocks[s.lastBlock.value].kind == MultiLineCommentBlk
  }

  /** The token before the current one is a line break or a single-line
      comment. */
  predicate PrevIsBreak(s: ParserState)
    requires Ready(s)
  {
    var p := s.tokens[Tok(s).prev.value];
    p.kind == LinebreakTok || p.kind == SingleLineCommentTok
  }

  /** The current token is a word that matches the keyword `kw`. */
  predicate IsWord(s: ParserState, kw: string)
    requires WF(s)
  {
    Tok(s).kind == StringTok && MatchesKeyword(Tok(s), kw)
  }

  /** Whitespace, a line break or a comment: the tokens a region turns into a
      block of their own. */
  predicate IsFiller(k: Kind) {
    IsSpace(k) || k == LinebreakTok || IsComment(k)
  }

  /** The block class a region gives a filler token: `IndentationBlock` for an
      indentation, `WhitespaceBlock` for other spaces, `LinebreakBlock` and
      `CommentBlock`. */
  function FillerBlock(k: Kind): (b: BlockKind)
    requires IsFiller(k)
    ensures IsSpace(k) <==> b == IndentationBlk || b == WhitespaceBlk
    ensures b == IndentationBlk <==> k == IndentationTok
  {
    match k
    case IndentationTok => IndentationBlk
    case SpaceTok => WhitespaceBlk
    case LinebreakTok => LinebreakBlk
    case _ => CommentBlk
  }

  /** What a handler leaves behind: the next state, or the exception it
      raises. */
  type Outcome = Result<ParserState, ParseError>

  // ---------------------------------------------------------------------------
  // Keyword tables

  /** A `keywords` dictionary of a dispatching state: keyword text to the
      handler it pushes, in declaration order. */
  type Table = seq<(string, Handler)>

  /** The search of a keyword list and the subscript of a translation
      dictionary: the first entry whose key is w. */
  function Lookup<V(==)>(table: seq<(string, V)>, w: string): (r: Option<V>)
    ensures r.None? <==> forall i :: 0 <= i < |table| ==> table[i].0 != w
    ensures r.Some? ==> exists i :: 0 <= i < |table| && table[i] == (w, r.value) &&
                                    forall j :: 0 <= j < i ==> table[j].0 != w
  {
    if table == [] then None
    else if table[0].0 == w then Some(table[0].1)
    else
      var rest := Lookup(table[1..], w);
      if rest.Some? then
        assert exists i :: 0 <= i < |table| - 1 && table[1..][i] == (w, rest.value) &&
                           forall j :: 0 <= j < i ==> table[1..][j].0 != w;
        var i :| 0 <= i < |table| - 1 && table[1..][i] == (w, rest.value) &&
                 forall j :: 0 <= j < i ==> table[1..][j].0 != w;
        assert table[i + 1] == (w, rest.value);
        assert forall j :: 0 <= j < i + 1 ==> table[j].0 != w by {
          forall j | 0 <= j < i + 1 ensures table[j].0 != w {
            if j > 0 { assert table[j] == table[1..][j - 1]; }
          }
        }
        rest
      else
        assert forall i :: 1 <= i < |table| ==> table[i] == table[1..][i - 1];
        None
  }

  /** The lower-cased text of the current token. */
  function Word(s: ParserState): (w: string)
    requires WF(s)
    ensures |w| == |Tok(s).text|
  {
    Lower(Tok(s).text)
  }

  // ---------------------------------------------------------------------------
  // What a handler did, stated field by field

  /** The handler stays where it is: stack, handler and counter unchanged. */
  ghost predicate Kept(s: ParserState, r: ParserState) {
    r.stack == s.stack && r.handler == s.handler && r.counter == s.counter
  }

  /** The handler became `h`, and nothing else changed on the stack or the
      counter. */
  ghost predicate Moved(s: ParserState, r: ParserState, h: Handler) {
    r.stack == s.stack && r.handler == h && r.counter == s.counter
  }

  /** `h` was pushed: one frame saving the current handler, the raw marker
      (current generation only) and the counter. */
  ghost predicate PushedTo(s: ParserState, r: ParserState, h: Handler) {
    r.stack == s.stack + [Frame(s.handler, Saved(s), s.counter)] && r.handler == h && r.counter == s.counter
  }

  /** `Pop(n)`: n frames were removed and handler, marker and counter come
      from the deepest of them (a legacy pop leaves the marker empty). */
  ghost predicate Popped(s: ParserState, r: ParserState, n: nat)
    requires 1 <= n <= |s.stack|
  {
    var top := s.stack[|s.stack| - n];
    r.stack == s.stack[..|s.stack| - n] && r.handler == top.handler && r.counter == top.counter &&
    r.marker == (if s.gen == Current then top.marker else None)
  }

  /** No block was queued. */
  ghost predicate NoBlock(s: ParserState, r: ParserState) {
    r.blocks == s.blocks && r.newBlock == s.newBlock
  }

  /** No replacement token was created. */
  ghost predicate NoRetag(s: ParserState, r: ParserState) {
    r.tokens == s.tokens && r.newToken == s.newToken
  }

  /** The pending replacement is a fresh token of class
      k with the current token's text. */
  ghost predicate Retagged(s: ParserState, r: ParserState, k: Kind)
    requires WF(s)
  {
    r.newToken == Some(|s.tokens|) && |s.tokens| < |r.tokens| &&
    r.tokens[|s.tokens|].kind == k && r.tokens[|s.tokens|].text == Tok(s).text
  }

  /** `LastBlock` linking forward to the block at index n. */
  function Linked(s: ParserState, n: nat): (bs: seq<Block>)
    requires Ready(s)
    ensures |bs| == |s.blocks|
  {
    s.blocks[s.lastBlock.value := s.blocks[s.lastBlock.value].(next := Some(n))]
  }

  /** Exactly one block was queued behind `LastBlock`, over start..end, and the
      last block now links forward to it; no other block changed. */
  ghost predicate Appended(s: ParserState, r: ParserState, k: BlockKind, start: Option<nat>, end: Option<nat>, m: bool)
    requires Ready(s)
  {
    var n := |s.blocks|;
    r.newBlock == Some(n) &&
    r.blocks == Linked(s, n) + [Block(k, start, end, m, s.lastBlock, None)]
  }

  /** A block over start..end was queued behind `LastBlock`, and a one-token
      block of class `tail` over token t is chained behind it; no other block
      changed. */
  ghost predicate AppendedTwo(s: ParserState, r: ParserState, k: BlockKind, start: Option<nat>, end: Option<nat>,
                              m: bool, tail: BlockKind, t: nat)
    requires Ready(s)
  {
    var n := |s.blocks|;
    r.newBlock == Some(n) &&
    r.blocks == Linked(s, n) + [Block(k, start, end, m, s.lastBlock, Some(n + 1)),
                                Block(tail, Some(t), Some(t), false, Some(n), None)]
  }

  /** A block constructed behind `pred` and a second one constructed behind
      the first: the first links forward to the second. */
  lemma ConstructTwice(bs: seq<Block>, k: BlockKind, pred: nat, start: Option<nat>, end: Option<nat>, m: bool,
                       tail: BlockKind, t: nat)
    requires pred < |bs| && end.Some?
    ensures Construct(Construct(bs, k, pred, start, end, m), tail, |bs|, Some(t), None, false) ==
      bs[pred := bs[pred].(next := Some(|bs|))] +
      [Block(k, start, end, m, Some(pred), Some(|bs| + 1)), Block(tail, Some(t), Some(t), false, Some(|bs|), None)]
  {
    var a := bs[pred := bs[pred].(next := Some(|bs|))];
    var x := Block(k, start, end, m, Some(pred), None);
    assert Construct(bs, k, pred, start, end, m) == a + [x];
    ChainBehind(a, x, Block(tail, Some(t), Some(t), false, Some(|bs|), None), |bs| + 1);
  }

  /** Chaining a block behind the newest block of an arena. */
  lemma ChainBehind(a: seq<Block>, x: Block, y: Block, n: nat)
    ensures (a + [x])[|a| := x.(next := Some(n))] + [y] == a + [x.(next := Some(n)), y]
  {
  }

  /** The value `parserState.TokenMarker` reads as. */
  function MarkerNow(s: ParserState): (m: Option<nat>)
    requires WF(s)
    ensures m == ReadMarker(s).marker
    ensures m != s.marker ==> s.marker == Some(s.token) && m == s.newToken
  {
    ReadMarker(s).marker
  }

  /** The value `TokenMarker` reads as once the current token has a pending
      replacement: a marker on the current token moves to the replacement,
      which is the next token of the arena. */
  function Rebased(s: ParserState): (m: Option<nat>)
    requires WF(s)
    ensures m != s.marker ==> s.marker == Some(s.token) && m == Some(|s.tokens|)
  {
    if s.marker == Some(s.token) then Some(|s.tokens|) else s.marker
  }

  // ---------------------------------------------------------------------------
  // The recurring effects

  /** One block over the current token alone was queued behind `LastBlock`;
      no replacement token. */
  ghost predicate OneTokenBlock(s: ParserState, r: ParserState, k: BlockKind)
    requires Ready(s)
  {
    Appended(s, r, k, Some(s.token), Some(s.token), false) && NoRetag(s, r)
  }

  /** The clause so far became a multi-part `cls` block from the marker (as the
      getter reads it) to the token before the current one, with a one-token
      `tail` block over the current token chained behind it; the marker is
      cleared. */
  ghost predicate SplitClause(s: ParserState, r: ParserState, cls: string, tail: BlockKind)
    requires Ready(s)
  {
    AppendedTwo(s, r, Named(cls), MarkerNow(s), Tok(s).prev, true, tail, s.token) &&
    NoRetag(s, r) && r.marker.None?
  }

  /** The clause ended with the current token: its replacement of class k is
      pending and a `cls` block from the marker (as the getter reads it once
      the replacement exists) through the replacement was queued. */
  ghost predicate EndedWith(s: ParserState, r: ParserState, k: Kind, cls: string)
    requires Ready(s)
  {
    Retagged(s, r, k) && Appended(s, r, Named(cls), Rebased(s), Some(|s.tokens|), false)
  }

  /** `"("` opened a parameter list: the clause so far became a `cls` block
      from the marker to the token before `"("`, a one-token parameter-list
      open block over the boundary replacement of `"("` is chained behind it,
      the parameter-list handler was pushed over `resume` with counter 1, and
      the marker is cleared. */
  ghost predicate ParametersOpened(s: ParserState, r: ParserState, cls: string, resume: Handler)
    requires Ready(s)
  {
    Retagged(s, r, BoundaryTok) &&
    AppendedTwo(s, r, Named(cls), Rebased(s), Tok(s).prev, false, Named("ParameterList.OpenBlock"), |s.tokens|) &&
    r.stack == s.stack + [Frame(resume, None, s.counter)] &&
    r.handler == Opaque("ParameterList.OpenBlock.stateOpeningParenthesis") &&
    r.counter == 1 && r.marker.None?
  }

  /** An opening token started a list or an expression: the clause ended
      with its replacement of class k, the `inner` handler was pushed over
      `resume` with the marker the getter read saved (current generation
      only), the counter is c and the marker is cleared. */
  ghost predicate ListOpened(s: ParserState, r: ParserState, k: Kind, cls: string, resume: Handler, inner: Handler, c: int)
    requires Ready(s)
  {
    EndedWith(s, r, k, cls) &&
    r.stack == s.stack + [Frame(resume, if s.gen == Current then Rebased(s) else None, s.counter)] &&
    r.handler == inner && r.counter == c && r.marker.None?
  }

  /** A line break inside a clause splits it, except right after a multi-line
      comment, where it is a lone line-break block; the marker is cleared. */
  ghost predicate BrokeLine(s: ParserState, r: ParserState, cls: string)
    requires Ready(s)
  {
    (!AfterMultiLineComment(s) ==> SplitClause(s, r, cls, LinebreakBlk)) &&
    (AfterMultiLineComment(s) ==> OneTokenBlock(s, r, LinebreakBlk) && r.marker.None?)
  }

  /** The current token was retagged as a boundary with a whitespace block
      over the replacement; the marker is cleared. */
  ghost predicate Spaced(s: ParserState, r: ParserState)
    requires Ready(s)
  {
    Retagged(s, r, BoundaryTok) &&
    Appended(s, r, WhitespaceBlk, Some(|s.tokens|), Some(|s.tokens|), false) && r.marker.None?
  }

  /** A keyword opened a nested construct: its replacement is pending, its
      handler was pushed, and the marker is the replacement. */
  ghost predicate KeywordPushed(s: ParserState, r: ParserState, kw: string, h: Handler)
    requires WF(s)
  {
    PushedTo(s, r, h) && Retagged(s, r, KeywordTok(kw)) && r.marker == r.newToken && NoBlock(s, r)
  }

  /** The tokens a whitespace state of the current generation accepts. */
  predicate GapAccepts(s: ParserState, skipIndent: bool)
    requires Ready(s)
  {
    Tok(s).kind == LinebreakTok || IsComment(Tok(s).kind) ||
    (IsSpace(Tok(s).kind) && (AfterMultiLineComment(s) || (skipIndent && Tok(s).kind == IndentationTok && PrevIsBreak(s))))
  }

  /** What a whitespace state of the current generation does with the token
      between two parts of a clause; the handler stays:
      - a line break splits the clause (a lone line-break block right after a
        multi-line comment);
      - a comment is a comment block, or with `splitComments` splits the
        clause like a line break does;
      - with `skipIndent`, an indentation right after a line break or
        single-line comment is skipped;
      - a space right after a multi-line comment becomes a boundary with a
        whitespace block over it;
      anything else raises. */
  ghost predicate GapEffect(s: ParserState, r: Outcome, cls: string,
                            splitComments: bool, skipIndent: bool)
    requires Ready(s)
  {
    var k := Tok(s).kind;
    var skip := skipIndent && k == IndentationTok && PrevIsBreak(s);
    (r.Success? ==> Evolves(s, r.value) && Kept(s, r.value)) &&
    (k == LinebreakTok ==> r.Success? && BrokeLine(s, r.value, cls)) &&
    (IsComment(k) && splitComments ==> r.Success? && SplitClause(s, r.value, cls, CommentBlk)) &&
    (IsComment(k) && !splitComments ==> r.Success? && OneTokenBlock(s, r.value, CommentBlk) && r.value.marker.None?) &&
    (skip ==> r == Success(s)) &&
    (IsSpace(k) && !skip && AfterMultiLineComment(s) ==> r.Success? && Spaced(s, r.value)) &&
    (r.Failure? <==> !GapAccepts(s, skipIndent)) &&
    (r.Failure? ==> r.error == ParseError(UnexpectedToken, s.token))
  }

  /** What the state right after a keyword or a name does: a space becomes a
      boundary, a comment splits the clause, a line break splits it too or,
      without `splitBreaks`, is a lone line-break block, and each moves on to
      `next`; anything else raises. */
  ghost predicate AfterWordEffect(s: ParserState, r: Outcome, cls: string, next: Handler, splitBreaks: bool)
    requires Ready(s)
  {
    (r.Success? ==> Evolves(s, r.value) && Moved(s, r.value, next)) &&
    (IsSpace(Tok(s).kind) ==> r.Success? && Retagged(s, r.value, BoundaryTok) && NoBlock(s, r.value) && r.value.marker == s.marker) &&
    (Tok(s).kind == LinebreakTok && splitBreaks ==> r.Success? && SplitClause(s, r.value, cls, LinebreakBlk)) &&
    (Tok(s).kind == LinebreakTok && !splitBreaks ==> r.Success? && OneTokenBlock(s, r.value, LinebreakBlk) && r.value.marker.None?) &&
    (IsComment(Tok(s).kind) ==> r.Success? && SplitClause(s, r.value, cls, CommentBlk)) &&
    (!IsFiller(Tok(s).kind) ==> r == Failure(ParseError(UnexpectedToken, s.token)))
  }

  /** What the state after a completed clause does with whitespace: a space
      becomes a boundary and a line break or comment a block of its own that
      clears the marker, and each moves on to `next`; anything else raises. */
  ghost predicate AfterClauseEffect(s: ParserState, r: Outcome, next: Handler)
    requires Ready(s)
  {
    (r.Success? ==> Evolves(s, r.value) && Moved(s, r.value, next)) &&
    (IsSpace(Tok(s).kind) ==> r.Success? && Retagged(s, r.value, BoundaryTok) && NoBlock(s, r.value) && r.value.marker == s.marker) &&
    (Tok(s).kind == LinebreakTok || IsComment(Tok(s).kind) ==>
       r.Success? && OneTokenBlock(s, r.value, FillerBlock(Tok(s).kind)) && r.value.marker.None?) &&
    (!IsFiller(Tok(s).kind) ==> r == Failure(ParseError(UnexpectedToken, s.token)))
  }

  /** The words a region accepts: a declaration keyword of `table` or one of
      the words in `moves`. */
  predicate RegionWord(s: ParserState, table: Table, moves: Table)
    requires WF(s)
  {
    Tok(s).kind == StringTok && (Lookup(table, Word(s)).Some? || Lookup(moves, Word(s)).Some?)
  }

  /** What a declarative or statement region does with a token:
      - whitespace, a line break or a comment becomes a block of its own; a
        line break or comment clears the marker, a space clears it only when
        `spaceClears`;
      - a declaration keyword of `table` pushes its handler with the marker
        at the replacement keyword;
      - any other word of `moves` (BEGIN, END) is retagged as that keyword and
        switches to its handler without pushing;
      anything else raises. */
  ghost predicate RegionEffect(s: ParserState, r: Outcome, table: Table, spaceClears: bool, moves: Table)
    requires Ready(s)
  {
    (r.Success? ==> Evolves(s, r.value)) &&
    (IsFiller(Tok(s).kind) ==>
       r.Success? && Kept(s, r.value) && OneTokenBlock(s, r.value, FillerBlock(Tok(s).kind)) &&
       r.value.marker == (if IsSpace(Tok(s).kind) && !spaceClears then s.marker else None)) &&
    (Tok(s).kind == StringTok && Lookup(table, Word(s)).Some? ==>
       r.Success? && KeywordPushed(s, r.value, Word(s), Lookup(table, Word(s)).value)) &&
    (Tok(s).kind == StringTok && Lookup(table, Word(s)).None? && Lookup(moves, Word(s)).Some? ==>
       r.Success? && Moved(s, r.value, Lookup(moves, Word(s)).value) &&
       Retagged(s, r.value, KeywordTok(Word(s))) && NoBlock(s, r.value) && r.value.marker == s.marker) &&
    (!IsFiller(Tok(s).kind) && !RegionWord(s, table, moves) ==>
       r == Failure(ParseError(UnexpectedToken, s.token)))
  }
}
