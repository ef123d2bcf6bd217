/** The token-to-block engine: a resumable stack machine that pulls one token
    at a time, drains the blocks the previous handler queued, and runs the
    current handler.

    Two generations share this state record. `Current` is
    `TokenToBlockParser.TokenParserState` (frames of handler, raw marker and
    counter); `Legacy` is the older `ParserState` (frames of handler and
    counter; popping clears the marker). A legacy frame is stored with an
    empty marker, which is exactly what its `Pop` restores. */
module Engine {
  import opened Results
  import opened Tokens
  import opened Blocks
  import opened Handlers

  datatype Generation = Current | Legacy

  /** Which definition runs where a handler of the source cannot do what
      its neighbours show it is meant to do: the code as it stands, or the
      evidently intended one. */
  datatype Reading = AsWritten | AsIntended

  datatype Frame = Frame(handler: Handler, marker: Option<nat>, counter: int)

  datatype ErrorKind =
    | UnexpectedToken           // a handler's closing `raise ...ParserException(...)`
    | Mismatch                  // "Mismatch in opening and closing parenthesis"
    | NotImplemented            // `raise NotImplementedError(...)`
    | MissingEntry              // `KeyError` from a translation table
    | NameNotDefined            // `NameError`: the raised exception class is never imported
    | UndefinedState            // `AttributeError`: the target state method does not exist
    | NotModelled               // a handler outside this model was reached
    | EmptyStack                // `IndexError`: pop from an empty frame stack
    | NothingPopped             // `TypeError`: `Pop(0)` subscripts `None`
    | UnexpectedEndOfDocument   // "Unexpected end of document."
    | NoFirstToken              // `StopIteration`: the token stream is empty
    | CyclicChain               // the queued block chain never ends or revisits the last yielded block
    | WrongArguments            // `TypeError`: a block class called with an argument it does not take
    | EndNotFound               // "End of multi parted ... declaration not found."
    | UnboundName               // `UnboundLocalError`: a loop variable read after a loop that never ran

  datatype ParseError = ParseError(kind: ErrorKind, at: nat)

  datatype ParserState = ParserState(
    gen: Generation,
    tokens: seq<Token>,
    blocks: seq<Block>,
    stack: seq<Frame>,          // _stack
    handler: Handler,           // NextState
    marker: Option<nat>,        // _tokenMarker
    counter: int,               // Counter
    token: nat,                 // Token
    newToken: Option<nat>,      // NewToken
    newBlock: Option<nat>,      // NewBlock
    lastBlock: Option<nat>)     // LastBlock

  predicate Below(o: Option<nat>, n: nat) {
    o.Some? ==> o.value < n
  }

  /** The token chain is intact: from its end, the pending replacement if
      there is one and the current token otherwise, the backward links lead
      to the first token and are answered by forward links; a pending
      replacement stands in for the current token behind the same
      predecessor. */
  ghost predicate ChainIntact(ts: seq<Token>, token: nat, newToken: Option<nat>) {
    token < |ts| && Below(newToken, |ts|) &&
    (newToken.Some? ==> ts[token].prev.Some? && ts[newToken.value].prev == ts[token].prev) &&
    LinkedBack(ts, if newToken.Some? then newToken.value else token)
  }

  /** Every reference of the state points into its arenas, the token chain is
      intact, and a legacy state never stores a marker in a frame. */
  ghost predicate WF(s: ParserState) {
    Ordered(s.tokens) && InArena(s.blocks, |s.tokens|) &&
    s.token < |s.tokens| &&
    Below(s.marker, |s.tokens|) && Below(s.newToken, |s.tokens|) &&
    Below(s.newBlock, |s.blocks|) && Below(s.lastBlock, |s.blocks|) &&
    ChainIntact(s.tokens, s.token, s.newToken) &&
    (forall f :: f in s.stack ==> Below(f.marker, |s.tokens|)) &&
    (s.gen == Legacy ==> forall f :: f in s.stack ==> f.marker.None?)
  }

  /** What a handler may assume: a well-formed state that has already
      yielded at least the start-of-document block, on a token that has a
      predecessor (every token after the first). */
  ghost predicate Ready(s: ParserState) {
    WF(s) && s.lastBlock.Some? && Tok(s).prev.Some?
  }

  /** What every handler keeps: the arenas only grow and what is in them
      changes at most in its forward links, the current token, its record
      and the last yielded block stay, and the state stays well-formed, with
      an intact token chain. */
  ghost predicate Evolves(s: ParserState, r: ParserState) {
    WF(r) && r.gen == s.gen && r.token == s.token && r.lastBlock == s.lastBlock &&
    TokensExtend(s.tokens, r.tokens) && BlocksExtend(s.blocks, r.blocks) &&
    s.token < |s.tokens| && r.tokens[s.token] == s.tokens[s.token]
  }

  /** The current token, `parserState.Token`. */
  function Tok(s: ParserState): Token
    requires s.token < |s.tokens|
  {
    s.tokens[s.token]
  }

  function Fail(s: ParserState, k: ErrorKind): (r: Result<ParserState, ParseError>)
    ensures r == Failure(ParseError(k, s.token))
  {
    Failure(ParseError(k, s.token))
  }

  // ---------------------------------------------------------------------------
  // Stack

  /** The marker a pushed frame keeps: the raw marker in the current
      generation, nothing in the legacy one. */
  function Saved(s: ParserState): Option<nat> {
    if s.gen == Current then s.marker else None
  }

  /** The `PushState` setter: saves one frame, installs the new handler and
      clears the marker; the counter is kept. */
  function Push(s: ParserState, h: Handler): (r: ParserState)
    requires WF(s)
    ensures r.stack == s.stack + [Frame(s.handler, Saved(s), s.counter)]
    ensures r.handler == h && r.marker.None? && r.counter == s.counter
    ensures r.(stack := s.stack, handler := s.handler, marker := s.marker) == s
    ensures Evolves(s, r)
  {
    s.(stack := s.stack + [Frame(s.handler, Saved(s), s.counter)], handler := h, marker := None)
  }

  /** `Pop(n)`: removes n frames and restores handler, marker and counter from
      the deepest frame removed. A stack with fewer than n frames raises
      `IndexError`; `Pop(0)` raises `TypeError`. */
  function Pop(s: ParserState, n: nat): (r: Result<ParserState, ParseError>)
    requires WF(s)
    ensures r.Success? <==> 1 <= n <= |s.stack|
    ensures n == 0 ==> r == Fail(s, NothingPopped)
    ensures n > |s.stack| && n >= 1 ==> r == Fail(s, EmptyStack)
    ensures r.Success? ==>
      var top := s.stack[|s.stack| - n];
      r.value.stack == s.stack[..|s.stack| - n] &&
      r.value.handler == top.handler && r.value.counter == top.counter &&
      r.value.marker == (if s.gen == Current then top.marker else None) &&
      r.value.(stack := s.stack, handler := s.handler, marker := s.marker, counter := s.counter) == s &&
      Evolves(s, r.value)
  {
    if n == 0 then Fail(s, NothingPopped)
    else if n > |s.stack| then Fail(s, EmptyStack)
    else
      var top := s.stack[|s.stack| - n];
      var r := s.(stack := s.stack[..|s.stack| - n], handler := top.handler,
                  marker := if s.gen == Current then top.marker else None, counter := top.counter);
      assert forall f :: f in r.stack ==> f in s.stack;
      Success(r)
  }

  /** `Pop(1)` right after a push restores the state before the push; in the
      legacy generation the marker comes back empty. */
  lemma PushThenPop(s: ParserState, h: Handler)
    requires WF(s)
    ensures Pop(Push(s, h), 1) == Success(if s.gen == Current then s else s.(marker := None))
  {
    assert (s.stack + [Frame(s.handler, Saved(s), s.counter)])[..|s.stack|] == s.stack;
  }

  /** Popping a + b frames at once is popping a frames and then b frames. */
  lemma PopSplits(s: ParserState, a: nat, b: nat)
    requires WF(s) && 1 <= a && 1 <= b && a + b <= |s.stack|
    ensures Pop(s, a).Success?
    ensures Pop(Pop(s, a).value, b) == Pop(s, a + b)
  {
    var s1 := Pop(s, a).value;
    assert s1.stack == s.stack[..|s.stack| - a];
    assert s1.stack[..|s1.stack| - b] == s.stack[..|s.stack| - (a + b)];
    assert s1.stack[|s1.stack| - b] == s.stack[|s.stack| - (a + b)];
  }

  /** Every legacy frame carries only handler and counter, so a legacy pop
      always leaves the marker empty. */
  lemma LegacyPopClearsMarker(s: ParserState, n: nat)
    requires WF(s) && s.gen == Legacy
    ensures Pop(s, n).Success? ==> Pop(s, n).value.marker.None?
    ensures Push(s, Document).stack[|s.stack|].marker.None?
  {
  }

  /** Handlers are built from steps that each evolve the state, and so
      evolve it as a whole. */
  lemma EvolvesTrans(s: ParserState, t: ParserState, r: ParserState)
    requires Evolves(s, t) && Evolves(t, r)
    ensures Evolves(s, r)
  {
  }

  /** The handler for the next token becomes `h`. */
  function Goto(s: ParserState, h: Handler): (r: ParserState)
    requires WF(s)
    ensures r == s.(handler := h) && Evolves(s, r)
  {
    s.(handler := h)
  }

  function SetCounter(s: ParserState, c: int): (r: ParserState)
    requires WF(s)
    ensures r == s.(counter := c) && Evolves(s, r)
  {
    s.(counter := c)
  }

  // ---------------------------------------------------------------------------
  // Marker and replacement token

  /** The `TokenMarker` getter: a marker that is the current token while a
      replacement is pending is moved to the replacement before it is read. */
  function ReadMarker(s: ParserState): (r: ParserState)
    requires WF(s)
    ensures s.newToken.Some? && s.marker == Some(s.token) ==> r == s.(marker := s.newToken)
    ensures !(s.newToken.Some? && s.marker == Some(s.token)) ==> r == s
    ensures Evolves(s, r)
  {
    if s.newToken.Some? && s.marker == Some(s.token) then s.(marker := s.newToken) else s
  }

  /** Reading the marker a second time reads what the first read left: the
      getter's move happens once. */
  lemma ReadMarkerIdempotent(s: ParserState)
    requires WF(s)
    ensures ReadMarker(ReadMarker(s)) == ReadMarker(s)
  {
  }

  /** The getter after the setter reads the value set, except that the
      current token reads as its pending replacement; nothing else of the
      state changes. */
  lemma ReadAfterSet(s: ParserState, m: Option<nat>)
    requires WF(s) && Below(m, |s.tokens|)
    ensures ReadMarker(SetMarker(s, m)).marker == (if s.newToken.Some? && m == Some(s.token) then s.newToken else m)
    ensures ReadMarker(SetMarker(s, m)).(marker := s.marker) == s
  {
  }

  /** The `TokenMarker` setter. */
  function SetMarker(s: ParserState, m: Option<nat>): (r: ParserState)
    requires WF(s) && Below(m, |s.tokens|)
    ensures r == s.(marker := m) && Evolves(s, r)
  {
    s.(marker := m)
  }

  /** A replacement of the current token with class k becomes the pending
      token. */
  function Retag(s: ParserState, k: Kind): (r: ParserState)
    requires WF(s) && Tok(s).prev.Some?
    ensures r.newToken == Some(|s.tokens|) && |r.tokens| == |s.tokens| + 1
    ensures r.tokens[|s.tokens|] == Token(k, Tok(s).text, Tok(s).start, Tok(s).end, Tok(s).prev, None)
    ensures r.tokens == Replace(s.tokens, s.token, k)
    ensures r.(tokens := s.tokens, newToken := s.newToken) == s
    ensures Evolves(s, r)
  {
    ReplaceKeepsChain(s.tokens, s.token, k, if s.newToken.Some? then s.newToken.value else s.token);
    s.(tokens := Replace(s.tokens, s.token, k), newToken := Some(|s.tokens|))
  }

  // ---------------------------------------------------------------------------
  // Queued blocks

  /** A block of kind k over start..end, linked behind the last yielded
      block, becomes the pending block. */
  function Queue(s: ParserState, k: BlockKind, start: Option<nat>, end: Option<nat>, m: bool): (r: ParserState)
    requires Ready(s) && Below(start, |s.tokens|) && Below(end, |s.tokens|)
    ensures r.newBlock == Some(|s.blocks|)
    ensures r.blocks == Construct(s.blocks, k, s.lastBlock.value, start, end, m)
    ensures r.(blocks := s.blocks, newBlock := s.newBlock) == s
    ensures Evolves(s, r)
  {
    s.(blocks := Construct(s.blocks, k, s.lastBlock.value, start, end, m), newBlock := Some(|s.blocks|))
  }

  /** As `Queue`, with the block starting at the marker, read through its
      getter. */
  function QueueAtMarker(s: ParserState, k: BlockKind, end: Option<nat>, m: bool): (r: ParserState)
    requires Ready(s) && Below(end, |s.tokens|)
    ensures r.newBlock == Some(|s.blocks|)
    ensures r.blocks == Construct(s.blocks, k, s.lastBlock.value, ReadMarker(s).marker, end, m)
    ensures r.(blocks := s.blocks, newBlock := s.newBlock) == ReadMarker(s)
    ensures Evolves(s, r)
  {
    var s1 := ReadMarker(s);
    Queue(s1, k, s1.marker, end, m)
  }

  /** A block linked behind the pending one; the pending block stays the
      head of the queue. */
  function Chain(s: ParserState, k: BlockKind, start: Option<nat>, end: Option<nat>, m: bool): (r: ParserState)
    requires WF(s) && s.newBlock.Some? && Below(start, |s.tokens|) && Below(end, |s.tokens|)
    ensures r.blocks == Construct(s.blocks, k, s.newBlock.value, start, end, m)
    ensures r.(blocks := s.blocks) == s
    ensures Evolves(s, r)
  {
    s.(blocks := Construct(s.blocks, k, s.newBlock.value, start, end, m))
  }

  /** The end-of-document block over the current token becomes the pending
      block. */
  function QueueEndOfDocument(s: ParserState): (r: ParserState)
    requires WF(s)
    ensures r.newBlock == Some(|s.blocks|)
    ensures r.blocks == EndOf(s.blocks, EndOfDocumentBlk, s.token)
    ensures r.(blocks := s.blocks, newBlock := s.newBlock) == s
    ensures Evolves(s, r)
  {
    s.(blocks := EndOf(s.blocks, EndOfDocumentBlk, s.token), newBlock := Some(|s.blocks|))
  }

  // ---------------------------------------------------------------------------
  // Start-up, token arrival, draining and the end of input

  /** `Transform` and the state's constructor: the first token opens a
      `StartOfDocumentBlock` that is queued for the first drain; the stack is
      empty, the counter 0 and the handler `stateDocument`. */
  function Start(gen: Generation, first: Lexeme): (s: ParserState)
    ensures WF(s) && s.gen == gen
    ensures s.stack == [] && s.counter == 0 && s.handler == Document
    ensures s.tokens == [Token(first.kind, first.text, first.start, first.end, None, None)]
    ensures s.blocks == [Block(StartOfDocumentBlk, Some(0), None, false, None, None)]
    ensures s.token == 0 && s.newBlock == Some(0) && s.lastBlock.None?
    ensures s.marker.None? && s.newToken.None?
  {
    ParserState(gen, [Token(first.kind, first.text, first.start, first.end, None, None)],
      StartOf([], StartOfDocumentBlk, 0), [], Document, None, 0, 0, None, Some(0), None)
  }

  /** The head of the generator loop for one arriving token: a pending
      replacement becomes the arriving token's predecessor (moving a marker
      that pointed at the replaced token), then the arriving token becomes
      `Token`, and an empty marker is set to it. */
  function Advance(s: ParserState, x: Lexeme): (r: ParserState)
    requires WF(s)
    ensures r.token == |s.tokens| && |r.tokens| == |s.tokens| + 1
    ensures Tok(r).kind == x.kind && Tok(r).text == x.text && Tok(r).next.None?
    ensures r.newToken.None? && r.marker.Some?
    ensures s.newToken.Some? ==>
      Tok(r).prev == s.newToken && r.tokens[s.newToken.value].next == Some(r.token)
    ensures s.newToken.None? ==> Tok(r).prev == Some(s.token)
    ensures r.tokens[s.token].next == Some(r.token)
    ensures s.newToken.Some? && s.marker == Some(s.token) ==> r.marker == s.newToken
    ensures s.marker.None? ==> r.marker == Some(r.token)
    ensures s.marker.Some? && !(s.newToken.Some? && s.marker == Some(s.token)) ==> r.marker == s.marker
    ensures r.(tokens := s.tokens, token := s.token, newToken := s.newToken, marker := s.marker) == s
    ensures WF(r)
  {
    var n := |s.tokens|;
    var ts := Arrive(s.tokens, s.token, x);
    var marker := if s.newToken.Some? && s.marker == Some(s.token) then s.newToken else s.marker;
    var ts' := if s.newToken.Some? then SetPrevious(ts, n, s.newToken.value) else ts;
    var r := s.(tokens := ts', token := n, newToken := None,
                marker := if marker.None? then Some(n) else marker);
    ArrivalKeepsChain(s.tokens, s.token, s.newToken, x);
    assert forall f :: f in r.stack ==> Below(f.marker, |r.tokens|);
    r
  }

  /** Linking an arriving token behind the chain's end makes it the end of an
      intact chain; the tokens already there change only in forward links. */
  lemma ArrivalKeepsChain(ts: seq<Token>, token: nat, newToken: Option<nat>, x: Lexeme)
    requires Ordered(ts) && ChainIntact(ts, token, newToken)
    ensures var a := Arrive(ts, token, x);
      var ts' := if newToken.Some? then SetPrevious(a, |ts|, newToken.value) else a;
      ChainIntact(ts', |ts|, None) && TokensExtend(ts, ts')
  {
    var n := |ts|;
    var a := Arrive(ts, token, x);
    var ts' := if newToken.Some? then SetPrevious(a, n, newToken.value) else a;
    var h := if newToken.Some? then newToken.value else token;
    if newToken.Some? {
      var p := ts[token].prev.value;
      assert ts[h].prev == Some(p) && LinkedBack(ts, p);
      LinkedBackFrame(ts, ts', p);
      assert LinkedBack(ts', h);
    } else {
      LinkedBackFrame(ts, ts', token);
    }
    assert ts'[n].prev == Some(h) && ts'[h].next == Some(n);
    assert LinkedBack(ts', n);
  }

  /** The `else` branch of the generator's `for` loop: after the last token
      the pending block is yielded when the last token is an
      `EndOfDocumentToken` and the pending block an `EndOfDocumentBlock`;
      otherwise "Unexpected end of document." is raised. */
  function Finish(s: ParserState): (r: Result<nat, ParseError>)
    requires WF(s)
    ensures r.Success? <==>
      Tok(s).kind == EndOfDocumentTok && s.newBlock.Some? && s.blocks[s.newBlock.value].kind == EndOfDocumentBlk
    ensures r.Success? ==> Some(r.value) == s.newBlock
    ensures r.Failure? ==> r.error == ParseError(UnexpectedEndOfDocument, s.token)
  {
    if Tok(s).kind == EndOfDocumentTok && s.newBlock.Some? && s.blocks[s.newBlock.value].kind == EndOfDocumentBlk
    then Success(s.newBlock.value)
    else Failure(ParseError(UnexpectedEndOfDocument, s.token))
  }
}
