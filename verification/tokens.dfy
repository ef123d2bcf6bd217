/** The token stream as the block parser sees it.

    Tokens live in an arena (`seq<Token>`); a token is identified by its
    index, so Python's `a is b` on tokens is index equality. The tokenizer
    itself is not part of this model: a token is a kind tag, its text, its
    absolute start and end positions and its two links. */
module Tokens {
  import opened Results

  /** Token classes. The first group is what the tokenizer emits; the second
      group are the replacement classes block handlers create from an
      arriving token (`IdentifierToken(token)`, `IsKeyword(token)`, ...). */
  datatype Kind =
    | StartOfDocumentTok
    | EndOfDocumentTok
    | SpaceTok
    | IndentationTok          // a subclass of SpaceToken
    | LinebreakTok
    | SingleLineCommentTok    // a subclass of CommentToken
    | MultiLineCommentTok     // a subclass of CommentToken
    | CharacterTok
    | FusedCharacterTok
    | StringTok
    | LiteralTok
    | ExtendedIdentifierTok
    | BoundaryTok
    | IdentifierTok
    | DelimiterTok
    | EndTok
    | KeywordTok(keyword: string)
    | OpeningRoundBracketTok
    | ClosingRoundBracketTok
    | VariableAssignmentTok
    | OperatorTok(operator: string)

  /** A space token: plain whitespace or an indentation. */
  predicate IsSpace(k: Kind) {
    k == SpaceTok || k == IndentationTok
  }

  /** A comment token, single-line or multi-line. */
  predicate IsComment(k: Kind) {
    k == SingleLineCommentTok || k == MultiLineCommentTok
  }

  datatype Token = Token(
    kind: Kind,
    text: string,
    start: int,               // Start.Absolute
    end: int,                 // End.Absolute
    prev: Option<nat>,        // PreviousToken
    next: Option<nat>)        // NextToken

  /** A token as the tokenizer delivers it, before it is linked into the arena. */
  datatype Lexeme = Lexeme(kind: Kind, text: string, start: int, end: int)

  function LowerChar(c: char): (r: char)
    ensures 'A' <= c <= 'Z' ==> 'a' <= r <= 'z'
    ensures !('A' <= c <= 'Z') ==> r == c
  {
    if 'A' <= c <= 'Z' then (c as int + 32) as char else c
  }

  /** Lower-casing, restricted to ASCII letters. */
  function Lower(s: string): (r: string)
    ensures |r| == |s|
    ensures forall i :: 0 <= i < |s| ==> r[i] == LowerChar(s[i])
  {
    if s == [] then [] else [LowerChar(s[0])] + Lower(s[1..])
  }

  /** Case-insensitive keyword comparison of a token with the lower-case
      keyword `kw`. The comparison operator of the token classes is not part of
      this model; it is taken to lower-case the token's text. */
  predicate MatchesKeyword(t: Token, kw: string) {
    Lower(t.text) == kw
  }

  /** A single-character token that is the character c. */
  predicate IsChar(t: Token, c: char) {
    t.kind == CharacterTok && t.text == [c]
  }

  /** A fused-character token whose text is `op`. */
  predicate IsFused(t: Token, op: string) {
    t.kind == FusedCharacterTok && t.text == op
  }

  /** Every link stays inside the arena and points the right way: a token's
      predecessor has a smaller index and its successor a larger one. Every
      arena operation below keeps this. */
  ghost predicate Ordered(ts: seq<Token>) {
    forall i :: 0 <= i < |ts| ==>
      (ts[i].prev.Some? ==> ts[i].prev.value < i) &&
      (ts[i].next.Some? ==> i < ts[i].next.value < |ts|)
  }

  /** The arena only grows, and a token already in it changes at most in its
      forward link: its class, text, positions and predecessor stay. */
  ghost predicate TokensExtend(ts: seq<Token>, ts': seq<Token>) {
    |ts| <= |ts'| && forall i :: 0 <= i < |ts| ==> ts'[i].(next := ts[i].next) == ts[i]
  }

  /** Following `PreviousToken` from `x` ends at the first token, and each
      token on the way is the `NextToken` of its predecessor: the two-way
      connection the test suite's token check expects of every token it
      iterates. */
  ghost predicate LinkedBack(ts: seq<Token>, x: nat)
    decreases x
  {
    x < |ts| &&
    match ts[x].prev
    case None => x == 0
    case Some(p) => p < x && ts[p].next == Some(x) && LinkedBack(ts, p)
  }

  /** The chain behind `x` is unaffected by changes to later tokens. */
  lemma {:induction false} LinkedBackFrame(ts: seq<Token>, ts': seq<Token>, x: nat)
    requires LinkedBack(ts, x)
    requires x < |ts'| && ts'[x].prev == ts[x].prev
    requires forall i :: 0 <= i < x ==> ts'[i] == ts[i]
    ensures LinkedBack(ts', x)
    decreases x
  {
    if ts[x].prev.Some? {
      LinkedBackFrame(ts, ts', ts[x].prev.value);
    }
  }

  /** A token arriving from the tokenizer: it is appended to the arena behind
      the tokenizer's previous token `last`, and `last` links forward to it. */
  function Arrive(ts: seq<Token>, last: nat, x: Lexeme): (r: seq<Token>)
    requires last < |ts|
    ensures |r| == |ts| + 1
    ensures r[|ts|] == Token(x.kind, x.text, x.start, x.end, Some(last), None)
    ensures r[last].next == Some(|ts|)
    ensures forall i :: 0 <= i < |ts| && i != last ==> r[i] == ts[i]
    ensures r[last].prev == ts[last].prev && r[last].kind == ts[last].kind
    ensures Ordered(ts) ==> Ordered(r)
  {
    ts[last := ts[last].(next := Some(|ts|))] + [Token(x.kind, x.text, x.start, x.end, Some(last), None)]
  }

  /** A replacement of token `t` with class `k`.
      It keeps `t`'s text, positions and predecessor, and the predecessor now
      links forward to the replacement instead of to `t`. */
  function Replace(ts: seq<Token>, t: nat, k: Kind): (r: seq<Token>)
    requires t < |ts|
    requires Ordered(ts)
    ensures |r| == |ts| + 1
    ensures r[|ts|] == Token(k, ts[t].text, ts[t].start, ts[t].end, ts[t].prev, None)
    ensures ts[t].prev.Some? ==> r[ts[t].prev.value] == ts[ts[t].prev.value].(next := Some(|ts|))
    ensures forall i :: 0 <= i < |ts| && Some(i) != ts[t].prev ==> r[i] == ts[i]
    ensures forall i :: 0 <= i < |ts| ==> r[i].prev == ts[i].prev && r[i].kind == ts[i].kind && r[i].text == ts[i].text
    ensures Ordered(r)
    ensures TokensExtend(ts, r)
  {
    var n := |ts|;
    var old_ := ts[t];
    var linked := if old_.prev.Some? then ts[old_.prev.value := ts[old_.prev.value].(next := Some(n))] else ts;
    linked + [Token(k, old_.text, old_.start, old_.end, old_.prev, None)]
  }

  /** Replacing a token whose predecessor is also the predecessor of the
      chain's end `h` (the token itself, or an earlier replacement of it)
      makes the replacement the new end of an intact chain. */
  lemma ReplaceKeepsChain(ts: seq<Token>, t: nat, k: Kind, h: nat)
    requires Ordered(ts) && t < |ts| && h < |ts| && ts[t].prev.Some?
    requires ts[h].prev == ts[t].prev && LinkedBack(ts, h)
    ensures LinkedBack(Replace(ts, t, k), |ts|)
  {
    var p := ts[t].prev.value;
    var r := Replace(ts, t, k);
    assert LinkedBack(ts, p);
    LinkedBackFrame(ts, r, p);
  }

  /** The `PreviousToken` setter: giving `t` the predecessor `p` also makes
      `p` link forward to `t`, the symmetry the test suite's connectivity check expects. */
  function SetPrevious(ts: seq<Token>, t: nat, p: nat): (r: seq<Token>)
    requires t < |ts| && p < |ts| && p < t
    ensures |r| == |ts|
    ensures r[t] == ts[t].(prev := Some(p)) && r[p] == ts[p].(next := Some(t))
    ensures forall i :: 0 <= i < |ts| && i != t && i != p ==> r[i] == ts[i]
    ensures Ordered(ts) ==> Ordered(r)
  {
    var linked := ts[t := ts[t].(prev := Some(p))];
    linked[p := linked[p].(next := Some(t))]
  }
}
