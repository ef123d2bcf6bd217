/** Blocks: doubly-linked nodes over an inclusive range of tokens.

    Blocks live in an arena (`seq<Block>`) next to the token arena; a block is
    identified by its index. The same class appears twice in the repository,
    once per parser generation, with the same linking, iteration, length and
    printing logic; only the exception class raised on a broken token chain
    differs. */
module Blocks {
  import opened Results
  import opened Tokens

  /** Block classes. The generic ones are named; the handler-specific ones
      (`Entity.NameBlock`, `GenericList.DelimiterBlock`, ...) carry their
      qualified class name. */
  datatype BlockKind =
    | StartOfDocumentBlk
    | EndOfDocumentBlk
    | WhitespaceBlk
    | IndentationBlk
    | LinebreakBlk
    | EmptyLineBlk
    | CommentBlk
    | MultiLineCommentBlk
    | Named(cls: string)

  datatype Block = Block(
    kind: BlockKind,
    start: Option<nat>,       // StartToken
    end: Option<nat>,         // EndToken
    multiPart: bool,          // MultiPart
    prev: Option<nat>,        // PreviousBlock
    next: Option<nat>)        // NextBlock

  /** `StartOfBlock` and its subclasses: no predecessor, no end token, length 0. */
  predicate IsStartOf(k: BlockKind) {
    k == StartOfDocumentBlk
  }

  /** `EndOfBlock` and its subclasses: no predecessor, no start token, length 0. */
  predicate IsEndOf(k: BlockKind) {
    k == EndOfDocumentBlk
  }

  /** All block references stay inside the arena. */
  ghost predicate InArena(bs: seq<Block>, ntokens: nat) {
    forall i :: 0 <= i < |bs| ==>
      (bs[i].prev.Some? ==> bs[i].prev.value < |bs|) &&
      (bs[i].next.Some? ==> bs[i].next.value < |bs|) &&
      (bs[i].start.Some? ==> bs[i].start.value < ntokens) &&
      (bs[i].end.Some? ==> bs[i].end.value < ntokens)
  }

  /** A forward link is always answered by the matching backward link. */
  ghost predicate ForwardSymmetric(bs: seq<Block>) {
    forall i :: 0 <= i < |bs| && bs[i].next.Some? ==>
      bs[i].next.value < |bs| && bs[bs[i].next.value].prev == Some(i)
  }

  /** Two blocks agree on everything but their forward link. */
  predicate SameButNext(a: Block, b: Block) {
    a.(next := b.next) == b
  }

  /** The arena only grows, and a block already in it changes at most in its
      forward link: no operation rewrites the class, tokens or predecessor of
      a block once it exists. */
  ghost predicate BlocksExtend(bs: seq<Block>, bs': seq<Block>) {
    |bs| <= |bs'| && forall k :: 0 <= k < |bs| ==> SameButNext(bs[k], bs'[k])
  }

  /** `Block(previousBlock, startToken, endToken, multiPart)`: appends the new
      block, links the predecessor forward to it and the new block back to the
      predecessor; an omitted end token defaults to the start token. */
  function Construct(bs: seq<Block>, k: BlockKind, pred: nat, start: Option<nat>, end: Option<nat>, multiPart: bool): (r: seq<Block>)
    requires pred < |bs|
    ensures |r| == |bs| + 1
    ensures r[pred] == bs[pred].(next := Some(|bs|))
    ensures r[|bs|].prev == Some(pred) && r[|bs|].next == None
    ensures r[|bs|].kind == k && r[|bs|].start == start && r[|bs|].multiPart == multiPart
    ensures r[|bs|].end == (if end.None? then start else end)
    ensures forall i :: 0 <= i < |bs| && i != pred ==> r[i] == bs[i]
    ensures ForwardSymmetric(bs) ==> ForwardSymmetric(r)
    ensures BlocksExtend(bs, r)
  {
    bs[pred := bs[pred].(next := Some(|bs|))]
      + [Block(k, start, if end.None? then start else end, multiPart, Some(pred), None)]
  }

  /** The constructor is the `PreviousBlock` setter applied to the new block
      appended unlinked: both end in the same arena. */
  lemma ConstructIsSetPrevious(bs: seq<Block>, k: BlockKind, pred: nat, start: Option<nat>, end: Option<nat>, m: bool)
    requires pred < |bs|
    ensures Construct(bs, k, pred, start, end, m) ==
      SetPreviousBlock(bs + [Block(k, start, if end.None? then start else end, m, None, None)], |bs|, pred)
  {
    var r := Construct(bs, k, pred, start, end, m);
    var r' := SetPreviousBlock(bs + [Block(k, start, if end.None? then start else end, m, None, None)], |bs|, pred);
    assert forall i :: 0 <= i < |r| ==> r[i] == r'[i];
  }

  /** `StartOfBlock(startToken)`: a block over its start token alone that no
      block links to and that links to none; the blocks already there stay
      as they are. */
  function StartOf(bs: seq<Block>, k: BlockKind, start: nat): (r: seq<Block>)
    requires IsStartOf(k)
    ensures |r| == |bs| + 1 && r[..|bs|] == bs && BlocksExtend(bs, r)
    ensures r[|bs|].kind == k && r[|bs|].start == Some(start) && r[|bs|].end.None?
    ensures r[|bs|].prev.None? && r[|bs|].next.None?
  {
    bs + [Block(k, Some(start), None, false, None, None)]
  }

  /** `EndOfBlock(endToken)`: a block over its end token alone; unlike every
      other block it is not linked behind the block before it, so no block
      links to it. */
  function EndOf(bs: seq<Block>, k: BlockKind, end: nat): (r: seq<Block>)
    requires IsEndOf(k)
    ensures |r| == |bs| + 1 && r[..|bs|] == bs && BlocksExtend(bs, r)
    ensures r[|bs|].kind == k && r[|bs|].start.None? && r[|bs|].end == Some(end)
    ensures r[|bs|].prev.None? && r[|bs|].next.None?
  {
    bs + [Block(k, None, Some(end), false, None, None)]
  }

  /** A start block keeps an arena an arena: nothing links to it, and every
      forward link is still answered by a backward one. */
  lemma {:induction false} StartOfKeepsLinks(bs: seq<Block>, k: BlockKind, start: nat, n: nat)
    requires IsStartOf(k) && InArena(bs, n)
    ensures var r := StartOf(bs, k, start);
      (forall i :: 0 <= i < |r| ==> r[i].next != Some(|bs|)) &&
      (start < n ==> InArena(r, n)) &&
      (ForwardSymmetric(bs) ==> ForwardSymmetric(r))
  {
    var r := StartOf(bs, k, start);
    forall i | 0 <= i < |r|
      ensures r[i].next != Some(|bs|)
    {
      if i < |bs| {
        assert r[i] == bs[i];
      }
    }
  }

  /** An end block keeps an arena an arena, as a start block does. */
  lemma {:induction false} EndOfKeepsLinks(bs: seq<Block>, k: BlockKind, end: nat, n: nat)
    requires IsEndOf(k) && InArena(bs, n)
    ensures var r := EndOf(bs, k, end);
      (forall i :: 0 <= i < |r| ==> r[i].next != Some(|bs|)) &&
      (end < n ==> InArena(r, n)) &&
      (ForwardSymmetric(bs) ==> ForwardSymmetric(r))
  {
    var r := EndOf(bs, k, end);
    forall i | 0 <= i < |r|
      ensures r[i].next != Some(|bs|)
    {
      if i < |bs| {
        assert r[i] == bs[i];
      }
    }
  }

  /** The document's start and end blocks iterate exactly their one token and
      have length 0. */
  lemma DocumentBlocksIterate(ts: seq<Token>, bs: seq<Block>, t: nat)
    requires Ordered(ts) && t < |ts|
    ensures Iterate(ts, StartOf(bs, StartOfDocumentBlk, t)[|bs|]) == Success([t])
    ensures Iterate(ts, EndOf(bs, EndOfDocumentBlk, t)[|bs|]) == Success([t])
    ensures Length(ts, StartOf(bs, StartOfDocumentBlk, t)[|bs|]) == 0
    ensures Length(ts, EndOf(bs, EndOfDocumentBlk, t)[|bs|]) == 0
  {
  }

  /** The `PreviousBlock` setter: giving `b` the predecessor `v` also makes
      `v` link forward to `b`; `v` may be `b` itself, which then links to
      itself both ways. */
  function SetPreviousBlock(bs: seq<Block>, b: nat, v: nat): (r: seq<Block>)
    requires b < |bs| && v < |bs|
    ensures |r| == |bs|
    ensures r[b].prev == Some(v) && r[v].next == Some(b)
    ensures b != v ==> r[b] == bs[b].(prev := Some(v)) && r[v] == bs[v].(next := Some(b))
    ensures b == v ==> r[b] == bs[b].(prev := Some(b), next := Some(b))
    ensures forall i :: 0 <= i < |bs| && i != b && i != v ==> r[i] == bs[i]
    ensures ForwardSymmetric(bs) && bs[b].prev.None? ==> ForwardSymmetric(r)
  {
    var linked := bs[b := bs[b].(prev := Some(v))];
    linked[v := linked[v].(next := Some(b))]
  }

  // ---------------------------------------------------------------------------
  // Iteration

  datatype IterError =
    | BrokenChain(at: nat)    // `NextToken is None` before the end token was reached
    | NullToken               // the block holds no token where one is iterated

  /** `p` follows `NextToken` links from its first to its last element. */
  ghost predicate IsPath(ts: seq<Token>, p: seq<nat>) {
    (forall k :: 0 <= k < |p| ==> p[k] < |ts|) &&
    (forall k :: 0 <= k < |p| - 1 ==> ts[p[k]].next == Some(p[k + 1]))
  }

  /** The loop of `Block.__iter__`: it follows the forward links until it
      reaches the end token. */
  function Walk(ts: seq<Token>, cur: nat, end: nat): (r: Result<seq<nat>, IterError>)
    requires Ordered(ts) && cur < |ts|
    ensures r.Success? ==> |r.value| >= 1 && r.value[0] == cur && r.value[|r.value| - 1] == end
    ensures r.Success? ==> IsPath(ts, r.value)
    ensures r.Failure? ==> r.error.BrokenChain? && cur <= r.error.at < |ts| && ts[r.error.at].next.None?
    decreases |ts| - cur
  {
    if cur == end then Success([end])
    else match ts[cur].next
      case None => Failure(BrokenChain(cur))
      case Some(n) =>
        var rest :- Walk(ts, n, end);
        Success([cur] + rest)
  }

  /** Along a path every index is larger than the one before. */
  lemma {:induction false} PathIncreases(ts: seq<Token>, p: seq<nat>, i: nat, j: nat)
    requires Ordered(ts) && IsPath(ts, p)
    requires i < j < |p|
    ensures p[i] < p[j]
    decreases j - i
  {
    assert ts[p[i]].next == Some(p[i + 1]);
    if i + 1 < j {
      PathIncreases(ts, p, i + 1, j);
    }
  }

  /** The walk finds every path that ends at the end token: iteration succeeds
      exactly when the end token is reachable from the start token. */
  lemma {:induction false} WalkComplete(ts: seq<Token>, p: seq<nat>)
    requires Ordered(ts) && IsPath(ts, p) && |p| >= 1
    ensures Walk(ts, p[0], p[|p| - 1]) == Success(p)
    decreases |p|
  {
    if |p| > 1 {
      PathIncreases(ts, p, 0, |p| - 1);
      var tail := p[1..];
      assert IsPath(ts, tail) by {
        forall k | 0 <= k < |tail| - 1
          ensures ts[tail[k]].next == Some(tail[k + 1])
        {
          assert ts[p[k + 1]].next == Some(p[k + 2]);
        }
      }
      WalkComplete(ts, tail);
      assert ts[p[0]].next == Some(tail[0]);
      assert tail[|tail| - 1] == p[|p| - 1];
      assert [p[0]] + tail == p;
    } else {
      assert p == [p[0]];
    }
  }

  /** The tokens from the first one to x, read backwards along the
      predecessor links of an intact chain. */
  ghost function BackPath(ts: seq<Token>, x: nat): (p: seq<nat>)
    requires LinkedBack(ts, x)
    decreases x
  {
    match ts[x].prev
    case None => [x]
    case Some(q) => BackPath(ts, q) + [x]
  }

  /** Read forwards, the predecessor chain is a path of forward links from
      the first token. */
  lemma {:induction false} BackPathIsPath(ts: seq<Token>, x: nat)
    requires LinkedBack(ts, x)
    ensures var p := BackPath(ts, x); |p| >= 1 && p[0] == 0 && p[|p| - 1] == x && IsPath(ts, p)
    decreases x
  {
    if ts[x].prev.Some? {
      var q := ts[x].prev.value;
      BackPathIsPath(ts, q);
      var a := BackPath(ts, q);
      var p := a + [x];
      assert p == BackPath(ts, x);
      forall k | 0 <= k < |p| - 1
        ensures ts[p[k]].next == Some(p[k + 1])
      {
        if k < |a| - 1 {
          assert p[k] == a[k] && p[k + 1] == a[k + 1];
        }
      }
    }
  }

  /** Iterating from the first token reaches the end of an intact chain,
      through exactly the tokens its predecessor links pass: the walk the
      test suite's connectivity check makes succeeds. */
  lemma ChainWalks(ts: seq<Token>, x: nat)
    requires Ordered(ts) && LinkedBack(ts, x)
    ensures Walk(ts, 0, x) == Success(BackPath(ts, x))
  {
    BackPathIsPath(ts, x);
    WalkComplete(ts, BackPath(ts, x));
  }

  /** `Block.__iter__`, `StartOfBlock.__iter__` and `EndOfBlock.__iter__`. */
  function Iterate(ts: seq<Token>, b: Block): (r: Result<seq<nat>, IterError>)
    requires Ordered(ts)
    requires b.start.Some? ==> b.start.value < |ts|
    requires b.end.Some? ==> b.end.value < |ts|
    ensures IsStartOf(b.kind) && b.start.Some? ==> r == Success([b.start.value])
    ensures IsEndOf(b.kind) && b.end.Some? ==> r == Success([b.end.value])
    ensures r.Success? && !IsStartOf(b.kind) && !IsEndOf(b.kind) ==>
      b.start.Some? && b.end.Some? && |r.value| >= 1 && r.value[0] == b.start.value &&
      r.value[|r.value| - 1] == b.end.value && IsPath(ts, r.value)
  {
    if IsStartOf(b.kind) then
      (if b.start.Some? then Success([b.start.value]) else Failure(NullToken))
    else if IsEndOf(b.kind) then
      (if b.end.Some? then Success([b.end.value]) else Failure(NullToken))
    else if b.start.None? || b.end.None? then Failure(NullToken)
    else Walk(ts, b.start.value, b.end.value)
  }

  /** A block built without an explicit end token iterates exactly its start token. */
  lemma SingleTokenBlock(ts: seq<Token>, bs: seq<Block>, k: BlockKind, pred: nat, start: nat)
    requires Ordered(ts) && start < |ts| && pred < |bs|
    requires !IsStartOf(k) && !IsEndOf(k)
    ensures Iterate(ts, Construct(bs, k, pred, Some(start), None, false)[|bs|]) == Success([start])
  {
  }

  // ---------------------------------------------------------------------------
  // Length

  /** `Block.__len__`: the number of characters from the start token's first
      to the end token's last position, both included; the start and end
      blocks have length 0. */
  function Length(ts: seq<Token>, b: Block): (n: int)
    requires !IsStartOf(b.kind) && !IsEndOf(b.kind) ==>
      b.start.Some? && b.end.Some? && b.start.value < |ts| && b.end.value < |ts|
    ensures IsStartOf(b.kind) || IsEndOf(b.kind) ==> n == 0
  {
    if IsStartOf(b.kind) || IsEndOf(b.kind) then 0
    else ts[b.end.value].end - ts[b.start.value].start + 1
  }

  /** Each token covers exactly its text, and each token on the path starts
      right after the one before it ends. */
  ghost predicate Contiguous(ts: seq<Token>, p: seq<nat>) {
    (forall k :: 0 <= k < |p| ==> p[k] < |ts| && ts[p[k]].end - ts[p[k]].start + 1 == |ts[p[k]].text|) &&
    (forall k :: 0 <= k < |p| - 1 ==> ts[p[k + 1]].start == ts[p[k]].end + 1)
  }

  function TextOf(ts: seq<Token>, p: seq<nat>): (s: string)
    requires forall k :: 0 <= k < |p| ==> p[k] < |ts|
  {
    if p == [] then [] else ts[p[0]].text + TextOf(ts, p[1..])
  }

  lemma {:induction false} SpanIsText(ts: seq<Token>, p: seq<nat>)
    requires |p| >= 1 && Contiguous(ts, p)
    ensures ts[p[|p| - 1]].end - ts[p[0]].start + 1 == |TextOf(ts, p)|
    decreases |p|
  {
    if |p| > 1 {
      assert Contiguous(ts, p[1..]) by {
        assert forall k :: 0 <= k < |p[1..]| ==> p[1..][k] == p[k + 1];
      }
      SpanIsText(ts, p[1..]);
    } else {
      assert TextOf(ts, p[1..]) == [];
    }
  }

  /** Over contiguously positioned tokens, a block's length is the number of
      characters of the tokens it iterates. */
  lemma LengthIsTextLength(ts: seq<Token>, b: Block)
    requires Ordered(ts) && !IsStartOf(b.kind) && !IsEndOf(b.kind)
    requires b.start.Some? && b.end.Some? && b.start.value < |ts| && b.end.value < |ts|
    requires Iterate(ts, b).Success? && Contiguous(ts, Iterate(ts, b).value)
    ensures Length(ts, b) == |TextOf(ts, Iterate(ts, b).value)|
  {
    SpanIsText(ts, Iterate(ts, b).value);
  }

  // ---------------------------------------------------------------------------
  // Printing

  /** `s.replace(c, by)` for a single-character pattern. */
  function ReplaceChar(s: string, c: char, rep: string): (r: string)
    ensures c !in rep ==> c !in r
    ensures forall x :: x in r && x != c && x !in rep ==> x in s
    ensures forall x :: x in s && x != c ==> x in r
  {
    if s == [] then [] else (if s[0] == c then rep else [s[0]]) + ReplaceChar(s[1..], c, rep)
  }

  /** The two replacements at the end of `Block.__repr__`. */
  function Escape(s: string): (r: string)
    ensures '\t' !in r && '\n' !in r
  {
    ReplaceChar(ReplaceChar(s, '\t', "\\t"), '\n', "\\n")
  }

  /** Reads escapes back: `\t` and `\n` become a tab and a newline. */
  function Unescape(s: string): string {
    if |s| >= 2 && s[0] == '\\' && s[1] == 't' then "\t" + Unescape(s[2..])
    else if |s| >= 2 && s[0] == '\\' && s[1] == 'n' then "\n" + Unescape(s[2..])
    else if s == [] then []
    else [s[0]] + Unescape(s[1..])
  }

  /** Character-wise reading of `Escape`. */
  function EscapeChar(c: char): string {
    if c == '\t' then "\\t" else if c == '\n' then "\\n" else [c]
  }

  function EscapeEach(s: string): string {
    if s == [] then [] else EscapeChar(s[0]) + EscapeEach(s[1..])
  }

  lemma {:induction false} ReplaceAppend(a: string, b: string, c: char, rep: string)
    ensures ReplaceChar(a + b, c, rep) == ReplaceChar(a, c, rep) + ReplaceChar(b, c, rep)
    decreases |a|
  {
    if a == [] {
      assert a + b == b;
    } else {
      assert (a + b)[1..] == a[1..] + b;
      ReplaceAppend(a[1..], b, c, rep);
    }
  }

  /** The two whole-string replacements escape each character on its own. */
  lemma {:induction false} EscapeIsEscapeEach(s: string)
    ensures Escape(s) == EscapeEach(s)
    decreases |s|
  {
    if s != [] {
      var head := if s[0] == '\t' then "\\t" else [s[0]];
      assert ReplaceChar(s, '\t', "\\t") == head + ReplaceChar(s[1..], '\t', "\\t");
      ReplaceAppend(head, ReplaceChar(s[1..], '\t', "\\t"), '\n', "\\n");
      EscapeIsEscapeEach(s[1..]);
    }
  }

  /** Without backslashes in the tokens' text, printing loses nothing. */
  lemma {:induction false} EscapeRoundTrip(s: string)
    requires '\\' !in s
    ensures Unescape(Escape(s)) == s
    decreases |s|
  {
    EscapeIsEscapeEach(s);
    EscapeEachRoundTrip(s);
  }

  lemma {:induction false} EscapeEachRoundTrip(s: string)
    requires '\\' !in s
    ensures Unescape(EscapeEach(s)) == s
    decreases |s|
  {
    if s != [] {
      assert '\\' !in s[1..] by {
        assert forall x :: x in s[1..] ==> x in s;
      }
      EscapeEachRoundTrip(s[1..]);
      var rest := EscapeEach(s[1..]);
      assert EscapeEach(s) == EscapeChar(s[0]) + rest;
      if s[0] == '\t' {
        assert ("\\t" + rest)[2..] == rest;
      } else if s[0] == '\n' {
        assert ("\\n" + rest)[2..] == rest;
      } else {
        assert ([s[0]] + rest)[1..] == rest;
      }
    }
  }

  /** The concatenated token text `Block.__repr__` starts from: a character
      token contributes `repr(token)` (given as `charRepr`, the token classes'
      printing is not part of this model), any other token its value. */
  function ReprText(ts: seq<Token>, p: seq<nat>, charRepr: string -> string): string
    requires forall k :: 0 <= k < |p| ==> p[k] < |ts|
  {
    if p == [] then []
    else
      var head := if ts[p[0]].kind == CharacterTok then charRepr(ts[p[0]].text) else ts[p[0]].text;
      head + ReprText(ts, p[1..], charRepr)
  }

  /** `Block.__repr__`: never contains a raw tab or newline, and fails exactly
      when iteration fails. */
  function Repr(ts: seq<Token>, b: Block, charRepr: string -> string): (r: Result<string, IterError>)
    requires Ordered(ts)
    requires b.start.Some? ==> b.start.value < |ts|
    requires b.end.Some? ==> b.end.value < |ts|
    ensures r.Success? <==> Iterate(ts, b).Success?
    ensures r.Success? ==> '\t' !in r.value && '\n' !in r.value
    ensures r.Success? ==> r.value == EscapeEach(ReprText(ts, Iterate(ts, b).value, charRepr))
  {
    var p :- Iterate(ts, b);
    assert forall k :: 0 <= k < |p| ==> p[k] < |ts| by {
      if !IsStartOf(b.kind) && !IsEndOf(b.kind) {
        assert IsPath(ts, p);
      }
    }
    EscapeIsEscapeEach(ReprText(ts, p, charRepr));
    Success(Escape(ReprText(ts, p, charRepr)))
  }
}
