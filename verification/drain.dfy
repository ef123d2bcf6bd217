/** The drain loop of both generators (`while NewBlock is not None`): the
    blocks a handler queued are yielded in chain order before the next
    handler runs, and a line-break block that follows a line-break or
    empty-line block is yielded as a fresh `EmptyLineBlock` instead.

    The loop touches only the block arena and the two block references, so
    it runs on that part of the state (`Pending`); `Drain` lifts it back to a
    `ParserState`. */
module Draining {
  import opened Results
  import opened Blocks
  import opened Engine

  /** The part of the parser state the drain loop reads and writes. */
  datatype Pending = Pending(blocks: seq<Block>, newBlock: Option<nat>, lastBlock: Option<nat>)

  ghost predicate PendingWF(q: Pending, ntokens: nat) {
    InArena(q.blocks, ntokens) && Below(q.newBlock, |q.blocks|) && Below(q.lastBlock, |q.blocks|)
  }

  /** A line-break block or an empty-line block. */
  predicate IsLine(k: BlockKind) {
    k == LinebreakBlk || k == EmptyLineBlk
  }

  /** The blocks reached from `b` by `NextBlock` links, if that walk ends
      within `fuel` blocks. */
  function ChainFrom(bs: seq<Block>, b: nat, fuel: nat): (r: Option<seq<nat>>)
    ensures r.Some? ==> |r.value| >= 1 && r.value[0] == b && IsChain(bs, r.value)
    decreases fuel
  {
    if fuel == 0 || b >= |bs| then None
    else match bs[b].next
      case None => Some([b])
      case Some(n) =>
        match ChainFrom(bs, n, fuel - 1)
        case None => None
        case Some(rest) => Some([b] + rest)
  }

  /** `c` is a whole `NextBlock` chain: each block links to the next and the
      last links nowhere. */
  ghost predicate IsChain(bs: seq<Block>, c: seq<nat>) {
    (forall k :: 0 <= k < |c| ==> c[k] < |bs|) &&
    (forall k :: 0 <= k < |c| - 1 ==> bs[c[k]].next == Some(c[k + 1])) &&
    (|c| > 0 ==> bs[c[|c| - 1]].next.None?)
  }

  /** A chain that ends never visits a block twice: two equal blocks would
      have equal successors all the way to the end of the chain. */
  lemma {:induction false} NoRepeat(bs: seq<Block>, c: seq<nat>, i: nat, j: nat)
    requires IsChain(bs, c) && i < j < |c|
    ensures c[i] != c[j]
    decreases |c| - j
  {
    assert bs[c[i]].next == Some(c[i + 1]);
    if j + 1 < |c| {
      NoRepeat(bs, c, i + 1, j + 1);
      assert bs[c[j]].next == Some(c[j + 1]);
    }
  }

  lemma ChainDistinct(bs: seq<Block>, c: seq<nat>)
    requires IsChain(bs, c)
    ensures forall i, j :: 0 <= i < j < |c| ==> c[i] != c[j]
  {
    forall i, j | 0 <= i < j < |c|
      ensures c[i] != c[j]
    {
      NoRepeat(bs, c, i, j);
    }
  }

  /** The blocks the drain loop will walk. */
  function QueuedChain(q: Pending): (r: Option<seq<nat>>)
    ensures q.newBlock.None? ==> r == Some([])
    ensures r.Some? && q.newBlock.Some? ==> |r.value| >= 1 && r.value[0] == q.newBlock.value
    ensures r.Some? ==> IsChain(q.blocks, r.value)
  {
    if q.newBlock.None? then Some([]) else ChainFrom(q.blocks, q.newBlock.value, |q.blocks|)
  }

  /** The drain loop can run: the queued chain ends and does not pass through
      the last yielded block. */
  predicate DrainReady(q: Pending) {
    QueuedChain(q).Some? && (q.lastBlock.Some? ==> q.lastBlock.value !in QueuedChain(q).value)
  }

  /** The facts about the chain the drain loop relies on: it ends, stays in
      the arena and avoids the last yielded block. */
  ghost predicate ChainOk(o: Pending, c: seq<nat>) {
    IsChain(o.blocks, c) && Below(o.lastBlock, |o.blocks|) &&
    (o.lastBlock.Some? ==> o.lastBlock.value !in c)
  }

  /** The chain and the last yielded block are in the arena. */
  ghost predicate InBlocks(o: Pending, c: seq<nat>) {
    (forall k :: 0 <= k < |c| ==> c[k] < |o.blocks|) && Below(o.lastBlock, |o.blocks|)
  }

  /** Whether the drain loop fuses the i-th queued block into an empty line:
      it is a line-break block and the block yielded just before it is a
      line-break or empty-line block. */
  ghost predicate Fuses(o: Pending, c: seq<nat>, i: nat)
    requires InBlocks(o, c) && i < |c|
  {
    o.blocks[c[i]].kind == LinebreakBlk &&
    (if i == 0 then o.lastBlock.Some? && IsLine(o.blocks[o.lastBlock.value].kind)
     else IsLine(o.blocks[c[i - 1]].kind))
  }

  /** `EmptyLineBlock(previous, src.StartToken)`: a single-token empty-line
      block over the start token of the line-break block `src`. */
  predicate IsEmptyLineFor(b: Block, src: Block, prev: Option<nat>) {
    b.kind == EmptyLineBlk && !b.multiPart && b.start == src.start && b.end == src.start && b.prev == prev
  }

  /** One turn of the drain loop. */
  function DrainStep(q: Pending): (q': Pending)
    requires q.newBlock.Some? && Below(q.newBlock, |q.blocks|) && Below(q.lastBlock, |q.blocks|)
  {
    var nb := q.newBlock.value;
    if q.blocks[nb].kind == LinebreakBlk && q.lastBlock.Some? && IsLine(q.blocks[q.lastBlock.value].kind) then
      var f := |q.blocks|;
      var bs := Construct(q.blocks, EmptyLineBlk, q.lastBlock.value, q.blocks[nb].start, None, false);
      Pending(bs[f := bs[f].(next := q.blocks[nb].next)], q.blocks[nb].next, Some(f))
    else
      Pending(q.blocks, q.blocks[nb].next, Some(nb))
  }

  /** The fusing turn links the empty-line block forward to the line-break
      block's successor, but that successor still links back to the
      line-break block: the drain does not keep forward and backward links
      symmetric. */
  lemma FusionLeavesBackLink()
    ensures var q := Pending([Block(LinebreakBlk, Some(0), Some(0), false, None, Some(1)),
                              Block(LinebreakBlk, Some(1), Some(1), false, Some(0), Some(2)),
                              Block(WhitespaceBlk, Some(2), Some(2), false, Some(1), None)],
                             Some(1), Some(0));
      ForwardSymmetric(q.blocks) && !ForwardSymmetric(DrainStep(q).blocks) &&
      DrainStep(q).blocks[3].next == Some(2) && DrainStep(q).blocks[2].prev == Some(1)
  {
    var q := Pending([Block(LinebreakBlk, Some(0), Some(0), false, None, Some(1)),
                      Block(LinebreakBlk, Some(1), Some(1), false, Some(0), Some(2)),
                      Block(WhitespaceBlk, Some(2), Some(2), false, Some(1), None)],
                     Some(1), Some(0));
    var bs := DrainStep(q).blocks;
    assert bs[3].next == Some(2) && bs[2].prev == Some(1);
  }

  /** A turn of the drain loop keeps the arena well-formed. */
  lemma DrainStepWF(q: Pending, n: nat)
    requires PendingWF(q, n) && q.newBlock.Some?
    ensures PendingWF(DrainStep(q), n)
  {
  }

  // The loop invariant, in four parts: `o` is the state before the loop, `c`
  // the chain it drains, `q` the state after `i` turns, `ys` the blocks
  // yielded so far.

  /** Where the loop is: the next block to drain and the last one yielded. */
  ghost predicate Progress(o: Pending, c: seq<nat>, n: nat, q: Pending, ys: seq<nat>, i: nat) {
    ChainOk(o, c) && i <= |c| && |ys| == i &&
    PendingWF(q, n) && |o.blocks| <= |q.blocks| &&
    q.newBlock == (if i < |c| then Some(c[i]) else None) &&
    q.lastBlock == (if i == 0 then o.lastBlock else Some(ys[i - 1])) &&
    (forall k :: 0 <= k < i ==> ys[k] < |q.blocks|)
  }

  /** The old blocks change at most in their forward link, and the blocks
      still to drain not at all. */
  ghost predicate Untouched(o: Pending, c: seq<nat>, n: nat, q: Pending, ys: seq<nat>, i: nat)
    requires Progress(o, c, n, q, ys, i)
  {
    (forall k :: 0 <= k < |o.blocks| ==> SameButNext(o.blocks[k], q.blocks[k])) &&
    (forall k :: i <= k < |c| ==> q.blocks[c[k]] == o.blocks[c[k]])
  }

  /** What was yielded: the chain's own block, or a fresh empty line for a
      block that fuses. */
  ghost predicate Yielded(o: Pending, c: seq<nat>, n: nat, q: Pending, ys: seq<nat>, i: nat)
    requires Progress(o, c, n, q, ys, i)
  {
    (forall k {:trigger Fuses(o, c, k)} :: 0 <= k < i && !Fuses(o, c, k) ==> ys[k] == c[k]) &&
    (forall k {:trigger Fuses(o, c, k)} :: 0 <= k < i && Fuses(o, c, k) ==>
      |o.blocks| <= ys[k] &&
      IsEmptyLineFor(q.blocks[ys[k]], o.blocks[c[k]], if k == 0 then o.lastBlock else Some(ys[k - 1])))
  }

  /** The yielded blocks form a forward-linked list behind the last block
      yielded before the loop, and the newest of them is not among the
      earlier ones. */
  ghost predicate Linked(o: Pending, c: seq<nat>, n: nat, q: Pending, ys: seq<nat>, i: nat)
    requires Progress(o, c, n, q, ys, i)
  {
    (forall k :: 0 <= k < i - 1 ==> q.blocks[ys[k]].next == Some(ys[k + 1])) &&
    (i > 0 ==> q.blocks[ys[i - 1]].next == o.blocks[c[i - 1]].next) &&
    (i > 0 && o.lastBlock.Some? && Fuses(o, c, 0) ==> q.blocks[o.lastBlock.value].next == Some(ys[0])) &&
    (forall k :: 0 <= k < i - 1 ==> ys[k] != ys[i - 1])
  }

  ghost predicate DrainInv(o: Pending, c: seq<nat>, n: nat, q: Pending, ys: seq<nat>, i: nat) {
    Progress(o, c, n, q, ys, i) && Untouched(o, c, n, q, ys, i) &&
    Yielded(o, c, n, q, ys, i) && Linked(o, c, n, q, ys, i)
  }

  /** The loop's branch condition, read on the current arena, is `Fuses` on
      the original chain. */
  lemma StepFusesExactly(o: Pending, c: seq<nat>, n: nat, q: Pending, ys: seq<nat>, i: nat)
    requires DrainInv(o, c, n, q, ys, i) && i < |c|
    ensures (q.blocks[c[i]].kind == LinebreakBlk && q.lastBlock.Some? && IsLine(q.blocks[q.lastBlock.value].kind))
      <==> Fuses(o, c, i)
  {
    if i > 0 {
      if Fuses(o, c, i - 1) {
        assert o.blocks[c[i - 1]].kind == LinebreakBlk;
        assert q.blocks[ys[i - 1]].kind == EmptyLineBlk;
      } else {
        assert ys[i - 1] == c[i - 1];
        assert SameButNext(o.blocks[c[i - 1]], q.blocks[c[i - 1]]);
      }
    } else if o.lastBlock.Some? {
      assert SameButNext(o.blocks[o.lastBlock.value], q.blocks[o.lastBlock.value]);
    }
  }

  /** A block of the chain is never one of the fresh empty lines. */
  lemma NotYieldedYet(o: Pending, c: seq<nat>, n: nat, q: Pending, ys: seq<nat>, i: nat)
    requires DrainInv(o, c, n, q, ys, i) && i < |c|
    ensures forall k :: 0 <= k < i ==> ys[k] != c[i]
  {
    forall k | 0 <= k < i
      ensures ys[k] != c[i]
    {
      if !Fuses(o, c, k) {
        assert ys[k] == c[k];
        NoRepeat(o.blocks, c, k, i);
      }
    }
  }

  lemma DrainStepPlain(o: Pending, c: seq<nat>, n: nat, q: Pending, ys: seq<nat>, i: nat)
    requires DrainInv(o, c, n, q, ys, i) && i < |c| && !Fuses(o, c, i)
    ensures DrainInv(o, c, n, DrainStep(q), ys + [c[i]], i + 1)
  {
    StepFusesExactly(o, c, n, q, ys, i);
    var q' := DrainStep(q);
    var ys' := ys + [c[i]];
    assert q' == Pending(q.blocks, q.blocks[c[i]].next, Some(c[i]));
    assert q.blocks[c[i]] == o.blocks[c[i]];
    assert i + 1 < |c| ==> o.blocks[c[i]].next == Some(c[i + 1]);
    assert i + 1 == |c| ==> o.blocks[c[i]].next.None?;
    assert Progress(o, c, n, q', ys', i + 1);
    assert Untouched(o, c, n, q', ys', i + 1);
    PlainYielded(o, c, n, q, ys, i);
    PlainLinked(o, c, n, q, ys, i);
  }

  lemma PlainYielded(o: Pending, c: seq<nat>, n: nat, q: Pending, ys: seq<nat>, i: nat)
    requires DrainInv(o, c, n, q, ys, i) && i < |c| && !Fuses(o, c, i)
    requires Progress(o, c, n, DrainStep(q), ys + [c[i]], i + 1)
    requires DrainStep(q).blocks == q.blocks
    ensures Yielded(o, c, n, DrainStep(q), ys + [c[i]], i + 1)
  {
    var q' := DrainStep(q);
    var ys' := ys + [c[i]];
    forall k | 0 <= k < i + 1 && Fuses(o, c, k)
      ensures |o.blocks| <= ys'[k] &&
        IsEmptyLineFor(q'.blocks[ys'[k]], o.blocks[c[k]], if k == 0 then o.lastBlock else Some(ys'[k - 1]))
    {
      assert k < i;
      assert ys'[k] == ys[k];
      assert k > 0 ==> ys'[k - 1] == ys[k - 1];
    }
    assert forall k {:trigger Fuses(o, c, k)} :: 0 <= k < i + 1 && !Fuses(o, c, k) ==> ys'[k] == c[k];
    assert Yielded(o, c, n, q', ys', i + 1);
  }

  lemma PlainLinked(o: Pending, c: seq<nat>, n: nat, q: Pending, ys: seq<nat>, i: nat)
    requires DrainInv(o, c, n, q, ys, i) && i < |c| && !Fuses(o, c, i)
    requires Progress(o, c, n, DrainStep(q), ys + [c[i]], i + 1)
    requires DrainStep(q).blocks == q.blocks
    ensures Linked(o, c, n, DrainStep(q), ys + [c[i]], i + 1)
  {
    NotYieldedYet(o, c, n, q, ys, i);
    assert q.blocks[c[i]] == o.blocks[c[i]];
  }

  /** The arena after a fused turn: the last block links forward to a new
      empty-line block, which takes over the line-break block's successor. */
  lemma FusedArena(q: Pending)
    requires q.newBlock.Some? && q.lastBlock.Some? && Below(q.newBlock, |q.blocks|) && Below(q.lastBlock, |q.blocks|)
    requires q.blocks[q.newBlock.value].kind == LinebreakBlk && IsLine(q.blocks[q.lastBlock.value].kind)
    ensures var q' := DrainStep(q); var f := |q.blocks|; var last := q.lastBlock.value; var nb := q.newBlock.value;
      |q'.blocks| == f + 1 && q'.lastBlock == Some(f) && q'.newBlock == q.blocks[nb].next &&
      q'.blocks[last] == q.blocks[last].(next := Some(f)) &&
      q'.blocks[f] == Block(EmptyLineBlk, q.blocks[nb].start, q.blocks[nb].start, false, Some(last), q.blocks[nb].next) &&
      (forall k :: 0 <= k < f && k != last ==> q'.blocks[k] == q.blocks[k])
  {
  }

  lemma DrainStepFused(o: Pending, c: seq<nat>, n: nat, q: Pending, ys: seq<nat>, i: nat)
    requires DrainInv(o, c, n, q, ys, i) && i < |c| && Fuses(o, c, i)
    ensures DrainInv(o, c, n, DrainStep(q), ys + [|q.blocks|], i + 1)
  {
    StepFusesExactly(o, c, n, q, ys, i);
    FusedArena(q);
    DrainStepWF(q, n);
    var f := |q.blocks|;
    var last := q.lastBlock.value;
    var nb := c[i];
    var q' := DrainStep(q);
    var ys' := ys + [f];
    assert last != nb by {
      if i > 0 {
        NotYieldedYet(o, c, n, q, ys, i);
      }
    }
    assert q'.blocks[nb] == o.blocks[nb];
    assert i + 1 < |c| ==> o.blocks[nb].next == Some(c[i + 1]);
    assert i + 1 == |c| ==> o.blocks[nb].next.None?;
    assert Progress(o, c, n, q', ys', i + 1);
    FusedUntouched(o, c, n, q, ys, i);
    FusedYielded(o, c, n, q, ys, i);
    FusedLinked(o, c, n, q, ys, i);
  }

  lemma FusedUntouched(o: Pending, c: seq<nat>, n: nat, q: Pending, ys: seq<nat>, i: nat)
    requires DrainInv(o, c, n, q, ys, i) && i < |c| && Fuses(o, c, i)
    requires Progress(o, c, n, DrainStep(q), ys + [|q.blocks|], i + 1)
    ensures Untouched(o, c, n, DrainStep(q), ys + [|q.blocks|], i + 1)
  {
    StepFusesExactly(o, c, n, q, ys, i);
    FusedArena(q);
    var last := q.lastBlock.value;
    var q' := DrainStep(q);
    forall k | i + 1 <= k < |c|
      ensures q'.blocks[c[k]] == o.blocks[c[k]]
    {
      assert c[k] != last by {
        if i > 0 {
          if !Fuses(o, c, i - 1) {
            assert ys[i - 1] == c[i - 1];
            NoRepeat(o.blocks, c, i - 1, k);
          }
        }
      }
    }
    forall k | 0 <= k < |o.blocks|
      ensures SameButNext(o.blocks[k], q'.blocks[k])
    {
      assert SameButNext(o.blocks[k], q.blocks[k]);
    }
  }

  lemma FusedYielded(o: Pending, c: seq<nat>, n: nat, q: Pending, ys: seq<nat>, i: nat)
    requires Progress(o, c, n, q, ys, i) && Yielded(o, c, n, q, ys, i) && i < |c| && Fuses(o, c, i)
    requires q.lastBlock.Some? && q.blocks[c[i]] == o.blocks[c[i]] && IsLine(q.blocks[q.lastBlock.value].kind)
    requires Progress(o, c, n, DrainStep(q), ys + [|q.blocks|], i + 1)
    ensures Yielded(o, c, n, DrainStep(q), ys + [|q.blocks|], i + 1)
  {
    var q' := DrainStep(q);
    var ys' := ys + [|q.blocks|];
    FusedEarlier(o, c, n, q, ys, i);
    FusedNewest(o, c, n, q, ys, i);
    forall k | 0 <= k < i + 1 && !Fuses(o, c, k)
      ensures ys'[k] == c[k]
    {
      assert k < i && ys'[k] == ys[k];
    }
    forall k | 0 <= k < i + 1 && Fuses(o, c, k)
      ensures |o.blocks| <= ys'[k] &&
        IsEmptyLineFor(q'.blocks[ys'[k]], o.blocks[c[k]], if k == 0 then o.lastBlock else Some(ys'[k - 1]))
    {
    }
  }

  /** The empty lines yielded before a fused turn keep what they were. */
  lemma FusedEarlier(o: Pending, c: seq<nat>, n: nat, q: Pending, ys: seq<nat>, i: nat)
    requires Progress(o, c, n, q, ys, i) && Yielded(o, c, n, q, ys, i) && i < |c| && Fuses(o, c, i)
    requires q.lastBlock.Some? && q.blocks[c[i]] == o.blocks[c[i]] && IsLine(q.blocks[q.lastBlock.value].kind)
    ensures var q' := DrainStep(q); var ys' := ys + [|q.blocks|];
      forall k {:trigger Fuses(o, c, k)} :: 0 <= k < i && Fuses(o, c, k) ==>
        |o.blocks| <= ys'[k] &&
        IsEmptyLineFor(q'.blocks[ys'[k]], o.blocks[c[k]], if k == 0 then o.lastBlock else Some(ys'[k - 1]))
  {
    FusedArena(q);
    var q' := DrainStep(q);
    var ys' := ys + [|q.blocks|];
    forall k | 0 <= k < i && Fuses(o, c, k)
      ensures |o.blocks| <= ys'[k] &&
        IsEmptyLineFor(q'.blocks[ys'[k]], o.blocks[c[k]], if k == 0 then o.lastBlock else Some(ys'[k - 1]))
    {
      assert ys'[k] == ys[k];
      assert k > 0 ==> ys'[k - 1] == ys[k - 1];
      assert SameButNext(q.blocks[ys[k]], q'.blocks[ys[k]]);
    }
  }

  /** The empty line a fused turn yields. */
  lemma FusedNewest(o: Pending, c: seq<nat>, n: nat, q: Pending, ys: seq<nat>, i: nat)
    requires Progress(o, c, n, q, ys, i) && i < |c| && Fuses(o, c, i)
    requires q.lastBlock.Some? && q.blocks[c[i]] == o.blocks[c[i]] && IsLine(q.blocks[q.lastBlock.value].kind)
    ensures var q' := DrainStep(q); var ys' := ys + [|q.blocks|];
      |o.blocks| <= ys'[i] &&
      IsEmptyLineFor(q'.blocks[ys'[i]], o.blocks[c[i]], if i == 0 then o.lastBlock else Some(ys'[i - 1]))
  {
    FusedArena(q);
    var ys' := ys + [|q.blocks|];
    assert ys'[i] == |q.blocks|;
    assert i > 0 ==> ys'[i - 1] == ys[i - 1];
  }

  lemma FusedLinked(o: Pending, c: seq<nat>, n: nat, q: Pending, ys: seq<nat>, i: nat)
    requires Progress(o, c, n, q, ys, i) && Yielded(o, c, n, q, ys, i) && Linked(o, c, n, q, ys, i)
    requires i < |c| && Fuses(o, c, i)
    requires q.lastBlock.Some? && q.blocks[c[i]] == o.blocks[c[i]] && IsLine(q.blocks[q.lastBlock.value].kind)
    requires Progress(o, c, n, DrainStep(q), ys + [|q.blocks|], i + 1)
    ensures Linked(o, c, n, DrainStep(q), ys + [|q.blocks|], i + 1)
  {
    FusedArena(q);
    var f := |q.blocks|;
    var last := q.lastBlock.value;
    var q' := DrainStep(q);
    var ys' := ys + [f];
    forall k | 0 <= k < i
      ensures q'.blocks[ys'[k]].next == Some(ys'[k + 1])
    {
      if k < i - 1 {
        assert ys[k] != ys[i - 1];
      }
    }
    if o.lastBlock.Some? && Fuses(o, c, 0) && i > 0 {
      assert o.lastBlock.value != last by {
        if !Fuses(o, c, i - 1) {
          assert ys[i - 1] == c[i - 1];
        }
      }
    }
  }

  lemma DrainStepKeeps(o: Pending, c: seq<nat>, n: nat, q: Pending, ys: seq<nat>, i: nat)
    requires DrainInv(o, c, n, q, ys, i) && i < |c|
    ensures DrainInv(o, c, n, DrainStep(q), ys + [DrainStep(q).lastBlock.value], i + 1)
  {
    StepFusesExactly(o, c, n, q, ys, i);
    if Fuses(o, c, i) {
      DrainStepFused(o, c, n, q, ys, i);
    } else {
      DrainStepPlain(o, c, n, q, ys, i);
    }
  }

  /** The outcome of draining `o` into `q` while yielding `ys`: the queued
      chain is yielded in order, a block that fuses is replaced by a fresh
      empty-line block over its start token that takes over its `NextBlock`,
      the yielded blocks continue the block list behind the block yielded
      before, the queue ends empty, and old blocks change at most in their
      forward link. */
  ghost predicate Drained(o: Pending, q: Pending, ys: seq<nat>)
    requires DrainReady(o) && Below(o.lastBlock, |o.blocks|)
  {
    var c := QueuedChain(o).value;
    |ys| == |c| && q.newBlock.None? && |o.blocks| <= |q.blocks| &&
    (forall i :: 0 <= i < |c| ==> ys[i] < |q.blocks|) &&
    (forall i {:trigger Fuses(o, c, i)} :: 0 <= i < |c| && !Fuses(o, c, i) ==> ys[i] == c[i]) &&
    (forall i {:trigger Fuses(o, c, i)} :: 0 <= i < |c| && Fuses(o, c, i) ==>
      |o.blocks| <= ys[i] &&
      IsEmptyLineFor(q.blocks[ys[i]], o.blocks[c[i]], if i == 0 then o.lastBlock else Some(ys[i - 1]))) &&
    (forall i :: 0 <= i < |c| - 1 ==> q.blocks[ys[i]].next == Some(ys[i + 1])) &&
    (|c| > 0 ==> q.blocks[ys[|c| - 1]].next.None?) &&
    (|c| > 0 && o.lastBlock.Some? && Fuses(o, c, 0) ==> q.blocks[o.lastBlock.value].next == Some(ys[0])) &&
    q.lastBlock == (if |c| == 0 then o.lastBlock else Some(ys[|c| - 1])) &&
    (forall k :: 0 <= k < |o.blocks| ==> SameButNext(o.blocks[k], q.blocks[k]))
  }

  /** When the loop stops, its invariant is the drain's outcome. */
  lemma DrainDone(o: Pending, c: seq<nat>, n: nat, q: Pending, ys: seq<nat>)
    requires DrainReady(o) && c == QueuedChain(o).value
    requires DrainInv(o, c, n, q, ys, |c|)
    ensures Drained(o, q, ys)
  {
    assert Yielded(o, c, n, q, ys, |c|);
    assert Linked(o, c, n, q, ys, |c|);
  }

  /** The drain loop on the pending part of the state. */
  method DrainPending(o: Pending, n: nat) returns (q: Pending, ys: seq<nat>)
    requires PendingWF(o, n) && DrainReady(o)
    ensures PendingWF(q, n) && Drained(o, q, ys)
  {
    ghost var c := QueuedChain(o).value;
    q := o;
    ys := [];
    ghost var i := 0;
    assert forall k :: 0 <= k < |o.blocks| ==> SameButNext(o.blocks[k], q.blocks[k]);
    while q.newBlock.Some?
      invariant DrainInv(o, c, n, q, ys, i)
      decreases |c| - i
    {
      DrainStepKeeps(o, c, n, q, ys, i);
      q := DrainStep(q);
      ys := ys + [q.lastBlock.value];
      i := i + 1;
    }
    DrainDone(o, c, n, q, ys);
  }

  function PendingOf(s: ParserState): Pending {
    Pending(s.blocks, s.newBlock, s.lastBlock)
  }

  /** The drain loop of `GetGenerator` on the whole parser state: only the
      block arena, `NewBlock` and `LastBlock` change. */
  method Drain(s: ParserState) returns (r: ParserState, ys: seq<nat>)
    requires WF(s) && DrainReady(PendingOf(s))
    ensures Drained(PendingOf(s), PendingOf(r), ys)
    ensures r.(blocks := s.blocks, newBlock := s.newBlock, lastBlock := s.lastBlock) == s
    ensures WF(r)
  {
    var q;
    q, ys := DrainPending(PendingOf(s), |s.tokens|);
    r := s.(blocks := q.blocks, newBlock := q.newBlock, lastBlock := q.lastBlock);
    assert PendingOf(r) == q;
  }
}
