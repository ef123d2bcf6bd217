/** The block-to-group rules for object declarations
    (pyVHDLParser/Groups/ObjectDeclaration.py): `ConstantGroup`,
    `VariableGroup` and `SignalGroup.stateParse`. A declaration that spans
    several blocks (its first block is multi-part) becomes one group from
    its first block to the first later single-part block of the same class;
    other blocks in between (comments, line breaks) are skipped.

    The group parser itself is not part of this model. Its state is reduced
    to what these rules touch: the groups emitted so far and the stack of
    saved states that `Pop` takes from. The blocks the rule sees are
    `stream`: `stream[0]` is the current block and `stream[1..]` the blocks
    the block iterator yields after it. */
module ObjectDeclarationGroups {
  import opened Results
  import opened Blocks
  import Engine

  datatype GroupKind = ConstantGroup | VariableGroup | SignalGroup

  /** A group over the blocks `stream[first..last + 1]`. */
  datatype Group = Group(kind: GroupKind, first: nat, last: nat)

  datatype GroupParser = GroupParser(groups: seq<Group>, stack: seq<string>, state: string)

  datatype GroupError = GroupError(kind: Engine.ErrorKind, at: nat)

  /** The block class whose single-part block closes a group of kind `g`. */
  function BlockClass(g: GroupKind): (b: BlockKind)
    ensures b.Named?
  {
    match g
    case ConstantGroup => Named("Constant.ConstantBlock")
    case VariableGroup => Named("Variable.VariableBlock")
    case SignalGroup => Named("Signal.SignalBlock")
  }

  /** A single-part block of the class that closes a group of kind g. */
  predicate Closes(g: GroupKind, b: Block) {
    b.kind == BlockClass(g) && !b.multiPart
  }

  /** `j` is where the declaration starting at `stream[0]` ends: the start
      block itself when it is single-part, otherwise the first later block
      that closes it. */
  ghost predicate IsEnd(g: GroupKind, stream: seq<Block>, j: nat)
    requires |stream| >= 1
  {
    j < |stream| &&
    (!stream[0].multiPart ==> j == 0) &&
    (stream[0].multiPart ==>
       1 <= j && Closes(g, stream[j]) && forall i :: 1 <= i < j ==> !Closes(g, stream[i]))
  }

  /** Some later block closes the declaration. */
  ghost predicate Closable(g: GroupKind, stream: seq<Block>) {
    exists i :: 1 <= i < |stream| && Closes(g, stream[i])
  }

  /** The `for ... else` search: the first later block that closes a group
      of kind `g`, if any. */
  method FirstClosing(g: GroupKind, stream: seq<Block>) returns (found: Option<nat>)
    requires |stream| >= 1
    ensures found.Some? ==> stream[0].multiPart ==> IsEnd(g, stream, found.value)
    ensures found.Some? ==> 1 <= found.value < |stream| && Closes(g, stream[found.value])
    ensures found.Some? ==> forall i :: 1 <= i < found.value ==> !Closes(g, stream[i])
    ensures found.None? <==> !Closable(g, stream)
  {
    var i := 1;
    while i < |stream|
      invariant 1 <= i <= |stream|
      invariant forall k :: 1 <= k < i ==> !Closes(g, stream[k])
    {
      if Closes(g, stream[i]) {
        return Some(i);
      }
      i := i + 1;
    }
    found := None;
  }

  /** `Pop()` of the group parser, taken to behave as the block parser's:
      the top saved state becomes the current one; an empty stack raises. */
  function Pop(p: GroupParser): (r: Result<GroupParser, GroupError>)
    ensures |p.stack| == 0 <==> r.Failure?
    ensures r.Success? ==> r.value.stack + [p.stack[|p.stack| - 1]] == p.stack
    ensures r.Success? ==> r.value.state == p.stack[|p.stack| - 1] && r.value.groups == p.groups
  {
    if |p.stack| == 0 then Failure(GroupError(Engine.EmptyStack, 0))
    else Success(p.(state := p.stack[|p.stack| - 1], stack := p.stack[..|p.stack| - 1]))
  }

  /** `stateParse` of the group kind `g`: it finds where the declaration
      ends, emits one group from the start block to there and pops one
      level. When no later block closes a multi-part start, it raises "not
      found" at the last block the search looked at, or, when there was no
      later block at all, fails reading the unbound loop variable. */
  method StateParse(g: GroupKind, stream: seq<Block>, p: GroupParser) returns (r: Result<GroupParser, GroupError>)
    requires |stream| >= 1
    ensures r.Success? <==> (!stream[0].multiPart || Closable(g, stream)) && |p.stack| >= 1
    ensures r.Success? ==>
      |r.value.groups| == |p.groups| + 1 && r.value.groups[..|p.groups|] == p.groups &&
      r.value.groups[|p.groups|].kind == g && r.value.groups[|p.groups|].first == 0 &&
      IsEnd(g, stream, r.value.groups[|p.groups|].last)
    ensures r.Success? ==> r.value.stack + [p.stack[|p.stack| - 1]] == p.stack && r.value.state == p.stack[|p.stack| - 1]
    ensures stream[0].multiPart && !Closable(g, stream) && |stream| == 1 ==> r == Failure(GroupError(Engine.UnboundName, 0))
    ensures stream[0].multiPart && !Closable(g, stream) && |stream| > 1 ==> r == Failure(GroupError(Engine.EndNotFound, |stream| - 1))
    ensures (!stream[0].multiPart || Closable(g, stream)) && |p.stack| == 0 ==> r == Failure(GroupError(Engine.EmptyStack, 0))
  {
    var last := 0;
    if stream[0].multiPart {
      var found := FirstClosing(g, stream);
      if found.None? {
        if |stream| == 1 {
          return Failure(GroupError(Engine.UnboundName, 0));
        }
        return Failure(GroupError(Engine.EndNotFound, |stream| - 1));
      }
      last := found.value;
    }
    var emitted := p.(groups := p.groups + [Group(g, 0, last)]);
    r := Pop(emitted);
    assert r.Success? ==> r.value.groups == emitted.groups;
  }

  /** The end `StateParse` looks for is unique: a group never has two
      candidate ends. */
  lemma EndIsUnique(g: GroupKind, stream: seq<Block>, j: nat, k: nat)
    requires |stream| >= 1 && IsEnd(g, stream, j) && IsEnd(g, stream, k)
    ensures j == k
  {
  }

  /** A multi-part declaration has an end exactly when some later block
      closes it. */
  lemma {:induction false} EndExistsIffClosable(g: GroupKind, stream: seq<Block>)
    requires |stream| >= 1 && stream[0].multiPart
    ensures (exists j: nat :: IsEnd(g, stream, j)) <==> Closable(g, stream)
  {
    if Closable(g, stream) {
      var i :| 1 <= i < |stream| && Closes(g, stream[i]);
      var j := LeastClosing(g, stream, i);
      assert IsEnd(g, stream, j);
    }
  }

  /** The first closing block at or before a given one. */
  lemma {:induction false} LeastClosingExists(g: GroupKind, stream: seq<Block>, i: nat)
    requires 1 <= i < |stream| && Closes(g, stream[i])
    ensures exists j: nat :: 1 <= j <= i && Closes(g, stream[j]) && forall k :: 1 <= k < j ==> !Closes(g, stream[k])
    decreases i
  {
    if exists k :: 1 <= k < i && Closes(g, stream[k]) {
      var k :| 1 <= k < i && Closes(g, stream[k]);
      LeastClosingExists(g, stream, k);
    } else {
      assert 1 <= i <= i && Closes(g, stream[i]) && forall k :: 1 <= k < i ==> !Closes(g, stream[k]);
    }
  }

  /** A witness for `LeastClosingExists`. */
  ghost function LeastClosing(g: GroupKind, stream: seq<Block>, i: nat): (j: nat)
    requires 1 <= i < |stream| && Closes(g, stream[i])
    ensures 1 <= j <= i && Closes(g, stream[j]) && forall k :: 1 <= k < j ==> !Closes(g, stream[k])
  {
    LeastClosingExists(g, stream, i);
    var j: nat :| 1 <= j <= i && Closes(g, stream[j]) && forall k :: 1 <= k < j ==> !Closes(g, stream[k]);
    j
  }
}
