/** The token-to-block parser of both generations
    (pyVHDLParser/Blocks/Parser.py and pyVHDLParser/Blocks/__init__.py): the
    state runs the handler it names on each arriving token, after a pending
    replacement token was linked in and the queued blocks were yielded. When
    the tokens run out, the pending end-of-document block is yielded, or
    "Unexpected end of document." is raised. */
module TokenToBlock {
  import opened Results
  import opened Tokens
  import opened Blocks
  import opened Handlers
  import opened Engine
  import opened Effects
  import opened CharMoves
  import Draining
  import StartOfDocument
  import Entity
  import Architecture
  import Generic
  import Expression
  import GenericList
  import Function
  import Procedure
  import Common
  import LegacyGenericList
  import LegacyEntity
  import Component
  import BreakStatement

  /** The source file whose class defines a handler. */
  datatype Origin =
    | DocumentFile | EntityFile | ArchitectureFile | GenericFile | ExpressionFile | GenericListFile | FunctionFile | ProcedureFile | CommonFile | LegacyGenericListFile | LegacyEntityFile | ComponentFile | BreakFile
    | LinebreakFile   // src/Blocks/Common.py, `EmptyLineBlock.stateLinebreak`
    | Elsewhere

  function OriginOf(h: Handler): (o: Origin)
    ensures o == Elsewhere <==> h.Opaque?
  {
    match h
    case Document => DocumentFile
    case EntityKeyword => EntityFile
    case EntityWhitespace1 => EntityFile
    case EntityName => EntityFile
    case EntityWhitespace2 => EntityFile
    case EntityDeclarativeRegion => EntityFile
    case ArchitectureKeyword => ArchitectureFile
    case ArchitectureWhitespace1 => ArchitectureFile
    case ArchitectureName => ArchitectureFile
    case ArchitectureWhitespace2 => ArchitectureFile
    case ArchitectureOfKeyword => ArchitectureFile
    case ArchitectureWhitespace3 => ArchitectureFile
    case ArchitectureEntityName => ArchitectureFile
    case ArchitectureWhitespace4 => ArchitectureFile
    case ArchitectureDeclarativeRegion => ArchitectureFile
    case ArchitectureBeginKeyword => ArchitectureFile
    case ArchitectureEndKeyword => ArchitectureFile
    case ArchitectureEndWhitespace1 => ArchitectureFile
    case ArchitectureEndArchitectureKeyword => ArchitectureFile
    case ArchitectureEndWhitespace2 => ArchitectureFile
    case ArchitectureEndArchitectureName => ArchitectureFile
    case ArchitectureEndWhitespace3 => ArchitectureFile
    case ConcurrentRegion(_) => GenericFile
    case SequentialRegion(_) => GenericFile
    case Expression => ExpressionFile
    case ExpressionWhitespace1 => ExpressionFile
    case GenericKeyword => GenericListFile
    case GenericWhitespace1 => GenericListFile
    case GenericOpeningParenthesis => GenericListFile
    case ConstantKeyword => GenericListFile
    case ConstantWhitespace1 => GenericListFile
    case ConstantName => GenericListFile
    case ConstantWhitespace2 => GenericListFile
    case ConstantColon1 => GenericListFile
    case ConstantWhitespace3 => GenericListFile
    case ConstantInKeyword => GenericListFile
    case ConstantWhitespace4 => GenericListFile
    case ConstantSubtypeIndication => GenericListFile
    case ConstantWhitespace5 => GenericListFile
    case GenericItemDelimiter => GenericListFile
    case GenericClosingParenthesis => GenericListFile
    case GenericCloseWhitespace1 => GenericListFile
    case FunctionKeyword => FunctionFile
    case FunctionWhitespace1 => FunctionFile
    case FunctionName => FunctionFile
    case FunctionWhitespace2 => FunctionFile
    case ReturnAfterParameterList => FunctionFile
    case ReturnWhitespace1 => FunctionFile
    case ReturnKeyword => FunctionFile
    case ReturnWhitespace2 => FunctionFile
    case ReturnType => FunctionFile
    case ReturnWhitespace3 => FunctionFile
    case FunctionDeclarativeRegion => FunctionFile
    case ProcedureKeyword => ProcedureFile
    case ProcedureWhitespace1 => ProcedureFile
    case ProcedureName => ProcedureFile
    case ProcedureWhitespace2 => ProcedureFile
    case VoidAfterParameterList => ProcedureFile
    case VoidWhitespace1 => ProcedureFile
    case ProcedureDeclarativeRegion => ProcedureFile
    case SensitivityOpeningParenthesis => CommonFile
    case SensitivityItemRemainder => CommonFile
    case SensitivityItemDelimiter => CommonFile
    case SensitivityClosingParenthesis => CommonFile
    case SensitivityCloseWhitespace1 => CommonFile
    case OldGenericKeyword => LegacyGenericListFile
    case OldGenericWhitespace1 => LegacyGenericListFile
    case OldGenericOpeningParenthesis => LegacyGenericListFile
    case OldItemRemainder => LegacyGenericListFile
    case OldItemDelimiter => LegacyGenericListFile
    case OldClosingParenthesis => LegacyGenericListFile
    case OldCloseWhitespace1 => LegacyGenericListFile
    case OldEntityKeyword => LegacyEntityFile
    case OldEntityWhitespace1 => LegacyEntityFile
    case OldEntityName => LegacyEntityFile
    case OldEntityWhitespace2 => LegacyEntityFile
    case OldEntityDeclarativeRegion => LegacyEntityFile
    case OldEntityBeginKeyword => LegacyEntityFile
    case OldEntityEndKeyword => LegacyEntityFile
    case OldEntityEndWhitespace1 => LegacyEntityFile
    case OldEntityEndEntityKeyword => LegacyEntityFile
    case OldEntityEndWhitespace2 => LegacyEntityFile
    case OldEntityEndEntityName => LegacyEntityFile
    case OldEntityEndWhitespace3 => LegacyEntityFile
    case ComponentKeyword => ComponentFile
    case ComponentWhitespace1 => ComponentFile
    case ComponentName => ComponentFile
    case ComponentWhitespace2 => ComponentFile
    case ComponentDeclarativeRegion => ComponentFile
    case ComponentEndKeyword => ComponentFile
    case ComponentEndWhitespace1 => ComponentFile
    case ComponentEndComponentKeyword => ComponentFile
    case ComponentEndWhitespace2 => ComponentFile
    case ComponentEndComponentName => ComponentFile
    case ComponentEndWhitespace3 => ComponentFile
    case BreakKeyword => BreakFile
    case BreakWhitespace1 => BreakFile
    case BreakName => BreakFile
    case BreakWhitespace2 => BreakFile
    case Linebreak => LinebreakFile
    case Opaque(_) => Elsewhere
  }

  /** `NextState(parserState)`: the handler the state names runs on the
      current token. `EmptyLineBlock.stateLinebreak` re-issues a token that is
      not whitespace to the handler it popped back to; a handler outside this
      model fails. Under `AsWritten` the four handlers the source gets wrong
      run as they stand; under `AsIntended` their corrected definitions
      run. */
  method Step(s: ParserState, rd: Reading) returns (r: Outcome)
    requires Ready(s)
    ensures r.Success? ==> Evolves(s, r.value)
    ensures s.handler.Opaque? ==> r == Fail(s, NotModelled)
    ensures rd == AsWritten && s.handler.ProcedureDeclarativeRegion? ==> r == Fail(s, UndefinedState)
    ensures s.handler.GenericItemDelimiter? && IsComment(Tok(s).kind) ==>
      if rd == AsWritten then r == Fail(s, WrongArguments) else r.Success?
    ensures s.handler.SensitivityOpeningParenthesis? && IsCommentStart(s) ==>
      if rd == AsWritten then r == Fail(s, UndefinedState) else r.Success?
    ensures (s.handler.Expression? || s.handler.ExpressionWhitespace1?) && Tok(s).kind == StringTok ==>
      r.Success? && Retagged(s, r.value, Expression.ClassOf(rd, Tok(s).text))
    decreases |s.stack|
  {
    match OriginOf(s.handler)
    case DocumentFile => r := StepStartOfDocument(s);
    case EntityFile => r := StepEntity(s);
    case ArchitectureFile => r := StepArchitecture(s);
    case GenericFile => r := StepGeneric(s);
    case ExpressionFile => r := StepExpression(s, rd);
    case GenericListFile => r := StepGenericList(s, rd);
    case FunctionFile => r := StepFunction(s);
    case ProcedureFile => r := StepProcedure(s, rd);
    case CommonFile => r := StepCommon(s, rd);
    case LegacyGenericListFile => r := StepLegacyGenericList(s);
    case LegacyEntityFile => r := StepLegacyEntity(s);
    case ComponentFile => r := StepComponent(s);
    case BreakFile => r := StepBreakStatement(s);
    case LinebreakFile =>
      var reissue;
      r, reissue := Common.Linebreak(s);
      if r.Success? && reissue {
        r := Step(r.value, rd);
      }
    case Elsewhere => r := Fail(s, NotModelled);
  }

  /** The handlers of pyVHDLParser/Blocks/__init__.py. */
  method StepStartOfDocument(s: ParserState) returns (r: Outcome)
    requires Ready(s)
    ensures r.Success? ==> Evolves(s, r.value)
  {
    match s.handler
    case Document => r := StartOfDocument.TopLevel(s);
    case _ => r := Fail(s, NotModelled);
  }

  /** The handlers of pyVHDLParser/Blocks/Structural/Entity.py. */
  method StepEntity(s: ParserState) returns (r: Outcome)
    requires Ready(s)
    ensures r.Success? ==> Evolves(s, r.value)
  {
    match s.handler
    case EntityKeyword => r := Entity.Keyword(s);
    case EntityWhitespace1 => r := Entity.Whitespace1(s);
    case EntityName => r := Entity.Name(s);
    case EntityWhitespace2 => r := Entity.Whitespace2(s);
    case EntityDeclarativeRegion => r := Entity.DeclarativeRegion(s);
    case _ => r := Fail(s, NotModelled);
  }

  /** The handlers of pyVHDLParser/Blocks/Structural/Architecture.py. */
  method StepArchitecture(s: ParserState) returns (r: Outcome)
    requires Ready(s)
    ensures r.Success? ==> Evolves(s, r.value)
  {
    match s.handler
    case ArchitectureKeyword => r := Architecture.Keyword(s);
    case ArchitectureWhitespace1 => r := Architecture.Whitespace1(s);
    case ArchitectureName => r := Architecture.Name(s);
    case ArchitectureWhitespace2 => r := Architecture.Whitespace2(s);
    case ArchitectureOfKeyword => r := Architecture.OfKeyword(s);
    case ArchitectureWhitespace3 => r := Architecture.Whitespace3(s);
    case ArchitectureEntityName => r := Architecture.EntityName(s);
    case ArchitectureWhitespace4 => r := Architecture.Whitespace4(s);
    case ArchitectureDeclarativeRegion => r := Architecture.DeclarativeRegion(s);
    case ArchitectureBeginKeyword => r := Architecture.BeginKeyword(s);
    case ArchitectureEndKeyword => r := Architecture.EndKeyword(s);
    case ArchitectureEndWhitespace1 => r := Architecture.EndWhitespace1(s);
    case ArchitectureEndArchitectureKeyword => r := Architecture.EndArchitectureKeyword(s);
    case ArchitectureEndWhitespace2 => r := Architecture.EndWhitespace2(s);
    case ArchitectureEndArchitectureName => r := Architecture.EndArchitectureName(s);
    case ArchitectureEndWhitespace3 => r := Architecture.EndWhitespace3(s);
    case _ => r := Fail(s, NotModelled);
  }

  /** The handlers of pyVHDLParser/Blocks/Generic.py. */
  method StepGeneric(s: ParserState) returns (r: Outcome)
    requires Ready(s)
    ensures r.Success? ==> Evolves(s, r.value)
  {
    match s.handler
    case ConcurrentRegion(e) => r := Generic.ConcurrentStatementRegion(s, e);
    case SequentialRegion(e) => r := Generic.SequentialStatementRegion(s, e);
    case _ => r := Fail(s, NotModelled);
  }

  /** The handlers of pyVHDLParser/Blocks/Expression/Expression.py. */
  method StepExpression(s: ParserState, rd: Reading) returns (r: Outcome)
    requires Ready(s)
    ensures r.Success? ==> Evolves(s, r.value)
    ensures (s.handler.Expression? || s.handler.ExpressionWhitespace1?) && Tok(s).kind == StringTok ==>
      r.Success? && Retagged(s, r.value, Expression.ClassOf(rd, Tok(s).text))
  {
    match s.handler
    case Expression => r := Expression.InExpression(s, rd);
    case ExpressionWhitespace1 => r := Expression.Whitespace1(s, rd);
    case _ => r := Fail(s, NotModelled);
  }

  /** The handlers of pyVHDLParser/Blocks/List/GenericList.py. */
  method StepGenericList(s: ParserState, rd: Reading) returns (r: Outcome)
    requires Ready(s)
    ensures r.Success? ==> Evolves(s, r.value)
    ensures s.handler.GenericItemDelimiter? && IsComment(Tok(s).kind) ==>
      if rd == AsWritten then r == Fail(s, WrongArguments) else r.Success?
  {
    match s.handler
    case GenericKeyword => r := GenericList.Keyword(s);
    case GenericWhitespace1 => r := GenericList.Whitespace1(s);
    case GenericOpeningParenthesis => r := GenericList.OpeningParenthesis(s);
    case ConstantKeyword => r := GenericList.ConstantKeywordState(s);
    case ConstantWhitespace1 => r := GenericList.ConstantGap1(s);
    case ConstantName => r := GenericList.ConstantNameState(s);
    case ConstantWhitespace2 => r := GenericList.ConstantGap2(s);
    case ConstantColon1 => r := GenericList.Colon1(s);
    case ConstantWhitespace3 => r := GenericList.ConstantGap3(s);
    case ConstantInKeyword => r := GenericList.InKeyword(s);
    case ConstantWhitespace4 => r := GenericList.ConstantGap4(s);
    case ConstantSubtypeIndication => r := GenericList.SubtypeIndication(s);
    case ConstantWhitespace5 => r := GenericList.ConstantGap5(s);
    case GenericItemDelimiter =>
      if rd == AsWritten {
        r := GenericList.ItemDelimiterAsWritten(s);
      } else {
        r := GenericList.ItemDelimiter(s);
      }
    case GenericClosingParenthesis => r := GenericList.ClosingParenthesis(s);
    case GenericCloseWhitespace1 => r := GenericList.CloseGap(s);
    case _ => r := Fail(s, NotModelled);
  }

  /** The handlers of pyVHDLParser/Blocks/Sequential/Function.py. */
  method StepFunction(s: ParserState) returns (r: Outcome)
    requires Ready(s)
    ensures r.Success? ==> Evolves(s, r.value)
  {
    match s.handler
    case FunctionKeyword => r := Function.Keyword(s);
    case FunctionWhitespace1 => r := Function.Whitespace1(s);
    case FunctionName => r := Function.Name(s);
    case FunctionWhitespace2 => r := Function.Whitespace2(s);
    case ReturnAfterParameterList => r := Function.AfterParameterList(s);
    case ReturnWhitespace1 => r := Function.ReturnGap(s);
    case ReturnKeyword => r := Function.Return(s);
    case ReturnWhitespace2 => r := Function.TypeGap(s);
    case ReturnType => r := Function.Type(s);
    case ReturnWhitespace3 => r := Function.EndGap(s);
    case FunctionDeclarativeRegion => r := Function.DeclarativeRegion(s);
    case _ => r := Fail(s, NotModelled);
  }

  /** The handlers of pyVHDLParser/Blocks/Sequential/Procedure.py. */
  method StepProcedure(s: ParserState, rd: Reading) returns (r: Outcome)
    requires Ready(s)
    ensures r.Success? ==> Evolves(s, r.value)
    ensures rd == AsWritten && s.handler.ProcedureDeclarativeRegion? ==> r == Fail(s, UndefinedState)
  {
    match s.handler
    case ProcedureKeyword => r := Procedure.Keyword(s);
    case ProcedureWhitespace1 => r := Procedure.Whitespace1(s);
    case ProcedureName => r := Procedure.Name(s);
    case ProcedureWhitespace2 => r := Procedure.Whitespace2(s);
    case VoidAfterParameterList => r := Procedure.AfterParameterList(s);
    case VoidWhitespace1 => r := Procedure.VoidGap(s);
    case ProcedureDeclarativeRegion =>
      if rd == AsWritten {
        r := Procedure.DeclarativeRegionAsWritten(s);
      } else {
        r := Procedure.DeclarativeRegion(s);
      }
    case _ => r := Fail(s, NotModelled);
  }

  /** The handlers of src/Blocks/Common.py. */
  method StepCommon(s: ParserState, rd: Reading) returns (r: Outcome)
    requires Ready(s)
    ensures r.Success? ==> Evolves(s, r.value)
    ensures s.handler.SensitivityOpeningParenthesis? && IsCommentStart(s) ==>
      if rd == AsWritten then r == Fail(s, UndefinedState) else r.Success?
  {
    match s.handler
    case SensitivityOpeningParenthesis =>
      if rd == AsWritten {
        r := Common.SensitivityOpeningAsWritten(s);
      } else {
        r := Common.SensitivityOpening(s);
      }
    case SensitivityItemRemainder => r := Common.ItemRemainder(s, Common.Sensitivity);
    case SensitivityItemDelimiter => r := Common.ItemDelimiter(s, Common.Sensitivity);
    case SensitivityClosingParenthesis => r := Common.ClosingParenthesis(s, Common.Sensitivity, false);
    case SensitivityCloseWhitespace1 => r := Common.CloseWhitespace1(s, Common.Sensitivity);
    case _ => r := Fail(s, NotModelled);
  }

  /** The handlers of src/Blocks/List/GenericList.py. */
  method StepLegacyGenericList(s: ParserState) returns (r: Outcome)
    requires Ready(s)
    ensures r.Success? ==> Evolves(s, r.value)
  {
    match s.handler
    case OldGenericKeyword => r := LegacyGenericList.Keyword(s);
    case OldGenericWhitespace1 => r := LegacyGenericList.Whitespace1(s);
    case OldGenericOpeningParenthesis => r := LegacyGenericList.OpeningParenthesis(s);
    case OldItemRemainder => r := Common.ItemRemainder(s, LegacyGenericList.Generics);
    case OldItemDelimiter => r := Common.ItemDelimiter(s, LegacyGenericList.Generics);
    case OldClosingParenthesis => r := Common.ClosingParenthesis(s, LegacyGenericList.Generics, true);
    case OldCloseWhitespace1 => r := Common.CloseWhitespace1(s, LegacyGenericList.Generics);
    case _ => r := Fail(s, NotModelled);
  }

  /** The handlers of src/Blocks/Structural/Entity.py. */
  method StepLegacyEntity(s: ParserState) returns (r: Outcome)
    requires Ready(s)
    ensures r.Success? ==> Evolves(s, r.value)
  {
    match s.handler
    case OldEntityKeyword => r := LegacyEntity.Keyword(s);
    case OldEntityWhitespace1 => r := LegacyEntity.Whitespace1(s);
    case OldEntityName => r := LegacyEntity.Name(s);
    case OldEntityWhitespace2 => r := LegacyEntity.Whitespace2(s);
    case OldEntityDeclarativeRegion => r := LegacyEntity.DeclarativeRegion(s);
    case OldEntityBeginKeyword => r := LegacyEntity.BeginKeyword(s);
    case OldEntityEndKeyword => r := LegacyEntity.EndKeyword(s);
    case OldEntityEndWhitespace1 => r := LegacyEntity.EndWhitespace1(s);
    case OldEntityEndEntityKeyword => r := LegacyEntity.EndEntityKeyword(s);
    case OldEntityEndWhitespace2 => r := LegacyEntity.EndWhitespace2(s);
    case OldEntityEndEntityName => r := LegacyEntity.EndEntityName(s);
    case OldEntityEndWhitespace3 => r := LegacyEntity.EndWhitespace3(s);
    case _ => r := Fail(s, NotModelled);
  }

  /** The handlers of src/Blocks/Structural/Component.py. */
  method StepComponent(s: ParserState) returns (r: Outcome)
    requires Ready(s)
    ensures r.Success? ==> Evolves(s, r.value)
  {
    match s.handler
    case ComponentKeyword => r := Component.Keyword(s);
    case ComponentWhitespace1 => r := Component.Whitespace1(s);
    case ComponentName => r := Component.Name(s);
    case ComponentWhitespace2 => r := Component.Whitespace2(s);
    case ComponentDeclarativeRegion => r := Component.DeclarativeRegion(s);
    case ComponentEndKeyword => r := Component.EndKeyword(s);
    case ComponentEndWhitespace1 => r := Component.EndWhitespace1(s);
    case ComponentEndComponentKeyword => r := Component.EndComponentKeyword(s);
    case ComponentEndWhitespace2 => r := Component.EndWhitespace2(s);
    case ComponentEndComponentName => r := Component.EndComponentName(s);
    case ComponentEndWhitespace3 => r := Component.EndWhitespace3(s);
    case _ => r := Fail(s, NotModelled);
  }

  /** The handlers of src/Blocks/ControlStructure/Break.py. */
  method StepBreakStatement(s: ParserState) returns (r: Outcome)
    requires Ready(s)
    ensures r.Success? ==> Evolves(s, r.value)
  {
    match s.handler
    case BreakKeyword => r := BreakStatement.Keyword(s);
    case BreakWhitespace1 => r := BreakStatement.Whitespace1(s);
    case BreakName => r := BreakStatement.Name(s);
    case BreakWhitespace2 => r := BreakStatement.Whitespace2(s);
    case _ => r := Fail(s, NotModelled);
  }

  // ---------------------------------------------------------------------------
  // The generator

  /** What a whole run leaves: the arenas, the blocks yielded, in order, and
      the token the chain ends at. */
  datatype Parsed = Parsed(tokens: seq<Token>, blocks: seq<Block>, yielded: seq<nat>, last: nat)

  /** The state before the first drain: only the start-of-document block
      exists, queued and unlinked, and nothing was yielded yet. */
  ghost predicate Fresh(s: ParserState) {
    s.lastBlock.None? && s.newBlock == Some(0) &&
    s.blocks == [Block(StartOfDocumentBlk, Some(0), None, false, None, None)]
  }

  /** One turn of the generator's `for` loop on the arriving token `x`: it
      is linked in, the queued blocks are yielded and the handler runs. */
  method Turn(s: ParserState, x: Lexeme, rd: Reading) returns (r: Result<(ParserState, seq<nat>), ParseError>)
    requires WF(s) && (s.lastBlock.Some? || Fresh(s))
    ensures r.Success? ==>
      WF(r.value.0) && r.value.0.lastBlock.Some? && Tok(r.value.0).kind == x.kind &&
      |r.value.0.tokens| > |s.tokens|
    ensures r.Success? ==>
      |s.blocks| <= |r.value.0.blocks| && forall k :: 0 <= k < |r.value.1| ==> r.value.1[k] < |r.value.0.blocks|
    ensures r.Success? && Fresh(s) ==> |r.value.1| >= 1 && r.value.1[0] == 0
    ensures !Draining.DrainReady(Draining.PendingOf(Advance(s, x))) ==>
      r == Failure(ParseError(CyclicChain, |s.tokens|))
    ensures r.Success? ==>
      var a := Advance(s, x);
      Draining.DrainReady(Draining.PendingOf(a)) &&
      exists d: ParserState ::
        d.(blocks := a.blocks, newBlock := a.newBlock, lastBlock := a.lastBlock) == a &&
        Draining.Drained(Draining.PendingOf(a), Draining.PendingOf(d), r.value.1) && Evolves(d, r.value.0)
  {
    var a := Advance(s, x);
    if !Draining.DrainReady(Draining.PendingOf(a)) {
      return Failure(ParseError(CyclicChain, a.token));
    }
    var d, out := Draining.Drain(a);
    AfterDrain(a, d, out);
    if Fresh(s) {
      StartDrain(a, d, out);
    }
    var o := Step(d, rd);
    if o.Failure? {
      return Failure(o.error);
    }
    r := Success((o.value, out));
    assert Evolves(d, r.value.0);
  }

  /** `Transform(...)` consumed to the end: the first token opens the
      start-of-document block; each later token is linked in (`Advance`), the
      queued blocks are yielded (`Drain`) and the current handler runs
      (`Step`); after the last token the end-of-document block is yielded
      (`Finish`). A run without tokens fails on the first `next`; a queued
      chain that never ends, on which the source would loop forever, or
      that revisits the last yielded block fails too. */
  method Run(gen: Generation, lexemes: seq<Lexeme>, rd: Reading) returns (r: Result<Parsed, ParseError>)
    ensures |lexemes| == 0 ==> r == Failure(ParseError(NoFirstToken, 0))
    ensures r.Success? ==> |lexemes| >= 2 && lexemes[|lexemes| - 1].kind == EndOfDocumentTok
    ensures r.Success? ==> |r.value.yielded| >= 2 && r.value.yielded[0] == 0
    ensures r.Success? ==> forall i :: 0 <= i < |r.value.yielded| ==> r.value.yielded[i] < |r.value.blocks|
    ensures r.Success? ==> r.value.blocks[r.value.yielded[|r.value.yielded| - 1]].kind == EndOfDocumentBlk
    ensures r.Success? ==> |r.value.tokens| >= |lexemes|
    ensures r.Success? ==>
      Ordered(r.value.tokens) && LinkedBack(r.value.tokens, r.value.last) &&
      Walk(r.value.tokens, 0, r.value.last).Success?
  {
    if |lexemes| == 0 {
      return Failure(ParseError(NoFirstToken, 0));
    }
    var fed := Feed(gen, lexemes, rd);
    if fed.Failure? {
      return Failure(fed.error);
    }
    var (s, ys) := fed.value;
    var f := Finish(s);
    if f.Failure? {
      return Failure(f.error);
    }
    assert s.newBlock.Some? && s.blocks[s.newBlock.value].kind == EndOfDocumentBlk;
    var last := if s.newToken.Some? then s.newToken.value else s.token;
    ChainWalks(s.tokens, last);
    r := Success(Parsed(s.tokens, s.blocks, ys + [f.value], last));
  }

  /** What the generator's loop keeps after the first i tokens: the state is
      on token i - 1 and every block it yielded, the start-of-document block
      first, is in the arena. */
  ghost predicate FedSoFar(lexemes: seq<Lexeme>, i: nat, s: ParserState, ys: seq<nat>) {
    1 <= i <= |lexemes| &&
    WF(s) && Tok(s).kind == lexemes[i - 1].kind && |s.tokens| >= i &&
    (i == 1 ==> Fresh(s) && ys == []) &&
    (i > 1 ==> s.lastBlock.Some? && |ys| >= 1 && ys[0] == 0) &&
    forall k :: 0 <= k < |ys| ==> ys[k] < |s.blocks|
  }

  /** The generator's `for` loop over every token after the first: the state
      after the last token and the blocks yielded on the way. */
  method Feed(gen: Generation, lexemes: seq<Lexeme>, rd: Reading) returns (r: Result<(ParserState, seq<nat>), ParseError>)
    requires |lexemes| >= 1
    ensures r.Success? ==> FedSoFar(lexemes, |lexemes|, r.value.0, r.value.1)
  {
    StartFed(gen, lexemes);
    r := FeedFrom(lexemes, 1, Start(gen, lexemes[0]), [], rd);
  }

  /** The loop of `Feed` from token i on, with the state and the blocks
      yielded before token i. */
  method FeedFrom(lexemes: seq<Lexeme>, i: nat, s: ParserState, ys: seq<nat>, rd: Reading)
    returns (r: Result<(ParserState, seq<nat>), ParseError>)
    requires FedSoFar(lexemes, i, s, ys)
    ensures r.Success? ==> FedSoFar(lexemes, |lexemes|, r.value.0, r.value.1)
    decreases |lexemes| - i
  {
    if i == |lexemes| {
      return Success((s, ys));
    }
    var t := FeedOne(lexemes, i, s, ys, rd);
    if t.Failure? {
      return Failure(t.error);
    }
    r := FeedFrom(lexemes, i + 1, t.value.0, t.value.1, rd);
  }

  /** Before the loop of `Feed`, only the first token is in. */
  lemma StartFed(gen: Generation, lexemes: seq<Lexeme>)
    requires |lexemes| >= 1
    ensures FedSoFar(lexemes, 1, Start(gen, lexemes[0]), [])
  {
  }

  /** One pass of the loop of `Feed`: token i is turned and what it yields
      is appended. */
  method FeedOne(lexemes: seq<Lexeme>, i: nat, s: ParserState, ys: seq<nat>, rd: Reading)
    returns (r: Result<(ParserState, seq<nat>), ParseError>)
    requires FedSoFar(lexemes, i, s, ys) && i < |lexemes|
    ensures r.Success? ==> FedSoFar(lexemes, i + 1, r.value.0, r.value.1)
  {
    var t := Turn(s, lexemes[i], rd);
    if t.Failure? {
      return Failure(t.error);
    }
    var (s', out) := t.value;
    YieldedGrow(ys, out, |s.blocks|, |s'.blocks|);
    r := Success((s', ys + out));
  }

  /** The blocks yielded so far and those of one more turn, all in the
      grown arena; the first block yielded stays first. */
  lemma YieldedGrow(ys: seq<nat>, out: seq<nat>, n: nat, m: nat)
    requires n <= m && (forall k :: 0 <= k < |ys| ==> ys[k] < n) && (forall k :: 0 <= k < |out| ==> out[k] < m)
    ensures forall k :: 0 <= k < |ys + out| ==> (ys + out)[k] < m
    ensures |ys| >= 1 ==> (ys + out)[0] == ys[0]
    ensures ys == [] ==> ys + out == out
  {
  }

  /** A drain in `Run` leaves the state ready for its handler: the current
      token, which has a predecessor, stays, no replacement is pending, the
      marker the arrival set stays, and a block has been yielded by now. */
  lemma AfterDrain(a: ParserState, d: ParserState, out: seq<nat>)
    requires WF(a) && Tok(a).prev.Some? && (a.lastBlock.Some? || a.newBlock.Some?)
    requires a.newToken.None? && a.marker.Some?
    requires Draining.DrainReady(Draining.PendingOf(a))
    requires Draining.Drained(Draining.PendingOf(a), Draining.PendingOf(d), out)
    requires d.(blocks := a.blocks, newBlock := a.newBlock, lastBlock := a.lastBlock) == a && WF(d)
    ensures Ready(d) && Tok(d) == Tok(a) && |d.tokens| == |a.tokens|
    ensures d.newToken.None? && d.marker == a.marker && d.marker.Some? && d.lastBlock.Some?
    ensures |a.blocks| <= |d.blocks| && forall k :: 0 <= k < |out| ==> out[k] < |d.blocks|
  {
    assert d.tokens == a.tokens && d.token == a.token;
  }

  /** The first drain yields the start-of-document block first. */
  lemma StartDrain(a: ParserState, d: ParserState, out: seq<nat>)
    requires Fresh(a)
    requires Draining.DrainReady(Draining.PendingOf(a))
    requires Draining.Drained(Draining.PendingOf(a), Draining.PendingOf(d), out)
    ensures |out| >= 1 && out[0] == 0
  {
    var o := Draining.PendingOf(a);
    assert Draining.QueuedChain(o) == Some([0]);
    assert !Draining.Fuses(o, [0], 0);
  }
}
