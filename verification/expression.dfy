/** `ExpressionBlock`: an expression (section 9 of IEEE 1076-2008) up to the
    `";"` or the unmatched `")"` that ends it. The counter is the depth of
    open round brackets inside the expression. */
module Expression {
  import opened Results
  import opened Tokens
  import opened Blocks
  import opened Handlers
  import opened Engine
  import opened Effects
  import opened Moves

  const ExpressionBlock := "Expression.ExpressionBlock"

  /** `CHARACTER_TRANSLATION`: the single-character operators. */
  const CharOperators: seq<(string, Kind)> := [
    ("+", OperatorTok("+")), ("-", OperatorTok("-")), ("*", OperatorTok("*")),
    ("/", OperatorTok("/")), ("&", OperatorTok("&"))
  ]

  /** `FUSED_CHARACTER_TRANSLATION`: the operators of two or three
      characters. */
  const FusedOperators: seq<(string, Kind)> := [
    ("**", OperatorTok("**")), ("/=", OperatorTok("/=")), ("<=", OperatorTok("<=")),
    (">=", OperatorTok(">=")), ("?=", OperatorTok("?=")), ("?/=", OperatorTok("?/=")),
    ("?<", OperatorTok("?<")), ("?<=", OperatorTok("?<=")), ("?>", OperatorTok("?>")),
    ("?>=", OperatorTok("?>="))
  ]

  /** `OPERATOR_TRANSLATIONS`: the operators that are reserved words. */
  const WordOperators: seq<(string, Kind)> := [
    ("or", KeywordTok("or")), ("nor", KeywordTok("nor")), ("and", KeywordTok("and")),
    ("nand", KeywordTok("nand")), ("xor", KeywordTok("xor")), ("xnor", KeywordTok("xnor")),
    ("sla", KeywordTok("sla")), ("sll", KeywordTok("sll")), ("sra", KeywordTok("sra")),
    ("srl", KeywordTok("srl")), ("not", KeywordTok("not")), ("abs", KeywordTok("abs"))
  ]

  /** The class a word gets as written: the table is indexed by the token's
      text as it stands, so only a lower-case operator is recognised and
      `AND` becomes an identifier. */
  function WordClassAsWritten(text: string): (k: Kind)
    ensures Lookup(WordOperators, text).None? ==> k == IdentifierTok
  {
    match Lookup(WordOperators, text)
    case Some(op) => op
    case None => IdentifierTok
  }

  /** The class a word gets as intended: reserved words are not
      case-sensitive, so the table is indexed by the lower-cased text, as every
      other keyword test of the parser does. */
  function WordClass(text: string): (k: Kind)
    ensures Lookup(WordOperators, Lower(text)).None? ==> k == IdentifierTok
  {
    match Lookup(WordOperators, Lower(text))
    case Some(op) => op
    case None => IdentifierTok
  }

  /** The class a word gets under a reading. */
  function ClassOf(rd: Reading, text: string): (k: Kind)
    ensures rd == AsWritten ==> k == WordClassAsWritten(text)
    ensures rd == AsIntended ==> k == WordClass(text)
  {
    if rd == AsWritten then WordClassAsWritten(text) else WordClass(text)
  }

  /** The operator words are all in lower case. */
  lemma OperatorsInLowerCase(i: nat)
    requires i < |WordOperators|
    ensures Lower(WordOperators[i].0) == WordOperators[i].0
  {
    var w := WordOperators[i].0;
    assert forall j :: 0 <= j < |w| ==> 'a' <= w[j] <= 'z';
    assert Lower(w) == w;
  }

  /** The two readings of a word part exactly on a word with an upper-case
      letter that the intended reading recognises as an operator; on every
      other word they agree. */
  lemma {:induction false} ReadingsPartOnCase(text: string)
    ensures WordClassAsWritten(text) != WordClass(text) <==>
      Lower(text) != text && Lookup(WordOperators, Lower(text)).Some?
    ensures Lower(text) == text ==> ClassOf(AsWritten, text) == ClassOf(AsIntended, text)
  {
    if Lower(text) != text {
      forall i | 0 <= i < |WordOperators|
        ensures WordOperators[i].0 != text
      {
        OperatorsInLowerCase(i);
      }
      assert WordClassAsWritten(text) == IdentifierTok;
      var r := Lookup(WordOperators, Lower(text));
      if r.Some? {
        var i :| 0 <= i < |WordOperators| && WordOperators[i] == (Lower(text), r.value);
        WordOperatorsAreKeywords(i);
      }
    }
  }

  /** Every entry of the word table maps an operator to its own keyword. */
  lemma WordOperatorsAreKeywords(i: nat)
    requires i < |WordOperators|
    ensures WordOperators[i].1 == KeywordTok(WordOperators[i].0)
  {
  }

  /** The intended classification: a word whose lower-cased text is a word
      operator becomes that operator in any letter case, and a word that is
      not becomes an identifier. */
  lemma {:induction false} WordClassIgnoresCase(text: string)
    ensures (exists i :: 0 <= i < |WordOperators| && WordOperators[i].0 == Lower(text)) ==>
      WordClass(text) == KeywordTok(Lower(text))
    ensures (forall i :: 0 <= i < |WordOperators| ==> WordOperators[i].0 != Lower(text)) ==>
      WordClass(text) == IdentifierTok
  {
    var r := Lookup(WordOperators, Lower(text));
    if r.Some? {
      var i :| 0 <= i < |WordOperators| && WordOperators[i] == (Lower(text), r.value);
      WordOperatorsAreKeywords(i);
    }
  }

  /** Where the two readings part: `AND` in upper case. */
  lemma UpperCaseOperator()
    ensures WordClassAsWritten("AND") == IdentifierTok
    ensures WordClass("AND") == KeywordTok("and")
  {
    assert Lower("AND") == "and";
    forall i | 0 <= i < |WordOperators|
      ensures WordOperators[i].0 != "AND"
    {
      assert WordOperators[i].0[0] != 'A';
    }
    assert Lookup(WordOperators, "and") == Some(KeywordTok("and"));
  }

  /** The tokens that end the expression: `";"` at any depth (a mismatch
      unless the depth is 0) and `")"` at depth 0. */
  predicate Ends(s: ParserState)
    requires WF(s)
  {
    IsChar(Tok(s), ';') || (IsChar(Tok(s), ')') && s.counter == 0)
  }

  /** Operator and bracket characters. */
  predicate IsSymbol(s: ParserState)
    requires WF(s)
  {
    Tok(s).kind == FusedCharacterTok || Tok(s).kind == CharacterTok
  }

  /** Words and literals. */
  predicate IsTerm(s: ParserState)
    requires WF(s)
  {
    Tok(s).kind == StringTok || Tok(s).kind == LiteralTok
  }

  /** What the end of an expression does:
      - `";"` at depth 0 makes it a block ending before `";"`, whose
        replacement is a delimiter, and pops one level; at any other depth it
        raises a mismatch;
      - `")"` at depth 0 makes it a block through the boundary replacement of
        `")"` and pops two levels, leaving the enclosing list as well;
      a stack too short for the pop raises. */
  ghost predicate Terminated(s: ParserState, r: Outcome)
    requires Ready(s)
  {
    (r.Success? ==> Evolves(s, r.value) && |r.value.stack| < |s.stack|) &&
    (IsChar(Tok(s), ';') && s.counter == 0 && |s.stack| >= 1 ==>
       r.Success? && Retagged(s, r.value, DelimiterTok) &&
       Appended(s, r.value, Named(ExpressionBlock), Rebased(s), Tok(s).prev, false) && Popped(s, r.value, 1)) &&
    (IsChar(Tok(s), ';') && s.counter == 0 && |s.stack| == 0 ==> r == Fail(s, EmptyStack)) &&
    (IsChar(Tok(s), ';') && s.counter != 0 ==> r == Fail(s, Mismatch)) &&
    (IsChar(Tok(s), ')') && |s.stack| >= 2 ==>
       r.Success? && EndedWith(s, r.value, BoundaryTok, ExpressionBlock) && Popped(s, r.value, 2)) &&
    (IsChar(Tok(s), ')') && |s.stack| < 2 ==> r == Fail(s, EmptyStack))
  }

  /** The end of an expression, case by case and then as the summary. */
  method Terminate(s: ParserState) returns (r: Outcome)
    requires Ready(s) && Ends(s)
    ensures r.Success? ==> Evolves(s, r.value) && |r.value.stack| < |s.stack|
    ensures IsChar(Tok(s), ';') && s.counter == 0 && |s.stack| >= 1 ==>
      r.Success? && Retagged(s, r.value, DelimiterTok) &&
      Appended(s, r.value, Named(ExpressionBlock), Rebased(s), Tok(s).prev, false) && Popped(s, r.value, 1)
    ensures IsChar(Tok(s), ';') && s.counter == 0 && |s.stack| == 0 ==> r == Fail(s, EmptyStack)
    ensures IsChar(Tok(s), ';') && s.counter != 0 ==> r == Fail(s, Mismatch)
    ensures IsChar(Tok(s), ')') && |s.stack| >= 2 ==>
      r.Success? && EndedWith(s, r.value, BoundaryTok, ExpressionBlock) && Popped(s, r.value, 2)
    ensures IsChar(Tok(s), ')') && |s.stack| < 2 ==> r == Fail(s, EmptyStack)
    ensures Terminated(s, r)
  {
    if IsChar(Tok(s), ';') {
      if s.counter == 0 {
        r := BeforeAndPop(s, DelimiterTok, ExpressionBlock, 1);
      } else {
        r := Fail(s, Mismatch);
      }
    } else {
      r := ThroughAndPop(s, BoundaryTok, ExpressionBlock, 2);
    }
  }

  /** A translated token, then the handler becomes `next`: the
      current token becomes the class its text maps to, and a text missing
      from the table raises `KeyError`; no block is queued and the marker
      stays. */
  ghost predicate TranslatedBy(s: ParserState, r: Outcome, table: seq<(string, Kind)>, next: Handler)
    requires WF(s)
  {
    (Lookup(table, Tok(s).text).Some? ==>
       r.Success? && Retagged(s, r.value, Lookup(table, Tok(s).text).value) && r.value.marker == s.marker &&
       NoBlock(s, r.value) && Moved(s, r.value, next) && Evolves(s, r.value)) &&
    (Lookup(table, Tok(s).text).None? ==> r == Fail(s, MissingEntry)) &&
    (r.Success? ==> r.value.counter == s.counter)
  }

  method Translate(s: ParserState, table: seq<(string, Kind)>, next: Handler) returns (r: Outcome)
    requires WF(s) && Tok(s).prev.Some?
    ensures TranslatedBy(s, r, table, next)
  {
    match Lookup(table, Tok(s).text)
    case Some(k) => r := Success(Goto(Retag(s, k), next));
    case None => r := Fail(s, MissingEntry);
  }

  /** `"("` opens a bracket and `")"` closes one, counting the depth in the
      counter; no block is queued and the marker stays. */
  ghost predicate Bracketed(s: ParserState, r: ParserState, next: Handler)
    requires WF(s)
  {
    Evolves(s, r) && r.stack == s.stack && r.handler == next && NoBlock(s, r) && r.marker == s.marker &&
    (IsChar(Tok(s), '(') ==> Retagged(s, r, OpeningRoundBracketTok) && r.counter == s.counter + 1) &&
    (IsChar(Tok(s), ')') ==> Retagged(s, r, ClosingRoundBracketTok) && r.counter == s.counter - 1)
  }

  /** `"("` opens a bracket and `")"` (not at depth 0) closes one. */
  method Bracket(s: ParserState, next: Handler) returns (r: ParserState)
    requires Ready(s) && (IsChar(Tok(s), '(') || (IsChar(Tok(s), ')') && s.counter != 0))
    ensures Bracketed(s, r, next)
  {
    if IsChar(Tok(s), '(') {
      r := Goto(SetCounter(Retag(s, OpeningRoundBracketTok), s.counter + 1), next);
    } else {
      r := Goto(SetCounter(Retag(s, ClosingRoundBracketTok), s.counter - 1), next);
    }
  }

  /** What an operator or bracket character does, before the handler moves
      on to `next`: an operator of one or more characters is translated by
      its table, and a bracket counts the depth, which never drops below
      zero. */
  ghost predicate Translated(s: ParserState, r: Outcome, next: Handler)
    requires Ready(s)
  {
    var bracket := IsChar(Tok(s), '(') || IsChar(Tok(s), ')');
    (Tok(s).kind == FusedCharacterTok ==> TranslatedBy(s, r, FusedOperators, next)) &&
    (bracket ==> r.Success? && Bracketed(s, r.value, next)) &&
    (Tok(s).kind == CharacterTok && !bracket ==> TranslatedBy(s, r, CharOperators, next)) &&
    (r.Success? && s.counter >= 0 ==> r.value.counter >= 0)
  }

  /** An operator or bracket character, case by case and then as the
      summary. */
  method Symbol(s: ParserState, next: Handler) returns (r: Outcome)
    requires Ready(s) && IsSymbol(s) && !Ends(s)
    ensures Tok(s).kind == FusedCharacterTok ==> TranslatedBy(s, r, FusedOperators, next)
    ensures IsChar(Tok(s), '(') || IsChar(Tok(s), ')') ==> r.Success? && Bracketed(s, r.value, next)
    ensures Tok(s).kind == CharacterTok && !(IsChar(Tok(s), '(') || IsChar(Tok(s), ')')) ==>
      TranslatedBy(s, r, CharOperators, next)
    ensures r.Success? && s.counter >= 0 ==> r.value.counter >= 0
    ensures Translated(s, r, next)
  {
    if Tok(s).kind == FusedCharacterTok {
      r := Translate(s, FusedOperators, next);
    } else if IsChar(Tok(s), '(') || IsChar(Tok(s), ')') {
      var t := Bracket(s, next);
      r := Success(t);
    } else {
      r := Translate(s, CharOperators, next);
    }
  }

  /** What a word or literal does, before the handler moves on to `next`: a
      word becomes a word operator or an identifier, and a literal changes
      nothing. */
  ghost predicate Termed(s: ParserState, r: Outcome, next: Handler, rd: Reading)
    requires Ready(s)
  {
    (Tok(s).kind == StringTok ==>
       r.Success? && Moved(s, r.value, next) && Retagged(s, r.value, ClassOf(rd, Tok(s).text)) &&
       NoBlock(s, r.value) && r.value.marker == s.marker && Evolves(s, r.value)) &&
    (Tok(s).kind == LiteralTok ==> r == Success(s.(handler := next)))
  }

  /** A word or a literal. */
  method Term(s: ParserState, next: Handler, rd: Reading) returns (r: Outcome)
    requires Ready(s) && IsTerm(s)
    ensures Termed(s, r, next, rd)
  {
    if Tok(s).kind == StringTok {
      var t := RetagTo(s, ClassOf(rd, Tok(s).text), next);
      r := Success(t);
    } else {
      r := Success(Goto(s, next));
    }
  }

  /** `stateExpression`: the end of the expression terminates it; a part of
      it stays in this state; a space moves to `stateWhitespace1`; a line
      break or comment splits the expression block and moves there too;
      anything else raises. */
  method InExpression(s: ParserState, rd: Reading) returns (r: Outcome)
    requires Ready(s)
    ensures Ends(s) ==> Terminated(s, r)
    ensures !Ends(s) && IsSymbol(s) ==> Translated(s, r, s.handler)
    ensures IsTerm(s) ==> Termed(s, r, s.handler, rd)
    ensures IsSpace(Tok(s).kind) ==> r == Success(s.(handler := ExpressionWhitespace1))
    ensures Tok(s).kind == LinebreakTok || IsComment(Tok(s).kind) ==>
      r.Success? && Moved(s, r.value, ExpressionWhitespace1) &&
      SplitClause(s, r.value, ExpressionBlock, FillerBlock(Tok(s).kind)) && Evolves(s, r.value)
    ensures !IsSymbol(s) && !IsTerm(s) && !IsFiller(Tok(s).kind) ==> r == Fail(s, UnexpectedToken)
    ensures r.Success? && s.counter >= 0 && |r.value.stack| == |s.stack| ==> r.value.counter >= 0
  {
    var k := Tok(s).kind;
    if Ends(s) {
      assert k == CharacterTok && !IsTerm(s);
      r := Terminate(s);
    } else if IsSymbol(s) {
      assert !IsTerm(s) && !IsFiller(k);
      r := Symbol(s, s.handler);
    } else if IsTerm(s) {
      assert !IsFiller(k);
      r := Term(s, s.handler, rd);
    } else if IsSpace(k) {
      r := Success(Goto(s, ExpressionWhitespace1));
    } else if k == LinebreakTok || IsComment(k) {
      var t := SplitTo(s, ExpressionBlock, FillerBlock(k), ExpressionWhitespace1);
      r := Success(t);
    } else {
      r := Fail(s, UnexpectedToken);
    }
  }

  /** `stateWhitespace1`: the end of the expression terminates it; a part of
      it returns to `stateExpression`; whitespace is a gap that keeps comments
      as blocks of their own and skips an indentation after a line break. */
  method Whitespace1(s: ParserState, rd: Reading) returns (r: Outcome)
    requires Ready(s)
    ensures Ends(s) ==> Terminated(s, r)
    ensures !Ends(s) && IsSymbol(s) ==> Translated(s, r, Expression)
    ensures IsTerm(s) ==> Termed(s, r, Expression, rd)
    ensures !IsSymbol(s) && !IsTerm(s) ==> GapEffect(s, r, ExpressionBlock, false, true)
    ensures r.Success? && s.counter >= 0 && |r.value.stack| == |s.stack| ==> r.value.counter >= 0
  {
    if Ends(s) {
      r := Terminate(s);
    } else if IsSymbol(s) {
      r := Symbol(s, Expression);
    } else if IsTerm(s) {
      r := Term(s, Expression, rd);
    } else {
      r := Gap(s, ExpressionBlock, false, true);
    }
  }
}
