# pyVHDLParser token-to-block stage, modelled in Dafny

pyVHDLParser reads VHDL in three streaming stages: tokens, then blocks, then
groups. This project models the middle stage, the token-to-block parser, in
both of its generations:

- the current one, `TokenParserState` in `pyVHDLParser/Blocks/Parser.py`, and
  the handlers of `pyVHDLParser/Blocks/...`, which see line breaks and
  comments as tokens of their own;
- the older one, `ParserState` in `pyVHDLParser/Blocks/__init__.py`, and the
  character-level handlers under `src/Blocks/...`, which see `"\n"`, `"-"`
  and `"/"` as single-character tokens.

The parser is a resumable stack machine. It pulls one token at a time. It
links a pending replacement token in front of the arriving one, and it
yields the chain of blocks the last handler queued. On the way, it fuses a
line-break block that follows a line-break or empty-line block into an
empty-line block. Then it runs the current handler. When the input ends,
it yields the pending end-of-document block or raises "Unexpected end of
document.".

A handler may queue blocks, retag the current token, move the token marker,
change the counter, switch to another handler, or push and pop saved states.

Tokens and blocks live in two index arenas:

- A token is a kind, its text, its absolute start and end position, and
  `prev`/`next` indices.
- A block is a kind, a start and an end token, a multi-part flag, and
  `prev`/`next` block indices.
- Object identity (`is`) is equality of indices.

The parser state is an immutable record: both arenas, the stack of saved
frames, the handler, the marker, the counter, the current token and the
pending replacement, plus the pending and the last yielded block.

- Engine operations (`Push`, `Pop`, the `TokenMarker` getter, `Advance`,
  `Finish`) are functions.
- Handlers are methods from a state to `Result<ParserState, ParseError>`.
- Handlers outside the modelled files are opaque push targets. Running one
  fails with `NotModelled`.

Four handlers cannot do what they are evidently meant to do (see
"## Findings"). Each of them is modelled twice, as written and as intended,
and a `Reading` chooses which definitions the parser runs:
`TokenToBlock.Run`, `Feed`, `Turn` and `Step` take it as a parameter.
`AsWritten` runs the handlers as they stand, `AsIntended` the corrected
ones. Everything stated about the parser holds under both readings.

Two invariants hold in every state a handler sees and produces:

- `Engine.WF`: every index is inside its arena, the tokens are linked in
  increasing order, and the chain of predecessor links from the chain's end
  (the pending replacement, or else the current token) runs back to the
  first token, each link answered by a forward link.
- `Engine.Evolves`: from one state to a later one the arenas only grow, and
  the tokens and blocks already there change in their forward links only.

`Tokens.MatchesKeyword` stands for the tokenizer's `token <= "kw"`, as an
ASCII case-insensitive comparison of the token's text. The tokenizer itself
is not part of this model: the parser is given the token stream as a
sequence of lexemes, and each lexeme is linked into the arena as it arrives.

The modules follow the program's files:

| module | file |
|---|---|
| `Engine`, `Draining`, `TokenToBlock` | Parser.py and Blocks/__init__.py: the state, the drain loop, the generator |
| `Blocks`, `Tokens` | `Block` of Base.py and Blocks/__init__.py, and the token arena |
| `StartOfDocument` | `StartOfDocumentBlock.stateDocument` |
| `Entity`, `Architecture`, `Generic`, `Expression`, `GenericList`, `Function`, `Procedure` | the handlers of the current generation |
| `Common`, `LegacyGenericList`, `LegacyEntity`, `Component`, `BreakStatement` | the handlers of the older generation |
| `ObjectDeclarationGroups` | the block-to-group rule of Groups/ObjectDeclaration.py |
| `Effects`, `Moves`, `CharMoves` | the vocabulary and the shared moves the handlers are written in |

## Model

| member | source | states |
|---|---|---|
| TokenToBlock.Run | pyVHDLParser/Blocks/Parser.py:98-142 | With no tokens the parse fails before it starts. A successful parse consumed at least two tokens, the last of them an end-of-document token. It yielded at least two blocks: first the start-of-document block, last an end-of-document block. Every yielded index is a block of the arena. This holds under both readings. Also Testsuite.py:131-146: at the end the token chain is intact, so iterating from the first token reaches the last one, each step answered by a backward link. Also pyVHDLParser/Blocks/__init__.py:101-144: the same for the older generator, whose frames save no marker. |
| TokenToBlock.Feed | pyVHDLParser/Blocks/Parser.py:104-136 | The `for` loop over the tokens after the first keeps the state well-formed, with an intact token chain, under either reading. The last token handled has the last lexeme's kind. The first thing yielded, once a second token arrived, is the start-of-document block, and every yielded index is a block of the arena. |
| TokenToBlock.Turn | pyVHDLParser/Blocks/Parser.py:104-136 | One turn links the arriving token in, drains the queued chain and runs the handler of the reading. The blocks yielded are exactly the drain's output on the state after the arrival, and the resulting state evolves from the drained one. A queued chain that never ends or revisits the last yielded block fails with `CyclicChain`. The arena grows, the current token has the lexeme's kind, and every block yielded is in the arena. On the first turn the start-of-document block is yielded first. |
| TokenToBlock.Step | pyVHDLParser/Blocks/Parser.py:136 | Running the handler the state names keeps the state well-formed and only grows the arenas, for every handler and either reading, including the pop-and-reissue of a line-break state. A handler outside the model fails with `NotModelled`. Under `AsWritten` the procedure's declarative region fails on every token, and a comment after a generic delimiter or at the start of a sensitivity list fails; under `AsIntended` those two comments are handled. A word in an expression is retagged with the class the reading gives it. |
| TokenToBlock.FeedFrom | pyVHDLParser/Blocks/Parser.py:104-136 | The rest of the `for` loop from a given token on keeps what `Feed` states, under either reading. |
| TokenToBlock.AfterDrain | pyVHDLParser/Blocks/Parser.py:104-131 | After the drain the handler sees a ready state: the current token is the arriving one, no replacement is pending, the marker the arrival set is kept, and a block has been yielded. |
| TokenToBlock.StartDrain | pyVHDLParser/Blocks/Parser.py:38-59 | The first drain yields the start-of-document block before anything else. |
| Engine.Start | pyVHDLParser/Blocks/Parser.py:38-59 | The first token opens a start-of-document block that is the pending block. The stack is empty, the counter is 0, the handler is `stateDocument`, and no block has been yielded yet. Also pyVHDLParser/Blocks/__init__.py:47-63: the same for the older state. |
| Engine.Push | pyVHDLParser/Blocks/Parser.py:65-72 | Exactly one frame (the current handler, the raw marker, the counter) is appended. The new handler is installed and the marker is cleared; nothing else changes. Also pyVHDLParser/Blocks/__init__.py:69-75: the older frame keeps only handler and counter: its marker part is empty. |
| Engine.Pop | pyVHDLParser/Blocks/Parser.py:90-96 | `Pop(n)` succeeds exactly when 1 <= n <= stack depth. It removes exactly n frames and restores handler, marker and counter from the deepest one removed. Too few frames fail with an empty-stack error. Also pyVHDLParser/Blocks/__init__.py:93-99: the older `Pop` restores handler and counter and always leaves the marker empty. |
| Engine.PushThenPop | pyVHDLParser/Blocks/Parser.py:65-96 | `Pop(1)` right after a push gives back the state before the push exactly. In the older generation it gives that state back with an empty marker. |
| Engine.PopSplits | pyVHDLParser/Blocks/Parser.py:90-96 | Popping a + b frames at once equals popping a frames and then b frames. |
| Engine.LegacyPopClearsMarker | pyVHDLParser/Blocks/__init__.py:69-99 | In the older generation every pushed frame has an empty marker, and every successful pop leaves the marker empty. |
| Engine.ReadMarker | pyVHDLParser/Blocks/Parser.py:75-79 | While a replacement is pending and the marker is the current token, reading the marker moves it to the replacement. Otherwise the state is unchanged. Also pyVHDLParser/Blocks/__init__.py:78-82: the same getter in the older state. |
| Engine.SetMarker | pyVHDLParser/Blocks/Parser.py:81-82 | The setter stores the given marker and changes nothing else. |
| Engine.ReadMarkerIdempotent | pyVHDLParser/Blocks/Parser.py:75-79 | Reading the marker twice reads what the first read left: the move to the replacement happens once. |
| Engine.ReadAfterSet | pyVHDLParser/Blocks/Parser.py:75-82 | The getter after the setter reads the value set, except that the current token reads as its pending replacement. Nothing else of the state changes. |
| Engine.Retag | pyVHDLParser/Blocks/Structural/Entity.py:53-56 | A replacement of the current token with a new class is appended to the arena and becomes the pending token. It copies text, position and predecessor, and it is linked in by its predecessor. |
| Engine.Queue | pyVHDLParser/Blocks/Base.py:35-41 | A block is constructed behind the last yielded block and becomes the pending block. Only the block arena and the pending block change. |
| Engine.QueueAtMarker | pyVHDLParser/Blocks/Parser.py:75-79 | A block that starts at the marker starts where the getter reads it, so a marker rebased to the replacement is the block's start. |
| Engine.Chain | pyVHDLParser/Blocks/Base.py:35-41 | A block constructed behind the pending one; the pending block stays the head of the queue. |
| Engine.QueueEndOfDocument | pyVHDLParser/Blocks/__init__.py:308-310 | An end-of-document block over the current token becomes the pending block. |
| Engine.Advance | pyVHDLParser/Blocks/Parser.py:104-120 | The arriving token is appended behind the current one. A pending replacement becomes its predecessor and is cleared. A marker on the replaced token moves to the replacement, an empty marker becomes the arriving token, and any other marker is kept. Also pyVHDLParser/Blocks/__init__.py:106-123: the same head of the older generator's loop. |
| Engine.ArrivalKeepsChain | pyVHDLParser/Blocks/Parser.py:106-114 | Linking the arriving token behind the chain's end, through the pending replacement if there is one, makes it the end of an intact chain. The tokens already there change only in their forward links. |
| Engine.Finish | pyVHDLParser/Blocks/Parser.py:138-142 | After the last token, the end succeeds exactly when the last token is an end-of-document token and the pending block is an end-of-document block. It then yields that block; otherwise it raises "Unexpected end of document.". Also pyVHDLParser/Blocks/__init__.py:140-144: the same ending of the older generator. |
| Draining.Drain | pyVHDLParser/Blocks/Parser.py:123-131 | The drain yields the queued chain in order and leaves no pending block. The last yielded block is the last block the drain yielded. A line-break block after a line-break or empty-line block is yielded as a fresh empty-line block over its start token that takes over its forward link. Nothing outside the block part of the state changes. Also pyVHDLParser/Blocks/__init__.py:125-133: the same loop in the older generator. |
| Draining.DrainPending | pyVHDLParser/Blocks/Parser.py:123-131 | The loop on the block part of the state: it keeps the arena well-formed and ends in the drained outcome. |
| Draining.QueuedChain | pyVHDLParser/Blocks/Parser.py:123-131 | The blocks the loop walks: they start at the pending block and follow forward links to the end. No pending block means an empty chain. |
| Draining.ChainDistinct | pyVHDLParser/Blocks/Parser.py:123-131 | A chain that ends visits no block twice. |
| Draining.FusionLeavesBackLink | pyVHDLParser/Blocks/Parser.py:123-125 | The fused empty-line block takes over the line-break block's forward link, but its successor still links back to the line-break block: on a concrete queue with symmetric links, the drained arena is no longer symmetric. |
| Draining.StepFusesExactly | pyVHDLParser/Blocks/Parser.py:124 | The loop's fusing test, read on the current arena, holds exactly for the blocks the outcome says are fused. |
| Blocks.Construct | pyVHDLParser/Blocks/Base.py:35-41 | The new block links back to its predecessor, and the predecessor links forward to it. The new block links forward to nothing, and its end defaults to its start. Every other block is unchanged, and forward/backward link symmetry is kept. Also pyVHDLParser/Blocks/__init__.py:162-168: the same constructor of the older `Block`. |
| Blocks.StartOf | pyVHDLParser/Blocks/__init__.py:230-235 | A start block over its start token is appended to the arena with no end token and no links. The blocks already there are unchanged. |
| Blocks.EndOf | pyVHDLParser/Blocks/__init__.py:248-253 | An end block over its end token is appended with no start token and no links. The blocks already there are unchanged. |
| Blocks.StartOfKeepsLinks | pyVHDLParser/Blocks/__init__.py:230-235 | No block links to a new start block. The arena stays an arena, and forward/backward link symmetry is kept. |
| Blocks.EndOfKeepsLinks | pyVHDLParser/Blocks/__init__.py:248-253 | No block links to a new end block. The arena stays an arena, and link symmetry is kept. |
| Blocks.DocumentBlocksIterate | pyVHDLParser/Blocks/__init__.py:237-241 | The document's start and end blocks iterate exactly their one token and have length 0. |
| Blocks.SetPreviousBlock | pyVHDLParser/Blocks/Base.py:84-86 | Giving block b the predecessor v makes v link forward to b. Only those two links change. When v is b itself, b links to itself both ways. Also pyVHDLParser/Blocks/__init__.py:212-214: the same setter of the older `Block`. |
| Blocks.ConstructIsSetPrevious | pyVHDLParser/Blocks/Base.py:35-41 | The constructor equals the `PreviousBlock` setter applied to the new block appended unlinked. |
| Blocks.Walk | pyVHDLParser/Blocks/Base.py:46-55 | A successful walk is a path of forward links from the start token to the end token, both included. A failed walk stopped at a token without a successor, the broken link `__iter__` raises on. Also pyVHDLParser/Blocks/__init__.py:173-182: the same loop of the older `Block.__iter__`. |
| Blocks.BackPathIsPath | Testsuite.py:131-146 | Read forwards, the predecessor links from a token of an intact chain form a path of forward links from the first token to it. |
| Blocks.ChainWalks | Testsuite.py:131-146 | On an intact chain, iterating from the first token reaches the chain's end through exactly the tokens the predecessor links pass, as the connectivity check expects. |
| Blocks.WalkComplete | pyVHDLParser/Blocks/Base.py:46-55 | Every forward path from a token to a later one is exactly what the walk returns. Iteration fails only where no such path exists. |
| Blocks.PathIncreases | pyVHDLParser/Blocks/Base.py:46-55 | Along a path every token index is larger than the one before, so iteration visits no token twice. |
| Blocks.Iterate | pyVHDLParser/Blocks/Base.py:46-55 | Start and end blocks iterate exactly their one token. A successful iteration of any other block runs from its start token to its end token. Also pyVHDLParser/Blocks/__init__.py:237-238: `StartOfBlock.__iter__` yields only the start token. |
| Blocks.SingleTokenBlock | pyVHDLParser/Blocks/Base.py:40 | A block built without an end token iterates exactly its start token. |
| Blocks.Length | pyVHDLParser/Blocks/Base.py:43-44 | Length is the end token's last position minus the start token's first position, plus one. Start and end blocks have length 0. Also pyVHDLParser/Blocks/__init__.py:240-241: `StartOfBlock.__len__` is 0. |
| Blocks.LengthIsTextLength | pyVHDLParser/Blocks/Base.py:43-44 | Over contiguously positioned tokens, a block's length is the number of characters of the text it iterates. |
| Blocks.Escape | pyVHDLParser/Blocks/Base.py:57-67 | The two replacements leave no raw tab or newline in the text. |
| Blocks.EscapeIsEscapeEach | pyVHDLParser/Blocks/Base.py:57-67 | Replacing every tab and then every newline equals escaping each character on its own. |
| Blocks.EscapeRoundTrip | pyVHDLParser/Blocks/Base.py:57-67 | For text without backslashes, reading the escapes back gives the original text. |
| Blocks.Repr | pyVHDLParser/Blocks/Base.py:57-67 | `__repr__` fails exactly when iteration fails. Otherwise it is the escaped concatenation of the iterated tokens' text and holds no raw tab or newline. Also pyVHDLParser/Blocks/__init__.py:184-194: the same `__repr__` of the older `Block`. |
| Tokens.Lower | pyVHDLParser/Blocks/Generic.py:68 | ASCII lower-casing: it keeps the length and maps each ASCII capital to its small letter. Every other character, non-ASCII letters included, stays as it is. |
| Tokens.Arrive | Testsuite.py:138-140 | A token from the tokenizer is appended behind the last one, and the two are linked both ways. Link order is kept. |
| Tokens.Replace | Testsuite.py:138-140 | A replacement token copies text and position and takes over the predecessor's forward link. Every other token is unchanged, and link order is kept. |
| Tokens.ReplaceKeepsChain | Testsuite.py:131-146 | A replacement of a token that shares the chain end's predecessor becomes the end of an intact chain. |
| Tokens.SetPrevious | pyVHDLParser/Blocks/Parser.py:106-114 | Setting a token's predecessor also sets the predecessor's forward link, and link order is kept. |
| StartOfDocument.TopLevel | pyVHDLParser/Blocks/__init__.py:267-318 | Whitespace, line breaks and comments each queue a one-token block, clear the marker and keep the state. A top-level keyword (any case) pushes its handler with the marker on the keyword's replacement. An end-of-document token queues the end-of-document block. Everything else fails, and only then. |
| Generic.ConcurrentStatementRegion | pyVHDLParser/Blocks/Generic.py:47-89 | Fillers become one-token blocks (indentation or whitespace for a space) and keep the state. ASSERT and PROCESS push their handler with the marker on the replacement. END moves on without changing the stack. Any other word fails. |
| Generic.SequentialStatementRegion | pyVHDLParser/Blocks/Generic.py:96-137 | The same with IF and REPORT as the statements. |
| Entity.Keyword | pyVHDLParser/Blocks/Structural/Entity.py:51-70 | A space after ENTITY is retagged as a boundary and moves to the first gap. A line break or comment ends a multi-part name block before it, chains a line-break or comment block and clears the marker. Anything else fails. |
| Entity.Whitespace1 | pyVHDLParser/Blocks/Structural/Entity.py:73-99 | A word becomes the identifier and moves to the name state. Indentation after a line break or single-line comment is ignored. Other fillers are handled as a gap; anything else fails. |
| Entity.Name | pyVHDLParser/Blocks/Structural/Entity.py:102-121 | As `Keyword`, for the name. |
| Entity.Whitespace2 | pyVHDLParser/Blocks/Structural/Entity.py:124-153 | IS ends the header as one single-part block from the marker through IS, clears the marker and enters the declarative region. Fillers are a gap; anything else fails. |
| Entity.DeclarativeRegion | pyVHDLParser/Blocks/Structural/Entity.py:156-209 | USE, GENERIC, PORT and CONSTANT push their handler with the marker on the replacement. BEGIN and END switch state without pushing. Fillers become one-token blocks. Any other word fails. |
| Architecture.Keyword | pyVHDLParser/Blocks/Structural/Architecture.py:61-92 | A space after ARCHITECTURE moves to the first gap. A line break ends a multi-part name block before it, chains a line-break block and pushes the line-break handler. A comment start ends the block before it and pushes the comment handler. Anything else fails. |
| Architecture.Whitespace1 | pyVHDLParser/Blocks/Structural/Architecture.py:95-131 | A word becomes the architecture's name. A line break right after a multi-line comment block stands alone. Other tokens are a gap or fail. |
| Architecture.Name | pyVHDLParser/Blocks/Structural/Architecture.py:134-164 | As `Keyword`, for the name. |
| Architecture.Whitespace2 | pyVHDLParser/Blocks/Structural/Architecture.py:167-203 | OF, and only OF, moves to the OF state. |
| Architecture.OfKeyword | pyVHDLParser/Blocks/Structural/Architecture.py:206-237 | As `Keyword`, after OF. |
| Architecture.Whitespace3 | pyVHDLParser/Blocks/Structural/Architecture.py:240-276 | A word becomes the entity's name. |
| Architecture.EntityName | pyVHDLParser/Blocks/Structural/Architecture.py:279-309 | As `Keyword`, after the entity's name. |
| Architecture.Whitespace4 | pyVHDLParser/Blocks/Structural/Architecture.py:312-349 | IS ends the header as one single-part block from the marker through IS and enters the declarative region, so the header advances keyword, name, OF, entity name, IS in that order only. |
| Architecture.DeclarativeRegion | pyVHDLParser/Blocks/Structural/Architecture.py:352-402 | SIGNAL, CONSTANT, VARIABLE and SHARED push their handler. BEGIN queues the begin block. END fails, its branch being commented out. Line breaks, comments and whitespace become blocks of their own. |
| Architecture.BeginKeyword | pyVHDLParser/Blocks/Structural/Architecture.py:411-450 | PROCESS pushes its handler and END moves to the end block. A line break clears the marker. Any other word fails. |
| Architecture.EndKeyword | pyVHDLParser/Blocks/Structural/Architecture.py:464-500 | `";"` ends the end block through the boundary token and pops. Otherwise it behaves as a state right after a word. |
| Architecture.EndWhitespace1 | pyVHDLParser/Blocks/Structural/Architecture.py:503-548 | `";"` closes. ARCHITECTURE moves to the keyword state, and any other word becomes the name. |
| Architecture.EndArchitectureKeyword | pyVHDLParser/Blocks/Structural/Architecture.py:551-587 | `";"` closes; otherwise it behaves as a state right after a word. |
| Architecture.EndWhitespace2 | pyVHDLParser/Blocks/Structural/Architecture.py:590-631 | `";"` closes and a word becomes the name. |
| Architecture.EndArchitectureName | pyVHDLParser/Blocks/Structural/Architecture.py:634-667 | `";"` closes. There is no final raise, so a token the state does not handle changes nothing. |
| Architecture.EndWhitespace3 | pyVHDLParser/Blocks/Structural/Architecture.py:670-707 | Only `";"` or a filler may follow. |
| Expression.WordClassAsWritten | pyVHDLParser/Blocks/Expression/Expression.py:112-117 | A word is looked up verbatim: a word not in the operator table becomes an identifier. |
| Expression.WordClass | pyVHDLParser/Blocks/Expression/Expression.py:112-117 | The lookup as intended, on the lower-cased word: a word whose lower-cased text is not an operator becomes an identifier. |
| Expression.WordOperatorsAreKeywords | pyVHDLParser/Blocks/Expression/Expression.py:64-79 | Every word operator maps to the keyword of its own text. |
| Expression.WordClassIgnoresCase | pyVHDLParser/Blocks/Expression/Expression.py:64-79 | The intended class of a word is the keyword of its lower-cased text when that text is an operator, and an identifier otherwise. |
| Expression.ReadingsPartOnCase | pyVHDLParser/Blocks/Expression/Expression.py:112-117 | The two readings classify a word differently exactly when the word is not in lower case and its lower-cased text is an operator. On lower-case text they agree. |
| Expression.UpperCaseOperator | pyVHDLParser/Blocks/Expression/Expression.py:114 | `AND` is an identifier as written and the keyword `and` as intended. |
| Expression.Terminate | pyVHDLParser/Blocks/Expression/Expression.py:87-108 | `";"` at depth 0 queues an expression block ending before it and pops one level. At any other depth it is a mismatch. `")"` at depth 0 queues a block through the boundary and pops two levels. The stack always shrinks. |
| Expression.Translate | pyVHDLParser/Blocks/Expression/Expression.py:83-85 | A character found in the table is retagged with its class; a missing entry fails. |
| Expression.Bracket | pyVHDLParser/Blocks/Expression/Expression.py:95-108 | `"("` is retagged as an opening bracket and increments the counter. `")"` above depth 0 is retagged as a closing bracket and decrements it. |
| Expression.Symbol | pyVHDLParser/Blocks/Expression/Expression.py:83-111 | Operators are translated through their tables and brackets adjust the depth. A counter that starts non-negative stays non-negative. |
| Expression.Term | pyVHDLParser/Blocks/Expression/Expression.py:112-119 | A word is classified as an operator or an identifier, verbatim under `AsWritten` and lower-cased under `AsIntended`. A literal is kept as it is. |
| Expression.InExpression | pyVHDLParser/Blocks/Expression/Expression.py:81-131 | The end tokens terminate the expression and symbols and terms are translated. A space moves to the whitespace state. A line break or comment queues a multi-part block before it, chains its own block and clears the marker. Anything else fails. Words are classified by the reading given. The depth never goes negative while the stack keeps its height. |
| Expression.Whitespace1 | pyVHDLParser/Blocks/Expression/Expression.py:134-200 | As `InExpression`, except that every significant token returns to `stateExpression` and fillers are a gap. |
| GenericList.Keyword | pyVHDLParser/Blocks/List/GenericList.py:43-63 | `"("` queues the open block through `"("`. It sets the resume state to the close block's state, pushes the opening state and sets the counter to 1. A space moves on; anything else is a state right after a word. |
| GenericList.Whitespace1 | pyVHDLParser/Blocks/List/GenericList.py:66-95 | `"("` opens the list as in `Keyword`. A line break after a multi-line comment stands alone; otherwise it splits the clause. Other fillers are a gap; anything else fails. |
| GenericList.Empty | pyVHDLParser/Blocks/List/GenericList.py:100-105 | `")"` right after `"("` pops one level and sets the marker to the `")"` token. No block is queued. |
| GenericList.Item | pyVHDLParser/Blocks/List/GenericList.py:106-129 | CONSTANT moves to the constant-keyword state. TYPE, PROCEDURE, FUNCTION, IMPURE and PURE are not supported. Any other word is the constant's name, with the marker on the replacement. |
| GenericList.OpeningParenthesis | pyVHDLParser/Blocks/List/GenericList.py:98-146 | `")"` empties the list, words and extended identifiers start an item, and fillers become blocks and keep the state. Anything else fails. |
| GenericList.OpenFiller | pyVHDLParser/Blocks/List/GenericList.py:130-144 | A space becomes an indentation or whitespace block and keeps the marker. A line break becomes a line-break block with the marker on it. A comment splits the open block from the marker before the comment. |
| GenericList.Typed | pyVHDLParser/Blocks/List/GenericList.py:277-300 | A word after the colon is the mode IN or, otherwise, the type mark. |
| GenericList.ConstantKeywordState | pyVHDLParser/Blocks/List/GenericList.py:151-164 | A space moves on; anything else is a state right after a word. |
| GenericList.ConstantGap1 | pyVHDLParser/Blocks/List/GenericList.py:167-228 | A word or extended identifier is the constant's name. Other tokens are a gap or fail. |
| GenericList.ConstantNameState | pyVHDLParser/Blocks/List/GenericList.py:231-245 | A state right after the name. |
| GenericList.ConstantGap2 | pyVHDLParser/Blocks/List/GenericList.py:248-274 | `":"` becomes a delimiter and moves to the colon state. Other tokens are a gap or fail. |
| GenericList.Colon1 | pyVHDLParser/Blocks/List/GenericList.py:277-300 | IN moves to the mode state and any other word to the subtype state. Other tokens end the word. |
| GenericList.ConstantGap3 | pyVHDLParser/Blocks/List/GenericList.py:303-337 | As `Colon1` for words, and an extended identifier is the type mark. |
| GenericList.InKeyword | pyVHDLParser/Blocks/List/GenericList.py:340-353 | A space moves on; anything else is a state right after a word. |
| GenericList.ConstantGap4 | pyVHDLParser/Blocks/List/GenericList.py:356-385 | A word or extended identifier is the type mark. |
| GenericList.ItemEnd | pyVHDLParser/Blocks/List/GenericList.py:390-410 | `":="` queues the item through it, pushes the expression over the delimiter state, clears the marker and sets the counter to 0. `";"` queues the item before it plus a one-token delimiter block and moves to the delimiter state. `")"` queues the item before it, pops and marks the boundary. |
| GenericList.SubtypeIndication | pyVHDLParser/Blocks/List/GenericList.py:388-423 | The tokens that end an item end it; anything else is a state right after a word. |
| GenericList.ConstantGap5 | pyVHDLParser/Blocks/List/GenericList.py:426-492 | The tokens that end an item end it; anything else is a gap or fails. |
| GenericList.ItemDelimiterAsWritten | pyVHDLParser/Blocks/List/GenericList.py:500-541 | As written, a comment after `";"` fails: the delimiter block is called with arguments its constructor does not take. Every other token is handled as a delimiter. |
| GenericList.ItemDelimiter | pyVHDLParser/Blocks/List/GenericList.py:500-541 | As intended, a comment splits the delimiter block before it. Words start the next item, and fillers become blocks. |
| GenericList.CommentAfterDelimiter | pyVHDLParser/Blocks/List/GenericList.py:534-538 | On a comment after `";"` the reading as written fails and the intended one splits the clause. |
| GenericList.ClosingParenthesis | pyVHDLParser/Blocks/List/GenericList.py:546-564 | `";"` queues the close block from the marker through `";"` and pops. A space moves on; anything else is a state right after a word. |
| GenericList.CloseGap | pyVHDLParser/Blocks/List/GenericList.py:567-591 | `";"` closes as in `ClosingParenthesis`. Line breaks, comments and whitespace follow the gap rules; anything else fails. |
| LegacyGenericList.Keyword | src/Blocks/List/GenericList.py:17-53 | `"("` queues the open block through `"("`. It sets the resume state to the close block's state, pushes the opening state and sets the counter to 1. Line breaks, comment starts and spaces end the word, and anything else fails. |
| LegacyGenericList.Whitespace1 | src/Blocks/List/GenericList.py:56-89 | `"("` opens the list. A line break ends the clause and a comment start splits it. Anything else fails with the unimported exception's name error. |
| LegacyGenericList.OpeningParenthesis | src/Blocks/List/GenericList.py:92-137 | `")"` pops and marks the token. A line break is retagged and pushes the line-break state with the marker on the replacement. Words start an item. A comment start splits the open block. |
| Common.ItemRemainder | src/Blocks/List/GenericList.py:146-165 | `"("` and `")"` count the depth. `")"` reaching 0 ends the item before it, pops and marks the boundary. `";"` ends the item only at depth 1. Every other token leaves state and counter unchanged. While the item stays on the stack the depth stays at least 1. Also src/Blocks/Common.py:218-237: the same for the sensitivity list, with `","` as the separator. |
| Common.ItemDelimiter | src/Blocks/List/GenericList.py:174-193 | The delimiter block over the marker is queued first, before the token is inspected. A line break or a space then moves to the opening state with the marker kept. A word becomes an identifier and starts the next item, with the marker on its replacement. Anything else fails. Also src/Blocks/Common.py:246-265: the same for the sensitivity list. |
| Common.ClosingParenthesis | src/Blocks/List/GenericList.py:203-235 | `";"` queues the close block from the marker through the boundary and pops. A line break pushes the line-break state, a comment start pushes the comment handler, and a space moves on. Also src/Blocks/Common.py:275-302: the same for the sensitivity list, which does not close on `";"` in this state. |
| Common.CloseWhitespace1 | src/Blocks/List/GenericList.py:238-265 | `";"` closes the list. A line break and a comment start are handled as in `ClosingParenthesis`; anything else fails. Also src/Blocks/Common.py:305-332: the same for the sensitivity list. |
| Common.CloseItem | src/Blocks/Common.py:220-229 | The closing `")"` ends the item before it and leaves the frame. An empty stack fails. |
| Common.DelimiterQueued | src/Blocks/Common.py:250-251 | The delimiter block is one block over the marker alone, and the marker stays. |
| Common.OpeningParenthesis | src/Blocks/Common.py:164-209 | Every token but a comment start: `")"` pops, a line break pushes the line-break state, a word starts an item, and anything else fails. |
| Common.SensitivityOpeningAsWritten | src/Blocks/Common.py:182-195 | As written, a comment start fails: the comment's resume state names an attribute the class lacks. |
| Common.SensitivityOpening | src/Blocks/Common.py:164-209 | As intended, a comment start splits the open block and resumes in the open state. |
| Common.Linebreak | src/Blocks/Common.py:48-60 | On whitespace, the token is retagged as indentation, an indentation block from the marker through the replacement is queued, and one level is popped. On any other token, one level is popped, an empty marker becomes the current token, and the token is reissued to the restored handler. An empty stack fails. |
| Common.Indent | src/Blocks/Common.py:50-53 | The whitespace branch of `stateLinebreak`. |
| Common.Resume | src/Blocks/Common.py:54-60 | The reissue branch of `stateLinebreak`, before the restored handler runs. |
| Common.IndentationWidth | src/Blocks/Common.py:64-71 | Each tab counts `__TABSIZE__` = 2 and every other character 1. So the width lies between the character count and twice it, and equals the count exactly when there is no tab. |
| Common.WidthOfConcatenation | src/Blocks/Common.py:66-71 | The width of concatenated text is the sum of the widths and does not depend on order. |
| LegacyEntity.Keyword | src/Blocks/Structural/Entity.py:20-50 | A space is retagged as a boundary and moves on. A line break is retagged and ends a multi-part name block with it, clears the marker and pushes the line-break state. A comment start ends the block before it, pushes the comment handler and then marks the character. Anything else fails. |
| LegacyEntity.Whitespace1 | src/Blocks/Structural/Entity.py:53-74 | A word becomes the entity's name. Besides it only a comment start is accepted. |
| LegacyEntity.Name | src/Blocks/Structural/Entity.py:77-106 | As `Keyword`, after the name. |
| LegacyEntity.Whitespace2 | src/Blocks/Structural/Entity.py:109-131 | IS ends the header as one block from the marker through IS and enters the declarative region. Besides it only a comment start is accepted. |
| LegacyEntity.DeclarativeRegion | src/Blocks/Structural/Entity.py:134-181 | A line break becomes an empty-line block with the marker on the replacement, and a space becomes an indentation block. GENERIC, PORT and CONSTANT push their handler. END and BEGIN switch state. Any other word fails. |
| LegacyEntity.BeginKeyword | src/Blocks/Structural/Entity.py:191-227 | As the declarative region, with PROCESS as the only statement and no BEGIN. |
| LegacyEntity.EndKeyword | src/Blocks/Structural/Entity.py:241-276 | `";"` ends the end block through the boundary and pops. Otherwise it behaves as a state right after a word. |
| LegacyEntity.EndWhitespace1 | src/Blocks/Structural/Entity.py:279-309 | `";"` closes. ENTITY moves to the keyword state, and any other word is the name. |
| LegacyEntity.EndEntityKeyword | src/Blocks/Structural/Entity.py:312-347 | `";"` closes; otherwise it behaves as a state right after a word. |
| LegacyEntity.EndWhitespace2 | src/Blocks/Structural/Entity.py:350-376 | `";"` closes and a word is the name. |
| LegacyEntity.EndEntityName | src/Blocks/Structural/Entity.py:379-411 | `";"` closes. There is no final raise, so an unhandled token changes nothing. |
| LegacyEntity.EndWhitespace3 | src/Blocks/Structural/Entity.py:414-436 | Only `";"` or a comment start may follow. |
| Component.Keyword | src/Blocks/Structural/Component.py:20-50 | As the older entity's keyword state: a line break ends a multi-part name block with its replacement and pushes the line-break state. A comment start ends the block before it and marks the character after the push. |
| Component.Whitespace1 | src/Blocks/Structural/Component.py:53-74 | A word becomes the component's name. |
| Component.Name | src/Blocks/Structural/Component.py:77-106 | As `Keyword`, after the name. |
| Component.Whitespace2 | src/Blocks/Structural/Component.py:109-131 | IS ends the header as one block through IS. |
| Component.DeclarativeRegion | src/Blocks/Structural/Component.py:134-173 | Only GENERIC, PORT and END are accepted. BEGIN and CONSTANT fail. |
| Component.EndKeyword | src/Blocks/Structural/Component.py:188-223 | `";"` ends the end block and pops. |
| Component.EndWhitespace1 | src/Blocks/Structural/Component.py:226-256 | COMPONENT goes to the keyword state, and any other word becomes an identifier. |
| Component.EndComponentKeyword | src/Blocks/Structural/Component.py:259-294 | `";"` closes; otherwise it behaves as a state right after a word. |
| Component.EndWhitespace2 | src/Blocks/Structural/Component.py:297-323 | `";"` closes and a word is the name. |
| Component.EndComponentName | src/Blocks/Structural/Component.py:326-358 | `";"` closes, and no token makes it raise. |
| Component.EndWhitespace3 | src/Blocks/Structural/Component.py:361-383 | Only `";"` or a comment start may follow. |
| BreakStatement.Keyword | src/Blocks/ControlStructure/Break.py:48-79 | A line break ends a multi-part break block before it, chains a line-break block on the replacement, clears the marker and pushes the line-break state. A comment start pushes the comment handler with the marker on the character. A space becomes a boundary. Anything else fails. |
| BreakStatement.Whitespace1 | src/Blocks/ControlStructure/Break.py:82-103 | A word becomes an identifier. Besides it only a comment start is accepted. |
| BreakStatement.Name | src/Blocks/ControlStructure/Break.py:106-136 | As `Keyword`, after the name. |
| BreakStatement.Whitespace2 | src/Blocks/ControlStructure/Break.py:139-161 | IS fails because its successor state is not defined. A comment start splits the clause, and anything else fails. |
| Function.Keyword | pyVHDLParser/Blocks/Sequential/Function.py:53-72 | A state right after FUNCTION. |
| Function.Whitespace1 | pyVHDLParser/Blocks/Sequential/Function.py:75-99 | A word is the designator. |
| Function.Name | pyVHDLParser/Blocks/Sequential/Function.py:102-130 | `"("` ends the name block before it and chains the parameter list's open block. It clears the marker, resumes after the list, pushes the list handler and sets the counter to 1. |
| Function.Whitespace2 | pyVHDLParser/Blocks/Sequential/Function.py:133-181 | `"("` opens the parameters as in `Name`. RETURN ends the name block before it and marks its replacement. GENERIC and PARAMETER end the block at the keyword and switch state without pushing. |
| Function.AfterParameterList | pyVHDLParser/Blocks/Sequential/Function.py:186-210 | RETURN ends the block after the list and moves to the return keyword. |
| Function.ReturnGap | pyVHDLParser/Blocks/Sequential/Function.py:213-237 | RETURN moves to the return keyword. |
| Function.Return | pyVHDLParser/Blocks/Sequential/Function.py:240-264 | Whitespace must follow RETURN, and a space always goes to the next gap. |
| Function.TypeGap | pyVHDLParser/Blocks/Sequential/Function.py:267-291 | A word is the return type. |
| Function.Type | pyVHDLParser/Blocks/Sequential/Function.py:294-322 | `";"` queues the second name block through `";"` and pops one level. A space always goes to the third gap. |
| Function.EndGap | pyVHDLParser/Blocks/Sequential/Function.py:325-354 | `";"` closes as in `Type`, and IS enters the declarative region. |
| Function.DeclarativeRegion | pyVHDLParser/Blocks/Sequential/Function.py:357-410 | Table keywords push their handler. BEGIN queues a one-token begin block and enters the sequential region. END goes to the end block. Fillers become one-token blocks, and anything else fails. |
| Procedure.Keyword | pyVHDLParser/Blocks/Sequential/Procedure.py:48-62 | A state right after PROCEDURE. |
| Procedure.Whitespace1 | pyVHDLParser/Blocks/Sequential/Procedure.py:65-89 | A word is the designator. |
| Procedure.Name | pyVHDLParser/Blocks/Sequential/Procedure.py:92-115 | `"("` resumes after the list, pushes the list handler and sets the counter to 1. |
| Procedure.Whitespace2 | pyVHDLParser/Blocks/Sequential/Procedure.py:118-167 | IS ends the name block before IS, chains a void block holding IS, marks IS and enters the declarative region. |
| Procedure.AfterParameterList | pyVHDLParser/Blocks/Sequential/Procedure.py:172-196 | `";"` queues a block through `";"` and pops one level. IS queues a block through IS and enters the declarative region. |
| Procedure.VoidGap | pyVHDLParser/Blocks/Sequential/Procedure.py:199-223 | IS moves to the declarative region. |
| Procedure.DeclarativeRegionAsWritten | pyVHDLParser/Blocks/Sequential/Procedure.py:226-278 | As written, every token fails: building the keyword table reads two function states that do not exist. |
| Procedure.DeclarativeRegion | pyVHDLParser/Blocks/Sequential/Procedure.py:226-278 | As intended, the keywords (IMPURE and PURE included) push their handler with the marker on the replacement. BEGIN queues a begin block and clears the marker. END marks its replacement. Other words fail. |
| Procedure.DeclarationRejected | pyVHDLParser/Blocks/Sequential/Procedure.py:227-258 | On a declaration keyword the reading as written fails, while the intended one pushes that keyword's handler. |
| Procedure.DeclarationIsNoExit | pyVHDLParser/Blocks/Sequential/Procedure.py:227-258 | No declaration keyword is BEGIN or END, so a declaration never leaves the region. |
| ObjectDeclarationGroups.StateParse | pyVHDLParser/Groups/ObjectDeclaration.py:44-96 | A single-part start block is a group of itself. A multi-part one ends at the first later single-part block of its class, skipping other blocks. Without one the rule raises "not found". On success exactly one group is emitted and exactly one level is popped. Also pyVHDLParser/Groups/ObjectDeclaration.py:63-77: the same rule for variables. Also pyVHDLParser/Groups/ObjectDeclaration.py:82-96: the same rule for signals. |
| ObjectDeclarationGroups.FirstClosing | pyVHDLParser/Groups/ObjectDeclaration.py:46-52 | The search finds the first later closing block, and finds none exactly when there is none. |
| ObjectDeclarationGroups.Pop | pyVHDLParser/Groups/ObjectDeclaration.py:56-58 | One saved state becomes the current one. An empty stack fails. |
| ObjectDeclarationGroups.EndIsUnique | pyVHDLParser/Groups/ObjectDeclaration.py:46-50 | A declaration has at most one end. |
| ObjectDeclarationGroups.EndExistsIffClosable | pyVHDLParser/Groups/ObjectDeclaration.py:46-52 | A multi-part declaration has an end exactly when some later block closes it. |
| ObjectDeclarationGroups.LeastClosingExists | pyVHDLParser/Groups/ObjectDeclaration.py:46-50 | If some later block closes the declaration, a first one does. |

## Left out

- The tokenizer and the token classes are not part of this model. Tokens are given as a sequence of lexemes (kind, text, positions). `token <= "kw"` is ASCII case-insensitive equality of the text.
- The replacement tokens (`KeywordToken(token)` and the like) are not part of this model either. They are taken to copy text and position, keep the predecessor, and take over its forward link, as the connectivity check of Testsuite.py:131-146 expects.
- Handlers whose classes are not part of this model (Comment, Process, PortList, ParameterList, Use, Constant, the group parser's other states, ...) are opaque push targets. Running one fails with `NotModelled`.
- The end blocks of entities, functions and procedures derive from the `EndBlock` of Generic1.py, which is not part of this model. They are opaque too. The begin blocks of functions and procedures are the modelled `SequentialBeginBlock`.
- The group parser of pyVHDLParser/Groups/__init__.py is not part of this model. `ObjectDeclarationGroups.Pop` takes its `Pop` to behave like the block parser's. The block stream it reads is given as a sequence.
- Class tests with `isinstance` compare the exact block class in `ObjectDeclarationGroups.Closes` and in the drain's line-break test. Subclasses of the closing block class are not considered.
- A queued chain whose forward links form a cycle makes the source drain forever. The model stops it with a `CyclicChain` failure.
- Draining.DrainReady: a queued chain that ends but passes through the last yielded block also fails with `CyclicChain`, although without a fusion Parser.py:122-129 would drain it and stop. The model's drain relies on the last yielded block staying off the chain, so it does not model that case.
- pyVHDLParser/Blocks/List/GenericList.py:37 and pyVHDLParser/Blocks/Expression/Expression.py:40 import `SkipableBlock` from pyVHDLParser/Blocks/__init__.py, which does not define it. So both modules raise `ImportError` when loaded, and so do the modules that import GenericList.py (Structural/Entity.py:39, Sequential/Function.py:40, Sequential/Procedure.py:39). The model treats the states of all of them as if the import succeeded.
- TokenToBlock.Turn: the model does not prove that the states `Run` reaches always have an acyclic queued chain, so it does not promise that the `CyclicChain` failure never occurs. Blocks are only linked by the constructor, which links forward to the newest block, but the drain's fusion adds a backward forward link, and an invariant that covers both is not part of this model.
- Debug printing, `__str__` formatting (except the indentation width, `Common.IndentationWidth`), `__eq__` of the states and `MetaBlock` reflection are left out: they do not change the parse.
- FrontEnd.py (command line, files, console colours, GraphML), the block-to-model stage, the simulation model and the group-level list handlers are left out. They are not part of the token-to-block stage.
- The current generation's Document.py is not part of this model. `StartOfDocument.TopLevel` models `stateDocument` of pyVHDLParser/Blocks/__init__.py:267-318.
- src/Blocks/ControlStructure/Break.py imports `LinebreakBlock` from src/Blocks/Common.py, which defines none. The model uses the line-break block kind and treats `LinebreakBlock.stateLinebreak` as an opaque handler.
- src/Blocks/List/GenericList.py raises `BlockParserException` without importing it. The resulting `NameError` is modelled as a failure `NameNotDefined`.
- pyVHDLParser/Blocks/Structural/Entity.py imports `BeginBlock` from Generic.py, which defines only `ConcurrentBeginBlock` and `SequentialBeginBlock`. The model treats the states as if the import succeeded, and BEGIN in the declarative region reaches the entity's begin block as an opaque handler.
- The commented-out tails of src/Blocks/Structural/Entity.py (after line 437), src/Blocks/Structural/Component.py (after line 385) and src/Blocks/Common.py (lines 86-161) are left out. So is src/Blocks/ControlStructure/Break.py's `stateDeclarativeRegion`, which is never defined.
- TokenToBlock.Step: the contract states only what every handler keeps (well-formedness, growing arenas). The per-handler effects are stated on the handlers themselves.
- TokenToBlock.Run: the contract states the first and last yielded blocks, the arena bounds and the intact token chain, not the whole yielded sequence. Each turn's yield is tied to the drain by `TokenToBlock.Turn`, and the drain is stated in full by `Draining.Drain`.
- Tokens.Lower: only ASCII capitals are lower-cased; Python's `str.lower` also maps non-ASCII letters. VHDL reserved words are ASCII.
- ObjectDeclarationGroups.StateParse: the error message's text is not modelled, only its kind and the block it is raised at.

## Findings

| source | as written | input that shows it | evidently intended | confidence | as-written member | corrected member |
|---|---|---|---|---|---|---|
| pyVHDLParser/Blocks/Sequential/Procedure.py:226-258 | The keyword table of `VoidBlock.stateDeclarativeRegion` names `Function.NameBlock.stateImpureKeyword` and `statePureKeyword`, which `Function.NameBlock` does not define. Building the table raises `AttributeError` on every token. | any token in the declarative region of `procedure p is`, e.g. `constant` | declaration keywords push their handler, and BEGIN and END leave the region | not executed | Procedure.DeclarativeRegionAsWritten | Procedure.DeclarativeRegion |
| pyVHDLParser/Blocks/Expression/Expression.py:114 | The word operators are looked up with the token's verbatim text. Reserved words in upper case become identifiers. | the word `AND` inside an expression | VHDL reserved words are case-insensitive, so `AND` is the operator `and` | not executed | Expression.WordClassAsWritten | Expression.WordClass |
| pyVHDLParser/Blocks/List/GenericList.py:534-538 | The comment branch of `DelimiterBlock.stateItemDelimiter` builds a `DelimiterBlock` with `endToken` and `multiPart`. `DelimiterBlock.__init__` (lines 496-497) takes only a predecessor and a token, so this raises `TypeError`. | `generic (a : integer; -- note` | the clause is split before the comment and a comment block follows, as in the other states | not executed | GenericList.ItemDelimiterAsWritten | GenericList.ItemDelimiter |
| src/Blocks/Common.py:182-195 | A comment start in `SensitivityList.OpenBlock.stateOpeningParenthesis` resumes at `cls.stateWhitespace1`, which `OpenBlock` does not define (`AttributeError`). | `process (-- note` | the open block is split before the comment and the list resumes in `stateOpeningParenthesis` | not executed | Common.SensitivityOpeningAsWritten | Common.SensitivityOpening |

The parser runs the as-written members under `AsWritten` and the corrected
members under `AsIntended`.
