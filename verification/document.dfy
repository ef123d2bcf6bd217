/** `StartOfDocumentBlock.stateDocument`, the handler the parse starts in and
    returns to between top-level design units. */
module StartOfDocument {
  import opened Results
  import opened Tokens
  import opened Blocks
  import opened Handlers
  import opened Engine
  import opened Effects
  import opened Moves

  /** The top-level keywords and the handler each pushes. */
  const Keywords: Table := [
    ("library", Opaque("Library.LibraryBlock.stateLibraryKeyword")),
    ("use", Opaque("Use.UseBlock.stateUseKeyword")),
    ("context", Opaque("Context.NameBlock.stateContextKeyword")),
    ("entity", EntityKeyword),
    ("architecture", ArchitectureKeyword),
    ("package", Opaque("Package.NameBlock.statePackageKeyword"))
  ]

  /** The tokens `stateDocument` accepts. */
  predicate Accepts(s: ParserState)
    requires WF(s)
  {
    var k := Tok(s).kind;
    IsFiller(k) || k == EndOfDocumentTok ||
    (k == StringTok && Lookup(Keywords, Word(s)).Some?)
  }

  /** Whitespace, line breaks and comments each become a one-token block and
      clear the marker; a top-level keyword pushes its handler with the marker
      at the replacement keyword; the end of the document queues an unlinked
      end-of-document block; anything else raises. */
  method TopLevel(s: ParserState) returns (r: Outcome)
    requires Ready(s)
    ensures r.Success? ==> Evolves(s, r.value)
    ensures IsFiller(Tok(s).kind) ==>
      r.Success? && Kept(s, r.value) && r.value.marker.None? && OneTokenBlock(s, r.value, FillerBlock(Tok(s).kind))
    ensures Tok(s).kind == StringTok && Lookup(Keywords, Word(s)).Some? ==>
      r.Success? && KeywordPushed(s, r.value, Word(s), Lookup(Keywords, Word(s)).value)
    ensures Tok(s).kind == EndOfDocumentTok ==>
      r.Success? && Kept(s, r.value) && r.value.marker == s.marker && NoRetag(s, r.value) &&
      r.value.newBlock == Some(|s.blocks|) &&
      r.value.blocks == s.blocks + [Block(EndOfDocumentBlk, None, Some(s.token), false, None, None)]
    ensures r.Failure? <==> !Accepts(s)
    ensures r.Failure? ==> r.error == ParseError(UnexpectedToken, s.token)
  {
    var k := Tok(s).kind;
    if IsFiller(k) {
      var t := Filler(s, true);
      r := Success(t);
    } else if k == StringTok && Lookup(Keywords, Word(s)).Some? {
      var t := PushKeyword(s, Word(s), Lookup(Keywords, Word(s)).value);
      r := Success(t);
    } else if k == EndOfDocumentTok {
      r := Success(QueueEndOfDocument(s));
    } else {
      r := Fail(s, UnexpectedToken);
    }
  }
}
