/** `Entity.NameBlock`: the header `ENTITY name IS` of an entity declaration
    (section 3.2 of IEEE 1076-2008) and the dispatch of its declarative
    region. */
module Entity {
  import opened Results
  import opened Tokens
  import opened Blocks
  import opened Handlers
  import opened Engine
  import opened Effects
  import opened Moves

  const NameBlock := "Entity.NameBlock"

  /** The declarative-region keywords and the handler each pushes. */
  const Declarations: Table := [
    ("use", Opaque("Use.UseBlock.stateUseKeyword")),
    ("generic", GenericKeyword),
    ("port", Opaque("PortList.OpenBlock.statePortKeyword")),
    ("constant", Opaque("Constant.ConstantBlock.stateConstantKeyword"))
  ]

  /** The begin and end blocks of an entity come from `Generic1`, which is
      not part of this model; `EndBlock` expects the keyword ENTITY and makes
      it optional. */
  const BeginState := Opaque("Entity.BeginBlock.stateBeginKeyword")
  const EndState := Opaque("Entity.EndBlock.stateEndKeyword")
  const EndKeyword := "entity"
  const EndKeywordIsOptional := true

  /** `stateEntityKeyword`: whitespace must follow ENTITY. */
  method Keyword(s: ParserState) returns (r: Outcome)
    requires Ready(s)
    ensures AfterWordEffect(s, r, NameBlock, EntityWhitespace1, true)
  {
    r := AfterWord(s, NameBlock, EntityWhitespace1, true);
  }

  /** `stateWhitespace1`: a word is the entity's name; whitespace between the
      keyword and the name is a gap that keeps comments as blocks of their
      own. */
  method Whitespace1(s: ParserState) returns (r: Outcome)
    requires Ready(s)
    ensures r.Success? ==> Evolves(s, r.value)
    ensures Tok(s).kind == StringTok ==>
      r.Success? && Moved(s, r.value, EntityName) && Retagged(s, r.value, IdentifierTok) &&
      NoBlock(s, r.value) && r.value.marker == s.marker
    ensures Tok(s).kind != StringTok ==> GapEffect(s, r, NameBlock, false, true)
  {
    if Tok(s).kind == StringTok {
      var t := RetagTo(s, IdentifierTok, EntityName);
      r := Success(t);
    } else {
      r := Gap(s, NameBlock, false, true);
    }
  }

  /** `stateEntityName`: whitespace must follow the name. */
  method Name(s: ParserState) returns (r: Outcome)
    requires Ready(s)
    ensures AfterWordEffect(s, r, NameBlock, EntityWhitespace2, true)
  {
    r := AfterWord(s, NameBlock, EntityWhitespace2, true);
  }

  /** `stateWhitespace2`: IS closes the header as one block from the marker
      through IS and enters the declarative region; whitespace before IS is a
      gap in which a comment splits the header. */
  method Whitespace2(s: ParserState) returns (r: Outcome)
    requires Ready(s)
    ensures r.Success? ==> Evolves(s, r.value)
    ensures IsWord(s, "is") ==>
      r.Success? && Moved(s, r.value, EntityDeclarativeRegion) &&
      EndedWith(s, r.value, KeywordTok("is"), NameBlock) && r.value.marker.None?
    ensures !IsWord(s, "is") ==> GapEffect(s, r, NameBlock, true, true)
  {
    if IsWord(s, "is") {
      var t := CloseTo(s, KeywordTok("is"), NameBlock, EntityDeclarativeRegion);
      r := Success(t);
    } else {
      r := Gap(s, NameBlock, true, true);
    }
  }

  /** The words that switch state without pushing. */
  const Switches: Table := [("begin", BeginState), ("end", EndState)]

  /** `stateDeclarativeRegion`: a space becomes a block of its own and keeps
      the marker, a line break or comment becomes a block of its own and
      clears it; a declaration keyword pushes its handler; BEGIN and END
      switch state without pushing; any other token raises. */
  method DeclarativeRegion(s: ParserState) returns (r: Outcome)
    requires Ready(s)
    ensures RegionEffect(s, r, Declarations, false, Switches)
  {
    r := Region(s, Declarations, false, Switches);
  }
}
