/** `ConcurrentBeginBlock` and `SequentialBeginBlock`: the statement part of a
    design unit or subprogram after BEGIN. A subclass names its `END_BLOCK`,
    which is where END leads. */
module Generic {
  import opened Results
  import opened Tokens
  import opened Blocks
  import opened Handlers
  import opened Engine
  import opened Effects
  import opened Moves

  const ConcurrentStatements: Table := [
    ("assert", Opaque("AssertBlock.stateAssertKeyword")),
    ("process", Opaque("Process.OpenBlock.stateProcessKeyword"))
  ]

  const SequentialStatements: Table := [
    ("if", Opaque("IfConditionBlock.stateIfKeyword")),
    ("report", Opaque("ReportBlock.stateReportKeyword"))
  ]

  /** `stateConcurrentRegion`: whitespace, line breaks and comments become
      blocks of their own and clear the marker; ASSERT and PROCESS push their
      handler; END moves to the end block; anything else raises. */
  method ConcurrentStatementRegion(s: ParserState, endState: Handler) returns (r: Outcome)
    requires Ready(s)
    ensures RegionEffect(s, r, ConcurrentStatements, true, [("end", endState)])
  {
    r := Region(s, ConcurrentStatements, true, [("end", endState)]);
  }

  /** `stateSequentialRegion`: as the concurrent region, with IF and REPORT. */
  method SequentialStatementRegion(s: ParserState, endState: Handler) returns (r: Outcome)
    requires Ready(s)
    ensures RegionEffect(s, r, SequentialStatements, true, [("end", endState)])
  {
    r := Region(s, SequentialStatements, true, [("end", endState)]);
  }
}
