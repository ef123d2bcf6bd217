/** The handler a parser state runs next (`NextState`). Python stores a bound
    class method; the model names each modelled `state*` method by one
    constructor. Handlers whose source is not part of this model
    (comments, use clauses, port lists, processes, ...) are `Opaque`, named by
    their Python qualified name. */
module Handlers {

  datatype Handler =
    // pyVHDLParser/Blocks/__init__.py
    | Document
    // pyVHDLParser/Blocks/Structural/Entity.py
    | EntityKeyword | EntityWhitespace1 | EntityName | EntityWhitespace2 | EntityDeclarativeRegion
    // pyVHDLParser/Blocks/Structural/Architecture.py
    | ArchitectureKeyword | ArchitectureWhitespace1 | ArchitectureName | ArchitectureWhitespace2
    | ArchitectureOfKeyword | ArchitectureWhitespace3 | ArchitectureEntityName | ArchitectureWhitespace4
    | ArchitectureDeclarativeRegion | ArchitectureBeginKeyword
    | ArchitectureEndKeyword | ArchitectureEndWhitespace1 | ArchitectureEndArchitectureKeyword
    | ArchitectureEndWhitespace2 | ArchitectureEndArchitectureName | ArchitectureEndWhitespace3
    // pyVHDLParser/Blocks/Generic.py, for a begin block whose END_BLOCK
    // starts in `endState`
    | ConcurrentRegion(endState: Handler) | SequentialRegion(endState: Handler)
    // pyVHDLParser/Blocks/Expression/Expression.py
    | Expression | ExpressionWhitespace1
    // pyVHDLParser/Blocks/List/GenericList.py
    | GenericKeyword | GenericWhitespace1 | GenericOpeningParenthesis
    | ConstantKeyword | ConstantWhitespace1 | ConstantName | ConstantWhitespace2 | ConstantColon1
    | ConstantWhitespace3 | ConstantInKeyword | ConstantWhitespace4 | ConstantSubtypeIndication
    | ConstantWhitespace5 | GenericItemDelimiter | GenericClosingParenthesis | GenericCloseWhitespace1
    // pyVHDLParser/Blocks/Sequential/Function.py
    | FunctionKeyword | FunctionWhitespace1 | FunctionName | FunctionWhitespace2
    | ReturnAfterParameterList | ReturnWhitespace1 | ReturnKeyword | ReturnWhitespace2
    | ReturnType | ReturnWhitespace3 | FunctionDeclarativeRegion
    // pyVHDLParser/Blocks/Sequential/Procedure.py
    | ProcedureKeyword | ProcedureWhitespace1 | ProcedureName | ProcedureWhitespace2
    | VoidAfterParameterList | VoidWhitespace1 | ProcedureDeclarativeRegion
    // src/Blocks/Common.py
    | Linebreak
    | SensitivityOpeningParenthesis | SensitivityItemRemainder | SensitivityItemDelimiter
    | SensitivityClosingParenthesis | SensitivityCloseWhitespace1
    // src/Blocks/List/GenericList.py
    | OldGenericKeyword | OldGenericWhitespace1 | OldGenericOpeningParenthesis
    | OldItemRemainder | OldItemDelimiter | OldClosingParenthesis | OldCloseWhitespace1
    // src/Blocks/Structural/Entity.py
    | OldEntityKeyword | OldEntityWhitespace1 | OldEntityName | OldEntityWhitespace2
    | OldEntityDeclarativeRegion | OldEntityBeginKeyword
    | OldEntityEndKeyword | OldEntityEndWhitespace1 | OldEntityEndEntityKeyword
    | OldEntityEndWhitespace2 | OldEntityEndEntityName | OldEntityEndWhitespace3
    // src/Blocks/Structural/Component.py
    | ComponentKeyword | ComponentWhitespace1 | ComponentName | ComponentWhitespace2
    | ComponentDeclarativeRegion
    | ComponentEndKeyword | ComponentEndWhitespace1 | ComponentEndComponentKeyword
    | ComponentEndWhitespace2 | ComponentEndComponentName | ComponentEndWhitespace3
    // src/Blocks/ControlStructure/Break.py
    | BreakKeyword | BreakWhitespace1 | BreakName | BreakWhitespace2
    // a handler outside this model, by its Python name
    | Opaque(name: string)
}
