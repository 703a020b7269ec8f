/**
 * The part of the Solidity parser's syntax tree (parsed with locations) that the
 * extension reads: contracts, their functions, function parameters and their
 * type names, and source locations.
 */
module SolidityAst {
  import opened Wrappers

  /** The parser numbers lines from 1 and columns from 0. */
  type Line = n: int | 1 <= n witness 1

  datatype SourcePosition = SourcePosition(line: Line, column: nat)

  datatype Location = Location(start: SourcePosition, end: SourcePosition)

  datatype Visibility = Default | External | Public | Internal | Private

  /** The value of a type name's `name` property. */
  datatype TypeNameName = StringName(value: string) | NonStringName

  /**
   * A parameter's type name. Elementary types carry a string `name`; user-defined,
   * array, mapping and function types carry no `name` property (`None`).
   */
  datatype TypeName = TypeName(name: Option<TypeNameName>)

  /** A parameter declaration; `typeName` is `null` (`None`) when the parser gives none. */
  datatype Parameter = Parameter(typeName: Option<TypeName>)

  /** A function, constructor, fallback or receive definition. Unnamed ones have `name` null. */
  datatype FunctionDefinition = FunctionDefinition(
    name: Option<string>,
    parameters: seq<Parameter>,
    isConstructor: bool,
    isVirtual: bool,
    isFallback: bool,
    visibility: Visibility,
    loc: Location)

  datatype ContractKind = ContractKind | InterfaceKind | LibraryKind | AbstractKind

  datatype ContractDefinition = ContractDefinition(
    name: string,
    kind: ContractKind,
    functions: seq<FunctionDefinition>)

  /** A parsed file: its contract definitions in source order. */
  datatype SourceUnit = SourceUnit(contracts: seq<ContractDefinition>)
}
