/** What the generator reads from the compiler, as plain values. The syntax
    trees and symbols of the compiler are not modelled; each record keeps the
    pieces of them the emitter uses, with the compiler's display strings taken
    as opaque text. */
module Symbols {
  import opened Wrappers

  /** How a parameter is passed (`ByValue` is the compiler's `RefKind.None`).
      `RefReadOnlyParameter` (`ref readonly`) is the one kind the emitter has no
      prefix for. */
  datatype RefKind = ByValue | Ref | Out | In | RefReadOnlyParameter

  /** The explicit default value of a parameter, by the cases the emitter
      distinguishes; `OtherDefault` holds the runtime's rendering of any other
      constant (numbers, characters, enums). */
  datatype DefaultValue =
    | NoDefault
    | NullDefault
    | BoolDefault(b: bool)
    | StringDefault(s: string)
    | OtherDefault(text: string)

  /** A method parameter: its type as a fully qualified display string (used in
      the declaration) and as a minimally qualified one (used in the hint name). */
  datatype Parameter = Parameter(
    refKind: RefKind,
    isParams: bool,
    qualifiedType: string,
    minimalType: string,
    name: string,
    default: DefaultValue)

  /** A method type parameter with its constraints: the constraint types as
      display strings and one flag per special constraint. */
  datatype TypeParameter = TypeParameter(
    name: string,
    constraintTypes: seq<string>,
    hasConstructorConstraint: bool,
    hasNotNullConstraint: bool,
    hasReferenceTypeConstraint: bool,
    hasUnmanagedTypeConstraint: bool,
    hasValueTypeConstraint: bool)

  /** The method symbol of a method member. */
  datatype MethodSymbol = MethodSymbol(
    name: string,
    returnsVoid: bool,
    returnType: string,
    typeParameters: seq<TypeParameter>,
    parameters: seq<Parameter>,
    isExtensionMethod: bool)

  /** A type declaration: its keyword (`class`, `struct`, `interface`, `record`),
      its identifier, and its type parameter list when the declaration has one
      (an empty list is possible in a declaration that does not parse cleanly). */
  datatype TypeDecl = TypeDecl(keyword: string, identifier: string, typeParameterList: Option<seq<string>>)

  /** The symbol of a member that is neither a type declaration nor a method
      declaration: a named type (an enum or a delegate) with its type
      parameter count, a method that is not declared as a method (a
      constructor, a destructor, an operator or a conversion), or anything
      else (a property, an indexer, an event, a field). */
  datatype OtherSymbol =
    | NamedTypeSymbol(arity: nat)
    | MethodLikeSymbol(methodSymbol: MethodSymbol)
    | PlainSymbol

  /** The declaration marked with the attribute, by its syntax. Any other
      member gets only the attribute written, but its symbol still shapes its
      hint name. */
  datatype MemberKind =
    | TypeMember(decl: TypeDecl)
    | MethodMember(symbol: MethodSymbol)
    | OtherMember(name: string, otherSymbol: OtherSymbol)

  /** An ancestor of a declaration in the syntax tree. */
  datatype SyntaxParent =
    | NamespaceParent(name: string)            // `namespace A.B { ... }`
    | FileScopedNamespaceParent(name: string)  // `namespace A.B;`
    | TypeParent(decl: TypeDecl)
    | OtherParent

  /** An attribute argument: a constant of the attribute's argument, or an
      error constant when the argument does not bind. `NullConstant` is a
      `null`; `OtherConstant` is a constant of a type the emitter never casts
      to successfully. */
  datatype TypedConstant =
    | ErrorConstant
    | IntConstant(i: int)
    | StringConstant(s: string)
    | NullConstant
    | OtherConstant

  datatype NamedArgument = NamedArgument(key: string, value: TypedConstant)

  /** An applied attribute: whether its class is the DnnDeprecated attribute's,
      and its positional and named arguments. */
  datatype AttributeData = AttributeData(
    isDnnDeprecated: bool,
    constructorArguments: seq<TypedConstant>,
    namedArguments: seq<NamedArgument>)

  /** A member marked with the attribute, as the generator sees it: its
      modifier tokens, its ancestors in the syntax tree from the innermost
      outward, whether the compiler declares a symbol for it, the attributes on
      that symbol and what kind of member it is. */
  datatype MemberDecl = MemberDecl(
    modifiers: seq<string>,
    ancestors: seq<SyntaxParent>,
    hasSymbol: bool,
    attributes: seq<AttributeData>,
    kind: MemberKind)

  /** The values of one `[DnnDeprecated(...)]`. */
  datatype Deprecation = Deprecation(
    majorVersion: int,
    minorVersion: int,
    patchVersion: int,
    replacement: string,
    removalVersion: int)

  /** The exceptions the generator can raise:
      - the `ArgumentOutOfRangeException` for an unexpected ref kind;
      - the failing casts and index of badly shaped attribute arguments;
      - the `NullReferenceException` of a `null` replacement text, trimmed
        when the attribute line is written;
      - the `ArgumentException` of adding a second file under a hint name
        already used in the pass. */
  datatype GeneratorError =
    | UnexpectedRefKind(kind: RefKind)
    | InvalidAttributeArguments
    | NullReplacement
    | DuplicateHintName(hint: string)
}
