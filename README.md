# DnnDeprecated source generator — a Dafny model

DNN Platform marks members it is phasing out with the `DnnDeprecated`
attribute. This attribute records the version the member was deprecated in
(major, minor, patch), a replacement text and the major version it will be
removed in. A Roslyn incremental source generator, `DnnDeprecatedGenerator`,
turns each such attribute into an ordinary `System.Obsolete` attribute. For
every marked member it writes a separate generated file with these parts:

- the `// <auto-generated/>` marker and a file-scoped `namespace` line;
- every containing type reopened as a `partial` type, outermost first, one
  indentation level per type;
- the attribute `[global::System.Obsolete(@"Deprecated in DotNetNuke
  M.m.p. <replacement>. Scheduled for removal in vR.0.0.")]`;
- the member's own partial declaration:
  - for a type, its header and an empty body;
  - for a method, its full signature with type parameters, parameters,
    default values and `where` constraints, ending in `;`;
- the closing braces and a blank line.

A member that lacks the `partial` modifier gets the error diagnostic
`DNN1001` ("Must be partial") instead. Each file is added under a hint
name. The hint name is built from:

- the namespace;
- the containing types, with the arity mark `` `n `` for generic ones;
- the member's name;
- for a method, its arity and its parameter types, with `?`, `<` and `>`
  made safe. The same holds for a constructor, destructor, operator or
  conversion: it has a method symbol, although only the attribute is
  written for it.

The hint name is not always unique. Overloads whose parameter types have the
same minimally qualified name, such as `M(A.Foo)` and `M(B.Foo)`, get the
same hint. Adding the second file then throws.

The model follows the generator's own structure:

| Dafny module | what it models |
|---|---|
| `Symbols` | the syntax and symbol facts the generator reads: declarations, type parameters and their constraints, parameters with ref kind and default, attribute arguments, and a member's chain of ancestors |
| `IndentedText` | the indented text writer as a class. It records finished lines as `(indent, text)` pairs. A line's indent is fixed by its first write, and the indent level never goes below 0. |
| `Declarations` | `OpenPartialType`, `WritePartialMethod` and its helpers, and `GetParameterPrefix`. Each writing method is proved against a function that gives the lines it produces. |
| `HintNames` | `GetHintName`, proved against the function `HintName` |
| `Namespaces` | `GetNamespace`, proved against `NamespaceOf` |
| `Deprecations` | `GetDeprecation`, proved against `DeprecationOf` |
| `Emitter` | the body of `Execute` that writes one file, proved against `FileLines`, and the layout of that file |
| `Generator` | the partial check and `Execute`'s loop over the members, proved against `Generate`. `Generate` is the pass `Pass` with `ProcessMember` as the step for one member. Adding each file under its hint is part of the loop. |
| `Text`, `Wrappers` | string helpers (join, split, character replacement, verbatim literals, integer formatting) and `Option`/`Result` |

Exceptions thrown by the generator become `Err` results. There are four:

- `GetParameterPrefix` on a ref kind it does not know;
- an attribute argument that does not cast;
- a `null` replacement (`(string)null!`), which throws when it is trimmed
  at line 96. The model reports it when the attribute is read, because
  nothing in between can fail. A removal version that does not bind still
  skips the attribute first, as in the source;
- `AddSource` (line 117) given a hint name that was already added. Hints are
  compared without regard to case, with `.cs` appended unless already
  present.

Such an exception escapes `Execute`, so the model's `Execute` returns `Err`
for the whole pass.

## Model

| member | source | states |
|---|---|---|
| Declarations.GetParameterPrefix | DotNetNuke.Internal.SourceGenerators/DnnDeprecatedGenerator.cs:372-382 | fails with the unexpected-ref-kind error exactly for a ref kind other than none/ref/out/in; the prefix is empty exactly for a by-value parameter, and otherwise is one word followed by a single space |
| Declarations.PrefixDeterminesRefKind | DotNetNuke.Internal.SourceGenerators/DnnDeprecatedGenerator.cs:374-381 | distinct ref kinds get distinct prefixes, so the prefix identifies the ref kind |
| Declarations.OpenPartialType | DotNetNuke.Internal.SourceGenerators/DnnDeprecatedGenerator.cs:121-156 | appends exactly two lines: `partial <keyword> <identifier>` with `<A,B>` when the declaration has a type parameter list (even an empty one), ending the current line, then `{` at the same level; the level is unchanged |
| Declarations.MethodTypeParameterListRoundTrip | DotNetNuke.Internal.SourceGenerators/DnnDeprecatedGenerator.cs:179-202 | without type parameters nothing is written; otherwise the list is bracketed and splitting its inside at commas gives back the type parameter names in order |
| Declarations.WriteMethodTypeParameters | DotNetNuke.Internal.SourceGenerators/DnnDeprecatedGenerator.cs:179-202 | leaves the writer untouched without type parameters; otherwise extends the current line by the type parameter list and ends no line |
| Declarations.ConstraintClausesShape | DotNetNuke.Internal.SourceGenerators/DnnDeprecatedGenerator.cs:207-218 | there is at most one `where` clause per type parameter, and none at all exactly when no type parameter has a constraint |
| Declarations.ConstraintItemsOrder | DotNetNuke.Internal.SourceGenerators/DnnDeprecatedGenerator.cs:209-299 | a type parameter has a clause exactly when it has a constraint; the clause starts with the explicit constraint types in order; `new()` is last and appears after them exactly when the constructor constraint is set |
| Declarations.WriteConstraintList | DotNetNuke.Internal.SourceGenerators/DnnDeprecatedGenerator.cs:220-299 | writes the constraint types, `notnull`, `class`, `unmanaged`, `struct` and `new()` that apply, separated by single commas with no leading comma, and nothing when none apply |
| Declarations.WriteConstraintTypes | DotNetNuke.Internal.SourceGenerators/DnnDeprecatedGenerator.cs:220-233 | writes the explicit constraint types in order, separated by single commas; no constraint has been written exactly when there are none |
| Declarations.WriteConstraint | DotNetNuke.Internal.SourceGenerators/DnnDeprecatedGenerator.cs:223-232 | writes one constraint, with a comma before it unless it is the first of its clause; afterwards it is no longer the first, and no line or level changes |
| Declarations.WriteFlagConstraint | DotNetNuke.Internal.SourceGenerators/DnnDeprecatedGenerator.cs:235-299 | adds the special constraint after those already written, with a comma unless it is the first, exactly when its flag is set; otherwise it writes nothing |
| Declarations.WriteLastConstraints | DotNetNuke.Internal.SourceGenerators/DnnDeprecatedGenerator.cs:263-299 | after the earlier constraints, adds `unmanaged`, `struct` and `new()` in that order for the flags that are set, with a comma before each unless it is the first |
| Declarations.WriteConstraintClause | DotNetNuke.Internal.SourceGenerators/DnnDeprecatedGenerator.cs:207-300 | starts a new line with `where T : ` and the constraint list for a type parameter that has a constraint; leaves the writer untouched otherwise |
| Declarations.WriteMethodTypeConstraints | DotNetNuke.Internal.SourceGenerators/DnnDeprecatedGenerator.cs:204-303 | writes the `where` clauses, each on its own line one level deeper, with the last line left open; writes nothing without clauses; the level is restored afterwards |
| Declarations.StringDefaultDenotesValue | DotNetNuke.Internal.SourceGenerators/DnnDeprecatedGenerator.cs:355-359 | the verbatim literal written for a string default reads back as exactly the default's value, whatever quotes it holds |
| Declarations.WriteVerbatim | DotNetNuke.Internal.SourceGenerators/DnnDeprecatedGenerator.cs:356-358 | extends the current line by `@"`, the string with every quote doubled, and `"`, which reads back as the string itself |
| Declarations.WriteDefaultValue | DotNetNuke.Internal.SourceGenerators/DnnDeprecatedGenerator.cs:341-364 | writes nothing for a parameter without an explicit default; otherwise writes ` = ` and then `null`, `true`, `false`, a verbatim string with doubled quotes, or the value's text |
| Declarations.WriteParameterModifiers | DotNetNuke.Internal.SourceGenerators/DnnDeprecatedGenerator.cs:329-334 | writes `this ` when asked and then the ref kind's prefix; fails exactly when the ref kind has no prefix |
| Declarations.WriteParameterDeclaration | DotNetNuke.Internal.SourceGenerators/DnnDeprecatedGenerator.cs:335-364 | writes `params ` for a parameter array, the type and the name separated by a space, then the default text |
| Declarations.WriteParameter | DotNetNuke.Internal.SourceGenerators/DnnDeprecatedGenerator.cs:329-364 | writes one whole parameter on the current line; fails exactly when its ref kind has no prefix |
| Declarations.ParameterTextsThisFirstOnly | DotNetNuke.Internal.SourceGenerators/DnnDeprecatedGenerator.cs:329-332 | one text per parameter; with the `FirstParameterOnly` placement no parameter after the first starts with `this `; the texts as written (`EveryParameter`) differ from these only by a `this ` before the second and later parameters of an extension method |
| Declarations.ExtensionThisOnEveryParameter | DotNetNuke.Internal.SourceGenerators/DnnDeprecatedGenerator.cs:329-332 | with the placement the source uses (`EveryParameter`), the second parameter of an extension method also starts with `this `; with `FirstParameterOnly` only the first does |
| Declarations.ParameterBlockLines | DotNetNuke.Internal.SourceGenerators/DnnDeprecatedGenerator.cs:305-370 | an empty parameter list is `()` on the method's line; otherwise `(` ends that line, each parameter sits on its own line one level deeper followed by a comma, and the last is followed by `)` |
| Declarations.WriteNextParameter | DotNetNuke.Internal.SourceGenerators/DnnDeprecatedGenerator.cs:318-365 | ends the previous parameter's line with `,` unless this is the first parameter, then writes this one, with `this ` before it when the placement puts it there (for `EveryParameter`, whenever the method is an extension method); fails exactly when its ref kind has no prefix |
| Declarations.WriteParameterLines | DotNetNuke.Internal.SourceGenerators/DnnDeprecatedGenerator.cs:314-365 | succeeds exactly when every ref kind has a prefix; the parameter lines written are those of the parameter block for the given placement of `this ` |
| Declarations.WriteParameterBlock | DotNetNuke.Internal.SourceGenerators/DnnDeprecatedGenerator.cs:314-369 | succeeds exactly when every ref kind has a prefix; the written lines are the parameter block for the given placement of `this `, with `)` written back at the method's level |
| Declarations.WriteMethodParameters | DotNetNuke.Internal.SourceGenerators/DnnDeprecatedGenerator.cs:305-370 | succeeds exactly when every parameter's ref kind has a prefix; the lines written are the parameter block for the given placement of `this `, and the level is unchanged |
| Declarations.WriteMethodHead | DotNetNuke.Internal.SourceGenerators/DnnDeprecatedGenerator.cs:171-173 | extends the current line by the modifiers, `void` or the return type, the name and the type parameter list |
| Declarations.MethodLines | DotNetNuke.Internal.SourceGenerators/DnnDeprecatedGenerator.cs:158-177 | a method declaration takes one line per parameter, one for its head, and one per `where` clause |
| Declarations.WriteMethodTail | DotNetNuke.Internal.SourceGenerators/DnnDeprecatedGenerator.cs:174-176 | after the head, writes the parameters (with `this ` as the placement puts it), the clauses and the final `;`; succeeds exactly when every ref kind has a prefix |
| Declarations.WritePartialMethod | DotNetNuke.Internal.SourceGenerators/DnnDeprecatedGenerator.cs:158-177 | succeeds exactly when every ref kind has a prefix; then it appends exactly the lines of the method declaration for the given placement of `this ` (the source's is `EveryParameter`), ends the last one with `;`, and restores the level |
| HintNames.SanitizeRemovesMarks | DotNetNuke.Internal.SourceGenerators/DnnDeprecatedGenerator.cs:426 | a sanitized parameter type holds no `?`, `<` or `>` |
| HintNames.SplitTypePath | DotNetNuke.Internal.SourceGenerators/DnnDeprecatedGenerator.cs:386-394 | split at dots, the namespace followed by the containing types reads back as the namespace's parts plus one part per containing type, outermost first |
| HintNames.NonMethodHintSegments | DotNetNuke.Internal.SourceGenerators/DnnDeprecatedGenerator.cs:384-405 | the hint of a member without a method symbol always succeeds; split at dots it is exactly the namespace's parts, one part per containing type and the member's own part, with nothing after it |
| HintNames.MethodHintParametersHaveNoMarks | DotNetNuke.Internal.SourceGenerators/DnnDeprecatedGenerator.cs:407-431 | the hint of any method symbol (a method, constructor, destructor, operator or conversion) ends with its parameter list in parentheses, and that list holds no `?`, `<` or `>` |
| HintNames.AppendTypeSegment | DotNetNuke.Internal.SourceGenerators/DnnDeprecatedGenerator.cs:389-393 | appends `.Id`, plus the arity mark when the type lists at least one type parameter |
| HintNames.AppendContainingTypes | DotNetNuke.Internal.SourceGenerators/DnnDeprecatedGenerator.cs:387-394 | appends one segment per containing type, outermost first |
| HintNames.AppendHintParameter | DotNetNuke.Internal.SourceGenerators/DnnDeprecatedGenerator.cs:416-426 | appends a comma unless this is the first parameter, then the prefix and the sanitized type; fails exactly when the ref kind has no prefix |
| HintNames.AppendParameters | DotNetNuke.Internal.SourceGenerators/DnnDeprecatedGenerator.cs:412-429 | appends the comma-separated parameters in parentheses; fails with the unexpected-ref-kind error exactly when some ref kind has no prefix |
| HintNames.AppendMemberSegment | DotNetNuke.Internal.SourceGenerators/DnnDeprecatedGenerator.cs:396-400 | appends `.Name`, plus the arity mark for a named type that is generic |
| HintNames.GetHintName | DotNetNuke.Internal.SourceGenerators/DnnDeprecatedGenerator.cs:384-432 | returns the hint name: the namespace, the containing types and the member, plus, for any member with a method symbol, its arity and parameters; it fails as the prefix lookup does |
| HintNames.OverloadsCanShareHint | DotNetNuke.Internal.SourceGenerators/DnnDeprecatedGenerator.cs:425 | overloads `M(A.Foo)` and `M(B.Foo)` in namespace `N` get the same hint `N.M(Foo)`, because the hint uses minimally qualified parameter types |
| HintNames.MethodHintDeterminesParameters | DotNetNuke.Internal.SourceGenerators/DnnDeprecatedGenerator.cs:407-431 | (iff) two method symbols with the same name and arity in the same place, whose parameter parts are non-empty and hold no comma, get the same hint exactly when their parameter parts agree one by one |
| Namespaces.FirstNamespaceFrom | DotNetNuke.Internal.SourceGenerators/DnnDeprecatedGenerator.cs:515-521 | finds the first ancestor that is a namespace declaration, and no earlier ancestor is one |
| Namespaces.OuterNamesRun | DotNetNuke.Internal.SourceGenerators/DnnDeprecatedGenerator.cs:528-538 | entry `i` of the chain names the namespace ancestor `i` places out from its outer end, so the names run outermost first |
| Namespaces.OuterNamesEnd | DotNetNuke.Internal.SourceGenerators/DnnDeprecatedGenerator.cs:529-534 | the chain extends outward only through block namespaces, and stops at the first ancestor that is not one |
| Namespaces.GlobalNamespace | DotNetNuke.Internal.SourceGenerators/DnnDeprecatedGenerator.cs:523-526 | no namespace is found exactly when no ancestor is a namespace declaration, and the name is then empty |
| Namespaces.NamespaceSegments | DotNetNuke.Internal.SourceGenerators/DnnDeprecatedGenerator.cs:528-540 | split at dots, the name is the dotted parts of each namespace in the chain, outermost first |
| Namespaces.GetNamespace | DotNetNuke.Internal.SourceGenerators/DnnDeprecatedGenerator.cs:513-541 | returns the namespace name as specified above |
| Deprecations.FirstDeprecatedFrom | DotNetNuke.Internal.SourceGenerators/DnnDeprecatedGenerator.cs:466-471 | finds the first attribute of the DnnDeprecated class, and no earlier attribute is of that class |
| Deprecations.FirstRemovalFrom | DotNetNuke.Internal.SourceGenerators/DnnDeprecatedGenerator.cs:488-493 | finds the first named argument whose key is `RemovalVersion` (compared ordinally), and no earlier argument has that key |
| Deprecations.HasErrorArgument | DotNetNuke.Internal.SourceGenerators/DnnDeprecatedGenerator.cs:474-480 | true exactly when some constructor argument failed to bind |
| Deprecations.ReadDeprecation | DotNetNuke.Internal.SourceGenerators/DnnDeprecatedGenerator.cs:473-507 | reads one attribute as `DeprecationValues`, `DeprecationSkipped` and `DeprecationFails` characterise |
| Deprecations.GetDeprecation | DotNetNuke.Internal.SourceGenerators/DnnDeprecatedGenerator.cs:464-511 | reads the member's first DnnDeprecated attribute, or gives none without one |
| Deprecations.FirstAttributeDecides | DotNetNuke.Internal.SourceGenerators/DnnDeprecatedGenerator.cs:466-508 | only the first DnnDeprecated attribute counts, whatever attributes follow it |
| Deprecations.NoAttributeNoDeprecation | DotNetNuke.Internal.SourceGenerators/DnnDeprecatedGenerator.cs:510 | a member without the attribute has no deprecation |
| Deprecations.DeprecationValues | DotNetNuke.Internal.SourceGenerators/DnnDeprecatedGenerator.cs:473-507 | (iff) an attribute yields a deprecation exactly when its constructor arguments are three integers and a string, none an error; the versions and the replacement are those arguments, and the removal version is the first `RemovalVersion` argument's integer or else the default |
| Deprecations.DeprecationSkipped | DotNetNuke.Internal.SourceGenerators/DnnDeprecatedGenerator.cs:474-498 | (iff) an attribute yields nothing exactly when a constructor argument failed to bind, or the arguments cast and the first `RemovalVersion` argument failed to bind |
| Deprecations.DeprecationFails | DotNetNuke.Internal.SourceGenerators/DnnDeprecatedGenerator.cs:482-502 | (iff) reading fails exactly when everything binds but a cast does not hold: too few constructor arguments, one of the wrong type, or a removal version that is not an integer; or when the replacement is `null` and the attribute is not skipped |
| Emitter.MessageLiteralDenotesMessage | DotNetNuke.Internal.SourceGenerators/DnnDeprecatedGenerator.cs:96 | the verbatim literal written in the attribute denotes exactly `Deprecated in DotNetNuke M.m.p. <replacement without trailing dots>. Scheduled for removal in vR.0.0.`, whatever quotes the replacement holds |
| Emitter.MessagePartsPlain | DotNetNuke.Internal.SourceGenerators/DnnDeprecatedGenerator.cs:96 | the fixed parts of the message, versions included, hold no quote, so only the replacement needs escaping |
| Emitter.ContainingTypesRun | DotNetNuke.Internal.SourceGenerators/DnnDeprecatedGenerator.cs:74-80 | the containing types are the innermost ancestors that are type declarations, taken up to the first that is not one and listed outermost first, as the stack enumerates them |
| Emitter.CollectContainingTypes | DotNetNuke.Internal.SourceGenerators/DnnDeprecatedGenerator.cs:74-80 | the pushed stack, read top first, is the list of containing types |
| Emitter.OpenLinesAt | DotNetNuke.Internal.SourceGenerators/DnnDeprecatedGenerator.cs:89-93 | containing type `j` is reopened on lines `2j` and `2j+1`, at depth `j` |
| Emitter.PrologueLayout | DotNetNuke.Internal.SourceGenerators/DnnDeprecatedGenerator.cs:85-97 | the lines before the member are the marker, the namespace line, a blank line, each containing type reopened at its depth, and the attribute at the member's depth |
| Emitter.EpilogueLayout | DotNetNuke.Internal.SourceGenerators/DnnDeprecatedGenerator.cs:109-115 | the types are closed innermost first, each at the depth it was opened at, followed by a blank line |
| Emitter.FileOpening | DotNetNuke.Internal.SourceGenerators/DnnDeprecatedGenerator.cs:85-107 | the file's second line is the namespace; type `j` opens on lines `3+2j` and `4+2j` at depth `j`; the attribute comes right before the member's lines |
| Emitter.FileClosing | DotNetNuke.Internal.SourceGenerators/DnnDeprecatedGenerator.cs:109-115 | type `j`'s closing brace is line `2+j` from the end, at depth `j`, so every opened type is closed at its own depth, and the last line is blank |
| Emitter.WriteHeader | DotNetNuke.Internal.SourceGenerators/DnnDeprecatedGenerator.cs:85-87 | a fresh writer holds the marker, the namespace line and a blank line |
| Emitter.OpenContainingTypes | DotNetNuke.Internal.SourceGenerators/DnnDeprecatedGenerator.cs:89-93 | appends the opening lines of the containing types and leaves the level one deeper per type |
| Emitter.WriteMember | DotNetNuke.Internal.SourceGenerators/DnnDeprecatedGenerator.cs:95-107 | writes the attribute line, then a type reopened and closed at once, a method's declaration for the given placement of `this `, or nothing for another member; fails exactly when a parameter's ref kind has no prefix |
| Emitter.CloseContainingTypes | DotNetNuke.Internal.SourceGenerators/DnnDeprecatedGenerator.cs:109-113 | appends one `}` per containing type, innermost first, and returns the level to 0 |
| Emitter.EmitSource | DotNetNuke.Internal.SourceGenerators/DnnDeprecatedGenerator.cs:82-115 | for a writable member the file holds exactly the laid-out lines, with `this ` as the given placement puts it; otherwise it fails with the unexpected-ref-kind error |
| Generator.ReportDiagnosticIfNotPartial | DotNetNuke.Internal.SourceGenerators/DnnDeprecatedGenerator.cs:434-462 | reports a diagnostic exactly when the member lacks the `partial` modifier; the diagnostic is DNN1001 "Must be partial", an enabled-by-default usage error located at the member |
| Generator.ProcessOne | DotNetNuke.Internal.SourceGenerators/DnnDeprecatedGenerator.cs:50-117 | handles one member in the source's order: partial check, symbol, deprecation, the file, then the hint name |
| Generator.Execute | DotNetNuke.Internal.SourceGenerators/DnnDeprecatedGenerator.cs:31-119 | produces nothing without members or without the attribute type; otherwise processes the members in order, stops at a missing member, fails on the first error, and fails when a file's hint was already added |
| Generator.MissingMemberStops | DotNetNuke.Internal.SourceGenerators/DnnDeprecatedGenerator.cs:50-53 | nothing after a missing member affects the output |
| Generator.DiagnosticsSound | DotNetNuke.Internal.SourceGenerators/DnnDeprecatedGenerator.cs:55-58 | every diagnostic is DNN1001 about one of the members, and that member is not partial |
| Generator.SourcesSound | DotNetNuke.Internal.SourceGenerators/DnnDeprecatedGenerator.cs:60-117 | every generated file is what some member yields |
| Generator.GenerateComplete | DotNetNuke.Internal.SourceGenerators/DnnDeprecatedGenerator.cs:47-118 | when all members are present and the pass succeeds, every member was handled without error, every non-partial member was reported, and every member's file is in the output |
| Generator.EmittedFileMarksMember | DotNetNuke.Internal.SourceGenerators/DnnDeprecatedGenerator.cs:67-117 | a generated file belongs to a partial member with a symbol and a deprecation; its hint is that member's hint name, its second line is the member's namespace, and it carries that deprecation's obsolete attribute at the member's depth |
| Generator.HintKeyIgnoresCaseAndExtension | DotNetNuke.Internal.SourceGenerators/DnnDeprecatedGenerator.cs:117 | hints that differ only in the case of their letters name the same file, and so do a hint without `.cs` and the same hint with it |
| Generator.HintsUnique | DotNetNuke.Internal.SourceGenerators/DnnDeprecatedGenerator.cs:117 | in a pass that succeeds, the files go under pairwise different keys, and none of those keys was added before |
| Generator.AddedHintFails | DotNetNuke.Internal.SourceGenerators/DnnDeprecatedGenerator.cs:117 | a member reached with every earlier member present, whose file goes under a key already added, makes the pass fail |
| Generator.SharedHintFails | DotNetNuke.Internal.SourceGenerators/DnnDeprecatedGenerator.cs:117 | two members reached with every earlier member present, whose files go under the same key, make the pass fail; this holds for any step per member, `ProcessMember` included |
| Text.UnverbatimDoubleQuotes | DotNetNuke.Internal.SourceGenerators/DnnDeprecatedGenerator.cs:357 | doubling quotes is undone by reading the text as a verbatim literal body |
| Text.TrimEnd | DotNetNuke.Internal.SourceGenerators/DnnDeprecatedGenerator.cs:96 | removes trailing dots: the result is a prefix that does not end in a dot, and everything removed is dots |
| Text.IntToStringChars | DotNetNuke.Internal.SourceGenerators/DnnDeprecatedGenerator.cs:96 | an integer's text is never empty and holds neither a quote nor a dot, so a version number cannot end the literal or add a dot segment |
| IndentedText.IndentedWriter.Write | DotNetNuke.Internal.SourceGenerators/DnnDeprecatedGenerator.cs:127 | extends the current line; a line started by this write takes the current level |
| IndentedText.IndentedWriter.WriteLine | DotNetNuke.Internal.SourceGenerators/DnnDeprecatedGenerator.cs:85 | writes the text and finishes the line |
| IndentedText.IndentedWriter.IncreaseIndent | DotNetNuke.Internal.SourceGenerators/DnnDeprecatedGenerator.cs:92 | the level goes one deeper, and nothing written changes |
| IndentedText.IndentedWriter.DecreaseIndent | DotNetNuke.Internal.SourceGenerators/DnnDeprecatedGenerator.cs:111 | the level goes one up but never below 0, and nothing written changes |

## Left out

- Roslyn itself is outside the model. A member arrives as the facts the generator reads from it: modifiers, attributes, its kind and its chain of ancestors. Display strings (`ToDisplayString` in fully or minimally qualified form, `Keyword`, `Identifier`, `Name`) are plain strings.
- `Initialize`, `HasAttribute` and `GetIfHasDeprecatedAttribute` (lines 21-29, 543-570) are left out. They only select the candidate members, and the model starts from that selection.
- Cancellation (`ThrowIfCancellationRequested`, line 49) is left out.
- The generated text is a sequence of `(indent, text)` lines rather than characters. Tab characters and newline sequences are not modelled.
- Two `null` branches are dropped: `methodSymbol` in `WritePartialMethod` (lines 164-169) and `typeSymbol` in `OpenPartialType` (lines 130-131). Both are symbol lookups on declarations in the compilation, and the model takes them to succeed.
- Roslyn's `IsGenericType` (line 397) is not part of this model. It is computed from the declarations: a named type is generic when it or a containing type has type parameters, which is Roslyn's documented meaning.
- A default value other than null, bool or string is written as its text, which the model takes as given.
- The attribute's default removal version is declared in `DnnDeprecatedAttribute`, which is not part of this model. The model takes it as a parameter: a function of the version each attribute was deprecated in.
- A diagnostic's location is the member declaration itself.
- The modifiers of a method are the modifier tokens joined by single spaces; trivia is not modelled.
- Generator.Execute: of `AddSource`'s checks, only the duplicate hint name is modelled, and case is folded for ASCII letters only. `AddSource` also rejects hint names with characters outside its allowed set. These rules belong to Roslyn, which is not part of this model.
- The model follows the code for a member in the global namespace: the file then starts with `namespace ;`, which does not compile.
- `Execute` writes the file before it computes the hint name, and both can throw on the same parameter. The model does the same, so which error is reported matches the source's order.

## Findings

| source | as written | input that shows it | evidently intended | confidence | as-written member | corrected member |
|---|---|---|---|---|---|---|
| DotNetNuke.Internal.SourceGenerators/DnnDeprecatedGenerator.cs:329-332 | `this ` is written before every parameter of an extension method | a deprecated partial extension method with two parameters: its generated declaration has `this ` before the second parameter too, which C# rejects (CS1100) | `this ` before the first parameter only | not executed | Declarations.ExtensionThisOnEveryParameter | Declarations.ParameterTextsThisFirstOnly |

`Declarations.ParameterTexts` takes a `ThisPlacement`. `EveryParameter`
gives the texts as the generator writes them, and `FirstParameterOnly` the
corrected ones. Every writer from `Declarations.WriteNextParameter` up to
`Generator.Execute` takes the placement as a parameter and is proved for
both.
