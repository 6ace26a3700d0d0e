/** The file generated for one deprecated member: a header, the containing
    types reopened as partial types, the obsolete attribute, the member's own
    partial declaration and the closing braces. */
module Emitter {
  import opened Wrappers
  import opened Text
  import opened Symbols
  import opened IndentedText
  import opened Declarations

  // ---------------------------------------------------------------------------
  // The obsolete attribute

  /** `major.minor.patch` of a deprecation. */
  function VersionText(d: Deprecation): string
  {
    IntToString(d.majorVersion) + "." + IntToString(d.minorVersion) + "." + IntToString(d.patchVersion)
  }

  /** The text of the message before the replacement. */
  function MessageHead(d: Deprecation): string
  {
    "Deprecated in DotNetNuke " + VersionText(d) + ". "
  }

  /** The text of the message after the replacement. */
  function MessageTail(d: Deprecation): string
  {
    ". Scheduled for removal in v" + IntToString(d.removalVersion) + ".0.0."
  }

  /** The message the obsolete attribute carries: the version deprecated in,
      the replacement text with its trailing dots cut off, and the removal
      version. */
  function ObsoleteMessage(d: Deprecation): string
  {
    MessageHead(d) + TrimEnd(d.replacement, '.') + MessageTail(d)
  }

  /** The body of the verbatim string literal written for the message: the
      same text with the quotes of the replacement doubled. */
  function MessageLiteral(d: Deprecation): string
  {
    MessageHead(d) + DoubleQuotes(TrimEnd(d.replacement, '.')) + MessageTail(d)
  }

  /** The attribute line written in front of the member. */
  function ObsoleteAttributeLine(d: Deprecation): string
  {
    "[global::System.Obsolete(@\"" + MessageLiteral(d) + "\")]"
  }

  lemma VersionTextPlain(d: Deprecation)
    ensures '"' !in VersionText(d)
  {
    IntToStringChars(d.majorVersion);
    IntToStringChars(d.minorVersion);
    IntToStringChars(d.patchVersion);
  }

  /** Neither fixed part of the message holds a quote. */
  lemma MessagePartsPlain(d: Deprecation)
    ensures '"' !in MessageHead(d) && '"' !in MessageTail(d)
  {
    VersionTextPlain(d);
    IntToStringChars(d.removalVersion);
    var lead, sep := "Deprecated in DotNetNuke ", ". ";
    assert '"' !in lead && '"' !in sep;
    var removal, zeros := ". Scheduled for removal in v", ".0.0.";
    assert '"' !in removal && '"' !in zeros;
  }

  /** The verbatim literal denotes exactly the message, whatever quotes the
      replacement text holds. */
  lemma MessageLiteralDenotesMessage(d: Deprecation)
    ensures Unverbatim(MessageLiteral(d)) == Some(ObsoleteMessage(d))
  {
    var r := TrimEnd(d.replacement, '.');
    var head, tail := MessageHead(d), MessageTail(d);
    MessagePartsPlain(d);
    UnverbatimPlain(head);
    UnverbatimPlain(tail);
    UnverbatimDoubleQuotes(r);
    UnverbatimAppend(head, DoubleQuotes(r), head, r);
    UnverbatimAppend(head + DoubleQuotes(r), tail, head + r, tail);
  }

  // ---------------------------------------------------------------------------
  // The containing types

  /** The type declarations the member is directly nested in, outermost first:
      the run of type declarations among its ancestors, taken from the
      innermost outward and then reversed, as a stack enumerates them. */
  function ContainingTypesOf(ancestors: seq<SyntaxParent>): (types: seq<TypeDecl>)
    ensures |types| <= |ancestors|
  {
    if ancestors != [] && ancestors[0].TypeParent? then ContainingTypesOf(ancestors[1..]) + [ancestors[0].decl]
    else []
  }

  /** `types` lists, outermost first, the type declarations that are the first
      `|types|` ancestors. */
  predicate TypesRun(ancestors: seq<SyntaxParent>, types: seq<TypeDecl>)
  {
    |types| <= |ancestors| &&
    forall j :: 0 <= j < |types| ==> ancestors[j] == TypeParent(types[|types| - 1 - j])
  }

  /** The containing types are the innermost ancestors up to the first one that
      is not a type declaration, in reverse. */
  lemma {:induction false} ContainingTypesRun(ancestors: seq<SyntaxParent>)
    ensures TypesRun(ancestors, ContainingTypesOf(ancestors))
    ensures |ContainingTypesOf(ancestors)| == |ancestors|
         || !ancestors[|ContainingTypesOf(ancestors)|].TypeParent?
  {
    if ancestors != [] && ancestors[0].TypeParent? {
      var rest := ancestors[1..];
      ContainingTypesRun(rest);
      var inner := ContainingTypesOf(rest);
      var types := inner + [ancestors[0].decl];
      forall j | 0 <= j < |types|
        ensures ancestors[j] == TypeParent(types[|types| - 1 - j])
      {
        if j > 0 {
          assert ancestors[j] == rest[j - 1];
          assert types[|types| - 1 - j] == inner[|inner| - 1 - (j - 1)];
        }
      }
    }
  }

  /** Pushes the enclosing type declarations on a stack, innermost first; the
      stack, top first, is the result. */
  method CollectContainingTypes(ancestors: seq<SyntaxParent>) returns (stack: seq<TypeDecl>)
    ensures stack == ContainingTypesOf(ancestors)
  {
    stack := [];
    var i := 0;
    assert ancestors[0..] == ancestors;
    while i < |ancestors| && ancestors[i].TypeParent?
      invariant i <= |ancestors|
      invariant ContainingTypesOf(ancestors) == ContainingTypesOf(ancestors[i..]) + stack
      decreases |ancestors| - i
    {
      assert ancestors[i..][1..] == ancestors[i + 1..];
      stack := [ancestors[i].decl] + stack;
      i := i + 1;
    }
  }

  // ---------------------------------------------------------------------------
  // The lines of the generated file

  /** The file header: the auto-generated marker, the namespace and a blank line. */
  function HeaderLines(ns: string): seq<Line>
  {
    [Line(0, "// <auto-generated/>"), Line(0, "namespace " + ns + ";"), Line(0, "")]
  }

  /** Each containing type reopened at its depth: its header, then `{`. */
  function OpenLines(types: seq<TypeDecl>): (ls: seq<Line>)
    ensures |ls| == 2 * |types|
  {
    if types == [] then []
    else
      var n := |types| - 1;
      OpenLines(types[..n]) + [Line(n, TypeHeader(types[n])), Line(n, "{")]
  }

  /** The closing braces of `n` reopened types, innermost first. */
  function CloseLines(n: nat): (ls: seq<Line>)
    ensures |ls| == n
  {
    seq(n, k requires 0 <= k < n => Line(n - 1 - k, "}"))
  }

  /** A member whose declaration can be written: a method's parameters all
      have a ref kind with a prefix. */
  predicate Writable(kind: MemberKind)
  {
    kind.MethodMember? ==> ValidRefKinds(kind.symbol.parameters)
  }

  /** The member's own declaration at depth `level`: a type is reopened and
      closed at once, a method gets its partial declaration, any other member
      nothing. */
  function MemberLines(modifiers: seq<string>, kind: MemberKind, level: nat, placement: ThisPlacement): seq<Line>
    requires Writable(kind)
  {
    match kind
    case TypeMember(t) => [Line(level, TypeHeader(t)), Line(level, "{"), Line(level, "}")]
    case MethodMember(m) => MethodLines(Line(level, ""), level, modifiers, m, placement)
    case OtherMember(_, _) => []
  }

  /** The lines before the member: the header, the reopened containing types
      and the attribute at the member's depth. */
  function Prologue(ns: string, types: seq<TypeDecl>, d: Deprecation): seq<Line>
  {
    HeaderLines(ns) + OpenLines(types) + [Line(|types|, ObsoleteAttributeLine(d))]
  }

  /** The lines after the member: the closing braces and a blank line. */
  function Epilogue(n: nat): seq<Line>
  {
    CloseLines(n) + [Line(0, "")]
  }

  /** The whole generated file, line by line. */
  function FileLines(ns: string, types: seq<TypeDecl>, d: Deprecation, modifiers: seq<string>, kind: MemberKind,
                     placement: ThisPlacement): seq<Line>
    requires Writable(kind)
  {
    Prologue(ns, types, d) + MemberLines(modifiers, kind, |types|, placement) + Epilogue(|types|)
  }

  /** Type `j` is reopened on lines `2j` and `2j + 1`, at depth `j`. */
  lemma {:induction false} OpenLinesAt(types: seq<TypeDecl>)
    ensures forall j :: 0 <= j < |types| ==>
      OpenLines(types)[2 * j] == Line(j, TypeHeader(types[j])) && OpenLines(types)[2 * j + 1] == Line(j, "{")
  {
    if types != [] {
      var n := |types| - 1;
      OpenLinesAt(types[..n]);
      var ls := OpenLines(types);
      forall j | 0 <= j < |types|
        ensures ls[2 * j] == Line(j, TypeHeader(types[j])) && ls[2 * j + 1] == Line(j, "{")
      {
        if j < n {
          assert types[..n][j] == types[j];
        }
      }
    }
  }

  /** The prologue: the namespace on the second line, type `j` reopened on
      lines `3 + 2j` and `4 + 2j` at depth `j`, the attribute last. */
  lemma PrologueLayout(ns: string, types: seq<TypeDecl>, d: Deprecation)
    ensures var ls := Prologue(ns, types, d);
      |ls| == 4 + 2 * |types|
      && ls[1] == Line(0, "namespace " + ns + ";")
      && (forall j :: 0 <= j < |types| ==>
            ls[3 + 2 * j] == Line(j, TypeHeader(types[j])) && ls[4 + 2 * j] == Line(j, "{"))
      && ls[3 + 2 * |types|] == Line(|types|, ObsoleteAttributeLine(d))
  {
    var open := OpenLines(types);
    var ls := Prologue(ns, types, d);
    OpenLinesAt(types);
    forall j | 0 <= j < |types|
      ensures ls[3 + 2 * j] == open[2 * j] && ls[4 + 2 * j] == open[2 * j + 1]
    {
    }
  }

  /** The epilogue closes type `j` on its line `n - 1 - j`, at depth `j`, and
      ends with a blank line. */
  lemma EpilogueLayout(n: nat)
    ensures var ls := Epilogue(n);
      |ls| == n + 1
      && (forall j :: 0 <= j < n ==> ls[n - 1 - j] == Line(j, "}"))
      && ls[n] == Line(0, "")
  {
  }

  /** The parts of a three-part sequence are where they were put. */
  lemma ThreeParts<T>(p: seq<T>, b: seq<T>, e: seq<T>)
    ensures var s := p + b + e;
      |s| == |p| + |b| + |e| && s[..|p|] == p && s[|p| .. |p| + |b|] == b && s[|p| + |b|..] == e
  {
    var s := p + b + e;
    assert s[..|p|] == p;
    assert s[|p| .. |p| + |b|] == b;
    assert s[|p| + |b|..] == e;
  }

  /** The file begins with the prologue, followed by the member's lines. */
  lemma FileStart(ns: string, types: seq<TypeDecl>, d: Deprecation, modifiers: seq<string>, kind: MemberKind,
    placement: ThisPlacement)
    requires Writable(kind)
    ensures var ls := FileLines(ns, types, d, modifiers, kind, placement);
      var pro := Prologue(ns, types, d);
      var body := MemberLines(modifiers, kind, |types|, placement);
      |ls| == |pro| + |body| + |types| + 1 && ls[..|pro|] == pro && ls[|pro| .. |pro| + |body|] == body
  {
    ThreeParts(Prologue(ns, types, d), MemberLines(modifiers, kind, |types|, placement), Epilogue(|types|));
  }

  /** The head of the file: the namespace line, every containing type opened
      in order at its own depth, then the attribute at the depth of the member
      just before the member's lines. */
  lemma FileOpening(ns: string, types: seq<TypeDecl>, d: Deprecation, modifiers: seq<string>, kind: MemberKind,
    placement: ThisPlacement)
    requires Writable(kind)
    ensures var ls := FileLines(ns, types, d, modifiers, kind, placement);
      var n := |types|;
      var body := MemberLines(modifiers, kind, n, placement);
      |ls| == 4 + 2 * n + |body| + n + 1
      && ls[1] == Line(0, "namespace " + ns + ";")
      && (forall j :: 0 <= j < n ==>
            ls[3 + 2 * j] == Line(j, TypeHeader(types[j])) && ls[4 + 2 * j] == Line(j, "{"))
      && ls[3 + 2 * n] == Line(n, ObsoleteAttributeLine(d))
      && ls[4 + 2 * n .. 4 + 2 * n + |body|] == body
  {
    var pro := Prologue(ns, types, d);
    var ls := FileLines(ns, types, d, modifiers, kind, placement);
    PrologueLayout(ns, types, d);
    FileStart(ns, types, d, modifiers, kind, placement);
    forall i | 0 <= i < |pro|
      ensures ls[i] == pro[i]
    {
      assert ls[..|pro|][i] == pro[i];
    }
  }

  /** The end of the file: the containing types closed in reverse order, each
      at the depth it was opened at, then a blank line. */
  lemma FileClosing(ns: string, types: seq<TypeDecl>, d: Deprecation, modifiers: seq<string>, kind: MemberKind,
    placement: ThisPlacement)
    requires Writable(kind)
    ensures var ls := FileLines(ns, types, d, modifiers, kind, placement);
      var n := |types|;
      |ls| >= n + 1
      && (forall j :: 0 <= j < n ==> ls[|ls| - 2 - j] == Line(j, "}"))
      && ls[|ls| - 1] == Line(0, "")
  {
    var n := |types|;
    var pro, body, epi := Prologue(ns, types, d), MemberLines(modifiers, kind, n, placement), Epilogue(n);
    var ls := FileLines(ns, types, d, modifiers, kind, placement);
    ThreeParts(pro, body, epi);
    EpilogueLayout(n);
    forall i | 0 <= i < n + 1
      ensures ls[|pro| + |body| + i] == epi[i]
    {
      assert ls[|pro| + |body|..][i] == epi[i];
    }
  }

  // ---------------------------------------------------------------------------
  // Writing the file

  /** Writes the header lines. */
  method WriteHeader(w: IndentedWriter, ns: string)
    modifies w
    requires w.lines == [] && w.Current(w.indent) == Line(0, "") && w.indent == 0
    ensures w.lines == HeaderLines(ns) && w.pending && w.indent == 0
  {
    ExtendBlank(0, "// <auto-generated/>");
    w.WriteLine("// <auto-generated/>");
    ExtendBlank(0, "namespace " + ns + ";");
    w.WriteLine("namespace " + ns + ";");
    w.EndLine();
  }

  /** Reopens each containing type and moves one level deeper after it. */
  method OpenContainingTypes(w: IndentedWriter, types: seq<TypeDecl>)
    modifies w
    requires w.pending && w.indent == 0
    ensures w.lines == old(w.lines) + OpenLines(types) && w.indent == |types| && w.pending
  {
    for j := 0 to |types|
      invariant w.lines == old(w.lines) + OpenLines(types[..j]) && w.indent == j && w.pending
    {
      ExtendBlank(j, TypeHeader(types[j]));
      OpenPartialType(w, types[j]);
      w.IncreaseIndent();
      assert types[..j + 1][..j] == types[..j];
    }
    assert types[..|types|] == types;
  }

  /** Writes the attribute line, then the member's declaration; fails as the
      method writer does on a parameter without a prefix. */
  method WriteMember(w: IndentedWriter, d: Deprecation, modifiers: seq<string>, kind: MemberKind, placement: ThisPlacement)
    returns (ok: bool)
    modifies w
    requires w.pending
    ensures ok <==> Writable(kind)
    ensures ok ==>
      w.lines == old(w.lines) + [Line(old(w.indent), ObsoleteAttributeLine(d))]
                 + MemberLines(modifiers, kind, old(w.indent), placement)
      && w.pending && w.indent == old(w.indent)
  {
    var level := w.indent;
    ExtendBlank(level, ObsoleteAttributeLine(d));
    w.WriteLine(ObsoleteAttributeLine(d));
    match kind {
      case TypeMember(t) =>
        ExtendBlank(level, TypeHeader(t));
        OpenPartialType(w, t);
        ExtendBlank(level, "}");
        w.WriteLine("}");
        ok := true;
      case MethodMember(m) =>
        ok := WritePartialMethod(w, modifiers, m, placement);
      case OtherMember(_, _) =>
        ok := true;
    }
  }

  /** Moves one level up and closes a type, once per containing type. */
  method CloseContainingTypes(w: IndentedWriter, n: nat)
    modifies w
    requires w.pending && w.indent == n
    ensures w.lines == old(w.lines) + CloseLines(n) && w.indent == 0 && w.pending
  {
    for j := 0 to n
      invariant w.lines == old(w.lines) + CloseLines(n)[..j] && w.indent == n - j && w.pending
    {
      w.DecreaseIndent();
      ExtendBlank(n - 1 - j, "}");
      w.WriteLine("}");
      assert CloseLines(n)[..j + 1] == CloseLines(n)[..j] + [Line(n - 1 - j, "}")];
    }
    assert CloseLines(n)[..n] == CloseLines(n);
  }

  /** Writes the file for one member into a fresh writer and returns its lines;
      an extension method's parameters get `this ` where `placement` puts it. */
  method EmitSource(ns: string, types: seq<TypeDecl>, d: Deprecation, modifiers: seq<string>, kind: MemberKind,
                    placement: ThisPlacement)
    returns (r: Result<seq<Line>, GeneratorError>)
    ensures Writable(kind) ==> r == Ok(FileLines(ns, types, d, modifiers, kind, placement))
    ensures !Writable(kind) ==> r == Err(UnexpectedRefKind(RefReadOnlyParameter))
  {
    var w := new IndentedWriter();
    WriteHeader(w, ns);
    OpenContainingTypes(w, types);
    assert w.lines + [Line(|types|, ObsoleteAttributeLine(d))] == Prologue(ns, types, d);
    var ok := WriteMember(w, d, modifiers, kind, placement);
    if !ok {
      return Err(UnexpectedRefKind(RefReadOnlyParameter));
    }
    ghost var written := w.lines;
    CloseContainingTypes(w, |types|);
    w.EndLine();
    assert w.lines == written + Epilogue(|types|);
    r := Ok(w.lines);
  }
}
