/** The hint name under which the source generated for one member is added:
    the namespace, the containing types and the member, and for a method its
    parameter types, made safe for a file name. */
module HintNames {
  import opened Wrappers
  import opened Text
  import opened Symbols
  import opened Declarations

  /** The number of type parameters a type declaration lists. */
  function Arity(t: TypeDecl): nat
  {
    match t.typeParameterList
    case None => 0
    case Some(names) => |names|
  }

  /** `` `n `` for a count `n`. */
  function ArityMark(n: nat): string
  {
    "`" + NatToString(n)
  }

  /** A containing type's part of the hint: its identifier, with its arity
      when it has type parameters. */
  function TypeSegment(t: TypeDecl): string
  {
    t.identifier + if Arity(t) > 0 then ArityMark(Arity(t)) else ""
  }

  /** `.Id` per containing type, outermost first. */
  function TypePath(types: seq<TypeDecl>): string
  {
    if types == [] then "" else TypePath(types[..|types| - 1]) + ("." + TypeSegment(types[|types| - 1]))
  }

  /** Whether some containing type has type parameters. */
  predicate AnyGeneric(types: seq<TypeDecl>)
  {
    exists i :: 0 <= i < |types| && Arity(types[i]) > 0
  }

  /** The symbol's name; for a member declared otherwise than as a type or a
      method this is the name the symbol carries (`.ctor` for a constructor). */
  function MemberName(kind: MemberKind): string
  {
    match kind
    case TypeMember(t) => t.identifier
    case MethodMember(m) => m.name
    case OtherMember(name, _) => name
  }

  /** The type parameter count of a member that declares a named type. */
  function NamedTypeArity(kind: MemberKind): Option<nat>
  {
    match kind
    case TypeMember(t) => Some(Arity(t))
    case MethodMember(_) => None
    case OtherMember(_, NamedTypeSymbol(n)) => Some(n)
    case OtherMember(_, _) => None
  }

  /** The method symbol of a member, whether it is declared as a method or as
      a constructor, destructor, operator or conversion. */
  function MethodSymbolOf(kind: MemberKind): Option<MethodSymbol>
  {
    match kind
    case MethodMember(m) => Some(m)
    case OtherMember(_, MethodLikeSymbol(m)) => Some(m)
    case _ => None
  }

  /** The member's part of the hint: its name, and for a named type that is
      generic (it or a containing type has type parameters) its own type
      parameter count, which is 0 for a non-generic type nested in a generic
      one. */
  function MemberSegment(types: seq<TypeDecl>, kind: MemberKind): string
  {
    MemberName(kind) +
      match NamedTypeArity(kind)
      case Some(n) => if n > 0 || AnyGeneric(types) then ArityMark(n) else ""
      case None => ""
  }

  /** A display string with `?` replaced by `_NULLABLE_`, then `<` and `>` by `__`. */
  function Sanitize(t: string): string
  {
    ReplaceChar(ReplaceChar(ReplaceChar(t, '?', "_NULLABLE_"), '<', "__"), '>', "__")
  }

  /** A sanitized type has no `?`, `<` or `>` left. */
  lemma SanitizeRemovesMarks(t: string)
    ensures '?' !in Sanitize(t) && '<' !in Sanitize(t) && '>' !in Sanitize(t)
  {
    var r1 := ReplaceChar(t, '?', "_NULLABLE_");
    var r2 := ReplaceChar(r1, '<', "__");
    if '>' in Sanitize(t) {
      ReplaceCharChars(r2, '>', "__", '>');
    }
    if '<' in Sanitize(t) {
      ReplaceCharChars(r2, '>', "__", '<');
      ReplaceCharChars(r1, '<', "__", '<');
    }
    if '?' in Sanitize(t) {
      ReplaceCharChars(r2, '>', "__", '?');
      ReplaceCharChars(r1, '<', "__", '?');
      ReplaceCharChars(t, '?', "_NULLABLE_", '?');
    }
  }

  /** A parameter's part of a method's hint: its ref kind's prefix and its
      minimally qualified type, sanitized. */
  function HintParameter(p: Parameter): string
    requires !p.refKind.RefReadOnlyParameter?
  {
    Prefix(p.refKind) + Sanitize(p.minimalType)
  }

  function HintParameters(ps: seq<Parameter>): (hs: seq<string>)
    requires ValidRefKinds(ps)
    ensures |hs| == |ps|
  {
    seq(|ps|, i requires 0 <= i < |ps| => HintParameter(ps[i]))
  }

  /** The hint name: the namespace, `.Id` per containing type, `.Name`, and
      for any method symbol its arity when generic and its parameters in
      parentheses. A parameter whose ref kind has no prefix makes it fail, as the prefix
      lookup throws. */
  function HintName(ns: string, types: seq<TypeDecl>, kind: MemberKind): Result<string, GeneratorError>
  {
    var base := ns + TypePath(types) + ("." + MemberSegment(types, kind));
    match MethodSymbolOf(kind)
    case Some(m) =>
      if !ValidRefKinds(m.parameters) then Err(UnexpectedRefKind(RefReadOnlyParameter))
      else
        Ok(base + (if m.typeParameters == [] then "" else ArityMark(|m.typeParameters|))
           + "(" + Join(HintParameters(m.parameters), ",") + ")")
    case None => Ok(base)
  }

  /** The parts of the hint, one per containing type, outermost first. */
  function TypeSegments(types: seq<TypeDecl>): (segs: seq<string>)
    ensures |segs| == |types|
  {
    seq(|types|, i requires 0 <= i < |types| => TypeSegment(types[i]))
  }

  lemma ArityMarkHasNoDot(n: nat)
    ensures '.' !in ArityMark(n)
  {
    NatToStringDigits(n);
  }

  /** Appending a dot and a dot-free part adds that part to the split. */
  lemma SplitDotPart(a: string, part: string)
    requires '.' !in part
    ensures Split(a + ("." + part), '.') == Split(a, '.') + [part]
  {
    assert a + ("." + part) == a + ['.'] + part;
    SplitConcat(a, part, '.');
    SplitNoSeparator(part, '.');
  }

  lemma TypeSegmentHasNoDot(t: TypeDecl)
    requires '.' !in t.identifier
    ensures '.' !in TypeSegment(t)
  {
    ArityMarkHasNoDot(Arity(t));
  }

  lemma {:induction false} SplitTypePath(ns: string, types: seq<TypeDecl>)
    requires forall i :: 0 <= i < |types| ==> '.' !in types[i].identifier
    ensures Split(ns + TypePath(types), '.') == Split(ns, '.') + TypeSegments(types)
  {
    if types == [] {
      assert ns + TypePath(types) == ns;
    } else {
      var init := types[..|types| - 1];
      var t := types[|types| - 1];
      var path := TypePath(init);
      var seg := TypeSegment(t);
      SplitTypePath(ns, init);
      TypeSegmentHasNoDot(t);
      assert TypePath(types) == path + ("." + seg);
      ConcatAssoc(ns, path, "." + seg);
      SplitDotPart(ns + path, seg);
      TypeSegmentsSnoc(types);
    }
  }

  lemma TypeSegmentsSnoc(types: seq<TypeDecl>)
    requires types != []
    ensures TypeSegments(types) == TypeSegments(types[..|types| - 1]) + [TypeSegment(types[|types| - 1])]
  {
    assert TypeSegments(types) == TypeSegments(types[..|types| - 1]) + [TypeSegment(types[|types| - 1])];
  }

  lemma MemberSegmentHasNoDot(types: seq<TypeDecl>, kind: MemberKind)
    requires '.' !in MemberName(kind)
    ensures '.' !in MemberSegment(types, kind)
  {
    match NamedTypeArity(kind) {
      case Some(n) => ArityMarkHasNoDot(n);
      case None =>
    }
  }

  /** The hint name of a type or any other member that is not a method reads
      back, split at its dots, as the namespace's parts, one part per
      containing type outermost first (its identifier and arity mark), and the
      member's own part: nothing else, in particular no parameter list, is
      appended. */
  lemma NonMethodHintSegments(ns: string, types: seq<TypeDecl>, kind: MemberKind)
    requires MethodSymbolOf(kind).None?
    requires forall i :: 0 <= i < |types| ==> '.' !in types[i].identifier
    requires '.' !in MemberName(kind)
    ensures HintName(ns, types, kind).Ok?
    ensures Split(HintName(ns, types, kind).value, '.') ==
      Split(ns, '.') + TypeSegments(types) + [MemberSegment(types, kind)]
  {
    var ms := MemberSegment(types, kind);
    MemberSegmentHasNoDot(types, kind);
    SplitTypePath(ns, types);
    SplitDotPart(ns + TypePath(types), ms);
  }

  /** A prefix followed by a sanitized type has no `?`, `<` or `>`. */
  lemma HintParameterHasNoMarks(p: Parameter)
    requires !p.refKind.RefReadOnlyParameter?
    ensures '?' !in HintParameter(p) && '<' !in HintParameter(p) && '>' !in HintParameter(p)
  {
    SanitizeRemovesMarks(p.minimalType);
  }

  /** The hint of a method symbol whose parameters all have a prefix ends with
      its parameter list in parentheses, and that list holds no `?`, `<` or
      `>`: `?` became `_NULLABLE_` and the angle brackets `__`. */
  lemma MethodHintParametersHaveNoMarks(ns: string, types: seq<TypeDecl>, kind: MemberKind, m: MethodSymbol)
    requires MethodSymbolOf(kind) == Some(m)
    requires ValidRefKinds(m.parameters)
    ensures HintName(ns, types, kind).Ok?
    ensures var inner := Join(HintParameters(m.parameters), ",");
      '?' !in inner && '<' !in inner && '>' !in inner &&
      exists head :: HintName(ns, types, kind).value == head + "(" + inner + ")"
  {
    var hs := HintParameters(m.parameters);
    forall i | 0 <= i < |hs|
      ensures '?' !in hs[i] && '<' !in hs[i] && '>' !in hs[i]
    {
      HintParameterHasNoMarks(m.parameters[i]);
    }
    JoinChars(hs, ",", '?');
    JoinChars(hs, ",", '<');
    JoinChars(hs, ",", '>');
    var head := ns + TypePath(types) + ("." + MemberSegment(types, kind))
      + (if m.typeParameters == [] then "" else ArityMark(|m.typeParameters|));
    assert HintName(ns, types, kind).value == head + "(" + Join(hs, ",") + ")";
  }

  /** Overloads that differ only in types with the same minimally qualified
      name, `M(A.Foo)` and `M(B.Foo)`, get the same hint. */
  lemma OverloadsCanShareHint()
    ensures var p1 := Parameter(ByValue, false, "A.Foo", "Foo", "x", NoDefault);
            var m1 := MethodSymbol("M", true, "void", [], [p1], false);
            var m2 := m1.(parameters := [p1.(qualifiedType := "B.Foo")]);
            m1 != m2 && HintName("N", [], MethodMember(m1)) == HintName("N", [], MethodMember(m2)) == Ok("N.M(Foo)")
  {
    var p1 := Parameter(ByValue, false, "A.Foo", "Foo", "x", NoDefault);
    var p2 := p1.(qualifiedType := "B.Foo");
    assert ReplaceChar("Foo", '?', "_NULLABLE_") == "Foo";
    assert ReplaceChar("Foo", '<', "__") == "Foo";
    assert Sanitize("Foo") == "Foo";
    assert HintParameter(p1) == "Foo" == HintParameter(p2);
    assert HintParameters([p1]) == ["Foo"] == HintParameters([p2]);
    assert TypePath([]) == "";
    assert Join(["Foo"], ",") == "Foo";
    var m1 := MethodSymbol("M", true, "void", [], [p1], false);
    assert MemberSegment([], MethodMember(m1)) == "M";
    var m2 := m1.(parameters := [p2]);
    assert "N" + "" + ("." + "M") + "" + "(" + "Foo" + ")" == "N.M(Foo)";
    assert HintName("N", [], MethodMember(m1)) == Ok("N.M(Foo)");
    assert HintName("N", [], MethodMember(m2)) == Ok("N.M(Foo)");
  }

  /** Short of that, the hint tells overloads apart: two method symbols with
      the same name and arity in the same place, whose parameter parts are
      never empty and hold no comma, share a hint only when their parameter
      parts agree one by one. */
  lemma MethodHintDeterminesParameters(ns: string, types: seq<TypeDecl>, kind1: MemberKind, kind2: MemberKind,
                                       m1: MethodSymbol, m2: MethodSymbol)
    requires MethodSymbolOf(kind1) == Some(m1) && MethodSymbolOf(kind2) == Some(m2)
    requires MemberName(kind1) == MemberName(kind2) && |m1.typeParameters| == |m2.typeParameters|
    requires ValidRefKinds(m1.parameters) && ValidRefKinds(m2.parameters)
    requires forall i :: 0 <= i < |m1.parameters| ==>
      HintParameter(m1.parameters[i]) != "" && ',' !in HintParameter(m1.parameters[i])
    requires forall i :: 0 <= i < |m2.parameters| ==>
      HintParameter(m2.parameters[i]) != "" && ',' !in HintParameter(m2.parameters[i])
    ensures HintName(ns, types, kind1) == HintName(ns, types, kind2)
        <==> HintParameters(m1.parameters) == HintParameters(m2.parameters)
  {
    var hs1, hs2 := HintParameters(m1.parameters), HintParameters(m2.parameters);
    var j1, j2 := Join(hs1, ","), Join(hs2, ",");
    var head := ns + TypePath(types) + ("." + MemberSegment(types, kind1))
      + (if m1.typeParameters == [] then "" else ArityMark(|m1.typeParameters|));
    assert HintName(ns, types, kind1) == Ok(head + "(" + j1 + ")");
    assert HintName(ns, types, kind2) == Ok(head + "(" + j2 + ")");
    if HintName(ns, types, kind1) == HintName(ns, types, kind2) {
      var s := head + "(" + j1 + ")";
      assert j1 == s[|head| + 1..|s| - 1];
      assert j1 == j2;
      if hs1 == [] || hs2 == [] {
        if hs1 != [] {
          JoinHasChar(hs1, ",", hs1[|hs1| - 1][0]);
        }
        if hs2 != [] {
          JoinHasChar(hs2, ",", hs2[|hs2| - 1][0]);
        }
      } else {
        SplitJoin(hs1, ',');
        SplitJoin(hs2, ',');
      }
    }
  }

  /** Appends `.Id` and, when the type has type parameters, its arity mark. */
  method AppendTypeSegment(hint0: string, t: TypeDecl) returns (hint: string)
    ensures hint == hint0 + ("." + TypeSegment(t))
  {
    hint := hint0 + ("." + t.identifier);
    if t.typeParameterList.Some? && |t.typeParameterList.value| > 0 {
      hint := hint + ArityMark(|t.typeParameterList.value|);
    }
  }

  /** Appends `.Id` and the arity mark of each containing type. */
  method AppendContainingTypes(hint0: string, types: seq<TypeDecl>) returns (hint: string)
    ensures hint == hint0 + TypePath(types)
  {
    hint := hint0;
    for i := 0 to |types|
      invariant hint == hint0 + TypePath(types[..i])
    {
      assert types[..i + 1][..i] == types[..i];
      ConcatAssoc(hint0, TypePath(types[..i]), "." + TypeSegment(types[i]));
      hint := AppendTypeSegment(hint, types[i]);
    }
    assert types[..|types|] == types;
  }

  /** Appending a separator and one more element to a joined list gives the
      joined longer list. */
  lemma JoinStep(open: string, before: seq<string>, x: string, hint: string)
    requires hint == open + Join(before, ",")
    ensures hint + ((if before == [] then "" else ",") + x) == open + Join(before + [x], ",")
  {
    JoinSnoc(before, x, ",");
    if before == [] {
      assert hint == open;
    } else {
      assert open + Join(before, ",") + ("," + x) == open + (Join(before, ",") + "," + x);
    }
  }

  lemma HintParametersSnoc(ps: seq<Parameter>, i: nat)
    requires i < |ps| && ValidRefKinds(ps[..i]) && !ps[i].refKind.RefReadOnlyParameter?
    ensures ValidRefKinds(ps[..i + 1])
    ensures HintParameters(ps[..i + 1]) == HintParameters(ps[..i]) + [HintParameter(ps[i])]
  {
    assert ps[..i + 1] == ps[..i] + [ps[i]];
  }

  /** Appends one parameter of the hint: the comma before it unless it is the
      first, its prefix and its sanitized type. Fails, as the prefix lookup
      throws, when its ref kind has no prefix. */
  method AppendHintParameter(hint0: string, isFirst: bool, p: Parameter) returns (r: Result<string, GeneratorError>)
    ensures r.Ok? <==> !p.refKind.RefReadOnlyParameter?
    ensures r.Err? ==> r.error == UnexpectedRefKind(RefReadOnlyParameter)
    ensures r.Ok? ==> r.value == hint0 + ((if isFirst then "" else ",") + HintParameter(p))
  {
    var hint := hint0;
    if !isFirst {
      hint := hint + ",";
    }
    var prefix := GetParameterPrefix(p.refKind);
    if prefix.Err? {
      return Err(prefix.error);
    }
    hint := hint + prefix.value;
    hint := hint + Sanitize(p.minimalType);
    return Ok(hint);
  }

  /** Appends the parameters in parentheses, separated by commas. Fails, as
      the prefix lookup throws, at a parameter whose ref kind has no prefix. */
  method AppendParameters(hint0: string, ps: seq<Parameter>) returns (r: Result<string, GeneratorError>)
    ensures ValidRefKinds(ps) ==> r == Ok(hint0 + "(" + Join(HintParameters(ps), ",") + ")")
    ensures !ValidRefKinds(ps) ==> r == Err(UnexpectedRefKind(RefReadOnlyParameter))
  {
    var isFirst := true;
    var hint := hint0 + "(";
    ghost var open := hint;
    for i := 0 to |ps|
      invariant isFirst <==> i == 0
      invariant ValidRefKinds(ps[..i])
      invariant hint == open + Join(HintParameters(ps[..i]), ",")
    {
      var next := AppendHintParameter(hint, isFirst, ps[i]);
      if next.Err? {
        assert !ValidRefKinds(ps) by {
          assert ps[i].refKind.RefReadOnlyParameter?;
        }
        return next;
      }
      HintParametersSnoc(ps, i);
      JoinStep(open, HintParameters(ps[..i]), HintParameter(ps[i]), hint);
      hint := next.value;
      isFirst := false;
    }
    assert ps[..|ps|] == ps;
    r := Ok(hint + ")");
  }

  /** Appends `.Name` and, for a generic named type, its arity mark. */
  method AppendMemberSegment(hint0: string, types: seq<TypeDecl>, kind: MemberKind) returns (hint: string)
    ensures hint == hint0 + ("." + MemberSegment(types, kind))
  {
    hint := hint0 + ("." + MemberName(kind));
    match NamedTypeArity(kind) {
      case Some(n) =>
        if n > 0 || AnyGeneric(types) {
          hint := hint + ArityMark(n);
        } else {
          assert MemberName(kind) + "" == MemberName(kind);
        }
      case None =>
        assert MemberName(kind) + "" == MemberName(kind);
    }
  }

  /** Builds the hint name piece by piece, as a string builder does. */
  method GetHintName(ns: string, types: seq<TypeDecl>, kind: MemberKind) returns (r: Result<string, GeneratorError>)
    ensures r == HintName(ns, types, kind)
  {
    var hint := AppendContainingTypes(ns, types);
    hint := AppendMemberSegment(hint, types, kind);
    var symbol := MethodSymbolOf(kind);
    if symbol.None? {
      return Ok(hint);
    }
    var m := symbol.value;
    if m.typeParameters != [] {
      hint := hint + ArityMark(|m.typeParameters|);
    } else {
      assert hint + "" == hint;
    }
    r := AppendParameters(hint, m.parameters);
  }
}
