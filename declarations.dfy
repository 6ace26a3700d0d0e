/** The emitter of partial declarations: the header of a partial type, and the
    signature of a partial method with its type parameters, its parameters and
    its `where` constraints. Each writing method is proved against a function
    giving the lines it produces. */
module Declarations {
  import opened Wrappers
  import opened Text
  import opened Symbols
  import opened IndentedText

  /** The modifier written before a parameter's type for its ref kind. */
  function GetParameterPrefix(kind: RefKind): (r: Result<string, GeneratorError>)
    ensures r.Err? <==> kind.RefReadOnlyParameter?
    ensures r.Err? ==> r.error == UnexpectedRefKind(kind)
    ensures r.Ok? ==> (r.value == "" <==> kind.ByValue?)
    ensures r.Ok? && r.value != "" ==>
      r.value[|r.value| - 1] == ' ' && ' ' !in r.value[..|r.value| - 1]
  {
    match kind
    case ByValue => Ok("")
    case Ref => Ok("ref ")
    case Out => Ok("out ")
    case In => Ok("in ")
    case RefReadOnlyParameter => Err(UnexpectedRefKind(kind))
  }

  /** Distinct ref kinds get distinct prefixes. */
  lemma PrefixDeterminesRefKind(a: RefKind, b: RefKind)
    requires GetParameterPrefix(a).Ok? && GetParameterPrefix(a) == GetParameterPrefix(b)
    ensures a == b
  {
  }

  predicate ValidRefKinds(ps: seq<Parameter>)
  {
    forall i :: 0 <= i < |ps| ==> !ps[i].refKind.RefReadOnlyParameter?
  }

  function Prefix(kind: RefKind): string
    requires !kind.RefReadOnlyParameter?
  {
    GetParameterPrefix(kind).value
  }

  /** `<A,B,C>`: the names in order, separated by single commas. */
  function TypeArgumentList(names: seq<string>): string
  {
    "<" + Join(names, ",") + ">"
  }

  /** The first line of a reopened partial type. A declaration that has a type
      parameter list gets it written, even an empty one. */
  function TypeHeader(t: TypeDecl): string
  {
    "partial " + t.keyword + " " + t.identifier
    + match t.typeParameterList
      case None => ""
      case Some(names) => TypeArgumentList(names)
  }

  function TypeParameterNames(tps: seq<TypeParameter>): (names: seq<string>)
    ensures |names| == |tps|
    ensures forall i :: 0 <= i < |tps| ==> names[i] == tps[i].name
  {
    seq(|tps|, i requires 0 <= i < |tps| => tps[i].name)
  }

  /** A method's type parameter list: nothing when it has none. */
  function MethodTypeParameterList(tps: seq<TypeParameter>): string
  {
    if tps == [] then "" else TypeArgumentList(TypeParameterNames(tps))
  }

  /** The type parameter list reads back as the names: it is bracketed, and
      splitting its inside at the commas gives the names in order (names never
      contain a comma). Without type parameters nothing at all is written. */
  lemma {:induction false} MethodTypeParameterListRoundTrip(tps: seq<TypeParameter>)
    requires forall i :: 0 <= i < |tps| ==> ',' !in tps[i].name
    ensures tps == [] ==> MethodTypeParameterList(tps) == ""
    ensures tps != [] ==>
      var s := MethodTypeParameterList(tps);
      |s| >= 2 && s[0] == '<' && s[|s| - 1] == '>' &&
      Split(s[1..|s| - 1], ',') == TypeParameterNames(tps)
  {
    if tps != [] {
      var s := MethodTypeParameterList(tps);
      var names := TypeParameterNames(tps);
      assert s[1..|s| - 1] == Join(names, ",");
      SplitJoin(names, ',');
    }
  }

  /** Whether a type parameter has any constraint, so a `where` clause is written. */
  predicate HasConstraints(tp: TypeParameter)
  {
    tp.constraintTypes != [] || tp.hasConstructorConstraint || tp.hasNotNullConstraint ||
    tp.hasReferenceTypeConstraint || tp.hasUnmanagedTypeConstraint || tp.hasValueTypeConstraint
  }

  /** The constraints of a type parameter in the order they are written. */
  function ConstraintItems(tp: TypeParameter): seq<string>
  {
    tp.constraintTypes
    + (if tp.hasNotNullConstraint then ["notnull"] else [])
    + (if tp.hasReferenceTypeConstraint then ["class"] else [])
    + (if tp.hasUnmanagedTypeConstraint then ["unmanaged"] else [])
    + (if tp.hasValueTypeConstraint then ["struct"] else [])
    + (if tp.hasConstructorConstraint then ["new()"] else [])
  }

  function ConstraintClause(tp: TypeParameter): string
  {
    "where " + tp.name + " : " + Join(ConstraintItems(tp), ",")
  }

  /** The `where` clauses of a method, one per constrained type parameter, in order. */
  function ConstraintClauses(tps: seq<TypeParameter>): seq<string>
  {
    if tps == [] then []
    else
      var last := tps[|tps| - 1];
      ConstraintClauses(tps[..|tps| - 1]) + if HasConstraints(last) then [ConstraintClause(last)] else []
  }

  /** A clause is written exactly for the type parameters that have a
      constraint, and it lists the explicit types first, then `notnull`,
      `class`, `unmanaged`, `struct`, with `new()` last. */
  lemma {:induction false} ConstraintClausesShape(tps: seq<TypeParameter>)
    ensures |ConstraintClauses(tps)| <= |tps|
    ensures (forall i :: 0 <= i < |tps| ==> !HasConstraints(tps[i])) <==> ConstraintClauses(tps) == []
  {
    if tps != [] {
      var init := tps[..|tps| - 1];
      ConstraintClausesShape(init);
      assert forall i :: 0 <= i < |init| ==> init[i] == tps[i];
    }
  }

  lemma ConstraintItemsOrder(tp: TypeParameter)
    ensures HasConstraints(tp) <==> ConstraintItems(tp) != []
    ensures ConstraintItems(tp)[..|tp.constraintTypes|] == tp.constraintTypes
    ensures tp.hasConstructorConstraint ==> ConstraintItems(tp)[|ConstraintItems(tp)| - 1] == "new()"
    ensures "new()" in ConstraintItems(tp)[|tp.constraintTypes|..] <==> tp.hasConstructorConstraint
  {
  }

  /** The explicit default of a parameter as written after its name. */
  function DefaultText(d: DefaultValue): string
  {
    match d
    case NoDefault => ""
    case NullDefault => " = null"
    case BoolDefault(b) => if b then " = true" else " = false"
    case StringDefault(s) => " = @\"" + DoubleQuotes(s) + "\""
    case OtherDefault(text) => " = " + text
  }

  /** A string default is written as a verbatim literal that denotes exactly
      the default's value. */
  lemma StringDefaultDenotesValue(s: string)
    ensures exists body ::
      DefaultText(StringDefault(s)) == " = @\"" + body + "\"" && Unverbatim(body) == Some(s)
  {
    UnverbatimDoubleQuotes(s);
  }

  /** What precedes a parameter's type: `this ` when asked for, then the
      ref kind's prefix. */
  function ParameterModifiers(kind: RefKind, withThis: bool): string
    requires !kind.RefReadOnlyParameter?
  {
    (if withThis then "this " else "") + Prefix(kind)
  }

  /** A parameter from `params ` on: `[params ]Type Name[ = default]`. */
  function ParameterDeclaration(p: Parameter): string
  {
    (if p.isParams then "params " else "") + (p.qualifiedType + " " + p.name) + DefaultText(p.default)
  }

  /** One parameter: `[this ][prefix][params ]Type Name[ = default]`. */
  function ParameterText(p: Parameter, withThis: bool): string
    requires !p.refKind.RefReadOnlyParameter?
  {
    ParameterModifiers(p.refKind, withThis) + ParameterDeclaration(p)
  }

  /** Where `this ` goes among the parameters of an extension method: before
      every parameter, as the emitter writes it, or before the first one only,
      as C# requires (error CS1100 otherwise). */
  datatype ThisPlacement = EveryParameter | FirstParameterOnly

  /** Whether parameter `i` of a method is preceded by `this `. */
  predicate ThisBefore(placement: ThisPlacement, isExtension: bool, i: nat)
  {
    isExtension && (placement.EveryParameter? || i == 0)
  }

  /** The parameters of a method, with `this ` placed as `placement` says. */
  function ParameterTexts(ps: seq<Parameter>, isExtension: bool, placement: ThisPlacement): (ts: seq<string>)
    requires ValidRefKinds(ps)
  {
    seq(|ps|, i requires 0 <= i < |ps| => ParameterText(ps[i], ThisBefore(placement, isExtension, i)))
  }

  /** Written as the emitter writes it, a two-parameter extension method gets
      `this` on its second parameter as well, which C# rejects; the corrected
      texts carry it on the first only. */
  lemma ExtensionThisOnEveryParameter(p0: Parameter, p1: Parameter)
    requires ValidRefKinds([p0, p1])
    ensures ParameterTexts([p0, p1], true, EveryParameter)[1][..5] == "this "
    ensures ParameterTexts([p0, p1], true, FirstParameterOnly)[0][..5] == "this "
    ensures ParameterTexts([p0, p1], true, FirstParameterOnly)[1] == ParameterText(p1, false)
  {
  }

  /** In the corrected texts `this ` heads the first parameter of an extension
      method and no other; everything else is as the emitter writes it. */
  lemma ParameterTextsThisFirstOnly(ps: seq<Parameter>, isExtension: bool)
    requires ValidRefKinds(ps)
    ensures |ParameterTexts(ps, isExtension, FirstParameterOnly)| == |ps|
    ensures forall i :: 0 < i < |ps| ==>
      ParameterTexts(ps, isExtension, FirstParameterOnly)[i] == ParameterText(ps[i], false)
    ensures forall i :: 0 <= i < |ps| ==>
      ParameterTexts(ps, isExtension, EveryParameter)[i] ==
        (if isExtension && i > 0 then "this " else "") + ParameterTexts(ps, isExtension, FirstParameterOnly)[i]
  {
  }

  /** `ts` each followed by a comma, one per line at `level`. */
  function CommaLines(level: nat, ts: seq<string>): (ls: seq<Line>)
    ensures |ls| == |ts|
  {
    if ts == [] then [] else CommaLines(level, ts[..|ts| - 1]) + [Line(level, ts[|ts| - 1] + ",")]
  }

  /** `cs` one per line at `level`. */
  function ClauseLines(level: nat, cs: seq<string>): (ls: seq<Line>)
    ensures |ls| == |cs|
  {
    if cs == [] then [] else ClauseLines(level, cs[..|cs| - 1]) + [Line(level, cs[|cs| - 1])]
  }

  /** The lines of a parameter list that begins on `start` while the level is
      `level`: `()` on the same line when there are no parameters; otherwise
      `(` ends the line and the parameters follow one level deeper, one per
      line and separated by commas, with `)` after the last. The last line
      stays open for what follows. */
  function ParameterBlock(start: Line, level: nat, ts: seq<string>): (b: seq<Line>)
    ensures |b| == |ts| + 1 && b[0].indent == start.indent
  {
    if ts == [] then [Extend(start, "()")]
    else [Extend(start, "(")] + CommaLines(level + 1, ts[..|ts| - 1]) + [Line(level + 1, ts[|ts| - 1] + ")")]
  }

  /** Line `i` of the comma lines holds parameter `i` and a comma. */
  lemma {:induction false} CommaLinesAt(level: nat, ts: seq<string>)
    ensures forall i :: 0 <= i < |ts| ==> CommaLines(level, ts)[i] == Line(level, ts[i] + ",")
  {
    if ts != [] {
      var init := ts[..|ts| - 1];
      CommaLinesAt(level, init);
      assert forall i :: 0 <= i < |init| ==> init[i] == ts[i];
    }
  }

  /** Line by line, a parameter block is: `()` ending the line it began on
      when there are no parameters; otherwise `(` ending that line, then each
      parameter on a line of its own one level deeper, followed by a comma,
      except the last, which is followed by `)`. */
  lemma ParameterBlockLines(start: Line, level: nat, ts: seq<string>)
    ensures ts == [] ==> ParameterBlock(start, level, ts) == [Line(start.indent, start.text + "()")]
    ensures ts != [] ==> ParameterBlock(start, level, ts)[0] == Line(start.indent, start.text + "(")
    ensures forall i :: 0 <= i < |ts| - 1 ==> ParameterBlock(start, level, ts)[i + 1] == Line(level + 1, ts[i] + ",")
    ensures ts != [] ==> ParameterBlock(start, level, ts)[|ts|] == Line(level + 1, ts[|ts| - 1] + ")")
  {
    if ts != [] {
      var b := ParameterBlock(start, level, ts);
      var mid := CommaLines(level + 1, ts[..|ts| - 1]);
      CommaLinesAt(level + 1, ts[..|ts| - 1]);
      assert forall i :: 0 <= i < |ts| - 1 ==> b[i + 1] == mid[i];
    }
  }

  /** The first line of a method's signature, up to its parameter list. */
  function MethodHead(modifiers: seq<string>, m: MethodSymbol): string
  {
    Join(modifiers, " ") + " " + (if m.returnsVoid then "void" else m.returnType) + " " + m.name
    + MethodTypeParameterList(m.typeParameters)
  }

  /** The lines of a partial method declaration begun on `start` while the
      level is `level`: the head and parameter block, the `where` clauses one
      level deeper on lines of their own, and `;` at the very end. */
  function MethodLines(start: Line, level: nat, modifiers: seq<string>, m: MethodSymbol, placement: ThisPlacement)
    : (ls: seq<Line>)
    requires ValidRefKinds(m.parameters)
    ensures |ls| == |m.parameters| + 1 + |ConstraintClauses(m.typeParameters)|
  {
    var b := ParameterBlock(Extend(start, MethodHead(modifiers, m)), level,
                            ParameterTexts(m.parameters, m.isExtensionMethod, placement))
             + ClauseLines(level + 1, ConstraintClauses(m.typeParameters));
    b[..|b| - 1] + [Extend(b[|b| - 1], ";")]
  }


  /** Writes the header and the opening brace of a partial type. */
  method OpenPartialType(w: IndentedWriter, t: TypeDecl)
    modifies w
    ensures w.lines == old(w.lines) + [Extend(old(w.Current(w.indent)), TypeHeader(t)), Line(old(w.indent), "{")]
    ensures w.pending && w.indent == old(w.indent)
  {
    ghost var start := w.Current(w.indent);
    var head := "partial " + t.keyword + " " + t.identifier;
    w.Write(head);
    match t.typeParameterList {
      case None =>
        assert head + "" == head;
      case Some(names) =>
        w.Write("<");
        ExtendTwice(start, head, "<");
        var isFirst := true;
        for i := 0 to |names|
          invariant isFirst <==> i == 0
          invariant w.lines == old(w.lines) && w.indent == old(w.indent) && !w.pending
          invariant w.cur == Extend(start, head + "<" + Join(names[..i], ","))
        {
          ghost var sofar := head + "<" + Join(names[..i], ",");
          if isFirst {
            isFirst := false;
            w.Write(names[i]);
            ExtendTwice(start, sofar, names[i]);
            assert sofar + names[i] == head + "<" + (Join(names[..i], ",") + names[i]);
          } else {
            w.Write(",");
            w.Write(names[i]);
            ExtendTwice(start, sofar, ",");
            ExtendTwice(start, sofar + ",", names[i]);
            assert sofar + "," + names[i] == head + "<" + (Join(names[..i], ",") + "," + names[i]);
          }
          JoinSnoc(names[..i], names[i], ",");
          assert names[..i + 1] == names[..i] + [names[i]];
        }
        w.Write(">");
        ExtendTwice(start, head + "<" + Join(names[..|names|], ","), ">");
        assert names[..|names|] == names;
        assert head + "<" + Join(names, ",") + ">" == head + TypeArgumentList(names);
    }
    assert w.cur == Extend(start, TypeHeader(t));
    w.EndLine();
    w.WriteLine("{");
    ExtendBlank(old(w.indent), "{");
  }

  /** Writes a method's type parameter list, or nothing when it has none. */
  method WriteMethodTypeParameters(w: IndentedWriter, tps: seq<TypeParameter>)
    modifies w
    ensures w.lines == old(w.lines) && w.indent == old(w.indent)
    ensures tps == [] ==> w.cur == old(w.cur) && w.pending == old(w.pending)
    ensures tps != [] ==> w.cur == Extend(old(w.Current(w.indent)), MethodTypeParameterList(tps)) && !w.pending
  {
    if tps != [] {
      ghost var start := w.Current(w.indent);
      ghost var names := TypeParameterNames(tps);
      w.Write("<");
      var isFirst := true;
      for i := 0 to |tps|
        invariant isFirst <==> i == 0
        invariant w.lines == old(w.lines) && w.indent == old(w.indent) && !w.pending
        invariant w.cur == Extend(start, "<" + Join(names[..i], ","))
      {
        ghost var sofar := "<" + Join(names[..i], ",");
        if isFirst {
          isFirst := false;
          w.Write(tps[i].name);
          ExtendTwice(start, sofar, names[i]);
          assert sofar + names[i] == "<" + (Join(names[..i], ",") + names[i]);
        } else {
          w.Write(",");
          w.Write(tps[i].name);
          ExtendTwice(start, sofar, ",");
          ExtendTwice(start, sofar + ",", names[i]);
          assert sofar + "," + names[i] == "<" + (Join(names[..i], ",") + "," + names[i]);
        }
        JoinSnoc(names[..i], names[i], ",");
        assert names[..i + 1] == names[..i] + [names[i]];
      }
      w.Write(">");
      assert names[..|tps|] == names;
      ExtendTwice(start, "<" + Join(names, ","), ">");
    }
  }

  /** One constraint of a `where` clause, with the comma that separates it
      from the previous one. */
  method WriteConstraint(w: IndentedWriter, isFirstConstraint: bool, c: string) returns (isFirst': bool)
    modifies w
    ensures !isFirst'
    ensures w.lines == old(w.lines) && w.indent == old(w.indent) && !w.pending
    ensures w.cur == Extend(old(w.Current(w.indent)), (if isFirstConstraint then "" else ",") + c)
  {
    ghost var start := w.Current(w.indent);
    if isFirstConstraint {
      w.Write(c);
      assert "" + c == c;
    } else {
      w.Write(",");
      w.Write(c);
      ExtendTwice(start, ",", c);
    }
    isFirst' := false;
  }

  /** The writer after writing the constraints `items` from `start`: untouched
      when there are none. */
  ghost predicate WroteConstraints(w: IndentedWriter, start: Line, cur0: Line, pending0: bool, items: seq<string>)
    reads w
  {
    if items == [] then w.cur == cur0 && w.pending == pending0
    else w.cur == Extend(start, Join(items, ",")) && !w.pending
  }

  lemma WroteOneMore(w: IndentedWriter, start: Line, cur0: Line, pending0: bool, items: seq<string>, c: string,
                     before: Line, after: Line)
    requires start == (if pending0 then Line(start.indent, "") else cur0)
    requires items == [] ==> before == start
    requires items != [] ==> before == Extend(start, Join(items, ","))
    requires after == Extend(before, (if items == [] then "" else ",") + c)
    ensures after == Extend(start, Join(items + [c], ","))
  {
    JoinSnoc(items, c, ",");
    if items == [] {
      assert "" + c == c;
    } else {
      ExtendTwice(start, Join(items, ","), "," + c);
      assert Join(items, ",") + ("," + c) == Join(items, ",") + "," + c;
    }
  }

  /** Writes a special constraint when its flag is set, after the constraints
      `items` written before it. */
  method WriteFlagConstraint(w: IndentedWriter, has: bool, isFirstConstraint: bool, c: string,
                             ghost start: Line, ghost cur0: Line, ghost pending0: bool, ghost items: seq<string>)
    returns (isFirst': bool, ghost items': seq<string>)
    modifies w
    requires start == (if pending0 then Line(w.indent, "") else cur0)
    requires isFirstConstraint <==> items == []
    requires WroteConstraints(w, start, cur0, pending0, items)
    ensures items' == items + (if has then [c] else [])
    ensures isFirst' <==> items' == []
    ensures w.lines == old(w.lines) && w.indent == old(w.indent)
    ensures WroteConstraints(w, start, cur0, pending0, items')
  {
    isFirst', items' := isFirstConstraint, items;
    if has {
      ghost var before := w.Current(w.indent);
      isFirst' := WriteConstraint(w, isFirstConstraint, c);
      WroteOneMore(w, start, cur0, pending0, items, c, before, w.cur);
      items' := items + [c];
    }
  }

  /** Writes the constraint types of a type parameter, separated by commas. */
  method WriteConstraintTypes(w: IndentedWriter, types: seq<string>,
                              ghost start: Line, ghost cur0: Line, ghost pending0: bool)
    returns (isFirstConstraint: bool)
    modifies w
    requires start == (if pending0 then Line(w.indent, "") else cur0)
    requires w.cur == cur0 && w.pending == pending0
    ensures isFirstConstraint <==> types == []
    ensures w.lines == old(w.lines) && w.indent == old(w.indent)
    ensures WroteConstraints(w, start, cur0, pending0, types)
  {
    isFirstConstraint := true;
    for i := 0 to |types|
      invariant isFirstConstraint <==> i == 0
      invariant w.lines == old(w.lines) && w.indent == old(w.indent)
      invariant WroteConstraints(w, start, cur0, pending0, types[..i])
    {
      ghost var before := w.Current(w.indent);
      isFirstConstraint := WriteConstraint(w, isFirstConstraint, types[i]);
      WroteOneMore(w, start, cur0, pending0, types[..i], types[i], before, w.cur);
      assert types[..i + 1] == types[..i] + [types[i]];
    }
    assert types[..|types|] == types;
  }

  /** Writes the `unmanaged`, `struct` and `new()` constraints a type
      parameter has, after the constraints `items` already written. */
  method WriteLastConstraints(w: IndentedWriter, tp: TypeParameter, isFirstConstraint: bool,
                              ghost start: Line, ghost cur0: Line, ghost pending0: bool, ghost items: seq<string>)
    returns (ghost items': seq<string>)
    modifies w
    requires start == (if pending0 then Line(w.indent, "") else cur0)
    requires isFirstConstraint <==> items == []
    requires WroteConstraints(w, start, cur0, pending0, items)
    ensures items' == items
      + (if tp.hasUnmanagedTypeConstraint then ["unmanaged"] else [])
      + (if tp.hasValueTypeConstraint then ["struct"] else [])
      + (if tp.hasConstructorConstraint then ["new()"] else [])
    ensures w.lines == old(w.lines) && w.indent == old(w.indent)
    ensures WroteConstraints(w, start, cur0, pending0, items')
  {
    var isFirst := isFirstConstraint;
    items' := items;
    isFirst, items' :=
      WriteFlagConstraint(w, tp.hasUnmanagedTypeConstraint, isFirst, "unmanaged", start, cur0, pending0, items');
    isFirst, items' :=
      WriteFlagConstraint(w, tp.hasValueTypeConstraint, isFirst, "struct", start, cur0, pending0, items');
    // `new()` comes last: the flag is not updated after it
    var unused;
    unused, items' :=
      WriteFlagConstraint(w, tp.hasConstructorConstraint, isFirst, "new()", start, cur0, pending0, items');
  }

  /** Writes the constraints of one type parameter, separated by commas, in
      the fixed order; nothing when it has none. */
  method WriteConstraintList(w: IndentedWriter, tp: TypeParameter)
    modifies w
    ensures w.lines == old(w.lines) && w.indent == old(w.indent)
    ensures ConstraintItems(tp) == [] ==> w.cur == old(w.cur) && w.pending == old(w.pending)
    ensures ConstraintItems(tp) != [] ==>
      w.cur == Extend(old(w.Current(w.indent)), Join(ConstraintItems(tp), ",")) && !w.pending
  {
    ghost var start := w.Current(w.indent);
    ghost var cur0, pending0 := w.cur, w.pending;
    var isFirstConstraint := WriteConstraintTypes(w, tp.constraintTypes, start, cur0, pending0);
    ghost var items := tp.constraintTypes;
    isFirstConstraint, items :=
      WriteFlagConstraint(w, tp.hasNotNullConstraint, isFirstConstraint, "notnull", start, cur0, pending0, items);
    isFirstConstraint, items :=
      WriteFlagConstraint(w, tp.hasReferenceTypeConstraint, isFirstConstraint, "class", start, cur0, pending0, items);
    items := WriteLastConstraints(w, tp, isFirstConstraint, start, cur0, pending0, items);
    assert items == ConstraintItems(tp);
  }

  /** The writer after the `where` clauses `cs`, each on a line of its own
      at `level`, the first of them after the line `first` it was begun on:
      untouched when there are none, and the last one still open. */
  ghost predicate WroteClauses(w: IndentedWriter, lines0: seq<Line>, cur0: Line, pending0: bool,
                               first: Line, level: nat, cs: seq<string>)
    reads w
  {
    if cs == [] then w.lines == lines0 && w.cur == cur0 && w.pending == pending0
    else w.lines == lines0 + [first] + ClauseLines(level, cs[..|cs| - 1]) &&
         w.cur == Line(level, cs[|cs| - 1]) && !w.pending
  }

  /** Writes the `where` clause of one type parameter on a new line, if it
      has any constraint. */
  method WriteConstraintClause(w: IndentedWriter, tp: TypeParameter, ghost lines0: seq<Line>, ghost cur0: Line,
                               ghost pending0: bool, ghost first: Line, ghost cs: seq<string>)
    returns (ghost cs': seq<string>)
    modifies w
    requires first == (if pending0 then Line(w.indent, "") else cur0)
    requires WroteClauses(w, lines0, cur0, pending0, first, w.indent, cs)
    ensures cs' == cs + (if HasConstraints(tp) then [ConstraintClause(tp)] else [])
    ensures w.indent == old(w.indent)
    ensures WroteClauses(w, lines0, cur0, pending0, first, w.indent, cs')
  {
    ghost var level := w.indent;
    cs' := cs;
    if HasConstraints(tp) {
      w.EndLine();
      if cs != [] {
        assert ClauseLines(level, cs) == ClauseLines(level, cs[..|cs| - 1]) + [Line(level, cs[|cs| - 1])];
      }
      assert w.lines == lines0 + [first] + ClauseLines(level, cs);
      w.Write("where " + tp.name + " : ");
      ExtendBlank(level, "where " + tp.name + " : ");
      WriteConstraintList(w, tp);
      ConstraintItemsOrder(tp);
      cs' := cs + [ConstraintClause(tp)];
      assert cs'[..|cs|] == cs;
    }
  }

  /** Writes the `where` clauses of a method, each on a new line one level
      deeper; the level is back where it was afterwards. */
  method WriteMethodTypeConstraints(w: IndentedWriter, tps: seq<TypeParameter>)
    modifies w
    ensures w.indent == old(w.indent)
    ensures ConstraintClauses(tps) == [] ==>
      w.lines == old(w.lines) && w.cur == old(w.cur) && w.pending == old(w.pending)
    ensures var cs := ConstraintClauses(tps);
      cs != [] ==>
        w.lines == old(w.lines) + [old(w.Current(w.indent + 1))] + ClauseLines(old(w.indent) + 1, cs[..|cs| - 1]) &&
        w.cur == Line(old(w.indent) + 1, cs[|cs| - 1]) && !w.pending
  {
    ghost var lines0, cur0, pending0 := w.lines, w.cur, w.pending;
    ghost var first := w.Current(w.indent + 1);
    w.IncreaseIndent();
    ghost var level := w.indent;
    for i := 0 to |tps|
      invariant w.indent == level
      invariant WroteClauses(w, lines0, cur0, pending0, first, level, ConstraintClauses(tps[..i]))
    {
      assert tps[..i + 1][..i] == tps[..i];
      ghost var cs := WriteConstraintClause(w, tps[i], lines0, cur0, pending0, first, ConstraintClauses(tps[..i]));
    }
    assert tps[..|tps|] == tps;
    w.DecreaseIndent();
  }

  /** Writes a string as the body of a verbatim literal, quotes doubled. */
  method WriteVerbatim(w: IndentedWriter, s: string)
    modifies w
    ensures w.lines == old(w.lines) && w.indent == old(w.indent)
    ensures w.cur == Extend(old(w.Current(w.indent)), "@\"" + DoubleQuotes(s) + "\"") && !w.pending
  {
    ghost var start := w.Current(w.indent);
    w.Write("@\"");
    w.Write(DoubleQuotes(s));
    ExtendTwice(start, "@\"", DoubleQuotes(s));
    w.Write("\"");
    ExtendTwice(start, "@\"" + DoubleQuotes(s), "\"");
  }
  /** Writes ` = ` and the explicit default of a parameter, if it has one. */
  method WriteDefaultValue(w: IndentedWriter, d: DefaultValue)
    modifies w
    ensures w.lines == old(w.lines) && w.indent == old(w.indent)
    ensures d.NoDefault? ==> w.cur == old(w.cur) && w.pending == old(w.pending)
    ensures !d.NoDefault? ==> w.cur == Extend(old(w.Current(w.indent)), DefaultText(d)) && !w.pending
  {
    if !d.NoDefault? {
      ghost var start := w.Current(w.indent);
      w.Write(" = ");
      ghost var value: string;
      match d {
        case NullDefault =>
          w.Write("null");
          value := "null";
        case BoolDefault(b) =>
          if b {
            w.Write("true");
            value := "true";
          } else {
            w.Write("false");
            value := "false";
          }
        case StringDefault(s) =>
          WriteVerbatim(w, s);
          value := "@\"" + DoubleQuotes(s) + "\"";
        case OtherDefault(t) =>
          w.Write(t);
          value := t;
      }
      ExtendTwice(start, " = ", value);
      assert DefaultText(d) == " = " + value;
    }
  }

  /** Writes `this ` when asked to, then the ref kind's prefix. Fails, as
      the prefix lookup throws, when the ref kind has none. */
  method WriteParameterModifiers(w: IndentedWriter, kind: RefKind, withThis: bool) returns (ok: bool)
    modifies w
    ensures ok <==> !kind.RefReadOnlyParameter?
    ensures w.lines == old(w.lines) && w.indent == old(w.indent)
    ensures ok ==> w.cur == Extend(old(w.Current(w.indent)), ParameterModifiers(kind, withThis)) && !w.pending
  {
    ghost var start := w.Current(w.indent);
    ghost var text := "";
    ExtendEmpty(start);
    if withThis {
      w.Write("this ");
      text := "this ";
    }
    assert w.Current(w.indent) == Extend(start, text);
    var prefix := GetParameterPrefix(kind);
    if prefix.Err? {
      return false;
    }
    w.Write(prefix.value);
    ExtendTwice(start, text, prefix.value);
    ok := true;
  }

  /** Writes `params ` when the parameter is a parameter array, then the type,
      the name and the default value. */
  method WriteParameterDeclaration(w: IndentedWriter, p: Parameter)
    modifies w
    ensures w.lines == old(w.lines) && w.indent == old(w.indent) && !w.pending
    ensures w.cur == Extend(old(w.Current(w.indent)), ParameterDeclaration(p))
  {
    ghost var start := w.Current(w.indent);
    ghost var params := if p.isParams then "params " else "";
    if p.isParams {
      w.Write("params ");
    } else {
      ExtendEmpty(start);
    }
    var typedName := p.qualifiedType + " " + p.name;
    w.Write(typedName);
    ExtendTwice(start, params, typedName);
    ghost var text := params + typedName;
    WriteDefaultValue(w, p.default);
    if p.default.NoDefault? {
      assert text + DefaultText(p.default) == text;
    } else {
      ExtendTwice(start, text, DefaultText(p.default));
    }
  }

  /** Writes one parameter on the current line. Fails, as the prefix lookup
      throws, when its ref kind has no prefix. */
  method WriteParameter(w: IndentedWriter, p: Parameter, withThis: bool) returns (ok: bool)
    modifies w
    ensures ok <==> !p.refKind.RefReadOnlyParameter?
    ensures w.lines == old(w.lines) && w.indent == old(w.indent)
    ensures ok ==> w.cur == Extend(old(w.Current(w.indent)), ParameterText(p, withThis)) && !w.pending
  {
    ghost var start := w.Current(w.indent);
    ok := WriteParameterModifiers(w, p.refKind, withThis);
    if !ok {
      return;
    }
    WriteParameterDeclaration(w, p);
    ExtendTwice(start, ParameterModifiers(p.refKind, withThis), ParameterDeclaration(p));
  }

  /** The writer after the first `i` parameters of a list, each line one
      level deeper than `level`, after the lines `before`: the last of them is
      still open. */
  ghost predicate WroteParameters(w: IndentedWriter, before: seq<Line>, level: nat,
                                  ps: seq<Parameter>, ext: bool, placement: ThisPlacement, i: nat)
    requires i <= |ps| && ValidRefKinds(ps[..i])
    reads w
  {
    w.indent == level + 1 &&
    if i == 0 then w.lines == before && w.pending
    else
      var ts := ParameterTexts(ps[..i], ext, placement);
      w.lines == before + CommaLines(level + 1, ts[..i - 1]) && w.cur == Line(level + 1, ts[i - 1]) && !w.pending
  }

  /** One more parameter with a prefix extends the texts by its own text. */
  lemma ParameterTextsSnoc(ps: seq<Parameter>, ext: bool, placement: ThisPlacement, i: nat)
    requires i < |ps| && ValidRefKinds(ps[..i]) && !ps[i].refKind.RefReadOnlyParameter?
    ensures ValidRefKinds(ps[..i + 1])
    ensures ParameterTexts(ps[..i + 1], ext, placement)
         == ParameterTexts(ps[..i], ext, placement) + [ParameterText(ps[i], ThisBefore(placement, ext, i))]
  {
    assert ps[..i + 1] == ps[..i] + [ps[i]];
  }

  /** Writes parameter `i`: the comma ending the previous parameter's line
      first, unless it is the first, then `this ` where `placement` puts it. */
  method WriteNextParameter(w: IndentedWriter, ps: seq<Parameter>, ext: bool, placement: ThisPlacement,
                            i: nat, isFirst: bool, ghost before: seq<Line>, ghost level: nat)
    returns (ok: bool)
    modifies w
    requires i < |ps| && ValidRefKinds(ps[..i]) && (isFirst <==> i == 0)
    requires WroteParameters(w, before, level, ps, ext, placement, i)
    ensures ok <==> !ps[i].refKind.RefReadOnlyParameter?
    ensures ok ==> ValidRefKinds(ps[..i + 1]) && WroteParameters(w, before, level, ps, ext, placement, i + 1)
  {
    ghost var ts := ParameterTexts(ps[..i], ext, placement);
    if !isFirst {
      w.WriteLine(",");
      assert w.lines == before + CommaLines(level + 1, ts);
    }
    var withThis := ThisBefore(placement, ext, i);
    ok := WriteParameter(w, ps[i], withThis);
    if ok {
      ExtendBlank(level + 1, ParameterText(ps[i], withThis));
      ParameterTextsSnoc(ps, ext, placement, i);
      ghost var ts' := ts + [ParameterText(ps[i], withThis)];
      assert ts'[..i] == ts;
    }
  }

  /** A block whose parameter lines have been written, closed by `)`. */
  lemma ParameterBlockSplit(start: Line, level: nat, ts: seq<string>, lines0: seq<Line>, lines1: seq<Line>, cur1: Line)
    requires ts != []
    requires lines1 == lines0 + [Extend(start, "(")] + CommaLines(level + 1, ts[..|ts| - 1])
    requires cur1 == Line(level + 1, ts[|ts| - 1])
    ensures var b := ParameterBlock(start, level, ts);
      lines1 == lines0 + b[..|b| - 1] && Extend(cur1, ")") == b[|b| - 1]
  {
    var head := [Extend(start, "(")] + CommaLines(level + 1, ts[..|ts| - 1]);
    var b := ParameterBlock(start, level, ts);
    assert b == head + [Line(level + 1, ts[|ts| - 1] + ")")];
    assert b[..|b| - 1] == head;
  }

  /** Ends the line after `(` and writes the parameters one level deeper,
      leaving the last one's line open. */
  method WriteParameterLines(w: IndentedWriter, ps: seq<Parameter>, ext: bool, placement: ThisPlacement)
    returns (ok: bool)
    modifies w
    requires ps != []
    ensures ok <==> ValidRefKinds(ps)
    ensures ok ==>
      WroteParameters(w, old(w.lines) + [old(w.Current(w.indent))], old(w.indent), ps, ext, placement, |ps|)
  {
    ghost var level := w.indent;
    w.EndLine();
    w.IncreaseIndent();
    ghost var before := w.lines;
    var isFirst := true;
    for i := 0 to |ps|
      invariant isFirst <==> i == 0
      invariant ValidRefKinds(ps[..i])
      invariant WroteParameters(w, before, level, ps, ext, placement, i)
    {
      ok := WriteNextParameter(w, ps, ext, placement, i, isFirst, before, level);
      isFirst := false;
      if !ok {
        assert !ValidRefKinds(ps) by {
          assert ps[i].refKind.RefReadOnlyParameter?;
        }
        return;
      }
    }
    assert ps[..|ps|] == ps;
    ok := true;
  }

  /** Writes the parameter lines of a non-empty list after the `(` that
      ends `start`, then `)` back at the method's level. */
  method WriteParameterBlock(w: IndentedWriter, ps: seq<Parameter>, ext: bool, placement: ThisPlacement,
                             ghost start: Line, ghost level: nat, ghost lines0: seq<Line>)
    returns (ok: bool)
    modifies w
    requires ps != []
    requires w.lines == lines0 && w.cur == Extend(start, "(") && !w.pending && w.indent == level
    ensures ok <==> ValidRefKinds(ps)
    ensures ok ==>
      var b := ParameterBlock(start, level, ParameterTexts(ps, ext, placement));
      w.lines == lines0 + b[..|b| - 1] && w.cur == b[|b| - 1] && !w.pending && w.indent == level
  {
    ok := WriteParameterLines(w, ps, ext, placement);
    if ok {
      ghost var ts := ParameterTexts(ps, ext, placement);
      assert ps[..|ps|] == ps;
      ghost var lines1, cur1 := w.lines, w.cur;
      w.DecreaseIndent();
      w.Write(")");
      ParameterBlockSplit(start, level, ts, lines0, lines1, cur1);
    }
  }

  /** Writes a method's parameter list. Fails, as the prefix lookup throws, at
      a parameter whose ref kind has no prefix. */
  method WriteMethodParameters(w: IndentedWriter, m: MethodSymbol, placement: ThisPlacement) returns (ok: bool)
    modifies w
    ensures ok <==> ValidRefKinds(m.parameters)
    ensures ok ==>
      var b := ParameterBlock(old(w.Current(w.indent)), old(w.indent),
                              ParameterTexts(m.parameters, m.isExtensionMethod, placement));
      w.lines == old(w.lines) + b[..|b| - 1] && w.cur == b[|b| - 1] && !w.pending && w.indent == old(w.indent)
  {
    var ps := m.parameters;
    ghost var start := w.Current(w.indent);
    ghost var level := w.indent;
    ghost var lines0 := w.lines;
    w.Write("(");
    if ps == [] {
      w.Write(")");
      ExtendTwice(start, "(", ")");
      assert ParameterTexts(ps, m.isExtensionMethod, placement) == [];
      ok := true;
    } else {
      ok := WriteParameterBlock(w, ps, m.isExtensionMethod, placement, start, level, lines0);
    }
  }

  /** Writes the modifiers, the return type, the name and the type parameter
      list of a method. */
  method WriteMethodHead(w: IndentedWriter, modifiers: seq<string>, m: MethodSymbol)
    modifies w
    ensures w.lines == old(w.lines) && w.indent == old(w.indent) && !w.pending
    ensures w.cur == Extend(old(w.Current(w.indent)), MethodHead(modifiers, m))
  {
    ghost var start := w.Current(w.indent);
    var returnType := if m.returnsVoid then "void" else m.returnType;
    var head := Join(modifiers, " ") + " " + returnType + " " + m.name;
    w.Write(head);
    WriteMethodTypeParameters(w, m.typeParameters);
    if m.typeParameters == [] {
      assert head + "" == head;
    } else {
      ExtendTwice(start, head, MethodTypeParameterList(m.typeParameters));
    }
  }

  /** Lines `b` written up to an open last line, then `extra` written after
      it, then `;`: the lines of `b + extra` with `;` ending the last one. */
  lemma CloseWithSemicolon(lines0: seq<Line>, b: seq<Line>, extra: seq<Line>,
                           lines1: seq<Line>, cur1: Line, lines2: seq<Line>, cur2: Line)
    requires |b| > 0 && lines1 == lines0 + b[..|b| - 1] && cur1 == b[|b| - 1]
    requires extra == [] ==> lines2 == lines1 && cur2 == cur1
    requires extra != [] ==> lines2 == lines1 + [cur1] + extra[..|extra| - 1] && cur2 == extra[|extra| - 1]
    ensures var all := b + extra;
      lines2 + [Extend(cur2, ";")] == lines0 + (all[..|all| - 1] + [Extend(all[|all| - 1], ";")])
  {
    var all := b + extra;
    if extra == [] {
      assert all == b;
    } else {
      assert all[..|all| - 1] == b + extra[..|extra| - 1];
      assert lines1 + [cur1] == lines0 + b;
    }
  }

  /** The lines of a method declaration are the parameter block, then the
      `where` clauses, with `;` ending the last line. */
  lemma MethodLinesAssemble(start: Line, level: nat, modifiers: seq<string>, m: MethodSymbol, placement: ThisPlacement,
                            lines0: seq<Line>, lines1: seq<Line>, cur1: Line, lines2: seq<Line>, cur2: Line)
    requires ValidRefKinds(m.parameters)
    requires var b := ParameterBlock(Extend(start, MethodHead(modifiers, m)), level,
                                     ParameterTexts(m.parameters, m.isExtensionMethod, placement));
      lines1 == lines0 + b[..|b| - 1] && cur1 == b[|b| - 1]
    requires var cs := ConstraintClauses(m.typeParameters);
      (cs == [] ==> lines2 == lines1 && cur2 == cur1) &&
      (cs != [] ==> lines2 == lines1 + [cur1] + ClauseLines(level + 1, cs[..|cs| - 1]) &&
                    cur2 == Line(level + 1, cs[|cs| - 1]))
    ensures lines2 + [Extend(cur2, ";")] == lines0 + MethodLines(start, level, modifiers, m, placement)
  {
    var b := ParameterBlock(Extend(start, MethodHead(modifiers, m)), level,
                            ParameterTexts(m.parameters, m.isExtensionMethod, placement));
    var cs := ConstraintClauses(m.typeParameters);
    var extra := ClauseLines(level + 1, cs);
    if cs != [] {
      assert extra[..|extra| - 1] == ClauseLines(level + 1, cs[..|cs| - 1]);
    }
    CloseWithSemicolon(lines0, b, extra, lines1, cur1, lines2, cur2);
  }

  /** Writes the parameters, the constraints and the closing `;` of a method
      whose head has been written on `start`. */
  method WriteMethodTail(w: IndentedWriter, modifiers: seq<string>, m: MethodSymbol, placement: ThisPlacement,
                         ghost start: Line, ghost level: nat, ghost lines0: seq<Line>)
    returns (ok: bool)
    modifies w
    requires w.lines == lines0 && w.cur == Extend(start, MethodHead(modifiers, m)) && !w.pending
    requires w.indent == level
    ensures ok <==> ValidRefKinds(m.parameters)
    ensures ok ==> w.lines == lines0 + MethodLines(start, level, modifiers, m, placement) && w.pending && w.indent == level
  {
    ok := WriteMethodParameters(w, m, placement);
    if ok {
      ghost var lines1, cur1 := w.lines, w.cur;
      WriteMethodTypeConstraints(w, m.typeParameters);
      ghost var lines2, cur2 := w.lines, w.cur;
      w.WriteLine(";");
      MethodLinesAssemble(start, level, modifiers, m, placement, lines0, lines1, cur1, lines2, cur2);
    }
  }

  /** Writes the declaration of a partial method: modifiers, return type, name,
      type parameters, parameters, constraints and the closing `;`. The
      emitter itself writes `this ` as `EveryParameter` places it. */
  method WritePartialMethod(w: IndentedWriter, modifiers: seq<string>, m: MethodSymbol, placement: ThisPlacement)
    returns (ok: bool)
    modifies w
    ensures ok <==> ValidRefKinds(m.parameters)
    ensures ok ==>
      w.lines == old(w.lines) + MethodLines(old(w.Current(w.indent)), old(w.indent), modifiers, m, placement) &&
      w.pending && w.indent == old(w.indent)
  {
    ghost var start := w.Current(w.indent);
    WriteMethodHead(w, modifiers, m);
    ok := WriteMethodTail(w, modifiers, m, placement, start, w.indent, w.lines);
  }
}
