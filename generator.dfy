/** The generator's pass over the members marked with the DnnDeprecated
    attribute: a diagnostic for each member that is not partial, and a
    generated file for each partial member whose attribute reads cleanly. */
module Generator {
  import opened Wrappers
  import opened Symbols
  import opened IndentedText
  import opened HintNames
  import opened Namespaces
  import opened Deprecations
  import opened Emitter
  import opened Declarations

  // ---------------------------------------------------------------------------
  // The partial check

  datatype Severity = Hidden | Info | Warning | Error

  /** The fixed description of a diagnostic. */
  datatype DiagnosticDescriptor = DiagnosticDescriptor(
    id: string,
    title: string,
    messageFormat: string,
    category: string,
    severity: Severity,
    isEnabledByDefault: bool)

  /** The error reported for a member that is not partial. */
  const MustBePartial := DiagnosticDescriptor(
    "DNN1001",
    "Must be partial",
    "The member that the DnnDeprecated attribute is applied to must be partial",
    "Usage",
    Error,
    true)

  /** A reported diagnostic, located at the declaration it is about. */
  datatype Diagnostic = Diagnostic(descriptor: DiagnosticDescriptor, location: MemberDecl)

  predicate IsPartial(modifiers: seq<string>)
  {
    "partial" in modifiers
  }

  /** Looks for the `partial` modifier; without one the member is reported. */
  method ReportDiagnosticIfNotPartial(m: MemberDecl) returns (d: Option<Diagnostic>)
    ensures d.None? <==> IsPartial(m.modifiers)
    ensures d.Some? ==> d.value == Diagnostic(MustBePartial, m)
  {
    var isPartial := false;
    for i := 0 to |m.modifiers|
      invariant !isPartial <==> "partial" !in m.modifiers[..i]
    {
      if m.modifiers[i] == "partial" {
        isPartial := true;
        break;
      }
      assert m.modifiers[..i + 1] == m.modifiers[..i] + [m.modifiers[i]];
    }
    if isPartial {
      return None;
    }
    assert m.modifiers[..|m.modifiers|] == m.modifiers;
    return Some(Diagnostic(MustBePartial, m));
  }

  // ---------------------------------------------------------------------------
  // One member

  /** A generated file: its hint name and its lines. */
  datatype GeneratedSource = GeneratedSource(hintName: string, lines: seq<Line>)

  /** What the pass does with one member. */
  datatype Outcome = Skipped | Reported(diagnostic: Diagnostic) | Emitted(source: GeneratedSource)

  /** The outcome for one member: reported when it is not partial; skipped
      without a symbol or a deprecation; otherwise the file generated into its
      namespace and containing types, under its hint name. An attribute that
      does not read and a parameter without a prefix are errors. */
  function ProcessMember(m: MemberDecl, defaultRemoval: RemovalDefault, placement: ThisPlacement)
    : Result<Outcome, GeneratorError>
  {
    if !IsPartial(m.modifiers) then Ok(Reported(Diagnostic(MustBePartial, m)))
    else if !m.hasSymbol then Ok(Skipped)
    else
      match DeprecationOf(m.attributes, defaultRemoval)
      case Err(e) => Err(e)
      case Ok(None) => Ok(Skipped)
      case Ok(Some(d)) =>
        if !Writable(m.kind) then Err(UnexpectedRefKind(RefReadOnlyParameter))
        else
          var ns := NamespaceOf(m.ancestors);
          var types := ContainingTypesOf(m.ancestors);
          match HintName(ns, types, m.kind)
          case Err(e) => Err(e)
          case Ok(h) => Ok(Emitted(GeneratedSource(h, FileLines(ns, types, d, m.modifiers, m.kind, placement))))
  }

  /** Handles one member as the pass's loop body does, up to adding its file. */
  method ProcessOne(m: MemberDecl, defaultRemoval: RemovalDefault, placement: ThisPlacement)
    returns (r: Result<Outcome, GeneratorError>)
    ensures r == ProcessMember(m, defaultRemoval, placement)
  {
    var diagnostic := ReportDiagnosticIfNotPartial(m);
    if diagnostic.Some? {
      return Ok(Reported(diagnostic.value));
    }
    if !m.hasSymbol {
      return Ok(Skipped);
    }
    var deprecation := GetDeprecation(m.attributes, defaultRemoval);
    if deprecation.Err? {
      return Err(deprecation.error);
    }
    if deprecation.value.None? {
      return Ok(Skipped);
    }
    var ns := GetNamespace(m.ancestors);
    var types := CollectContainingTypes(m.ancestors);
    var text := EmitSource(ns, types, deprecation.value.value, m.modifiers, m.kind, placement);
    if text.Err? {
      return Err(text.error);
    }
    var hint := GetHintName(ns, types, m.kind);
    if hint.Err? {
      return Err(hint.error);
    }
    return Ok(Emitted(GeneratedSource(hint.value, text.value)));
  }

  // ---------------------------------------------------------------------------
  // Adding a file

  function UpperAscii(c: char): char
  {
    if 'a' <= c <= 'z' then (c as int - 32) as char else c
  }

  /** `s` with its ASCII letters in upper case. */
  function FoldCase(s: string): (f: string)
    ensures |f| == |s|
  {
    seq(|s|, i requires 0 <= i < |s| => UpperAscii(s[i]))
  }

  /** The name a file is added under, compared without regard to case: the
      hint with `.cs` appended unless it already ends with it. */
  function HintKey(hint: string): string
  {
    var f := FoldCase(hint);
    if |f| >= 3 && f[|f| - 3..] == ".CS" then f else f + ".CS"
  }

  /** Hints that differ only in the case of their letters name the same file,
      and so do a hint without the `.cs` extension and the hint with it. */
  lemma HintKeyIgnoresCaseAndExtension(hint: string)
    ensures HintKey(FoldCase(hint)) == HintKey(hint)
    ensures !(|hint| >= 3 && FoldCase(hint)[|hint| - 3..] == ".CS") ==> HintKey(hint + ".cs") == HintKey(hint)
  {
    assert FoldCase(FoldCase(hint)) == FoldCase(hint);
    var f := FoldCase(hint);
    assert FoldCase(hint + ".cs") == f + ".CS";
    assert (f + ".CS")[|f + ".CS"| - 3..] == ".CS";
  }

  /** The files added so far, by key, after one more outcome. */
  function Record(added: set<string>, o: Outcome): (after: set<string>)
  {
    if o.Emitted? then added + {HintKey(o.source.hintName)} else added
  }

  // ---------------------------------------------------------------------------
  // The pass

  /** The diagnostics reported and the files generated, in member order. */
  datatype Output = Output(diagnostics: seq<Diagnostic>, sources: seq<GeneratedSource>)

  /** `out` with one more outcome after it. */
  function Add(out: Output, o: Outcome): Output
  {
    match o
    case Skipped => out
    case Reported(diag) => Output(out.diagnostics + [diag], out.sources)
    case Emitted(src) => Output(out.diagnostics, out.sources + [src])
  }

  /** `first` followed by the outcome of the rest, or the rest's error. */
  function Then(first: Output, rest: Result<Output, GeneratorError>): Result<Output, GeneratorError>
  {
    match rest
    case Err(e) => Err(e)
    case Ok(o) => Ok(Output(first.diagnostics + o.diagnostics, first.sources + o.sources))
  }

  /** The members handled in order by `process`, with the files under the
      keys in `added` already added: the pass stops at the first missing
      member, an error in any member is the outcome of the whole pass, and so
      is a file whose key was added before, as adding it throws. */
  function Pass(members: seq<Option<MemberDecl>>, process: MemberDecl -> Result<Outcome, GeneratorError>,
                added: set<string>): Result<Output, GeneratorError>
  {
    if members == [] || members[0].None? then Ok(Output([], []))
    else
      match process(members[0].value)
      case Err(e) => Err(e)
      case Ok(o) =>
        if o.Emitted? && HintKey(o.source.hintName) in added then Err(DuplicateHintName(o.source.hintName))
        else Then(Add(Output([], []), o), Pass(members[1..], process, Record(added, o)))
  }

  /** The generator's pass: each member handled by `ProcessMember`. */
  function Generate(members: seq<Option<MemberDecl>>, defaultRemoval: RemovalDefault, placement: ThisPlacement,
                    added: set<string>): Result<Output, GeneratorError>
  {
    Pass(members, m => ProcessMember(m, defaultRemoval, placement), added)
  }

  /** The generator's output: nothing without members or without the attribute
      type in the compilation. */
  function GeneratorOutput(hasDeprecatedType: bool, members: seq<Option<MemberDecl>>,
                           defaultRemoval: RemovalDefault, placement: ThisPlacement)
    : Result<Output, GeneratorError>
  {
    if members == [] || !hasDeprecatedType then Ok(Output([], []))
    else Generate(members, defaultRemoval, placement, {})
  }

  /** Adding an outcome to the output so far, then the rest, is the output so
      far followed by that outcome and the rest. */
  lemma ThenAdd(out: Output, o: Outcome, rest: Result<Output, GeneratorError>)
    ensures Then(out, Then(Add(Output([], []), o), rest)) == Then(Add(out, o), rest)
  {
    if rest.Ok? {
      var r := rest.value;
      match o {
        case Skipped =>
          assert [] + r.diagnostics == r.diagnostics && [] + r.sources == r.sources;
        case Reported(diag) =>
          assert [] + [diag] == [diag] && [] + r.sources == r.sources;
          assert out.diagnostics + ([diag] + r.diagnostics) == out.diagnostics + [diag] + r.diagnostics;
        case Emitted(src) =>
          assert [] + [src] == [src] && [] + r.diagnostics == r.diagnostics;
          assert out.sources + ([src] + r.sources) == out.sources + [src] + r.sources;
      }
    }
  }

  lemma ThenNothing(rest: Result<Output, GeneratorError>)
    ensures Then(Output([], []), rest) == rest
  {
    if rest.Ok? {
      assert [] + rest.value.diagnostics == rest.value.diagnostics;
      assert [] + rest.value.sources == rest.value.sources;
    }
  }

  /** The pass over the members: the source's loop, with early returns for a
      missing member and for an error, adding each file under its hint. The
      files added so far are kept by key, so adding one whose key is already
      there fails. */
  method Execute(hasDeprecatedType: bool, members: seq<Option<MemberDecl>>,
                 defaultRemoval: RemovalDefault, placement: ThisPlacement)
    returns (r: Result<Output, GeneratorError>)
    ensures r == GeneratorOutput(hasDeprecatedType, members, defaultRemoval, placement)
  {
    if |members| == 0 || !hasDeprecatedType {
      return Ok(Output([], []));
    }
    var out := Output([], []);
    var added: set<string> := {};
    assert members[0..] == members;
    ThenNothing(Generate(members, defaultRemoval, placement, {}));
    for i := 0 to |members|
      invariant Generate(members, defaultRemoval, placement, {})
             == Then(out, Generate(members[i..], defaultRemoval, placement, added))
    {
      if members[i].None? {
        assert out.diagnostics + [] == out.diagnostics && out.sources + [] == out.sources;
        return Ok(out);
      }
      var o := ProcessOne(members[i].value, defaultRemoval, placement);
      if o.Err? {
        return Err(o.error);
      }
      if o.value.Emitted? {
        var key := HintKey(o.value.source.hintName);
        if key in added {
          return Err(DuplicateHintName(o.value.source.hintName));
        }
      }
      assert members[i..][1..] == members[i + 1..];
      ThenAdd(out, o.value, Generate(members[i + 1..], defaultRemoval, placement, Record(added, o.value)));
      out := Add(out, o.value);
      added := Record(added, o.value);
    }
    assert out.diagnostics + [] == out.diagnostics && out.sources + [] == out.sources;
    return Ok(out);
  }

  // ---------------------------------------------------------------------------
  // Properties of the pass

  /** Nothing after a missing member is looked at. */
  lemma {:induction false} MissingMemberStops(before: seq<Option<MemberDecl>>, rest: seq<Option<MemberDecl>>,
                                              defaultRemoval: RemovalDefault, placement: ThisPlacement,
                                              added: set<string>)
    ensures Generate(before + [None] + rest, defaultRemoval, placement, added)
         == Generate(before + [None], defaultRemoval, placement, added)
  {
    var all, cut := before + [None] + rest, before + [None];
    if before != [] && before[0].Some? {
      assert all[1..] == before[1..] + [None] + rest;
      assert cut[1..] == before[1..] + [None];
      var o := ProcessMember(before[0].value, defaultRemoval, placement);
      if o.Ok? {
        MissingMemberStops(before[1..], rest, defaultRemoval, placement, Record(added, o.value));
      }
    }
  }

  /** Every diagnostic is the partial error about a member that is not
      partial. */
  lemma {:induction false} DiagnosticsSound(members: seq<Option<MemberDecl>>, defaultRemoval: RemovalDefault,
                                            placement: ThisPlacement, added: set<string>, out: Output)
    requires Generate(members, defaultRemoval, placement, added) == Ok(out)
    ensures forall d :: d in out.diagnostics ==>
      d.descriptor == MustBePartial && !IsPartial(d.location.modifiers) && Some(d.location) in members
  {
    if members != [] && members[0].Some? {
      var o := ProcessMember(members[0].value, defaultRemoval, placement).value;
      var tail := members[1..];
      var rest := Generate(tail, defaultRemoval, placement, Record(added, o)).value;
      DiagnosticsSound(tail, defaultRemoval, placement, Record(added, o), rest);
      assert out.diagnostics == Add(Output([], []), o).diagnostics + rest.diagnostics;
      forall d | d in rest.diagnostics
        ensures Some(d.location) in members
      {
        assert Some(d.location) in tail;
      }
    }
  }

  /** Every generated file is what some member yields. */
  lemma {:induction false} SourcesSound(members: seq<Option<MemberDecl>>, defaultRemoval: RemovalDefault,
                                        placement: ThisPlacement, added: set<string>, out: Output)
    requires Generate(members, defaultRemoval, placement, added) == Ok(out)
    ensures forall s :: s in out.sources ==>
      exists i :: 0 <= i < |members| && members[i].Some?
                  && ProcessMember(members[i].value, defaultRemoval, placement) == Ok(Emitted(s))
  {
    if members != [] && members[0].Some? {
      var o := ProcessMember(members[0].value, defaultRemoval, placement).value;
      var tail := members[1..];
      var rest := Generate(tail, defaultRemoval, placement, Record(added, o)).value;
      SourcesSound(tail, defaultRemoval, placement, Record(added, o), rest);
      assert out.sources == Add(Output([], []), o).sources + rest.sources;
      forall s | s in out.sources
        ensures exists i :: 0 <= i < |members| && members[i].Some?
                            && ProcessMember(members[i].value, defaultRemoval, placement) == Ok(Emitted(s))
      {
        if s in rest.sources {
          var i :| 0 <= i < |tail| && tail[i].Some?
                   && ProcessMember(tail[i].value, defaultRemoval, placement) == Ok(Emitted(s));
          assert members[i + 1] == tail[i];
        } else {
          assert ProcessMember(members[0].value, defaultRemoval, placement) == Ok(Emitted(s));
        }
      }
    }
  }

  /** With every member present, a pass that succeeds went through all of
      them: each one's outcome succeeded, each member that is not partial was
      reported and each generated file is in the output. */
  lemma {:induction false} GenerateComplete(members: seq<Option<MemberDecl>>, defaultRemoval: RemovalDefault,
                                            placement: ThisPlacement, added: set<string>, out: Output)
    requires Generate(members, defaultRemoval, placement, added) == Ok(out)
    requires forall i :: 0 <= i < |members| ==> members[i].Some?
    ensures forall i :: 0 <= i < |members| ==> ProcessMember(members[i].value, defaultRemoval, placement).Ok?
    ensures forall i :: 0 <= i < |members| && !IsPartial(members[i].value.modifiers) ==>
      Diagnostic(MustBePartial, members[i].value) in out.diagnostics
    ensures forall i :: 0 <= i < |members| && ProcessMember(members[i].value, defaultRemoval, placement).Ok?
                        && ProcessMember(members[i].value, defaultRemoval, placement).value.Emitted? ==>
      ProcessMember(members[i].value, defaultRemoval, placement).value.source in out.sources
  {
    if members != [] {
      var o := ProcessMember(members[0].value, defaultRemoval, placement).value;
      var tail := members[1..];
      var rest := Generate(tail, defaultRemoval, placement, Record(added, o)).value;
      GenerateComplete(tail, defaultRemoval, placement, Record(added, o), rest);
      var first := Add(Output([], []), o);
      assert out.diagnostics == first.diagnostics + rest.diagnostics;
      assert out.sources == first.sources + rest.sources;
      forall i | 0 < i < |members|
        ensures members[i] == tail[i - 1]
      {
      }
    }
  }

  /** A pass that succeeds over a present first member: that member's outcome
      succeeded, its file, if any, went under a key not added before, and the
      rest of the pass succeeded after it. */
  lemma PassOk(members: seq<Option<MemberDecl>>, process: MemberDecl -> Result<Outcome, GeneratorError>,
               added: set<string>, out: Output)
    requires Pass(members, process, added) == Ok(out)
    requires members != [] && members[0].Some?
    ensures var o := process(members[0].value);
      o.Ok? && (o.value.Emitted? ==> HintKey(o.value.source.hintName) !in added)
      && var rest := Pass(members[1..], process, Record(added, o.value));
      rest.Ok? && out.sources == Add(Output([], []), o.value).sources + rest.value.sources
  {
  }

  /** A file under a key not added before, followed by files under pairwise
      different keys added neither before nor for it. */
  lemma KeysFreshCons(src: GeneratedSource, rest: seq<GeneratedSource>, added: set<string>)
    requires HintKey(src.hintName) !in added
    requires forall i :: 0 <= i < |rest| ==> HintKey(rest[i].hintName) !in added + {HintKey(src.hintName)}
    requires forall i, j :: 0 <= i < j < |rest| ==> HintKey(rest[i].hintName) != HintKey(rest[j].hintName)
    ensures var all := [src] + rest;
      (forall i :: 0 <= i < |all| ==> HintKey(all[i].hintName) !in added)
      && forall i, j :: 0 <= i < j < |all| ==> HintKey(all[i].hintName) != HintKey(all[j].hintName)
  {
    var all := [src] + rest;
    forall i | 1 <= i < |all|
      ensures all[i] == rest[i - 1]
    {
    }
  }

  /** The files of a pass that succeeds go under pairwise different keys, none
      of them added before. */
  lemma {:induction false} HintsUnique(members: seq<Option<MemberDecl>>,
                                       process: MemberDecl -> Result<Outcome, GeneratorError>,
                                       added: set<string>, out: Output)
    requires Pass(members, process, added) == Ok(out)
    ensures forall i :: 0 <= i < |out.sources| ==> HintKey(out.sources[i].hintName) !in added
    ensures forall i, j :: 0 <= i < j < |out.sources| ==>
      HintKey(out.sources[i].hintName) != HintKey(out.sources[j].hintName)
  {
    if members != [] && members[0].Some? {
      var o := process(members[0].value).value;
      var rest := Pass(members[1..], process, Record(added, o)).value;
      PassOk(members, process, added, out);
      HintsUnique(members[1..], process, Record(added, o), rest);
      if o.Emitted? {
        KeysFreshCons(o.source, rest.sources, added);
      }
    }
  }

  /** A member, reached with every member before it present, whose file goes
      under a key already added makes the pass fail. */
  lemma {:induction false} AddedHintFails(members: seq<Option<MemberDecl>>,
                                          process: MemberDecl -> Result<Outcome, GeneratorError>,
                                          added: set<string>, j: nat, s: GeneratedSource)
    requires j < |members| && forall k :: 0 <= k <= j ==> members[k].Some?
    requires process(members[j].value) == Ok(Emitted(s))
    requires HintKey(s.hintName) in added
    ensures Pass(members, process, added).Err?
  {
    if j > 0 {
      var first := process(members[0].value);
      if first.Ok? {
        AddedHintFails(members[1..], process, Record(added, first.value), j - 1, s);
      }
    }
  }

  /** Two members, reached with every member before them present, whose files
      go under the same key make the pass fail: overloads that share a hint
      cannot both be generated. */
  lemma {:induction false} SharedHintFails(members: seq<Option<MemberDecl>>,
                                           process: MemberDecl -> Result<Outcome, GeneratorError>,
                                           added: set<string>, i: nat, j: nat, s1: GeneratedSource, s2: GeneratedSource)
    requires i < j < |members| && forall k :: 0 <= k <= j ==> members[k].Some?
    requires process(members[i].value) == Ok(Emitted(s1))
    requires process(members[j].value) == Ok(Emitted(s2))
    requires HintKey(s1.hintName) == HintKey(s2.hintName)
    ensures Pass(members, process, added).Err?
  {
    var first := process(members[0].value);
    if first.Ok? {
      var added' := Record(added, first.value);
      var tail := members[1..];
      assert tail[j - 1] == members[j];
      if i == 0 {
        AddedHintFails(tail, process, added', j - 1, s2);
      } else {
        assert tail[i - 1] == members[i];
        SharedHintFails(tail, process, added', i - 1, j - 1, s1, s2);
      }
    }
  }

  /** A generated file is opened in the member's namespace and carries, at
      the member's depth inside its containing types, the obsolete attribute
      of the member's deprecation. */
  lemma EmittedFileMarksMember(m: MemberDecl, defaultRemoval: RemovalDefault, placement: ThisPlacement,
                               s: GeneratedSource)
    requires ProcessMember(m, defaultRemoval, placement) == Ok(Emitted(s))
    ensures var types := ContainingTypesOf(m.ancestors);
      IsPartial(m.modifiers) && m.hasSymbol
      && Ok(s.hintName) == HintName(NamespaceOf(m.ancestors), types, m.kind)
      && s.lines[1] == Line(0, "namespace " + NamespaceOf(m.ancestors) + ";")
      && exists d :: DeprecationOf(m.attributes, defaultRemoval) == Ok(Some(d))
                     && s.lines[3 + 2 * |types|] == Line(|types|, ObsoleteAttributeLine(d))
  {
    var d := DeprecationOf(m.attributes, defaultRemoval).value.value;
    var types := ContainingTypesOf(m.ancestors);
    FileOpening(NamespaceOf(m.ancestors), types, d, m.modifiers, m.kind, placement);
  }
}
