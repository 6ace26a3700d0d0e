/** Reading the values of the DnnDeprecated attribute off a member's symbol. */
module Deprecations {
  import opened Wrappers
  import opened Symbols

  /** The named argument that overrides the removal version. */
  const RemovalVersionKey := "RemovalVersion"

  /** The index of the first DnnDeprecated attribute among `attrs[from..]`. */
  function FirstDeprecatedFrom(attrs: seq<AttributeData>, from: nat): (k: Option<nat>)
    requires from <= |attrs|
    ensures k.Some? ==> from <= k.value < |attrs| && attrs[k.value].isDnnDeprecated
    ensures forall j :: from <= j < |attrs| && (k.None? || j < k.value) ==> !attrs[j].isDnnDeprecated
    decreases |attrs| - from
  {
    if from == |attrs| then None
    else if attrs[from].isDnnDeprecated then Some(from)
    else FirstDeprecatedFrom(attrs, from + 1)
  }

  /** The index of the first named argument among `named[from..]` whose key is
      the removal version's (compared ordinally). */
  function FirstRemovalFrom(named: seq<NamedArgument>, from: nat): (k: Option<nat>)
    requires from <= |named|
    ensures k.Some? ==> from <= k.value < |named| && named[k.value].key == RemovalVersionKey
    ensures forall j :: from <= j < |named| && (k.None? || j < k.value) ==> named[j].key != RemovalVersionKey
    decreases |named| - from
  {
    if from == |named| then None
    else if named[from].key == RemovalVersionKey then Some(from)
    else FirstRemovalFrom(named, from + 1)
  }

  /** The removal version an attribute has when no named argument sets it:
      the attribute's own default, computed from the version it was
      deprecated in. */
  type RemovalDefault = (int, int, int) -> int

  /** The constructor arguments cast as the attribute's constructor expects:
      three integers and a string, which may be `null`. */
  predicate WellTyped(args: seq<TypedConstant>)
  {
    |args| >= 4 && args[0].IntConstant? && args[1].IntConstant? && args[2].IntConstant?
    && (args[3].StringConstant? || args[3].NullConstant?)
  }

  /** The deprecation read from well-typed arguments with removal version
      `removal`. A `null` replacement fails, as trimming it does when the
      attribute line is written (nothing in between can fail). */
  function WithReplacement(args: seq<TypedConstant>, removal: int): Result<Option<Deprecation>, GeneratorError>
    requires WellTyped(args)
  {
    match args[3]
    case StringConstant(s) => Ok(Some(Deprecation(args[0].i, args[1].i, args[2].i, s, removal)))
    case _ => Err(NullReplacement)
  }

  /** What one DnnDeprecated attribute yields: nothing when an argument does not
      bind, an error when the arguments do not cast, otherwise its values with
      the removal version taken from the first `RemovalVersion` named argument
      or, without one, the attribute's default. */
  function ReadAttribute(a: AttributeData, defaultRemoval: RemovalDefault): Result<Option<Deprecation>, GeneratorError>
  {
    var args := a.constructorArguments;
    if ErrorConstant in args then Ok(None)
    else if !WellTyped(args) then Err(InvalidAttributeArguments)
    else
      match FirstRemovalFrom(a.namedArguments, 0)
      case None => WithReplacement(args, defaultRemoval(args[0].i, args[1].i, args[2].i))
      case Some(k) =>
        match a.namedArguments[k].value
        case ErrorConstant => Ok(None)
        case IntConstant(v) => WithReplacement(args, v)
        case _ => Err(InvalidAttributeArguments)
  }

  /** The deprecation of a member: read from its first DnnDeprecated attribute;
      none without one. */
  function DeprecationOf(attrs: seq<AttributeData>, defaultRemoval: RemovalDefault): Result<Option<Deprecation>, GeneratorError>
  {
    match FirstDeprecatedFrom(attrs, 0)
    case None => Ok(None)
    case Some(k) => ReadAttribute(attrs[k], defaultRemoval)
  }

  /** Whether some constructor argument failed to bind. */
  method HasErrorArgument(args: seq<TypedConstant>) returns (found: bool)
    ensures found <==> ErrorConstant in args
  {
    for i := 0 to |args|
      invariant ErrorConstant !in args[..i]
    {
      if args[i].ErrorConstant? {
        return true;
      }
      assert args[..i + 1] == args[..i] + [args[i]];
    }
    assert args[..|args|] == args;
    return false;
  }

  /** Reads one DnnDeprecated attribute: its constructor arguments, then the
      named arguments up to the first one that sets the removal version. */
  method ReadDeprecation(a: AttributeData, defaultRemoval: RemovalDefault) returns (r: Result<Option<Deprecation>, GeneratorError>)
    ensures r == ReadAttribute(a, defaultRemoval)
  {
    var args := a.constructorArguments;
    var hasError := HasErrorArgument(args);
    if hasError {
      return Ok(None);
    }
    if !WellTyped(args) {
      return Err(InvalidAttributeArguments);
    }
    var named := a.namedArguments;
    for j := 0 to |named|
      invariant FirstRemovalFrom(named, j) == FirstRemovalFrom(named, 0)
    {
      if named[j].key != RemovalVersionKey {
        continue;
      }
      match named[j].value {
        case ErrorConstant =>
          return Ok(None);
        case IntConstant(v) =>
          return WithReplacement(args, v);
        case _ =>
          return Err(InvalidAttributeArguments);
      }
    }
    return WithReplacement(args, defaultRemoval(args[0].i, args[1].i, args[2].i));
  }

  /** Looks for the first DnnDeprecated attribute and reads it. */
  method GetDeprecation(attrs: seq<AttributeData>, defaultRemoval: RemovalDefault) returns (r: Result<Option<Deprecation>, GeneratorError>)
    ensures r == DeprecationOf(attrs, defaultRemoval)
  {
    for i := 0 to |attrs|
      invariant FirstDeprecatedFrom(attrs, i) == FirstDeprecatedFrom(attrs, 0)
    {
      if !attrs[i].isDnnDeprecated {
        continue;
      }
      r := ReadDeprecation(attrs[i], defaultRemoval);
      return;
    }
    return Ok(None);
  }

  /** Only the first DnnDeprecated attribute counts: whatever follows it. */
  lemma FirstAttributeDecides(before: seq<AttributeData>, a: AttributeData, after: seq<AttributeData>, defaultRemoval: RemovalDefault)
    requires forall j :: 0 <= j < |before| ==> !before[j].isDnnDeprecated
    requires a.isDnnDeprecated
    ensures DeprecationOf(before + [a] + after, defaultRemoval) == ReadAttribute(a, defaultRemoval)
  {
    var attrs := before + [a] + after;
    var k := FirstDeprecatedFrom(attrs, 0);
    assert attrs[|before|] == a;
    assert k.Some? && k.value <= |before|;
  }

  /** A member without the attribute has no deprecation. */
  lemma NoAttributeNoDeprecation(attrs: seq<AttributeData>, defaultRemoval: RemovalDefault)
    requires forall j :: 0 <= j < |attrs| ==> !attrs[j].isDnnDeprecated
    ensures DeprecationOf(attrs, defaultRemoval) == Ok(None)
  {
  }

  /** The values of a deprecation are the attribute's: the version and the
      replacement from its constructor arguments, and the removal version from
      the first `RemovalVersion` named argument or else the default. */
  lemma DeprecationValues(a: AttributeData, defaultRemoval: RemovalDefault, d: Deprecation)
    ensures ReadAttribute(a, defaultRemoval) == Ok(Some(d)) <==>
      var args := a.constructorArguments;
      ErrorConstant !in args && |args| >= 4
      && args[0] == IntConstant(d.majorVersion) && args[1] == IntConstant(d.minorVersion)
      && args[2] == IntConstant(d.patchVersion) && args[3] == StringConstant(d.replacement)
      && match FirstRemovalFrom(a.namedArguments, 0)
         case None => d.removalVersion == defaultRemoval(d.majorVersion, d.minorVersion, d.patchVersion)
         case Some(k) => a.namedArguments[k].value == IntConstant(d.removalVersion)
  {
  }

  /** The attribute is skipped exactly when a constructor argument does not
      bind, or the arguments cast and the removal version does not bind (even
      with a `null` replacement). */
  lemma DeprecationSkipped(a: AttributeData, defaultRemoval: RemovalDefault)
    ensures ReadAttribute(a, defaultRemoval) == Ok(None) <==>
      ErrorConstant in a.constructorArguments
      || (WellTyped(a.constructorArguments)
          && match FirstRemovalFrom(a.namedArguments, 0)
             case None => false
             case Some(k) => a.namedArguments[k].value == ErrorConstant)
  {
  }

  /** Reading fails exactly when every argument binds but one of them does
      not cast (too few constructor arguments, one of the wrong type, or a
      removal version that is not an integer), or when the replacement is
      `null` and the removal version does not make the attribute skipped. */
  lemma DeprecationFails(a: AttributeData, defaultRemoval: RemovalDefault)
    ensures ReadAttribute(a, defaultRemoval).Err? <==>
      var args := a.constructorArguments;
      ErrorConstant !in args
      && (!WellTyped(args)
          || match FirstRemovalFrom(a.namedArguments, 0)
             case None => args[3].NullConstant?
             case Some(k) =>
               var v := a.namedArguments[k].value;
               !v.ErrorConstant? && (!v.IntConstant? || args[3].NullConstant?))
  {
  }
}
