/** The namespace a member is generated into: the innermost namespace
    declaration around it, extended outward through the block namespaces that
    directly contain it. */
module Namespaces {
  import opened Wrappers
  import opened Text
  import opened Symbols

  predicate IsNamespace(p: SyntaxParent)
  {
    p.NamespaceParent? || p.FileScopedNamespaceParent?
  }

  function NamespaceName(p: SyntaxParent): string
    requires IsNamespace(p)
  {
    p.name
  }

  /** The index of the first namespace among `ancestors[from..]`, if any. */
  function FirstNamespaceFrom(ancestors: seq<SyntaxParent>, from: nat): (k: Option<nat>)
    requires from <= |ancestors|
    ensures k.Some? ==> from <= k.value < |ancestors| && IsNamespace(ancestors[k.value])
    ensures forall j :: from <= j < |ancestors| && (k.None? || j < k.value) ==> !IsNamespace(ancestors[j])
    decreases |ancestors| - from
  {
    if from == |ancestors| then None
    else if IsNamespace(ancestors[from]) then Some(from)
    else FirstNamespaceFrom(ancestors, from + 1)
  }

  /** The names of the namespace `ancestors[k]` and of the block namespaces
      directly around it, outermost first (`OuterNamesRun` and `OuterNamesEnd`
      say which ancestor each entry names and where the chain ends). */
  function OuterNames(ancestors: seq<SyntaxParent>, k: nat): (r: seq<string>)
    requires k < |ancestors| && IsNamespace(ancestors[k])
    ensures 1 <= |r| && k + |r| <= |ancestors|
    decreases |ancestors| - k
  {
    if k + 1 < |ancestors| && ancestors[k + 1].NamespaceParent? then
      OuterNames(ancestors, k + 1) + [NamespaceName(ancestors[k])]
    else [NamespaceName(ancestors[k])]
  }

  /** `r` lists, outermost first, the names of the ancestors `k` up to
      `k + |r| - 1`: entry `i` names ancestor `k + |r| - 1 - i`. */
  predicate NamesRun(ancestors: seq<SyntaxParent>, k: nat, r: seq<string>)
  {
    k + |r| <= |ancestors| &&
    forall j :: k <= j < k + |r| ==>
      IsNamespace(ancestors[j]) && r[k + |r| - 1 - j] == NamespaceName(ancestors[j])
  }

  /** The chain names the ancestors from `k` outward. */
  lemma {:induction false} OuterNamesRun(ancestors: seq<SyntaxParent>, k: nat)
    requires k < |ancestors| && IsNamespace(ancestors[k])
    ensures NamesRun(ancestors, k, OuterNames(ancestors, k))
    decreases |ancestors| - k
  {
    if k + 1 < |ancestors| && ancestors[k + 1].NamespaceParent? {
      OuterNamesRun(ancestors, k + 1);
      var rest := OuterNames(ancestors, k + 1);
      var r := rest + [NamespaceName(ancestors[k])];
      forall j | k <= j < k + |r|
        ensures IsNamespace(ancestors[j]) && r[k + |r| - 1 - j] == NamespaceName(ancestors[j])
      {
        if j > k {
          assert r[k + |r| - 1 - j] == rest[(k + 1) + |rest| - 1 - j];
        }
      }
    }
  }

  /** Every ancestor of the chain after `k` is a block namespace, and the chain
      ends at the first ancestor that is not one. */
  lemma {:induction false} OuterNamesEnd(ancestors: seq<SyntaxParent>, k: nat)
    requires k < |ancestors| && IsNamespace(ancestors[k])
    ensures forall j :: k < j < k + |OuterNames(ancestors, k)| ==> ancestors[j].NamespaceParent?
    ensures k + |OuterNames(ancestors, k)| == |ancestors|
         || !ancestors[k + |OuterNames(ancestors, k)|].NamespaceParent?
    decreases |ancestors| - k
  {
    if k + 1 < |ancestors| && ancestors[k + 1].NamespaceParent? {
      OuterNamesEnd(ancestors, k + 1);
    }
  }

  /** The namespace name: empty without an enclosing namespace, otherwise the
      names of the chain of namespaces, outermost first, joined with dots. */
  function NamespaceOf(ancestors: seq<SyntaxParent>): string
  {
    match FirstNamespaceFrom(ancestors, 0)
    case None => ""
    case Some(k) => Join(OuterNames(ancestors, k), ".")
  }

  /** The walk finds no namespace exactly when no ancestor is a namespace
      declaration, and then the member is in the global namespace. */
  lemma GlobalNamespace(ancestors: seq<SyntaxParent>)
    ensures FirstNamespaceFrom(ancestors, 0).None?
        <==> forall j :: 0 <= j < |ancestors| ==> !IsNamespace(ancestors[j])
    ensures FirstNamespaceFrom(ancestors, 0).None? ==> NamespaceOf(ancestors) == ""
  {
  }

  /** The dotted parts of the namespace are the dotted parts of each
      declaration's name in the chain around the member, outermost first. */
  lemma NamespaceSegments(ancestors: seq<SyntaxParent>, k: nat)
    requires FirstNamespaceFrom(ancestors, 0) == Some(k)
    ensures Split(NamespaceOf(ancestors), '.') == SplitAll(OuterNames(ancestors, k), '.')
  {
    SplitJoinAll(OuterNames(ancestors, k), '.');
  }

  /** Walks up from the member to its innermost namespace, then outward
      through the block namespaces around that one, prepending each name. */
  method GetNamespace(ancestors: seq<SyntaxParent>) returns (name: string)
    ensures name == NamespaceOf(ancestors)
  {
    var k := 0;
    while k < |ancestors| && !IsNamespace(ancestors[k])
      invariant k <= |ancestors|
      invariant FirstNamespaceFrom(ancestors, k) == FirstNamespaceFrom(ancestors, 0)
      decreases |ancestors| - k
    {
      k := k + 1;
    }
    if k == |ancestors| {
      return "";
    }
    ghost var k0 := k;
    ghost var done: seq<string> := [];
    name := NamespaceName(ancestors[k]);
    while true
      invariant k0 <= k < |ancestors| && IsNamespace(ancestors[k])
      invariant OuterNames(ancestors, k0) == OuterNames(ancestors, k) + done
      invariant name == Join([NamespaceName(ancestors[k])] + done, ".")
      decreases |ancestors| - k
    {
      if !(k + 1 < |ancestors| && ancestors[k + 1].NamespaceParent?) {
        break;
      }
      OuterNamesStep(ancestors, k, done);
      JoinCons(ancestors[k + 1].name, [NamespaceName(ancestors[k])] + done, ".");
      done := [NamespaceName(ancestors[k])] + done;
      k := k + 1;
      name := ancestors[k].name + "." + name;
    }
  }

  lemma OuterNamesStep(ancestors: seq<SyntaxParent>, k: nat, done: seq<string>)
    requires k + 1 < |ancestors| && IsNamespace(ancestors[k]) && ancestors[k + 1].NamespaceParent?
    ensures OuterNames(ancestors, k) + done
      == OuterNames(ancestors, k + 1) + ([NamespaceName(ancestors[k])] + done)
  {
  }
}
