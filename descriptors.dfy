/**
 * Interpretation of one template object descriptor: its kind, and the
 * namespaced name under which the generated resource is looked up. Each
 * descriptor is modelled by the three strings read out of it ("kind",
 * "metadata.name", "metadata.namespace"); a missing field reads as "".
 */
module Descriptors {
  import opened GoStrings
  import opened Substitution

  datatype ObjectDescriptor = ObjectDescriptor(kind: string, name: string, namespace: string)

  /** The key of an object in a live resource store. */
  datatype NamespacedName = NamespacedName(namespace: string, name: string)

  /** A name or namespace is treated as a placeholder expression when it holds a '{'. */
  predicate IsPlaceholder(s: string) {
    Contains(s, "{")
  }

  /**
   * The namespace to look the object up in: the instance namespace when the
   * descriptor gives none, otherwise the descriptor's own, resolved against
   * the parameters when it is a placeholder expression.
   */
  function ResolveNamespace(d: ObjectDescriptor, instanceNamespace: string, parameters: seq<Parameter>): (ns: string)
    ensures d.namespace == "" ==> ns == instanceNamespace
    ensures d.namespace != "" && !IsPlaceholder(d.namespace) ==> ns == d.namespace
    ensures IsPlaceholder(d.namespace) ==> ns == GetParameter(parameters, d.namespace)
  {
    if d.namespace != "" then
      if IsPlaceholder(d.namespace) then GetParameter(parameters, d.namespace) else d.namespace
    else
      instanceNamespace
  }

  /**
   * The object's name: the descriptor's name, resolved against the parameters
   * when it is a placeholder expression. The source's extra test that the name
   * is non-empty changes nothing, as the empty string holds no '{'.
   */
  function ResolveName(d: ObjectDescriptor, parameters: seq<Parameter>): (n: string)
    ensures n == if IsPlaceholder(d.name) then GetParameter(parameters, d.name) else d.name
  {
    if d.name != "" && IsPlaceholder(d.name) then GetParameter(parameters, d.name) else d.name
  }

  function Resolve(d: ObjectDescriptor, instanceNamespace: string, parameters: seq<Parameter>): NamespacedName {
    NamespacedName(ResolveNamespace(d, instanceNamespace, parameters), ResolveName(d, parameters))
  }

  /**
   * An explicit namespace that is a placeholder nobody matches resolves to "",
   * never to the instance namespace: an unresolved placeholder is not passed on.
   */
  lemma UnmatchedNamespaceIsEmpty(d: ObjectDescriptor, instanceNamespace: string, parameters: seq<Parameter>)
    requires IsPlaceholder(d.namespace) && NoMatch(parameters, d.namespace)
    ensures ResolveNamespace(d, instanceNamespace, parameters) == ""
  {
  }

  /**
   * A namespace that is exactly parameter i's token, i being the first
   * parameter whose token occurs in it, resolves to parameter i's value.
   */
  lemma TokenNamespaceResolves(d: ObjectDescriptor, instanceNamespace: string, parameters: seq<Parameter>, i: int)
    requires 0 <= i < |parameters|
    requires d.namespace == Token(parameters[i].name)
    requires IsFirstMatch(parameters, d.namespace, i)
    ensures ResolveNamespace(d, instanceNamespace, parameters) == parameters[i].value
  {
    var t := Token(parameters[i].name);
    assert t[1..][..1] == "{";
    assert "{" <= t[1..];
    assert Contains(t[1..], "{");
    assert IsPlaceholder(d.namespace);
    ExactTokenResolves(parameters, i);
  }
}
