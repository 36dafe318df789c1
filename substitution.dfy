/**
 * Placeholder substitution: getParameter. A template instance carries an
 * ordered list of resolved parameters; a string is resolved against the first
 * parameter whose token "${name}" occurs in it.
 */
module Substitution {
  import opened GoStrings

  /** One resolved template parameter of a TemplateInstance. */
  datatype Parameter = Parameter(name: string, value: string)

  /** The placeholder token of a parameter name: "${" + name + "}". */
  function Token(name: string): (t: string)
    ensures |t| == |name| + 3 && t[0] == '$' && t[1] == '{' && t[|t| - 1] == '}'
  {
    "${" + name + "}"
  }

  /** True when the token of p occurs in s. */
  predicate Matches(p: Parameter, s: string) {
    Contains(s, Token(p.name))
  }

  /** Parameter i is the first one, in list order, whose token occurs in s. */
  ghost predicate IsFirstMatch(parameters: seq<Parameter>, s: string, i: int) {
    && 0 <= i < |parameters|
    && Matches(parameters[i], s)
    && forall j :: 0 <= j < i ==> !Matches(parameters[j], s)
  }

  /** No parameter's token occurs in s. */
  ghost predicate NoMatch(parameters: seq<Parameter>, s: string) {
    forall j :: 0 <= j < |parameters| ==> !Matches(parameters[j], s)
  }

  /**
   * getParameter: s with every occurrence of the first matching parameter's
   * token replaced by that parameter's value, or "" when no token occurs.
   */
  function GetParameter(parameters: seq<Parameter>, s: string): (r: string)
    ensures NoMatch(parameters, s) ==> r == ""
    ensures forall i :: IsFirstMatch(parameters, s, i) ==>
      r == ReplaceAll(s, Token(parameters[i].name), parameters[i].value)
    decreases |parameters|
  {
    if parameters == [] then ""
    else if Matches(parameters[0], s) then
      ReplaceAll(s, Token(parameters[0].name), parameters[0].value)
    else
      var r := GetParameter(parameters[1..], s);
      assert forall i :: IsFirstMatch(parameters, s, i) ==> IsFirstMatch(parameters[1..], s, i - 1);
      r
  }

  /** Exactly one of the two cases of the contract above applies to every string. */
  lemma {:induction false} MatchOrNone(parameters: seq<Parameter>, s: string)
    ensures NoMatch(parameters, s) || exists i :: IsFirstMatch(parameters, s, i)
    ensures NoMatch(parameters, s) ==> forall i :: !IsFirstMatch(parameters, s, i)
    decreases |parameters|
  {
    if parameters != [] && !Matches(parameters[0], s) {
      MatchOrNone(parameters[1..], s);
      if !NoMatch(parameters, s) {
        var i :| IsFirstMatch(parameters[1..], s, i);
        assert IsFirstMatch(parameters, s, i + 1);
      }
    } else if parameters != [] {
      assert IsFirstMatch(parameters, s, 0);
    }
  }

  /**
   * A string that is exactly one parameter's token, with no earlier parameter
   * matching, resolves to that parameter's value.
   */
  lemma ExactTokenResolves(parameters: seq<Parameter>, i: int)
    requires 0 <= i < |parameters|
    requires IsFirstMatch(parameters, Token(parameters[i].name), i)
    ensures GetParameter(parameters, Token(parameters[i].name)) == parameters[i].value
  {
    ReplaceWhole(Token(parameters[i].name), parameters[i].value);
  }

  /**
   * Only the first matching parameter is applied: when a string is the first
   * parameter's token followed by a tail holding no occurrence of it, the tail
   * comes back verbatim even if it holds another parameter's token.
   */
  lemma OnlyFirstMatchApplied(p: Parameter, rest: seq<Parameter>, tail: string)
    requires !Contains(tail, Token(p.name))
    ensures GetParameter([p] + rest, Token(p.name) + tail) == p.value + tail
  {
    var t := Token(p.name);
    var s := t + tail;
    assert s[..|t|] == t;
    assert Matches(p, s);
    assert IsFirstMatch([p] + rest, s, 0);
    ReplaceFirstOccurrence([], t, tail, p.value);
    assert [] + t + tail == s;
    ReplaceAbsent(tail, t, p.value);
  }

  /** A string holding no "${" at all never matches, so it resolves to "". */
  lemma NoTokenResolvesEmpty(parameters: seq<Parameter>, s: string)
    requires !Contains(s, "${")
    ensures GetParameter(parameters, s) == ""
  {
    forall j | 0 <= j < |parameters| ensures !Matches(parameters[j], s) {
      var t := Token(parameters[j].name);
      ContainsIff(s, t);
      ContainsIff(s, "${");
      forall i | OccursAt(s, t, i) ensures OccursAt(s, "${", i) {
        assert s[i..i + 2] == s[i..i + |t|][..2];
      }
    }
  }
}
