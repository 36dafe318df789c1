/**
 * Concrete binding requests worked through the model: one LoadBalancer
 * Service, one Secret, two Secrets sharing a key, a failed Service lookup
 * after a successful one, and placeholder namespaces.
 */
module Scenarios {
  import opened GoStrings
  import opened Substitution
  import opened Descriptors
  import opened Binding

  const Ns: string := "team-a"

  function NoParameters(): TemplateInstance {
    TemplateInstance([])
  }

  lemma NameHasNoPlaceholder(s: string)
    requires forall i :: 0 <= i < |s| ==> s[i] != '{'
    ensures !IsPlaceholder(s)
  {
    ContainsIff(s, "{");
    forall i ensures !OccursAt(s, "{", i) {
      if 0 <= i < |s| {
        assert s[i..i + 1][0] == s[i];
      }
    }
  }

  /** A LoadBalancer Service with ingress 10.0.0.5 and port 5432 yields that host, that port and both credentials. */
  lemma LoadBalancerServiceScenario()
    ensures
      var d := ObjectDescriptor(ServiceKind, "db", "");
      var svc := Service(LoadBalancer, ["10.0.0.5"], [5432]);
      var ctx := Context(Ns, NoParameters(), Cluster(map[NamespacedName(Ns, "db") := svc], map[]));
      Bind(Template([d]), ctx)
        == Ok(Response(map[InstanceIp := "10.0.0.5", InstancePort := "5432"], Endpoints("10.0.0.5", ["5432"])))
  {
    var d := ObjectDescriptor(ServiceKind, "db", "");
    var svc := Service(LoadBalancer, ["10.0.0.5"], [5432]);
    var ctx := Context(Ns, NoParameters(), Cluster(map[NamespacedName(Ns, "db") := svc], map[]));
    NameHasNoPlaceholder("db");
    assert Key(d, ctx) == NamespacedName(Ns, "db");
    assert DecimalDigits(54) == "54";
    assert DecimalDigits(543) == "543";
    assert FormatInt(5432) == "5432";
    var r1 := AfterIngresses(EmptyResponse, ["10.0.0.5"]);
    assert ["10.0.0.5"][..0] == [];
    assert r1 == Response(map[InstanceIp := "10.0.0.5"], Endpoints("10.0.0.5", []));
    var ports: seq<int32> := [5432];
    assert ports[..0] == [];
    assert AfterPorts(r1, ports) == Response(map[InstanceIp := "10.0.0.5", InstancePort := "5432"], Endpoints("10.0.0.5", ["5432"]));
    assert Step(EmptyResponse, d, ctx) == Ok(AfterService(EmptyResponse, svc));
    assert AfterService(EmptyResponse, svc) == AfterPorts(r1, ports);
    assert [d][1..] == [];
    assert BindFrom(EmptyResponse, [d], ctx) == BindFrom(AfterPorts(r1, ports), [], ctx);
  }

  /** One Secret: its data becomes exactly the credentials, with no endpoints. */
  lemma OneSecretScenario()
    ensures
      var d := ObjectDescriptor(SecretKind, "creds", "");
      var secrets := map[NamespacedName(Ns, "creds") := Secret(map["user" := "u1", "pass" := "p1"])];
      var ctx := Context(Ns, NoParameters(), Cluster(map[], secrets));
      Bind(Template([d]), ctx) == Ok(Response(map["user" := "u1", "pass" := "p1"], Endpoints("", [])))
  {
    var d := ObjectDescriptor(SecretKind, "creds", "");
    var secrets := map[NamespacedName(Ns, "creds") := Secret(map["user" := "u1", "pass" := "p1"])];
    var ctx := Context(Ns, NoParameters(), Cluster(map[], secrets));
    NameHasNoPlaceholder("creds");
    assert Key(d, ctx) == NamespacedName(Ns, "creds");
    var r1 := Response(map["user" := "u1", "pass" := "p1"], Endpoints("", []));
    assert map[] + map["user" := "u1", "pass" := "p1"] == r1.credentials;
    assert Step(EmptyResponse, d, ctx) == Ok(r1);
    assert [d][1..] == [];
    assert BindFrom(EmptyResponse, [d], ctx) == BindFrom(r1, [], ctx);
  }

  /** Two Secrets sharing a key: the later descriptor's value wins, other keys are merged. */
  lemma TwoSecretsScenario()
    ensures
      var d1 := ObjectDescriptor(SecretKind, "s1", "");
      var d2 := ObjectDescriptor(SecretKind, "s2", "");
      var secrets := map[NamespacedName(Ns, "s1") := Secret(map["user" := "u1", "pass" := "p1"]),
                         NamespacedName(Ns, "s2") := Secret(map["pass" := "p2"])];
      var ctx := Context(Ns, NoParameters(), Cluster(map[], secrets));
      Bind(Template([d1, d2]), ctx) == Ok(Response(map["user" := "u1", "pass" := "p2"], Endpoints("", [])))
  {
    var d1 := ObjectDescriptor(SecretKind, "s1", "");
    var d2 := ObjectDescriptor(SecretKind, "s2", "");
    var secrets := map[NamespacedName(Ns, "s1") := Secret(map["user" := "u1", "pass" := "p1"]),
                       NamespacedName(Ns, "s2") := Secret(map["pass" := "p2"])];
    var ctx := Context(Ns, NoParameters(), Cluster(map[], secrets));
    NameHasNoPlaceholder("s1");
    NameHasNoPlaceholder("s2");
    assert Key(d1, ctx) == NamespacedName(Ns, "s1");
    assert Key(d2, ctx) == NamespacedName(Ns, "s2");
    var r1 := Response(map["user" := "u1", "pass" := "p1"], Endpoints("", []));
    assert map[] + map["user" := "u1", "pass" := "p1"] == r1.credentials;
    assert Step(EmptyResponse, d1, ctx) == Ok(r1);
    assert map["user" := "u1", "pass" := "p1"] + map["pass" := "p2"] == map["user" := "u1", "pass" := "p2"];
    var r2 := Response(map["user" := "u1", "pass" := "p2"], Endpoints("", []));
    assert Step(r1, d2, ctx) == Ok(r2);
    assert [d1, d2][1..] == [d2];
    assert [d2][1..] == [];
    assert BindFrom(EmptyResponse, [d1, d2], ctx) == BindFrom(r1, [d2], ctx);
    assert BindFrom(r1, [d2], ctx) == BindFrom(r2, [], ctx);
  }

  /** A missing Service after a successful Secret still fails the whole request. */
  lemma MissingServiceScenario()
    ensures
      var d1 := ObjectDescriptor(SecretKind, "s1", "");
      var d2 := ObjectDescriptor(ServiceKind, "gone", "");
      var ctx := Context(Ns, NoParameters(), Cluster(map[], map[NamespacedName(Ns, "s1") := Secret(map["user" := "u1"])]));
      Bind(Template([d1, d2]), ctx) == BadRequest
  {
    var d1 := ObjectDescriptor(SecretKind, "s1", "");
    var d2 := ObjectDescriptor(ServiceKind, "gone", "");
    var ctx := Context(Ns, NoParameters(), Cluster(map[], map[NamespacedName(Ns, "s1") := Secret(map["user" := "u1"])]));
    NameHasNoPlaceholder("gone");
    assert LookupFails([d1, d2][1], ctx);
    BadRequestIffLookupFails(EmptyResponse, [d1, d2], ctx);
  }

  /** "${ns}" against the parameter ns = team-b resolves to team-b. */
  lemma PlaceholderNamespaceScenario()
    ensures ResolveNamespace(ObjectDescriptor(SecretKind, "s", "${ns}"), Ns, [Parameter("ns", "team-b")]) == "team-b"
  {
    var ps := [Parameter("ns", "team-b")];
    assert Token("ns") == "${ns}";
    assert Token("ns") <= "${ns}";
    assert IsFirstMatch(ps, "${ns}", 0);
    TokenNamespaceResolves(ObjectDescriptor(SecretKind, "s", "${ns}"), Ns, ps, 0);
  }

  /** "${missing}" with no parameter of that name resolves to the empty namespace. */
  lemma UnmatchedPlaceholderScenario()
    ensures ResolveNamespace(ObjectDescriptor(SecretKind, "s", "${missing}"), Ns, [Parameter("ns", "team-b")]) == ""
  {
    var s := "${missing}";
    assert "{" <= s[1..];
    assert IsPlaceholder(s);
    var t := Token("ns");
    ContainsIff(s, t);
    forall i ensures !OccursAt(s, t, i) {
      if 0 <= i && i + |t| <= |s| {
        assert s[i..i + |t|][0] == s[i];
        assert s[i..i + |t|][2] == s[i + 2];
      }
    }
    assert NoMatch([Parameter("ns", "team-b")], s);
  }
}
