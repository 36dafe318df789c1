/**
 * Binding resolution (BindingServiceInstance): the template's object
 * descriptors are walked in order, the Service and Secret each one names is
 * fetched from the live store, and each contributes to one shared response
 * (credentials, endpoint host, endpoint ports). A failed fetch aborts the
 * whole request with 400 Bad Request.
 *
 * The value-level functions (AfterIngresses ... Bind) are the specification;
 * the class ServiceBindingResponse and the method BindingServiceInstance are
 * the imperative model, proved equal to it.
 */
module Binding {
  import opened GoStrings
  import opened Substitution
  import opened Descriptors

  /** Kubernetes port numbers are 32-bit signed integers. */
  type int32 = x: int | -0x8000_0000 <= x < 0x8000_0000

  const ServiceKind: string := "Service"
  const SecretKind: string := "Secret"
  /** corev1.ServiceTypeLoadBalancer */
  const LoadBalancer: string := "LoadBalancer"
  const InstanceIp: string := "instance-ip"
  const InstancePort: string := "instance-port"

  /** The live state of a Service: its type, its load-balancer ingress IPs and its declared ports. */
  datatype Service = Service(serviceType: string, ingressIPs: seq<string>, ports: seq<int32>)

  /** The live state of a Secret: its data, with each byte value read as a string. */
  datatype Secret = Secret(data: map<string, string>)

  /** The live resource store; a key that is absent is a failed lookup. */
  datatype Cluster = Cluster(services: map<NamespacedName, Service>, secrets: map<NamespacedName, Secret>)

  datatype TemplateInstance = TemplateInstance(parameters: seq<Parameter>)
  datatype Template = Template(objects: seq<ObjectDescriptor>)

  /** What one request resolves against: the instance namespace, the fetched instance and the live store. */
  datatype Context = Context(instanceNamespace: string, instance: TemplateInstance, cluster: Cluster)

  datatype Endpoints = Endpoints(host: string, ports: seq<string>)
  datatype Response = Response(credentials: map<string, string>, endpoints: Endpoints)

  /** 200 with the encoded response, or 400 with no response body. */
  datatype Outcome = Ok(response: Response) | BadRequest

  const EmptyResponse: Response := Response(map[], Endpoints("", []))

  // ---------------------------------------------------------------------------
  // Specification: one step per ingress, per port, per resource, per descriptor
  // ---------------------------------------------------------------------------

  /** The response after the ingress loop has visited ips in order. */
  function AfterIngresses(r: Response, ips: seq<string>): Response
    decreases |ips|
  {
    if ips == [] then r
    else
      var prev := AfterIngresses(r, ips[..|ips| - 1]);
      var ip := ips[|ips| - 1];
      Response(prev.credentials[InstanceIp := ip], prev.endpoints.(host := ip))
  }

  /** The response after the port loop has visited ports in order. */
  function AfterPorts(r: Response, ports: seq<int32>): Response
    decreases |ports|
  {
    if ports == [] then r
    else
      var prev := AfterPorts(r, ports[..|ports| - 1]);
      var port := FormatInt(ports[|ports| - 1]);
      Response(prev.credentials[InstancePort := port], prev.endpoints.(ports := prev.endpoints.ports + [port]))
  }

  /** The decimal renderings of ports, in declared order. */
  function Rendered(ports: seq<int32>): seq<string> {
    seq(|ports|, i requires 0 <= i < |ports| => FormatInt(ports[i]))
  }

  /** What a fetched Service contributes: only a LoadBalancer runs the two loops. */
  function AfterService(r: Response, service: Service): Response {
    if service.serviceType == LoadBalancer then
      AfterPorts(AfterIngresses(r, service.ingressIPs), service.ports)
    else
      r
  }

  /** What a fetched Secret contributes: its data overrides the credentials key by key. */
  function AfterSecret(r: Response, secret: Secret): (r': Response)
    ensures r'.endpoints == r.endpoints
    ensures r'.credentials.Keys == r.credentials.Keys + secret.data.Keys
    ensures forall k :: k in secret.data ==> r'.credentials[k] == secret.data[k]
    ensures forall k :: k in r.credentials && k !in secret.data ==> r'.credentials[k] == r.credentials[k]
  {
    Response(r.credentials + secret.data, r.endpoints)
  }

  function Key(d: ObjectDescriptor, ctx: Context): NamespacedName {
    Resolve(d, ctx.instanceNamespace, ctx.instance.parameters)
  }

  /** The descriptor names a Service or Secret that the live store does not hold. */
  predicate LookupFails(d: ObjectDescriptor, ctx: Context) {
    || (d.kind == ServiceKind && Key(d, ctx) !in ctx.cluster.services)
    || (d.kind == SecretKind && Key(d, ctx) !in ctx.cluster.secrets)
  }

  /** One iteration of the descriptor loop. */
  function Step(r: Response, d: ObjectDescriptor, ctx: Context): Outcome {
    var key := Key(d, ctx);
    if d.kind == ServiceKind then
      if key in ctx.cluster.services then Ok(AfterService(r, ctx.cluster.services[key])) else BadRequest
    else if d.kind == SecretKind then
      if key in ctx.cluster.secrets then Ok(AfterSecret(r, ctx.cluster.secrets[key])) else BadRequest
    else
      Ok(r)
  }

  /** The descriptor loop run from response r over objects, stopping at the first failed lookup. */
  function BindFrom(r: Response, objects: seq<ObjectDescriptor>, ctx: Context): Outcome
    decreases |objects|
  {
    if objects == [] then Ok(r)
    else
      match Step(r, objects[0], ctx)
      case BadRequest => BadRequest
      case Ok(r') => BindFrom(r', objects[1..], ctx)
  }

  /** The outcome of a binding request, starting from an empty response. */
  function Bind(template: Template, ctx: Context): Outcome {
    BindFrom(EmptyResponse, template.objects, ctx)
  }

  // ---------------------------------------------------------------------------
  // Properties of one Service and one Secret
  // ---------------------------------------------------------------------------

  /** The ingress loop leaves the ports alone and makes the last IP both host and instance-ip. */
  lemma {:induction false} IngressesLastWins(r: Response, ips: seq<string>)
    ensures AfterIngresses(r, ips).endpoints.ports == r.endpoints.ports
    ensures ips == [] ==> AfterIngresses(r, ips) == r
    ensures ips != [] ==>
      && AfterIngresses(r, ips).endpoints.host == ips[|ips| - 1]
      && AfterIngresses(r, ips).credentials == r.credentials[InstanceIp := ips[|ips| - 1]]
    decreases |ips|
  {
    if ips != [] {
      var init := ips[..|ips| - 1];
      IngressesLastWins(r, init);
      if init != [] {
        var m := r.credentials[InstanceIp := init[|init| - 1]];
        assert m[InstanceIp := ips[|ips| - 1]] == r.credentials[InstanceIp := ips[|ips| - 1]];
      }
    }
  }

  /** The port loop appends every rendering in order, keeps the host, and makes the last one instance-port. */
  lemma {:induction false} PortsAppended(r: Response, ports: seq<int32>)
    ensures AfterPorts(r, ports).endpoints.host == r.endpoints.host
    ensures AfterPorts(r, ports).endpoints.ports == r.endpoints.ports + Rendered(ports)
    ensures ports == [] ==> AfterPorts(r, ports).credentials == r.credentials
    ensures ports != [] ==>
      AfterPorts(r, ports).credentials == r.credentials[InstancePort := FormatInt(ports[|ports| - 1])]
    decreases |ports|
  {
    if ports != [] {
      var init := ports[..|ports| - 1];
      PortsAppended(r, init);
      assert Rendered(ports) == Rendered(init) + [FormatInt(ports[|ports| - 1])];
      if init != [] {
        var m := r.credentials[InstancePort := FormatInt(init[|init| - 1])];
        assert m[InstancePort := FormatInt(ports[|ports| - 1])]
            == r.credentials[InstancePort := FormatInt(ports[|ports| - 1])];
      }
    } else {
      assert Rendered(ports) == [];
    }
  }

  /**
   * What one Service contributes, in closed form: nothing unless it is a
   * LoadBalancer; then its port renderings are appended whatever the ingress
   * count, the last ingress IP (if any) becomes host and instance-ip, the last
   * port (if any) becomes instance-port, and no other credential changes.
   */
  lemma ServiceContribution(r: Response, service: Service)
    ensures service.serviceType != LoadBalancer ==> AfterService(r, service) == r
    ensures service.serviceType == LoadBalancer ==>
      var ips, ports := service.ingressIPs, service.ports;
      var r' := AfterService(r, service);
      && r'.endpoints.ports == r.endpoints.ports + Rendered(ports)
      && r'.endpoints.host == (if ips == [] then r.endpoints.host else ips[|ips| - 1])
      && (ips != [] ==> InstanceIp in r'.credentials && r'.credentials[InstanceIp] == ips[|ips| - 1])
      && (ports != [] ==> InstancePort in r'.credentials && r'.credentials[InstancePort] == FormatInt(ports[|ports| - 1]))
      && r'.credentials.Keys == r.credentials.Keys
           + (if ips == [] then {} else {InstanceIp}) + (if ports == [] then {} else {InstancePort})
      && (forall k :: k in r.credentials && k != InstanceIp && k != InstancePort ==> r'.credentials[k] == r.credentials[k])
      && (ips == [] ==> forall k :: k in r.credentials && k != InstancePort ==> r'.credentials[k] == r.credentials[k])
      && (ports == [] ==> forall k :: k in r.credentials && k != InstanceIp ==> r'.credentials[k] == r.credentials[k])
  {
    if service.serviceType == LoadBalancer {
      IngressesLastWins(r, service.ingressIPs);
      PortsAppended(AfterIngresses(r, service.ingressIPs), service.ports);
    }
  }

  // ---------------------------------------------------------------------------
  // Properties of a whole request
  // ---------------------------------------------------------------------------

  /** Running the loop over a + b is running it over a, then (unless that failed) over b. */
  lemma {:induction false} BindFromAppend(r: Response, a: seq<ObjectDescriptor>, b: seq<ObjectDescriptor>, ctx: Context)
    ensures BindFrom(r, a + b, ctx) ==
      match BindFrom(r, a, ctx)
      case BadRequest => BadRequest
      case Ok(r') => BindFrom(r', b, ctx)
    decreases |a|
  {
    if a == [] {
      assert a + b == b;
    } else {
      assert (a + b)[0] == a[0];
      assert (a + b)[1..] == a[1..] + b;
      match Step(r, a[0], ctx)
      case BadRequest =>
      case Ok(r') => BindFromAppend(r', a[1..], b, ctx);
    }
  }

  /**
   * A request fails with 400 exactly when some Service or Secret descriptor
   * names a resource the store does not hold, however many descriptors before
   * it succeeded; otherwise it succeeds with the accumulated response.
   */
  lemma {:induction false} BadRequestIffLookupFails(r: Response, objects: seq<ObjectDescriptor>, ctx: Context)
    ensures BindFrom(r, objects, ctx).BadRequest? <==> exists i :: 0 <= i < |objects| && LookupFails(objects[i], ctx)
    decreases |objects|
  {
    if objects != [] {
      if LookupFails(objects[0], ctx) {
        assert Step(r, objects[0], ctx).BadRequest?;
      } else {
        var r' := Step(r, objects[0], ctx).response;
        BadRequestIffLookupFails(r', objects[1..], ctx);
        forall i | 0 < i < |objects| ensures objects[1..][i - 1] == objects[i] { }
        if exists i :: 0 <= i < |objects| && LookupFails(objects[i], ctx) {
          var i :| 0 <= i < |objects| && LookupFails(objects[i], ctx);
          assert LookupFails(objects[1..][i - 1], ctx);
        }
      }
    }
  }

  /** The descriptors the loop acts on: those whose kind is exactly Service or Secret. */
  function Fetched(objects: seq<ObjectDescriptor>): seq<ObjectDescriptor>
    decreases |objects|
  {
    if objects == [] then []
    else if objects[0].kind == ServiceKind || objects[0].kind == SecretKind then [objects[0]] + Fetched(objects[1..])
    else Fetched(objects[1..])
  }

  /** Descriptors of any other kind are skipped: dropping them changes neither the outcome nor the response. */
  lemma {:induction false} OtherKindsSkipped(r: Response, objects: seq<ObjectDescriptor>, ctx: Context)
    ensures BindFrom(r, Fetched(objects), ctx) == BindFrom(r, objects, ctx)
    decreases |objects|
  {
    if objects != [] {
      var d := objects[0];
      if d.kind == ServiceKind || d.kind == SecretKind {
        var f := [d] + Fetched(objects[1..]);
        assert f[0] == d && f[1..] == Fetched(objects[1..]);
        match Step(r, d, ctx)
        case BadRequest =>
        case Ok(r') => OtherKindsSkipped(r', objects[1..], ctx);
      } else {
        OtherKindsSkipped(r, objects[1..], ctx);
      }
    }
  }

  /** A template with no Service or Secret descriptor, in particular an empty one, binds to the empty response. */
  lemma NothingFetchedGivesEmptyResponse(template: Template, ctx: Context)
    requires Fetched(template.objects) == []
    ensures Bind(template, ctx) == Ok(EmptyResponse)
  {
    OtherKindsSkipped(EmptyResponse, template.objects, ctx);
  }

  /** The port strings one descriptor contributes: those of a fetched LoadBalancer Service. */
  function PortsOf(d: ObjectDescriptor, ctx: Context): seq<string> {
    var key := Key(d, ctx);
    if d.kind == ServiceKind && key in ctx.cluster.services && ctx.cluster.services[key].serviceType == LoadBalancer
    then Rendered(ctx.cluster.services[key].ports)
    else []
  }

  function AllPorts(objects: seq<ObjectDescriptor>, ctx: Context): seq<string>
    decreases |objects|
  {
    if objects == [] then [] else PortsOf(objects[0], ctx) + AllPorts(objects[1..], ctx)
  }

  /** One successful step appends exactly the descriptor's own port strings. */
  lemma StepPorts(r: Response, d: ObjectDescriptor, ctx: Context)
    requires Step(r, d, ctx).Ok?
    ensures Step(r, d, ctx).response.endpoints.ports == r.endpoints.ports + PortsOf(d, ctx)
  {
    var key := Key(d, ctx);
    if d.kind == ServiceKind {
      ServiceContribution(r, ctx.cluster.services[key]);
    } else {
      assert PortsOf(d, ctx) == [];
    }
  }

  /** On success, the endpoint ports are every LoadBalancer Service's port renderings, in template order. */
  lemma {:induction false} PortsInTemplateOrder(r: Response, objects: seq<ObjectDescriptor>, ctx: Context)
    requires BindFrom(r, objects, ctx).Ok?
    ensures BindFrom(r, objects, ctx).response.endpoints.ports == r.endpoints.ports + AllPorts(objects, ctx)
    decreases |objects|
  {
    if objects != [] {
      var d := objects[0];
      StepPorts(r, d, ctx);
      var r' := Step(r, d, ctx).response;
      PortsInTemplateOrder(r', objects[1..], ctx);
      assert r.endpoints.ports + PortsOf(d, ctx) + AllPorts(objects[1..], ctx)
          == r.endpoints.ports + AllPorts(objects, ctx);
    }
  }

  /** The descriptor may write credential key k: a fetched Secret holding k, or a LoadBalancer Service that sets k. */
  predicate Touches(d: ObjectDescriptor, k: string, ctx: Context) {
    var key := Key(d, ctx);
    || (d.kind == SecretKind && key in ctx.cluster.secrets && k in ctx.cluster.secrets[key].data)
    || (&& d.kind == ServiceKind && key in ctx.cluster.services
        && ctx.cluster.services[key].serviceType == LoadBalancer
        && ((k == InstanceIp && ctx.cluster.services[key].ingressIPs != [])
            || (k == InstancePort && ctx.cluster.services[key].ports != [])))
  }

  /** Descriptors that do not touch k leave the credential at k as it was. */
  lemma {:induction false} UntouchedKeyKept(r: Response, objects: seq<ObjectDescriptor>, ctx: Context, k: string)
    requires BindFrom(r, objects, ctx).Ok?
    requires forall i :: 0 <= i < |objects| ==> !Touches(objects[i], k, ctx)
    ensures var c := BindFrom(r, objects, ctx).response.credentials;
      (k in c <==> k in r.credentials) && (k in c ==> c[k] == r.credentials[k])
    decreases |objects|
  {
    if objects != [] {
      var d := objects[0];
      assert !Touches(d, k, ctx);
      var r' := Step(r, d, ctx).response;
      if d.kind == ServiceKind {
        ServiceContribution(r, ctx.cluster.services[Key(d, ctx)]);
      }
      assert (k in r'.credentials <==> k in r.credentials) && (k in r'.credentials ==> r'.credentials[k] == r.credentials[k]);
      forall i | 0 <= i < |objects| - 1 ensures !Touches(objects[1..][i], k, ctx) {
        assert objects[1..][i] == objects[i + 1];
      }
      UntouchedKeyKept(r', objects[1..], ctx, k);
    }
  }

  /**
   * Last write wins across descriptors: if descriptor j is a fetched Secret
   * holding key k and no later descriptor touches k, a successful request
   * returns Secret j's value for k, whatever earlier descriptors wrote there.
   */
  lemma LastSecretWins(template: Template, ctx: Context, j: int, k: string)
    requires Bind(template, ctx).Ok?
    requires 0 <= j < |template.objects|
    requires template.objects[j].kind == SecretKind
    requires Key(template.objects[j], ctx) in ctx.cluster.secrets
    requires k in ctx.cluster.secrets[Key(template.objects[j], ctx)].data
    requires forall i :: j < i < |template.objects| ==> !Touches(template.objects[i], k, ctx)
    ensures var c := Bind(template, ctx).response.credentials;
      k in c && c[k] == ctx.cluster.secrets[Key(template.objects[j], ctx)].data[k]
  {
    var objects := template.objects;
    var pre, d, post := objects[..j], objects[j], objects[j + 1..];
    assert objects == pre + [d] + post;
    BindFromAppend(EmptyResponse, pre + [d], post, ctx);
    BindFromAppend(EmptyResponse, pre, [d], ctx);
    var r1 := BindFrom(EmptyResponse, pre, ctx).response;
    var r2 := BindFrom(EmptyResponse, pre + [d], ctx).response;
    assert r2 == AfterSecret(r1, ctx.cluster.secrets[Key(d, ctx)]);
    forall i | 0 <= i < |post| ensures !Touches(post[i], k, ctx) {
      assert post[i] == objects[j + 1 + i];
    }
    UntouchedKeyKept(r2, post, ctx, k);
  }

  // ---------------------------------------------------------------------------
  // The imperative model: the shared response and the request handler
  // ---------------------------------------------------------------------------

  /** The response object the handler mutates in place. */
  class ServiceBindingResponse {
    var credentials: map<string, string>
    var endpoints: Endpoints

    /** The response as it would be encoded. */
    function Value(): Response
      reads this
    {
      Response(credentials, endpoints)
    }

    constructor ()
      ensures Value() == EmptyResponse
    {
      credentials := map[];
      endpoints := Endpoints("", []);
    }

    /** The body of the Service branch, after the fetch succeeded. */
    method AddService(service: Service)
      modifies this
      ensures Value() == AfterService(old(Value()), service)
    {
      if service.serviceType == LoadBalancer {
        var ips := service.ingressIPs;
        for i := 0 to |ips|
          invariant Value() == AfterIngresses(old(Value()), ips[..i])
        {
          endpoints := endpoints.(host := ips[i]);
          credentials := credentials[InstanceIp := ips[i]];
          assert ips[..i + 1][..i] == ips[..i];
        }
        assert ips[..|ips|] == ips;
        ghost var afterIngresses := Value();
        var ports := service.ports;
        for i := 0 to |ports|
          invariant Value() == AfterPorts(afterIngresses, ports[..i])
        {
          var port := FormatInt(ports[i]);
          credentials := credentials[InstancePort := port];
          endpoints := endpoints.(ports := endpoints.ports + [port]);
          assert ports[..i + 1][..i] == ports[..i];
        }
        assert ports[..|ports|] == ports;
      }
    }

    /** The body of the Secret branch: every key of the data, visited in any order, is written. */
    method AddSecret(secret: Secret)
      modifies this
      ensures Value() == AfterSecret(old(Value()), secret)
    {
      var pending := secret.data.Keys;
      while pending != {}
        invariant pending <= secret.data.Keys
        invariant endpoints == old(endpoints)
        invariant credentials == old(credentials) + (secret.data - pending)
        decreases pending
      {
        var key :| key in pending;
        credentials := credentials[key := secret.data[key]];
        pending := pending - {key};
      }
      assert secret.data - {} == secret.data;
    }
  }

  /**
   * BindingServiceInstance, from the fetched instance and template on: the
   * outcome is exactly the specification's, so a 400 carries no response body and
   * a 200 carries everything accumulated.
   */
  method BindingServiceInstance(template: Template, ctx: Context) returns (outcome: Outcome)
    ensures outcome == Bind(template, ctx)
  {
    var response := new ServiceBindingResponse();
    var objects := template.objects;
    for i := 0 to |objects|
      invariant BindFrom(response.Value(), objects[i..], ctx) == Bind(template, ctx)
    {
      var d := objects[i];
      assert objects[i..][0] == d && objects[i..][1..] == objects[i + 1..];
      var kind := d.kind;
      var namespace := ResolveNamespace(d, ctx.instanceNamespace, ctx.instance.parameters);
      var name := ResolveName(d, ctx.instance.parameters);
      var key := NamespacedName(namespace, name);
      if kind == ServiceKind {
        if key !in ctx.cluster.services {
          return BadRequest;
        }
        response.AddService(ctx.cluster.services[key]);
      } else if kind == SecretKind {
        if key !in ctx.cluster.secrets {
          return BadRequest;
        }
        response.AddSecret(ctx.cluster.secrets[key]);
      }
    }
    assert objects[|objects|..] == [];
    return Ok(response.Value());
  }
}
