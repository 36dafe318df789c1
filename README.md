# Binding resolution of the template service broker, in Dafny

This project models how the template service broker answers an
Open-Service-Broker bind request (`BindingServiceInstance` in
`pkg/server/apis/binding.go`). The broker walks the object descriptors of
the instance's Template in order. For each one it works out a
namespace and a name, substituting `${param}` placeholders from the
TemplateInstance's parameters. It then fetches the Service or Secret with
that key from the cluster. Each one adds to a single shared response:

- endpoint host and `instance-ip` from a LoadBalancer Service's ingress IPs;
- endpoint ports and `instance-port` from its declared ports, rendered in decimal;
- every key/value of a Secret's data, copied into the credentials.

A Service or Secret that cannot be fetched ends the request with
400 Bad Request, and no response body is sent.

Modules, one per component:

- `GoStrings` (`gostrings.dfy`): the Go library helpers the code calls.
  `strings.Contains` and `strings.ReplaceAll` (non-overlapping, left to
  right) are modelled, with an occurrence-based partner for Contains.
  `strconv.FormatInt(_, 10)` is modelled with a decimal parser as its
  inverse.
- `Substitution` (`substitution.dfy`): `getParameter`, a recursive function
  over the ordered parameter list.
- `Descriptors` (`descriptors.dfy`): how a descriptor's kind, name and
  namespace become the lookup key.
- `Binding` (`binding.dfy`): the specification as value-level functions.
  `Step` is one descriptor; `BindFrom`/`Bind` fold it over the template and
  stop at the first failed lookup. The imperative model is the class
  `ServiceBindingResponse`, whose fields are updated in place by loops over
  ingresses, ports and secret keys, and the method `BindingServiceInstance`,
  whose descriptor loop returns early on a failed lookup. Both are proved
  equal to the specification.
- `Scenarios` (`scenarios.dfy`): concrete requests worked through the model.

Inputs that come from outside the core are parameters:

- the instance namespace;
- the fetched TemplateInstance (its parameter list);
- the fetched Template (its descriptor list);
- the live store, as maps from `(namespace, name)` to Service and Secret records.

A LoadBalancer Service's ports are appended, and `instance-port` set,
whatever its ingress count (binding.go:107-114). Only the host and
`instance-ip` need an ingress entry (`Binding.ServiceContribution`).

## Model

| member | source | states |
|---|---|---|
| `GoStrings.ContainsIff` | pkg/server/apis/binding.go:88 | the scan model of `strings.Contains` is true exactly when the substring occurs at some position |
| `GoStrings.ReplaceAbsent` | pkg/server/apis/binding.go:145 | `strings.ReplaceAll` returns a string holding no occurrence of the pattern unchanged |
| `GoStrings.ReplaceWithSelf` | pkg/server/apis/binding.go:145 | replacing a pattern by itself returns the input, for every input (empty pattern included) |
| `GoStrings.ReplaceFirstOccurrence` | pkg/server/apis/binding.go:145 | replacement is left to right and non-overlapping: text before the first occurrence is kept, the occurrence becomes the replacement, and replacement goes on in the rest only |
| `GoStrings.ReplaceWhole` | pkg/server/apis/binding.go:145 | a string that is exactly the pattern becomes exactly the replacement |
| `GoStrings.DecimalDigitsRoundTrip` | pkg/server/apis/binding.go:112-113 | the decimal digits of a natural number are canonical (digits only, no leading zero) and parse back to the number |
| `GoStrings.FormatIntRoundTrip` | pkg/server/apis/binding.go:112-113 | `FormatInt(n, 10)` is '-' plus canonical digits for negative n and canonical digits otherwise, and a decimal parser returns n from it |
| `GoStrings.FormatIntInjective` | pkg/server/apis/binding.go:112-113 | distinct port numbers render to distinct strings |
| `Substitution.GetParameter` | pkg/server/apis/binding.go:142-149 | with no parameter's `${name}` token in s the result is ""; otherwise it is s with every occurrence of the FIRST matching parameter's token (in list order) replaced by its value |
| `Substitution.MatchOrNone` | pkg/server/apis/binding.go:143-148 | every string either has a first matching parameter or matches none, and not both, so the two cases of getParameter cover all inputs |
| `Substitution.ExactTokenResolves` | pkg/server/apis/binding.go:143-145 | a string that is exactly the first matching parameter's token resolves to that parameter's value |
| `Substitution.OnlyFirstMatchApplied` | pkg/server/apis/binding.go:143-145 | after the first match is substituted the function returns; later parameters' tokens in the rest of the string are left verbatim |
| `Substitution.NoTokenResolvesEmpty` | pkg/server/apis/binding.go:142-148 | a string with no "${" at all resolves to "", whatever the parameters |
| `Descriptors.ResolveNamespace` | pkg/server/apis/binding.go:84-91 | an empty descriptor namespace gives the instance namespace; a non-empty one without '{' is used literally; one with '{' gives getParameter of it |
| `Descriptors.ResolveName` | pkg/server/apis/binding.go:85-96 | the descriptor name is used literally unless it contains '{', when it gives getParameter of it (the non-empty test is redundant) |
| `Descriptors.UnmatchedNamespaceIsEmpty` | pkg/server/apis/binding.go:86-90 | an explicit placeholder namespace that no parameter matches resolves to "", not to the instance namespace |
| `Descriptors.TokenNamespaceResolves` | pkg/server/apis/binding.go:86-90 | a namespace that is exactly parameter i's token, i being the first parameter whose token occurs in it, resolves to parameter i's value |
| `Binding.AfterSecret` | pkg/server/apis/binding.go:126-128 | a Secret sets every key of its data to its value, keeps every other credential, adds no other key, and leaves the endpoints alone |
| `Binding.IngressesLastWins` | pkg/server/apis/binding.go:107-110 | the ingress loop leaves the ports alone; with no ingress nothing changes; otherwise the last IP is both host and `instance-ip` and no other credential changes |
| `Binding.PortsAppended` | pkg/server/apis/binding.go:111-114 | the port loop appends exactly the decimal renderings of the ports in declared order, keeps the host, and sets `instance-port` to the last one (nothing when there are no ports) |
| `Binding.ServiceContribution` | pkg/server/apis/binding.go:106-116 | a non-LoadBalancer Service changes nothing; a LoadBalancer one appends its port renderings whatever its ingress count, sets host and `instance-ip` to the last ingress IP when one exists, sets `instance-port` to the last port when one exists, and changes no other credential |
| `Binding.BindFromAppend` | pkg/server/apis/binding.go:75-130 | the descriptor loop over a + b is the loop over a and then, unless that failed, the loop over b from the response it left |
| `Binding.BadRequestIffLookupFails` | pkg/server/apis/binding.go:98-129 | the request fails with 400 exactly when some Service or Secret descriptor names a resource the store does not hold, however many earlier descriptors succeeded; otherwise it is 200 with the accumulated response |
| `Binding.OtherKindsSkipped` | pkg/server/apis/binding.go:98-129 | descriptors whose kind is not exactly "Service" or "Secret" are skipped: dropping them changes neither outcome nor response |
| `Binding.NothingFetchedGivesEmptyResponse` | pkg/server/apis/binding.go:29-30 | a template with no Service or Secret descriptor (an empty one included) gives 200 with empty credentials, an empty host and no ports |
| `Binding.StepPorts` | pkg/server/apis/binding.go:98-129 | one successful descriptor appends exactly its own port strings (those of a fetched LoadBalancer Service, else none) |
| `Binding.PortsInTemplateOrder` | pkg/server/apis/binding.go:75-114 | on success the endpoint ports are the port renderings of every LoadBalancer Service, concatenated in template order |
| `Binding.UntouchedKeyKept` | pkg/server/apis/binding.go:75-130 | descriptors that do not write a credential key leave that key's presence and value as they were |
| `Binding.LastSecretWins` | pkg/server/apis/binding.go:75-130 | if a fetched Secret holds key k and no later descriptor writes k, a successful request returns that Secret's value for k, whatever earlier descriptors wrote |
| `Binding.ServiceBindingResponse.constructor` | pkg/server/apis/binding.go:29-30 | a new response has empty credentials, an empty host and no ports |
| `Binding.ServiceBindingResponse.AddService` | pkg/server/apis/binding.go:106-116 | the in-place ingress and port loops leave the response equal to the Service specification applied to the old response |
| `Binding.ServiceBindingResponse.AddSecret` | pkg/server/apis/binding.go:126-128 | writing the secret's keys one at a time, in any order, leaves the credentials equal to the old ones overridden by the data |
| `Binding.BindingServiceInstance` | pkg/server/apis/binding.go:75-132 | the handler's loop, with its early returns on failed lookups, yields exactly the specification's outcome: 400 with no response body, or 200 with the accumulated response |
| `Scenarios.LoadBalancerServiceScenario` | pkg/server/apis/binding.go:106-114 | a LoadBalancer Service with ingress 10.0.0.5 and port 5432 gives host 10.0.0.5, ports ["5432"], `instance-ip` 10.0.0.5 and `instance-port` 5432 |
| `Scenarios.OneSecretScenario` | pkg/server/apis/binding.go:118-128 | a single Secret with data {user: u1, pass: p1} gives 200 with exactly those credentials and no endpoints |
| `Scenarios.TwoSecretsScenario` | pkg/server/apis/binding.go:118-128 | two Secrets sharing a key: the later one's value wins and the other keys are merged |
| `Scenarios.MissingServiceScenario` | pkg/server/apis/binding.go:100-104 | a missing Service after a successful Secret fails the whole request |
| `Scenarios.PlaceholderNamespaceScenario` | pkg/server/apis/binding.go:86-90 | namespace `${ns}` with parameter ns = team-b resolves to team-b |
| `Scenarios.UnmatchedPlaceholderScenario` | pkg/server/apis/binding.go:86-90 | namespace `${missing}` with no such parameter resolves to "" |

## Left out

- HTTP plumbing (binding.go:31-42, 131-132 and 135-140): decoding the request body, the mux path variable, headers, writing the status and JSON encoding. Only the 200/400 outcome and the accumulated response are modelled. The decoding error (400 before any lookup) is not modelled.
- Scheme registration, client construction and logging (binding.go:48-60): process wiring and calls into foreign libraries.
- TemplateInstance and Template lookups, and the instance name `instance_name + "." + instance_id` that only feeds them (binding.go:44-72). Their errors are only logged, so the model takes the fetched instance and template as inputs.
- JSON marshalling of descriptor fields and gjson path projection (binding.go:76-87). A descriptor is modelled as its three projected strings, with a missing field read as "". The marshal-error branch writes 400 but does not return, so the loop goes on. It is not modelled.
- Fetch errors other than "not found": any failed `Get` is modelled as the key being absent from the store map.
- Secret values are byte slices converted with `string(val)`, which keeps the bytes. The model takes the values as strings directly. Go strings are modelled as sequences of chars, one char per rune; there is no UTF-8 encoding.
- The order in which Go iterates over a Secret's data is unspecified. `AddSecret` picks keys in arbitrary order and is proved to give the same map override whatever the order.
- `UnBindingServiceInstance` (binding.go:135-140) is a constant empty 200 response with no logic.
- Concurrency: each request is independent and nothing is shared between requests.
