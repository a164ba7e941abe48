/**
 The network policy generated for a producer (internal/controller/producer/networkpolicy.go), and what such a policy
 admits.
 */
module NetworkPolicies {
  import opened Wrappers
  import Api
  import opened Endpoints

  type Labels = map<string, string>

  datatype Protocol = TCP | UDP | SCTP

  datatype IntOrString = Number(number: int) | Named(name: string)

  datatype ServicePort = ServicePort(port: int, targetPort: IntOrString)

  datatype Service = Service(selector: Labels, ports: seq<ServicePort>)

  /** The fields of a peer: pods by label, in namespaces by label. */
  datatype Peer = Peer(podSelector: Labels, namespaceSelector: Labels)

  datatype PolicyPort = PolicyPort(protocol: Protocol, port: IntOrString)

  datatype Rule = Rule(ports: seq<PolicyPort>, from: seq<Peer>)

  datatype PolicySpec = PolicySpec(podSelector: Labels, ingress: seq<Rule>)

  /** `owner` is the uid in the owner reference; `foreign` stands for the fields the operator does not write. */
  datatype Policy = Policy(labels: Labels, annotations: Labels, owner: nat, spec: PolicySpec, foreign: string)

  /** Policies are generated for producers with an HTTP strategy. */
  type HttpProducer = p: Api.Sapr | p.http.Some? witness Api.Sapr("", 0, Some(Api.Http("", {})))

  datatype Error =
    | EndpointError(parse: ParseError)
    | ServiceError(text: string)
    | NoMatchingPort
    | CallFailed(text: string)

  const NAMESPACE_LABEL := "kubernetes.io/metadata.name"
  const MANAGED_LABELS := map["app" := "ces", "app.kubernetes.io/managed-by" := "service-account-operator"]

  function PolicyName(producer: HttpProducer): string {
    producer.name + "-sa-manager"
  }

  /** The first entry with the port, whatever its protocol. */
  function FirstTarget(ports: seq<ServicePort>, port: int): Option<IntOrString> {
    if ports == [] then None
    else if ports[0].port == port then Some(ports[0].targetPort)
    else FirstTarget(ports[1..], port)
  }

  /** getNetworkPolicyTargetPort. */
  method GetTargetPort(protocol: Protocol, service: Service, servicePort: int) returns (r: Result<PolicyPort, Error>)
    ensures r == match FirstTarget(service.ports, servicePort)
                 case None => Failure(NoMatchingPort)
                 case Some(target) => Success(PolicyPort(protocol, target))
  {
    var i := 0;
    while i < |service.ports|
      invariant 0 <= i <= |service.ports|
      invariant FirstTarget(service.ports, servicePort) == FirstTarget(service.ports[i..], servicePort)
    {
      if service.ports[i].port == servicePort {
        return Success(PolicyPort(protocol, service.ports[i].targetPort));
      }
      i := i + 1;
    }
    return Failure(NoMatchingPort);
  }

  /** The found entry has the port and is the first one that has it; nothing is found if none has it. */
  lemma {:induction false} FirstTargetCorrect(ports: seq<ServicePort>, port: int)
    ensures FirstTarget(ports, port).None? <==> forall p | p in ports :: p.port != port
    ensures FirstTarget(ports, port).Some? ==>
      exists i :: 0 <= i < |ports| && ports[i] == ServicePort(port, FirstTarget(ports, port).value)
                  && forall j | 0 <= j < i :: ports[j].port != port
  {
    if ports != [] && ports[0].port != port {
      FirstTargetCorrect(ports[1..], port);
      if FirstTarget(ports, port).Some? {
        var i :| 0 <= i < |ports[1..]| && ports[1..][i] == ServicePort(port, FirstTarget(ports[1..], port).value)
                 && forall j | 0 <= j < i :: ports[1..][j].port != port;
        assert ports[i + 1] == ServicePort(port, FirstTarget(ports, port).value);
        assert forall j | 0 <= j < i + 1 :: j == 0 || ports[j] == ports[1..][j - 1];
      }
    } else if ports != [] {
      assert ports[0] in ports && ports[0] == ServicePort(port, FirstTarget(ports, port).value);
    }
  }

  /** What the cluster answers: the Service of a name, or the error of the call. */
  type Services = string -> Result<Service, string>

  /** generate. */
  function Generate(producer: HttpProducer, namespace: string, services: Services,
                    selectorLabels: Labels): Result<Policy, Error> {
    match ParseEndpoint(producer.http.value.endpoint)
    case Failure(e) => Failure(EndpointError(e))
    case Success(target) =>
      match services(target.service)
      case Failure(text) => Failure(ServiceError(text))
      case Success(service) =>
        match FirstTarget(service.ports, target.port)
        case None => Failure(NoMatchingPort)
        case Some(port) =>
          var peer := Peer(selectorLabels, map[NAMESPACE_LABEL := namespace]);
          Success(Policy(MANAGED_LABELS, map[], producer.uid,
                         PolicySpec(service.selector, [Rule([PolicyPort(TCP, port)], [peer])]), ""))
  }

  /** A connection attempt. Namespaces carry their own name as a label. */
  datatype Flow = Flow(
    namespace: string,
    pod: Labels,
    protocol: Protocol,
    port: int,
    portName: string,
    sourceNamespace: string,
    sourceNamespaceLabels: Labels,
    source: Labels)

  predicate WellLabelled(flow: Flow) {
    NAMESPACE_LABEL in flow.sourceNamespaceLabels && flow.sourceNamespaceLabels[NAMESPACE_LABEL] == flow.sourceNamespace
  }

  /** A label selector; the empty one matches everything. */
  predicate Matches(selector: Labels, labels: Labels) {
    forall key | key in selector :: key in labels && labels[key] == selector[key]
  }

  predicate PortMatches(port: IntOrString, flow: Flow) {
    match port
    case Number(n) => flow.port == n
    case Named(name) => flow.portName == name
  }

  predicate RuleAdmits(rule: Rule, flow: Flow) {
    && (exists i ::
          0 <= i < |rule.ports| && rule.ports[i].protocol == flow.protocol && PortMatches(rule.ports[i].port, flow))
    && (exists j :: 0 <= j < |rule.from| && Matches(rule.from[j].podSelector, flow.source)
                    && Matches(rule.from[j].namespaceSelector, flow.sourceNamespaceLabels))
  }

  /** What a policy in a namespace says of a flow: it must select the pod, and one of its rules must admit the flow. */
  predicate Admits(namespace: string, spec: PolicySpec, flow: Flow) {
    && flow.namespace == namespace && Matches(spec.podSelector, flow.pod)
    && exists i :: 0 <= i < |spec.ingress| && RuleAdmits(spec.ingress[i], flow)
  }

  /** The pods behind a service; a service without a selector has none. */
  predicate Behind(service: Service, pod: Labels) {
    service.selector != map[] && Matches(service.selector, pod)
  }

  /** From the operator's pods in the producer's namespace, over TCP, to the port behind the endpoint. */
  predicate Intended(namespace: string, service: Service, target: IntOrString, selectorLabels: Labels, flow: Flow) {
    && flow.namespace == namespace && Behind(service, flow.pod)
    && flow.protocol == TCP && PortMatches(target, flow)
    && flow.sourceNamespace == namespace && Matches(selectorLabels, flow.source)
  }

  lemma GeneratedMeaning(producer: HttpProducer, namespace: string, services: Services, selectorLabels: Labels,
                         service: Service, target: IntOrString, flow: Flow)
    requires Generate(producer, namespace, services, selectorLabels).Success? && WellLabelled(flow)
    requires services(ParseEndpoint(producer.http.value.endpoint).value.service) == Success(service)
    requires FirstTarget(service.ports, ParseEndpoint(producer.http.value.endpoint).value.port) == Some(target)
    ensures Admits(namespace, Generate(producer, namespace, services, selectorLabels).value.spec, flow) <==>
      && flow.namespace == namespace && Matches(service.selector, flow.pod)
      && flow.protocol == TCP && PortMatches(target, flow)
      && flow.sourceNamespace == namespace && Matches(selectorLabels, flow.source)
  {
    var spec := Generate(producer, namespace, services, selectorLabels).value.spec;
    var rule := spec.ingress[0];
    assert rule.ports[0].protocol == TCP && rule.ports[0].port == target;
    assert rule.from[0].podSelector == selectorLabels;
    assert Matches(rule.from[0].namespaceSelector, flow.sourceNamespaceLabels) <==> flow.sourceNamespace == namespace;
  }

  /**
   The policy admits exactly the intended flows if and only if the service has a selector: without one the policy
   selects every pod of the namespace, and the service none.
   */
  lemma PolicyAdmitsIntendedIff(producer: HttpProducer, namespace: string, services: Services, selectorLabels: Labels,
                                service: Service, target: IntOrString)
    requires Generate(producer, namespace, services, selectorLabels).Success?
    requires services(ParseEndpoint(producer.http.value.endpoint).value.service) == Success(service)
    requires FirstTarget(service.ports, ParseEndpoint(producer.http.value.endpoint).value.port) == Some(target)
    ensures (forall flow | WellLabelled(flow) ::
               Admits(namespace, Generate(producer, namespace, services, selectorLabels).value.spec, flow)
               <==> Intended(namespace, service, target, selectorLabels, flow))
            <==> service.selector != map[]
  {
    forall flow | WellLabelled(flow) {
      GeneratedMeaning(producer, namespace, services, selectorLabels, service, target, flow);
    }
    if service.selector == map[] {
      var flow := Flow(namespace, map[], TCP, if target.Number? then target.number else 0,
                       if target.Named? then target.name else "", namespace,
                       map[NAMESPACE_LABEL := namespace], selectorLabels);
      assert WellLabelled(flow) && !Intended(namespace, service, target, selectorLabels, flow);
      GeneratedMeaning(producer, namespace, services, selectorLabels, service, target, flow);
      assert Admits(namespace, Generate(producer, namespace, services, selectorLabels).value.spec, flow);
    }
  }

  /** The policies stored in the namespace of the producer. */
  class PolicyStore {
    var policies: map<string, Policy>

    constructor (policies: map<string, Policy>)
      ensures this.policies == policies
    {
      this.policies := policies;
    }
  }

  /** Overwriting labels, annotations, owner and spec of a policy that exists, and nothing else. */
  function Upserted(policies: map<string, Policy>, name: string, policy: Policy): map<string, Policy> {
    policies[name := policy.(foreign := if name in policies then policies[name].foreign else "")]
  }

  /** The stored policies after UpsertNetworkPolicy, and the error it returns. */
  function AfterUpsert(policies: map<string, Policy>, enabled: bool, producer: HttpProducer, namespace: string,
                       services: Services,
                       selectorLabels: Labels, write: Option<string>): (map<string, Policy>, Option<Error>)
  {
    if !enabled then
      if write.Some? then (policies, Some(CallFailed(write.value))) else (policies - {PolicyName(producer)}, None)
    else
      var generated := Generate(producer, namespace, services, selectorLabels);
      if generated.Failure? then (policies, Some(generated.error))
      else if write.Some? then (policies, Some(CallFailed(write.value)))
      else (Upserted(policies, PolicyName(producer), generated.value), None)
  }

  class NetworkPolicyUpserter {
    const netpolsEnabled: bool
    const store: PolicyStore
    const selectorLabels: Labels
    const namespace: string

    constructor (netpolsEnabled: bool, store: PolicyStore, selectorLabels: Labels, namespace: string)
      ensures this.netpolsEnabled == netpolsEnabled && this.store == store
      ensures this.selectorLabels == selectorLabels && this.namespace == namespace
    {
      this.netpolsEnabled, this.store, this.selectorLabels, this.namespace :=
        netpolsEnabled, store, selectorLabels, namespace;
    }

    method GeneratePolicy(producer: HttpProducer, services: Services) returns (r: Result<Policy, Error>)
      ensures r == Generate(producer, namespace, services, selectorLabels)
    {
      var target := ParseEndpoint(producer.http.value.endpoint);
      if target.Failure? {
        return Failure(EndpointError(target.error));
      }
      var service := services(target.value.service);
      if service.Failure? {
        return Failure(ServiceError(service.error));
      }
      var port := GetTargetPort(TCP, service.value, target.value.port);
      if port.Failure? {
        return Failure(port.error);
      }
      var peer := Peer(selectorLabels, map[NAMESPACE_LABEL := namespace]);
      var spec := PolicySpec(service.value.selector, [Rule([port.value], [peer])]);
      return Success(Policy(MANAGED_LABELS, map[], producer.uid, spec, ""));
    }

    /** `write` is the error of the delete, or of the create or update. */
    method UpsertNetworkPolicy(producer: HttpProducer, services: Services, write: Option<string>)
      returns (err: Option<Error>)
      modifies store
      ensures (store.policies, err) ==
              AfterUpsert(old(store.policies), netpolsEnabled, producer, namespace, services, selectorLabels, write)
    {
      var name := PolicyName(producer);
      if !netpolsEnabled {
        if write.Some? {
          return Some(CallFailed(write.value));
        }
        store.policies := store.policies - {name};
        return None;
      }
      var generated := GeneratePolicy(producer, services);
      if generated.Failure? {
        return Some(generated.error);
      }
      if write.Some? {
        return Some(CallFailed(write.value));
      }
      var target := if name in store.policies then store.policies[name]
          else Policy(map[], map[], 0, PolicySpec(map[], []), "");
      target := target.(labels := generated.value.labels, annotations := generated.value.annotations,
                        owner := generated.value.owner, spec := generated.value.spec);
      store.policies := store.policies[name := target];
      return None;
    }
  }

  /**
   A successful upsert leaves the policy that was generated, or none if policies are disabled, whatever was there
   before; a second one changes nothing; other policies stay; and an unsuccessful one changes nothing at all.
   */
  lemma UpsertCorrect(policies: map<string, Policy>, enabled: bool, producer: HttpProducer, namespace: string,
                      services: Services,
                      selectorLabels: Labels, write: Option<string>)
    ensures var (after, err) := AfterUpsert(policies, enabled, producer, namespace, services, selectorLabels, write);
      var name := PolicyName(producer);
      && (err.Some? ==> after == policies)
      && (err.None? && !enabled ==> name !in after)
      && (err.None? && enabled ==>
            && Generate(producer, namespace, services, selectorLabels).Success? && name in after
            && after[name].spec == Generate(producer, namespace, services, selectorLabels).value.spec
            && after[name].owner == producer.uid)
      && (err.None? ==>
            AfterUpsert(after, enabled, producer, namespace, services, selectorLabels, None) == (after, None))
      && (forall other | other != name ::
            (other in after <==> other in policies) && (other in after ==> after[other] == policies[other]))
  {
    var (after, err) := AfterUpsert(policies, enabled, producer, namespace, services, selectorLabels, write);
    if err.None? && enabled {
      var policy := Generate(producer, namespace, services, selectorLabels).value;
      assert Upserted(after, PolicyName(producer), policy) == after;
    } else if err.None? {
      assert after - {PolicyName(producer)} == after;
    }
  }

  /**
   When an upsert fails and with what, and which policy it stores under which name. A disabled one can fail in the
   deletion only. An enabled one needs an endpoint that can be parsed, the service of that name, and an entry with the
   port; it admits the pods with the given labels in the namespace to the target of the first such entry.
   */
  lemma UpsertExact(policies: map<string, Policy>, enabled: bool, producer: HttpProducer, namespace: string,
                    services: Services, selectorLabels: Labels, write: Option<string>)
    ensures var (after, err) := AfterUpsert(policies, enabled, producer, namespace, services, selectorLabels, write);
      var name, target := producer.name + "-sa-manager", ParseEndpoint(producer.http.value.endpoint);
      if !enabled then
        if write.Some? then err == Some(CallFailed(write.value)) && after == policies
        else err == None && after == policies - {name}
      else if target.Failure? then err == Some(EndpointError(target.error)) && after == policies
      else if services(target.value.service).Failure? then
        err == Some(ServiceError(services(target.value.service).error)) && after == policies
      else
        var service := services(target.value.service).value;
        if forall p | p in service.ports :: p.port != target.value.port then
          err == Some(NoMatchingPort) && after == policies
        else if write.Some? then err == Some(CallFailed(write.value)) && after == policies
        else err == None && StoresPolicy(policies, after, name, producer, namespace, service, target.value.port,
                                         selectorLabels)
  {
    var target := ParseEndpoint(producer.http.value.endpoint);
    if enabled && target.Success? && services(target.value.service).Success? {
      FirstEntryFound(services(target.value.service).value.ports, target.value.port);
    }
  }

  lemma FirstEntryFound(ports: seq<ServicePort>, port: int)
    ensures FirstTarget(ports, port).None? <==> forall p | p in ports :: p.port != port
    ensures FirstTarget(ports, port).Some? ==>
      exists i :: FirstEntry(ports, i, port) && ports[i].targetPort == FirstTarget(ports, port).value
  {
    FirstTargetCorrect(ports, port);
    if FirstTarget(ports, port).Some? {
      var i :| 0 <= i < |ports| && ports[i] == ServicePort(port, FirstTarget(ports, port).value)
               && forall j | 0 <= j < i :: ports[j].port != port;
      assert FirstEntry(ports, i, port);
    }
  }

  /** The entry has the port, and is the first one that has it. */
  predicate FirstEntry(ports: seq<ServicePort>, i: int, port: int) {
    0 <= i < |ports| && ports[i].port == port && forall j | 0 <= j < i :: ports[j].port != port
  }

  ghost predicate StoresPolicy(policies: map<string, Policy>, after: map<string, Policy>, name: string,
                               producer: HttpProducer, namespace: string, service: Service, port: int,
                               selectorLabels: Labels)
  {
    exists i :: FirstEntry(service.ports, i, port) &&
      var peer := Peer(selectorLabels, map["kubernetes.io/metadata.name" := namespace]);
      var rule := Rule([PolicyPort(TCP, service.ports[i].targetPort)], [peer]);
      after == policies[name :=
        Policy(map["app" := "ces", "app.kubernetes.io/managed-by" := "service-account-operator"], map[], producer.uid,
               PolicySpec(service.selector, [rule]), if name in policies then policies[name].foreign else "")]
  }

  lemma SameStem(a: string, b: string, suffix: string)
    requires a + suffix == b + suffix
    ensures a == b
  {
    assert |a| == |b|;
    assert a == (a + suffix)[..|a|] && b == (b + suffix)[..|b|];
  }

  /** Producers of different names have different policies, and an upsert for one leaves that of the other alone. */
  lemma PoliciesNeverMeet(policies: map<string, Policy>, enabled: bool, producer: HttpProducer, other: HttpProducer,
                          namespace: string, services: Services, selectorLabels: Labels, write: Option<string>)
    requires producer.name != other.name
    ensures var after := AfterUpsert(policies, enabled, producer, namespace, services, selectorLabels, write).0;
      var name := other.name + "-sa-manager";
      (name in after <==> name in policies) && (name in after ==> after[name] == policies[name])
  {
    if PolicyName(producer) == other.name + "-sa-manager" {
      SameStem(producer.name, other.name, "-sa-manager");
    }
    UpsertCorrect(policies, enabled, producer, namespace, services, selectorLabels, write);
  }
}
