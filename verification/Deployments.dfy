/**
 The Deployment and Service generated for a Service operation (internal/helpers/managers/deployments.go,
 services.go and pods.go). The pod spec's containers are an array that the spec and the deployment built from
 it share, so ports added through the one show up in the other.
 */
module Deployments {
  import opened Prelude

  const DEFAULT_TARGET_PORT: int32 := 6006
  const TCP := "TCP"
  const PREFIX := "port-"

  /** `rest` stands for the fields this code never looks at. */
  datatype ContainerPort = ContainerPort(number: int32, protocol: string, rest: string)

  /** `ports` distinguishes a missing list from an empty one, as the source does. */
  datatype ContainerSpec = ContainerSpec(ports: Option<seq<ContainerPort>>, rest: string)

  datatype PodSpec = PodSpec(containers: array<ContainerSpec>, rest: string)

  datatype DeploymentSpec = DeploymentSpec(
    labels: map<string, string>, selector: map<string, string>, templateLabels: map<string, string>,
    replicas: int32, template: PodSpec)

  datatype ServicePort = ServicePort(name: string, port: int32, target: int32, protocol: string)

  datatype BaseService = BaseService(
    labels: map<string, string>, selector: map<string, string>, ports: seq<ServicePort>)

  // ---- ports of a container ----

  function PortList(c: ContainerSpec): seq<ContainerPort> { if c.ports.Some? then c.ports.value else [] }

  function Numbers(ports: seq<ContainerPort>): seq<int32> {
    seq(|ports|, i requires 0 <= i < |ports| => ports[i].number)
  }

  predicate Exposes(c: ContainerSpec, p: int32) { p in Numbers(PortList(c)) }

  predicate ExposesAll(c: ContainerSpec, ports: seq<int32>) { forall p :: p in ports ==> Exposes(c, p) }

  function Tcp(ports: seq<int32>): seq<ContainerPort> {
    seq(|ports|, i requires 0 <= i < |ports| => ContainerPort(ports[i], TCP, ""))
  }

  /** The container after port completion: as soon as one port is missing, all of them are added. */
  function Completed(c: ContainerSpec, ports: seq<int32>): ContainerSpec {
    if ExposesAll(c, ports) then c else c.(ports := Some(PortList(c) + Tcp(ports)))
  }

  lemma NumbersOf(a: seq<ContainerPort>, ports: seq<int32>)
    ensures Numbers(a + Tcp(ports)) == Numbers(a) + ports
  {
  }

  /** The completed container exposes exactly what it did and what was asked for; its own ports stay in front. */
  lemma CompletedExposes(c: ContainerSpec, ports: seq<int32>, p: int32)
    ensures Exposes(Completed(c, ports), p) <==> Exposes(c, p) || p in ports
    ensures PortList(c) <= PortList(Completed(c, ports))
  {
    NumbersOf(PortList(c), ports);
  }

  /** What is added, if anything is missing, are the requested ports in order, all TCP. */
  lemma CompletedAdds(c: ContainerSpec, ports: seq<int32>)
    ensures var own, all := PortList(c), PortList(Completed(c, ports));
            if forall p :: p in ports ==> exists i :: 0 <= i < |own| && own[i].number == p then all == own
            else && |all| == |own| + |ports|
                 && forall i :: 0 <= i < |ports| ==>
                      all[|own| + i].number == ports[i] && all[|own| + i].protocol == "TCP"
  {
    var own := PortList(c);
    forall p
      ensures Exposes(c, p) <==> exists i :: 0 <= i < |own| && own[i].number == p
    {
      if Exposes(c, p) {
        var i :| 0 <= i < |own| && Numbers(own)[i] == p;
      }
      if i :| 0 <= i < |own| && own[i].number == p {
        assert Numbers(own)[i] == p;
      }
    }
  }

  lemma CompletedTwice(c: ContainerSpec, ports: seq<int32>)
    ensures Completed(Completed(c, ports), ports) == Completed(c, ports)
  {
    forall p | p in ports
      ensures Exposes(Completed(c, ports), p)
    {
      CompletedExposes(c, ports, p);
    }
  }

  predicate Distinct<T(==)>(s: seq<T>) { forall i, j :: 0 <= i < j < |s| ==> s[i] != s[j] }

  lemma DistinctConcat(a: seq<int32>, b: seq<int32>)
    ensures Distinct(a + b) <==> Distinct(a) && Distinct(b) && forall p :: p in b ==> p !in a
  {
    var c := a + b;
    if Distinct(c) {
      assert forall i :: 0 <= i < |a| ==> c[i] == a[i];
      assert forall j :: 0 <= j < |b| ==> c[|a| + j] == b[j];
      forall p | p in b
        ensures p !in a
      {
        var j :| 0 <= j < |b| && b[j] == p;
        assert c[|a| + j] == p;
      }
    } else if Distinct(a) && Distinct(b) {
      var i, j :| 0 <= i < j < |c| && c[i] == c[j];
      assert i < |a| <= j;
      assert a[i] in a && b[j - |a|] in b;
    }
  }

  /**
   Adding all ports when one is missing repeats the others: no port is listed twice exactly when none was before
   and either nothing was missing, or nothing was there yet and the requested ports are distinct themselves.
   */
  lemma CompletedRepeats(c: ContainerSpec, ports: seq<int32>)
    ensures Distinct(Numbers(PortList(Completed(c, ports)))) <==>
              && Distinct(Numbers(PortList(c)))
              && (ExposesAll(c, ports) || (Distinct(ports) && forall p :: p in ports ==> !Exposes(c, p)))
  {
    NumbersOf(PortList(c), ports);
    DistinctConcat(Numbers(PortList(c)), ports);
  }

  // ---- which ports a service has ----

  function PodPorts(c: ContainerSpec, defaultPort: int32): seq<int32> {
    if c.ports.Some? then Numbers(c.ports.value) else [defaultPort]
  }

  function ServicePorts(c: ContainerSpec, asked: Option<seq<int32>>): seq<int32> {
    if asked.Some? then asked.value else PodPorts(c, DEFAULT_TARGET_PORT)
  }

  /** Completing the container does not change which ports the next pass works with. */
  lemma ServicePortsStable(c: ContainerSpec, asked: Option<seq<int32>>)
    ensures var ports := ServicePorts(c, asked); ServicePorts(Completed(c, ports), asked) == ports
  {
    if asked.None? {
      if c.ports.Some? {
        assert ExposesAll(c, Numbers(c.ports.value));
      } else {
        var ports := [DEFAULT_TARGET_PORT];
        assert DEFAULT_TARGET_PORT in ports && !ExposesAll(c, ports);
        NumbersOf([], ports);
        assert PortList(c) + Tcp(ports) == [] + Tcp(ports);
      }
    }
  }

  /** The source indexes the first container without a check: None stands for the panic without containers. */
  method GetPodPorts(spec: PodSpec, defaultPort: int32) returns (r: Option<seq<int32>>)
    ensures r == if spec.containers.Length == 0 then None else Some(PodPorts(spec.containers[0], defaultPort))
  {
    if spec.containers.Length == 0 {
      return None;
    }
    var ports := [defaultPort];
    var own := spec.containers[0].ports;
    if own.Some? {
      ports := [];
      for i := 0 to |own.value|
        invariant ports == Numbers(own.value)[..i]
      {
        ports := ports + [own.value[i].number];
      }
      assert ports == Numbers(own.value);
    }
    return Some(ports);
  }

  // ---- the manifests ----

  method FindMissing(c: ContainerSpec, ports: seq<int32>) returns (missing: seq<int32>)
    ensures missing == [] <==> ExposesAll(c, ports)
    ensures forall p :: p in missing <==> p in ports && !Exposes(c, p)
  {
    missing := [];
    var own := PortList(c);
    for i := 0 to |ports|
      invariant forall p :: p in missing <==> p in ports[..i] && !Exposes(c, p)
    {
      var has := false;
      for j := 0 to |own|
        invariant !has && forall k :: 0 <= k < j ==> own[k].number != ports[i]
      {
        if own[j].number == ports[i] {
          assert Numbers(own)[j] == ports[i];
          has := true;
          break;
        }
      }
      if !has {
        missing := missing + [ports[i]];
      }
    }
    if missing == [] {
      assert ExposesAll(c, ports);
    } else {
      assert missing[0] in missing;
    }
  }

  /** Fails exactly without containers; the completed container reaches the deployment through the shared array. */
  method GenerateDeployment(labels: map<string, string>, ports: seq<int32>, replicas: int32, spec: PodSpec)
    returns (d: Option<DeploymentSpec>)
    modifies spec.containers
    ensures d.Some? <==> spec.containers.Length > 0
    ensures d.Some? ==>
              && d.value == DeploymentSpec(labels, labels, labels, replicas, spec)
              && d.value.template.containers[0] == Completed(old(spec.containers[0]), ports)
    ensures forall i :: 0 < i < spec.containers.Length ==> spec.containers[i] == old(spec.containers[i])
  {
    var deployment := DeploymentSpec(labels, labels, labels, replicas, spec);
    if spec.containers.Length == 0 {
      return None;
    }
    var missing := FindMissing(spec.containers[0], ports);
    if missing != [] {
      var all := PortList(spec.containers[0]);
      for i := 0 to |ports|
        invariant all == PortList(spec.containers[0]) + Tcp(ports)[..i]
        invariant spec.containers[..] == old(spec.containers[..])
      {
        all := all + [ContainerPort(ports[i], TCP, "")];
      }
      assert Tcp(ports)[..|ports|] == Tcp(ports);
      spec.containers[0] := spec.containers[0].(ports := Some(all));
    }
    return Some(deployment);
  }

  function PortName(p: int32): string { PREFIX + Itoa(p) }

  lemma DigitAt(d: nat, e: nat)
    requires d < 10 && e < 10
    ensures "0123456789"[d] == "0123456789"[e] <==> d == e
    ensures "0123456789"[d] != '-'
  {
  }

  lemma {:induction false} DigitsDiffer(m: nat, n: nat)
    requires Digits(m) == Digits(n)
    ensures m == n
  {
    var s, t := Digits(m), Digits(n);
    assert s[|s| - 1] == "0123456789"[m % 10] && t[|t| - 1] == "0123456789"[n % 10];
    DigitAt(m % 10, n % 10);
    var front, front' := if m < 10 then "" else Digits(m / 10), if n < 10 then "" else Digits(n / 10);
    assert front == s[..|s| - 1] == t[..|t| - 1] == front';
    if m >= 10 && n >= 10 {
      DigitsDiffer(m / 10, n / 10);
    }
  }

  lemma {:induction false} DigitsAreUnsigned(n: nat)
    ensures Digits(n)[0] != '-'
  {
    DigitAt(n % 10, 0);
    if n >= 10 {
      DigitsAreUnsigned(n / 10);
      assert Digits(n)[0] == Digits(n / 10)[0];
    }
  }

  lemma ItoaDiffers(p: int, q: int)
    requires Itoa(p) == Itoa(q)
    ensures p == q
  {
    var a, b := if p < 0 then -p else p, if q < 0 then -q else q;
    DigitsAreUnsigned(a);
    DigitsAreUnsigned(b);
    assert Itoa(p)[0] == '-' <==> p < 0;
    assert Itoa(q)[0] == '-' <==> q < 0;
    if p < 0 {
      assert Itoa(p)[1..] == Digits(a) && Itoa(q)[1..] == Digits(b);
    }
    DigitsDiffer(a, b);
  }

  /** Different ports get different names, so names clash exactly when ports do. */
  lemma PortNamesDiffer(p: int32, q: int32)
    ensures PortName(p) == PortName(q) <==> p == q
  {
    if PortName(p) == PortName(q) {
      assert PREFIX + Itoa(p) == PREFIX + Itoa(q);
      TailsAgree(PREFIX, Itoa(p), Itoa(q));
      ItoaDiffers(p, q);
    }
  }

  lemma TailsAgree(front: string, a: string, b: string)
    requires front + a == front + b
    ensures a == b
  {
    assert (front + a)[|front|..] == a && (front + b)[|front|..] == b;
  }

  function ServicePortFor(p: int32): ServicePort { ServicePort(PortName(p), p, p, TCP) }

  function ServicePortsFor(ports: seq<int32>): seq<ServicePort> {
    seq(|ports|, i requires 0 <= i < |ports| => ServicePortFor(ports[i]))
  }

  ghost predicate DistinctNames(ports: seq<ServicePort>) {
    forall i, j :: 0 <= i < j < |ports| ==> ports[i].name != ports[j].name
  }

  /** Service ports have distinct names exactly when they come from distinct ports. */
  lemma NamesFollowPorts(ports: seq<int32>, out: seq<ServicePort>)
    requires |out| == |ports| && forall i :: 0 <= i < |ports| ==> out[i] == ServicePortFor(ports[i])
    ensures DistinctNames(out) <==> Distinct(ports)
  {
    forall i, j | 0 <= i < j < |ports|
      ensures out[i].name == out[j].name <==> ports[i] == ports[j]
    {
      PortNamesDiffer(ports[i], ports[j]);
    }
  }

  /** The loop that lists the ports. */
  method ListServicePorts(ports: seq<int32>) returns (out: seq<ServicePort>)
    ensures out == ServicePortsFor(ports)
  {
    out := [];
    for i := 0 to |ports|
      invariant out == ServicePortsFor(ports)[..i]
    {
      out := out + [ServicePortFor(ports[i])];
    }
  }

  method GenerateService(labels: map<string, string>, ports: seq<int32>) returns (s: BaseService)
    ensures s.labels == s.selector == labels && |s.ports| == |ports|
    ensures forall i :: 0 <= i < |ports| ==> s.ports[i] == ServicePortFor(ports[i])
    ensures DistinctNames(s.ports) <==> Distinct(ports)
  {
    var out := ListServicePorts(ports);
    NamesFollowPorts(ports, out);
    return BaseService(labels, labels, out);
  }

  /** How building the manifests ends: with a panic, with the error of GenerateDeployment, or well. */
  datatype Manifests = Panics | Refused | Built(deployment: DeploymentSpec, service: BaseService)

  /**
   The manifests of one pass. A spec without containers panics, so the error GenerateDeployment has for it is never
   reached. Otherwise the selector of the Service finds the pods of the Deployment, and every port it targets is a
   port of their first container. A second pass over the edited spec works with the same ports and leaves the
   containers as they are.
   */
  method BuildManifests(labels: map<string, string>, asked: Option<seq<int32>>, replicas: int32, spec: PodSpec)
    returns (r: Manifests)
    modifies spec.containers
    ensures r.Panics? <==> spec.containers.Length == 0
    ensures !r.Refused?
    ensures r.Built? ==>
              var d, s := r.deployment, r.service;
              && d == DeploymentSpec(labels, labels, labels, replicas, spec)
              && s.labels == labels && s.selector == d.templateLabels
              && (forall i :: 0 <= i < |s.ports| ==> Exposes(spec.containers[0], s.ports[i].target))
              && PortList(old(spec.containers[0])) <= PortList(spec.containers[0])
    ensures r.Built? ==>
              var own, s := old(spec.containers[0]).ports, r.service;
              var ports := if asked.Some? then asked.value else if own.Some? then Numbers(own.value) else [6006];
              && |s.ports| == |ports|
              && (forall i :: 0 <= i < |ports| ==> s.ports[i].port == s.ports[i].target == ports[i])
              && (forall i :: 0 <= i < |ports| ==> s.ports[i].protocol == "TCP")
              && (DistinctNames(s.ports) <==> Distinct(ports))
    ensures r.Built? ==>
              var ports := ServicePorts(spec.containers[0], asked);
              && ports == ServicePorts(old(spec.containers[0]), asked)
              && Completed(spec.containers[0], ports) == spec.containers[0]
    ensures forall i :: 0 < i < spec.containers.Length ==> spec.containers[i] == old(spec.containers[i])
  {
    var own := GetPodPorts(spec, DEFAULT_TARGET_PORT);
    if own.None? {
      return Panics;
    }
    ghost var first := spec.containers[0];
    var ports := own.value;
    if asked.Some? {
      ports := asked.value;
    }
    ServicePortsStable(first, asked);
    CompletedTwice(first, ports);
    var built := GenerateDeployment(labels, ports, replicas, spec);
    if built.None? {
      return Refused;
    }
    var s := GenerateService(labels, ports);
    forall i | 0 <= i < |s.ports|
      ensures Exposes(Completed(first, ports), s.ports[i].target)
    {
      CompletedExposes(first, ports, ports[i]);
    }
    CompletedExposes(first, ports, 0);
    return Built(built.value, s);
  }

  // ---- updating a stored deployment ----

  /** The stored fields an update owns; the template stands for the whole pod spec. */
  class StoredDeployment {
    var labels: map<string, string>
    var template: string

    constructor (labels: map<string, string>, template: string)
      ensures this.labels == labels && this.template == template
    {
      this.labels, this.template := labels, template;
    }
  }

  /** Go's map index: a missing key reads as the empty string. */
  function Lookup(labels: map<string, string>, k: string): string { if k in labels then labels[k] else "" }

  /** The change of labels that the comparison notices: it only looks at the labels already stored. */
  predicate LabelsReported(from: map<string, string>, to: map<string, string>) {
    exists k :: k in to && Lookup(from, k) != to[k]
  }

  /** Every stored label has the same value in the source, or is empty and missing there. */
  predicate StoredLabelsKept(from: map<string, string>, to: map<string, string>) {
    forall k :: k in to ==> if k in from then from[k] == to[k] else to[k] == ""
  }

  /** The report on the labels is wrong exactly when the stored ones are kept but the two sides have different keys. */
  lemma LabelReportExact(from: map<string, string>, to: map<string, string>)
    ensures !(LabelsReported(from, to) <==> from != to) <==> StoredLabelsKept(from, to) && from.Keys != to.Keys
  {
    assert LabelsReported(from, to) <==> !StoredLabelsKept(from, to) by {
      if StoredLabelsKept(from, to) {
        assert forall k :: k in to ==> Lookup(from, k) == to[k];
      } else {
        var k :| k in to && !(if k in from then from[k] == to[k] else to[k] == "");
        assert Lookup(from, k) != to[k];
      }
    }
    if StoredLabelsKept(from, to) && from.Keys == to.Keys {
      assert from == to;
    }
  }

  /** So labels that are only added never trigger an update. */
  lemma AddedLabelsAreMissed(from: map<string, string>, to: map<string, string>)
    requires to.Keys < from.Keys && forall k :: k in to ==> from[k] == to[k]
    ensures !LabelsReported(from, to) && from != to
  {
    LabelReportExact(from, to);
  }

  method CopyDeploymentFields(from: StoredDeployment, to: StoredDeployment) returns (updated: bool)
    modifies to
    ensures to.labels == old(from.labels) && to.template == old(from.template)
    ensures updated <==> LabelsReported(old(from.labels), old(to.labels)) || old(from.template) != old(to.template)
  {
    updated := false;
    var left := to.labels.Keys;
    while left != {}
      invariant left <= to.labels.Keys
      invariant updated <==> exists k :: k in to.labels.Keys - left && Lookup(from.labels, k) != to.labels[k]
      decreases |left|
    {
      var k :| k in left;
      if Lookup(from.labels, k) != to.labels[k] {
        updated := true;
      }
      left := left - {k};
    }
    to.labels := from.labels;
    if to.template != from.template {
      updated := true;
    }
    to.template := from.template;
  }
}
