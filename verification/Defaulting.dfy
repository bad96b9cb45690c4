/** The mutating webhook, and why it never changes what a WebApp means. */
module Defaulting {
  import opened Base
  import opened Api
  import opened Ports
  import opened Builders
  import opened Admission

  function DefaultPort(p: Port): Port {
    if p.protocol == "" then p.(protocol := TCP) else p
  }

  function DefaultPorts(ps: seq<Port>): seq<Port> {
    seq(|ps|, j requires 0 <= j < |ps| => DefaultPort(ps[j]))
  }

  function DefaultContainers(cs: seq<Container>): seq<Container> {
    seq(|cs|, i requires 0 <= i < |cs| => cs[i].(ports := DefaultPorts(cs[i].ports)))
  }

  function DefaultStrategy(s: Option<Strategy>): Strategy {
    if s.None? then Strategy(ROLLING_UPDATE, None)
    else if s.value.kind == "" then s.value.(kind := ROLLING_UPDATE)
    else s.value
  }

  function DefaultAutoscaling(a: Autoscaling): Autoscaling {
    if !a.enabled then a
    else a.(minReplicas := if a.minReplicas.None? then Some(1) else a.minReplicas,
            targetCpu := if a.targetCpu.None? && a.targetMemory.None? then Some(DEFAULT_TARGET_CPU) else a.targetCpu)
  }

  function Defaulted(spec: WebAppSpec): WebAppSpec {
    spec.(serviceType := if spec.serviceType == "" then CLUSTER_IP else spec.serviceType,
          strategy := Some(DefaultStrategy(spec.strategy)),
          autoscaling := if spec.autoscaling.Some? then Some(DefaultAutoscaling(spec.autoscaling.value)) else None,
          containers := DefaultContainers(spec.containers))
  }

  /** The object under admission, rewritten in place. */
  class Resource {
    var spec: WebAppSpec

    constructor (spec: WebAppSpec)
      ensures this.spec == spec
    {
      this.spec := spec;
    }

    method Default()
      modifies this
      ensures spec == Defaulted(old(spec))
    {
      if spec.serviceType == "" {
        spec := spec.(serviceType := CLUSTER_IP);
      }
      if spec.strategy.None? {
        spec := spec.(strategy := Some(Strategy("", None)));
      }
      if spec.strategy.value.kind == "" {
        spec := spec.(strategy := Some(spec.strategy.value.(kind := ROLLING_UPDATE)));
      }
      if AutoscalingOn(spec) {
        var a := spec.autoscaling.value;
        if a.minReplicas.None? {
          a := a.(minReplicas := Some(1));
        }
        if a.targetCpu.None? && a.targetMemory.None? {
          a := a.(targetCpu := Some(DEFAULT_TARGET_CPU));
        }
        spec := spec.(autoscaling := Some(a));
      }
      assert spec.(containers := DefaultContainers(spec.containers)) == Defaulted(old(spec));
      DefaultProtocols();
    }

    /** The loop over every port of every container. */
    method DefaultProtocols()
      modifies this
      ensures spec == old(spec).(containers := DefaultContainers(old(spec).containers))
    {
      ghost var before := spec;
      for i := 0 to |spec.containers|
        invariant spec == before.(containers := spec.containers) && |spec.containers| == |before.containers|
        invariant forall k :: 0 <= k < i ==> spec.containers[k] == DefaultContainers(before.containers)[k]
        invariant forall k :: i <= k < |before.containers| ==> spec.containers[k] == before.containers[k]
      {
        var c := spec.containers[i];
        var ports := DefaultPortList(c.ports);
        spec := spec.(containers := spec.containers[i := c.(ports := ports)]);
      }
      assert spec.containers == DefaultContainers(before.containers);
    }

    static method DefaultPortList(declared: seq<Port>) returns (ports: seq<Port>)
      ensures ports == DefaultPorts(declared)
    {
      ports := declared;
      for j := 0 to |declared|
        invariant |ports| == |declared|
        invariant forall k :: 0 <= k < j ==> ports[k] == DefaultPort(declared[k])
        invariant forall k :: j <= k < |declared| ==> ports[k] == declared[k]
      {
        if ports[j].protocol == "" {
          ports := ports[j := ports[j].(protocol := TCP)];
        }
      }
    }
  }

  /* What is filled in. */

  predicate PortFilled(p: Port, q: Port) {
    q.name == p.name && q.number == p.number && q.protocol == (if p.protocol != "" then p.protocol else "TCP")
  }

  /** Each port gets a protocol, nothing else about the container changes. */
  ghost predicate ContainerFilled(c: Container, d: Container) {
    && d.(ports := c.ports) == c && |d.ports| == |c.ports|
    && forall j :: 0 <= j < |c.ports| ==> PortFilled(c.ports[j], d.ports[j])
  }

  predicate StrategyFilled(s: Option<Strategy>, t: Option<Strategy>) {
    && t.Some?
    && t.value.kind == (if s.Some? && s.value.kind != "" then s.value.kind else "RollingUpdate")
    && t.value.rollingUpdate == (if s.Some? then s.value.rollingUpdate else None)
  }

  /** Where it is on, autoscaling gets a lower bound and, if it has no target, one for CPU. */
  predicate AutoscalingFilled(s: Option<Autoscaling>, t: Option<Autoscaling>) {
    if s.None? || !s.value.enabled then t == s
    else
      && t.Some? && t.value.(minReplicas := s.value.minReplicas, targetCpu := s.value.targetCpu) == s.value
      && t.value.minReplicas == Some(if s.value.minReplicas.Some? then s.value.minReplicas.value else 1)
      && t.value.targetCpu ==
          if s.value.targetCpu.Some? || s.value.targetMemory.Some? then s.value.targetCpu else Some(70)
  }

  /** Every field left open gets its default, every field given stands. */
  ghost predicate Filled(s: WebAppSpec, t: WebAppSpec) {
    && t.serviceType == (if s.serviceType != "" then s.serviceType else "ClusterIP")
    && StrategyFilled(s.strategy, t.strategy) && AutoscalingFilled(s.autoscaling, t.autoscaling)
    && |t.containers| == |s.containers|
    && (forall i :: 0 <= i < |s.containers| ==> ContainerFilled(s.containers[i], t.containers[i]))
    && t.(serviceType := s.serviceType, strategy := s.strategy, autoscaling := s.autoscaling,
          containers := s.containers) == s
  }

  lemma DefaultFills(spec: WebAppSpec)
    ensures Filled(spec, Defaulted(spec))
  {
    hide PortFilled;
    forall c: Container, j | 0 <= j < |c.ports| ensures PortFilled(c.ports[j], DefaultPorts(c.ports)[j]) {
      PortFills(c.ports[j]);
    }
    forall i | 0 <= i < |spec.containers|
      ensures ContainerFilled(spec.containers[i], Defaulted(spec).containers[i])
    {
      assert Defaulted(spec).containers[i].ports == DefaultPorts(spec.containers[i].ports);
    }
  }

  lemma PortFills(p: Port)
    ensures PortFilled(p, DefaultPort(p))
  {
  }

  /* Defaulting is invisible to everything that reads ports through their effective protocol. */

  lemma DefaultPortMeans(p: Port)
    ensures KeyOf(DefaultPort(p)) == KeyOf(p) && PortName(DefaultPort(p)) == PortName(p)
    ensures Protocol(DefaultPort(p)) == Protocol(p)
    ensures StringKey(DefaultPort(p)) == StringKey(p)
    ensures DefaultPort(DefaultPort(p)) == DefaultPort(p)
  {
  }

  lemma DefaultIdempotent(spec: WebAppSpec)
    ensures Defaulted(Defaulted(spec)) == Defaulted(spec)
  {
    var cs := spec.containers;
    var ds := DefaultContainers(cs);
    forall i | 0 <= i < |cs| ensures DefaultPorts(ds[i].ports) == ds[i].ports {
      assert ds[i].ports == DefaultPorts(cs[i].ports);
    }
    assert DefaultContainers(ds) == ds;
  }

  lemma {:induction false} DeclaredDefaults(cs: seq<Container>)
    ensures Declared(DefaultContainers(cs)) == DefaultPorts(Declared(cs))
  {
    if cs != [] {
      var n := |cs| - 1;
      DeclaredDefaults(cs[..n]);
      assert DefaultContainers(cs)[..n] == DefaultContainers(cs[..n]);
      DefaultPortsConcat(Declared(cs[..n]), cs[n].ports);
    }
  }

  lemma DefaultPortsConcat(a: seq<Port>, b: seq<Port>)
    ensures DefaultPorts(a + b) == DefaultPorts(a) + DefaultPorts(b)
  {
  }

  lemma {:induction false} FirstOccurrencesDefault(ps: seq<Port>)
    ensures FirstOccurrences(DefaultPorts(ps)) == DefaultPorts(FirstOccurrences(ps))
  {
    if ps != [] {
      var init, last := ps[..|ps| - 1], ps[|ps| - 1];
      FirstOccurrencesDefault(init);
      assert DefaultPorts(ps)[..|ps| - 1] == DefaultPorts(init);
      KeySeenDefault(init, KeyOf(last));
      DefaultPortMeans(last);
      assert DefaultPorts([last]) == [DefaultPort(last)];
      DefaultPortsConcat(FirstOccurrences(init), if KeySeen(init, KeyOf(last)) then [] else [last]);
    }
  }

  lemma KeySeenDefault(ps: seq<Port>, k: PortKey)
    ensures KeySeen(DefaultPorts(ps), k) <==> KeySeen(ps, k)
  {
    forall i | 0 <= i < |ps| ensures KeyOf(DefaultPorts(ps)[i]) == KeyOf(ps[i]) {
      DefaultPortMeans(ps[i]);
    }
  }

  lemma AllPortsDefault(spec: WebAppSpec)
    ensures AllPorts(Defaulted(spec)) == DefaultPorts(AllPorts(spec))
    ensures PortNames(Defaulted(spec)) == PortNames(spec)
  {
    DeclaredDefaults(spec.containers);
    FirstOccurrencesDefault(Declared(spec.containers));
    forall i | 0 <= i < |AllPorts(spec)|
      ensures PortName(DefaultPorts(AllPorts(spec))[i]) == PortName(AllPorts(spec)[i])
    {
      DefaultPortMeans(AllPorts(spec)[i]);
    }
  }

  /** Service, Ingress, HPA and replica count are built the same from the defaulted spec. */
  lemma DefaultKeepsObjects(key: NsName, spec: WebAppSpec)
    ensures BuildService(key, Defaulted(spec)) == BuildService(key, spec)
    ensures BuildIngress(key, Defaulted(spec)) == BuildIngress(key, spec)
    ensures WantsIngress(Defaulted(spec)) == WantsIngress(spec) && IngressURL(Defaulted(spec)) == IngressURL(spec)
    ensures AutoscalingOn(Defaulted(spec)) == AutoscalingOn(spec)
    ensures AutoscalingOn(spec) ==>
      BuildHpa(key, Defaulted(spec).autoscaling.value) == BuildHpa(key, spec.autoscaling.value)
    ensures DesiredReplicas(Defaulted(spec)) == DesiredReplicas(spec)
  {
    hide AllPorts;
    AllPortsDefault(spec);
    var ps := AllPorts(spec);
    forall i | 0 <= i < |ps| ensures ServicePorts(DefaultPorts(ps))[i] == ServicePorts(ps)[i] {
      DefaultPortMeans(ps[i]);
    }
    assert ServicePorts(DefaultPorts(ps)) == ServicePorts(ps);
    BackendDefault(spec);
    if AutoscalingOn(spec) {
      var a := spec.autoscaling.value;
      assert HpaMetrics(DefaultAutoscaling(a)) == HpaMetrics(a);
    }
  }

  lemma BackendDefault(spec: WebAppSpec)
    ensures BackendPort(Defaulted(spec)) == BackendPort(spec)
  {
    hide AllPorts;
    AllPortsDefault(spec);
    var ps := AllPorts(spec);
    var ds := DefaultPorts(ps);
    assert forall i :: 0 <= i < |ps| ==> ds[i].name == ps[i].name;
    if ps != [] {
      DefaultPortMeans(ps[0]);
    }
    assert NamesOf(ds) == PortNames(spec);
  }

  lemma PodContainersDefault(pf: Platform, cs: seq<Container>)
    ensures PodContainers(pf, DefaultContainers(cs)) == PodContainers(pf, cs)
  {
    var ds := DefaultContainers(cs);
    forall i | 0 <= i < |cs| ensures PodContainers(pf, ds)[i] == PodContainers(pf, cs)[i] {
      var ps := cs[i].ports;
      forall j | 0 <= j < |ps| ensures PodPorts(DefaultPorts(ps))[j] == PodPorts(ps)[j] {
        DefaultPortMeans(ps[j]);
      }
      assert PodPorts(ds[i].ports) == PodPorts(ps);
      assert Mounts(pf, ds[i]) == Mounts(pf, cs[i]);
    }
  }

  lemma {:induction false} PodVolumesDefault(pf: Platform, cs: seq<Container>)
    ensures PodVolumes(pf, DefaultContainers(cs)) == PodVolumes(pf, cs)
  {
    if cs != [] {
      var n := |cs| - 1;
      PodVolumesDefault(pf, cs[..n]);
      assert DefaultContainers(cs)[..n] == DefaultContainers(cs[..n]);
      var c := cs[n];
      assert ContainerVolumes(pf, DefaultContainers(cs)[n], |c.scratch|) == ContainerVolumes(pf, c, |c.scratch|);
    }
  }

  /** The Deployment differs exactly when a rollingUpdate sits under an empty strategy type:
      the builder drops it, and defaulting the type revives it. The schema default rules
      that shape out. */
  lemma DefaultKeepsDeployment(pf: Platform, key: NsName, spec: WebAppSpec)
    ensures BuildDeployment(pf, key, Defaulted(spec)) == BuildDeployment(pf, key, spec) <==>
      !(spec.strategy.Some? && spec.strategy.value.kind == "" && spec.strategy.value.rollingUpdate.Some?)
  {
    hide PodContainers, PodVolumes;
    PodContainersDefault(pf, spec.containers);
    PodVolumesDefault(pf, spec.containers);
  }

  /* Validation sees through defaulting. */

  lemma KeySetsDefault(ps: seq<Port>)
    ensures StringKeys(DefaultPorts(ps)) == StringKeys(ps)
    ensures ExplicitNames(DefaultPorts(ps)) == ExplicitNames(ps)
  {
    var ds := DefaultPorts(ps);
    forall p | p in ps ensures StringKey(p) in StringKeys(ds) && (p.name != "" ==> p.name in ExplicitNames(ds)) {
      var i :| 0 <= i < |ps| && ps[i] == p;
      DefaultPortMeans(p);
      assert ds[i] == DefaultPort(p) && ds[i] in ds;
    }
    forall d | d in ds ensures StringKey(d) in StringKeys(ps) && (d.name != "" ==> d.name in ExplicitNames(ps)) {
      var i :| 0 <= i < |ds| && ds[i] == d;
      DefaultPortMeans(ps[i]);
      assert ps[i] in ps;
    }
  }

  lemma EarlierDefault(cs: seq<Container>, i: nat, j: nat)
    requires i < |cs| && j <= |cs[i].ports|
    ensures Earlier(DefaultContainers(cs), i, j) == DefaultPorts(Earlier(cs, i, j))
  {
    DeclaredDefaults(cs[..i]);
    assert DefaultContainers(cs)[..i] == DefaultContainers(cs[..i]);
    DefaultPortsConcat(Declared(cs[..i]), cs[i].ports[..j]);
    assert DefaultPorts(cs[i].ports)[..j] == DefaultPorts(cs[i].ports[..j]);
  }

  lemma PortErrorsDefault(cs: seq<Container>, i: nat, j: nat)
    requires i < |cs| && j < |cs[i].ports|
    ensures PortErrors(DefaultContainers(cs), i, j) == PortErrors(cs, i, j)
  {
    hide StringKeys, ExplicitNames, Earlier, StringKey;
    EarlierDefault(cs, i, j);
    KeySetsDefault(Earlier(cs, i, j));
    DefaultPortMeans(cs[i].ports[j]);
    assert DefaultContainers(cs)[i].ports[j] == DefaultPort(cs[i].ports[j]);
    assert PortNameErrors(DefaultContainers(cs), i, j) == PortNameErrors(cs, i, j);
  }

  lemma {:induction false} PortsErrorsDefault(cs: seq<Container>, i: nat, n: nat)
    requires i < |cs| && n <= |cs[i].ports|
    ensures PortsErrors(DefaultContainers(cs), i, n) == PortsErrors(cs, i, n)
  {
    hide PortErrors;
    if n > 0 {
      PortsErrorsDefault(cs, i, n - 1);
      PortErrorsDefault(cs, i, n - 1);
    }
  }

  lemma {:induction false} ScratchesErrorsSame(c: Container, d: Container, i: nat, n: nat)
    requires c.scratch == d.scratch && n <= |c.scratch|
    ensures ScratchesErrors(c, i, n) == ScratchesErrors(d, i, n)
  {
    if n > 0 {
      ScratchesErrorsSame(c, d, i, n - 1);
    }
  }

  lemma NameErrorsDefault(cs: seq<Container>, i: nat)
    requires i < |cs|
    ensures NameErrors(DefaultContainers(cs), i) == NameErrors(cs, i)
  {
    var ds := DefaultContainers(cs);
    assert forall k :: 0 <= k <= i ==> ds[k].name == cs[k].name;
  }

  lemma {:induction false} ContainersErrorsDefault(cs: seq<Container>, n: nat)
    requires n <= |cs|
    ensures ContainersErrors(DefaultContainers(cs), n) == ContainersErrors(cs, n)
  {
    hide PortsErrors, ScratchesErrors, NameErrors;
    if n > 0 {
      var ds := DefaultContainers(cs);
      ContainersErrorsDefault(cs, n - 1);
      PortsErrorsDefault(cs, n - 1, |cs[n - 1].ports|);
      ScratchesErrorsSame(ds[n - 1], cs[n - 1], n - 1, |cs[n - 1].scratch|);
      NameErrorsDefault(cs, n - 1);
    }
  }

  lemma {:induction false} MissingRequestsDefault(cs: seq<Container>, name: string, n: nat)
    requires n <= |cs|
    ensures MissingRequests(DefaultContainers(cs), name, n) == MissingRequests(cs, name, n)
  {
    if n > 0 {
      MissingRequestsDefault(cs, name, n - 1);
    }
  }

  lemma {:induction false} MissingUtilizationDefault(cs: seq<Container>, names: seq<string>)
    ensures MissingUtilizationRequests(DefaultContainers(cs), names) == MissingUtilizationRequests(cs, names)
  {
    if names != [] {
      MissingUtilizationDefault(cs, names[..|names| - 1]);
      MissingRequestsDefault(cs, names[|names| - 1], |cs|);
    }
  }

  /** Defaulting adds no error, removes none, and keeps their order. */
  lemma DefaultKeepsValidation(spec: WebAppSpec)
    ensures SpecErrors(Defaulted(spec)) == SpecErrors(spec)
  {
    hide ContainersErrors, CollisionErrors, DomainErrors, PortNames;
    var d := Defaulted(spec);
    AllPortsDefault(spec);
    DeclaredDefaults(spec.containers);
    ContainersErrorsDefault(spec.containers, |spec.containers|);
    if AutoscalingOn(spec) {
      MissingUtilizationDefault(spec.containers, TargetedResources(spec.autoscaling.value));
      assert TargetedResources(d.autoscaling.value) == TargetedResources(spec.autoscaling.value);
    }
    assert AutoscalingErrors(d) == AutoscalingErrors(spec);
  }
}
