/** What the four objects are, field by field, in terms of the spec alone. */
module ObjectsExact {
  import opened Base
  import opened Api
  import opened Ports
  import opened Builders

  /** The operator's three labels, which also select the pods. */
  predicate OperatorLabels(labels: Labels, key: NsName) {
    labels == map[
      "app.kubernetes.io/name" := key.name, "app.kubernetes.io/instance" := key.name,
      "app.kubernetes.io/managed-by" := "webapp-operator"]
  }

  /* Pods. */

  predicate PortFor(p: Port, built: PodPort) {
    built.number == p.number && built.protocol != "" && Binds(p, built.protocol) && built.name == PortName(p)
  }

  predicate MountFor(pf: Platform, c: Container, v: ScratchVolume, mount: Mount) {
    mount.path == v.mountPath && mount.name == ScratchVolumeName(pf, c.name, v.name)
  }

  ghost predicate ContainerFor(pf: Platform, c: Container, built: PodContainer) {
    && built.name == c.name && built.image == c.image && built.rest == c.rest
    && built.requests == c.requests && built.limits == c.limits
    && |built.ports| == |c.ports| && (forall j :: 0 <= j < |c.ports| ==> PortFor(c.ports[j], built.ports[j]))
    && |built.mounts| == |c.scratch|
    && (forall j :: 0 <= j < |c.scratch| ==> MountFor(pf, c, c.scratch[j], built.mounts[j]))
  }

  predicate VolumeFor(pf: Platform, c: Container, v: ScratchVolume, built: Volume) {
    && built.name == ScratchVolumeName(pf, c.name, v.name)
    && (built.memory <==> v.medium == "Memory") && built.sizeLimit == v.sizeLimit
  }

  /** Volume a of the pod is declaration j of container i. */
  predicate VolumeServes(pf: Platform, cs: seq<Container>, vs: seq<Volume>, a: int, i: int, j: int) {
    0 <= a < |vs| && HasVolume(cs, i, j) && VolumeFor(pf, cs[i], cs[i].scratch[j], vs[a])
  }

  ghost predicate VolumeAsked(pf: Platform, cs: seq<Container>, vs: seq<Volume>, a: int) {
    exists i, j :: VolumeServes(pf, cs, vs, a, i, j)
  }

  /** Every declared volume is there, nothing else is. */
  ghost predicate VolumesFor(pf: Platform, cs: seq<Container>, vs: seq<Volume>) {
    && (forall i, j :: HasVolume(cs, i, j) ==> exists a :: VolumeServes(pf, cs, vs, a, i, j))
    && (forall a :: 0 <= a < |vs| ==> VolumeAsked(pf, cs, vs, a))
  }

  predicate Given(s: Option<Strategy>) { s.Some? && s.value.kind != "" }

  /** The strategy asked for, parameters kept for rolling updates alone; rolling updates if none is. */
  predicate StrategyFor(s: Option<Strategy>, built: Strategy) {
    && built.kind == (if Given(s) then s.value.kind else "RollingUpdate")
    && built.rollingUpdate == (if Given(s) && s.value.kind == "RollingUpdate" then s.value.rollingUpdate else None)
  }

  /** The labels asked for and those that select the pods; the latter win. */
  ghost predicate PodLabelsFor(asked: Labels, selector: Labels, built: Labels) {
    && built.Keys == asked.Keys + selector.Keys
    && (forall k :: k in selector ==> built[k] == selector[k])
    && (forall k :: k in asked && k !in selector ==> built[k] == asked[k])
  }

  ghost predicate DeploymentFor(pf: Platform, key: NsName, spec: WebAppSpec, d: Body) {
    && d.DeploymentBody?
    && OperatorLabels(d.labels, key) && OperatorLabels(d.selector, key)
    && PodLabelsFor(spec.podLabels, d.selector, d.podLabels)
    && d.podAnnotations == spec.podAnnotations && d.serviceAccountName == spec.serviceAccountName && d.rest == spec.rest
    && (d.automountToken <==> spec.automountToken == Some(true))
    && StrategyFor(spec.strategy, d.strategy)
    && |d.containers| == |spec.containers|
    && (forall i :: 0 <= i < |spec.containers| ==> ContainerFor(pf, spec.containers[i], d.containers[i]))
    && VolumesFor(pf, spec.containers, d.volumes)
  }

  lemma LabelsExact(key: NsName)
    ensures OperatorLabels(SelectorLabels(key), key)
  {
  }

  lemma ContainerExact(pf: Platform, cs: seq<Container>, i: nat)
    requires i < |cs|
    ensures ContainerFor(pf, cs[i], PodContainers(pf, cs)[i])
  {
    hide PortName, ScratchVolumeName;
    assert TCP != "";
    var built := PodContainers(pf, cs)[i];
    assert forall j :: 0 <= j < |cs[i].ports| ==> PortFor(cs[i].ports[j], built.ports[j]);
    assert forall j :: 0 <= j < |cs[i].scratch| ==> MountFor(pf, cs[i], cs[i].scratch[j], built.mounts[j]);
  }

  lemma {:induction false} VolumesExact(pf: Platform, cs: seq<Container>)
    ensures VolumesFor(pf, cs, PodVolumes(pf, cs))
  {
    hide PodVolumes, ScratchVolumeName;
    var vs := PodVolumes(pf, cs);
    forall i, j | HasVolume(cs, i, j) ensures exists a :: VolumeServes(pf, cs, vs, a, i, j) {
      VolumeStands(pf, cs, i, j);
      assert VolumeServes(pf, cs, vs, VolumeAt(pf, cs, i, j), i, j);
    }
    forall a | 0 <= a < |vs| ensures VolumeAsked(pf, cs, vs, a) {
      var i, j := VolumeFound(pf, cs, a);
      VolumeStands(pf, cs, i, j);
      assert VolumeServes(pf, cs, vs, a, i, j);
    }
  }

  lemma StrategyExact(spec: WebAppSpec)
    ensures StrategyFor(spec.strategy, BuildStrategy(spec))
  {
  }

  /** The Deployment carries the spec: every container with its own image, ports, mounts, requests
      and limits, every volume with its medium and limit, and the pod's settings as asked. */
  lemma DeploymentExact(pf: Platform, key: NsName, spec: WebAppSpec)
    ensures DeploymentFor(pf, key, spec, BuildDeployment(pf, key, spec))
  {
    hide ContainerFor, VolumesFor, StrategyFor, OperatorLabels, PodVolumes, BuildStrategy;
    LabelsExact(key);
    StrategyExact(spec);
    VolumesExact(pf, spec.containers);
    forall i | 0 <= i < |spec.containers|
      ensures ContainerFor(pf, spec.containers[i], PodContainers(pf, spec.containers)[i])
    {
      ContainerExact(pf, spec.containers, i);
    }
  }

  /* Service. */

  predicate ServicePortFor(p: Port, built: ServicePort) {
    && built.port == p.number && built.targetPort == p.number && built.protocol != "" && Binds(p, built.protocol)
    && built.name == PortName(p)
  }

  /** Port a of the Service is port j of container i. */
  predicate PortServes(cs: seq<Container>, built: seq<ServicePort>, a: int, i: int, j: int) {
    0 <= a < |built| && HasPort(cs, i, j) && ServicePortFor(cs[i].ports[j], built[a])
  }

  ghost predicate PortAsked(cs: seq<Container>, built: seq<ServicePort>, a: int) {
    exists i, j :: PortServes(cs, built, a, i, j)
  }

  /** Port a of the Service binds what port j of container i does, under its own or another name. */
  predicate PortCovers(cs: seq<Container>, built: seq<ServicePort>, a: int, i: int, j: int) {
    0 <= a < |built| && HasPort(cs, i, j) &&
    built[a].port == cs[i].ports[j].number && built[a].protocol != "" && Binds(cs[i].ports[j], built[a].protocol)
  }

  /** One port for each number and protocol some container declares, and no other. */
  ghost predicate ServicePortsFor(cs: seq<Container>, built: seq<ServicePort>) {
    && (forall a :: 0 <= a < |built| ==> PortAsked(cs, built, a))
    && (forall i, j :: HasPort(cs, i, j) ==> exists a :: PortCovers(cs, built, a, i, j))
    && (forall a, b :: 0 <= a < b < |built| ==>
          (built[a].port, built[a].protocol) != (built[b].port, built[b].protocol))
  }

  ghost predicate ServiceFor(key: NsName, spec: WebAppSpec, s: Body) {
    && s.ServiceBody?
    && OperatorLabels(s.labels, key) && OperatorLabels(s.selector, key)
    && s.serviceType == (if spec.serviceType != "" then spec.serviceType else "ClusterIP")
    && ServicePortsFor(spec.containers, s.ports)
  }

  lemma ServicePortsExact(spec: WebAppSpec)
    ensures ServicePortsFor(spec.containers, ServicePorts(AllPorts(spec)))
  {
    hide PortName, Declared, FirstOccurrences, FirstPositions;
    assert TCP != "";
    var cs, ps, out := spec.containers, Declared(spec.containers), AllPorts(spec);
    var built := ServicePorts(out);
    DeduplicationExact(spec);
    forall a | 0 <= a < |built| ensures PortAsked(cs, built, a) {
      assert out[a] == ps[FirstPositions(ps, |ps|)[a]];
      var i, j := DeclaredHolds(cs, out[a]);
      assert PortServes(cs, built, a, i, j);
    }
    forall i, j | HasPort(cs, i, j) ensures exists a :: PortCovers(cs, built, a, i, j) {
      DeclaredCovers(cs, i, j);
      assert KeySeen(ps, KeyOf(cs[i].ports[j]));
      var a :| 0 <= a < |out| && KeyOf(out[a]) == KeyOf(cs[i].ports[j]);
      assert PortCovers(cs, built, a, i, j);
    }
    forall a, b | 0 <= a < b < |built|
      ensures (built[a].port, built[a].protocol) != (built[b].port, built[b].protocol)
    {
      assert KeyOf(out[a]) != KeyOf(out[b]);
    }
  }

  lemma ServiceExact(key: NsName, spec: WebAppSpec)
    ensures ServiceFor(key, spec, BuildService(key, spec))
  {
    hide ServicePortsFor, OperatorLabels, AllPorts;
    LabelsExact(key);
    ServicePortsExact(spec);
  }

  /* Ingress. */

  /** The wanted port name, else http if a port is called so, else the name of the first port. */
  ghost predicate BackendFor(spec: WebAppSpec, name: string) {
    if spec.ingressPortName != "" then name == spec.ingressPortName
    else if exists p :: p in AllPorts(spec) && p.name == "http" then name == "http"
    else AllPorts(spec) != [] && name == PortName(AllPorts(spec)[0])
  }

  ghost predicate IngressFor(key: NsName, spec: WebAppSpec, b: Body) {
    && b.IngressBody?
    && OperatorLabels(b.labels, key) && b.className == spec.ingressClassName && b.host == spec.domain
    && b.service == key.name && BackendFor(spec, b.portName)
    && exists a :: 0 <= a < |BuildService(key, spec).ports| && BuildService(key, spec).ports[a].name == b.portName
  }

  lemma IngressExact(key: NsName, spec: WebAppSpec)
    ensures BuildIngress(key, spec).Good? ==> IngressFor(key, spec, BuildIngress(key, spec).value)
    ensures BuildIngress(key, spec) == Bad(NoPorts) <==> AllPorts(spec) == []
    ensures BuildIngress(key, spec) == Bad(UnknownIngressPort) <==>
      AllPorts(spec) != [] && spec.ingressPortName != "" && spec.ingressPortName !in PortNames(spec)
    ensures BuildIngress(key, spec) != Bad(NoMaxReplicas)
  {
    hide OperatorLabels, BackendPort, PortNames, BuildService, AllPorts;
    LabelsExact(key);
    BackendNamesOnePort(spec);
    ObjectsReferToEachOther(key, spec);
  }

  /** The URL of the Ingress, and none without. */
  lemma URLExact(spec: WebAppSpec)
    ensures IngressURL(spec) == if spec.domain != "" then "http://" + spec.domain else ""
  {
  }

  /* HPA. */

  lemma TargetedResourcesExact(a: Autoscaling, r: string)
    ensures r in TargetedResources(a) <==>
      || (r == "cpu" && (a.targetCpu.Some? || a.targetMemory.None?))
      || (r == "memory" && a.targetMemory.Some?)
  {
    assert CPU == "cpu" && MEMORY == "memory" && |CPU| != |MEMORY|;
  }

  ghost predicate HpaFor(key: NsName, a: Autoscaling, h: Body) {
    && h.HpaBody? && OperatorLabels(h.labels, key) && h.target == key.name && h.behavior == a.behavior
    && h.minReplicas == (if a.minReplicas.Some? then a.minReplicas.value else 1)
    && a.maxReplicas == Some(h.maxReplicas)
    && (forall m :: m in h.metrics <==>
          || (m.resource == "cpu" && a.targetCpu == Some(m.utilization))
          || (m.resource == "memory" && a.targetMemory == Some(m.utilization))
          || (a.targetCpu.None? && a.targetMemory.None? && m == Metric("cpu", 70)))
    && (forall i, j :: 0 <= i < j < |h.metrics| ==> h.metrics[i].resource != h.metrics[j].resource)
  }

  lemma HpaExact(key: NsName, a: Autoscaling)
    ensures BuildHpa(key, a).Good? ==> HpaFor(key, a, BuildHpa(key, a).value)
    ensures BuildHpa(key, a) == Bad(NoMaxReplicas) <==> a.maxReplicas.None?
    ensures BuildHpa(key, a).Bad? ==> BuildHpa(key, a).error == NoMaxReplicas
  {
    hide OperatorLabels;
    LabelsExact(key);
    assert CPU == "cpu" && MEMORY == "memory" && |CPU| != |MEMORY|;
    forall m ensures m in HpaMetrics(a) <==>
      || (m.resource == "cpu" && a.targetCpu == Some(m.utilization))
      || (m.resource == "memory" && a.targetMemory == Some(m.utilization))
      || (a.targetCpu.None? && a.targetMemory.None? && m == Metric("cpu", 70))
    {
      HpaMetricsExact(a, m);
    }
  }

  /* Together. */

  /** WebApps of different names in one namespace never select each other's pods. */
  lemma SelectorsApart(pf: Platform, a: NsName, b: NsName, spec: WebAppSpec)
    requires a.name != b.name
    ensures var selector, pods := SelectorLabels(a), BuildDeployment(pf, b, spec).podLabels;
      exists k :: k in selector && !(k in pods && pods[k] == selector[k])
  {
    hide PodContainers, PodVolumes;
    assert NAME_LABEL in SelectorLabels(a) && SelectorLabels(a)[NAME_LABEL] == a.name by {
      assert |NAME_LABEL| != |INSTANCE_LABEL| && |NAME_LABEL| != |MANAGED_BY_LABEL|;
    }
    assert SelectorLabels(b)[NAME_LABEL] == b.name by {
      assert |NAME_LABEL| != |INSTANCE_LABEL| && |NAME_LABEL| != |MANAGED_BY_LABEL|;
    }
  }

  /** A hexadecimal digit. */
  lemma HexDigitExact(d: nat)
    requires d < 16
    ensures HexDigit(d) == "0123456789abcdef"[d]
  {
  }

  /** What is left of a volume name: at most 54 characters, without the hyphens at the cut. */
  lemma {:induction false} TrimExact(s: string)
    ensures TrimHyphens(s) <= s && (TrimHyphens(s) == "" || TrimHyphens(s)[|TrimHyphens(s)| - 1] != '-')
    ensures forall i :: |TrimHyphens(s)| <= i < |s| ==> s[i] == '-'
  {
    if s != "" && s[|s| - 1] == '-' {
      TrimExact(s[..|s| - 1]);
    }
  }

  /** The name of a scratch volume: what is left of its own, a hyphen, and the first four bytes of
      the hash of the container's name, a NUL and the volume's, each as two digits. */
  lemma ScratchNameExact(pf: Platform, c: string, v: string)
    ensures var name, d := ScratchVolumeName(pf, c, v), pf.sha(c + "\0" + v);
      var left := TrimHyphens(v[..if |v| > 54 then 54 else |v|]);
      name == left + "-" + [HexDigit(d.0 / 16), HexDigit(d.0 % 16), HexDigit(d.1 / 16), HexDigit(d.1 % 16),
                            HexDigit(d.2 / 16), HexDigit(d.2 % 16), HexDigit(d.3 / 16), HexDigit(d.3 % 16)]
  {
    hide HexDigit, TrimHyphens;
    var d := pf.sha(c + "\0" + v);
    assert |Suffix(d)| == 8;
    assert Suffix(d) == [HexDigit(d.0 / 16), HexDigit(d.0 % 16), HexDigit(d.1 / 16), HexDigit(d.1 % 16),
                         HexDigit(d.2 / 16), HexDigit(d.2 % 16), HexDigit(d.3 / 16), HexDigit(d.3 % 16)];
    assert v[..|v|] == v;
  }
}
