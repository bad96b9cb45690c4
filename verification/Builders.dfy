/** internal/resources: the four objects a WebApp becomes, as pure functions of it. */
module Builders {
  import opened Base
  import opened Text
  import opened Api
  import opened Ports

  const NAME_LABEL := "app.kubernetes.io/name"
  const INSTANCE_LABEL := "app.kubernetes.io/instance"
  const MANAGED_BY_LABEL := "app.kubernetes.io/managed-by"
  const MANAGED_BY_VALUE := "webapp-operator"
  const DEFAULT_TARGET_CPU := 70

  datatype ServicePort = ServicePort(name: string, port: int, targetPort: int, protocol: string)

  datatype Volume = Volume(name: string, memory: bool, sizeLimit: Option<int>)

  datatype Mount = Mount(name: string, path: string)

  datatype PodPort = PodPort(name: string, number: int, protocol: string)

  datatype PodContainer = PodContainer(
    name: string, image: string, ports: seq<PodPort>, requests: ResourceList, limits: ResourceList,
    mounts: seq<Mount>, rest: Opaque)

  datatype Metric = Metric(resource: string, utilization: int)

  /** Every field the operator applies, except the controller reference and spec.replicas. */
  datatype Body =
    | DeploymentBody(labels: Labels, selector: Labels, strategy: Strategy, podLabels: Labels, podAnnotations: Labels,
                     containers: seq<PodContainer>, serviceAccountName: string, automountToken: bool,
                     volumes: seq<Volume>, rest: Opaque)
    | ServiceBody(labels: Labels, serviceType: string, selector: Labels, ports: seq<ServicePort>)
    | IngressBody(labels: Labels, className: Option<string>, host: string, service: string, portName: string)
    | HpaBody(labels: Labels, target: string, minReplicas: int, maxReplicas: int, metrics: seq<Metric>,
              behavior: Opaque)
    | OtherBody(raw: Opaque)   // whatever another tool wrote

  function SelectorLabels(key: NsName): Labels {
    map[NAME_LABEL := key.name, INSTANCE_LABEL := key.name, MANAGED_BY_LABEL := MANAGED_BY_VALUE]
  }

  /* Deployment */

  function DesiredReplicas(spec: WebAppSpec): Option<int> {
    if AutoscalingOn(spec) then None
    else if spec.replicas.Some? then spec.replicas
    else Some(1)
  }

  function BuildStrategy(spec: WebAppSpec): Strategy {
    if spec.strategy.None? || spec.strategy.value.kind == "" then Strategy(ROLLING_UPDATE, None)
    else
      var kind := spec.strategy.value.kind;
      Strategy(kind, if kind == ROLLING_UPDATE then spec.strategy.value.rollingUpdate else None)
  }

  function HexDigit(d: nat): (c: char)
    requires d < 16
  {
    if d < 10 then '0' + d as char else 'a' + (d - 10) as char
  }

  function Hex(b: Byte): string { [HexDigit(b / 16), HexDigit(b % 16)] }

  function Suffix(d: (Byte, Byte, Byte, Byte)): string { Hex(d.0) + Hex(d.1) + Hex(d.2) + Hex(d.3) }

  function VolumeKey(container: string, volume: string): string { container + "\0" + volume }

  function Truncate(s: string, n: nat): string { if |s| <= n then s else s[..n] }

  function TrimHyphens(s: string): string {
    if s != "" && s[|s| - 1] == '-' then TrimHyphens(s[..|s| - 1]) else s
  }

  function ScratchVolumeName(pf: Platform, container: string, volume: string): string {
    var suffix := Suffix(pf.sha(VolumeKey(container, volume)));
    TrimHyphens(Truncate(volume, 63 - 1 - |suffix|)) + "-" + suffix
  }

  function PodVolume(pf: Platform, c: Container, v: ScratchVolume): Volume {
    Volume(ScratchVolumeName(pf, c.name, v.name), v.medium == MEDIUM_MEMORY, v.sizeLimit)
  }

  function ContainerVolumes(pf: Platform, c: Container, n: nat): seq<Volume>
    requires n <= |c.scratch|
  {
    seq(n, j requires 0 <= j < n => PodVolume(pf, c, c.scratch[j]))
  }

  function PodVolumes(pf: Platform, cs: seq<Container>): seq<Volume> {
    if cs == [] then []
    else
      var c := cs[|cs| - 1];
      PodVolumes(pf, cs[..|cs| - 1]) + ContainerVolumes(pf, c, |c.scratch|)
  }

  function Mounts(pf: Platform, c: Container): seq<Mount> {
    seq(|c.scratch|, j requires 0 <= j < |c.scratch| =>
      Mount(ScratchVolumeName(pf, c.name, c.scratch[j].name), c.scratch[j].mountPath))
  }

  function PodPorts(ps: seq<Port>): seq<PodPort> {
    seq(|ps|, i requires 0 <= i < |ps| => PodPort(PortName(ps[i]), ps[i].number, Protocol(ps[i])))
  }

  function PodContainers(pf: Platform, cs: seq<Container>): seq<PodContainer> {
    seq(|cs|, i requires 0 <= i < |cs| =>
      PodContainer(cs[i].name, cs[i].image, PodPorts(cs[i].ports), cs[i].requests, cs[i].limits,
                   Mounts(pf, cs[i]), cs[i].rest))
  }

  function BuildDeployment(pf: Platform, key: NsName, spec: WebAppSpec): Body {
    DeploymentBody(
      SelectorLabels(key), SelectorLabels(key), BuildStrategy(spec),
      spec.podLabels + SelectorLabels(key), spec.podAnnotations,
      PodContainers(pf, spec.containers), spec.serviceAccountName, spec.automountToken.GetOr(false),
      PodVolumes(pf, spec.containers), spec.rest)
  }

  /* Service */

  function ServicePorts(ps: seq<Port>): seq<ServicePort> {
    seq(|ps|, i requires 0 <= i < |ps| => ServicePort(PortName(ps[i]), ps[i].number, ps[i].number, Protocol(ps[i])))
  }

  function BuildService(key: NsName, spec: WebAppSpec): Body {
    ServiceBody(SelectorLabels(key), if spec.serviceType == "" then CLUSTER_IP else spec.serviceType,
                SelectorLabels(key), ServicePorts(AllPorts(spec)))
  }

  /* Ingress */

  predicate WantsIngress(spec: WebAppSpec) { spec.domain != "" }

  function IngressURL(spec: WebAppSpec): string {
    if WantsIngress(spec) then "http://" + spec.domain else ""
  }

  function BuildIngress(key: NsName, spec: WebAppSpec): Built<Body> {
    var port := BackendPort(spec);
    if port.Bad? then Bad(port.error)
    else Good(IngressBody(SelectorLabels(key), spec.ingressClassName, spec.domain, key.name, port.value))
  }

  /* HPA */

  function TargetedResources(a: Autoscaling): seq<string> {
    if a.targetCpu.None? && a.targetMemory.None? then [CPU]
    else (if a.targetCpu.Some? then [CPU] else []) + (if a.targetMemory.Some? then [MEMORY] else [])
  }

  function TargetOf(a: Autoscaling, resource: string): int {
    if resource == CPU then a.targetCpu.GetOr(DEFAULT_TARGET_CPU) else a.targetMemory.GetOr(DEFAULT_TARGET_CPU)
  }

  function HpaMetrics(a: Autoscaling): seq<Metric> {
    var names := TargetedResources(a);
    seq(|names|, i requires 0 <= i < |names| => Metric(names[i], TargetOf(a, names[i])))
  }

  function BuildHpa(key: NsName, a: Autoscaling): Built<Body> {
    if a.maxReplicas.None? then Bad(NoMaxReplicas)
    else Good(HpaBody(SelectorLabels(key), key.name, a.minReplicas.GetOr(1), a.maxReplicas.value, HpaMetrics(a),
        a.behavior))
  }

  /* The loops. */

  method CollectServicePorts(spec: WebAppSpec) returns (out: seq<ServicePort>)
    ensures out == ServicePorts(AllPorts(spec))
  {
    var ports := CollectPorts(spec);
    out := [];
    for i := 0 to |ports|
      invariant out == ServicePorts(ports[..i])
    {
      out := out + [ServicePort(PortName(ports[i]), ports[i].number, ports[i].number, Protocol(ports[i]))];
    }
    assert ports[..|ports|] == ports;
  }

  lemma ContainerVolumesSnoc(pf: Platform, c: Container, j: nat)
    requires j < |c.scratch|
    ensures ContainerVolumes(pf, c, j + 1) == ContainerVolumes(pf, c, j) + [PodVolume(pf, c, c.scratch[j])]
  {
  }

  lemma {:induction false} PodVolumesSnoc(pf: Platform, cs: seq<Container>, i: nat)
    requires i < |cs|
    ensures PodVolumes(pf, cs[..i + 1]) == PodVolumes(pf, cs[..i]) + ContainerVolumes(pf, cs[i], |cs[i].scratch|)
  {
    assert cs[..i + 1][..i] == cs[..i];
  }

  method CollectScratchVolumes(pf: Platform, cs: seq<Container>) returns (out: seq<Volume>)
    ensures out == PodVolumes(pf, cs)
  {
    out := [];
    for i := 0 to |cs|
      invariant out == PodVolumes(pf, cs[..i])
    {
      var c := cs[i];
      ghost var before := out;
      for j := 0 to |c.scratch|
        invariant out == before + ContainerVolumes(pf, c, j)
      {
        var v := c.scratch[j];
        var volume := Volume(ScratchVolumeName(pf, c.name, v.name), false, v.sizeLimit);
        if v.medium == MEDIUM_MEMORY {
          volume := volume.(memory := true);
        }
        ContainerVolumesSnoc(pf, c, j);
        out := out + [volume];
      }
      PodVolumesSnoc(pf, cs, i);
    }
    assert cs[..|cs|] == cs;
  }

  method CollectVolumeMounts(pf: Platform, c: Container) returns (out: seq<Mount>)
    ensures out == Mounts(pf, c)
  {
    out := [];
    for j := 0 to |c.scratch|
      invariant out == Mounts(pf, c)[..j]
    {
      var v := c.scratch[j];
      out := out + [Mount(ScratchVolumeName(pf, c.name, v.name), v.mountPath)];
    }
  }

  method CollectTargetedResources(a: Autoscaling) returns (out: seq<string>)
    ensures out == TargetedResources(a)
  {
    out := [];
    if a.targetCpu.Some? {
      out := out + [CPU];
    }
    if a.targetMemory.Some? {
      out := out + [MEMORY];
    }
    if |out| == 0 {
      out := out + [CPU];
    }
  }

  method CollectHpaMetrics(a: Autoscaling) returns (out: seq<Metric>)
    ensures out == HpaMetrics(a)
  {
    var targets := map[CPU := a.targetCpu, MEMORY := a.targetMemory];
    var names := CollectTargetedResources(a);
    out := [];
    for i := 0 to |names|
      invariant out == HpaMetrics(a)[..i]
    {
      assert names[i] == CPU || names[i] == MEMORY;
      var target := targets[names[i]];
      if target.None? {
        target := Some(DEFAULT_TARGET_CPU);
      }
      out := out + [Metric(names[i], target.value)];
    }
  }

  method CollectPodPorts(ps: seq<Port>) returns (out: seq<PodPort>)
    ensures out == PodPorts(ps)
  {
    out := [];
    for i := 0 to |ps|
      invariant out == PodPorts(ps)[..i]
    {
      out := out + [PodPort(PortName(ps[i]), ps[i].number, Protocol(ps[i]))];
    }
  }

  method CollectPodContainers(pf: Platform, cs: seq<Container>) returns (out: seq<PodContainer>)
    ensures out == PodContainers(pf, cs)
  {
    out := [];
    for i := 0 to |cs|
      invariant out == PodContainers(pf, cs)[..i]
    {
      var c := cs[i];
      var ports := CollectPodPorts(c.ports);
      var mounts := CollectVolumeMounts(pf, c);
      out := out + [PodContainer(c.name, c.image, ports, c.requests, c.limits, mounts, c.rest)];
    }
  }

  /** maps.Copy: entries of from displace those of into. */
  method CopyLabels(into: Labels, from: Labels) returns (out: Labels)
    ensures out == into + from
  {
    out := into;
    var left := from.Keys;
    while left != {}
      invariant left <= from.Keys && out.Keys == into.Keys + (from.Keys - left)
      invariant forall k :: k in out ==> out[k] == if k in from && k !in left then from[k] else into[k]
    {
      var k :| k in left;
      out := out[k := from[k]];
      left := left - {k};
    }
  }

  method MakeDeployment(pf: Platform, key: NsName, spec: WebAppSpec) returns (d: Body)
    ensures d == BuildDeployment(pf, key, spec)
  {
    var podLabels := CopyLabels(map[], spec.podLabels);
    podLabels := CopyLabels(podLabels, SelectorLabels(key));
    assert map[] + spec.podLabels == spec.podLabels;
    var containers := CollectPodContainers(pf, spec.containers);
    var volumes := CollectScratchVolumes(pf, spec.containers);
    var automount := false;
    if spec.automountToken.Some? {
      automount := spec.automountToken.value;
    }
    d := DeploymentBody(SelectorLabels(key), SelectorLabels(key), BuildStrategy(spec), podLabels, spec.podAnnotations,
                        containers, spec.serviceAccountName, automount, volumes, spec.rest);
  }

  method MakeService(key: NsName, spec: WebAppSpec) returns (d: Body)
    ensures d == BuildService(key, spec)
  {
    var serviceType := spec.serviceType;
    if serviceType == "" {
      serviceType := CLUSTER_IP;
    }
    var ports := CollectServicePorts(spec);
    d := ServiceBody(SelectorLabels(key), serviceType, SelectorLabels(key), ports);
  }

  method MakeIngress(key: NsName, spec: WebAppSpec) returns (d: Built<Body>)
    ensures d == BuildIngress(key, spec)
  {
    var port := FindBackendPort(spec);
    if port.Bad? {
      return Bad(port.error);
    }
    d := Good(IngressBody(SelectorLabels(key), spec.ingressClassName, spec.domain, key.name, port.value));
  }

  method MakeHpa(key: NsName, a: Autoscaling) returns (d: Built<Body>)
    ensures d == BuildHpa(key, a)
  {
    if a.maxReplicas.None? {
      return Bad(NoMaxReplicas);
    }
    var minReplicas := 1;
    if a.minReplicas.Some? {
      minReplicas := a.minReplicas.value;
    }
    var metrics := CollectHpaMetrics(a);
    d := Good(HpaBody(SelectorLabels(key), key.name, minReplicas, a.maxReplicas.value, metrics, a.behavior));
  }

  /* Scratch volume names. */

  lemma HexInjective(a: Byte, b: Byte)
    ensures Hex(a) == Hex(b) ==> a == b
    ensures AlnumOrHyphen(Hex(a)[0]) && AlnumOrHyphen(Hex(a)[1]) && Alnum(Hex(a)[1])
  {
    if Hex(a) == Hex(b) {
      assert Hex(a)[0] == Hex(b)[0] && Hex(a)[1] == Hex(b)[1];
      assert a / 16 == b / 16 && a % 16 == b % 16;
    }
  }

  lemma {:induction false} TrimKeepsFirst(s: string)
    requires s != "" && s[0] != '-'
    ensures TrimHyphens(s) != "" && TrimHyphens(s) <= s
  {
    if s[|s| - 1] == '-' {
      TrimKeepsFirst(s[..|s| - 1]);
    }
  }

  /** A schema-valid volume name always yields a label of at most 63 characters. */
  lemma VolumeNameIsLabel(pf: Platform, container: string, volume: string)
    requires DNS1123Label(volume)
    ensures DNS1123Label(ScratchVolumeName(pf, container, volume))
  {
    var d := pf.sha(VolumeKey(container, volume));
    HexInjective(d.0, d.0);
    HexInjective(d.1, d.1);
    HexInjective(d.2, d.2);
    HexInjective(d.3, d.3);
    var cut := Truncate(volume, 54);
    TrimKeepsFirst(cut);
    var trimmed, suffix := TrimHyphens(cut), Suffix(d);
    assert |suffix| == 8;
    var name := ScratchVolumeName(pf, container, volume);
    assert name == trimmed + "-" + suffix;
    assert forall i :: 0 <= i < |trimmed| ==> trimmed[i] == volume[i];
    assert forall i :: 0 <= i < |suffix| ==> AlnumOrHyphen(suffix[i]);
    assert name[|name| - 1] == Hex(d.3)[1];
  }

  /** Keys of distinct pairs are distinct: no label holds a NUL. */
  lemma VolumeKeyInjective(c1: string, v1: string, c2: string, v2: string)
    requires LabelShape(c1) && LabelShape(c2)
    requires VolumeKey(c1, v1) == VolumeKey(c2, v2)
    ensures c1 == c2 && v1 == v2
  {
    var s, t := VolumeKey(c1, v1), VolumeKey(c2, v2);
    assert s[|c1|] == '\0' && t[|c2|] == '\0';
    assert forall i :: 0 <= i < |c1| ==> s[i] == c1[i];
    assert forall i :: 0 <= i < |c2| ==> t[i] == c2[i];
    assert |c1| == |c2|;
    assert c1 == s[..|c1|] == t[..|c2|] == c2;
    assert v1 == s[|c1| + 1..] == t[|c2| + 1..] == v2;
  }

  type Digest = (Byte, Byte, Byte, Byte)

  lemma SuffixInjective(d: Digest, e: Digest)
    ensures |Suffix(d)| == |Suffix(e)| == 8
    ensures Suffix(d) == Suffix(e) ==> d == e
  {
    hide HexDigit;
    var x, y := Suffix(d), Suffix(e);
    if x == y {
      assert Hex(d.0) == x[0..2] == y[0..2] == Hex(e.0);
      assert Hex(d.1) == x[2..4] == y[2..4] == Hex(e.1);
      assert Hex(d.2) == x[4..6] == y[4..6] == Hex(e.2);
      assert Hex(d.3) == x[6..8] == y[6..8] == Hex(e.3);
      HexInjective(d.0, e.0);
      HexInjective(d.1, e.1);
      HexInjective(d.2, e.2);
      HexInjective(d.3, e.3);
    }
  }

  /** Two distinct (container, volume) pairs share a pod volume name exactly when the kept
      hash bytes of their distinct keys and their trimmed names coincide. */
  lemma VolumeNameCollision(pf: Platform, c1: string, v1: string, c2: string, v2: string)
    requires DNS1123Label(c1) && DNS1123Label(c2) && DNS1123Label(v1) && DNS1123Label(v2)
    requires (c1, v1) != (c2, v2)
    ensures VolumeKey(c1, v1) != VolumeKey(c2, v2)
    ensures ScratchVolumeName(pf, c1, v1) == ScratchVolumeName(pf, c2, v2) <==>
      && pf.sha(VolumeKey(c1, v1)) == pf.sha(VolumeKey(c2, v2))
      && TrimHyphens(Truncate(v1, 54)) == TrimHyphens(Truncate(v2, 54))
  {
    hide TrimHyphens, LabelShape, Suffix, Truncate, VolumeKey;
    if VolumeKey(c1, v1) == VolumeKey(c2, v2) {
      VolumeKeyInjective(c1, v1, c2, v2);
    }
    var d, e := pf.sha(VolumeKey(c1, v1)), pf.sha(VolumeKey(c2, v2));
    var a, b := TrimHyphens(Truncate(v1, 54)), TrimHyphens(Truncate(v2, 54));
    var s, t := ScratchVolumeName(pf, c1, v1), ScratchVolumeName(pf, c2, v2);
    SuffixInjective(d, e);
    assert s == a + "-" + Suffix(d) && t == b + "-" + Suffix(e);
    if s == t {
      assert Suffix(d) == s[|s| - 8..] == t[|t| - 8..] == Suffix(e);
      assert a == s[..|s| - 9] == t[..|t| - 9] == b;
    }
  }

  /** The mounts of all containers, in order. */
  function AllMounts(pf: Platform, cs: seq<Container>): seq<Mount> {
    if cs == [] then [] else AllMounts(pf, cs[..|cs| - 1]) + Mounts(pf, cs[|cs| - 1])
  }

  /** Pod volumes and container mounts correspond one to one and in order, by name. */
  lemma {:induction false} MountsMatchVolumes(pf: Platform, cs: seq<Container>)
    ensures |AllMounts(pf, cs)| == |PodVolumes(pf, cs)|
    ensures forall i :: 0 <= i < |AllMounts(pf, cs)| ==> AllMounts(pf, cs)[i].name == PodVolumes(pf, cs)[i].name
  {
    if cs != [] {
      MountsMatchVolumes(pf, cs[..|cs| - 1]);
    }
  }

  predicate HasVolume(cs: seq<Container>, i: int, j: int) { 0 <= i < |cs| && 0 <= j < |cs[i].scratch| }

  /** Where the volume of declaration j in container i stands in the pod. */
  function VolumeAt(pf: Platform, cs: seq<Container>, i: nat, j: nat): nat
    requires i < |cs|
  {
    |PodVolumes(pf, cs[..i])| + j
  }

  lemma {:induction false} VolumeStands(pf: Platform, cs: seq<Container>, i: nat, j: nat)
    requires HasVolume(cs, i, j)
    ensures VolumeAt(pf, cs, i, j) < |PodVolumes(pf, cs)|
    ensures PodVolumes(pf, cs)[VolumeAt(pf, cs, i, j)] == PodVolume(pf, cs[i], cs[i].scratch[j])
  {
    hide PodVolume;
    var n := |cs| - 1;
    if i < n {
      VolumeStands(pf, cs[..n], i, j);
      assert cs[..n][..i] == cs[..i];
    } else {
      assert cs[..i] == cs[..n];
      var before := PodVolumes(pf, cs[..n]);
      assert PodVolumes(pf, cs)[|before| + j] == ContainerVolumes(pf, cs[n], |cs[n].scratch|)[j];
    }
  }

  lemma {:induction false} VolumeFound(pf: Platform, cs: seq<Container>, a: nat) returns (i: nat, j: nat)
    requires a < |PodVolumes(pf, cs)|
    ensures HasVolume(cs, i, j) && VolumeAt(pf, cs, i, j) == a
  {
    var n := |cs| - 1;
    if a < |PodVolumes(pf, cs[..n])| {
      i, j := VolumeFound(pf, cs[..n], a);
      assert cs[..n][..i] == cs[..i];
    } else {
      i, j := n, a - |PodVolumes(pf, cs[..n])|;
    }
  }

  lemma {:induction false} VolumesAhead(pf: Platform, cs: seq<Container>, i: nat, k: nat)
    requires i < k < |cs|
    ensures |PodVolumes(pf, cs[..i])| + |cs[i].scratch| <= |PodVolumes(pf, cs[..k])|
  {
    PodVolumesSnoc(pf, cs, k - 1);
    if i < k - 1 {
      VolumesAhead(pf, cs, i, k - 1);
    }
  }

  /** Two declarations at different places hash and cut to the same. */
  predicate Collide(pf: Platform, cs: seq<Container>, i: int, j: int, k: int, l: int) {
    && HasVolume(cs, i, j) && HasVolume(cs, k, l) && (i, j) != (k, l)
    && pf.sha(VolumeKey(cs[i].name, cs[i].scratch[j].name)) == pf.sha(VolumeKey(cs[k].name, cs[k].scratch[l].name))
    && TrimHyphens(Truncate(cs[i].scratch[j].name, 54)) == TrimHyphens(Truncate(cs[k].scratch[l].name, 54))
  }

  /** The names the schema lets through: labels, distinct among containers and within one. */
  ghost predicate SchemaNames(cs: seq<Container>) {
    && (forall i :: 0 <= i < |cs| ==> DNS1123Label(cs[i].name))
    && (forall i, j :: HasVolume(cs, i, j) ==> DNS1123Label(cs[i].scratch[j].name))
    && (forall i, k :: 0 <= i < k < |cs| ==> cs[i].name != cs[k].name)
    && (forall i, j, l :: HasVolume(cs, i, j) && HasVolume(cs, i, l) && j != l ==>
          cs[i].scratch[j].name != cs[i].scratch[l].name)
  }

  lemma NamesAgree(pf: Platform, cs: seq<Container>, i: nat, j: nat, k: nat, l: nat)
    requires SchemaNames(cs) && HasVolume(cs, i, j) && HasVolume(cs, k, l) && (i, j) != (k, l)
    ensures PodVolume(pf, cs[i], cs[i].scratch[j]).name == PodVolume(pf, cs[k], cs[k].scratch[l]).name <==>
      Collide(pf, cs, i, j, k, l)
  {
    hide DNS1123Label, VolumeKey, TrimHyphens, Truncate, ScratchVolumeName;
    assert (cs[i].name, cs[i].scratch[j].name) != (cs[k].name, cs[k].scratch[l].name);
    VolumeNameCollision(pf, cs[i].name, cs[i].scratch[j].name, cs[k].name, cs[k].scratch[l].name);
  }

  /** The volume names of a pod are pairwise distinct exactly when no two declarations collide. */
  lemma {:induction false} VolumeNamesDistinct(pf: Platform, cs: seq<Container>)
    requires SchemaNames(cs)
    ensures var vs := PodVolumes(pf, cs);
      (forall a, b :: 0 <= a < b < |vs| ==> vs[a].name != vs[b].name) <==>
      !exists i, j, k, l :: Collide(pf, cs, i, j, k, l)
  {
    hide SchemaNames, PodVolumes, PodVolume, Collide;
    var vs := PodVolumes(pf, cs);
    if a, b :| 0 <= a < b < |vs| && vs[a].name == vs[b].name {
      var i, j := VolumeFound(pf, cs, a);
      var k, l := VolumeFound(pf, cs, b);
      VolumeStands(pf, cs, i, j);
      VolumeStands(pf, cs, k, l);
      NamesAgree(pf, cs, i, j, k, l);
    }
    if i, j, k, l :| Collide(pf, cs, i, j, k, l) {
      CollidePlaces(pf, cs, i, j, k, l);
      VolumeStands(pf, cs, i, j);
      VolumeStands(pf, cs, k, l);
      NamesAgree(pf, cs, i, j, k, l);
    }
  }

  lemma CollidePlaces(pf: Platform, cs: seq<Container>, i: int, j: int, k: int, l: int)
    requires Collide(pf, cs, i, j, k, l)
    ensures HasVolume(cs, i, j) && HasVolume(cs, k, l) && (i, j) != (k, l)
    ensures VolumeAt(pf, cs, i, j) != VolumeAt(pf, cs, k, l)
  {
    hide PodVolumes, VolumeKey, TrimHyphens, Truncate;
    if i < k {
      VolumesAhead(pf, cs, i, k);
    } else if k < i {
      VolumesAhead(pf, cs, k, i);
    }
  }

  /** Each mount of a built container names a volume of the pod that was declared in that
      same container, carrying that declaration's medium and limit. */
  lemma {:induction false} MountHasVolume(pf: Platform, cs: seq<Container>, i: nat, j: nat)
    requires i < |cs| && j < |cs[i].scratch|
    ensures Mounts(pf, cs[i])[j].path == cs[i].scratch[j].mountPath
    ensures PodVolume(pf, cs[i], cs[i].scratch[j]) in PodVolumes(pf, cs)
    ensures PodVolume(pf, cs[i], cs[i].scratch[j]).name == Mounts(pf, cs[i])[j].name
  {
    var n := |cs| - 1;
    if i < n {
      MountHasVolume(pf, cs[..n], i, j);
    } else {
      assert ContainerVolumes(pf, cs[i], |cs[i].scratch|)[j] == PodVolume(pf, cs[i], cs[i].scratch[j]);
    }
  }

  /** User labels never displace the operator's: the pods always match the immutable selector. */
  lemma PodsMatchSelector(pf: Platform, key: NsName, spec: WebAppSpec)
    ensures var d := BuildDeployment(pf, key, spec);
      forall k :: k in d.selector ==> k in d.podLabels && d.podLabels[k] == d.selector[k]
    ensures BuildService(key, spec).selector == BuildDeployment(pf, key, spec).selector
  {
  }

  /** Traffic arrives: every Service port targets a port that some container of the pods exposes
      under the same name, number and protocol. */
  lemma ServiceReachesPods(pf: Platform, key: NsName, spec: WebAppSpec, a: nat) returns (i: nat, j: nat)
    requires a < |BuildService(key, spec).ports|
    ensures var pods, p := BuildDeployment(pf, key, spec).containers, BuildService(key, spec).ports[a];
      && i < |pods| && j < |pods[i].ports|
      && pods[i].ports[j] == PodPort(p.name, p.targetPort, p.protocol) && p.port == p.targetPort
  {
    var ps, out := Declared(spec.containers), AllPorts(spec);
    DeduplicationExact(spec);
    var at := FirstPositions(ps, |ps|)[a];
    assert out[a] == ps[at];
    i, j := DeclaredHolds(spec.containers, ps[at]);
  }

  /** The HPA scales on exactly the resources given a target, on CPU at 70 percent if none is. */
  lemma HpaMetricsExact(a: Autoscaling, m: Metric)
    ensures m in HpaMetrics(a) <==>
      || (m.resource == CPU && a.targetCpu == Some(m.utilization))
      || (m.resource == MEMORY && a.targetMemory == Some(m.utilization))
      || (a.targetCpu.None? && a.targetMemory.None? && m == Metric(CPU, DEFAULT_TARGET_CPU))
  {
    var names, ms := TargetedResources(a), HpaMetrics(a);
    assert names[0] == CPU || names[0] == MEMORY;
    assert CPU != MEMORY by {
      assert |CPU| != |MEMORY|;
    }
    assert ms[0] == Metric(names[0], TargetOf(a, names[0]));
    if |names| == 2 {
      assert ms[1] == Metric(MEMORY, TargetOf(a, MEMORY));
    }
  }

  /** The HPA scales the Deployment and the Ingress routes to the Service of the same WebApp. */
  lemma ObjectsReferToEachOther(key: NsName, spec: WebAppSpec)
    ensures BuildIngress(key, spec).Good? ==>
      && BuildIngress(key, spec).value.service == key.name && BuildIngress(key, spec).value.host == spec.domain
      && exists i :: 0 <= i < |BuildService(key, spec).ports| &&
          BuildService(key, spec).ports[i].name == BuildIngress(key, spec).value.portName
    ensures AutoscalingOn(spec) && BuildHpa(key, spec.autoscaling.value).Good? ==>
      BuildHpa(key, spec.autoscaling.value).value.target == key.name
  {
    BackendNamesOnePort(spec);
    if BuildIngress(key, spec).Good? {
      var i :| 0 <= i < |PortNames(spec)| && PortNames(spec)[i] == BackendPort(spec).value;
      assert BuildService(key, spec).ports[i].name == BackendPort(spec).value;
    }
  }

  /** Rolling-update parameters go only with the rolling-update type, which the API server
      insists on, and a token is mounted only on request. */
  lemma DeploymentIsCautious(pf: Platform, key: NsName, spec: WebAppSpec)
    ensures var d := BuildDeployment(pf, key, spec);
      && d.strategy.kind != ""
      && (d.strategy.rollingUpdate.Some? ==> d.strategy.kind == ROLLING_UPDATE)
      && (d.automountToken ==> spec.automountToken == Some(true))
  {
    assert |ROLLING_UPDATE| > 0;
  }
}
