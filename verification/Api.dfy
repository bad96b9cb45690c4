/** The specs of the custom resources WebApp and WebAppPolicy, and the schema rules that
    other modules rely on. Quantities are exact integers; int32 fields are integers
    that are only compared, never computed with. */
module Api {
  import opened Base

  const FINALIZER := "webapps.example.com/finalizer"
  const TCP := "TCP"
  const UDP := "UDP"
  const CLUSTER_IP := "ClusterIP"
  const ROLLING_UPDATE := "RollingUpdate"
  const RECREATE := "Recreate"
  const CPU := "cpu"
  const MEMORY := "memory"
  const MEDIUM_MEMORY := "Memory"

  type Uid = nat

  datatype NsName = NsName(ns: string, name: string)

  type Labels = map<string, string>

  type ResourceList = map<string, int>

  /* spec */

  datatype Port = Port(name: string, number: int, protocol: string)

  datatype ScratchVolume = ScratchVolume(name: string, mountPath: string, medium: string, sizeLimit: Option<int>)

  datatype Container = Container(
    name: string, image: string, ports: seq<Port>, scratch: seq<ScratchVolume>,
    requests: ResourceList, limits: ResourceList,
    rest: Opaque)   // env, envFrom, command, args, probes, securityContext

  datatype Autoscaling = Autoscaling(
    enabled: bool, minReplicas: Option<int>, maxReplicas: Option<int>,
    targetCpu: Option<int>, targetMemory: Option<int>, behavior: Opaque)

  datatype Strategy = Strategy(kind: string, rollingUpdate: Option<Opaque>)

  datatype WebAppSpec = WebAppSpec(
    containers: seq<Container>,
    domain: string, ingressClassName: Option<string>, ingressPortName: string,
    serviceType: string,
    replicas: Option<int>, autoscaling: Option<Autoscaling>, strategy: Option<Strategy>,
    serviceAccountName: string, automountToken: Option<bool>,
    podLabels: Labels, podAnnotations: Labels,
    rest: Opaque)   // imagePullSecrets, nodeSelector, tolerations, affinity, securityContext

  /* policy */

  datatype Enforcement = Enforce | Warn | Audit

  datatype ResourcePolicy = ResourcePolicy(
    minRequests: ResourceList, maxLimits: ResourceList, requireRequests: bool, requireLimits: bool)

  datatype LabelSelector = LabelSelector(raw: Opaque)

  datatype Policy = Policy(
    name: string, selector: Option<LabelSelector>, resources: Option<ResourcePolicy>,
    allowedServiceAccounts: seq<string>, forbiddenPrefixes: seq<string>,
    maxScratchSize: Option<int>, maxReplicas: Option<int>, enforcement: Enforcement)

  type Byte = x: int | 0 <= x < 256

  /** What the operator calls and the model cannot see: SHA-256 (the four bytes the
      operator keeps) and label selectors, as a parser and a matcher. */
  datatype Platform = Platform(
    sha: string -> (Byte, Byte, Byte, Byte),
    parses: LabelSelector -> bool,
    selects: (LabelSelector, Labels) -> bool)

  /* helpers of the API types */

  predicate AutoscalingOn(spec: WebAppSpec) {
    spec.autoscaling.Some? && spec.autoscaling.value.enabled
  }
}
