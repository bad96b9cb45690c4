/** internal/webhook: defaulting and validation of a WebApp spec. */
module Admission {
  import opened Base
  import opened Text
  import opened Api
  import opened Ports
  import opened Builders

  datatype FieldError =
    | ContainersRequired
    | NameRequired(i: nat) | NameDuplicate(i: nat) | NameInvalid(i: nat, problem: NameProblem)
    | ImageRequired(i: nat)
    | PortOutOfRange(i: nat, j: nat) | PortDuplicate(i: nat, j: nat)
    | PortNameInvalid(i: nat, j: nat, problem: NameProblem) | PortNameDuplicate(i: nat, j: nat)
    | MountPathDuplicate(i: nat, j: nat) | SizeLimitInvalid(i: nat, j: nat)
    | PortsRequired
    | MaxReplicasRequired | MaxReplicasTooSmall | RequestRequired(resource: string, i: nat)
    | PortNameCollision(name: string) | IngressPortUnknown
    | DomainInvalid(problem: NameProblem)
    | RollingUpdateForbidden

  /** The string key of the webhook's number map. */
  function StringKey(p: Port): string { Decimal(p.number) + "/" + Protocol(p) }

  /** The printed key separates ports exactly as the struct key of the builders does. */
  lemma StringKeyExact(p: Port, q: Port)
    ensures StringKey(p) == StringKey(q) <==> KeyOf(p) == KeyOf(q)
  {
    DecimalHasNoSlash(p.number);
    DecimalHasNoSlash(q.number);
    if StringKey(p) == StringKey(q) {
      SlashSplits(Decimal(p.number), Decimal(q.number), Protocol(p), Protocol(q));
      DecimalInjective(p.number, q.number);
    }
  }

  /** The ports walked before port j of container i. */
  function Earlier(cs: seq<Container>, i: nat, j: nat): seq<Port>
    requires i < |cs| && j <= |cs[i].ports|
  {
    Declared(cs[..i]) + cs[i].ports[..j]
  }

  function StringKeys(ps: seq<Port>): set<string> { set p | p in ps :: StringKey(p) }

  function ExplicitNames(ps: seq<Port>): set<string> { set p | p in ps && p.name != "" :: p.name }

  /* The error list, in the order of the walk. */

  function NameErrors(cs: seq<Container>, i: nat): seq<FieldError>
    requires i < |cs|
  {
    var name := cs[i].name;
    if name == "" then [NameRequired(i)]
    else if exists k :: 0 <= k < i && cs[k].name == name then [NameDuplicate(i)]
    else seq(|LabelProblems(name)|, k requires 0 <= k < |LabelProblems(name)| => NameInvalid(i, LabelProblems(name)[k]))
  }

  function PortNameErrors(cs: seq<Container>, i: nat, j: nat): seq<FieldError>
    requires i < |cs| && j < |cs[i].ports|
  {
    var name := cs[i].ports[j].name;
    var problems := PortNameProblems(name);
    if name == "" then []
    else
      seq(|problems|, k requires 0 <= k < |problems| => PortNameInvalid(i, j, problems[k])) +
      if name in ExplicitNames(Earlier(cs, i, j)) then [PortNameDuplicate(i, j)] else []
  }

  function PortErrors(cs: seq<Container>, i: nat, j: nat): seq<FieldError>
    requires i < |cs| && j < |cs[i].ports|
  {
    var p := cs[i].ports[j];
    (if p.number < 1 || p.number > 65535 then [PortOutOfRange(i, j)] else []) +
    (if StringKey(p) in StringKeys(Earlier(cs, i, j)) then [PortDuplicate(i, j)] else []) +
    PortNameErrors(cs, i, j)
  }

  function PortsErrors(cs: seq<Container>, i: nat, n: nat): seq<FieldError>
    requires i < |cs| && n <= |cs[i].ports|
  {
    if n == 0 then [] else PortsErrors(cs, i, n - 1) + PortErrors(cs, i, n - 1)
  }

  function ScratchErrors(c: Container, i: nat, j: nat): seq<FieldError>
    requires j < |c.scratch|
  {
    var v := c.scratch[j];
    (if exists k :: 0 <= k < j && c.scratch[k].mountPath == v.mountPath then [MountPathDuplicate(i, j)] else []) +
    (if v.sizeLimit.Some? && v.sizeLimit.value <= 0 then [SizeLimitInvalid(i, j)] else [])
  }

  function ScratchesErrors(c: Container, i: nat, n: nat): seq<FieldError>
    requires n <= |c.scratch|
  {
    if n == 0 then [] else ScratchesErrors(c, i, n - 1) + ScratchErrors(c, i, n - 1)
  }

  function ContainerErrors(cs: seq<Container>, i: nat): seq<FieldError>
    requires i < |cs|
  {
    NameErrors(cs, i) +
    (if cs[i].image == "" then [ImageRequired(i)] else []) +
    PortsErrors(cs, i, |cs[i].ports|) +
    ScratchesErrors(cs[i], i, |cs[i].scratch|)
  }

  function ContainersErrors(cs: seq<Container>, n: nat): seq<FieldError>
    requires n <= |cs|
  {
    if n == 0 then [] else ContainersErrors(cs, n - 1) + ContainerErrors(cs, n - 1)
  }

  function MissingRequests(cs: seq<Container>, name: string, n: nat): seq<FieldError>
    requires n <= |cs|
  {
    if n == 0 then []
    else MissingRequests(cs, name, n - 1) + if name in cs[n - 1].requests then [] else [RequestRequired(name, n - 1)]
  }

  function MissingUtilizationRequests(cs: seq<Container>, names: seq<string>): seq<FieldError> {
    if names == [] then []
    else MissingUtilizationRequests(cs, names[..|names| - 1]) + MissingRequests(cs, names[|names| - 1], |cs|)
  }

  function AutoscalingErrors(spec: WebAppSpec): seq<FieldError> {
    if !AutoscalingOn(spec) then []
    else
      var a := spec.autoscaling.value;
      (if a.maxReplicas.None? then [MaxReplicasRequired]
       else if a.maxReplicas.value < a.minReplicas.GetOr(1) then [MaxReplicasTooSmall] else []) +
      MissingUtilizationRequests(spec.containers, TargetedResources(a))
  }

  function CollisionErrors(names: seq<string>): seq<FieldError> {
    if names == [] then []
    else
      var (init, last) := (names[..|names| - 1], names[|names| - 1]);
      CollisionErrors(init) + if last in init then [PortNameCollision(last)] else []
  }

  function DomainErrors(domain: string): seq<FieldError> {
    var problems := SubdomainProblems(domain);
    if domain == "" then [] else seq(|problems|, k requires 0 <= k < |problems| => DomainInvalid(problems[k]))
  }

  predicate RollingUpdateMisplaced(spec: WebAppSpec) {
    spec.strategy.Some? && spec.strategy.value.kind == RECREATE && spec.strategy.value.rollingUpdate.Some?
  }

  function SpecErrors(spec: WebAppSpec): seq<FieldError> {
    (if spec.containers == [] then [ContainersRequired] else []) +
    ContainersErrors(spec.containers, |spec.containers|) +
    (if spec.containers != [] && Declared(spec.containers) == [] then [PortsRequired] else []) +
    AutoscalingErrors(spec) +
    CollisionErrors(PortNames(spec)) +
    (if spec.ingressPortName != "" && spec.ingressPortName !in PortNames(spec) then [IngressPortUnknown] else []) +
    DomainErrors(spec.domain) +
    (if RollingUpdateMisplaced(spec) then [RollingUpdateForbidden] else [])
  }

  /* The walk itself. */

  lemma EarlierGrows(cs: seq<Container>, i: nat, j: nat)
    requires i < |cs| && j < |cs[i].ports|
    ensures StringKeys(Earlier(cs, i, j + 1)) == StringKeys(Earlier(cs, i, j)) + {StringKey(cs[i].ports[j])}
    ensures ExplicitNames(Earlier(cs, i, j + 1)) ==
      ExplicitNames(Earlier(cs, i, j)) + if cs[i].ports[j].name == "" then {} else {cs[i].ports[j].name}
  {
    var p, before, after := cs[i].ports[j], Earlier(cs, i, j), Earlier(cs, i, j + 1);
    assert after == before + [p];
    assert forall q :: q in after <==> q in before || q == p;
  }

  lemma EarlierEnds(cs: seq<Container>, i: nat)
    requires i < |cs|
    ensures Earlier(cs, i, 0) == Declared(cs[..i]) && Earlier(cs, i, |cs[i].ports|) == Declared(cs[..i + 1])
  {
    DeclaredSnoc(cs, i);
    assert cs[i].ports[..|cs[i].ports|] == cs[i].ports;
  }

  method CheckPort(cs: seq<Container>, i: nat, j: nat,
        numberOwners: map<string, string>, portOwners: map<string, string>)
    returns (errs: seq<FieldError>)
    requires i < |cs| && j < |cs[i].ports|
    requires numberOwners.Keys == StringKeys(Earlier(cs, i, j)) && portOwners.Keys == ExplicitNames(Earlier(cs, i, j))
    ensures errs == PortErrors(cs, i, j)
  {
    var port := cs[i].ports[j];
    errs := if port.number < 1 || port.number > 65535 then [PortOutOfRange(i, j)] else [];
    errs := errs + if StringKey(port) in numberOwners then [PortDuplicate(i, j)] else [];
    var found := [];
    if port.name != "" {
      var problems := PortNameProblems(port.name);
      found := seq(|problems|, k requires 0 <= k < |problems| => PortNameInvalid(i, j, problems[k])) +
      if port.name in portOwners then [PortNameDuplicate(i, j)] else [];
    }
    errs := errs + found;
  }

  method CheckPorts(cs: seq<Container>, i: nat, numbers: map<string, string>, names: map<string, string>)
    returns (errs: seq<FieldError>, numberOwners: map<string, string>, portOwners: map<string, string>)
    requires i < |cs|
    requires numbers.Keys == StringKeys(Declared(cs[..i])) && names.Keys == ExplicitNames(Declared(cs[..i]))
    ensures errs == PortsErrors(cs, i, |cs[i].ports|)
    ensures numberOwners.Keys == StringKeys(Declared(cs[..i + 1])) &&
        portOwners.Keys == ExplicitNames(Declared(cs[..i + 1]))
  {
    hide PortErrors, StringKeys, ExplicitNames, Declared, Earlier;
    var c := cs[i];
    errs, numberOwners, portOwners := [], numbers, names;
    EarlierEnds(cs, i);
    for j := 0 to |c.ports|
      invariant errs == PortsErrors(cs, i, j)
      invariant numberOwners.Keys == StringKeys(Earlier(cs, i, j))
      invariant portOwners.Keys == ExplicitNames(Earlier(cs, i, j))
    {
      var port := c.ports[j];
      var found := CheckPort(cs, i, j, numberOwners, portOwners);
      errs := errs + found;
      EarlierGrows(cs, i, j);
      numberOwners := numberOwners[StringKey(port) := c.name];
      if port.name == "" {
        continue;
      }
      portOwners := portOwners[port.name := c.name];
    }
  }

  method CheckScratchVolume(c: Container, i: nat, j: nat, mountPaths: map<string, bool>) returns (errs: seq<FieldError>)
    requires j < |c.scratch| && mountPaths.Keys == set k | 0 <= k < j :: c.scratch[k].mountPath
    ensures errs == ScratchErrors(c, i, j)
  {
    var v := c.scratch[j];
    errs := if v.mountPath in mountPaths then [MountPathDuplicate(i, j)] else [];
    errs := errs + if v.sizeLimit.Some? && v.sizeLimit.value <= 0 then [SizeLimitInvalid(i, j)] else [];
  }

  method CheckScratchVolumes(c: Container, i: nat) returns (errs: seq<FieldError>)
    ensures errs == ScratchesErrors(c, i, |c.scratch|)
  {
    hide ScratchErrors;
    errs := [];
    var mountPaths: map<string, bool> := map[];
    for j := 0 to |c.scratch|
      invariant errs == ScratchesErrors(c, i, j)
      invariant mountPaths.Keys == set k | 0 <= k < j :: c.scratch[k].mountPath
    {
      var v := c.scratch[j];
      var found := CheckScratchVolume(c, i, j, mountPaths);
      mountPaths := mountPaths[v.mountPath := true];
      errs := errs + found;
    }
  }

  method CheckName(cs: seq<Container>, i: nat, containerNames: map<string, bool>) returns (errs: seq<FieldError>)
    requires i < |cs| && containerNames.Keys == set k | 0 <= k < i :: cs[k].name
    ensures errs == NameErrors(cs, i)
  {
    var name := cs[i].name;
    if name == "" {
      errs := [NameRequired(i)];
    } else if name in containerNames {
      errs := [NameDuplicate(i)];
    } else {
      var problems := LabelProblems(name);
      errs := seq(|problems|, k requires 0 <= k < |problems| => NameInvalid(i, problems[k]));
    }
  }

  lemma WalkStart(cs: seq<Container>)
    ensures StringKeys(Declared(cs[..0])) == {} && ExplicitNames(Declared(cs[..0])) == {}
  {
  }

  method CheckContainers(cs: seq<Container>) returns (errs: seq<FieldError>)
    ensures errs == ContainersErrors(cs, |cs|)
  {
    hide NameErrors, PortsErrors, ScratchesErrors, StringKeys, ExplicitNames, Declared;
    WalkStart(cs);
    errs := [];
    var containerNames: map<string, bool> := map[];
    var portOwners: map<string, string>, numberOwners: map<string, string> := map[], map[];
    for i := 0 to |cs|
      invariant errs == ContainersErrors(cs, i)
      invariant containerNames.Keys == set k | 0 <= k < i :: cs[k].name
      invariant numberOwners.Keys == StringKeys(Declared(cs[..i]))
      invariant portOwners.Keys == ExplicitNames(Declared(cs[..i]))
    {
      var c := cs[i];
      var found := CheckName(cs, i, containerNames);
      containerNames := containerNames[c.name := true];
      found := found + if c.image == "" then [ImageRequired(i)] else [];
      var more;
      more, numberOwners, portOwners := CheckPorts(cs, i, numberOwners, portOwners);
      found := found + more;
      more := CheckScratchVolumes(c, i);
      found := found + more;
      assert found == ContainerErrors(cs, i);
      errs := errs + found;
    }
  }

  method TotalPorts(cs: seq<Container>) returns (n: nat)
    ensures n == |Declared(cs)|
  {
    n := 0;
    for i := 0 to |cs|
      invariant n == |Declared(cs[..i])|
    {
      n := n + |cs[i].ports|;
      DeclaredSnoc(cs, i);
    }
    assert cs[..|cs|] == cs;
  }

  method FindMissingRequests(cs: seq<Container>, a: Autoscaling) returns (errs: seq<FieldError>)
    ensures errs == MissingUtilizationRequests(cs, TargetedResources(a))
  {
    var names := CollectTargetedResources(a);
    errs := [];
    for m := 0 to |names|
      invariant errs == MissingUtilizationRequests(cs, names[..m])
    {
      ghost var before := errs;
      for i := 0 to |cs|
        invariant errs == before + MissingRequests(cs, names[m], i)
      {
        if names[m] in cs[i].requests {
          continue;
        }
        errs := errs + [RequestRequired(names[m], i)];
      }
      assert names[..m + 1][..m] == names[..m];
    }
    assert names[..|names|] == names;
  }

  lemma CollisionErrorsSnoc(names: seq<string>, k: nat)
    requires k < |names|
    ensures CollisionErrors(names[..k + 1]) ==
      CollisionErrors(names[..k]) + if names[k] in names[..k] then [PortNameCollision(names[k])] else []
    ensures Elements(names[..k + 1]) == Elements(names[..k]) + {names[k]}
  {
    var longer := names[..k + 1];
    assert longer == names[..k] + [names[k]] && longer[..k] == names[..k];
    assert forall x :: x in longer <==> x in names[..k] || x == names[k];
  }

  method CheckCollisions(spec: WebAppSpec) returns (errs: seq<FieldError>)
    ensures errs == CollisionErrors(PortNames(spec))
  {
    hide PortNames;
    var names := CollectPortNames(spec);
    assert CollisionErrors(names[..0]) == [] && Elements(names[..0]) == {};
    assert names[..|names|] == names;
    hide CollisionErrors;
    errs := [];
    var seen: map<string, bool> := map[];
    for k := 0 to |names|
      invariant errs == CollisionErrors(names[..k]) && seen.Keys == Elements(names[..k])
    {
      CollisionErrorsSnoc(names, k);
      assert names[k] in seen <==> names[k] in names[..k];
      errs := errs + if names[k] in seen then [PortNameCollision(names[k])] else [];
      seen := seen[names[k] := true];
    }
  }

  method CheckAutoscaling(spec: WebAppSpec) returns (errs: seq<FieldError>)
    ensures errs == AutoscalingErrors(spec)
  {
    errs := [];
    if spec.autoscaling.Some? && spec.autoscaling.value.enabled {
      var a := spec.autoscaling.value;
      if a.maxReplicas.None? {
        errs := [MaxReplicasRequired];
      } else {
        var minReplicas := 1;
        if a.minReplicas.Some? {
          minReplicas := a.minReplicas.value;
        }
        if a.maxReplicas.value < minReplicas {
          errs := [MaxReplicasTooSmall];
        }
      }
      var missing := FindMissingRequests(spec.containers, a);
      errs := errs + missing;
    }
  }

  method ValidateSpec(spec: WebAppSpec) returns (errs: seq<FieldError>)
    ensures errs == SpecErrors(spec)
  {
    errs := if |spec.containers| == 0 then [ContainersRequired] else [];
    var found := CheckContainers(spec.containers);
    errs := errs + found;
    var total := TotalPorts(spec.containers);
    errs := errs + if |spec.containers| > 0 && total == 0 then [PortsRequired] else [];
    found := CheckAutoscaling(spec);
    errs := errs + found;
    found := CheckCollisions(spec);
    errs := errs + found;
    var names := CollectPortNames(spec);
    errs := errs + if spec.ingressPortName != "" && spec.ingressPortName !in names then [IngressPortUnknown] else [];
    found := DomainErrors(spec.domain);
    errs := errs + found;
    errs := errs + if RollingUpdateMisplaced(spec) then [RollingUpdateForbidden] else [];
  }
}
