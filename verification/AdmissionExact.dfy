/** What the validation walk decides, without its maps and its order. */
module AdmissionExact {
  import opened Base
  import opened Text
  import opened Api
  import opened Ports
  import opened Builders
  import opened Admission

  predicate Before(k: int, l: int, i: int, j: int) { k < i || (k == i && l < j) }

  /** The declared port at (i, j) repeats the number and protocol of one declared before it. */
  ghost predicate NumberTaken(cs: seq<Container>, i: nat, j: nat)
    requires HasPort(cs, i, j)
  {
    exists k, l :: HasPort(cs, k, l) && Before(k, l, i, j) && KeyOf(cs[k].ports[l]) == KeyOf(cs[i].ports[j])
  }

  ghost predicate NameTaken(cs: seq<Container>, i: nat, j: nat)
    requires HasPort(cs, i, j)
  {
    exists k, l :: HasPort(cs, k, l) && Before(k, l, i, j) && cs[k].ports[l].name == cs[i].ports[j].name
  }

  ghost predicate Twice(names: seq<string>, x: string) {
    exists a, b :: 0 <= a < b < |names| && names[a] == x && names[b] == x
  }

  /** Each error, as a fact about the spec alone. */
  ghost predicate Fault(spec: WebAppSpec, e: FieldError) {
    var cs := spec.containers;
    match e
    case ContainersRequired => cs == []
    case NameRequired(i) => i < |cs| && cs[i].name == ""
    case NameDuplicate(i) => i < |cs| && cs[i].name != "" && exists k :: 0 <= k < i && cs[k].name == cs[i].name
    case NameInvalid(i, problem) =>
      i < |cs| && cs[i].name != "" && (forall k :: 0 <= k < i ==> cs[k].name != cs[i].name) &&
          problem in LabelProblems(cs[i].name)
    case ImageRequired(i) => i < |cs| && cs[i].image == ""
    case PortOutOfRange(i, j) => HasPort(cs, i, j) && !(1 <= cs[i].ports[j].number <= 65535)
    case PortDuplicate(i, j) => HasPort(cs, i, j) && NumberTaken(cs, i, j)
    case PortNameInvalid(i, j, problem) =>
      HasPort(cs, i, j) && cs[i].ports[j].name != "" && problem in PortNameProblems(cs[i].ports[j].name)
    case PortNameDuplicate(i, j) => HasPort(cs, i, j) && cs[i].ports[j].name != "" && NameTaken(cs, i, j)
    case MountPathDuplicate(i, j) =>
      i < |cs| && j < |cs[i].scratch| &&
      exists k :: 0 <= k < j && cs[i].scratch[k].mountPath == cs[i].scratch[j].mountPath
    case SizeLimitInvalid(i, j) =>
      i < |cs| && j < |cs[i].scratch| && cs[i].scratch[j].sizeLimit.Some? && cs[i].scratch[j].sizeLimit.value <= 0
    case PortsRequired => cs != [] && forall i :: 0 <= i < |cs| ==> cs[i].ports == []
    case MaxReplicasRequired => AutoscalingOn(spec) && spec.autoscaling.value.maxReplicas.None?
    case MaxReplicasTooSmall =>
      AutoscalingOn(spec) && spec.autoscaling.value.maxReplicas.Some? &&
      spec.autoscaling.value.maxReplicas.value < spec.autoscaling.value.minReplicas.GetOr(1)
    case RequestRequired(resource, i) =>
      AutoscalingOn(spec) && i < |cs| && resource in TargetedResources(spec.autoscaling.value) &&
          resource !in cs[i].requests
    case PortNameCollision(name) => Twice(PortNames(spec), name)
    case IngressPortUnknown => spec.ingressPortName != "" && spec.ingressPortName !in PortNames(spec)
    case DomainInvalid(problem) => spec.domain != "" && problem in SubdomainProblems(spec.domain)
    case RollingUpdateForbidden =>
      spec.strategy.Some? && spec.strategy.value.kind == "Recreate" && spec.strategy.value.rollingUpdate.Some?
  }

  lemma EarlierExact(cs: seq<Container>, i: nat, j: nat, p: Port)
    requires HasPort(cs, i, j)
    ensures p in Earlier(cs, i, j) <==>
      exists k, l :: HasPort(cs, k, l) && Before(k, l, i, j) && cs[k].ports[l] == p
  {
    if p in Declared(cs[..i]) {
      var k, l := DeclaredHolds(cs[..i], p);
      assert HasPort(cs, k, l) && cs[k].ports[l] == p;
    }
    if p in cs[i].ports[..j] {
      var l :| 0 <= l < j && cs[i].ports[l] == p;
      assert HasPort(cs, i, l) && Before(i, l, i, j);
    }
    if k, l :| HasPort(cs, k, l) && Before(k, l, i, j) && cs[k].ports[l] == p {
      if k < i {
        DeclaredCovers(cs[..i], k, l);
      } else {
        assert cs[i].ports[..j][l] == p;
      }
    }
  }

  lemma NumberTakenExact(cs: seq<Container>, i: nat, j: nat)
    requires HasPort(cs, i, j)
    ensures StringKey(cs[i].ports[j]) in StringKeys(Earlier(cs, i, j)) <==> NumberTaken(cs, i, j)
  {
    var p := cs[i].ports[j];
    if StringKey(p) in StringKeys(Earlier(cs, i, j)) {
      var q :| q in Earlier(cs, i, j) && StringKey(q) == StringKey(p);
      EarlierExact(cs, i, j, q);
      StringKeyExact(p, q);
    }
    if NumberTaken(cs, i, j) {
      var k, l :| HasPort(cs, k, l) && Before(k, l, i, j) && KeyOf(cs[k].ports[l]) == KeyOf(p);
      EarlierExact(cs, i, j, cs[k].ports[l]);
      StringKeyExact(p, cs[k].ports[l]);
    }
  }

  lemma NameTakenExact(cs: seq<Container>, i: nat, j: nat)
    requires HasPort(cs, i, j) && cs[i].ports[j].name != ""
    ensures cs[i].ports[j].name in ExplicitNames(Earlier(cs, i, j)) <==> NameTaken(cs, i, j)
  {
    var name := cs[i].ports[j].name;
    if name in ExplicitNames(Earlier(cs, i, j)) {
      var q :| q in Earlier(cs, i, j) && q.name == name;
      EarlierExact(cs, i, j, q);
    }
    if NameTaken(cs, i, j) {
      var k, l :| HasPort(cs, k, l) && Before(k, l, i, j) && cs[k].ports[l].name == name;
      EarlierExact(cs, i, j, cs[k].ports[l]);
    }
  }

  predicate AboutPort(e: FieldError) {
    e.PortOutOfRange? || e.PortDuplicate? || e.PortNameInvalid? || e.PortNameDuplicate?
  }

  predicate AboutScratch(e: FieldError) { e.MountPathDuplicate? || e.SizeLimitInvalid? }

  predicate AboutContainer(e: FieldError) {
    e.NameRequired? || e.NameDuplicate? || e.NameInvalid? || e.ImageRequired? || AboutPort(e) || AboutScratch(e)
  }

  lemma PortErrorsExact(spec: WebAppSpec, i: nat, j: nat, e: FieldError)
    requires HasPort(spec.containers, i, j)
    ensures e in PortErrors(spec.containers, i, j) <==> AboutPort(e) && e.i == i && e.j == j && Fault(spec, e)
  {
    hide PortNames, LabelProblems, PortNameProblems, NumberTaken, NameTaken, TargetedResources, SubdomainProblems,
      StringKeys, ExplicitNames, Earlier, StringKey;
    var cs := spec.containers;
    var name := cs[i].ports[j].name;
    NumberTakenExact(cs, i, j);
    if name != "" {
      NameTakenExact(cs, i, j);
      var problems := PortNameProblems(name);
      var listed := seq(|problems|, k requires 0 <= k < |problems| => PortNameInvalid(i, j, problems[k]));
      assert forall k :: 0 <= k < |problems| ==> listed[k] == PortNameInvalid(i, j, problems[k]);
      assert e in listed <==> e.PortNameInvalid? && e.i == i && e.j == j && e.problem in problems;
      assert e in PortNameErrors(cs, i, j) <==> e in listed || (e == PortNameDuplicate(i, j) && NameTaken(cs, i, j));
    }
  }

  lemma {:induction false} PortsErrorsExact(spec: WebAppSpec, i: nat, n: nat, e: FieldError)
    requires i < |spec.containers| && n <= |spec.containers[i].ports|
    ensures e in PortsErrors(spec.containers, i, n) <==> AboutPort(e) && e.i == i && e.j < n && Fault(spec, e)
  {
    hide Fault, PortErrors;
    if n > 0 {
      PortsErrorsExact(spec, i, n - 1, e);
      PortErrorsExact(spec, i, n - 1, e);
    }
  }

  lemma ScratchErrorsExact(spec: WebAppSpec, i: nat, j: nat, e: FieldError)
    requires i < |spec.containers| && j < |spec.containers[i].scratch|
    ensures e in ScratchErrors(spec.containers[i], i, j) <==> AboutScratch(e) && e.i == i && e.j == j && Fault(spec, e)
  {
    hide PortNames, LabelProblems, PortNameProblems, SubdomainProblems, NumberTaken, NameTaken, TargetedResources;
  }

  lemma {:induction false} ScratchesErrorsExact(spec: WebAppSpec, i: nat, n: nat, e: FieldError)
    requires i < |spec.containers| && n <= |spec.containers[i].scratch|
    ensures e in ScratchesErrors(spec.containers[i], i, n) <==> AboutScratch(e) && e.i == i && e.j < n && Fault(spec, e)
  {
    hide Fault, ScratchErrors;
    if n > 0 {
      ScratchesErrorsExact(spec, i, n - 1, e);
      ScratchErrorsExact(spec, i, n - 1, e);
    }
  }

  /** Faults point at places that exist. */
  lemma FaultInRange(spec: WebAppSpec, e: FieldError)
    requires AboutContainer(e) && Fault(spec, e)
    ensures e.i < |spec.containers|
    ensures AboutPort(e) ==> e.j < |spec.containers[e.i].ports|
    ensures AboutScratch(e) ==> e.j < |spec.containers[e.i].scratch|
  {
  }

  lemma ImageErrorExact(spec: WebAppSpec, i: nat, e: FieldError)
    requires i < |spec.containers|
    ensures e.ImageRequired? && e.i == i ==> (Fault(spec, e) <==> spec.containers[i].image == "")
  {
  }

  lemma NameErrorsExact(spec: WebAppSpec, i: nat, e: FieldError)
    requires i < |spec.containers|
    ensures e in NameErrors(spec.containers, i) <==>
      (e.NameRequired? || e.NameDuplicate? || e.NameInvalid?) && e.i == i && Fault(spec, e)
  {
    hide LabelProblems;
    var cs := spec.containers;
    var name := cs[i].name;
    var problems := LabelProblems(name);
    var listed := seq(|problems|, k requires 0 <= k < |problems| => NameInvalid(i, problems[k]));
    assert forall k :: 0 <= k < |problems| ==> listed[k] == NameInvalid(i, problems[k]);
    assert e in listed <==> e.NameInvalid? && e.i == i && e.problem in problems;
    if name == "" {
      assert NameErrors(cs, i) == [NameRequired(i)];
    } else if exists k :: 0 <= k < i && cs[k].name == name {
      assert NameErrors(cs, i) == [NameDuplicate(i)];
    } else {
      assert NameErrors(cs, i) == listed;
    }
  }

  lemma ContainerErrorsExact(spec: WebAppSpec, i: nat, e: FieldError)
    requires i < |spec.containers|
    ensures e in ContainerErrors(spec.containers, i) <==> AboutContainer(e) && e.i == i && Fault(spec, e)
  {
    hide Fault, NameErrors, PortsErrors, ScratchesErrors;
    var c := spec.containers[i];
    NameErrorsExact(spec, i, e);
    ImageErrorExact(spec, i, e);
    PortsErrorsExact(spec, i, |c.ports|, e);
    ScratchesErrorsExact(spec, i, |c.scratch|, e);
    if AboutContainer(e) && Fault(spec, e) {
      FaultInRange(spec, e);
    }
  }

  lemma {:induction false} ContainersErrorsExact(spec: WebAppSpec, n: nat, e: FieldError)
    requires n <= |spec.containers|
    ensures e in ContainersErrors(spec.containers, n) <==> AboutContainer(e) && e.i < n && Fault(spec, e)
  {
    hide Fault, ContainerErrors;
    if n > 0 {
      ContainersErrorsExact(spec, n - 1, e);
      ContainerErrorsExact(spec, n - 1, e);
    }
  }

  lemma {:induction false} MissingRequestsExact(cs: seq<Container>, name: string, n: nat, e: FieldError)
    requires n <= |cs|
    ensures e in MissingRequests(cs, name, n) <==>
      e.RequestRequired? && e.resource == name && e.i < n && name !in cs[e.i].requests
  {
    if n > 0 {
      MissingRequestsExact(cs, name, n - 1, e);
    }
  }

  lemma {:induction false} MissingUtilizationExact(cs: seq<Container>, names: seq<string>, e: FieldError)
    ensures e in MissingUtilizationRequests(cs, names) <==>
      e.RequestRequired? && e.resource in names && e.i < |cs| && e.resource !in cs[e.i].requests
  {
    if names != [] {
      var init, last := names[..|names| - 1], names[|names| - 1];
      MissingUtilizationExact(cs, init, e);
      MissingRequestsExact(cs, last, |cs|, e);
      assert names == init + [last];
    }
  }

  lemma TwiceSnoc(init: seq<string>, last: string, x: string)
    ensures Twice(init + [last], x) <==> Twice(init, x) || (x == last && last in init)
  {
    var names := init + [last];
    if a, b :| 0 <= a < b < |names| && names[a] == x && names[b] == x {
      assert init[a] == x;
      assert b < |init| ==> init[b] == x;
    }
    if a, b :| 0 <= a < b < |init| && init[a] == x && init[b] == x {
      assert names[a] == x && names[b] == x;
    }
    if last in init {
      var a :| 0 <= a < |init| && init[a] == last;
      assert names[a] == last && names[|init|] == last;
    }
  }

  lemma {:induction false} CollisionErrorsExact(names: seq<string>, e: FieldError)
    ensures e in CollisionErrors(names) <==> e.PortNameCollision? && Twice(names, e.name)
  {
    if names != [] {
      var init, last := names[..|names| - 1], names[|names| - 1];
      assert names == init + [last];
      hide Twice;
      CollisionErrorsExact(init, e);
      if e.PortNameCollision? {
        TwiceSnoc(init, last, e.name);
      }
    }
  }

  lemma DomainErrorsExact(domain: string, e: FieldError)
    ensures e in DomainErrors(domain) <==> domain != "" && e.DomainInvalid? && e.problem in SubdomainProblems(domain)
  {
    var problems := SubdomainProblems(domain);
    assert forall k :: 0 <= k < |problems| ==> domain != "" ==> DomainErrors(domain)[k] == DomainInvalid(problems[k]);
  }

  lemma AutoscalingErrorsExact(spec: WebAppSpec, e: FieldError)
    ensures e in AutoscalingErrors(spec) <==>
      (e.MaxReplicasRequired? || e.MaxReplicasTooSmall? || e.RequestRequired?) && Fault(spec, e)
  {
    if AutoscalingOn(spec) {
      MissingUtilizationExact(spec.containers, TargetedResources(spec.autoscaling.value), e);
    }
  }

  /** The errors that no helper collects. */
  lemma LooseErrorsExact(spec: WebAppSpec, e: FieldError)
    ensures e == ContainersRequired ==> (Fault(spec, e) <==> spec.containers == [])
    ensures e == PortsRequired ==> (Fault(spec, e) <==> spec.containers != [] && Declared(spec.containers) == [])
    ensures e == IngressPortUnknown ==>
        (Fault(spec, e) <==> spec.ingressPortName != "" && spec.ingressPortName !in PortNames(spec))
    ensures e == RollingUpdateForbidden ==> (Fault(spec, e) <==> RollingUpdateMisplaced(spec))
  {
    hide PortNames, LabelProblems, PortNameProblems, SubdomainProblems, NumberTaken, NameTaken, TargetedResources,
        AutoscalingOn, Declared;
    DeclaredEmpty(spec.containers);
  }

  lemma ListedErrorsExact(spec: WebAppSpec, e: FieldError)
    ensures e in CollisionErrors(PortNames(spec)) <==> e.PortNameCollision? && Fault(spec, e)
    ensures e in DomainErrors(spec.domain) <==> e.DomainInvalid? && Fault(spec, e)
  {
    hide PortNames, LabelProblems, PortNameProblems, SubdomainProblems, NumberTaken, NameTaken, TargetedResources,
      CollisionErrors, DomainErrors;
    CollisionErrorsExact(PortNames(spec), e);
    DomainErrorsExact(spec.domain, e);
  }

  /** The walk reports an error exactly when the spec has that fault. */
  lemma ErrorsExact(spec: WebAppSpec, e: FieldError)
    ensures e in SpecErrors(spec) <==> Fault(spec, e)
  {
    hide Fault, ContainersErrors, CollisionErrors, DomainErrors, AutoscalingErrors, PortNames, RollingUpdateMisplaced;
    ContainersErrorsExact(spec, |spec.containers|, e);
    AutoscalingErrorsExact(spec, e);
    LooseErrorsExact(spec, e);
    ListedErrorsExact(spec, e);
    if AboutContainer(e) && Fault(spec, e) {
      FaultInRange(spec, e);
    }
  }

  /* The accepted specs. */

  ghost predicate DistinctPorts(cs: seq<Container>) {
    forall i, j, k, l :: HasPort(cs, i, j) && HasPort(cs, k, l) && Before(k, l, i, j) ==>
      KeyOf(cs[k].ports[l]) != KeyOf(cs[i].ports[j])
  }

  ghost predicate SoundContainers(cs: seq<Container>) {
    && cs != []
    && (forall i :: 0 <= i < |cs| ==> DNS1123Label(cs[i].name) && cs[i].image != "")
    && (forall i, k :: 0 <= k < i < |cs| ==> cs[k].name != cs[i].name)
    && (forall i, k, j :: 0 <= i < |cs| && 0 <= k < j < |cs[i].scratch| ==>
        cs[i].scratch[k].mountPath != cs[i].scratch[j].mountPath)
    && (forall i, j :: 0 <= i < |cs| && 0 <= j < |cs[i].scratch| && cs[i].scratch[j].sizeLimit.Some? ==>
        cs[i].scratch[j].sizeLimit.value > 0)
  }

  ghost predicate SoundPorts(cs: seq<Container>) {
    && (forall i, j :: HasPort(cs, i, j) ==>
          1 <= cs[i].ports[j].number <= 65535 && (cs[i].ports[j].name == "" || ServiceName(cs[i].ports[j].name)))
    && DistinctPorts(cs)
    && (exists i, j :: HasPort(cs, i, j))
  }

  ghost predicate SoundAutoscaling(spec: WebAppSpec) {
    AutoscalingOn(spec) ==>
      var a := spec.autoscaling.value;
      && a.maxReplicas.Some? && a.minReplicas.GetOr(1) <= a.maxReplicas.value
      && forall i, r :: 0 <= i < |spec.containers| && r in TargetedResources(a) ==> r in spec.containers[i].requests
  }

  ghost predicate SoundNames(spec: WebAppSpec) {
    && Distinct(PortNames(spec))
    && (spec.ingressPortName == "" || spec.ingressPortName in PortNames(spec))
    && (spec.domain == "" || (|spec.domain| <= 253 && SubdomainShape(spec.domain)))
    && (spec.strategy.Some? && spec.strategy.value.kind == "Recreate" ==> spec.strategy.value.rollingUpdate.None?)
  }

  /** A spec the webhook lets through, in one reading. */
  ghost predicate Admissible(spec: WebAppSpec) {
    SoundContainers(spec.containers) && SoundPorts(spec.containers) && SoundAutoscaling(spec) && SoundNames(spec)
  }

  /** Position a of the flattening is port j of container i, after exactly the earlier ports. */
  lemma {:induction false} Locate(cs: seq<Container>, a: nat) returns (i: nat, j: nat)
    requires a < |Declared(cs)|
    ensures HasPort(cs, i, j) && Declared(cs)[a] == cs[i].ports[j] && Declared(cs)[..a] == Earlier(cs, i, j)
  {
    var n := |cs| - 1;
    var init := Declared(cs[..n]);
    if a < |init| {
      i, j := Locate(cs[..n], a);
      assert cs[..n][..i] == cs[..i];
    } else {
      i, j := n, a - |init|;
    }
  }

  lemma {:induction false} Offset(cs: seq<Container>, i: nat, j: nat) returns (a: nat)
    requires HasPort(cs, i, j)
    ensures a < |Declared(cs)| && Declared(cs)[a] == cs[i].ports[j] && Declared(cs)[..a] == Earlier(cs, i, j)
  {
    var n := |cs| - 1;
    if i < n {
      a := Offset(cs[..n], i, j);
      assert cs[..n][..i] == cs[..i];
    } else {
      a := |Declared(cs[..n])| + j;
    }
  }

  /** Distinct ports: pairwise over (container, port) is pairwise over the flattening. */
  lemma DistinctPortsFlat(spec: WebAppSpec)
    ensures DistinctPorts(spec.containers) <==> AllPorts(spec) == Declared(spec.containers)
  {
    var cs := spec.containers;
    var ps := Declared(cs);
    NothingDropped(spec);
    if DistinctPorts(cs) {
      forall a, b | 0 <= a < b < |ps| ensures KeyOf(ps[a]) != KeyOf(ps[b]) {
        var i, j := Locate(cs, b);
        assert ps[..b][a] == ps[a];
        EarlierExact(cs, i, j, ps[a]);
      }
    }
    if AllPorts(spec) == ps {
      forall i, j, k, l | HasPort(cs, i, j) && HasPort(cs, k, l) && Before(k, l, i, j)
        ensures KeyOf(cs[k].ports[l]) != KeyOf(cs[i].ports[j])
      {
        var b := Offset(cs, i, j);
        EarlierExact(cs, i, j, cs[k].ports[l]);
        var a :| 0 <= a < b && ps[..b][a] == cs[k].ports[l];
        assert KeyOf(ps[a]) != KeyOf(ps[b]);
      }
    }
  }

  lemma NoErrorsContainer(spec: WebAppSpec, i: nat)
    requires SpecErrors(spec) == [] && i < |spec.containers|
    ensures DNS1123Label(spec.containers[i].name) && spec.containers[i].image != ""
    ensures forall k :: 0 <= k < i ==> spec.containers[k].name != spec.containers[i].name
  {
    hide SpecErrors, LabelProblems, DNS1123Label;
    var name := spec.containers[i].name;
    ErrorsExact(spec, NameRequired(i));
    ErrorsExact(spec, NameDuplicate(i));
    ErrorsExact(spec, ImageRequired(i));
    LabelProblemsExact(name);
    if LabelProblems(name) != [] {
      ErrorsExact(spec, NameInvalid(i, LabelProblems(name)[0]));
    }
  }

  lemma NoErrorsScratch(spec: WebAppSpec, i: nat, j: nat)
    requires SpecErrors(spec) == [] && i < |spec.containers| && j < |spec.containers[i].scratch|
    ensures var volumes := spec.containers[i].scratch;
      forall k :: 0 <= k < j ==> volumes[k].mountPath != volumes[j].mountPath
    ensures spec.containers[i].scratch[j].sizeLimit.Some? ==> spec.containers[i].scratch[j].sizeLimit.value > 0
  {
    hide SpecErrors;
    ErrorsExact(spec, MountPathDuplicate(i, j));
    ErrorsExact(spec, SizeLimitInvalid(i, j));
  }

  lemma NoErrorsPort(spec: WebAppSpec, i: nat, j: nat)
    requires SpecErrors(spec) == [] && HasPort(spec.containers, i, j)
    ensures var p := spec.containers[i].ports[j]; 1 <= p.number <= 65535 && (p.name == "" || ServiceName(p.name))
    ensures !NumberTaken(spec.containers, i, j)
  {
    hide SpecErrors, PortNameProblems, ServiceName, NumberTaken;
    ErrorsExact(spec, PortOutOfRange(i, j));
    ErrorsExact(spec, PortDuplicate(i, j));
    var name := spec.containers[i].ports[j].name;
    PortNameProblemsExact(name);
    if name != "" && PortNameProblems(name) != [] {
      ErrorsExact(spec, PortNameInvalid(i, j, PortNameProblems(name)[0]));
    }
  }

  lemma NoErrorsPortSet(spec: WebAppSpec)
    requires SpecErrors(spec) == []
    ensures spec.containers != [] && exists i, j :: HasPort(spec.containers, i, j)
    ensures Distinct(PortNames(spec))
    ensures spec.ingressPortName == "" || spec.ingressPortName in PortNames(spec)
  {
    hide SpecErrors, PortNames;
    ErrorsExact(spec, ContainersRequired);
    ErrorsExact(spec, PortsRequired);
    ErrorsExact(spec, IngressPortUnknown);
    var i :| 0 <= i < |spec.containers| && spec.containers[i].ports != [];
    assert HasPort(spec.containers, i, 0);
    var names := PortNames(spec);
    forall a, b | 0 <= a < b < |names| ensures names[a] != names[b] {
      ErrorsExact(spec, PortNameCollision(names[a]));
    }
  }

  lemma NoErrorsRest(spec: WebAppSpec)
    requires SpecErrors(spec) == []
    ensures AutoscalingOn(spec) ==>
      var a := spec.autoscaling.value;
      && a.maxReplicas.Some? && a.minReplicas.GetOr(1) <= a.maxReplicas.value
      && forall i, r :: 0 <= i < |spec.containers| && r in TargetedResources(a) ==> r in spec.containers[i].requests
    ensures spec.domain == "" || (|spec.domain| <= 253 && SubdomainShape(spec.domain))
    ensures spec.strategy.Some? && spec.strategy.value.kind == "Recreate" ==> spec.strategy.value.rollingUpdate.None?
  {
    hide SpecErrors, SubdomainShape;
    ErrorsExact(spec, MaxReplicasRequired);
    ErrorsExact(spec, MaxReplicasTooSmall);
    ErrorsExact(spec, RollingUpdateForbidden);
    if AutoscalingOn(spec) {
      forall i, r | 0 <= i < |spec.containers| && r in TargetedResources(spec.autoscaling.value)
        ensures r in spec.containers[i].requests
      {
        ErrorsExact(spec, RequestRequired(r, i));
      }
    }
    if SubdomainProblems(spec.domain) != [] && spec.domain != "" {
      ErrorsExact(spec, DomainInvalid(SubdomainProblems(spec.domain)[0]));
    }
  }

  lemma NoErrorsAdmissible(spec: WebAppSpec)
    requires SpecErrors(spec) == []
    ensures Admissible(spec)
  {
    hide SpecErrors, DNS1123Label, ServiceName, SubdomainShape, PortNames, TargetedResources;
    var cs := spec.containers;
    NoErrorsPortSet(spec);
    NoErrorsRest(spec);
    forall i | 0 <= i < |cs|
      ensures DNS1123Label(cs[i].name) && cs[i].image != "" && forall k :: 0 <= k < i ==> cs[k].name != cs[i].name
    {
      NoErrorsContainer(spec, i);
    }
    forall i, j | 0 <= i < |cs| && 0 <= j < |cs[i].scratch|
      ensures forall k :: 0 <= k < j ==> cs[i].scratch[k].mountPath != cs[i].scratch[j].mountPath
      ensures cs[i].scratch[j].sizeLimit.Some? ==> cs[i].scratch[j].sizeLimit.value > 0
    {
      NoErrorsScratch(spec, i, j);
    }
    forall i, j | HasPort(cs, i, j)
      ensures 1 <= cs[i].ports[j].number <= 65535 && (cs[i].ports[j].name == "" || ServiceName(cs[i].ports[j].name))
      ensures forall k, l :: HasPort(cs, k, l) && Before(k, l, i, j) ==> KeyOf(cs[k].ports[l]) != KeyOf(cs[i].ports[j])
    {
      NoErrorsPort(spec, i, j);
    }
  }

  lemma NotTaken(cs: seq<Container>, i: nat, j: nat)
    requires DistinctPorts(cs) && HasPort(cs, i, j)
    ensures !NumberTaken(cs, i, j)
  {
  }

  lemma SoundContainersNoFault(spec: WebAppSpec, e: FieldError)
    requires SoundContainers(spec.containers) && ((AboutContainer(e) && !AboutPort(e)) || e.ContainersRequired?)
    ensures !Fault(spec, e)
  {
    hide PortNames, LabelProblems, DNS1123Label, PortNameProblems, NumberTaken, NameTaken, TargetedResources,
        SubdomainProblems;
    var cs := spec.containers;
    if (e.NameInvalid? || e.NameRequired?) && e.i < |cs| {
      LabelProblemsExact(cs[e.i].name);
      EmptyIsNoLabel();
    }
  }

  lemma SoundPortsNoFault(spec: WebAppSpec, e: FieldError)
    requires Admissible(spec) && (AboutPort(e) || e.PortsRequired?)
    ensures !Fault(spec, e)
  {
    hide PortNames, LabelProblems, PortNameProblems, ServiceName, NumberTaken, NameTaken, TargetedResources,
        SubdomainProblems,
      SoundContainers, SoundAutoscaling;
    var cs := spec.containers;
    if e.PortsRequired? {
      var i, j :| HasPort(cs, i, j);
      assert cs[i].ports != [];
    } else if HasPort(cs, e.i, e.j) {
      NotTaken(cs, e.i, e.j);
      PortNameProblemsExact(cs[e.i].ports[e.j].name);
      if cs[e.i].ports[e.j].name != "" {
        ExplicitNamesDistinct(spec, e.i, e.j);
      }
    }
  }

  lemma SoundRestNoFault(spec: WebAppSpec, e: FieldError)
    requires SoundAutoscaling(spec) && SoundNames(spec)
    requires !AboutContainer(e) && !e.ContainersRequired? && !e.PortsRequired?
    ensures !Fault(spec, e)
  {
    hide PortNames, LabelProblems, PortNameProblems, NumberTaken, NameTaken, TargetedResources, SubdomainShape;
  }

  lemma AdmissibleHasNoFault(spec: WebAppSpec, e: FieldError)
    requires Admissible(spec)
    ensures !Fault(spec, e)
  {
    hide Fault;
    if AboutPort(e) || e.PortsRequired? {
      SoundPortsNoFault(spec, e);
    } else if AboutContainer(e) || e.ContainersRequired? {
      SoundContainersNoFault(spec, e);
    } else {
      SoundRestNoFault(spec, e);
    }
  }

  lemma EmptyIsNoLabel()
    ensures !DNS1123Label("")
  {
  }

  lemma NamesDiffer(spec: WebAppSpec, a: nat, b: nat)
    requires Distinct(PortNames(spec)) && a < b < |AllPorts(spec)|
    ensures PortName(AllPorts(spec)[a]) != PortName(AllPorts(spec)[b])
  {
    assert PortNames(spec)[a] != PortNames(spec)[b];
  }

  /** With distinct keys, distinct generated-and-explicit names leave no repeated explicit name. */
  lemma ExplicitNamesDistinct(spec: WebAppSpec, i: nat, j: nat)
    requires DistinctPorts(spec.containers) && Distinct(PortNames(spec))
    requires HasPort(spec.containers, i, j) && spec.containers[i].ports[j].name != ""
    ensures !NameTaken(spec.containers, i, j)
  {
    var cs := spec.containers;
    var ps := Declared(cs);
    DistinctPortsFlat(spec);
    if NameTaken(cs, i, j) {
      var k, l :| HasPort(cs, k, l) && Before(k, l, i, j) && cs[k].ports[l].name == cs[i].ports[j].name;
      var b := Offset(cs, i, j);
      EarlierExact(cs, i, j, cs[k].ports[l]);
      var a :| 0 <= a < b && ps[..b][a] == cs[k].ports[l];
      NamesDiffer(spec, a, b);
    }
  }

  /** The webhook accepts exactly the admissible specs. */
  lemma AdmissionIsExact(spec: WebAppSpec)
    ensures SpecErrors(spec) == [] <==> Admissible(spec)
  {
    if SpecErrors(spec) == [] {
      NoErrorsAdmissible(spec);
    }
    hide SpecErrors, Admissible, Fault;
    if Admissible(spec) && SpecErrors(spec) != [] {
      var e := SpecErrors(spec)[0];
      ErrorsExact(spec, e);
      AdmissibleHasNoFault(spec, e);
    }
  }

  /* What the builders gain from admission. */

  lemma AdmittedPort(spec: WebAppSpec, a: nat)
    requires Admissible(spec) && a < |Declared(spec.containers)|
    ensures ServiceName(PortName(Declared(spec.containers)[a])) && 1 <= Declared(spec.containers)[a].number <= 65535
  {
    hide ServiceName, DistinctPorts, PortNames;
    var i, j := Locate(spec.containers, a);
    var p := Declared(spec.containers)[a];
    if p.name == "" {
      GeneratedNameLegal(p);
    }
  }

  /** Accepted specs give the Service every declared port, under distinct legal names. */
  lemma AdmittedService(key: NsName, spec: WebAppSpec)
    requires SpecErrors(spec) == []
    ensures AllPorts(spec) == Declared(spec.containers) != []
    ensures var ports := BuildService(key, spec).ports;
      && |ports| == |Declared(spec.containers)|
      && (forall a, b :: 0 <= a < b < |ports| ==> ports[a].name != ports[b].name)
      && (forall a :: 0 <= a < |ports| ==> ServiceName(ports[a].name) && 1 <= ports[a].port <= 65535)
  {
    hide SpecErrors, ServiceName, DistinctPorts, FirstOccurrences, SoundContainers, SoundAutoscaling, DNS1123Label,
      SubdomainShape, TargetedResources, Natural, Declared, PortName;
    AdmissionIsExact(spec);
    DistinctPortsFlat(spec);
    var ps := Declared(spec.containers);
    DeclaredEmpty(spec.containers);
    var ports := BuildService(key, spec).ports;
    assert forall a :: 0 <= a < |ps| ==> ports[a].name == PortName(ps[a]) && ports[a].port == ps[a].number;
    forall a | 0 <= a < |ports| ensures ServiceName(ports[a].name) && 1 <= ports[a].port <= 65535 {
      AdmittedPort(spec, a);
    }
    forall a, b | 0 <= a < b < |ports| ensures ports[a].name != ports[b].name {
      NamesDiffer(spec, a, b);
    }
  }

  /** Accepted specs build an Ingress backend that names exactly one Service port. */
  lemma AdmittedIngress(key: NsName, spec: WebAppSpec)
    requires SpecErrors(spec) == []
    ensures BuildIngress(key, spec).Good?
    ensures var ports, backend := BuildService(key, spec).ports, BuildIngress(key, spec).value.portName;
      exists a :: 0 <= a < |ports| && ports[a].name == backend && forall b :: 0 <= b < |ports| && b != a ==>
          ports[b].name != backend
    ensures BuildIngress(key, spec).value.service == key.name
  {
    hide SpecErrors, SoundContainers, SoundPorts, SoundAutoscaling, SubdomainShape, Declared,
      FirstOccurrences, ServiceName, PortName;
    AdmissionIsExact(spec);
    AdmittedService(key, spec);
    BackendNamesOnePort(spec);
    var i :| 0 <= i < |AllPorts(spec)| && PortName(AllPorts(spec)[i]) == BackendPort(spec).value;
    assert BuildService(key, spec).ports[i].name == BackendPort(spec).value;
  }

  /** Accepted autoscaling builds an HPA with ordered bounds whose every metric is requested
      by every container. */
  lemma AdmittedHpa(key: NsName, spec: WebAppSpec)
    requires SpecErrors(spec) == [] && AutoscalingOn(spec)
    ensures BuildHpa(key, spec.autoscaling.value).Good?
    ensures var hpa := BuildHpa(key, spec.autoscaling.value).value;
      && hpa.minReplicas <= hpa.maxReplicas && |hpa.metrics| >= 1
      && (forall m, i :: 0 <= m < |hpa.metrics| && 0 <= i < |spec.containers| ==>
          hpa.metrics[m].resource in spec.containers[i].requests)
      && (forall m, n :: 0 <= m < n < |hpa.metrics| ==> hpa.metrics[m].resource != hpa.metrics[n].resource)
  {
    hide SpecErrors;
    NoErrorsRest(spec);
    var a := spec.autoscaling.value;
    var hpa := BuildHpa(key, a).value;
    assert forall m :: 0 <= m < |hpa.metrics| ==>
      hpa.metrics[m].resource == TargetedResources(a)[m] && TargetedResources(a)[m] in TargetedResources(a);
  }
}
