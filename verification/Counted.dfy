/** How often an error or a finding is reported: once, unless the spec or the policy repeats itself. */
module Counted {
  import opened Base
  import opened Text
  import opened Api
  import opened Ports
  import opened Builders
  import opened Admission
  import opened AdmissionExact
  import opened Policies
  import opened PolicyExact

  lemma Join<T(!new)>(a: seq<T>, b: seq<T>)
    requires Distinct(a) && Distinct(b)
    requires forall x :: x in a ==> x !in b
    ensures Distinct(a + b)
  {
    forall i, j | 0 <= i < j < |a + b| ensures (a + b)[i] != (a + b)[j] {
      assert i < |a| ==> (a + b)[i] in a;
      assert j >= |a| ==> (a + b)[j] in b;
    }
  }

  lemma {:induction false} CountOf<T>(s: seq<T>, x: T)
    requires Distinct(s)
    ensures multiset(s)[x] == if x in s then 1 else 0
  {
    if s != [] {
      var init, last := s[..|s| - 1], s[|s| - 1];
      CountOf(init, x);
      assert last !in init;
      assert s == init + [last];
    }
  }

  /* Errors of a spec. */

  lemma ProblemsOnce(s: string)
    ensures Distinct(LabelProblems(s)) && Distinct(SubdomainProblems(s)) && Distinct(PortNameProblems(s))
  {
    hide LabelShape, SubdomainShape, OutsideCharset, HasLetter, HasDoubleHyphen, HyphenAtEdge;
  }

  lemma NameErrorsOnce(cs: seq<Container>, i: nat)
    requires i < |cs|
    ensures Distinct(NameErrors(cs, i))
  {
    hide LabelProblems;
    ProblemsOnce(cs[i].name);
  }

  lemma PortErrorsOnce(cs: seq<Container>, i: nat, j: nat)
    requires i < |cs| && j < |cs[i].ports|
    ensures Distinct(PortErrors(cs, i, j))
  {
    hide PortNameProblems, StringKeys, StringKey, ExplicitNames, Earlier;
    var problems := PortNameProblems(cs[i].ports[j].name);
    ProblemsOnce(cs[i].ports[j].name);
    var named := seq(|problems|, k requires 0 <= k < |problems| => PortNameInvalid(i, j, problems[k]));
    assert Distinct(named);
    assert Distinct(PortNameErrors(cs, i, j));
    assert forall e :: e in PortNameErrors(cs, i, j) ==> e.PortNameInvalid? || e.PortNameDuplicate?;
  }

  lemma {:induction false} PortsErrorsOnce(spec: WebAppSpec, i: nat, n: nat)
    requires i < |spec.containers| && n <= |spec.containers[i].ports|
    ensures Distinct(PortsErrors(spec.containers, i, n))
  {
    hide PortErrors, Fault;
    if n > 0 {
      var a, b := PortsErrors(spec.containers, i, n - 1), PortErrors(spec.containers, i, n - 1);
      PortsErrorsOnce(spec, i, n - 1);
      PortErrorsOnce(spec.containers, i, n - 1);
      forall e ensures e in a ==> e !in b {
        PortsErrorsExact(spec, i, n - 1, e);
        PortErrorsExact(spec, i, n - 1, e);
      }
      Join(a, b);
    }
  }

  lemma {:induction false} ScratchesErrorsOnce(spec: WebAppSpec, i: nat, n: nat)
    requires i < |spec.containers| && n <= |spec.containers[i].scratch|
    ensures Distinct(ScratchesErrors(spec.containers[i], i, n))
  {
    hide Fault;
    if n > 0 {
      var a, b := ScratchesErrors(spec.containers[i], i, n - 1), ScratchErrors(spec.containers[i], i, n - 1);
      ScratchesErrorsOnce(spec, i, n - 1);
      assert Distinct(b);
      hide ScratchErrors;
      forall e ensures e in a ==> e !in b {
        ScratchesErrorsExact(spec, i, n - 1, e);
        ScratchErrorsExact(spec, i, n - 1, e);
      }
      Join(a, b);
    }
  }

  lemma ContainerErrorsOnce(spec: WebAppSpec, i: nat)
    requires i < |spec.containers|
    ensures Distinct(ContainerErrors(spec.containers, i))
  {
    hide Fault, NameErrors, PortsErrors, ScratchesErrors;
    var cs, c := spec.containers, spec.containers[i];
    var names, ports, scratch := NameErrors(cs, i), PortsErrors(cs, i, |c.ports|), ScratchesErrors(c, i, |c.scratch|);
    var image := if c.image == "" then [ImageRequired(i)] else [];
    NameErrorsOnce(cs, i);
    PortsErrorsOnce(spec, i, |c.ports|);
    ScratchesErrorsOnce(spec, i, |c.scratch|);
    forall e
      ensures e in names ==> e.NameRequired? || e.NameDuplicate? || e.NameInvalid?
      ensures e in ports ==> AboutPort(e)
      ensures e in scratch ==> AboutScratch(e)
    {
      NameErrorsExact(spec, i, e);
      PortsErrorsExact(spec, i, |c.ports|, e);
      ScratchesErrorsExact(spec, i, |c.scratch|, e);
    }
    Join(names, image);
    Join(names + image, ports);
    Join(names + image + ports, scratch);
  }

  lemma {:induction false} ContainersErrorsOnce(spec: WebAppSpec, n: nat)
    requires n <= |spec.containers|
    ensures Distinct(ContainersErrors(spec.containers, n))
  {
    hide Fault, ContainerErrors;
    if n > 0 {
      var a, b := ContainersErrors(spec.containers, n - 1), ContainerErrors(spec.containers, n - 1);
      ContainersErrorsOnce(spec, n - 1);
      ContainerErrorsOnce(spec, n - 1);
      forall e ensures e in a ==> e !in b {
        ContainersErrorsExact(spec, n - 1, e);
        ContainerErrorsExact(spec, n - 1, e);
      }
      Join(a, b);
    }
  }

  lemma {:induction false} MissingRequestsOnce(cs: seq<Container>, name: string, n: nat)
    requires n <= |cs|
    ensures Distinct(MissingRequests(cs, name, n))
  {
    if n > 0 {
      var a := MissingRequests(cs, name, n - 1);
      MissingRequestsOnce(cs, name, n - 1);
      MissingRequestsExact(cs, name, n - 1, RequestRequired(name, n - 1));
      Join(a, if name in cs[n - 1].requests then [] else [RequestRequired(name, n - 1)]);
    }
  }

  lemma {:induction false} MissingUtilizationOnce(cs: seq<Container>, names: seq<string>)
    requires Distinct(names)
    ensures Distinct(MissingUtilizationRequests(cs, names))
  {
    hide MissingRequests;
    if names != [] {
      var init, last := names[..|names| - 1], names[|names| - 1];
      var a, b := MissingUtilizationRequests(cs, init), MissingRequests(cs, last, |cs|);
      MissingUtilizationOnce(cs, init);
      MissingRequestsOnce(cs, last, |cs|);
      assert last !in init;
      forall e ensures e in a ==> e !in b {
        MissingUtilizationExact(cs, init, e);
        MissingRequestsExact(cs, last, |cs|, e);
      }
      Join(a, b);
    }
  }

  lemma AutoscalingErrorsOnce(spec: WebAppSpec)
    ensures Distinct(AutoscalingErrors(spec))
  {
    hide MissingUtilizationRequests;
    if AutoscalingOn(spec) {
      var a := spec.autoscaling.value;
      var missing := MissingUtilizationRequests(spec.containers, TargetedResources(a));
      assert CPU != MEMORY by { assert |CPU| != |MEMORY|; }
      MissingUtilizationOnce(spec.containers, TargetedResources(a));
      forall e ensures e in missing ==> e.RequestRequired? {
        MissingUtilizationExact(spec.containers, TargetedResources(a), e);
      }
      var bounds := if a.maxReplicas.None? then [MaxReplicasRequired]
        else if a.maxReplicas.value < a.minReplicas.GetOr(1) then [MaxReplicasTooSmall] else [];
      Join(bounds, missing);
      assert AutoscalingErrors(spec) == bounds + missing;
    }
  }

  lemma DomainErrorsOnce(domain: string)
    ensures Distinct(DomainErrors(domain))
  {
    hide SubdomainProblems;
    ProblemsOnce(domain);
  }

  lemma {:induction false} CollisionsCounted(names: seq<string>, x: string)
    ensures multiset(CollisionErrors(names))[PortNameCollision(x)] ==
      if x in names then multiset(names)[x] - 1 else 0
  {
    if names != [] {
      var init, last := names[..|names| - 1], names[|names| - 1];
      CollisionsCounted(init, x);
      CollisionsSnoc(init, last, x);
      assert names == init + [last];
    }
  }

  lemma {:induction false} CollisionsSnoc(init: seq<string>, last: string, x: string)
    ensures multiset(init + [last])[x] == multiset(init)[x] + if x == last then 1 else 0
    ensures multiset(CollisionErrors(init + [last]))[PortNameCollision(x)] ==
      multiset(CollisionErrors(init))[PortNameCollision(x)] + if x == last && last in init then 1 else 0
  {
    var names, own := init + [last], if last in init then [PortNameCollision(last)] else [];
    assert names[..|names| - 1] == init;
    assert CollisionErrors(names) == CollisionErrors(init) + own;
    assert multiset(CollisionErrors(names)) == multiset(CollisionErrors(init)) + multiset(own);
  }

  /** What is reported before and after the collisions. */
  function Others(spec: WebAppSpec): (seq<FieldError>, seq<FieldError>) {
    ((if spec.containers == [] then [ContainersRequired] else []) +
     ContainersErrors(spec.containers, |spec.containers|) +
     (if spec.containers != [] && Declared(spec.containers) == [] then [PortsRequired] else []) +
     AutoscalingErrors(spec),
     (if spec.ingressPortName != "" && spec.ingressPortName !in PortNames(spec) then [IngressPortUnknown] else []) +
     DomainErrors(spec.domain) +
     (if RollingUpdateMisplaced(spec) then [RollingUpdateForbidden] else []))
  }

  predicate Early(e: FieldError) {
    || e.ContainersRequired? || AboutContainer(e) || e.PortsRequired?
    || e.MaxReplicasRequired? || e.MaxReplicasTooSmall? || e.RequestRequired?
  }

  predicate Late(e: FieldError) { e.IngressPortUnknown? || e.DomainInvalid? || e.RollingUpdateForbidden? }

  lemma FirstOnce(spec: WebAppSpec)
    ensures Distinct(Others(spec).0) && forall e :: e in Others(spec).0 ==> Early(e)
  {
    hide Fault, ContainersErrors, DomainErrors, AutoscalingErrors, PortNames, Declared;
    var none := if spec.containers == [] then [ContainersRequired] else [];
    var containers := ContainersErrors(spec.containers, |spec.containers|);
    var unported := if spec.containers != [] && Declared(spec.containers) == [] then [PortsRequired] else [];
    var scaling := AutoscalingErrors(spec);
    ContainersErrorsOnce(spec, |spec.containers|);
    AutoscalingErrorsOnce(spec);
    assert Distinct(none) && Distinct(unported);
    hide Distinct;
    forall e
      ensures e in containers ==> AboutContainer(e)
      ensures e in scaling ==> e.MaxReplicasRequired? || e.MaxReplicasTooSmall? || e.RequestRequired?
    {
      ContainersErrorsExact(spec, |spec.containers|, e);
      AutoscalingErrorsExact(spec, e);
    }
    Join(none, containers);
    Join(none + containers, unported);
    Join(none + containers + unported, scaling);
  }

  lemma LastOnce(spec: WebAppSpec)
    ensures Distinct(Others(spec).1) && forall e :: e in Others(spec).1 ==> Late(e)
  {
    hide ContainersErrors, DomainErrors, AutoscalingErrors, PortNames, RollingUpdateMisplaced, Declared;
    var domain := DomainErrors(spec.domain);
    var unknown :=
      if spec.ingressPortName != "" && spec.ingressPortName !in PortNames(spec) then [IngressPortUnknown] else [];
    var misplaced := if RollingUpdateMisplaced(spec) then [RollingUpdateForbidden] else [];
    DomainErrorsOnce(spec.domain);
    assert Distinct(unknown) && Distinct(misplaced);
    hide Distinct;
    forall e ensures e in domain ==> e.DomainInvalid? {
      DomainErrorsExact(spec.domain, e);
    }
    Join(unknown, domain);
    Join(unknown + domain, misplaced);
  }

  lemma OthersOnce(spec: WebAppSpec)
    ensures Distinct(Others(spec).0 + Others(spec).1)
    ensures forall e :: e in Others(spec).0 + Others(spec).1 ==> !e.PortNameCollision?
  {
    hide Others, Distinct;
    FirstOnce(spec);
    LastOnce(spec);
    Join(Others(spec).0, Others(spec).1);
  }

  lemma TwiceThere(spec: WebAppSpec, x: string)
    ensures Fault(spec, PortNameCollision(x)) ==> x in PortNames(spec)
    ensures !Fault(spec, PortNameCollision(x)) && x in PortNames(spec) ==> multiset(PortNames(spec))[x] == 1
  {
    hide PortNames;
    var names := PortNames(spec);
    if !Fault(spec, PortNameCollision(x)) && x in names {
      var k :| 0 <= k < |names| && names[k] == x;
      assert names == names[..k] + [x] + names[k + 1..];
      assert x !in names[..k] && x !in names[k + 1..];
    }
  }

  lemma Regroup<T>(a: seq<T>, b: seq<T>, c: seq<T>, d: seq<T>, e: seq<T>, x: T)
    ensures multiset(a + b + c + d + e)[x] == multiset(a + (c + d + e))[x] + multiset(b)[x]
    ensures x in a + b + c + d + e <==> x in a + (c + d + e) || x in b
  {
  }

  lemma ErrorsShape(spec: WebAppSpec) returns (unknown: seq<FieldError>, misplaced: seq<FieldError>)
    ensures Others(spec).1 == unknown + DomainErrors(spec.domain) + misplaced
    ensures SpecErrors(spec) ==
      Others(spec).0 + CollisionErrors(PortNames(spec)) + unknown + DomainErrors(spec.domain) + misplaced
  {
    hide ContainersErrors, CollisionErrors, DomainErrors, AutoscalingErrors, PortNames, RollingUpdateMisplaced,
      Declared;
    unknown :=
      if spec.ingressPortName != "" && spec.ingressPortName !in PortNames(spec) then [IngressPortUnknown] else [];
    misplaced := if RollingUpdateMisplaced(spec) then [RollingUpdateForbidden] else [];
  }

  lemma ErrorsSplit(spec: WebAppSpec, e: FieldError)
    ensures var (first, last) := Others(spec); var collisions := CollisionErrors(PortNames(spec));
      && multiset(SpecErrors(spec))[e] == multiset(first + last)[e] + multiset(collisions)[e]
      && (e in SpecErrors(spec) <==> e in first + last || e in collisions)
  {
    hide SpecErrors, Others, CollisionErrors, DomainErrors, PortNames;
    var unknown, misplaced := ErrorsShape(spec);
    Regroup(Others(spec).0, CollisionErrors(PortNames(spec)), unknown, DomainErrors(spec.domain), misplaced, e);
  }

  /** Every fault is reported, and reported once; a port name is reported for each port that repeats it. */
  lemma ErrorsCounted(spec: WebAppSpec, e: FieldError)
    ensures multiset(SpecErrors(spec))[e] ==
      if !Fault(spec, e) then 0
      else if e.PortNameCollision? then multiset(PortNames(spec))[e.name] - 1
      else 1
  {
    hide Fault, SpecErrors, CollisionErrors, Others, PortNames;
    var (first, last) := Others(spec);
    OthersOnce(spec);
    ErrorsSplit(spec, e);
    CountOf(first + last, e);
    ErrorsExact(spec, e);
    ListedErrorsExact(spec, e);
    if e.PortNameCollision? {
      CollisionsCounted(PortNames(spec), e.name);
      TwiceThere(spec, e.name);
    }
  }

  /* Findings of a policy. */

  lemma {:induction false} PrefixOnce(keys: seq<string>, prefix: string)
    requires Distinct(keys)
    ensures Distinct(PrefixViolations(keys, prefix))
  {
    if keys != [] {
      var init, last := keys[..|keys| - 1], keys[|keys| - 1];
      PrefixOnce(init, prefix);
      assert last !in init;
      PrefixViolationsExact(init, prefix, AnnotationForbidden(last, prefix));
      Join(PrefixViolations(init, prefix), if prefix <= last then [AnnotationForbidden(last, prefix)] else []);
    }
  }

  predicate Begins(keys: seq<string>, v: Violation) { v.AnnotationForbidden? && v.key in keys && v.prefix <= v.key }

  lemma {:induction false} PrefixCounted(keys: seq<string>, prefix: string, v: Violation)
    requires Distinct(keys)
    ensures multiset(PrefixViolations(keys, prefix))[v] == if Begins(keys, v) && v.prefix == prefix then 1 else 0
  {
    hide PrefixViolations;
    PrefixOnce(keys, prefix);
    CountOf(PrefixViolations(keys, prefix), v);
    PrefixViolationsExact(keys, prefix, v);
  }

  lemma SnocCount<T>(s: seq<T>, last: T, x: T)
    ensures multiset(s + [last])[x] == multiset(s)[x] + if x == last then 1 else 0
  {
  }

  lemma AnnotationsLast(keys: seq<string>, prefixes: seq<string>, v: Violation)
    requires prefixes != []
    ensures var init, last := prefixes[..|prefixes| - 1], prefixes[|prefixes| - 1];
      multiset(AnnotationViolations(keys, prefixes))[v] ==
        multiset(AnnotationViolations(keys, init))[v] + multiset(PrefixViolations(keys, last))[v]
  {
    hide PrefixViolations;
    var init, last := prefixes[..|prefixes| - 1], prefixes[|prefixes| - 1];
    assert AnnotationViolations(keys, prefixes) == AnnotationViolations(keys, init) + PrefixViolations(keys, last);
  }

  lemma {:induction false} AnnotationsCounted(keys: seq<string>, prefixes: seq<string>, v: Violation)
    requires Distinct(keys)
    ensures multiset(AnnotationViolations(keys, prefixes))[v] ==
      if Begins(keys, v) then multiset(prefixes)[v.prefix] else 0
  {
    hide PrefixViolations;
    if prefixes != [] {
      var init, last := prefixes[..|prefixes| - 1], prefixes[|prefixes| - 1];
      AnnotationsLast(keys, prefixes, v);
      hide AnnotationViolations, Begins, Distinct;
      AnnotationsCounted(keys, init, v);
      PrefixCounted(keys, last, v);
      assert prefixes == init + [last];
      if v.AnnotationForbidden? {
        SnocCount(init, last, v.prefix);
      } else {
        assert !Begins(keys, v) by { NeverBegins(keys, v); }
      }
    }
  }

  lemma NeverBegins(keys: seq<string>, v: Violation)
    requires !v.AnnotationForbidden?
    ensures !Begins(keys, v)
  {
  }

  lemma {:induction false} ContainerScratchOnce(c: Container, cap: int, i: nat, n: nat)
    requires n <= |c.scratch|
    ensures Distinct(ContainerScratchViolations(c, cap, i, n))
  {
    if n > 0 {
      var a, b := ContainerScratchViolations(c, cap, i, n - 1), ScratchViolation(c.scratch[n - 1], cap, i, n - 1);
      ContainerScratchOnce(c, cap, i, n - 1);
      forall v ensures v in a ==> v !in b {
        ContainerScratchExact(c, cap, i, n - 1, v);
      }
      Join(a, b);
    }
  }

  lemma {:induction false} ScratchOnce(cs: seq<Container>, cap: int, n: nat)
    requires n <= |cs|
    ensures Distinct(ScratchViolations(cs, cap, n))
  {
    hide ContainerScratchViolations;
    if n > 0 {
      var a := ScratchViolations(cs, cap, n - 1);
      var b := ContainerScratchViolations(cs[n - 1], cap, n - 1, |cs[n - 1].scratch|);
      ScratchOnce(cs, cap, n - 1);
      ContainerScratchOnce(cs[n - 1], cap, n - 1, |cs[n - 1].scratch|);
      forall v ensures v in a ==> v !in b {
        ScratchViolationsExact(cs, cap, n - 1, v);
        ContainerScratchExact(cs[n - 1], cap, n - 1, |cs[n - 1].scratch|, v);
      }
      Join(a, b);
    }
  }

  lemma {:induction false} FloorsOnce(requests: ResourceList, floors: ResourceList, names: seq<string>, i: nat)
    requires Distinct(names) && Elements(names) <= floors.Keys
    ensures Distinct(FloorViolations(requests, floors, names, i))
  {
    if names != [] {
      var init, last := names[..|names| - 1], names[|names| - 1];
      assert last !in init && last in Elements(names) && Elements(init) <= Elements(names);
      var a, b := FloorViolations(requests, floors, init, i), FloorViolation(requests, last, floors[last], i);
      FloorsOnce(requests, floors, init, i);
      forall v ensures v in a ==> v !in b {
        FloorViolationsExact(requests, floors, init, i, v);
      }
      Join(a, b);
    }
  }

  lemma {:induction false} CeilingsOnce(limits: ResourceList, ceilings: ResourceList, names: seq<string>, i: nat)
    requires Distinct(names) && Elements(names) <= ceilings.Keys
    ensures Distinct(CeilingViolations(limits, ceilings, names, i))
  {
    if names != [] {
      var init, last := names[..|names| - 1], names[|names| - 1];
      assert last !in init && last in Elements(names) && Elements(init) <= Elements(names);
      var a, b := CeilingViolations(limits, ceilings, init, i), CeilingViolation(limits, last, ceilings[last], i);
      CeilingsOnce(limits, ceilings, init, i);
      forall v ensures v in a ==> v !in b {
        CeilingViolationsExact(limits, ceilings, init, i, v);
      }
      Join(a, b);
    }
  }

  lemma ResourcesOnce(c: Container, rp: ResourcePolicy, i: nat)
    ensures Distinct(ResourceViolations(c, rp, i))
  {
    hide FloorViolations, CeilingViolations, SortedKeys, FloorViolation, CeilingViolation;
    var floors, ceilings := SortedNames(rp.minRequests), SortedNames(rp.maxLimits);
    var x := if rp.requireRequests && c.requests == map[] then [RequestsRequired(i)] else [];
    var y := if rp.requireLimits && c.limits == map[] then [LimitsRequired(i)] else [];
    var a := FloorViolations(c.requests, rp.minRequests, floors, i);
    var b := CeilingViolations(c.limits, rp.maxLimits, ceilings, i);
    SortedKeysExact(rp.minRequests.Keys);
    SortedKeysExact(rp.maxLimits.Keys);
    FloorsOnce(c.requests, rp.minRequests, floors, i);
    CeilingsOnce(c.limits, rp.maxLimits, ceilings, i);
    forall v
      ensures v in a ==> v.RequestMissing? || v.RequestBelowFloor?
      ensures v in b ==> v.LimitMissing? || v.LimitOverCeiling?
    {
      FloorViolationsExact(c.requests, rp.minRequests, floors, i, v);
      CeilingViolationsExact(c.limits, rp.maxLimits, ceilings, i, v);
    }
    Join(x, y);
    Join(x + y, a);
    Join(x + y + a, b);
  }

  lemma {:induction false} ContainersResourcesOnce(spec: WebAppSpec, p: Policy, n: nat)
    requires n <= |spec.containers| && p.resources.Some?
    ensures Distinct(ContainersResourceViolations(spec.containers, p.resources.value, n))
  {
    hide ResourceViolations, Violates;
    if n > 0 {
      var a := ContainersResourceViolations(spec.containers, p.resources.value, n - 1);
      var b := ResourceViolations(spec.containers[n - 1], p.resources.value, n - 1);
      ContainersResourcesOnce(spec, p, n - 1);
      ResourcesOnce(spec.containers[n - 1], p.resources.value, n - 1);
      forall v ensures v in a ==> v !in b {
        ContainersResourceExact(spec, p, n - 1, v);
        ResourceViolationsMean(spec, p, n - 1, v);
      }
      Join(a, b);
    }
  }

  /** The findings about anything but annotations. */
  ghost function OtherFindings(spec: WebAppSpec, p: Policy): seq<Violation> {
    ReplicaViolations(spec, p) + AccountViolations(spec, p) +
    ((if p.maxScratchSize.Some? then ScratchViolations(spec.containers, p.maxScratchSize.value, |spec.containers|)
      else []) +
     (if p.resources.Some? then ContainersResourceViolations(spec.containers, p.resources.value, |spec.containers|)
      else []))
  }

  lemma SimpleOnce(spec: WebAppSpec, p: Policy)
    ensures var simple := ReplicaViolations(spec, p) + AccountViolations(spec, p);
      Distinct(simple) &&
      forall v :: v in simple ==> v.AutoscalingOverCeiling? || v.ReplicasOverCeiling? || v.ServiceAccountForbidden?
  {
  }

  lemma ScratchMine(spec: WebAppSpec, p: Policy, scratch: seq<Violation>)
    requires p.maxScratchSize.Some?
    requires scratch == ScratchViolations(spec.containers, p.maxScratchSize.value, |spec.containers|)
    ensures Distinct(scratch) && forall v :: v in scratch ==> v.ScratchLimitRequired? || v.ScratchOverCap?
  {
    hide ScratchViolations, Violates;
    ScratchOnce(spec.containers, p.maxScratchSize.value, |spec.containers|);
    forall v | v in scratch ensures v.ScratchLimitRequired? || v.ScratchOverCap? {
      ScratchMeans(spec, p, v);
    }
  }

  lemma ResourcesMine(spec: WebAppSpec, p: Policy, resources: seq<Violation>)
    requires p.resources.Some?
    requires resources == ContainersResourceViolations(spec.containers, p.resources.value, |spec.containers|)
    ensures Distinct(resources) && forall v :: v in resources ==> AboutResources(v)
  {
    hide ContainersResourceViolations, Violates;
    ContainersResourcesOnce(spec, p, |spec.containers|);
    forall v | v in resources ensures AboutResources(v) {
      ContainersResourceExact(spec, p, |spec.containers|, v);
    }
  }

  lemma OthersReportedOnce(spec: WebAppSpec, p: Policy)
    ensures Distinct(OtherFindings(spec, p)) && forall v :: v in OtherFindings(spec, p) ==> !v.AnnotationForbidden?
  {
    hide ReplicaViolations, AccountViolations, ScratchViolations, ContainersResourceViolations;
    var cs := spec.containers;
    var scratch := if p.maxScratchSize.Some? then ScratchViolations(cs, p.maxScratchSize.value, |cs|) else [];
    var resources := if p.resources.Some? then ContainersResourceViolations(cs, p.resources.value, |cs|) else [];
    SimpleOnce(spec, p);
    if p.maxScratchSize.Some? {
      ScratchMine(spec, p, scratch);
    }
    if p.resources.Some? {
      ResourcesMine(spec, p, resources);
    }
    assert Distinct(scratch) && Distinct(resources);
    hide Distinct;
    Join(scratch, resources);
    Join(ReplicaViolations(spec, p) + AccountViolations(spec, p), scratch + resources);
  }

  lemma RegroupFour<T>(a: seq<T>, b: seq<T>, c: seq<T>, d: seq<T>, x: T)
    ensures multiset(a + b + c + d)[x] == multiset(a + (c + d))[x] + multiset(b)[x]
    ensures x in a + b + c + d <==> x in a + (c + d) || x in b
  {
  }

  lemma {:induction false} FindingsSplit(spec: WebAppSpec, p: Policy, v: Violation)
    ensures var annotations := AnnotationViolations(SortedKeys(spec.podAnnotations.Keys), p.forbiddenPrefixes);
      && multiset(Violations(spec, p))[v] == multiset(OtherFindings(spec, p))[v] + multiset(annotations)[v]
      && (v in Violations(spec, p) <==> v in OtherFindings(spec, p) || v in annotations)
  {
    hide ReplicaViolations, AccountViolations, AnnotationViolations, ScratchViolations, ContainersResourceViolations,
      SortedKeys;
    var cs := spec.containers;
    RegroupFour(ReplicaViolations(spec, p) + AccountViolations(spec, p),
      AnnotationViolations(SortedKeys(spec.podAnnotations.Keys), p.forbiddenPrefixes),
      if p.maxScratchSize.Some? then ScratchViolations(cs, p.maxScratchSize.value, |cs|) else [],
      if p.resources.Some? then ContainersResourceViolations(cs, p.resources.value, |cs|) else [], v);
  }

  /** What breaks a policy is reported once; an annotation for each listing of the prefix it begins with. */
  lemma ViolationsCounted(spec: WebAppSpec, p: Policy, v: Violation)
    ensures multiset(Violations(spec, p))[v] ==
      if !Violates(spec, p, v) then 0
      else if v.AnnotationForbidden? then multiset(p.forbiddenPrefixes)[v.prefix]
      else 1
  {
    hide OtherFindings, AnnotationViolations, SortedKeys, Violations, Violates;
    var keys := SortedKeys(spec.podAnnotations.Keys);
    FindingsSplit(spec, p, v);
    OthersReportedOnce(spec, p);
    CountOf(OtherFindings(spec, p), v);
    SortedKeysExact(spec.podAnnotations.Keys);
    AnnotationsCounted(keys, p.forbiddenPrefixes, v);
    AnnotationsMean(spec, p, v);
    ViolationsExact(spec, p, v);
    AnnotationViolationsExact(keys, p.forbiddenPrefixes, v);
  }
}
