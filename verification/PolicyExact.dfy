/** What policy evaluation decides, for every policy set. */
module PolicyExact {
  import opened Base
  import opened Text
  import opened Api
  import opened Policies

  predicate ScratchAt(spec: WebAppSpec, i: int, j: int) {
    0 <= i < |spec.containers| && 0 <= j < |spec.containers[i].scratch|
  }

  /** Each violation, as a fact about the spec and the policy alone. */
  ghost predicate Violates(spec: WebAppSpec, p: Policy, v: Violation) {
    var cs := spec.containers;
    match v
    case AutoscalingOverCeiling =>
      p.maxReplicas.Some? && spec.autoscaling.Some? && spec.autoscaling.value.enabled &&
      spec.autoscaling.value.maxReplicas.Some? && spec.autoscaling.value.maxReplicas.value > p.maxReplicas.value
    case ReplicasOverCeiling =>
      p.maxReplicas.Some? && !(spec.autoscaling.Some? && spec.autoscaling.value.enabled) &&
      spec.replicas.Some? && spec.replicas.value > p.maxReplicas.value
    case ServiceAccountForbidden =>
      p.allowedServiceAccounts != [] &&
      (if spec.serviceAccountName == "" then "default" else spec.serviceAccountName) !in p.allowedServiceAccounts
    case AnnotationForbidden(key, prefix) =>
      key in spec.podAnnotations && prefix in p.forbiddenPrefixes && prefix <= key
    case ScratchLimitRequired(i, j) =>
      p.maxScratchSize.Some? && ScratchAt(spec, i, j) && cs[i].scratch[j].sizeLimit.None?
    case ScratchOverCap(i, j) =>
      p.maxScratchSize.Some? && ScratchAt(spec, i, j) && cs[i].scratch[j].sizeLimit.Some? &&
      cs[i].scratch[j].sizeLimit.value > p.maxScratchSize.value
    case RequestsRequired(i) => p.resources.Some? && i < |cs| && p.resources.value.requireRequests &&
        cs[i].requests == map[]
    case LimitsRequired(i) => p.resources.Some? && i < |cs| && p.resources.value.requireLimits && cs[i].limits == map[]
    case RequestMissing(i, name) => p.resources.Some? && i < |cs| && name in p.resources.value.minRequests &&
        name !in cs[i].requests
    case RequestBelowFloor(i, name) =>
      p.resources.Some? && i < |cs| && name in p.resources.value.minRequests && name in cs[i].requests &&
      cs[i].requests[name] < p.resources.value.minRequests[name]
    case LimitMissing(i, name) => p.resources.Some? && i < |cs| && name in p.resources.value.maxLimits &&
        name !in cs[i].limits
    case LimitOverCeiling(i, name) =>
      p.resources.Some? && i < |cs| && name in p.resources.value.maxLimits && name in cs[i].limits &&
      cs[i].limits[name] > p.resources.value.maxLimits[name]
  }

  predicate AboutResources(v: Violation) {
    v.RequestsRequired? || v.LimitsRequired? || v.RequestMissing? || v.RequestBelowFloor? || v.LimitMissing? ||
        v.LimitOverCeiling?
  }

  lemma {:induction false} PrefixViolationsExact(keys: seq<string>, prefix: string, v: Violation)
    ensures v in PrefixViolations(keys, prefix) <==>
        v.AnnotationForbidden? && v.prefix == prefix && v.key in keys && prefix <= v.key
  {
    if keys != [] {
      var init, last := keys[..|keys| - 1], keys[|keys| - 1];
      PrefixViolationsExact(init, prefix, v);
      assert keys == init + [last];
    }
  }

  lemma {:induction false} AnnotationViolationsExact(keys: seq<string>, prefixes: seq<string>, v: Violation)
    ensures v in AnnotationViolations(keys, prefixes) <==>
      v.AnnotationForbidden? && v.prefix in prefixes && v.key in keys && v.prefix <= v.key
  {
    if prefixes != [] {
      var init, last := prefixes[..|prefixes| - 1], prefixes[|prefixes| - 1];
      AnnotationViolationsExact(keys, init, v);
      PrefixViolationsExact(keys, last, v);
      assert prefixes == init + [last];
    }
  }

  lemma {:induction false} ContainerScratchExact(c: Container, cap: int, i: nat, n: nat, v: Violation)
    requires n <= |c.scratch|
    ensures v in ContainerScratchViolations(c, cap, i, n) <==>
      (v.ScratchLimitRequired? || v.ScratchOverCap?) && v.i == i && v.j < n &&
          v in ScratchViolation(c.scratch[v.j], cap, i, v.j)
  {
    if n > 0 {
      ContainerScratchExact(c, cap, i, n - 1, v);
    }
  }

  lemma {:induction false} ScratchViolationsExact(cs: seq<Container>, cap: int, n: nat, v: Violation)
    requires n <= |cs|
    ensures v in ScratchViolations(cs, cap, n) <==>
      (v.ScratchLimitRequired? || v.ScratchOverCap?) && v.i < n && v.j < |cs[v.i].scratch| &&
      v in ScratchViolation(cs[v.i].scratch[v.j], cap, v.i, v.j)
  {
    if n > 0 {
      ScratchViolationsExact(cs, cap, n - 1, v);
      ContainerScratchExact(cs[n - 1], cap, n - 1, |cs[n - 1].scratch|, v);
    }
  }

  lemma {:induction false} FloorViolationsExact(requests: ResourceList, floors: ResourceList, names: seq<string>,
      i: nat, v: Violation)
    requires Elements(names) <= floors.Keys
    ensures v in FloorViolations(requests, floors, names, i) <==>
      (v.RequestMissing? || v.RequestBelowFloor?) && v.name in names &&
          v in FloorViolation(requests, v.name, floors[v.name], i)
  {
    assert forall x :: x in names ==> x in Elements(names);
    if names != [] {
      var init, last := names[..|names| - 1], names[|names| - 1];
      assert Elements(init) <= Elements(names);
      FloorViolationsExact(requests, floors, init, i, v);
      assert names == init + [last];
    }
  }

  lemma {:induction false} CeilingViolationsExact(limits: ResourceList, ceilings: ResourceList, names: seq<string>,
      i: nat, v: Violation)
    requires Elements(names) <= ceilings.Keys
    ensures v in CeilingViolations(limits, ceilings, names, i) <==>
      (v.LimitMissing? || v.LimitOverCeiling?) && v.name in names &&
          v in CeilingViolation(limits, v.name, ceilings[v.name], i)
  {
    assert forall x :: x in names ==> x in Elements(names);
    if names != [] {
      var init, last := names[..|names| - 1], names[|names| - 1];
      assert Elements(init) <= Elements(names);
      CeilingViolationsExact(limits, ceilings, init, i, v);
      assert names == init + [last];
    }
  }

  lemma ResourceViolationsExact(c: Container, rp: ResourcePolicy, i: nat, v: Violation)
    ensures v in ResourceViolations(c, rp, i) <==>
      || (v == RequestsRequired(i) && rp.requireRequests && c.requests == map[])
      || (v == LimitsRequired(i) && rp.requireLimits && c.limits == map[])
      || ((v.RequestMissing? || v.RequestBelowFloor?) && v.name in rp.minRequests &&
          v in FloorViolation(c.requests, v.name, rp.minRequests[v.name], i))
      || ((v.LimitMissing? || v.LimitOverCeiling?) && v.name in rp.maxLimits &&
          v in CeilingViolation(c.limits, v.name, rp.maxLimits[v.name], i))
  {
    hide FloorViolations, CeilingViolations;
    var floors, ceilings := SortedNames(rp.minRequests), SortedNames(rp.maxLimits);
    FloorViolationsExact(c.requests, rp.minRequests, floors, i, v);
    CeilingViolationsExact(c.limits, rp.maxLimits, ceilings, i, v);
    assert forall x :: x in floors <==> x in Elements(floors);
    assert forall x :: x in ceilings <==> x in Elements(ceilings);
  }

  lemma ResourceViolationsMean(spec: WebAppSpec, p: Policy, i: nat, v: Violation)
    requires i < |spec.containers| && p.resources.Some?
    ensures v in ResourceViolations(spec.containers[i], p.resources.value, i) <==>
        AboutResources(v) && v.i == i && Violates(spec, p, v)
  {
    hide ResourceViolations;
    ResourceViolationsExact(spec.containers[i], p.resources.value, i, v);
  }

  lemma {:induction false} ContainersResourceExact(spec: WebAppSpec, p: Policy, n: nat, v: Violation)
    requires n <= |spec.containers| && p.resources.Some?
    ensures v in ContainersResourceViolations(spec.containers, p.resources.value, n) <==>
      AboutResources(v) && v.i < n && Violates(spec, p, v)
  {
    hide Violates, ResourceViolations;
    if n > 0 {
      ContainersResourceExact(spec, p, n - 1, v);
      ResourceViolationsMean(spec, p, n - 1, v);
    }
  }

  /** One finding of the first two rules, those about the count and the account. */
  lemma SimpleViolationsExact(spec: WebAppSpec, p: Policy, v: Violation)
    ensures v in ReplicaViolations(spec, p) <==>
      (v.AutoscalingOverCeiling? || v.ReplicasOverCeiling?) && Violates(spec, p, v)
    ensures v in AccountViolations(spec, p) <==> v.ServiceAccountForbidden? && Violates(spec, p, v)
  {
  }

  lemma AnnotationsMean(spec: WebAppSpec, p: Policy, v: Violation)
    ensures v in AnnotationViolations(SortedKeys(spec.podAnnotations.Keys), p.forbiddenPrefixes) <==>
      v.AnnotationForbidden? && Violates(spec, p, v)
  {
    hide AnnotationViolations, SortedKeys;
    var keys := SortedKeys(spec.podAnnotations.Keys);
    SortedKeysExact(spec.podAnnotations.Keys);
    assert forall x :: x in keys <==> x in Elements(keys);
    AnnotationViolationsExact(keys, p.forbiddenPrefixes, v);
  }

  lemma {:induction false} ScratchMeans(spec: WebAppSpec, p: Policy, v: Violation)
    ensures (p.maxScratchSize.Some? &&
        v in ScratchViolations(spec.containers, p.maxScratchSize.value, |spec.containers|)) <==>
      (v.ScratchLimitRequired? || v.ScratchOverCap?) && Violates(spec, p, v)
  {
    hide ScratchViolations;
    if p.maxScratchSize.Some? {
      ScratchViolationsExact(spec.containers, p.maxScratchSize.value, |spec.containers|, v);
    }
  }

  /** The walk reports a violation exactly when the spec commits it. */
  lemma ViolationsExact(spec: WebAppSpec, p: Policy, v: Violation)
    ensures v in Violations(spec, p) <==> Violates(spec, p, v)
  {
    hide ReplicaViolations, AccountViolations, AnnotationViolations, ScratchViolations, ContainersResourceViolations,
      SortedKeys;
    SimpleViolationsExact(spec, p, v);
    AnnotationsMean(spec, p, v);
    ScratchMeans(spec, p, v);
    if p.resources.Some? {
      ContainersResourceExact(spec, p, |spec.containers|, v);
    }
    assert Violates(spec, p, v) && AboutResources(v) ==> p.resources.Some? && v.i < |spec.containers|;
    hide Violates;
  }

  /** The spec keeps every rule of the policy. */
  ghost predicate Satisfied(spec: WebAppSpec, p: Policy) {
    forall v :: !Violates(spec, p, v)
  }

  lemma SatisfiedExact(spec: WebAppSpec, p: Policy)
    ensures Violations(spec, p) == [] <==> Satisfied(spec, p)
  {
    hide Violations, Violates;
    if Violations(spec, p) != [] {
      ViolationsExact(spec, p, Violations(spec, p)[0]);
    } else {
      forall v ensures !Violates(spec, p, v) {
        ViolationsExact(spec, p, v);
      }
    }
  }

  /* Whole policy sets. */

  /** A policy blocks a namespace if it enforces and has no selector, or one that parses and selects it. */
  ghost predicate Enforced(q: Query, p: Policy) {
    p.enforcement == Enforce &&
    (p.selector.Some? ==> q.pf.parses(p.selector.value) && q.pf.selects(p.selector.value, q.nsLabels))
  }

  /** A policy without a selector matches every namespace, one whose selector does not parse none. */
  lemma MatchesExact(pf: Platform, p: Policy, nsLabels: Labels)
    ensures Matches(pf, p, nsLabels) == Unparsable <==> p.selector.Some? && !pf.parses(p.selector.value)
    ensures Matches(pf, p, nsLabels) == Hit <==>
      (p.selector.Some? ==> pf.parses(p.selector.value) && pf.selects(p.selector.value, nsLabels))
  {
  }

  /** A verdict is clean exactly when every parsable, matching, blocking policy finds nothing. */
  lemma {:induction false} VerdictExact(q: Query, policies: seq<Policy>)
    ensures Evaluated(q, policies).violations == [] <==>
      forall i :: 0 <= i < |policies| && Enforced(q, policies[i]) ==> FindingsOf(q, policies[i]) == []
  {
    hide FindingsOf;
    if policies != [] {
      var init, p := policies[..|policies| - 1], policies[|policies| - 1];
      VerdictExact(q, init);
      assert forall i :: 0 <= i < |init| ==> init[i] == policies[i];
      assert policies[|policies| - 1] == p;
    }
  }

  /** Admission's verdict, in terms of the policies' meaning. */
  lemma {:induction false} AdmissionVerdictExact(q: Query, policies: seq<Policy>)
    requires !q.scaleOnly
    ensures Evaluated(q, policies).violations == [] <==>
      forall i :: 0 <= i < |policies| && Enforced(q, policies[i]) ==> Satisfied(q.spec, policies[i])
  {
    hide Evaluated, Satisfied, Violations;
    VerdictExact(q, policies);
    forall i | 0 <= i < |policies| ensures FindingsOf(q, policies[i]) == [] <==> Satisfied(q.spec, policies[i]) {
      SatisfiedExact(q.spec, policies[i]);
    }
  }

  /** The count the operator would set, or let the HPA set, is within the ceiling. */
  ghost predicate WithinCeiling(spec: WebAppSpec, ceiling: int) {
    if spec.autoscaling.Some? && spec.autoscaling.value.enabled then spec.autoscaling.value.maxReplicas.Some? ==>
        spec.autoscaling.value.maxReplicas.value <= ceiling
    else spec.replicas.Some? ==> spec.replicas.value <= ceiling
  }

  /** The reconciler's verdict bounds exactly the replica fields. */
  lemma {:induction false} ScaleVerdictExact(q: Query, policies: seq<Policy>)
    requires q.scaleOnly
    ensures Evaluated(q, policies).violations == [] <==>
      forall i :: 0 <= i < |policies| && Enforced(q, policies[i]) && policies[i].maxReplicas.Some? ==>
        WithinCeiling(q.spec, policies[i].maxReplicas.value)
  {
    hide Evaluated;
    VerdictExact(q, policies);
    forall i | 0 <= i < |policies|
      ensures FindingsOf(q, policies[i]) == [] <==>
          (policies[i].maxReplicas.Some? ==> WithinCeiling(q.spec, policies[i].maxReplicas.value))
    {
      assert FindingsOf(q, policies[i]) == ReplicaViolations(q.spec, policies[i]);
    }
  }

  /** Whatever admission lets through, the reconciler's scale check passes. */
  lemma {:induction false} AdmittedPassesScale(q: Query, policies: seq<Policy>)
    requires !q.scaleOnly && Evaluated(q, policies).violations == []
    ensures Evaluated(q.(scaleOnly := true), policies).violations == []
  {
    hide Evaluated;
    var s := q.(scaleOnly := true);
    VerdictExact(q, policies);
    VerdictExact(s, policies);
    forall i | 0 <= i < |policies| && Enforced(s, policies[i]) ensures FindingsOf(s, policies[i]) == [] {
      assert Enforced(q, policies[i]);
      FindingsConcat(q.spec, policies[i]);
    }
  }

  /** The scale check reports the findings about replicas and no others. */
  lemma ScaleFindingsExact(q: Query, p: Policy, v: Violation)
    requires q.scaleOnly
    ensures v in FindingsOf(q, p) <==> (v.AutoscalingOverCeiling? || v.ReplicasOverCeiling?) && Violates(q.spec, p, v)
  {
  }

  /** Every finding goes out under its policy's name, in its place. */
  lemma NamedExact(p: Policy, vs: seq<Violation>, k: nat)
    ensures |Named(p, vs)| == |vs| && (k < |vs| ==> Named(p, vs)[k] == Found(p.name, vs[k]))
  {
  }

  lemma FindingsConcat(spec: WebAppSpec, p: Policy)
    ensures ReplicaViolations(spec, p) <= Violations(spec, p)
  {
  }

  /* Conservation. */

  datatype Lane = BlockLane | WarnLane | AuditLane

  function LaneOf(res: Result, lane: Lane): seq<Entry> {
    match lane
    case BlockLane => res.violations
    case WarnLane => res.warnings
    case AuditLane => res.audited
  }

  /** What one policy puts in one list: nothing unless the list is its own. */
  ghost function Share(q: Query, lane: Lane, p: Policy): multiset<Entry> {
    if p.selector.Some? && !q.pf.parses(p.selector.value) then
      if lane == WarnLane then multiset{NotEnforced(p.name)} else multiset{}
    else if p.selector.Some? && !q.pf.selects(p.selector.value, q.nsLabels) then multiset{}
    else
      var mine := match p.enforcement case Enforce => BlockLane case Warn => WarnLane case Audit => AuditLane;
      if lane == mine then multiset(Named(p, FindingsOf(q, p))) else multiset{}
  }

  ghost function Shares(q: Query, lane: Lane, policies: seq<Policy>): multiset<Entry> {
    if policies == [] then multiset{}
    else Shares(q, lane, policies[..|policies| - 1]) + Share(q, lane, policies[|policies| - 1])
  }

  lemma RecordedShare(res: Result, p: Policy, vs: seq<Violation>, lane: Lane)
    ensures multiset(LaneOf(Recorded(res, p, vs), lane)) == multiset(LaneOf(res, lane)) +
      if lane == (match p.enforcement case Enforce => BlockLane case Warn => WarnLane case Audit => AuditLane)
      then multiset(Named(p, vs)) else multiset{}
  {
    hide Named;
  }

  lemma EvaluatedShare(q: Query, policies: seq<Policy>, lane: Lane)
    requires policies != []
    ensures var init, p := policies[..|policies| - 1], policies[|policies| - 1];
      multiset(LaneOf(Evaluated(q, policies), lane)) == multiset(LaneOf(Evaluated(q, init), lane)) + Share(q, lane, p)
  {
    hide FindingsOf, Recorded, Named, Matches;
    var init, p := policies[..|policies| - 1], policies[|policies| - 1];
    var res := Evaluated(q, init);
    MatchesExact(q.pf, p, q.nsLabels);
    match Matches(q.pf, p, q.nsLabels)
    case Miss =>
      assert Evaluated(q, policies) == res && Share(q, lane, p) == multiset{};
    case Unparsable =>
      assert Evaluated(q, policies) == res.(warnings := res.warnings + [NotEnforced(p.name)]);
      assert multiset(res.warnings + [NotEnforced(p.name)]) == multiset(res.warnings) + multiset{NotEnforced(p.name)};
    case Hit =>
      assert Evaluated(q, policies) == Recorded(res, p, FindingsOf(q, p));
      RecordedShare(res, p, FindingsOf(q, p), lane);
  }

  /** Each list holds exactly the shares of its policies: no finding is lost, duplicated or
      misrouted, and each unparsable selector yields one warning. */
  lemma {:induction false} FindingsConserved(q: Query, policies: seq<Policy>, lane: Lane)
    ensures multiset(LaneOf(Evaluated(q, policies), lane)) == Shares(q, lane, policies)
  {
    if policies == [] {
      assert LaneOf(Evaluated(q, policies), lane) == [];
    } else {
      EvaluatedShare(q, policies, lane);
      hide Share, Evaluated;
      FindingsConserved(q, policies[..|policies| - 1], lane);
    }
  }

  lemma {:induction false} SharesConcat(q: Query, lane: Lane, a: seq<Policy>, b: seq<Policy>)
    ensures Shares(q, lane, a + b) == Shares(q, lane, a) + Shares(q, lane, b)
  {
    hide Share;
    if b == [] {
      assert a + b == a;
    } else {
      var init, last := b[..|b| - 1], b[|b| - 1];
      SharesConcat(q, lane, a, init);
      assert (a + b)[..|a + b| - 1] == a + init && (a + b)[|a + b| - 1] == last;
    }
  }

  lemma {:induction false} SharesOne(q: Query, lane: Lane, p: Policy)
    ensures Shares(q, lane, [p]) == Share(q, lane, p)
  {
    hide Share;
    assert [p][..0] == [];
    assert Shares(q, lane, [p]) == Shares(q, lane, []) + Share(q, lane, p);
  }

  lemma MultisetWithout(init: seq<Policy>, l: seq<Policy>, x: Policy, r: seq<Policy>)
    requires multiset(init + [x]) == multiset(l + [x] + r)
    ensures multiset(init) == multiset(l + r)
  {
    var m, n := multiset(init), multiset(l) + multiset(r);
    assert multiset(init + [x]) == m + multiset{x};
    assert multiset(l + [x] + r) == n + multiset{x};
    assert multiset(l + r) == n;
    forall y ensures m[y] == n[y] {
      assert (m + multiset{x})[y] == (n + multiset{x})[y];
    }
  }

  lemma {:induction false} SharesMiddle(q: Query, lane: Lane, l: seq<Policy>, x: Policy, r: seq<Policy>)
    ensures Shares(q, lane, l + [x] + r) == Shares(q, lane, l + r) + Share(q, lane, x)
  {
    hide Share, Shares;
    SharesConcat(q, lane, l + [x], r);
    SharesConcat(q, lane, l, [x]);
    SharesConcat(q, lane, l, r);
    SharesOne(q, lane, x);
  }

  lemma {:induction false} SharesPermuted(q: Query, lane: Lane, a: seq<Policy>, b: seq<Policy>)
    requires multiset(a) == multiset(b)
    ensures Shares(q, lane, a) == Shares(q, lane, b)
  {
    hide Share, Shares;
    if a == [] {
      assert |b| == |multiset(b)| == |multiset(a)| == 0;
    } else {
      var init, x := a[..|a| - 1], a[|a| - 1];
      assert a == init + [x] + [] && init + [] == init && a == init + [x];
      assert x in multiset(b);
      var k :| 0 <= k < |b| && b[k] == x;
      var l, r := b[..k], b[k + 1..];
      assert b == l + [x] + r;
      MultisetWithout(init, l, x, r);
      SharesPermuted(q, lane, init, l + r);
      SharesMiddle(q, lane, l, x, r);
      SharesMiddle(q, lane, init, x, []);
    }
  }

  /** The order in which policies are listed never changes what is reported, only its order. */
  lemma {:induction false} OrderIrrelevant(q: Query, a: seq<Policy>, b: seq<Policy>)
    requires multiset(a) == multiset(b)
    ensures multiset(Evaluated(q, a).violations) == multiset(Evaluated(q, b).violations)
    ensures multiset(Evaluated(q, a).warnings) == multiset(Evaluated(q, b).warnings)
    ensures multiset(Evaluated(q, a).audited) == multiset(Evaluated(q, b).audited)
  {
    hide Evaluated, Shares;
    forall lane: Lane ensures multiset(LaneOf(Evaluated(q, a), lane)) == multiset(LaneOf(Evaluated(q, b), lane)) {
      FindingsConserved(q, a, lane);
      FindingsConserved(q, b, lane);
      SharesPermuted(q, lane, a, b);
    }
    assert LaneOf(Evaluated(q, a), BlockLane) == Evaluated(q, a).violations &&
        LaneOf(Evaluated(q, b), BlockLane) == Evaluated(q, b).violations;
    assert LaneOf(Evaluated(q, a), WarnLane) == Evaluated(q, a).warnings &&
        LaneOf(Evaluated(q, b), WarnLane) == Evaluated(q, b).warnings;
    assert LaneOf(Evaluated(q, a), AuditLane) == Evaluated(q, a).audited &&
        LaneOf(Evaluated(q, b), AuditLane) == Evaluated(q, b).audited;
  }
}
