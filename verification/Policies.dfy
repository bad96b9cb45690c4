/** internal/policy: what a WebAppPolicy forbids, and where its findings go. */
module Policies {
  import opened Base
  import opened Text
  import opened Api

  datatype Violation =
    | AutoscalingOverCeiling | ReplicasOverCeiling
    | ServiceAccountForbidden
    | AnnotationForbidden(key: string, prefix: string)
    | ScratchLimitRequired(i: nat, j: nat) | ScratchOverCap(i: nat, j: nat)
    | RequestsRequired(i: nat) | LimitsRequired(i: nat)
    | RequestMissing(i: nat, name: string) | RequestBelowFloor(i: nat, name: string)
    | LimitMissing(i: nat, name: string) | LimitOverCeiling(i: nat, name: string)

  /** One line of a result: a violation under its policy's name, or a policy that is not enforced. */
  datatype Entry = Found(policy: string, violation: Violation) | NotEnforced(policy: string)

  datatype Result = Result(violations: seq<Entry>, warnings: seq<Entry>, audited: seq<Entry>)

  datatype Match = Hit | Miss | Unparsable

  function Matches(pf: Platform, p: Policy, nsLabels: Labels): Match {
    if p.selector.None? then Hit
    else if !pf.parses(p.selector.value) then Unparsable
    else if pf.selects(p.selector.value, nsLabels) then Hit
    else Miss
  }

  /* Violations, in the order of the walk. */

  function ReplicaViolations(spec: WebAppSpec, p: Policy): seq<Violation> {
    if p.maxReplicas.None? then []
    else if AutoscalingOn(spec) then
      var max := spec.autoscaling.value.maxReplicas;
      if max.Some? && max.value > p.maxReplicas.value then [AutoscalingOverCeiling] else []
    else if spec.replicas.Some? && spec.replicas.value > p.maxReplicas.value then [ReplicasOverCeiling]
    else []
  }

  function EffectiveAccount(spec: WebAppSpec): string {
    if spec.serviceAccountName == "" then "default" else spec.serviceAccountName
  }

  function AccountViolations(spec: WebAppSpec, p: Policy): seq<Violation> {
    if p.allowedServiceAccounts != [] &&
        EffectiveAccount(spec) !in p.allowedServiceAccounts then [ServiceAccountForbidden] else []
  }

  function PrefixViolations(keys: seq<string>, prefix: string): seq<Violation> {
    if keys == [] then []
    else
      PrefixViolations(keys[..|keys| - 1], prefix) +
      if prefix <= keys[|keys| - 1] then [AnnotationForbidden(keys[|keys| - 1], prefix)] else []
  }

  function AnnotationViolations(keys: seq<string>, prefixes: seq<string>): seq<Violation> {
    if prefixes == [] then []
    else AnnotationViolations(keys, prefixes[..|prefixes| - 1]) + PrefixViolations(keys, prefixes[|prefixes| - 1])
  }

  function ScratchViolation(v: ScratchVolume, cap: int, i: nat, j: nat): seq<Violation> {
    if v.sizeLimit.None? then [ScratchLimitRequired(i, j)]
    else if v.sizeLimit.value > cap then [ScratchOverCap(i, j)]
    else []
  }

  function ContainerScratchViolations(c: Container, cap: int, i: nat, n: nat): seq<Violation>
    requires n <= |c.scratch|
  {
    if n == 0 then []
    else ContainerScratchViolations(c, cap, i, n - 1) + ScratchViolation(c.scratch[n - 1], cap, i, n - 1)
  }

  function ScratchViolations(cs: seq<Container>, cap: int, n: nat): seq<Violation>
    requires n <= |cs|
  {
    if n == 0 then []
    else ScratchViolations(cs, cap, n - 1) + ContainerScratchViolations(cs[n - 1], cap, n - 1, |cs[n - 1].scratch|)
  }

  function FloorViolation(requests: ResourceList, name: string, floor: int, i: nat): seq<Violation> {
    if name !in requests then [RequestMissing(i, name)]
    else if requests[name] < floor then [RequestBelowFloor(i, name)]
    else []
  }

  function FloorViolations(requests: ResourceList, floors: ResourceList, names: seq<string>, i: nat): seq<Violation>
    requires Elements(names) <= floors.Keys
  {
    if names == [] then []
    else
      var (init, last) := (names[..|names| - 1], names[|names| - 1]);
      assert last in Elements(names) && Elements(init) <= Elements(names);
      FloorViolations(requests, floors, init, i) + FloorViolation(requests, last, floors[last], i)
  }

  function CeilingViolation(limits: ResourceList, name: string, ceiling: int, i: nat): seq<Violation> {
    if name !in limits then [LimitMissing(i, name)]
    else if limits[name] > ceiling then [LimitOverCeiling(i, name)]
    else []
  }

  function CeilingViolations(limits: ResourceList, ceilings: ResourceList, names: seq<string>, i: nat): seq<Violation>
    requires Elements(names) <= ceilings.Keys
  {
    if names == [] then []
    else
      var (init, last) := (names[..|names| - 1], names[|names| - 1]);
      assert last in Elements(names) && Elements(init) <= Elements(names);
      CeilingViolations(limits, ceilings, init, i) + CeilingViolation(limits, last, ceilings[last], i)
  }

  ghost function SortedNames(l: ResourceList): (names: seq<string>)
    ensures Elements(names) == l.Keys
  {
    SortedKeysExact(l.Keys);
    SortedKeys(l.Keys)
  }

  ghost function ResourceViolations(c: Container, rp: ResourcePolicy, i: nat): seq<Violation> {
    (if rp.requireRequests && c.requests == map[] then [RequestsRequired(i)] else []) +
    (if rp.requireLimits && c.limits == map[] then [LimitsRequired(i)] else []) +
    FloorViolations(c.requests, rp.minRequests, SortedNames(rp.minRequests), i) +
    CeilingViolations(c.limits, rp.maxLimits, SortedNames(rp.maxLimits), i)
  }

  ghost function ContainersResourceViolations(cs: seq<Container>, rp: ResourcePolicy, n: nat): seq<Violation>
    requires n <= |cs|
  {
    if n == 0 then []
    else ContainersResourceViolations(cs, rp, n - 1) + ResourceViolations(cs[n - 1], rp, n - 1)
  }

  ghost function Violations(spec: WebAppSpec, p: Policy): seq<Violation> {
    ReplicaViolations(spec, p) +
    AccountViolations(spec, p) +
    AnnotationViolations(SortedKeys(spec.podAnnotations.Keys), p.forbiddenPrefixes) +
    (if p.maxScratchSize.Some? then ScratchViolations(spec.containers, p.maxScratchSize.value, |spec.containers|)
     else []) +
    (if p.resources.Some? then ContainersResourceViolations(spec.containers, p.resources.value, |spec.containers|)
     else [])
  }

  /* Routing. */

  /** What an evaluation looks at; scaleOnly selects the reconciler's subset of the rules. */
  datatype Query = Query(scaleOnly: bool, pf: Platform, spec: WebAppSpec, nsLabels: Labels)

  ghost function FindingsOf(q: Query, p: Policy): seq<Violation> {
    if q.scaleOnly then ReplicaViolations(q.spec, p) else Violations(q.spec, p)
  }

  function Named(p: Policy, vs: seq<Violation>): seq<Entry> {
    seq(|vs|, k requires 0 <= k < |vs| => Found(p.name, vs[k]))
  }

  function Recorded(res: Result, p: Policy, vs: seq<Violation>): Result {
    match p.enforcement
    case Warn => res.(warnings := res.warnings + Named(p, vs))
    case Audit => res.(audited := res.audited + Named(p, vs))
    case Enforce => res.(violations := res.violations + Named(p, vs))
  }

  ghost function Evaluated(q: Query, policies: seq<Policy>): Result {
    if policies == [] then Result([], [], [])
    else
      var p := policies[|policies| - 1];
      var res := Evaluated(q, policies[..|policies| - 1]);
      match Matches(q.pf, p, q.nsLabels)
      case Unparsable => res.(warnings := res.warnings + [NotEnforced(p.name)])
      case Miss => res
      case Hit => Recorded(res, p, FindingsOf(q, p))
  }

  /* The loops. */

  method FindReplicaViolations(spec: WebAppSpec, p: Policy) returns (errs: seq<Violation>)
    ensures errs == ReplicaViolations(spec, p)
  {
    errs := [];
    if p.maxReplicas.Some? {
      var ceiling := p.maxReplicas.value;
      if spec.autoscaling.Some? && spec.autoscaling.value.enabled {
        var max := spec.autoscaling.value.maxReplicas;
        if max.Some? && max.value > ceiling {
          errs := errs + [AutoscalingOverCeiling];
        }
      } else if spec.replicas.Some? && spec.replicas.value > ceiling {
        errs := errs + [ReplicasOverCeiling];
      }
    }
  }

  method FindAnnotationViolations(annotations: Labels, prefixes: seq<string>) returns (errs: seq<Violation>)
    ensures errs == AnnotationViolations(SortedKeys(annotations.Keys), prefixes)
  {
    errs := [];
    for m := 0 to |prefixes|
      invariant errs == AnnotationViolations(SortedKeys(annotations.Keys), prefixes[..m])
    {
      var keys := SortKeys(annotations.Keys);
      var found := [];
      for k := 0 to |keys|
        invariant found == PrefixViolations(keys[..k], prefixes[m])
      {
        assert keys[..k + 1][..k] == keys[..k];
        found := found + if prefixes[m] <= keys[k] then [AnnotationForbidden(keys[k], prefixes[m])] else [];
      }
      assert keys[..|keys|] == keys;
      assert prefixes[..m + 1][..m] == prefixes[..m];
      errs := errs + found;
    }
    assert prefixes[..|prefixes|] == prefixes;
  }

  method FindScratchViolations(cs: seq<Container>, cap: int) returns (errs: seq<Violation>)
    ensures errs == ScratchViolations(cs, cap, |cs|)
  {
    errs := [];
    for i := 0 to |cs|
      invariant errs == ScratchViolations(cs, cap, i)
    {
      var c := cs[i];
      var found := [];
      for j := 0 to |c.scratch|
        invariant found == ContainerScratchViolations(c, cap, i, j)
      {
        var v := c.scratch[j];
        var one: seq<Violation> := [];
        if v.sizeLimit.None? {
          one := [ScratchLimitRequired(i, j)];
        } else if v.sizeLimit.value > cap {
          one := [ScratchOverCap(i, j)];
        }
        found := found + one;
      }
      errs := errs + found;
    }
  }

  lemma PrefixWithin(names: seq<string>, k: nat, keys: set<string>)
    requires Elements(names) == keys && k < |names|
    ensures Elements(names[..k]) <= keys && Elements(names[..k + 1]) <= keys && names[k] in keys
    ensures names[..k + 1][..k] == names[..k]
  {
  }

  method FindFloorViolations(requests: ResourceList, floors: ResourceList, i: nat) returns (errs: seq<Violation>)
    ensures errs == FloorViolations(requests, floors, SortedNames(floors), i)
  {
    hide FloorViolation, SortedKeys;
    var names := SortKeys(floors.Keys);
    SortedKeysExact(floors.Keys);
    errs := [];
    for k := 0 to |names|
      invariant Elements(names[..k]) <= floors.Keys
      invariant errs == FloorViolations(requests, floors, names[..k], i)
    {
      PrefixWithin(names, k, floors.Keys);
      var one := FloorViolation(requests, names[k], floors[names[k]], i);
      errs := errs + one;
    }
    assert names[..|names|] == names;
  }

  method FindCeilingViolations(limits: ResourceList, ceilings: ResourceList, i: nat) returns (errs: seq<Violation>)
    ensures errs == CeilingViolations(limits, ceilings, SortedNames(ceilings), i)
  {
    hide CeilingViolation, SortedKeys;
    var names := SortKeys(ceilings.Keys);
    SortedKeysExact(ceilings.Keys);
    errs := [];
    for k := 0 to |names|
      invariant Elements(names[..k]) <= ceilings.Keys
      invariant errs == CeilingViolations(limits, ceilings, names[..k], i)
    {
      PrefixWithin(names, k, ceilings.Keys);
      var one := CeilingViolation(limits, names[k], ceilings[names[k]], i);
      errs := errs + one;
    }
    assert names[..|names|] == names;
  }

  method FindViolations(spec: WebAppSpec, p: Policy) returns (errs: seq<Violation>)
    ensures errs == Violations(spec, p)
  {
    hide ReplicaViolations, AnnotationViolations, ScratchViolations, FloorViolations, CeilingViolations;
    errs := FindReplicaViolations(spec, p);
    var sa := spec.serviceAccountName;
    if sa == "" {
      sa := "default";
    }
    var forbidden := |p.allowedServiceAccounts| > 0 && sa !in p.allowedServiceAccounts;
    errs := errs + if forbidden then [ServiceAccountForbidden] else [];
    var found := FindAnnotationViolations(spec.podAnnotations, p.forbiddenPrefixes);
    errs := errs + found;
    found := [];
    if p.maxScratchSize.Some? {
      found := FindScratchViolations(spec.containers, p.maxScratchSize.value);
    }
    errs := errs + found;
    found := [];
    if p.resources.Some? {
      found := FindResourceViolations(spec.containers, p.resources.value);
    }
    errs := errs + found;
  }

  method FindResourceViolations(cs: seq<Container>, rp: ResourcePolicy) returns (errs: seq<Violation>)
    ensures errs == ContainersResourceViolations(cs, rp, |cs|)
  {
    hide FloorViolations, CeilingViolations;
    errs := [];
    for i := 0 to |cs|
      invariant errs == ContainersResourceViolations(cs, rp, i)
    {
      var c := cs[i];
      var found := if rp.requireRequests && |c.requests| == 0 then [RequestsRequired(i)] else [];
      found := found + if rp.requireLimits && |c.limits| == 0 then [LimitsRequired(i)] else [];
      var more := FindFloorViolations(c.requests, rp.minRequests, i);
      found := found + more;
      more := FindCeilingViolations(c.limits, rp.maxLimits, i);
      found := found + more;
      errs := errs + found;
    }
  }

  /** The result under construction. */
  class Collector {
    var violations: seq<Entry>
    var warnings: seq<Entry>
    var audited: seq<Entry>

    constructor ()
      ensures Contents() == Result([], [], [])
    {
      violations, warnings, audited := [], [], [];
    }

    function Contents(): Result
      reads this
    {
      Result(violations, warnings, audited)
    }

    method Record(p: Policy, errs: seq<Violation>)
      modifies this
      ensures Contents() == Recorded(old(Contents()), p, errs)
    {
      if |errs| == 0 {
        return;
      }
      match p.enforcement
      case Warn =>
        for k := 0 to |errs|
          invariant Contents() == old(Contents()).(warnings := old(warnings) + Named(p, errs)[..k])
        {
          warnings := warnings + [Found(p.name, errs[k])];
        }
      case Audit =>
        for k := 0 to |errs|
          invariant Contents() == old(Contents()).(audited := old(audited) + Named(p, errs)[..k])
        {
          audited := audited + [Found(p.name, errs[k])];
        }
      case Enforce =>
        violations := violations + Named(p, errs);
    }
  }

  method Evaluate(q: Query, policies: seq<Policy>) returns (res: Result)
    ensures res == Evaluated(q, policies)
  {
    var box := new Collector();
    for i := 0 to |policies|
      invariant fresh(box)
      invariant box.Contents() == Evaluated(q, policies[..i])
    {
      var p := policies[i];
      assert policies[..i + 1][..i] == policies[..i];
      var ok := Matches(q.pf, p, q.nsLabels);
      if ok == Unparsable {
        box.warnings := box.warnings + [NotEnforced(p.name)];
        continue;
      }
      if ok == Miss {
        continue;
      }
      var errs;
      if q.scaleOnly {
        errs := FindReplicaViolations(q.spec, p);
      } else {
        errs := FindViolations(q.spec, p);
      }
      box.Record(p, errs);
    }
    assert policies[..|policies|] == policies;
    res := box.Contents();
  }
}
