/** The self-check of a policy, and whether it decides that some WebApp can satisfy it. */
module PolicyValidation {
  import opened Base
  import opened Text
  import opened Api
  import opened Ports
  import opened Builders
  import opened Admission
  import opened AdmissionExact
  import opened Policies
  import opened PolicyExact

  datatype EntryList = AllowedAccounts | ForbiddenPrefixes

  datatype PolicyError = SelectorInvalid | EntryBlank(list: EntryList, i: nat) | FloorAboveCeiling(name: string)

  /** unicode.IsSpace */
  predicate IsSpace(c: char) {
    var n := c as int;
    || 9 <= n <= 13 || n == 32 || n == 0x85 || n == 0xA0 || n == 0x1680 || 0x2000 <= n <= 0x200A
    || n == 0x2028 || n == 0x2029 || n == 0x202F || n == 0x205F || n == 0x3000
  }

  /** strings.TrimSpace leaves nothing. */
  predicate Blank(s: string) { forall i :: 0 <= i < |s| ==> IsSpace(s[i]) }

  /** One error for each blank entry among the first n. */
  function BlankEntries(list: EntryList, ss: seq<string>, n: nat): seq<PolicyError>
    requires n <= |ss|
  {
    if n == 0 then [] else BlankEntries(list, ss, n - 1) + if Blank(ss[n - 1]) then [EntryBlank(list, n - 1)] else []
  }

  function BoundErrors(rp: ResourcePolicy, names: seq<string>): seq<PolicyError>
    requires Elements(names) <= rp.minRequests.Keys
  {
    if names == [] then []
    else
      var (init, last) := (names[..|names| - 1], names[|names| - 1]);
      assert last in Elements(names) && Elements(init) <= Elements(names);
      BoundErrors(rp, init) +
      if last in rp.maxLimits && rp.minRequests[last] > rp.maxLimits[last] then [FloorAboveCeiling(last)] else []
  }

  ghost function PolicyErrors(pf: Platform, p: Policy): seq<PolicyError> {
    (if p.selector.Some? && !pf.parses(p.selector.value) then [SelectorInvalid] else []) +
    BlankEntries(AllowedAccounts, p.allowedServiceAccounts, |p.allowedServiceAccounts|) +
    BlankEntries(ForbiddenPrefixes, p.forbiddenPrefixes, |p.forbiddenPrefixes|) +
    (if p.resources.Some? then BoundErrors(p.resources.value, SortedNames(p.resources.value.minRequests)) else [])
  }

  method FindBoundErrors(rp: ResourcePolicy) returns (errs: seq<PolicyError>)
    ensures errs == BoundErrors(rp, SortedNames(rp.minRequests))
  {
    var names := SortKeys(rp.minRequests.Keys);
    assert names == SortedNames(rp.minRequests);
    errs := [];
    for k := 0 to |names|
      invariant Elements(names[..k]) <= rp.minRequests.Keys
      invariant errs == BoundErrors(rp, names[..k])
    {
      PrefixWithin(names, k, rp.minRequests.Keys);
      var floor := rp.minRequests[names[k]];
      if names[k] !in rp.maxLimits {
        continue;
      }
      if floor > rp.maxLimits[names[k]] {
        errs := errs + [FloorAboveCeiling(names[k])];
      }
    }
    assert names[..|names|] == names;
  }

  method FindBlankEntries(list: EntryList, ss: seq<string>) returns (errs: seq<PolicyError>)
    ensures errs == BlankEntries(list, ss, |ss|)
  {
    errs := [];
    for i := 0 to |ss|
      invariant errs == BlankEntries(list, ss, i)
    {
      errs := errs + if Blank(ss[i]) then [EntryBlank(list, i)] else [];
    }
  }

  method Validate(pf: Platform, p: Policy) returns (errs: seq<PolicyError>)
    ensures errs == PolicyErrors(pf, p)
  {
    errs := if p.selector.Some? && !pf.parses(p.selector.value) then [SelectorInvalid] else [];
    var found := FindBlankEntries(AllowedAccounts, p.allowedServiceAccounts);
    errs := errs + found;
    found := FindBlankEntries(ForbiddenPrefixes, p.forbiddenPrefixes);
    errs := errs + found;
    found := [];
    if p.resources.Some? {
      found := FindBoundErrors(p.resources.value);
    }
    errs := errs + found;
  }

  /* What the check decides. */

  ghost predicate BoundsAgree(p: Policy) {
    p.resources.Some? ==>
      forall r :: r in p.resources.value.minRequests && r in p.resources.value.maxLimits ==>
        p.resources.value.minRequests[r] <= p.resources.value.maxLimits[r]
  }

  lemma {:induction false} BoundErrorsExact(rp: ResourcePolicy, names: seq<string>)
    requires Elements(names) <= rp.minRequests.Keys
    ensures BoundErrors(rp, names) == [] <==>
      forall r :: r in names && r in rp.minRequests && r in rp.maxLimits ==> rp.minRequests[r] <= rp.maxLimits[r]
  {
    if names != [] {
      var init, last := names[..|names| - 1], names[|names| - 1];
      assert last in Elements(names) && Elements(init) <= Elements(names);
      BoundErrorsExact(rp, init);
      assert names == init + [last];
    }
  }

  /** The code points of Unicode's property White_Space. */
  const WHITE_SPACE: set<int> := {
    9, 10, 11, 12, 13, 32, 133, 160, 5760, 8192, 8193, 8194, 8195, 8196, 8197, 8198, 8199, 8200, 8201, 8202,
    8232, 8233, 8239, 8287, 12288}

  /** Something is left once white space is trimmed off both ends. */
  predicate Entered(s: string) { exists k :: 0 <= k < |s| && s[k] as int !in WHITE_SPACE }

  lemma IsSpaceExact(c: char)
    ensures IsSpace(c) <==> c as int in WHITE_SPACE
  {
  }

  lemma BlankExact(s: string)
    ensures Blank(s) <==> !Entered(s)
  {
    hide IsSpace;
    forall k | 0 <= k < |s| ensures IsSpace(s[k]) <==> s[k] as int in WHITE_SPACE {
      IsSpaceExact(s[k]);
    }
  }

  /** Each error of the self-check, as a fact about the policy alone. */
  ghost predicate PolicyFault(pf: Platform, p: Policy, e: PolicyError) {
    match e
    case SelectorInvalid => p.selector.Some? && !pf.parses(p.selector.value)
    case EntryBlank(list, i) =>
      var entries := if list == AllowedAccounts then p.allowedServiceAccounts else p.forbiddenPrefixes;
      i < |entries| && !Entered(entries[i])
    case FloorAboveCeiling(r) =>
      p.resources.Some? && r in p.resources.value.minRequests && r in p.resources.value.maxLimits &&
      p.resources.value.minRequests[r] > p.resources.value.maxLimits[r]
  }

  lemma {:induction false} BlankEntriesIn(list: EntryList, ss: seq<string>, n: nat, e: PolicyError)
    requires n <= |ss|
    ensures e in BlankEntries(list, ss, n) <==> e.EntryBlank? && e.list == list && e.i < n && !Entered(ss[e.i])
  {
    hide Blank, Entered;
    if n > 0 {
      BlankEntriesIn(list, ss, n - 1, e);
      BlankExact(ss[n - 1]);
    }
  }

  lemma {:induction false} BoundErrorsIn(rp: ResourcePolicy, names: seq<string>, e: PolicyError)
    requires Elements(names) <= rp.minRequests.Keys
    ensures e in BoundErrors(rp, names) <==>
      e.FloorAboveCeiling? && e.name in names && e.name in rp.minRequests && e.name in rp.maxLimits &&
      rp.minRequests[e.name] > rp.maxLimits[e.name]
  {
    if names != [] {
      var init, last := names[..|names| - 1], names[|names| - 1];
      assert last in Elements(names) && Elements(init) <= Elements(names);
      BoundErrorsIn(rp, init, e);
      assert names == init + [last];
    }
  }

  /** The self-check reports an error exactly when the policy commits it. */
  lemma PolicyErrorsExact(pf: Platform, p: Policy, e: PolicyError)
    ensures e in PolicyErrors(pf, p) <==> PolicyFault(pf, p, e)
  {
    hide BlankEntries, BoundErrors, Entered, SortedNames;
    BlankEntriesIn(AllowedAccounts, p.allowedServiceAccounts, |p.allowedServiceAccounts|, e);
    BlankEntriesIn(ForbiddenPrefixes, p.forbiddenPrefixes, |p.forbiddenPrefixes|, e);
    if p.resources.Some? {
      var names := SortedNames(p.resources.value.minRequests);
      BoundErrorsIn(p.resources.value, names, e);
      assert forall r :: r in names <==> r in Elements(names);
    }
  }

  lemma {:induction false} BlankEntriesExact(list: EntryList, ss: seq<string>)
    ensures BlankEntries(list, ss, |ss|) == [] <==> forall i :: 0 <= i < |ss| ==> Entered(ss[i])
  {
    hide BlankEntries, Entered;
    var errs := BlankEntries(list, ss, |ss|);
    if errs == [] {
      forall i | 0 <= i < |ss| ensures Entered(ss[i]) {
        BlankEntriesIn(list, ss, |ss|, EntryBlank(list, i));
      }
    } else {
      BlankEntriesIn(list, ss, |ss|, errs[0]);
    }
  }

  /** A policy is accepted exactly when its selector parses, no entry is blank and no floor
      exceeds its ceiling. */
  lemma ValidateExact(pf: Platform, p: Policy)
    ensures PolicyErrors(pf, p) == [] <==>
      && (p.selector.Some? ==> pf.parses(p.selector.value))
      && (forall i :: 0 <= i < |p.allowedServiceAccounts| ==> Entered(p.allowedServiceAccounts[i]))
      && (forall i :: 0 <= i < |p.forbiddenPrefixes| ==> Entered(p.forbiddenPrefixes[i]))
      && BoundsAgree(p)
  {
    hide Blank, Entered, BoundErrors;
    BlankEntriesExact(AllowedAccounts, p.allowedServiceAccounts);
    BlankEntriesExact(ForbiddenPrefixes, p.forbiddenPrefixes);
    if p.resources.Some? {
      var rp := p.resources.value;
      var names := SortedNames(rp.minRequests);
      BoundErrorsExact(rp, names);
      assert forall r :: r in names <==> r in Elements(names);
    }
  }

  /* Satisfiability. */

  predicate AccountRule(name: string) { name == "" || (|name| <= 253 && SubdomainShape(name)) }

  ghost predicate RequestsWithinLimits(spec: WebAppSpec) {
    forall i, r :: 0 <= i < |spec.containers| && r in spec.containers[i].requests && r in spec.containers[i].limits ==>
      spec.containers[i].requests[r] <= spec.containers[i].limits[r]
  }

  /** What a cluster demands of quantities: none negative, no request above its limit. */
  ghost predicate QuantitiesSound(spec: WebAppSpec) {
    && RequestsWithinLimits(spec)
    && forall i, r :: 0 <= i < |spec.containers| ==>
        && (r in spec.containers[i].requests ==> spec.containers[i].requests[r] >= 0)
        && (r in spec.containers[i].limits ==> spec.containers[i].limits[r] >= 0)
  }

  ghost predicate Deployable(spec: WebAppSpec) {
    SpecErrors(spec) == [] && QuantitiesSound(spec) && AccountRule(spec.serviceAccountName)
  }

  /** Some WebApp that passes validation, with no request above its limit, violates nothing. */
  ghost predicate Satisfiable(p: Policy) {
    exists spec :: SpecErrors(spec) == [] && RequestsWithinLimits(spec) && Satisfied(spec, p)
  }

  /** Some such WebApp can even be deployed: no negative quantity, a legal account name. */
  ghost predicate DeployablySatisfiable(p: Policy) {
    exists spec :: Deployable(spec) && Satisfied(spec, p)
  }

  predicate CeilingsNonNegative(p: Policy) {
    p.resources.Some? ==> forall r :: r in p.resources.value.maxLimits ==> p.resources.value.maxLimits[r] >= 0
  }

  ghost predicate SomeAccountUsable(p: Policy) {
    p.allowedServiceAccounts != [] ==> exists a :: a in p.allowedServiceAccounts && a != "" && AccountRule(a)
  }

  /** The schema minimum on maxReplicas. */
  predicate CeilingRule(p: Policy) { p.maxReplicas.Some? ==> p.maxReplicas.value >= 1 }

  function NonNegative(n: int): int { if n < 0 then 0 else n }

  /** A request at least the floor and at most the ceiling, if they agree. */
  function WitnessRequest(rp: ResourcePolicy, r: string): int {
    if r in rp.maxLimits then rp.maxLimits[r]
    else if r in rp.minRequests then NonNegative(rp.minRequests[r])
    else 0
  }

  function WitnessRequests(rp: ResourcePolicy): ResourceList {
    map r | r in rp.minRequests.Keys + {CPU} :: WitnessRequest(rp, r)
  }

  function WitnessLimits(rp: ResourcePolicy): ResourceList {
    map[CPU := WitnessRequest(rp, CPU)] + rp.maxLimits
  }

  function WitnessContainer(rp: Option<ResourcePolicy>): Container {
    Container("web", "web:1", [Port("http", 80, TCP)], [],
      if rp.Some? then WitnessRequests(rp.value) else map[],
      if rp.Some? then WitnessLimits(rp.value) else map[], Opaque(0))
  }

  /** One container that meets every bound, one replica, no annotations and no scratch space. */
  function Witness(p: Policy, account: string): WebAppSpec {
    WebAppSpec([WitnessContainer(p.resources)], "", None, "", CLUSTER_IP, Some(1), None, None,
      account, None, map[], map[], Opaque(0))
  }

  lemma WitnessPorts(p: Policy, account: string)
    ensures AllPorts(Witness(p, account)) == [Port("http", 80, TCP)]
    ensures PortNames(Witness(p, account)) == ["http"]
  {
    var spec := Witness(p, account);
    var ps := [Port("http", 80, TCP)];
    assert spec.containers[..0] == [];
    assert Declared(spec.containers) == ps;
    KeepsDistinct(ps);
  }

  lemma WitnessAdmitted(p: Policy, account: string)
    ensures SpecErrors(Witness(p, account)) == []
  {
    hide PortNames, AllPorts, SpecErrors, TargetedResources, SubdomainShape;
    var spec := Witness(p, account);
    var cs := spec.containers;
    WitnessPorts(p, account);
    assert LabelShape("web");
    assert ServiceName("http") by {
      assert Lower("http"[0]);
    }
    assert HasPort(cs, 0, 0);
    AdmissionIsExact(spec);
  }

  lemma WitnessQuantities(p: Policy, account: string)
    requires BoundsAgree(p)
    ensures RequestsWithinLimits(Witness(p, account))
    ensures CeilingsNonNegative(p) ==> QuantitiesSound(Witness(p, account))
  {
    if p.resources.Some? {
      var rp := p.resources.value;
      var requests, limits := WitnessRequests(rp), WitnessLimits(rp);
      assert forall r :: r in requests ==> requests[r] == WitnessRequest(rp, r);
    }
  }

  lemma WitnessSatisfies(p: Policy, account: string)
    requires CeilingRule(p) && BoundsAgree(p)
    requires p.allowedServiceAccounts != [] ==> account in p.allowedServiceAccounts && account != ""
    ensures Satisfied(Witness(p, account), p)
  {
    var spec := Witness(p, account);
    if p.resources.Some? {
      var rp := p.resources.value;
      var requests, limits := WitnessRequests(rp), WitnessLimits(rp);
      assert CPU in requests && CPU in limits;
      assert forall r :: r in rp.minRequests ==> r in requests && requests[r] >= rp.minRequests[r];
    }
    forall v ensures !Violates(spec, p, v) {
    }
  }

  ghost predicate SomeAccountNamed(p: Policy) {
    p.allowedServiceAccounts != [] ==> exists a :: a in p.allowedServiceAccounts && a != ""
  }

  /** Some WebApp satisfies the policy exactly when its bounds agree and its account allowlist,
      if any, has an entry that is not empty. */
  lemma SatisfiableExact(p: Policy)
    requires CeilingRule(p)
    ensures Satisfiable(p) <==> BoundsAgree(p) && SomeAccountNamed(p)
  {
    hide SpecErrors, Violates;
    if BoundsAgree(p) && SomeAccountNamed(p) {
      var account := "";
      if p.allowedServiceAccounts != [] {
        account :| account in p.allowedServiceAccounts && account != "";
      }
      WitnessAdmitted(p, account);
      WitnessQuantities(p, account);
      WitnessSatisfies(p, account);
    }
    if spec :| SpecErrors(spec) == [] && RequestsWithinLimits(spec) && Satisfied(spec, p) {
      FirstContainerExists(spec);
      SatisfiedBounds(spec, p);
      SatisfiedAccount(spec, p);
    }
  }

  /** It can be deployed as well exactly when, moreover, no ceiling is negative and that entry is
      an account name the schema admits. */
  lemma DeployablySatisfiableExact(p: Policy)
    requires CeilingRule(p)
    ensures DeployablySatisfiable(p) <==> BoundsAgree(p) && CeilingsNonNegative(p) && SomeAccountUsable(p)
  {
    hide SpecErrors, SubdomainShape, Violates;
    if BoundsAgree(p) && CeilingsNonNegative(p) && SomeAccountUsable(p) {
      var account := "";
      if p.allowedServiceAccounts != [] {
        account :| account in p.allowedServiceAccounts && account != "" && AccountRule(account);
      }
      WitnessAdmitted(p, account);
      WitnessQuantities(p, account);
      WitnessSatisfies(p, account);
      assert Deployable(Witness(p, account));
    }
    if spec :| Deployable(spec) && Satisfied(spec, p) {
      FirstContainerExists(spec);
      SatisfiedBounds(spec, p);
      SatisfiedAccount(spec, p);
    }
  }

  lemma FirstContainerExists(spec: WebAppSpec)
    requires SpecErrors(spec) == []
    ensures spec.containers != []
  {
    NoErrorsPortSet(spec);
  }

  lemma SatisfiedBounds(spec: WebAppSpec, p: Policy)
    requires spec.containers != [] && RequestsWithinLimits(spec) && Satisfied(spec, p)
    ensures BoundsAgree(p)
    ensures QuantitiesSound(spec) ==> CeilingsNonNegative(p)
  {
    if p.resources.Some? {
      var rp, c := p.resources.value, spec.containers[0];
      forall r | r in rp.maxLimits
        ensures (r in rp.minRequests ==> rp.minRequests[r] <= rp.maxLimits[r]) &&
            (QuantitiesSound(spec) ==> 0 <= rp.maxLimits[r])
      {
        assert !Violates(spec, p, LimitMissing(0, r)) && !Violates(spec, p, LimitOverCeiling(0, r));
        assert !Violates(spec, p, RequestMissing(0, r)) && !Violates(spec, p, RequestBelowFloor(0, r));
        assert c.limits[r] <= rp.maxLimits[r];
      }
    }
  }

  lemma SatisfiedAccount(spec: WebAppSpec, p: Policy)
    requires Satisfied(spec, p)
    ensures SomeAccountNamed(p)
    ensures AccountRule(spec.serviceAccountName) ==> SomeAccountUsable(p)
  {
    hide SubdomainShape;
    assert !Violates(spec, p, ServiceAccountForbidden);
    var a := if spec.serviceAccountName == "" then "default" else spec.serviceAccountName;
    if spec.serviceAccountName == "" {
      DefaultAccount();
    }
    if p.allowedServiceAccounts != [] {
      assert a in p.allowedServiceAccounts && a != "";
    }
  }

  lemma DefaultAccount()
    ensures AccountRule("default")
  {
    var s := "default";
    assert forall i :: 0 <= i < |s| ==> Lower(s[i]);
  }

  /** The self-check serves its purpose: a policy it accepts can be satisfied. */
  lemma AcceptedIsSatisfiable(pf: Platform, p: Policy)
    requires CeilingRule(p) && PolicyErrors(pf, p) == []
    ensures Satisfiable(p)
  {
    hide PolicyErrors, Satisfiable, BoundsAgree;
    ValidateExact(pf, p);
    SatisfiableExact(p);
    if p.allowedServiceAccounts != [] {
      var a := p.allowedServiceAccounts[0];
      assert Entered(a);
      assert a in p.allowedServiceAccounts && a != "";
    }
  }

  /** By something deployable it can exactly when its ceilings are non-negative and an allowed
      account is nameable. */
  lemma AcceptedDeployablyExact(pf: Platform, p: Policy)
    requires CeilingRule(p) && PolicyErrors(pf, p) == []
    ensures DeployablySatisfiable(p) <==> CeilingsNonNegative(p) && SomeAccountUsable(p)
  {
    hide PolicyErrors, DeployablySatisfiable, BoundsAgree;
    ValidateExact(pf, p);
    DeployablySatisfiableExact(p);
  }

  /** A floor above its ceiling: every WebApp with a container and no request above its limit
      violates the policy. */
  lemma UnmetBoundsRejectAll(spec: WebAppSpec, p: Policy)
    requires !BoundsAgree(p) && spec.containers != [] && RequestsWithinLimits(spec)
    ensures Violations(spec, p) != []
  {
    hide Violations;
    SatisfiedExact(spec, p);
    if Satisfied(spec, p) {
      SatisfiedBounds(spec, p);
    }
  }

  const NEGATIVE_CEILING :=
    Policy("p", None, Some(ResourcePolicy(map[], map[CPU := -1], false, false)), [], [], None, None, Enforce)

  const UNNAMEABLE_ACCOUNT := Policy("p", None, None, ["Web"], [], None, None, Enforce)

  /** The self-check accepts policies that nothing deployable satisfies: one with a negative
      ceiling, one whose only allowed account is not a legal name. */
  lemma AcceptedYetUndeployable(pf: Platform)
    ensures PolicyErrors(pf, NEGATIVE_CEILING) == [] && !DeployablySatisfiable(NEGATIVE_CEILING)
    ensures PolicyErrors(pf, UNNAMEABLE_ACCOUNT) == [] && !DeployablySatisfiable(UNNAMEABLE_ACCOUNT)
  {
    hide PolicyErrors, DeployablySatisfiable;
    assert !IsSpace("Web"[0]);
    ValidateExact(pf, NEGATIVE_CEILING);
    ValidateExact(pf, UNNAMEABLE_ACCOUNT);
    assert NEGATIVE_CEILING.resources.value.maxLimits[CPU] == -1;
    DeployablySatisfiableExact(NEGATIVE_CEILING);
    assert !Alnum("Web"[0]);
    assert !AccountRule("Web");
    DeployablySatisfiableExact(UNNAMEABLE_ACCOUNT);
  }
}
