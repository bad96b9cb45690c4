/** The update path of the webhooks: mutation, then validation unless it may be skipped.
    The controller's own finalizer updates travel this path. */
module Gate {
  import opened Base
  import opened Api
  import opened Admission
  import opened AdmissionExact
  import opened Defaulting
  import opened Policies
  import opened PolicyExact

  /** What the validator can read of the cluster: it has no reader, its list of policies fails, or
      it gets the policies and perhaps the namespace. */
  datatype Surroundings = NoReader | Unlisted | Listed(policies: seq<Policy>, namespace: Option<Labels>)

  datatype Verdict =
    | Admitted | Invalid(errors: seq<FieldError>, findings: seq<Entry>)
    | PoliciesUnreadable | NamespaceUnreadable

  function Decided(errors: seq<FieldError>, findings: seq<Entry>): Verdict {
    if errors == [] && findings == [] then Admitted else Invalid(errors, findings)
  }

  ghost function Validated(pf: Platform, spec: WebAppSpec, s: Surroundings): Verdict {
    match s
    case NoReader => Decided(SpecErrors(spec), [])
    case Unlisted => PoliciesUnreadable
    case Listed(policies, namespace) =>
      if policies == [] then Decided(SpecErrors(spec), [])
      else if namespace.None? then NamespaceUnreadable
      else Decided(SpecErrors(spec), Evaluated(Query(false, pf, spec, namespace.value), policies).violations)
  }

  ghost function ValidatedUpdate(pf: Platform, before: WebAppSpec, after: WebAppSpec, deleting: bool,
        s: Surroundings): Verdict {
    if deleting || before == after then Admitted else Validated(pf, after, s)
  }

  method Validate(pf: Platform, spec: WebAppSpec, s: Surroundings) returns (v: Verdict)
    ensures v == Validated(pf, spec, s)
  {
    hide SpecErrors, Evaluated;
    var errors := ValidateSpec(spec);
    if s.NoReader? {
      return Decided(errors, []);
    }
    if s.Unlisted? {
      return PoliciesUnreadable;
    }
    if |s.policies| == 0 {
      return Decided(errors, []);
    }
    if s.namespace.None? {
      return NamespaceUnreadable;
    }
    var res := Evaluate(Query(false, pf, spec, s.namespace.value), s.policies);
    v := Decided(errors, res.violations);
  }

  /** Every blocking policy is satisfied, and the policies and the namespace they match on could
      be read. */
  ghost predicate PoliciesSatisfied(pf: Platform, spec: WebAppSpec, s: Surroundings) {
    match s
    case NoReader => true
    case Unlisted => false
    case Listed(policies, namespace) =>
      policies == [] ||
      (namespace.Some? &&
       forall p :: p in policies && Enforced(Query(false, pf, spec, namespace.value), p) ==> Satisfied(spec, p))
  }

  /** The webhook admits exactly the admissible specs that satisfy every blocking policy. */
  lemma AdmittedExact(pf: Platform, spec: WebAppSpec, s: Surroundings)
    ensures Validated(pf, spec, s) == Admitted <==> Admissible(spec) && PoliciesSatisfied(pf, spec, s)
  {
    hide SpecErrors, Evaluated, Admissible, Satisfied;
    AdmissionIsExact(spec);
    if s.Listed? && s.policies != [] && s.namespace.Some? {
      var q := Query(false, pf, spec, s.namespace.value);
      AdmissionVerdictExact(q, s.policies);
      assert (forall i :: 0 <= i < |s.policies| && Enforced(q, s.policies[i]) ==> Satisfied(spec, s.policies[i])) <==>
        (forall p :: p in s.policies && Enforced(q, p) ==> Satisfied(spec, p));
    }
  }

  /** What a refusal says: every fault of the spec, and every finding of a blocking policy. */
  lemma {:induction false} RefusalExact(pf: Platform, spec: WebAppSpec, s: Surroundings)
    ensures var v := Validated(pf, spec, s);
      && (v == PoliciesUnreadable <==> s == Unlisted)
      && (v == NamespaceUnreadable <==> s.Listed? && s.policies != [] && s.namespace.None?)
      && (v.Invalid? ==>
            && (forall e :: e in v.errors <==> Fault(spec, e))
            && multiset(v.findings) ==
                if s.Listed? && s.policies != [] && s.namespace.Some? then
                  Shares(Query(false, pf, spec, s.namespace.value), BlockLane, s.policies)
                else multiset{})
  {
    hide SpecErrors, Evaluated, Fault, Shares;
    forall e ensures e in SpecErrors(spec) <==> Fault(spec, e) {
      ErrorsExact(spec, e);
    }
    if s.Listed? && s.policies != [] && s.namespace.Some? {
      FindingsConserved(Query(false, pf, spec, s.namespace.value), s.policies, BlockLane);
    }
  }

  /** An update is let through exactly if the object is being deleted, its spec stands, or the new
      spec could be created as it is. */
  lemma UpdateExact(pf: Platform, before: WebAppSpec, after: WebAppSpec, deleting: bool, s: Surroundings)
    ensures ValidatedUpdate(pf, before, after, deleting, s) == Admitted <==>
      deleting || before == after || (Admissible(after) && PoliciesSatisfied(pf, after, s))
  {
    hide Validated, Admissible, PoliciesSatisfied;
    AdmittedExact(pf, after, s);
  }

  method ValidateUpdate(pf: Platform, before: WebAppSpec, after: WebAppSpec, deleting: bool, s: Surroundings)
    returns (v: Verdict)
    ensures v == ValidatedUpdate(pf, before, after, deleting, s)
  {
    if deleting || before == after {
      return Admitted;
    }
    v := Validate(pf, after, s);
  }

  /** An update of metadata alone: the mutating webhook still rewrites the stored spec. */
  ghost function MetadataUpdate(pf: Platform, stored: WebAppSpec, deleting: bool, s: Surroundings): Verdict {
    ValidatedUpdate(pf, stored, Defaulted(stored), deleting, s)
  }

  function Locked(spec: WebAppSpec): Policy {
    Policy("locked", None, None, [EffectiveAccount(spec) + "-"], [], None, None, Enforce)
  }

  lemma LockedRejects(pf: Platform, spec: WebAppSpec)
    ensures Validated(pf, spec, Listed([Locked(spec)], Some(map[]))) != Admitted
  {
    hide Evaluated, SpecErrors, Violations;
    var p := Locked(spec);
    var q := Query(false, pf, spec, map[]);
    var account := EffectiveAccount(spec);
    assert |account + "-"| != |account|;
    assert Violates(spec, p, ServiceAccountForbidden);
    SatisfiedExact(spec, p);
    AdmissionVerdictExact(q, [p]);
    assert Enforced(q, [p][0]);
  }

  /** The controller's finalizer updates are admitted under every policy set exactly when the
      object is being deleted or its stored spec is already defaulted; then they are admitted even
      if the policies cannot be read. */
  lemma FinalizerUpdatesAdmitted(pf: Platform, stored: WebAppSpec, deleting: bool)
    ensures
      (forall policies, labels :: MetadataUpdate(pf, stored, deleting, Listed(policies, Some(labels))) == Admitted) <==>
      deleting || Defaulted(stored) == stored
    ensures deleting || Defaulted(stored) == stored ==> forall s :: MetadataUpdate(pf, stored, deleting, s) == Admitted
  {
    hide Validated, Defaulted;
    if !deleting && Defaulted(stored) != stored {
      LockedRejects(pf, Defaulted(stored));
      var policies := [Locked(Defaulted(stored))];
      assert MetadataUpdate(pf, stored, deleting, Listed(policies, Some(map[]))) != Admitted;
    }
  }

  /** Once an update has gone through the webhook, later ones of metadata alone always do. */
  lemma StoredThroughWebhook(pf: Platform, spec: WebAppSpec, s: Surroundings)
    ensures MetadataUpdate(pf, Defaulted(spec), false, s) == Admitted
  {
    DefaultIdempotent(spec);
  }

  /** Defaulting never moves the verdict of the policies, finding by finding. */
  lemma DefaultKeepsFindings(spec: WebAppSpec, p: Policy, v: Violation)
    ensures Violates(Defaulted(spec), p, v) <==> Violates(spec, p, v)
  {
    assert |Defaulted(spec).containers| == |spec.containers|;
  }

  /** Admission decides the same for a spec and its defaulted form. */
  lemma DefaultKeepsVerdict(pf: Platform, spec: WebAppSpec, s: Surroundings)
    ensures Validated(pf, Defaulted(spec), s) == Admitted <==> Validated(pf, spec, s) == Admitted
  {
    hide Evaluated, SpecErrors, Violates, Defaulted;
    DefaultKeepsValidation(spec);
    if s.Listed? && s.policies != [] && s.namespace.Some? {
      var q := Query(false, pf, spec, s.namespace.value);
      var d := q.(spec := Defaulted(spec));
      AdmissionVerdictExact(q, s.policies);
      AdmissionVerdictExact(d, s.policies);
      forall i | 0 <= i < |s.policies|
        ensures Satisfied(Defaulted(spec), s.policies[i]) <==> Satisfied(spec, s.policies[i])
      {
        SatisfiedDefault(spec, s.policies[i]);
      }
      assert forall p :: Enforced(d, p) <==> Enforced(q, p);
    }
  }

  lemma SatisfiedDefault(spec: WebAppSpec, p: Policy)
    ensures Satisfied(Defaulted(spec), p) <==> Satisfied(spec, p)
  {
    hide Violates, Defaulted;
    forall v ensures Violates(Defaulted(spec), p, v) <==> Violates(spec, p, v) {
      DefaultKeepsFindings(spec, p, v);
    }
  }
}
