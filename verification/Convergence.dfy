/** What a successful sync establishes, when it succeeds, and when it never can. */
module Convergence {
  import opened Base
  import opened Api
  import opened Ports
  import opened Builders
  import opened ObjectsExact
  import opened Policies
  import opened Admission
  import opened AdmissionExact
  import opened Conditions
  import opened Cluster
  import opened Pass
  import opened Steps
  import opened Runs
  import opened PolicyExact
  import Gate

  function BuiltOrNone(b: Built<Body>): Option<Body> { if b.Good? then Some(b.value) else None }

  /** The object of each kind the spec asks for, if any. */
  function Desired(pf: Platform, app: Target, kind: Kind): Option<Body> {
    match kind
    case DeploymentKind => Some(BuildDeployment(pf, app.key, app.spec))
    case ServiceKind => Some(BuildService(app.key, app.spec))
    case IngressKind =>
      if !WantsIngress(app.spec) then None
      else BuiltOrNone(BuildIngress(app.key, app.spec))
    case HpaKind =>
      if !AutoscalingOn(app.spec) then None
      else BuiltOrNone(BuildHpa(app.key, app.spec.autoscaling.value))
  }

  /** The kinds the spec asks for. */
  predicate Wanted(app: Target, kind: Kind) {
    match kind
    case IngressKind => app.spec.domain != ""
    case HpaKind => app.spec.autoscaling.Some? && app.spec.autoscaling.value.enabled
    case _ => true
  }

  /** The body is, field by field, what the spec asks for. */
  ghost predicate BodyFor(pf: Platform, app: Target, kind: Kind, b: Body) {
    match kind
    case DeploymentKind => DeploymentFor(pf, app.key, app.spec, b)
    case ServiceKind => ServiceFor(app.key, app.spec, b)
    case IngressKind => IngressFor(app.key, app.spec, b)
    case HpaKind => app.spec.autoscaling.Some? && HpaFor(app.key, app.spec.autoscaling.value, b)
  }

  /** An object asked for is controlled and as built, one not asked for is not controlled. */
  ghost predicate AsDesired(pf: Platform, app: Target, s: Store, kind: Kind) {
    var k := Key(app, kind);
    && (ControlledBy(s, k, app.uid) <==> Wanted(app, kind))
    && (Wanted(app, kind) ==> Desired(pf, app, kind) == Some(s[k].body) && BodyFor(pf, app, kind, s[k].body))
  }

  /** Without autoscaling the count is the one asked for, 1 if none is, and the operator's. */
  ghost predicate CountDesired(app: Target, s: Store) {
    var k := Key(app, DeploymentKind);
    !Wanted(app, HpaKind) ==>
      && k in s && s[k].replicas == (if app.spec.replicas.Some? then app.spec.replicas.value else 1)
      && "webapp-operator" in ReplicaOwners(s[k].managed)
  }

  /** The store holds what the spec asks for, all of it and nothing else. */
  ghost predicate AllDesired(pf: Platform, app: Target, s: Store) {
    (forall kind :: AsDesired(pf, app, s, kind)) && CountDesired(app, s)
  }

  lemma DesiredFor(pf: Platform, app: Target, kind: Kind)
    ensures Desired(pf, app, kind).Some? ==> BodyFor(pf, app, kind, Desired(pf, app, kind).value)
  {
    hide DeploymentFor, ServiceFor, IngressFor, HpaFor, BuildDeployment, BuildService, BuildIngress, BuildHpa;
    match kind
    case DeploymentKind => DeploymentExact(pf, app.key, app.spec);
    case ServiceKind => ServiceExact(app.key, app.spec);
    case IngressKind => IngressExact(app.key, app.spec);
    case HpaKind =>
      if AutoscalingOn(app.spec) {
        HpaExact(app.key, app.spec.autoscaling.value);
      }
  }

  lemma StepDesired(pf: Platform, app: Target, f: Faults, s: Store, kind: Kind)
    requires StepOn(pf, app, f, s, kind).err.None?
    ensures AsDesired(pf, app, StepOn(pf, app, f, s, kind).store, kind)
  {
    hide BuildDeployment, BuildService, BuildIngress, BuildHpa, ApplyReplicas, Sent, BodyFor;
    DesiredFor(pf, app, kind);
  }

  lemma DeploymentStepCount(pf: Platform, app: Target, f: Faults, s: Store)
    requires SyncDeployment(pf, app, f, s).err.None?
    ensures CountDesired(app, SyncDeployment(pf, app, f, s).store)
  {
    hide ReplicaOwners;
    var k := Key(app, DeploymentKind);
    if k in s {
      ApplyReplicasOwners(Replicas(s[k].replicas, s[k].managed), Sent(app, s));
    } else {
      OwnersExact([OUR_CLAIM], FIELD_OWNER);
      assert [OUR_CLAIM][0].Claims();
    }
  }

  lemma DesiredAt(pf: Platform, app: Target, s: Store, t: Store, kind: Kind)
    requires At(s, Key(app, kind)) == At(t, Key(app, kind))
    ensures AsDesired(pf, app, s, kind) <==> AsDesired(pf, app, t, kind)
    ensures kind == DeploymentKind ==> (CountDesired(app, s) <==> CountDesired(app, t))
  {
    hide Desired, ReplicaOwners, BodyFor;
  }

  /** From any store, after any history, a successful sync leaves exactly the objects the spec
      asks for, each with every built field, and the desired count when autoscaling is off. */
  lemma SyncConverges(pf: Platform, c: State, app: Target, f: Faults)
    requires Sync(pf, c, app, f).err.None?
    ensures var t := Sync(pf, c, app, f).store;
      AllDesired(pf, app, t)
  {
    hide SyncDeployment, SyncService, SyncIngress, SyncHpa, SyncWrites, Guard, At, AsDesired, CountDesired;
    var s := c.objs;
    SyncWritesErr(pf, app, f, s);
    forall kind ensures AsDesired(pf, app, Sync(pf, c, app, f).store, kind) {
      SyncWritesAt(pf, app, f, s, kind);
      StepDesired(pf, app, f, s, kind);
      DesiredAt(pf, app, SyncWrites(pf, app, f, s).store, StepOn(pf, app, f, s, kind).store, kind);
    }
    SyncWritesAt(pf, app, f, s, DeploymentKind);
    DeploymentStepCount(pf, app, f, s);
    DesiredAt(pf, app, SyncWrites(pf, app, f, s).store, SyncDeployment(pf, app, f, s).store, DeploymentKind);
  }

  /** Two clusters with nothing in common agree, after a successful sync each, on every field
      the operator applies but the autoscaled count. */
  lemma HistoryIrrelevant(pf: Platform, c: State, d: State, app: Target, f: Faults, g: Faults, kind: Kind)
    requires Sync(pf, c, app, f).err.None? && Sync(pf, d, app, g).err.None?
    ensures var s, t, k := Sync(pf, c, app, f).store, Sync(pf, d, app, g).store, Key(app, kind);
      && (ControlledBy(s, k, app.uid) <==> ControlledBy(t, k, app.uid))
      && (ControlledBy(s, k, app.uid) ==>
            && s[k].body == t[k].body
            && (kind == DeploymentKind && !AutoscalingOn(app.spec) ==> s[k].replicas == t[k].replicas))
  {
    hide Sync, Desired, ReplicaOwners;
    SyncConverges(pf, c, app, f);
    SyncConverges(pf, d, app, g);
    assert AsDesired(pf, app, Sync(pf, c, app, f).store, kind) && AsDesired(pf, app, Sync(pf, d, app, g).store, kind);
  }

  /* When it succeeds. */

  /** The spec can be turned into objects. */
  predicate Buildable(app: Target) {
    && AllPorts(app.spec) != []
    && (WantsIngress(app.spec) ==> BuildIngress(app.key, app.spec).Good?)
    && (AutoscalingOn(app.spec) ==> BuildHpa(app.key, app.spec.autoscaling.value).Good?)
  }

  /** The spec can be turned into objects: it has a port, an Ingress names none or one of its own,
      autoscaling has an upper bound. */
  lemma BuildableExact(app: Target)
    ensures Buildable(app) <==>
      && (exists i, j :: HasPort(app.spec.containers, i, j))
      && (app.spec.domain != "" && app.spec.ingressPortName != "" ==> app.spec.ingressPortName in PortNames(app.spec))
      && (Wanted(app, HpaKind) ==> app.spec.autoscaling.value.maxReplicas.Some?)
  {
    hide AllPorts, PortNames, BuildIngress, BuildHpa;
    PortsExist(app.spec);
    IngressExact(app.key, app.spec);
    var ing := BuildIngress(app.key, app.spec);
    assert ing.Bad? ==> ing == Bad(ing.error) && (ing.error == NoPorts || ing.error == UnknownIngressPort);
    if AutoscalingOn(app.spec) {
      var hpa := BuildHpa(app.key, app.spec.autoscaling.value);
      HpaExact(app.key, app.spec.autoscaling.value);
      assert hpa.Bad? ==> hpa == Bad(hpa.error);
    }
  }

  const NO_FAULTS: Faults := map[]

  lemma IngressStepSucceeds(app: Target, s: Store)
    ensures SyncIngress(app, NO_FAULTS, s).err.None? <==>
      (WantsIngress(app.spec) ==> BuildIngress(app.key, app.spec).Good? && NameFree(app, s, IngressKind))
  {
    hide BuildIngress, AppliedTo;
  }

  lemma HpaStepSucceeds(app: Target, s: Store)
    ensures SyncHpa(app, NO_FAULTS, s).err.None? <==>
      (AutoscalingOn(app.spec) ==> BuildHpa(app.key, app.spec.autoscaling.value).Good? && NameFree(app, s, HpaKind))
  {
    hide BuildHpa, AppliedTo;
  }

  lemma WantedNamesFree(app: Target, s: Store)
    ensures (forall kind :: Wanted(app, kind) ==> NameFree(app, s, kind)) <==>
      && NameFree(app, s, DeploymentKind) && NameFree(app, s, ServiceKind)
      && (WantsIngress(app.spec) ==> NameFree(app, s, IngressKind)) &&
          (AutoscalingOn(app.spec) ==> NameFree(app, s, HpaKind))
  {
    hide NameFree;
    assert Wanted(app, DeploymentKind) && Wanted(app, ServiceKind);
    assert Wanted(app, IngressKind) == WantsIngress(app.spec) && Wanted(app, HpaKind) == AutoscalingOn(app.spec);
    if && NameFree(app, s, DeploymentKind) && NameFree(app, s, ServiceKind)
       && (WantsIngress(app.spec) ==> NameFree(app, s, IngressKind)) &&
           (AutoscalingOn(app.spec) ==> NameFree(app, s, HpaKind))
    {
      forall kind | Wanted(app, kind) ensures NameFree(app, s, kind) {
        match kind
        case DeploymentKind =>
        case ServiceKind =>
        case IngressKind =>
        case HpaKind =>
      }
    }
  }

  /** Either there are no policies, or the namespace exists and every ceiling of a policy that
      blocks there is kept. */
  ghost predicate ScaleAllowed(pf: Platform, c: State, app: Target) {
    c.policies != [] ==>
      && app.key.ns in c.namespaces
      && var q := Query(true, pf, app.spec, c.namespaces[app.key.ns]);
        forall p :: p in c.policies && p.maxReplicas.Some? && Enforced(q, p) ==>
          WithinCeiling(app.spec, p.maxReplicas.value)
  }

  /** The scale check passes exactly when it could read what it needs and that allows the count. */
  lemma ScaleCheckExact(pf: Platform, c: State, app: Target, f: Faults)
    ensures ScaleCheck(pf, c, app, f).None? <==>
      && !Fails(f, ListPolicies) && (c.policies != [] ==> !Fails(f, GetNamespace)) && ScaleAllowed(pf, c, app)
  {
    hide Evaluated, Enforced, WithinCeiling;
    if c.policies != [] && app.key.ns in c.namespaces {
      ScaleVerdictExact(Query(true, pf, app.spec, c.namespaces[app.key.ns]), c.policies);
      assert forall i :: 0 <= i < |c.policies| ==> c.policies[i] in c.policies;
    }
  }

  /** Without failures, a sync succeeds exactly when the scale policies allow it, the spec can be
      built, and every name it needs is free or its own. */
  lemma SyncSucceedsExactly(pf: Platform, c: State, app: Target)
    ensures Sync(pf, c, app, NO_FAULTS).err.None? <==>
      && ScaleAllowed(pf, c, app) && Buildable(app)
      && (forall kind :: Wanted(app, kind) ==> NameFree(app, c.objs, kind))
  {
    ScaleCheckExact(pf, c, app, NO_FAULTS);
    hide ScaleAllowed, SyncWrites, SyncIngress, SyncHpa, ScaleCheck, AppliedTo, BuildIngress, BuildHpa, Hold, Sent,
      Wanted;
    SyncWritesErr(pf, app, NO_FAULTS, c.objs);
    IngressStepSucceeds(app, c.objs);
    HpaStepSucceeds(app, c.objs);
    WantedNamesFree(app, c.objs);
  }

  /* Terminal errors. */

  lemma StepErrors(pf: Platform, app: Target, f: Faults, s: Store, kind: Kind)
    ensures var err := StepOn(pf, app, f, s, kind).err;
      && (err.Some? && Terminal(err.value) ==> !Buildable(app))
      && (err.None? && kind == IngressKind && WantsIngress(app.spec) ==> BuildIngress(app.key, app.spec).Good?)
      && (err.None? && kind == HpaKind && AutoscalingOn(app.spec) ==>
            BuildHpa(app.key, app.spec.autoscaling.value).Good?)
  {
    hide BuildIngress, BuildHpa, AppliedTo, BuildDeployment, BuildService, Sent;
  }

  /** A terminal error means the spec cannot be built; a success that it can. */
  lemma SyncErrors(pf: Platform, c: State, app: Target, f: Faults)
    ensures var err := Sync(pf, c, app, f).err;
      && (err.Some? && Terminal(err.value) ==> !Buildable(app))
      && (err.None? ==> Buildable(app))
  {
    hide SyncWrites, SyncDeployment, SyncService, SyncIngress, SyncHpa, Evaluated, BuildIngress, BuildHpa;
    SyncWritesErr(pf, app, f, c.objs);
    StepErrors(pf, app, f, c.objs, DeploymentKind);
    StepErrors(pf, app, f, c.objs, ServiceKind);
    StepErrors(pf, app, f, c.objs, IngressKind);
    StepErrors(pf, app, f, c.objs, HpaKind);
  }

  const EMPTY := State(map[], map[], [], map[], {})

  /** The empty cluster without policies or failures tells. */
  lemma EmptyTells(pf: Platform, app: Target)
    ensures var err := Sync(pf, EMPTY, app, NO_FAULTS).err;
      if Buildable(app) then err.None? else err.Some? && Terminal(err.value)
  {
    hide SyncWrites, AppliedTo, BuildDeployment, BuildService, BuildIngress, BuildHpa, Hold, Sent;
    SyncWritesErr(pf, app, NO_FAULTS, EMPTY.objs);
  }

  ghost predicate EndsTerminally(pf: Platform, c: State, app: Target, f: Faults) {
    Sync(pf, c, app, f).err.Some? && Terminal(Sync(pf, c, app, f).err.value)
  }

  /** Not requeueing a terminal error is right: it is returned somewhere exactly when the spec
      syncs nowhere, under no policies and no pattern of failures, and the empty cluster decides. */
  lemma TerminalIsExact(pf: Platform, app: Target)
    ensures (exists c, f :: EndsTerminally(pf, c, app, f)) <==> (forall c, f :: Sync(pf, c, app, f).err.Some?)
    ensures (exists c, f :: EndsTerminally(pf, c, app, f)) <==> Sync(pf, EMPTY, app, NO_FAULTS).err.Some?
    ensures (exists c, f :: EndsTerminally(pf, c, app, f)) <==> !Buildable(app)
  {
    hide Sync, Buildable, Terminal;
    forall c, f ensures Sync(pf, c, app, f).err.None? ==> Buildable(app)
      ensures EndsTerminally(pf, c, app, f) ==> !Buildable(app)
    {
      SyncErrors(pf, c, app, f);
    }
    EmptyTells(pf, app);
    assert !Buildable(app) ==> EndsTerminally(pf, EMPTY, app, NO_FAULTS);
  }

  /** Admission rules terminal errors out, in every cluster. */
  lemma AdmittedNeverTerminal(pf: Platform, c: State, app: Target, f: Faults)
    requires SpecErrors(app.spec) == []
    ensures !EndsTerminally(pf, c, app, f)
  {
    hide SpecErrors, Sync, AllPorts, BuildService;
    AdmittedBuildable(app);
    SyncErrors(pf, c, app, f);
  }

  lemma AdmittedBuildable(app: Target)
    requires SpecErrors(app.spec) == []
    ensures Buildable(app)
  {
    hide SpecErrors, BuildHpa, BuildIngress, BuildService, AllPorts;
    AdmittedService(app.key, app.spec);
    AdmittedIngress(app.key, app.spec);
    if AutoscalingOn(app.spec) {
      AdmittedHpa(app.key, app.spec);
    }
  }

  /** No pass gives up silently: one that is not requeued has left every object as desired and
      reported the generation it applied, or no cluster could ever sync the spec. */
  lemma DoneMeansDone(pf: Platform, c: State, key: NsName, f: Faults, now: nat)
    requires WellKeyed(c) && key in c.apps && !c.apps[key].deleting
    requires Reconciled(pf, c, key, f, now).result == Done
    ensures var app, d := AimOf(c.apps[key]), Reconciled(pf, c, key, f, now).state;
      || !Buildable(app)
      || (AllDesired(pf, app, d.objs)
          && key in d.apps && d.apps[key].status.observedGeneration == d.apps[key].generation)
  {
    hide Sync, AllDesired, Buildable, FailureConditions, DeploymentConditions, NoDeploymentConditions;
    var app := AimOf(c.apps[key]);
    SyncErrors(pf, c, app, f);
    if FINALIZER !in c.apps[key].finalizers {
      SyncSame(pf, c, WithApp(c, Finalizing(c.apps[key])), app, f);
    }
    if Sync(pf, c, app, f).err.None? {
      SyncConverges(pf, c, app, f);
    }
  }

  /** A pass waits for the world only when a policy or a foreign object stands in the way. */
  lemma RetryMeansBlocked(pf: Platform, c: State, key: NsName, f: Faults, now: nat)
    requires WellKeyed(c) && key in c.apps
    ensures Reconciled(pf, c, key, f, now).result == Retry ==>
      && !c.apps[key].deleting
      && var err := Sync(pf, c, AimOf(c.apps[key]), f).err;
        err.Some? && ((err.value.PolicyViolation? && err.value.findings != [])
                   || (err.value.NotAdoptable? && !NameFree(AimOf(c.apps[key]), c.objs, err.value.kind)))
    ensures f == NO_FAULTS && !c.apps[key].deleting ==>
      var result, err := Reconciled(pf, c, key, f, now).result, Sync(pf, c, AimOf(c.apps[key]), f).err;
      && (result == Retry <==> err.Some? && (err.value.PolicyViolation? || err.value.NotAdoptable?))
      && (result == Done <==> err.None? || EndsTerminally(pf, c, AimOf(c.apps[key]), f))
  {
    hide Sync, FailureConditions, DeploymentConditions, NoDeploymentConditions, Teardown;
    var app := AimOf(c.apps[key]);
    BlockedBy(pf, c, app, f);
    if FINALIZER !in c.apps[key].finalizers {
      SyncSame(pf, c, WithApp(c, Finalizing(c.apps[key])), app, f);
    }
  }

  lemma AdoptionError(pf: Platform, app: Target, f: Faults, s: Store, kind: Kind)
    ensures var err := StepOn(pf, app, f, s, kind).err;
      && (err.Some? ==> !err.value.PolicyViolation?)
      && (err.Some? && err.value.NotAdoptable? ==> err.value.kind == kind && !NameFree(app, s, kind))
  {
    hide AppliedTo, BuildDeployment, BuildService, BuildIngress, BuildHpa, Sent;
  }

  lemma BlockedBy(pf: Platform, c: State, app: Target, f: Faults)
    ensures var err := Sync(pf, c, app, f).err;
      err.Some? ==>
        && (err.value.PolicyViolation? ==> err.value.findings != [])
        && (err.value.NotAdoptable? ==> !NameFree(app, c.objs, err.value.kind))
  {
    hide SyncWrites, SyncDeployment, SyncService, SyncIngress, SyncHpa, Evaluated, NameFree;
    SyncWritesErr(pf, app, f, c.objs);
    AdoptionError(pf, app, f, c.objs, DeploymentKind);
    AdoptionError(pf, app, f, c.objs, ServiceKind);
    AdoptionError(pf, app, f, c.objs, IngressKind);
    AdoptionError(pf, app, f, c.objs, HpaKind);
    GuardAdoption(app, f, c.objs, DeploymentKind);
    GuardAdoption(app, f, c.objs, ServiceKind);
  }

  lemma GuardAdoption(app: Target, f: Faults, s: Store, kind: Kind)
    ensures Adoptable(app, f, s, kind) == Some(NotAdoptable(kind)) ==> !NameFree(app, s, kind)
  {
  }

  /* From admission to a settled WebApp. */

  /** What the validator reads in this cluster. */
  function SurroundingsIn(c: State, ns: string): Gate.Surroundings {
    Gate.Listed(c.policies, if ns in c.namespaces then Some(c.namespaces[ns]) else None)
  }

  lemma AdmittedPassesCheck(pf: Platform, c: State, app: Target)
    requires Gate.Validated(pf, app.spec, SurroundingsIn(c, app.key.ns)) == Gate.Admitted
    ensures SpecErrors(app.spec) == [] && ScaleAllowed(pf, c, app)
  {
    ScaleCheckExact(pf, c, app, NO_FAULTS);
    hide ScaleAllowed;
    hide SpecErrors, Evaluated;
    if c.policies != [] {
      AdmittedPassesScale(Query(false, pf, app.spec, c.namespaces[app.key.ns]), c.policies);
    }
  }

  /** The pipeline holds together: a spec admitted under a cluster's policies settles there in one
      undisturbed pass, provided every name it needs is free. */
  lemma AdmittedSettles(pf: Platform, c: State, key: NsName, now: nat)
    requires WellKeyed(c) && key in c.apps && !c.apps[key].deleting
    requires Gate.Validated(pf, c.apps[key].spec, SurroundingsIn(c, key.ns)) == Gate.Admitted
    requires forall kind :: Wanted(AimOf(c.apps[key]), kind) ==> NameFree(AimOf(c.apps[key]), c.objs, kind)
    ensures Sync(pf, c, AimOf(c.apps[key]), NO_FAULTS).err.None?
    ensures var o := Reconciled(pf, c, key, NO_FAULTS, now);
      && o.result == Done && key in o.state.apps
      && AllDesired(pf, AimOf(c.apps[key]), o.state.objs)
      && o.state.apps[key].status.observedGeneration == o.state.apps[key].generation
  {
    hide SpecErrors, Evaluated, Sync, AllDesired, Buildable, ScaleAllowed, Wanted, NameFree, Reconciled, EndsTerminally;
    var app := AimOf(c.apps[key]);
    AdmittedPassesCheck(pf, c, app);
    AdmittedBuildable(app);
    SyncSucceedsExactly(pf, c, app);
    RetryMeansBlocked(pf, c, key, NO_FAULTS, now);
    DoneMeansDone(pf, c, key, NO_FAULTS, now);
  }

  /* What is checked before the first write. */

  lemma FirstWrite(pf: Platform, app: Target, f: Faults, s: Store)
    ensures SyncWrites(pf, app, f, s).writes != []
  {
    hide SyncService, SyncIngress, SyncHpa, AppliedTo, BuildDeployment, Sent;
  }

  /** A sync that fails has written nothing exactly when a scale policy stopped it, the spec
      declares no port, or the Deployment's or the Service's name is taken. An Ingress or HPA
      that is taken or cannot be built is found only after both were applied. */
  lemma FailsCleanExactly(pf: Platform, c: State, app: Target)
    requires Sync(pf, c, app, NO_FAULTS).err.Some?
    ensures Sync(pf, c, app, NO_FAULTS).writes == [] <==>
      || !ScaleAllowed(pf, c, app) || AllPorts(app.spec) == []
      || !NameFree(app, c.objs, DeploymentKind) || !NameFree(app, c.objs, ServiceKind)
  {
    ScaleCheckExact(pf, c, app, NO_FAULTS);
    hide ScaleAllowed, ScaleCheck, SyncWrites;
    FirstWrite(pf, app, NO_FAULTS, c.objs);
  }

  /** For instance: a foreign Ingress does not keep the pass from writing. */
  lemma ForeignIngressFoundLate(pf: Platform, app: Target, taken: Object)
    requires Buildable(app) && WantsIngress(app.spec) && taken.controller != Some(app.uid)
    ensures var c := EMPTY.(objs := map[Key(app, IngressKind) := taken]);
      && Sync(pf, c, app, NO_FAULTS).err == Some(NotAdoptable(IngressKind))
      && Sync(pf, c, app, NO_FAULTS).writes != []
  {
    hide AppliedTo, BuildDeployment, BuildService, BuildIngress, BuildHpa, Hold, Sent;
  }
}
