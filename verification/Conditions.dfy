/** internal/controller/conditions.go: the status of a WebApp, rewritten in place. */
module Conditions {
  import opened Base
  import opened Api
  import opened Ports
  import opened Policies

  datatype Kind = DeploymentKind | ServiceKind | IngressKind | HpaKind

  /** Every API call of a reconcile pass; each happens at most once in a pass. */
  datatype Call =
    | GetWebApp | AddFinalizer | ListPolicies | GetNamespace | GetForHold
    | GetLive(kind: Kind) | Apply(kind: Kind) | GetOwned(kind: Kind) | Delete(kind: Kind)
    | GetForStatus | PatchStatus | RemoveFinalizer

  datatype SyncError =
    | CallFailed(call: Call) | NamespaceMissing | PolicyViolation(findings: seq<Entry>)
    | NoServicePorts | BuildFailed(kind: Kind, error: BuildError) | NotAdoptable(kind: Kind)

  /** Only an edit of the spec can help: no requeue. */
  predicate Terminal(e: SyncError) { e.NoServicePorts? || e.BuildFailed? }

  /** Only a change outside the WebApp can help: slow requeue. */
  predicate External(e: SyncError) { e.PolicyViolation? || e.NotAdoptable? }

  /* status */

  datatype ConditionStatus = StatusTrue | StatusFalse | StatusUnknown

  /** Copied from the Deployment, the fixed text of the reason, the text for a Deployment that
      does not exist yet, or an error's. */
  datatype Message = Copied(text: string) | Standard | NotCreated | OfError(error: SyncError)

  datatype Condition = Condition(
    kind: string, status: ConditionStatus, reason: string, message: Message,
    observedGeneration: nat, lastTransition: nat)

  datatype WebAppStatus = WebAppStatus(
    observedGeneration: nat,
    replicas: int, readyReplicas: int, availableReplicas: int, updatedReplicas: int,
    selector: Labels, ingressURL: string, conditions: seq<Condition>)

  datatype WebApp = WebApp(
    key: NsName, uid: Uid, generation: nat, deleting: bool, finalizers: set<string>,
    spec: WebAppSpec, status: WebAppStatus)

  /** What the objects are built from: the WebApp without its metadata bookkeeping and status. */
  datatype Target = Target(key: NsName, uid: Uid, spec: WebAppSpec)

  function AimOf(app: WebApp): Target { Target(app.key, app.uid, app.spec) }

  datatype DeploymentCondition =
    DeploymentCondition(kind: string, status: ConditionStatus, reason: string, message: string)

  datatype DeploymentStatus = DeploymentStatus(
    replicas: int, readyReplicas: int, availableReplicas: int, updatedReplicas: int, observedGeneration: int,
    conditions: seq<DeploymentCondition>)

  /** What the conditions are computed from. */
  datatype DeploymentView = DeploymentView(replicas: Option<int>, generation: int, status: DeploymentStatus)

  const AVAILABLE := "Available"
  const PROGRESSING := "Progressing"
  const DEGRADED := "Degraded"
  const READY := "Ready"

  const RECONCILE_FAILED := "ReconcileFailed"
  const ROLLOUT_STALLED := "RolloutStalled"
  const MINIMUM_REPLICAS := "MinimumReplicasAvailable"
  const ROLLING_OUT := "RollingOut"
  const ALL_REPLICAS := "AllReplicasReady"
  const NOT_READY := "ReplicasNotReady"
  const NO_DEPLOYMENT := "DeploymentNotFound"
  const RECONCILED := "Reconciled"
  const ROLLOUT_PENDING := "RolloutPending"
  const SCALED_TO_ZERO := "ScaledToZero"
  const DEADLINE_EXCEEDED := "ProgressDeadlineExceeded"

  /** meta.SetStatusCondition: replace the first entry of the kind or append; the transition
      time moves only with the status. */
  function SetIn(cs: seq<Condition>, c: Condition): seq<Condition> {
    if cs == [] then [c]
    else if cs[0].kind == c.kind then
      [if cs[0].status == c.status then c.(lastTransition := cs[0].lastTransition) else c] + cs[1..]
    else [cs[0]] + SetIn(cs[1..], c)
  }

  function Lookup(cs: seq<Condition>, kind: string): Option<Condition> {
    if cs == [] then None else if cs[0].kind == kind then Some(cs[0]) else Lookup(cs[1..], kind)
  }

  function LookupDeployment(cs: seq<DeploymentCondition>, kind: string): Option<DeploymentCondition> {
    if cs == [] then None else if cs[0].kind == kind then Some(cs[0]) else LookupDeployment(cs[1..], kind)
  }

  function ReasonOr(reason: string, fallback: string): string {
    if reason == "" then fallback else reason
  }

  /** A condition stamped with the WebApp's generation and the current time. */
  datatype Stamp = Stamp(generation: nat, now: nat) {
    function At(kind: string, status: ConditionStatus, reason: string, message: Message): Condition {
      Condition(kind, status, reason, message, generation, now)
    }
  }

  function AvailableFor(t: Stamp, dep: DeploymentView): Condition {
    var c := LookupDeployment(dep.status.conditions, AVAILABLE);
    if c.Some? then t.At(AVAILABLE, c.value.status, ReasonOr(c.value.reason, MINIMUM_REPLICAS), Copied(c.value.message))
    else t.At(AVAILABLE, StatusUnknown, NO_DEPLOYMENT, Standard)
  }

  function ProgressingFor(t: Stamp, dep: DeploymentView): Condition {
    var c := LookupDeployment(dep.status.conditions, PROGRESSING);
    if c.Some? then t.At(PROGRESSING, c.value.status, ReasonOr(c.value.reason, ROLLING_OUT), Copied(c.value.message))
    else t.At(PROGRESSING, StatusUnknown, NO_DEPLOYMENT, Standard)
  }

  predicate Stalled(dep: DeploymentView) {
    var c := LookupDeployment(dep.status.conditions, PROGRESSING);
    c.Some? && c.value.status == StatusFalse && c.value.reason == DEADLINE_EXCEEDED
  }

  function DegradedFor(t: Stamp, dep: DeploymentView): Condition {
    if Stalled(dep) then
      t.At(DEGRADED, StatusTrue, ROLLOUT_STALLED,
          Copied(LookupDeployment(dep.status.conditions, PROGRESSING).value.message))
    else t.At(DEGRADED, StatusFalse, RECONCILED, Standard)
  }

  function ReadyFor(t: Stamp, dep: DeploymentView, stalled: bool): Condition {
    var desired := dep.replicas.GetOr(1);
    if stalled then t.At(READY, StatusFalse, ROLLOUT_STALLED, Standard)
    else if dep.status.observedGeneration < dep.generation then
      t.At(READY, StatusFalse, ROLLOUT_PENDING, Standard)
    else if desired == 0 then t.At(READY, StatusFalse, SCALED_TO_ZERO, Standard)
    else if dep.status.updatedReplicas == desired && dep.status.readyReplicas == desired then
      t.At(READY, StatusTrue, ALL_REPLICAS, Standard)
    else t.At(READY, StatusFalse, NOT_READY, Standard)
  }

  /** The four conditions, set in turn. */
  function SetFour(cs: seq<Condition>, a: Condition, p: Condition, d: Condition, r: Condition): seq<Condition> {
    SetIn(SetIn(SetIn(SetIn(cs, a), p), d), r)
  }

  function DeploymentConditions(cs: seq<Condition>, t: Stamp, dep: DeploymentView): seq<Condition> {
    SetFour(cs, AvailableFor(t, dep), ProgressingFor(t, dep), DegradedFor(t, dep), ReadyFor(t, dep, Stalled(dep)))
  }

  function NoDeploymentConditions(cs: seq<Condition>, t: Stamp): seq<Condition> {
    SetFour(cs,
      t.At(AVAILABLE, StatusUnknown, NO_DEPLOYMENT, NotCreated),
      t.At(PROGRESSING, StatusUnknown, NO_DEPLOYMENT, NotCreated),
      t.At(DEGRADED, StatusFalse, RECONCILED, Standard),
      t.At(READY, StatusFalse, NOT_READY, NotCreated))
  }

  function FillIn(cs: seq<Condition>, t: Stamp, kind: string): seq<Condition> {
    if Lookup(cs, kind).None? then SetIn(cs, t.At(kind, StatusUnknown, NO_DEPLOYMENT, NotCreated)) else cs
  }

  function FailureOf(t: Stamp, kind: string, status: ConditionStatus, e: SyncError): Condition {
    Condition(kind, status, RECONCILE_FAILED, OfError(e), t.generation, t.now)
  }

  function FailureConditions(cs: seq<Condition>, t: Stamp, e: SyncError): seq<Condition> {
    var failed := SetIn(SetIn(cs, FailureOf(t, DEGRADED, StatusTrue, e)), FailureOf(t, READY, StatusFalse, e));
    FillIn(FillIn(failed, t, AVAILABLE), t, PROGRESSING)
  }

  method FindDeploymentCondition(cs: seq<DeploymentCondition>, kind: string) returns (r: Option<DeploymentCondition>)
    ensures r == LookupDeployment(cs, kind)
  {
    for i := 0 to |cs|
      invariant LookupDeployment(cs, kind) == LookupDeployment(cs[i..], kind)
    {
      if cs[i].kind == kind {
        return Some(cs[i]);
      }
      assert cs[i..][1..] == cs[i + 1..];
    }
    return None;
  }

  /** The WebApp a pass works on: its own copy, written back only by the API calls. */
  class LiveApp {
    const key: NsName
    const uid: Uid
    const generation: nat
    const deleting: bool
    const spec: WebAppSpec
    var finalizers: set<string>
    var status: WebAppStatus

    constructor (app: WebApp)
      ensures Value() == app
    {
      key, uid, generation, deleting, spec := app.key, app.uid, app.generation, app.deleting, app.spec;
      finalizers, status := app.finalizers, app.status;
    }

    function Value(): WebApp
      reads this
    {
      WebApp(key, uid, generation, deleting, finalizers, spec, status)
    }

    function Aim(): Target { Target(key, uid, spec) }

    method SetCondition(kind: string, condStatus: ConditionStatus, reason: string, message: Message, now: nat)
      modifies this`status
      ensures status == old(status).(conditions :=
        SetIn(old(status).conditions, Condition(kind, condStatus, reason, message, generation, now)))
    {
      status := status.(conditions := SetIn(status.conditions,
          Condition(kind, condStatus, reason, message, generation, now)));
    }

    method ApplyDeploymentConditions(dep: DeploymentView, now: nat)
      modifies this`status
      ensures status ==
        old(status).(conditions := DeploymentConditions(old(status).conditions, Stamp(generation, now), dep))
    {
      hide SetIn;
      var avail := FindDeploymentCondition(dep.status.conditions, AVAILABLE);
      if avail.Some? {
        SetCondition(AVAILABLE, avail.value.status, ReasonOr(avail.value.reason, MINIMUM_REPLICAS),
            Copied(avail.value.message), now);
      } else {
        SetCondition(AVAILABLE, StatusUnknown, NO_DEPLOYMENT, Standard, now);
      }
      var prog := FindDeploymentCondition(dep.status.conditions, PROGRESSING);
      var stalled := prog.Some? && prog.value.status == StatusFalse && prog.value.reason == DEADLINE_EXCEEDED;
      if prog.Some? {
        SetCondition(PROGRESSING, prog.value.status, ReasonOr(prog.value.reason, ROLLING_OUT),
            Copied(prog.value.message), now);
      } else {
        SetCondition(PROGRESSING, StatusUnknown, NO_DEPLOYMENT, Standard, now);
      }
      if stalled {
        SetCondition(DEGRADED, StatusTrue, ROLLOUT_STALLED, Copied(prog.value.message), now);
      } else {
        SetCondition(DEGRADED, StatusFalse, RECONCILED, Standard, now);
      }
      SetReady(dep, stalled, now);
    }

    method SetReady(dep: DeploymentView, stalled: bool, now: nat)
      modifies this`status
      ensures status ==
        old(status).(conditions := SetIn(old(status).conditions, ReadyFor(Stamp(generation, now), dep, stalled)))
    {
      hide SetIn;
      var desired := 1;
      if dep.replicas.Some? {
        desired := dep.replicas.value;
      }
      if stalled {
        SetCondition(READY, StatusFalse, ROLLOUT_STALLED, Standard, now);
      } else if dep.status.observedGeneration < dep.generation {
        SetCondition(READY, StatusFalse, ROLLOUT_PENDING, Standard, now);
      } else if desired == 0 {
        SetCondition(READY, StatusFalse, SCALED_TO_ZERO, Standard, now);
      } else if dep.status.updatedReplicas == desired && dep.status.readyReplicas == desired {
        SetCondition(READY, StatusTrue, ALL_REPLICAS, Standard, now);
      } else {
        SetCondition(READY, StatusFalse, NOT_READY, Standard, now);
      }
    }

    method ApplyNoDeploymentConditions(now: nat)
      modifies this`status
      ensures status ==
        old(status).(conditions := NoDeploymentConditions(old(status).conditions, Stamp(generation, now)))
    {
      hide SetIn;
      SetCondition(AVAILABLE, StatusUnknown, NO_DEPLOYMENT, NotCreated, now);
      SetCondition(PROGRESSING, StatusUnknown, NO_DEPLOYMENT, NotCreated, now);
      SetCondition(DEGRADED, StatusFalse, RECONCILED, Standard, now);
      SetCondition(READY, StatusFalse, NOT_READY, NotCreated, now);
    }

    method ApplyReconcileFailure(e: SyncError, now: nat)
      modifies this`status
      ensures status == old(status).(conditions := FailureConditions(old(status).conditions, Stamp(generation, now), e))
    {
      hide SetIn, Lookup;
      SetCondition(DEGRADED, StatusTrue, RECONCILE_FAILED, OfError(e), now);
      SetCondition(READY, StatusFalse, RECONCILE_FAILED, OfError(e), now);
      FillCondition(AVAILABLE, now);
      FillCondition(PROGRESSING, now);
    }

    method FillCondition(kind: string, now: nat)
      modifies this`status
      ensures status == old(status).(conditions := FillIn(old(status).conditions, Stamp(generation, now), kind))
    {
      hide SetIn, Lookup;
      if Lookup(status.conditions, kind).None? {
        SetCondition(kind, StatusUnknown, NO_DEPLOYMENT, NotCreated, now);
      }
    }
  }

  /* What the conditions keep. */

  /** The stored condition is c, up to when its status last moved. */
  predicate Same(a: Option<Condition>, c: Condition) {
    a.Some? && a.value.(lastTransition := c.lastTransition) == c
  }

  /** Since when the condition has its status: since now, unless it had that status before. */
  predicate Since(was: Option<Condition>, got: Condition, now: nat) {
    got.lastTransition == if was.Some? && was.value.status == got.status then was.value.lastTransition else now
  }

  lemma {:induction false} LookupAfterSet(cs: seq<Condition>, c: Condition, kind: string)
    ensures kind != c.kind ==> Lookup(SetIn(cs, c), kind) == Lookup(cs, kind)
    ensures var got := Lookup(SetIn(cs, c), kind);
      kind == c.kind ==> Same(got, c) && Since(Lookup(cs, kind), got.value, c.lastTransition)
  {
    if cs != [] && cs[0].kind != c.kind {
      LookupAfterSet(cs[1..], c, kind);
    }
  }

  function KindsOf(cs: seq<Condition>): seq<string> {
    if cs == [] then [] else [cs[0].kind] + KindsOf(cs[1..])
  }

  lemma {:induction false} KindsAfterSet(cs: seq<Condition>, c: Condition)
    ensures KindsOf(SetIn(cs, c)) == if c.kind in KindsOf(cs) then KindsOf(cs) else KindsOf(cs) + [c.kind]
  {
    if cs != [] && cs[0].kind != c.kind {
      KindsAfterSet(cs[1..], c);
    }
  }

  lemma {:induction false} LookupExact(cs: seq<Condition>, kind: string)
    ensures Lookup(cs, kind).Some? <==> kind in KindsOf(cs)
  {
    if cs != [] && cs[0].kind != kind {
      LookupExact(cs[1..], kind);
    }
  }

  /** Setting a condition that already stands leaves the list, clocks included, untouched. */
  lemma {:induction false} SetStanding(cs: seq<Condition>, c: Condition)
    requires Same(Lookup(cs, c.kind), c)
    ensures SetIn(cs, c) == cs
  {
    if cs[0].kind == c.kind {
      assert cs == [cs[0]] + cs[1..];
    } else {
      SetStanding(cs[1..], c);
      assert cs == [cs[0]] + cs[1..];
    }
  }

  lemma {:induction false} SetMakesStanding(cs: seq<Condition>, c: Condition, d: Condition)
    ensures Same(Lookup(SetIn(cs, c), c.kind), c)
    ensures d.kind != c.kind && Same(Lookup(cs, d.kind), d) ==> Same(Lookup(SetIn(cs, c), d.kind), d)
  {
    hide Lookup, SetIn;
    LookupAfterSet(cs, c, c.kind);
    LookupAfterSet(cs, c, d.kind);
  }

  predicate OperatorKind(kind: string) { kind == AVAILABLE || kind == PROGRESSING || kind == DEGRADED || kind == READY }

  /** What every stored condition list satisfies: empty before the first write, then exactly
      the four kinds once each, with reasons, and never Degraded and Ready at once. */
  ghost predicate SoundConditions(cs: seq<Condition>) {
    && Distinct(KindsOf(cs))
    && (cs == [] || (
          && (forall kind :: OperatorKind(kind) <==> kind in KindsOf(cs))
          && (forall kind :: OperatorKind(kind) ==> Lookup(cs, kind).Some? && Lookup(cs, kind).value.reason != "")
          && (Lookup(cs, DEGRADED).value.status == StatusTrue ==> Lookup(cs, READY).value.status == StatusFalse)))
  }

  /** Partial soundness while the four are being set: the kinds of done have been written. */
  ghost predicate Rising(cs: seq<Condition>, done: set<string>) {
    && Distinct(KindsOf(cs))
    && (forall kind :: kind in KindsOf(cs) ==> OperatorKind(kind))
    && (forall kind :: kind in done ==> Lookup(cs, kind).Some?)
    && (forall kind :: OperatorKind(kind) && Lookup(cs, kind).Some? ==> Lookup(cs, kind).value.reason != "")
  }

  lemma SoundRises(cs: seq<Condition>)
    requires SoundConditions(cs)
    ensures Rising(cs, {})
  {
    if cs == [] {
      forall kind ensures Lookup(cs, kind).None? { LookupExact(cs, kind); }
    }
  }

  lemma {:induction false} RiseBySet(cs: seq<Condition>, done: set<string>, c: Condition)
    requires Rising(cs, done) && OperatorKind(c.kind) && c.reason != ""
    ensures Rising(SetIn(cs, c), done + {c.kind})
  {
    hide SetIn, Lookup, KindsOf;
    KindsAfterSet(cs, c);
    forall kind ensures kind != c.kind ==> Lookup(SetIn(cs, c), kind) == Lookup(cs, kind) {
      LookupAfterSet(cs, c, kind);
    }
    LookupAfterSet(cs, c, c.kind);
  }

  lemma RiseByFill(cs: seq<Condition>, done: set<string>, t: Stamp, kind: string)
    requires Rising(cs, done) && OperatorKind(kind)
    ensures Rising(FillIn(cs, t, kind), done + {kind})
  {
    hide SetIn, Lookup, KindsOf;
    if Lookup(cs, kind).None? {
      RiseBySet(cs, done, t.At(kind, StatusUnknown, NO_DEPLOYMENT, NotCreated));
    }
  }

  lemma {:induction false} RisenIsSound(cs: seq<Condition>)
    requires Rising(cs, {AVAILABLE, PROGRESSING, DEGRADED, READY})
    requires Lookup(cs, DEGRADED).value.status == StatusTrue ==> Lookup(cs, READY).value.status == StatusFalse
    ensures SoundConditions(cs)
  {
    hide Lookup, KindsOf;
    forall kind ensures OperatorKind(kind) <==> kind in KindsOf(cs) {
      LookupExact(cs, kind);
    }
  }

  predicate FourKinds(a: Condition, p: Condition, d: Condition, r: Condition) {
    a.kind == AVAILABLE && p.kind == PROGRESSING && d.kind == DEGRADED && r.kind == READY
  }

  lemma SetFourSound(cs: seq<Condition>, a: Condition, p: Condition, d: Condition, r: Condition)
    requires SoundConditions(cs) && FourKinds(a, p, d, r)
    requires a.reason != "" && p.reason != "" && d.reason != "" && r.reason != ""
    requires d.status == StatusTrue ==> r.status == StatusFalse
    ensures SoundConditions(SetFour(cs, a, p, d, r))
  {
    hide SetIn, Lookup, Rising, SoundConditions;
    var c1 := SetIn(cs, a);
    var c2 := SetIn(c1, p);
    var c3 := SetIn(c2, d);
    SoundRises(cs);
    RiseBySet(cs, {}, a);
    RiseBySet(c1, {} + {AVAILABLE}, p);
    RiseBySet(c2, {} + {AVAILABLE} + {PROGRESSING}, d);
    RiseBySet(c3, {} + {AVAILABLE} + {PROGRESSING} + {DEGRADED}, r);
    assert {} + {AVAILABLE} + {PROGRESSING} + {DEGRADED} + {READY} == {AVAILABLE, PROGRESSING, DEGRADED, READY};
    FourStand(cs, a, p, d, r);
    RisenIsSound(SetFour(cs, a, p, d, r));
  }

  /** Place i holds the first condition of the kind. */
  ghost predicate FirstAt(cs: seq<DeploymentCondition>, kind: string, i: int) {
    0 <= i < |cs| && cs[i].kind == kind && forall j :: 0 <= j < i ==> cs[j].kind != kind
  }

  lemma {:induction false} LookupDeploymentExact(cs: seq<DeploymentCondition>, kind: string, i: int)
    ensures FirstAt(cs, kind, i) ==> LookupDeployment(cs, kind) == Some(cs[i])
    ensures LookupDeployment(cs, kind).None? <==> forall j :: 0 <= j < |cs| ==> cs[j].kind != kind
    ensures LookupDeployment(cs, kind).Some? ==> exists j :: FirstAt(cs, kind, j)
  {
    if cs != [] {
      var rest := cs[1..];
      assert forall j :: 0 <= j < |rest| ==> rest[j] == cs[j + 1];
      LookupDeploymentExact(rest, kind, i - 1);
      if cs[0].kind == kind {
        assert FirstAt(cs, kind, 0);
      } else {
        assert FirstAt(cs, kind, i) ==> FirstAt(rest, kind, i - 1) && cs[i] == rest[i - 1];
        if j :| FirstAt(rest, kind, j) {
          assert FirstAt(cs, kind, j + 1);
        }
      }
    }
  }

  /** The rollout ran out of time. */
  ghost predicate RolloutStalled(dep: DeploymentView) {
    var cs := dep.status.conditions;
    exists i :: FirstAt(cs, "Progressing", i) &&
      cs[i].status == StatusFalse && cs[i].reason == "ProgressDeadlineExceeded"
  }

  lemma StalledExact(dep: DeploymentView)
    ensures Stalled(dep) <==> RolloutStalled(dep)
  {
    hide LookupDeployment;
    var cs := dep.status.conditions;
    forall i ensures FirstAt(cs, PROGRESSING, i) ==> LookupDeployment(cs, PROGRESSING) == Some(cs[i]) {
      LookupDeploymentExact(cs, PROGRESSING, i);
    }
    LookupDeploymentExact(cs, PROGRESSING, 0);
  }

  /** The count the Deployment asks for; 1 where the field is missing. */
  function Count(dep: DeploymentView): int { if dep.replicas.Some? then dep.replicas.value else 1 }

  /** Ready is True exactly for an unstalled Deployment that observed its generation and has
      a non-zero desired count, all of it updated and ready. */
  lemma DeploymentConditionsSound(cs: seq<Condition>, t: Stamp, dep: DeploymentView)
    requires SoundConditions(cs)
    ensures SoundConditions(DeploymentConditions(cs, t, dep))
    ensures Lookup(DeploymentConditions(cs, t, dep), READY).Some?
    ensures Lookup(DeploymentConditions(cs, t, dep), READY).value.status == StatusTrue <==>
      && !RolloutStalled(dep) && dep.status.observedGeneration >= dep.generation && Count(dep) != 0
      && dep.status.updatedReplicas == dep.status.readyReplicas == Count(dep)
  {
    hide SetFour, Lookup, SoundConditions, LookupDeployment, RolloutStalled;
    StalledExact(dep);
    var a, p, d, r := AvailableFor(t, dep), ProgressingFor(t, dep), DegradedFor(t, dep), ReadyFor(t, dep, Stalled(dep));
    SetFourSound(cs, a, p, d, r);
    FourStand(cs, a, p, d, r);
  }

  lemma NoDeploymentConditionsSound(cs: seq<Condition>, t: Stamp)
    requires SoundConditions(cs)
    ensures SoundConditions(NoDeploymentConditions(cs, t))
    ensures Lookup(NoDeploymentConditions(cs, t), READY).Some? &&
        Lookup(NoDeploymentConditions(cs, t), READY).value.status == StatusFalse
  {
    hide SetFour, Lookup, SoundConditions;
    var a, p := t.At(AVAILABLE, StatusUnknown, NO_DEPLOYMENT, NotCreated),
        t.At(PROGRESSING, StatusUnknown, NO_DEPLOYMENT, NotCreated);
    var d, r := t.At(DEGRADED, StatusFalse, RECONCILED, Standard), t.At(READY, StatusFalse, NOT_READY, NotCreated);
    SetFourSound(cs, a, p, d, r);
    FourStand(cs, a, p, d, r);
  }

  lemma {:induction false} LookupAfterFill(cs: seq<Condition>, t: Stamp, kind: string, other: string)
    requires kind != other
    ensures Lookup(FillIn(cs, t, kind), other) == Lookup(cs, other)
  {
    hide SetIn, Lookup;
    LookupAfterSet(cs, t.At(kind, StatusUnknown, NO_DEPLOYMENT, NotCreated), other);
  }

  lemma FailureConditionsSound(cs: seq<Condition>, t: Stamp, e: SyncError)
    requires SoundConditions(cs)
    ensures SoundConditions(FailureConditions(cs, t, e))
    ensures Lookup(FailureConditions(cs, t, e), READY).Some? &&
        Lookup(FailureConditions(cs, t, e), READY).value.status == StatusFalse
    ensures Lookup(FailureConditions(cs, t, e), DEGRADED).Some? &&
        Lookup(FailureConditions(cs, t, e), DEGRADED).value.status == StatusTrue
    ensures Lookup(FailureConditions(cs, t, e), DEGRADED).value.message == OfError(e)
  {
    hide SetIn, Lookup, Rising, SoundConditions, FillIn;
    var d, r := FailureOf(t, DEGRADED, StatusTrue, e), FailureOf(t, READY, StatusFalse, e);
    var c1 := SetIn(cs, d);
    var c2 := SetIn(c1, r);
    var c3 := FillIn(c2, t, AVAILABLE);
    var c4 := FillIn(c3, t, PROGRESSING);
    SoundRises(cs);
    RiseBySet(cs, {}, d);
    RiseBySet(c1, {} + {DEGRADED}, r);
    RiseByFill(c2, {} + {DEGRADED} + {READY}, t, AVAILABLE);
    RiseByFill(c3, {} + {DEGRADED} + {READY} + {AVAILABLE}, t, PROGRESSING);
    assert {} + {DEGRADED} + {READY} + {AVAILABLE} + {PROGRESSING} == {AVAILABLE, PROGRESSING, DEGRADED, READY};
    LookupAfterSet(cs, d, DEGRADED);
    LookupAfterSet(c1, r, DEGRADED);
    LookupAfterSet(c1, r, READY);
    LookupAfterFill(c2, t, AVAILABLE, DEGRADED);
    LookupAfterFill(c2, t, AVAILABLE, READY);
    LookupAfterFill(c3, t, PROGRESSING, DEGRADED);
    LookupAfterFill(c3, t, PROGRESSING, READY);
    RisenIsSound(c4);
  }

  /* Repeating a write with a later clock. */

  lemma FourStand(cs: seq<Condition>, a: Condition, p: Condition, d: Condition, r: Condition)
    requires FourKinds(a, p, d, r)
    ensures var c4 := SetFour(cs, a, p, d, r);
      Same(Lookup(c4, AVAILABLE), a) && Same(Lookup(c4, PROGRESSING), p) && Same(Lookup(c4, DEGRADED), d) &&
          Same(Lookup(c4, READY), r)
  {
    hide SetIn, Lookup, Same;
    var c1 := SetIn(cs, a);
    var c2 := SetIn(c1, p);
    var c3 := SetIn(c2, d);
    SetMakesStanding(cs, a, a);
    SetMakesStanding(c1, p, a);
    SetMakesStanding(c2, d, a);
    SetMakesStanding(c2, d, p);
    SetMakesStanding(c3, r, a);
    SetMakesStanding(c3, r, p);
    SetMakesStanding(c3, r, d);
  }

  /* What is written, condition by condition. */

  /** The condition of the kind reads so, for this generation; its clock moved only with its status. */
  ghost predicate Reads(before: seq<Condition>, after: seq<Condition>, t: Stamp, kind: string,
      status: ConditionStatus, reason: string, message: Message)
  {
    var got := Lookup(after, kind);
    && got.Some? && got.value.status == status && got.value.reason == reason && got.value.message == message
    && got.value.observedGeneration == t.generation && Since(Lookup(before, kind), got.value, t.now)
  }

  lemma {:induction false} SetReads(cs: seq<Condition>, t: Stamp, c: Condition, kind: string)
    requires c.observedGeneration == t.generation && c.lastTransition == t.now
    ensures kind == c.kind ==> Reads(cs, SetIn(cs, c), t, kind, c.status, c.reason, c.message)
    ensures kind != c.kind ==> Lookup(SetIn(cs, c), kind) == Lookup(cs, kind)
  {
    hide SetIn, Lookup;
    LookupAfterSet(cs, c, kind);
  }

  lemma FourRead(cs: seq<Condition>, t: Stamp, a: Condition, p: Condition, d: Condition, r: Condition)
    requires FourKinds(a, p, d, r)
    requires forall c :: c in {a, p, d, r} ==> c.observedGeneration == t.generation && c.lastTransition == t.now
    ensures forall c :: c in {a, p, d, r} ==>
      Reads(cs, SetFour(cs, a, p, d, r), t, c.kind, c.status, c.reason, c.message)
  {
    hide SetIn, Lookup;
    var c1 := SetIn(cs, a);
    var c2 := SetIn(c1, p);
    var c3 := SetIn(c2, d);
    forall c | c in {a, p, d, r} ensures Reads(cs, SetFour(cs, a, p, d, r), t, c.kind, c.status, c.reason, c.message) {
      SetReads(cs, t, a, c.kind);
      SetReads(c1, t, p, c.kind);
      SetReads(c2, t, d, c.kind);
      SetReads(c3, t, r, c.kind);
    }
  }

  /** The Deployment's own condition of the kind, repeated; Unknown if it has none. */
  ghost predicate Mirrors(cs: seq<Condition>, after: seq<Condition>, t: Stamp, own: seq<DeploymentCondition>,
      kind: string, fallback: string)
  {
    && (forall i :: FirstAt(own, kind, i) ==>
          Reads(cs, after, t, kind, own[i].status, if own[i].reason != "" then own[i].reason else fallback,
              Copied(own[i].message)))
    && ((forall i :: 0 <= i < |own| ==> own[i].kind != kind) ==>
          Reads(cs, after, t, kind, StatusUnknown, "DeploymentNotFound", Standard))
  }

  lemma {:induction false} MirrorsExact(cs: seq<Condition>, after: seq<Condition>, t: Stamp,
      own: seq<DeploymentCondition>, kind: string, fallback: string, c: Condition)
    requires Reads(cs, after, t, kind, c.status, c.reason, c.message)
    requires var o := LookupDeployment(own, kind);
      if o.Some? then c.status == o.value.status && c.message == Copied(o.value.message) &&
          c.reason == (if o.value.reason == "" then fallback else o.value.reason)
      else c.status == StatusUnknown && c.reason == "DeploymentNotFound" && c.message == Standard
    ensures Mirrors(cs, after, t, own, kind, fallback)
  {
    hide Reads, LookupDeployment;
    forall i | FirstAt(own, kind, i) ensures LookupDeployment(own, kind) == Some(own[i]) {
      LookupDeploymentExact(own, kind, i);
    }
    LookupDeploymentExact(own, kind, 0);
  }

  /** Why a Deployment is or is not Ready. */
  ghost function ReadyReason(dep: DeploymentView): string {
    if RolloutStalled(dep) then "RolloutStalled"
    else if dep.status.observedGeneration < dep.generation then "RolloutPending"
    else if Count(dep) == 0 then "ScaledToZero"
    else if dep.status.updatedReplicas != Count(dep) || dep.status.readyReplicas != Count(dep) then "ReplicasNotReady"
    else "AllReplicasReady"
  }

  /** Available and Progressing repeat the Deployment's own, Unknown where it has none; Degraded
      is True exactly for a stalled rollout, and repeats what that said; Ready names its reason. */
  lemma {:induction false} ConditionsMirror(cs: seq<Condition>, t: Stamp, dep: DeploymentView)
    ensures var after, own := DeploymentConditions(cs, t, dep), dep.status.conditions;
      && Mirrors(cs, after, t, own, "Available", "MinimumReplicasAvailable")
      && Mirrors(cs, after, t, own, "Progressing", "RollingOut")
      && (if RolloutStalled(dep) then
            forall i :: FirstAt(own, "Progressing", i) ==>
              Reads(cs, after, t, "Degraded", StatusTrue, "RolloutStalled", Copied(own[i].message))
          else Reads(cs, after, t, "Degraded", StatusFalse, "Reconciled", Standard))
      && var reason := ReadyReason(dep);
        Reads(cs, after, t, "Ready", if reason == "AllReplicasReady" then StatusTrue else StatusFalse, reason, Standard)
  {
    hide SetFour, Reads, LookupDeployment, RolloutStalled;
    var after, own := DeploymentConditions(cs, t, dep), dep.status.conditions;
    var a, p, d, r := AvailableFor(t, dep), ProgressingFor(t, dep), DegradedFor(t, dep), ReadyFor(t, dep, Stalled(dep));
    StalledExact(dep);
    FourRead(cs, t, a, p, d, r);
    MirrorsExact(cs, after, t, own, AVAILABLE, MINIMUM_REPLICAS, a);
    MirrorsExact(cs, after, t, own, PROGRESSING, ROLLING_OUT, p);
    hide Mirrors;
    forall i | FirstAt(own, PROGRESSING, i) ensures LookupDeployment(own, PROGRESSING) == Some(own[i]) {
      LookupDeploymentExact(own, PROGRESSING, i);
    }
  }

  /** Before the Deployment exists: nothing known of it, nothing degraded, not Ready. */
  lemma NoDeploymentExact(cs: seq<Condition>, t: Stamp)
    ensures var after := NoDeploymentConditions(cs, t);
      && Reads(cs, after, t, "Available", StatusUnknown, "DeploymentNotFound", NotCreated)
      && Reads(cs, after, t, "Progressing", StatusUnknown, "DeploymentNotFound", NotCreated)
      && Reads(cs, after, t, "Degraded", StatusFalse, "Reconciled", Standard)
      && Reads(cs, after, t, "Ready", StatusFalse, "ReplicasNotReady", NotCreated)
  {
    hide SetFour, Reads;
    FourRead(cs, t,
      t.At(AVAILABLE, StatusUnknown, NO_DEPLOYMENT, NotCreated),
      t.At(PROGRESSING, StatusUnknown, NO_DEPLOYMENT, NotCreated),
      t.At(DEGRADED, StatusFalse, RECONCILED, Standard), t.At(READY, StatusFalse, NOT_READY, NotCreated));
  }

  /** What is known of the Deployment stands, what is not known is said to be unknown. */
  ghost predicate Filled(before: seq<Condition>, after: seq<Condition>, t: Stamp, kind: string) {
    if Lookup(before, kind).Some? then Lookup(after, kind) == Lookup(before, kind)
    else Reads(before, after, t, kind, StatusUnknown, "DeploymentNotFound", NotCreated)
  }

  /** After a failed sync: Degraded and not Ready, both with the error; of the Deployment nothing new
      is claimed. */
  lemma FailureExact(cs: seq<Condition>, t: Stamp, e: SyncError)
    ensures var after := FailureConditions(cs, t, e);
      && Reads(cs, after, t, "Degraded", StatusTrue, "ReconcileFailed", OfError(e))
      && Reads(cs, after, t, "Ready", StatusFalse, "ReconcileFailed", OfError(e))
      && Filled(cs, after, t, "Available") && Filled(cs, after, t, "Progressing")
  {
    hide SetIn, Lookup;
    var d, r := FailureOf(t, DEGRADED, StatusTrue, e), FailureOf(t, READY, StatusFalse, e);
    var c1 := SetIn(cs, d);
    var c2 := SetIn(c1, r);
    var c3 := FillIn(c2, t, AVAILABLE);
    forall kind | OperatorKind(kind)
      ensures kind != DEGRADED ==> Lookup(c1, kind) == Lookup(cs, kind)
      ensures kind != READY ==> Lookup(c2, kind) == Lookup(c1, kind)
    {
      SetReads(cs, t, d, kind);
      SetReads(c1, t, r, kind);
    }
    SetReads(cs, t, d, DEGRADED);
    SetReads(c1, t, r, READY);
    FillReads(c2, t, AVAILABLE);
    FillReads(c3, t, PROGRESSING);
  }

  lemma {:induction false} FillReads(cs: seq<Condition>, t: Stamp, kind: string)
    ensures Filled(cs, FillIn(cs, t, kind), t, kind)
    ensures forall other :: other != kind ==> Lookup(FillIn(cs, t, kind), other) == Lookup(cs, other)
  {
    hide SetIn, Lookup;
    forall other ensures other != kind ==> Lookup(FillIn(cs, t, kind), other) == Lookup(cs, other) {
      SetReads(cs, t, t.At(kind, StatusUnknown, NO_DEPLOYMENT, NotCreated), other);
    }
    SetReads(cs, t, t.At(kind, StatusUnknown, NO_DEPLOYMENT, NotCreated), kind);
  }

  function Later(c: Condition, now: nat): Condition { c.(lastTransition := now) }

  lemma SetFourRepeat(cs: seq<Condition>, a: Condition, p: Condition, d: Condition, r: Condition, now: nat)
    requires FourKinds(a, p, d, r)
    ensures var c4 := SetFour(cs, a, p, d, r);
      SetFour(c4, Later(a, now), Later(p, now), Later(d, now), Later(r, now)) == c4
  {
    hide SetIn, Lookup;
    FourStand(cs, a, p, d, r);
    var c4 := SetFour(cs, a, p, d, r);
    SetStanding(c4, Later(a, now));
    SetStanding(c4, Later(p, now));
    SetStanding(c4, Later(d, now));
    SetStanding(c4, Later(r, now));
  }

  lemma DeploymentConditionsRepeat(cs: seq<Condition>, t: Stamp, later: Stamp, dep: DeploymentView)
    requires later.generation == t.generation
    ensures DeploymentConditions(DeploymentConditions(cs, t, dep), later, dep) == DeploymentConditions(cs, t, dep)
  {
    hide SetFour, LookupDeployment;
    SetFourRepeat(cs, AvailableFor(t, dep), ProgressingFor(t, dep), DegradedFor(t, dep),
        ReadyFor(t, dep, Stalled(dep)), later.now);
    assert Later(AvailableFor(t, dep), later.now) == AvailableFor(later, dep);
    assert Later(ProgressingFor(t, dep), later.now) == ProgressingFor(later, dep);
    assert Later(DegradedFor(t, dep), later.now) == DegradedFor(later, dep);
    assert Later(ReadyFor(t, dep, Stalled(dep)), later.now) == ReadyFor(later, dep, Stalled(dep));
  }

  lemma NoDeploymentConditionsRepeat(cs: seq<Condition>, t: Stamp, later: Stamp)
    requires later.generation == t.generation
    ensures NoDeploymentConditions(NoDeploymentConditions(cs, t), later) == NoDeploymentConditions(cs, t)
  {
    hide SetFour;
    SetFourRepeat(cs,
      t.At(AVAILABLE, StatusUnknown, NO_DEPLOYMENT, NotCreated),
          t.At(PROGRESSING, StatusUnknown, NO_DEPLOYMENT, NotCreated),
      t.At(DEGRADED, StatusFalse, RECONCILED, Standard), t.At(READY, StatusFalse, NOT_READY, NotCreated), later.now);
  }

  lemma {:induction false} FillPresent(cs: seq<Condition>, t: Stamp, later: Stamp, kind: string)
    ensures FillIn(FillIn(cs, t, kind), later, kind) == FillIn(cs, t, kind)
    ensures Lookup(FillIn(cs, t, kind), kind).Some?
  {
    hide SetIn, Lookup;
    LookupAfterSet(cs, t.At(kind, StatusUnknown, NO_DEPLOYMENT, NotCreated), kind);
  }

  lemma FailureConditionsRepeat(cs: seq<Condition>, t: Stamp, later: Stamp, e: SyncError)
    requires later.generation == t.generation
    ensures FailureConditions(FailureConditions(cs, t, e), later, e) == FailureConditions(cs, t, e)
  {
    hide SetIn, Lookup, FillIn;
    var d, r := FailureOf(t, DEGRADED, StatusTrue, e), FailureOf(t, READY, StatusFalse, e);
    var c1 := SetIn(cs, d);
    var c2 := SetIn(c1, r);
    var c3 := FillIn(c2, t, AVAILABLE);
    var c4 := FillIn(c3, t, PROGRESSING);
    SetMakesStanding(cs, d, d);
    SetMakesStanding(c1, r, d);
    LookupAfterFill(c2, t, AVAILABLE, DEGRADED);
    LookupAfterFill(c2, t, AVAILABLE, READY);
    LookupAfterFill(c3, t, PROGRESSING, DEGRADED);
    LookupAfterFill(c3, t, PROGRESSING, READY);
    SetStanding(c4, d.(lastTransition := later.now));
    SetStanding(c4, r.(lastTransition := later.now));
    FillPresent(c2, t, later, AVAILABLE);
    FillPresent(c3, t, later, PROGRESSING);
    LookupAfterFill(c3, t, PROGRESSING, AVAILABLE);
    FillNothing(c4, later, AVAILABLE);
    FillNothing(c4, later, PROGRESSING);
  }

  lemma {:induction false} FillNothing(cs: seq<Condition>, t: Stamp, kind: string)
    requires Lookup(cs, kind).Some?
    ensures FillIn(cs, t, kind) == cs
  {
  }
}
