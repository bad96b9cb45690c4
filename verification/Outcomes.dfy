/** How a sync and a pass end: which of the things in the way is reported, and what is asked for
    before it. */
module Outcomes {
  import opened Base
  import opened Api
  import opened Ports
  import opened Builders
  import opened ObjectsExact
  import opened Policies
  import opened Conditions
  import opened Cluster
  import opened Pass
  import opened Steps
  import opened Deletion
  import opened Runs
  import opened Convergence

  /* What can stand in the way of a sync. */

  /** The sync needs the call, unless something else ends it first. */
  predicate Needed(c: State, app: Target, call: Call) {
    match call
    case ListPolicies => true
    case GetNamespace => c.policies != []
    case GetForHold => Wanted(app, HpaKind)
    case GetLive(kind) => Wanted(app, kind)
    case Apply(kind) => Wanted(app, kind)
    case GetOwned(kind) => !Wanted(app, kind)
    case Delete(kind) => !Wanted(app, kind) && ControlledBy(c.objs, Key(app, kind), app.uid)
    case _ => false
  }

  ghost predicate NoPort(spec: WebAppSpec) { forall i, j :: !HasPort(spec.containers, i, j) }

  /** The error names something that is in the way, whatever else may be. */
  ghost predicate Obstacle(pf: Platform, c: State, app: Target, f: Faults, e: SyncError) {
    match e
    case CallFailed(call) => Fails(f, call) && Needed(c, app, call)
    case NamespaceMissing => c.policies != [] && app.key.ns !in c.namespaces
    case PolicyViolation(findings) =>
      c.policies != [] && app.key.ns in c.namespaces && !ScaleAllowed(pf, c, app) &&
      findings == Evaluated(Query(true, pf, app.spec, c.namespaces[app.key.ns]), c.policies).violations
    case NoServicePorts => NoPort(app.spec)
    case NotAdoptable(kind) =>
      Wanted(app, kind) && Key(app, kind) in c.objs && c.objs[Key(app, kind)].controller != Some(app.uid)
    case BuildFailed(kind, error) =>
      match kind
      case IngressKind =>
        app.spec.domain != "" && error == (if NoPort(app.spec) then NoPorts else UnknownIngressPort)
        && (error == UnknownIngressPort ==>
              app.spec.ingressPortName != "" && app.spec.ingressPortName !in PortNames(app.spec))
      case HpaKind =>
        error == NoMaxReplicas && Wanted(app, HpaKind) && app.spec.autoscaling.value.maxReplicas.None?
      case _ => false
  }

  /** The order in which obstacles are met. */
  function Place(e: SyncError): nat {
    match e
    case CallFailed(ListPolicies) => 0
    case CallFailed(GetNamespace) => 1
    case NamespaceMissing => 2
    case PolicyViolation(_) => 2
    case NoServicePorts => 3
    case CallFailed(GetForHold) => 4
    case CallFailed(GetLive(DeploymentKind)) => 5
    case NotAdoptable(DeploymentKind) => 6
    case CallFailed(GetLive(ServiceKind)) => 7
    case NotAdoptable(ServiceKind) => 8
    case CallFailed(Apply(DeploymentKind)) => 9
    case CallFailed(Apply(ServiceKind)) => 10
    case BuildFailed(IngressKind, _) => 11
    case CallFailed(GetLive(IngressKind)) => 12
    case CallFailed(GetOwned(IngressKind)) => 12
    case NotAdoptable(IngressKind) => 13
    case CallFailed(Apply(IngressKind)) => 14
    case CallFailed(Delete(IngressKind)) => 14
    case BuildFailed(HpaKind, _) => 15
    case CallFailed(GetLive(HpaKind)) => 16
    case CallFailed(GetOwned(HpaKind)) => 16
    case NotAdoptable(HpaKind) => 17
    case CallFailed(Apply(HpaKind)) => 18
    case CallFailed(Delete(HpaKind)) => 18
    case _ => 19
  }

  /** Nothing between the two places is in the way. */
  ghost predicate Clear(pf: Platform, c: State, app: Target, f: Faults, lo: nat, hi: nat) {
    forall e :: Obstacle(pf, c, app, f, e) ==> Place(e) < lo || hi <= Place(e)
  }

  /** err is the first obstacle between the two places, if there is one. */
  ghost predicate First(pf: Platform, c: State, app: Target, f: Faults, err: Option<SyncError>, lo: nat, hi: nat) {
    if err.None? then Clear(pf, c, app, f, lo, hi)
    else Obstacle(pf, c, app, f, err.value) && lo <= Place(err.value) < hi && Clear(pf, c, app, f, lo, Place(err.value))
  }

  lemma Chain(pf: Platform, c: State, app: Target, f: Faults, a: Option<SyncError>, b: Option<SyncError>,
      lo: nat, mid: nat, hi: nat)
    requires lo <= mid <= hi && First(pf, c, app, f, a, lo, mid) && First(pf, c, app, f, b, mid, hi)
    ensures First(pf, c, app, f, if a.Some? then a else b, lo, hi)
  {
    hide Obstacle, Place;
  }

  /* The stages. */

  lemma ScaleFirst(pf: Platform, c: State, app: Target, f: Faults)
    ensures First(pf, c, app, f, ScaleCheck(pf, c, app, f), 0, 3)
  {
    hide Evaluated, ScaleAllowed;
    ScaleCheckExact(pf, c, app, f);
  }

  lemma PortsFirst(pf: Platform, c: State, app: Target, f: Faults)
    ensures AllPorts(app.spec) == [] <==> NoPort(app.spec)
    ensures First(pf, c, app, f, if AllPorts(app.spec) == [] then Some(NoServicePorts) else None, 3, 4)
  {
    hide Evaluated, ScaleAllowed, AllPorts;
    PortsExist(app.spec);
  }

  lemma AdoptFirst(pf: Platform, c: State, app: Target, f: Faults, kind: Kind)
    requires kind == DeploymentKind || kind == ServiceKind
    ensures var lo := if kind == DeploymentKind then 5 else 7;
      First(pf, c, app, f, Adoptable(app, f, c.objs, kind), lo, lo + 2)
  {
    hide Evaluated, ScaleAllowed;
  }

  lemma HoldFirst(pf: Platform, c: State, app: Target, f: Faults)
    ensures First(pf, c, app, f, if AutoscalingOn(app.spec) then Outcome(f, GetForHold) else None, 4, 5)
  {
    hide Evaluated, ScaleAllowed;
  }

  lemma ApplyFirst(pf: Platform, c: State, app: Target, f: Faults)
    ensures First(pf, c, app, f, SyncDeployment(pf, app, f, c.objs).err, 9, 10)
    ensures First(pf, c, app, f, SyncService(app, f, c.objs).err, 10, 11)
  {
    hide Evaluated, ScaleAllowed, AppliedTo, BuildDeployment, BuildService, Sent;
  }

  /** Where the obstacles of the Ingress begin, and those of the HPA. */
  function Start(kind: Kind): nat { if kind == IngressKind then 11 else 15 }

  predicate IsLate(kind: Kind) { kind == IngressKind || kind == HpaKind }

  lemma PlacesOf(e: SyncError, kind: Kind)
    requires IsLate(kind)
    ensures Place(e) == Start(kind) <==> e.BuildFailed? && e.kind == kind
    ensures Place(e) == Start(kind) + 1 <==> e == CallFailed(GetLive(kind)) || e == CallFailed(GetOwned(kind))
    ensures Place(e) == Start(kind) + 2 <==> e == NotAdoptable(kind)
    ensures Place(e) == Start(kind) + 3 <==> e == CallFailed(Apply(kind)) || e == CallFailed(Delete(kind))
  {
  }

  lemma LateAdoptFirst(pf: Platform, c: State, app: Target, f: Faults, kind: Kind)
    requires IsLate(kind) && Wanted(app, kind)
    ensures First(pf, c, app, f, Adoptable(app, f, c.objs, kind), Start(kind) + 1, Start(kind) + 3)
    ensures First(pf, c, app, f, Outcome(f, Apply(kind)), Start(kind) + 3, Start(kind) + 4)
  {
    hide Evaluated, ScaleAllowed, NoPort, PortNames, Place;
    var err := Adoptable(app, f, c.objs, kind);
    if err.Some? {
      PlacesOf(err.value, kind);
    }
    PlacesOf(CallFailed(Apply(kind)), kind);
    forall e
      ensures Obstacle(pf, c, app, f, e) && Place(e) == Start(kind) + 1 ==> e == CallFailed(GetLive(kind))
      ensures Obstacle(pf, c, app, f, e) && Place(e) == Start(kind) + 2 ==> e == NotAdoptable(kind)
      ensures Obstacle(pf, c, app, f, e) && Place(e) == Start(kind) + 3 ==> e == CallFailed(Apply(kind))
    {
      PlacesOf(e, kind);
    }
  }

  lemma LateDeleteFirst(pf: Platform, c: State, app: Target, f: Faults, kind: Kind)
    requires IsLate(kind) && !Wanted(app, kind)
    ensures First(pf, c, app, f, DeleteOwnedStep(app, f, c.objs, kind).err, Start(kind), Start(kind) + 4)
  {
    hide Evaluated, ScaleAllowed, NoPort, PortNames, Place;
    var err := DeleteOwnedStep(app, f, c.objs, kind).err;
    if err.Some? {
      PlacesOf(err.value, kind);
    }
    forall e
      ensures Obstacle(pf, c, app, f, e) ==> Place(e) != Start(kind) && Place(e) != Start(kind) + 2
      ensures Obstacle(pf, c, app, f, e) && Place(e) == Start(kind) + 1 ==> e == CallFailed(GetOwned(kind))
      ensures Obstacle(pf, c, app, f, e) && Place(e) == Start(kind) + 3 ==> e == CallFailed(Delete(kind))
    {
      PlacesOf(e, kind);
    }
  }

  function BuildFailure(kind: Kind, built: Built<Body>): Option<SyncError> {
    if built.Bad? then Some(BuildFailed(kind, built.error)) else None
  }

  lemma IngressBuildFirst(pf: Platform, c: State, app: Target, f: Faults)
    requires Wanted(app, IngressKind)
    ensures First(pf, c, app, f, BuildFailure(IngressKind, BuildIngress(app.key, app.spec)), 11, 12)
  {
    hide Evaluated, ScaleAllowed, BuildIngress, PortNames, Place, AllPorts, NoPort;
    IngressExact(app.key, app.spec);
    PortsFirst(pf, c, app, f);
    var built := BuildIngress(app.key, app.spec);
    assert built.Bad? ==> built == Bad(built.error);
    if built.Bad? {
      PlacesOf(BuildFailed(IngressKind, built.error), IngressKind);
    }
    forall e ensures Place(e) == 11 ==> e.BuildFailed? && e.kind == IngressKind {
      PlacesOf(e, IngressKind);
    }
  }

  lemma HpaBuildFirst(pf: Platform, c: State, app: Target, f: Faults)
    requires Wanted(app, HpaKind)
    ensures First(pf, c, app, f, BuildFailure(HpaKind, BuildHpa(app.key, app.spec.autoscaling.value)), 15, 16)
  {
    hide Evaluated, ScaleAllowed, BuildHpa, PortNames, Place, AllPorts, NoPort;
    var built := BuildHpa(app.key, app.spec.autoscaling.value);
    HpaExact(app.key, app.spec.autoscaling.value);
    if built.Bad? {
      PlacesOf(BuildFailed(HpaKind, built.error), HpaKind);
    }
    forall e ensures Place(e) == 15 ==> e.BuildFailed? && e.kind == HpaKind {
      PlacesOf(e, HpaKind);
    }
  }

  lemma IngressFirst(pf: Platform, c: State, app: Target, f: Faults)
    ensures First(pf, c, app, f, SyncIngress(app, f, c.objs).err, 11, 15)
  {
    hide First, AppliedTo, BuildIngress, Adoptable, DeleteOwnedStep;
    if Wanted(app, IngressKind) {
      var build := BuildFailure(IngressKind, BuildIngress(app.key, app.spec));
      var adopt, apply := Adoptable(app, f, c.objs, IngressKind), Outcome(f, Apply(IngressKind));
      IngressBuildFirst(pf, c, app, f);
      LateAdoptFirst(pf, c, app, f, IngressKind);
      Chain(pf, c, app, f, adopt, apply, 12, 14, 15);
      Chain(pf, c, app, f, build, if adopt.Some? then adopt else apply, 11, 12, 15);
    } else {
      LateDeleteFirst(pf, c, app, f, IngressKind);
    }
  }

  lemma HpaFirst(pf: Platform, c: State, app: Target, f: Faults)
    ensures First(pf, c, app, f, SyncHpa(app, f, c.objs).err, 15, 19)
  {
    hide First, AppliedTo, BuildHpa, Adoptable, DeleteOwnedStep;
    if Wanted(app, HpaKind) {
      var build := BuildFailure(HpaKind, BuildHpa(app.key, app.spec.autoscaling.value));
      var adopt, apply := Adoptable(app, f, c.objs, HpaKind), Outcome(f, Apply(HpaKind));
      HpaBuildFirst(pf, c, app, f);
      LateAdoptFirst(pf, c, app, f, HpaKind);
      Chain(pf, c, app, f, adopt, apply, 16, 18, 19);
      Chain(pf, c, app, f, build, if adopt.Some? then adopt else apply, 15, 16, 19);
    } else {
      LateDeleteFirst(pf, c, app, f, HpaKind);
    }
  }

  lemma GuardFirst(pf: Platform, c: State, app: Target, f: Faults)
    ensures First(pf, c, app, f, Guard(pf, c, app, f), 0, 9)
  {
    hide First, ScaleCheck, Adoptable, AllPorts;
    var ports := if AllPorts(app.spec) == [] then Some(NoServicePorts) else None;
    var hold := if AutoscalingOn(app.spec) then Outcome(f, GetForHold) else None;
    var dep, svc := Adoptable(app, f, c.objs, DeploymentKind), Adoptable(app, f, c.objs, ServiceKind);
    ScaleFirst(pf, c, app, f);
    PortsFirst(pf, c, app, f);
    HoldFirst(pf, c, app, f);
    AdoptFirst(pf, c, app, f, DeploymentKind);
    AdoptFirst(pf, c, app, f, ServiceKind);
    Chain(pf, c, app, f, dep, svc, 5, 7, 9);
    var rest := if dep.Some? then dep else svc;
    Chain(pf, c, app, f, hold, rest, 4, 5, 9);
    rest := if hold.Some? then hold else rest;
    Chain(pf, c, app, f, ports, rest, 3, 4, 9);
    rest := if ports.Some? then ports else rest;
    Chain(pf, c, app, f, ScaleCheck(pf, c, app, f), rest, 0, 3, 9);
  }

  lemma WritesFirst(pf: Platform, c: State, app: Target, f: Faults)
    ensures First(pf, c, app, f, SyncWrites(pf, app, f, c.objs).err, 9, 19)
  {
    hide First, SyncWrites, SyncDeployment, SyncService, SyncIngress, SyncHpa;
    SyncWritesErr(pf, app, f, c.objs);
    var dep, svc := SyncDeployment(pf, app, f, c.objs).err, SyncService(app, f, c.objs).err;
    var ing, hpa := SyncIngress(app, f, c.objs).err, SyncHpa(app, f, c.objs).err;
    ApplyFirst(pf, c, app, f);
    IngressFirst(pf, c, app, f);
    HpaFirst(pf, c, app, f);
    Chain(pf, c, app, f, ing, hpa, 11, 15, 19);
    Chain(pf, c, app, f, svc, if ing.Some? then ing else hpa, 10, 11, 19);
    Chain(pf, c, app, f, dep, if svc.Some? then svc else if ing.Some? then ing else hpa, 9, 10, 19);
  }

  /** No two things at one place. */
  lemma PlacesApart(pf: Platform, c: State, app: Target, f: Faults, a: SyncError, b: SyncError)
    requires Obstacle(pf, c, app, f, a) && Obstacle(pf, c, app, f, b) && Place(a) == Place(b)
    ensures a == b
  {
    hide Evaluated, ScaleAllowed, NoPort, PortNames;
  }

  /** Whatever calls fail and whatever else is wrong, a sync reports the first thing in its way,
      and succeeds exactly when nothing is. */
  lemma FirstObstacle(pf: Platform, c: State, app: Target, f: Faults, e: SyncError)
    ensures var err := Sync(pf, c, app, f).err;
      && (err.None? <==> forall o :: !Obstacle(pf, c, app, f, o))
      && (err == Some(e) <==>
            Obstacle(pf, c, app, f, e) && forall o :: Obstacle(pf, c, app, f, o) ==> Place(e) <= Place(o))
  {
    hide Obstacle, Guard, SyncWrites;
    var err := Sync(pf, c, app, f).err;
    GuardFirst(pf, c, app, f);
    WritesFirst(pf, c, app, f);
    Chain(pf, c, app, f, Guard(pf, c, app, f), SyncWrites(pf, app, f, c.objs).err, 0, 9, 19);
    assert First(pf, c, app, f, err, 0, 19);
    forall o | Obstacle(pf, c, app, f, o)
      ensures Place(o) < 19
      ensures err.Some? && Place(o) == Place(err.value) ==> o == err.value
    {
      PlaceKnown(pf, c, app, f, o);
      if err.Some? && Place(o) == Place(err.value) {
        PlacesApart(pf, c, app, f, o, err.value);
      }
    }
  }

  lemma PlaceKnown(pf: Platform, c: State, app: Target, f: Faults, e: SyncError)
    requires Obstacle(pf, c, app, f, e)
    ensures Place(e) < 19
  {
    hide Evaluated, ScaleAllowed, NoPort, PortNames;
  }

  /* What is asked for on the way. */

  function Rank(kind: Kind): nat {
    match kind case DeploymentKind => 0 case ServiceKind => 1 case IngressKind => 2 case HpaKind => 3
  }

  /** Deployment, Service, Ingress, HPA, each at most once. */
  predicate Ascending(writes: seq<Write>) {
    forall i, j :: 0 <= i < j < |writes| ==> Rank(writes[i].key.kind) < Rank(writes[j].key.kind)
  }

  /** The write is one the spec calls for: an apply of what it wants, a deletion of what it does not. */
  predicate CalledFor(c: State, app: Target, w: Write) {
    && w.key == Key(app, w.key.kind)
    && (if w.Applied? then Wanted(app, w.key.kind)
        else !Wanted(app, w.key.kind) && ControlledBy(c.objs, w.key, app.uid))
  }

  lemma AscendingConcat(a: seq<Write>, b: seq<Write>, n: nat)
    requires Ascending(a) && Ascending(b)
    requires forall w :: w in a ==> Rank(w.key.kind) < n
    requires forall w :: w in b ==> n <= Rank(w.key.kind)
    ensures Ascending(a + b)
  {
    assert forall i :: 0 <= i < |a| ==> a[i] in a;
    assert forall i :: 0 <= i < |b| ==> b[i] in b;
  }

  lemma StepAsks(pf: Platform, c: State, app: Target, f: Faults, s: Store, kind: Kind)
    requires At(s, Key(app, kind)) == At(c.objs, Key(app, kind))
    ensures var e := StepOn(pf, app, f, s, kind);
      && |e.writes| <= 1 && Ascending(e.writes)
      && (forall w :: w in e.writes ==> w.key.kind == kind && CalledFor(c, app, w))
      && (e.err.None? ==>
            (e.writes != [] <==> Wanted(app, kind) || ControlledBy(c.objs, Key(app, kind), app.uid)))
  {
    hide AppliedTo, BuildDeployment, BuildService, BuildIngress, BuildHpa, Sent;
  }

  /** The writes cover the kind if the spec or the cluster calls for one. */
  ghost predicate Covered(c: State, app: Target, writes: seq<Write>, kind: Kind) {
    Wanted(app, kind) || ControlledBy(c.objs, Key(app, kind), app.uid) ==>
      exists w :: w in writes && w.key.kind == kind
  }

  /** What the steps up to a kind have asked for. */
  ghost predicate AskedTo(c: State, app: Target, e: Effect, n: nat) {
    && Ascending(e.writes)
    && (forall w :: w in e.writes ==> Rank(w.key.kind) < n && CalledFor(c, app, w))
    && (e.err.None? ==> forall kind :: Rank(kind) < n ==> Covered(c, app, e.writes, kind))
  }

  lemma AskConcat(c: State, app: Target, was: seq<Write>, more: seq<Write>, kind: Kind)
    requires Ascending(was) && Ascending(more)
    requires forall w :: w in was ==> Rank(w.key.kind) < Rank(kind) && CalledFor(c, app, w)
    requires forall w :: w in more ==> w.key.kind == kind && CalledFor(c, app, w)
    ensures Ascending(was + more)
    ensures forall w :: w in was + more ==> Rank(w.key.kind) < Rank(kind) + 1 && CalledFor(c, app, w)
  {
    hide CalledFor;
    AscendingConcat(was, more, Rank(kind));
    assert forall w :: w in was + more <==> w in was || w in more;
  }

  lemma CoverConcat(c: State, app: Target, was: seq<Write>, more: seq<Write>, kind: Kind)
    requires forall k :: Rank(k) < Rank(kind) ==> Covered(c, app, was, k)
    requires Wanted(app, kind) || ControlledBy(c.objs, Key(app, kind), app.uid) ==>
      more != [] && more[0].key.kind == kind
    ensures forall k :: Rank(k) < Rank(kind) + 1 ==> Covered(c, app, was + more, k)
  {
    hide Wanted, ControlledBy;
    forall k | Rank(k) < Rank(kind) + 1 ensures Covered(c, app, was + more, k) {
      if Rank(k) < Rank(kind) {
        assert Covered(c, app, was, k);
        if w :| w in was && w.key.kind == k {
          assert w in was + more;
        }
      } else {
        assert k == kind;
        assert more != [] ==> more[0] in was + more;
      }
    }
  }

  lemma AskNext(pf: Platform, c: State, app: Target, f: Faults, e: Effect, kind: Kind)
    requires AskedTo(c, app, e, Rank(kind)) && At(e.store, Key(app, kind)) == At(c.objs, Key(app, kind))
    ensures AskedTo(c, app, Then(e, StepOn(pf, app, f, e.store, kind)), Rank(kind) + 1)
  {
    hide StepOn, CalledFor, Covered, Ascending, Rank, At, ControlledBy, Wanted;
    var step := StepOn(pf, app, f, e.store, kind);
    StepAsks(pf, c, app, f, e.store, kind);
    if e.err.None? {
      AskConcat(c, app, e.writes, step.writes, kind);
      if step.err.None? {
        assert step.writes != [] ==> step.writes[0] in step.writes;
        CoverConcat(c, app, e.writes, step.writes, kind);
      }
    }
  }

  lemma NothingAsked(c: State, app: Target)
    ensures AskedTo(c, app, Effect(c.objs, [], None), 0)
  {
  }

  /** A sync asks, in order, for what the spec calls for and nothing else, for all of it if it
      succeeds, and for nothing at all before its checks have passed. */
  lemma SyncAsks(pf: Platform, c: State, app: Target, f: Faults)
    ensures var e := Sync(pf, c, app, f);
      && Ascending(e.writes) && (forall w :: w in e.writes ==> CalledFor(c, app, w))
      && (e.err.None? ==> forall kind :: Covered(c, app, e.writes, kind))
      && (e.err.Some? && Place(e.err.value) < 9 ==> e.writes == [] && e.store == c.objs)
  {
    hide Guard, SyncDeployment, SyncService, SyncIngress, SyncHpa, Ascending, CalledFor, Covered, At, Place;
    var s := c.objs;
    var dep := SyncDeployment(pf, app, f, s);
    var svc := Then(dep, SyncService(app, f, dep.store));
    var ing := Then(svc, SyncIngress(app, f, svc.store));
    NothingAsked(c, app);
    StepsAt(pf, app, f, s, Key(app, ServiceKind));
    StepsAt(pf, app, f, s, Key(app, IngressKind));
    StepsAt(pf, app, f, s, Key(app, HpaKind));
    StepsAt(pf, app, f, dep.store, Key(app, IngressKind));
    StepsAt(pf, app, f, dep.store, Key(app, HpaKind));
    StepsAt(pf, app, f, svc.store, Key(app, HpaKind));
    AskNext(pf, c, app, f, Effect(s, [], None), DeploymentKind);
    assert Then(Effect(s, [], None), dep) == dep by { assert [] + dep.writes == dep.writes; }
    AskNext(pf, c, app, f, dep, ServiceKind);
    AskNext(pf, c, app, f, svc, IngressKind);
    AskNext(pf, c, app, f, ing, HpaKind);
    WritesFirst(pf, c, app, f);
  }

  /* How a pass is answered. */

  /** The pass gets to the sync of its WebApp. */
  predicate Begins(app: WebApp, f: Faults) {
    !Fails(f, GetWebApp) && ("webapps.example.com/finalizer" in app.finalizers || !Fails(f, AddFinalizer))
  }

  /** A pass over a live WebApp ends for good exactly if its sync did, or can never, and the status
      was stored; it waits exactly if a policy or a taken name stopped it; all else is tried again. */
  lemma LiveResult(pf: Platform, c: State, key: NsName, f: Faults, now: nat)
    requires WellKeyed(c) && key in c.apps && !c.apps[key].deleting
    ensures var r, err := Reconciled(pf, c, key, f, now).result, Sync(pf, c, AimOf(c.apps[key]), f).err;
      && (r == Done <==>
            Begins(c.apps[key], f) && !Fails(f, PatchStatus) &&
            if err.None? then !Fails(f, GetForStatus) else err.value.NoServicePorts? || err.value.BuildFailed?)
      && (r == Retry <==>
            Begins(c.apps[key], f) && !Fails(f, PatchStatus) &&
            err.Some? && (err.value.PolicyViolation? || err.value.NotAdoptable?))
  {
    hide Sync, FailedStatus, SyncedStatus;
    if FINALIZER !in c.apps[key].finalizers {
      SyncSame(pf, c, WithApp(c, Finalizing(c.apps[key])), AimOf(c.apps[key]), f);
    }
  }

  /** A pass over a WebApp that is gone, or going, never waits: it ends for good exactly if the WebApp
      is gone, does not hold the finalizer, or every call of its teardown and the update succeed. */
  lemma EndResult(pf: Platform, c: State, key: NsName, f: Faults, now: nat)
    requires WellKeyed(c) && (key in c.apps ==> c.apps[key].deleting)
    ensures var r := Reconciled(pf, c, key, f, now).result;
      && r != Retry
      && (r == Done <==>
            !Fails(f, GetWebApp) &&
            (key in c.apps && "webapps.example.com/finalizer" in c.apps[key].finalizers ==>
               !Fails(f, RemoveFinalizer) && forall kind :: Deletable(AimOf(c.apps[key]), f, c.objs, kind)))
  {
    hide Teardown, Remaining;
    if key in c.apps {
      TeardownExact(AimOf(c.apps[key]), f, c.objs);
    }
  }
}
