/** One reconcile pass as a function of the cluster, the failing calls and the clock. */
module Pass {
  import opened Base
  import opened Api
  import opened Ports
  import opened Builders
  import opened Policies
  import opened Conditions
  import opened Cluster

  ghost function ScaleCheck(pf: Platform, c: State, app: Target, f: Faults): Option<SyncError> {
    if Fails(f, ListPolicies) then Some(CallFailed(ListPolicies))
    else if c.policies == [] then None
    else if Fails(f, GetNamespace) then Some(CallFailed(GetNamespace))
    else if app.key.ns !in c.namespaces then Some(NamespaceMissing)
    else
      var found := Evaluated(Query(true, pf, app.spec, c.namespaces[app.key.ns]), c.policies).violations;
      if found == [] then None else Some(PolicyViolation(found))
  }

  /** The count to send while autoscaling owns it: none once another manager holds the field. */
  function Hold(app: Target, s: Store): Option<int> {
    var k := ObjKey(DeploymentKind, app.key);
    if k !in s || OwnedByOther(s[k].managed) then None else Some(s[k].replicas)
  }

  function Sent(app: Target, s: Store): Option<int> {
    if AutoscalingOn(app.spec) then Hold(app, s) else DesiredReplicas(app.spec)
  }

  /** Everything checked before the first write. */
  ghost function Guard(pf: Platform, c: State, app: Target, f: Faults): Option<SyncError> {
    var scale := ScaleCheck(pf, c, app, f);
    if scale.Some? then scale
    else if AllPorts(app.spec) == [] then Some(NoServicePorts)
    else if AutoscalingOn(app.spec) && Fails(f, GetForHold) then Some(CallFailed(GetForHold))
    else
      var dep := Adoptable(app, f, c.objs, DeploymentKind);
      if dep.Some? then dep else Adoptable(app, f, c.objs, ServiceKind)
  }

  function SyncIngress(app: Target, f: Faults, s: Store): Effect {
    if !WantsIngress(app.spec) then DeleteOwnedStep(app, f, s, IngressKind)
    else
      match BuildIngress(app.key, app.spec)
      case Bad(e) => Effect(s, [], Some(BuildFailed(IngressKind, e)))
      case Good(body) =>
        var adopt := Adoptable(app, f, s, IngressKind);
        if adopt.Some? then Effect(s, [], adopt) else ApplyStep(app, f, s, IngressKind, body, None)
  }

  function SyncHpa(app: Target, f: Faults, s: Store): Effect {
    if !AutoscalingOn(app.spec) then DeleteOwnedStep(app, f, s, HpaKind)
    else
      match BuildHpa(app.key, app.spec.autoscaling.value)
      case Bad(e) => Effect(s, [], Some(BuildFailed(HpaKind, e)))
      case Good(body) =>
        var adopt := Adoptable(app, f, s, HpaKind);
        if adopt.Some? then Effect(s, [], adopt) else ApplyStep(app, f, s, HpaKind, body, None)
  }

  function SyncDeployment(pf: Platform, app: Target, f: Faults, s: Store): Effect {
    ApplyStep(app, f, s, DeploymentKind, BuildDeployment(pf, app.key, app.spec), Sent(app, s))
  }

  function SyncService(app: Target, f: Faults, s: Store): Effect {
    ApplyStep(app, f, s, ServiceKind, BuildService(app.key, app.spec), None)
  }

  function SyncWrites(pf: Platform, app: Target, f: Faults, s: Store): Effect {
    var dep := SyncDeployment(pf, app, f, s);
    var svc := Then(dep, SyncService(app, f, dep.store));
    var ing := Then(svc, SyncIngress(app, f, svc.store));
    Then(ing, SyncHpa(app, f, ing.store))
  }

  ghost function Sync(pf: Platform, c: State, app: Target, f: Faults): Effect {
    var guard := Guard(pf, c, app, f);
    if guard.Some? then Effect(c.objs, [], guard) else SyncWrites(pf, app, f, c.objs)
  }

  /** Traffic first, then scaling, then the Service, then the pods. */
  const TEARDOWN_ORDER := [IngressKind, HpaKind, ServiceKind, DeploymentKind]

  /** The first n deletions of the teardown. */
  function TeardownTo(app: Target, f: Faults, s: Store, n: nat): Effect
    requires n <= |TEARDOWN_ORDER|
  {
    if n == 0 then Effect(s, [], None)
    else
      var before := TeardownTo(app, f, s, n - 1);
      Then(before, DeleteOwnedStep(app, f, before.store, TEARDOWN_ORDER[n - 1]))
  }

  function Teardown(app: Target, f: Faults, s: Store): Effect { TeardownTo(app, f, s, |TEARDOWN_ORDER|) }

  lemma {:induction false} TeardownStops(app: Target, f: Faults, s: Store, n: nat, m: nat)
    requires n <= m <= |TEARDOWN_ORDER| && TeardownTo(app, f, s, n).err.Some?
    ensures TeardownTo(app, f, s, m) == TeardownTo(app, f, s, n)
  {
    if n < m {
      TeardownStops(app, f, s, n, m - 1);
    }
  }

  /* Status. */

  function Summarized(app: WebApp, st: WebAppStatus, dep: Option<Object>): WebAppStatus {
    var named := st.(ingressURL := IngressURL(app.spec), selector := SelectorLabels(app.key));
    if dep.None? then named
    else
      var d := dep.value.status;
      named.(replicas := d.replicas, readyReplicas := d.readyReplicas,
             availableReplicas := d.availableReplicas, updatedReplicas := d.updatedReplicas)
  }

  function FailedStatus(app: WebApp, e: SyncError, now: nat): WebAppStatus {
    Summarized(app, app.status.(conditions := FailureConditions(app.status.conditions, Stamp(app.generation, now),
        e)), None)
  }

  function SyncedStatus(app: WebApp, dep: Option<Object>, now: nat): WebAppStatus {
    var t := Stamp(app.generation, now);
    Summarized(app, app.status.(
      observedGeneration := app.generation,
      conditions := if dep.Some? then DeploymentConditions(app.status.conditions, t, View(dep.value))
                    else NoDeploymentConditions(app.status.conditions, t)), dep)
  }

  /** The status that reports how a sync went. */
  function StatusOf(app: WebApp, sync: Effect, now: nat): WebAppStatus {
    if sync.err.Some? then FailedStatus(app, sync.err.value, now)
    else SyncedStatus(app, At(sync.store, ObjKey(DeploymentKind, app.key)), now)
  }

  function WithApp(c: State, app: WebApp): State { c.(apps := c.apps[app.key := app]) }

  function Patched(c: State, app: WebApp, st: WebAppStatus, f: Faults): State {
    if Lands(f, PatchStatus) then WithApp(c, app.(status := st)) else c
  }

  /** Dropping the operator's finalizer lets the API server remove an object that keeps no other. */
  function Unfinalized(c: State, app: WebApp): State {
    var rest := app.finalizers - {FINALIZER};
    if app.deleting && rest == {} then c.(apps := c.apps - {app.key}) else WithApp(c, app.(finalizers := rest))
  }

  /** Done: no requeue. Retry: after a minute. Failed: with backoff. */
  datatype PassResult = Done | Retry | Failed

  datatype PassOutcome = PassOutcome(state: State, writes: seq<Write>, result: PassResult)

  function Requeue(e: SyncError, patchFails: bool): PassResult {
    if patchFails then Failed else if Terminal(e) then Done else if External(e) then Retry else Failed
  }

  ghost function Finalize(c: State, app: WebApp, f: Faults): PassOutcome {
    if FINALIZER !in app.finalizers then PassOutcome(c, [], Done)
    else
      var down := Teardown(AimOf(app), f, c.objs);
      var c1 := c.(objs := down.store);
      if down.err.Some? then PassOutcome(c1, down.writes, Failed)
      else
        PassOutcome(if Lands(f, RemoveFinalizer) then Unfinalized(c1, app) else c1, down.writes,
                    if Fails(f, RemoveFinalizer) then Failed else Done)
  }

  /** The pass once the finalizer is stored. */
  ghost function Settle(pf: Platform, c: State, app: WebApp, f: Faults, now: nat): PassOutcome {
    var sync := Sync(pf, c, AimOf(app), f);
    var c1 := c.(objs := sync.store);
    if sync.err.Some? then
      PassOutcome(Patched(c1, app, FailedStatus(app, sync.err.value, now), f), sync.writes,
                  Requeue(sync.err.value, Fails(f, PatchStatus)))
    else if Fails(f, GetForStatus) then PassOutcome(c1, sync.writes, Failed)
    else
      var dep := At(sync.store, ObjKey(DeploymentKind, app.key));
      PassOutcome(Patched(c1, app, SyncedStatus(app, dep, now), f), sync.writes,
                  if Fails(f, PatchStatus) then Failed else Done)
  }

  function Finalizing(app: WebApp): WebApp { app.(finalizers := app.finalizers + {FINALIZER}) }

  ghost function Reconciled(pf: Platform, c: State, key: NsName, f: Faults, now: nat): PassOutcome {
    if Fails(f, GetWebApp) then PassOutcome(c, [], Failed)
    else if key !in c.apps then PassOutcome(c, [], Done)
    else
      var app := c.apps[key];
      if app.deleting then Finalize(c, app, f)
      else if FINALIZER in app.finalizers then Settle(pf, c, app, f, now)
      else
        var c1 := if Lands(f, AddFinalizer) then WithApp(c, Finalizing(app)) else c;
        if Fails(f, AddFinalizer) then PassOutcome(c1, [], Failed)
        else Settle(pf, c1, Finalizing(app), f, now)
  }
}
