/** internal/controller/webapp_controller.go: the reconciler, call by call, against an API
    server that may refuse any call or lose its acknowledgement. */
module Reconciler {
  import opened Base
  import opened Api
  import opened Builders
  import opened Policies
  import opened Conditions
  import opened Cluster
  import opened Pass

  /** The API server during one pass: its state, the calls that fail, and the writes asked of it. */
  class ApiServer {
    const faults: Faults
    var state: State
    var writes: seq<Write>

    constructor (state: State, faults: Faults)
      ensures this.state == state && this.faults == faults && writes == []
    {
      this.state, this.faults, writes := state, faults, [];
    }

    /** Get: none when the object is missing. */
    method GetObject(call: Call, kind: Kind, name: NsName) returns (ok: bool, o: Option<Object>)
      ensures ok == !Fails(faults, call)
      ensures ok ==> o == At(state.objs, ObjKey(kind, name))
    {
      ok, o := !Fails(faults, call), At(state.objs, ObjKey(kind, name));
    }

    method Apply(kind: Kind, app: Target, body: Body, sent: Option<int>) returns (err: Option<SyncError>)
      modifies this
      ensures var e := ApplyStep(app, faults, old(state).objs, kind, body, sent);
        state == old(state).(objs := e.store) && writes == old(writes) + e.writes && err == e.err
    {
      var k := ObjKey(kind, app.key);
      writes := writes + [Applied(k, app.uid, body, sent)];
      if Lands(faults, Call.Apply(kind)) {
        state := state.(objs := state.objs[k := AppliedTo(At(state.objs, k), app.uid, body, sent)]);
      }
      err := Outcome(faults, Call.Apply(kind));
    }

    method Delete(kind: Kind, name: NsName) returns (err: Option<SyncError>)
      modifies this
      ensures state == old(state).(objs := if Lands(faults, Call.Delete(kind)) then old(state).objs - {ObjKey(kind,
          name)} else old(state).objs)
      ensures writes == old(writes) + [Deleted(ObjKey(kind, name))]
      ensures err == Outcome(faults, Call.Delete(kind))
    {
      writes := writes + [Deleted(ObjKey(kind, name))];
      if Lands(faults, Call.Delete(kind)) {
        state := state.(objs := state.objs - {ObjKey(kind, name)});
      }
      err := Outcome(faults, Call.Delete(kind));
    }

    /** Update of the WebApp's metadata. */
    method Update(call: Call, app: WebApp) returns (err: Option<SyncError>)
      modifies this`state
      ensures state == if !Lands(faults, call) then old(state)
        else if app.deleting && app.finalizers == {} then old(state).(apps := old(state).apps - {app.key})
        else WithApp(old(state), app)
      ensures err == Outcome(faults, call)
    {
      if Lands(faults, call) {
        if app.deleting && app.finalizers == {} {
          state := state.(apps := state.apps - {app.key});
        } else {
          state := WithApp(state, app);
        }
      }
      err := Outcome(faults, call);
    }

    method PatchStatus(app: WebApp) returns (err: Option<SyncError>)
      modifies this`state
      ensures state == if Lands(faults, Call.PatchStatus) then WithApp(old(state), app) else old(state)
      ensures err == Outcome(faults, Call.PatchStatus)
    {
      if Lands(faults, Call.PatchStatus) {
        state := WithApp(state, app);
      }
      err := Outcome(faults, Call.PatchStatus);
    }
  }

  class WebAppReconciler {
    const api: ApiServer
    const platform: Platform

    constructor (api: ApiServer, platform: Platform)
      ensures this.api == api && this.platform == platform
    {
      this.api, this.platform := api, platform;
    }

    /** What a step did to the API server. */
    ghost predicate Did(was: State, wrote: seq<Write>, e: Effect)
      reads api
    {
      api.state == was.(objs := e.store) && api.writes == wrote + e.writes
    }

    method EnforceScalePolicy(app: LiveApp) returns (err: Option<SyncError>)
      ensures err == ScaleCheck(platform, api.state, app.Aim(), api.faults)
    {
      if Fails(api.faults, ListPolicies) {
        return Some(CallFailed(ListPolicies));
      }
      var policies := api.state.policies;
      if |policies| == 0 {
        return None;
      }
      if Fails(api.faults, GetNamespace) {
        return Some(CallFailed(GetNamespace));
      }
      if app.key.ns !in api.state.namespaces {
        return Some(NamespaceMissing);
      }
      var res := Evaluate(Query(true, platform, app.spec, api.state.namespaces[app.key.ns]), policies);
      if |res.violations| > 0 {
        return Some(PolicyViolation(res.violations));
      }
      return None;
    }

    static method ReplicasOwnedByOther(managed: seq<ManagedEntry>) returns (r: bool)
      ensures r == OwnedByOther(managed)
    {
      for i := 0 to |managed|
        invariant forall k :: 0 <= k < i ==> !(managed[k].Claims() && managed[k].manager != FIELD_OWNER)
      {
        var e := managed[i];
        if e.manager == FIELD_OWNER || e.fields.Absent? {
          continue;
        }
        if e.fields.Unreadable? {
          continue;
        }
        if e.fields.WithoutSpec? {
          continue;
        }
        if e.fields.replicas {
          return true;
        }
      }
      return false;
    }

    method ReplicaHold(app: LiveApp) returns (err: Option<SyncError>, hold: Option<int>)
      ensures err == Outcome(api.faults, GetForHold)
      ensures err.None? ==> hold == Hold(app.Aim(), api.state.objs)
    {
      var ok, dep := api.GetObject(GetForHold, DeploymentKind, app.key);
      if !ok {
        return Some(CallFailed(GetForHold)), None;
      }
      if dep.None? {
        return None, None;
      }
      var other := ReplicasOwnedByOther(dep.value.managed);
      if other {
        return None, None;
      }
      return None, Some(dep.value.replicas);
    }

    method AssertAdoptable(app: LiveApp, kind: Kind) returns (err: Option<SyncError>)
      ensures err == Adoptable(app.Aim(), api.faults, api.state.objs, kind)
    {
      var ok, o := api.GetObject(GetLive(kind), kind, app.key);
      if !ok {
        return Some(CallFailed(GetLive(kind)));
      }
      if o.Some? && o.value.controller != Some(app.uid) {
        return Some(NotAdoptable(kind));
      }
      return None;
    }

    method DeleteOwned(app: LiveApp, kind: Kind) returns (err: Option<SyncError>)
      modifies api
      ensures var e := DeleteOwnedStep(app.Aim(), api.faults, old(api.state).objs, kind);
        Did(old(api.state), old(api.writes), e) && err == e.err
    {
      var ok, o := api.GetObject(GetOwned(kind), kind, app.key);
      if !ok {
        return Some(CallFailed(GetOwned(kind)));
      }
      if o.None? || o.value.controller != Some(app.uid) {
        return None;
      }
      err := api.Delete(kind, app.key);
    }

    method SyncTheIngress(app: LiveApp) returns (err: Option<SyncError>)
      modifies api
      ensures var e := SyncIngress(app.Aim(), api.faults, old(api.state).objs);
        Did(old(api.state), old(api.writes), e) && err == e.err
    {
      hide BuildIngress, AppliedTo;
      if !WantsIngress(app.spec) {
        err := DeleteOwned(app, IngressKind);
        return;
      }
      var ing := MakeIngress(app.key, app.spec);
      if ing.Bad? {
        return Some(BuildFailed(IngressKind, ing.error));
      }
      err := AssertAdoptable(app, IngressKind);
      if err.Some? {
        return;
      }
      err := api.Apply(IngressKind, app.Aim(), ing.value, None);
    }

    method SyncTheHpa(app: LiveApp) returns (err: Option<SyncError>)
      modifies api
      ensures var e := SyncHpa(app.Aim(), api.faults, old(api.state).objs);
        Did(old(api.state), old(api.writes), e) && err == e.err
    {
      hide BuildHpa, AppliedTo;
      if !AutoscalingOn(app.spec) {
        err := DeleteOwned(app, HpaKind);
        return;
      }
      var hpa := MakeHpa(app.key, app.spec.autoscaling.value);
      if hpa.Bad? {
        return Some(BuildFailed(HpaKind, hpa.error));
      }
      err := AssertAdoptable(app, HpaKind);
      if err.Some? {
        return;
      }
      err := api.Apply(HpaKind, app.Aim(), hpa.value, None);
    }

    method SyncAll(app: LiveApp) returns (err: Option<SyncError>)
      modifies api
      ensures var e := Sync(platform, old(api.state), app.Aim(), api.faults);
        Did(old(api.state), old(api.writes), e) && err == e.err
    {
      hide ScaleCheck, AppliedTo, SyncIngress, SyncHpa, Adoptable, Hold;
      err := EnforceScalePolicy(app);
      if err.Some? {
        return;
      }
      var svc := MakeService(app.key, app.spec);
      if |svc.ports| == 0 {
        return Some(NoServicePorts);
      }
      var dep := MakeDeployment(platform, app.key, app.spec);
      var sent := DesiredReplicas(app.spec);
      if AutoscalingOn(app.spec) {
        err, sent := ReplicaHold(app);
        if err.Some? {
          return;
        }
      }
      err := AssertAdoptable(app, DeploymentKind);
      if err.Some? {
        return;
      }
      err := AssertAdoptable(app, ServiceKind);
      if err.Some? {
        return;
      }
      err := WriteAll(app, dep, sent, svc);
    }

    method WriteAll(app: LiveApp, dep: Body, sent: Option<int>, svc: Body) returns (err: Option<SyncError>)
      requires dep == BuildDeployment(platform, app.key, app.spec) && svc == BuildService(app.key, app.spec)
      requires sent == Sent(app.Aim(), api.state.objs)
      modifies api
      ensures var e := SyncWrites(platform, app.Aim(), api.faults, old(api.state).objs);
        Did(old(api.state), old(api.writes), e) && err == e.err
    {
      hide ApplyStep, SyncIngress, SyncHpa, BuildDeployment, BuildService, Sent, Then;
      ghost var was, wrote, aim := api.state, api.writes, app.Aim();
      ghost var e := SyncDeployment(platform, aim, api.faults, was.objs);
      err := api.Apply(DeploymentKind, app.Aim(), dep, sent);
      assert Did(was, wrote, e) && err == e.err;
      ghost var first := e;
      e := Then(first, SyncService(aim, api.faults, first.store));
      ghost var second := Then(e, SyncIngress(aim, api.faults, e.store));
      ghost var third := Then(second, SyncHpa(aim, api.faults, second.store));
      if err.Some? {
        StoppedStays(first, SyncService(aim, api.faults, first.store));
        StoppedStays(e, SyncIngress(aim, api.faults, e.store));
        StoppedStays(second, SyncHpa(aim, api.faults, second.store));
        return;
      }
      err := api.Apply(ServiceKind, app.Aim(), svc, None);
      GoesOn(first, SyncService(aim, api.faults, first.store));
      if err.Some? {
        StoppedStays(e, SyncIngress(aim, api.faults, e.store));
        StoppedStays(second, SyncHpa(aim, api.faults, second.store));
        return;
      }
      GoesOn(e, SyncIngress(aim, api.faults, e.store));
      err := SyncTheIngress(app);
      if err.Some? {
        StoppedStays(second, SyncHpa(aim, api.faults, second.store));
        return;
      }
      GoesOn(second, SyncHpa(aim, api.faults, second.store));
      err := SyncTheHpa(app);
    }

    method DeleteAll(app: LiveApp) returns (err: Option<SyncError>)
      modifies api
      ensures var e := Teardown(app.Aim(), api.faults, old(api.state).objs);
        Did(old(api.state), old(api.writes), e) && err == e.err
    {
      hide DeleteOwnedStep;
      ghost var was, wrote := api.state, api.writes;
      err := None;
      for n := 0 to |TEARDOWN_ORDER|
        invariant err.None? && TeardownTo(app.Aim(), api.faults, was.objs, n).err.None?
        invariant Did(was, wrote, TeardownTo(app.Aim(), api.faults, was.objs, n))
      {
        err := DeleteOwned(app, TEARDOWN_ORDER[n]);
        if err.Some? {
          TeardownStops(app.Aim(), api.faults, was.objs, n + 1, |TEARDOWN_ORDER|);
          return;
        }
      }
    }

    method FinalizeApp(app: LiveApp) returns (result: PassResult)
      requires app.deleting
      modifies api, app
      ensures var o := Finalize(old(api.state), old(app.Value()), api.faults);
        api.state == o.state && api.writes == old(api.writes) + o.writes && result == o.result
    {
      hide Teardown;
      if FINALIZER !in app.finalizers {
        return Done;
      }
      var err := DeleteAll(app);
      if err.Some? {
        return Failed;
      }
      app.finalizers := app.finalizers - {FINALIZER};
      err := api.Update(RemoveFinalizer, app.Value());
      result := if err.Some? then Failed else Done;
    }

    method UpdateStatus(app: LiveApp, dep: Option<Object>) returns (err: Option<SyncError>)
      modifies api`state, app`status
      ensures app.status == Summarized(old(app.Value()), old(app.status), dep)
      ensures api.state == Patched(old(api.state), old(app.Value()), app.status, api.faults)
      ensures err == Outcome(api.faults, PatchStatus)
    {
      app.status := app.status.(ingressURL := IngressURL(app.spec), selector := SelectorLabels(app.key));
      if dep.Some? {
        var d := dep.value.status;
        app.status := app.status.(replicas := d.replicas, readyReplicas := d.readyReplicas,
                                  availableReplicas := d.availableReplicas, updatedReplicas := d.updatedReplicas);
      }
      err := api.PatchStatus(app.Value());
    }

    /** Sync and status, for a WebApp whose finalizer is stored. */
    method SettleApp(app: LiveApp, now: nat) returns (result: PassResult)
      modifies api, app
      ensures var o := Settle(platform, old(api.state), old(app.Value()), api.faults, now);
        api.state == o.state && api.writes == old(api.writes) + o.writes && result == o.result
    {
      hide Sync, FailureConditions, DeploymentConditions, NoDeploymentConditions;
      var err := SyncAll(app);
      if err.Some? {
        app.ApplyReconcileFailure(err.value, now);
        var serr := UpdateStatus(app, None);
        if serr.Some? {
          return Failed;
        }
        if Terminal(err.value) {
          return Done;
        }
        if External(err.value) {
          return Retry;
        }
        return Failed;
      }
      var ok, dep := api.GetObject(GetForStatus, DeploymentKind, app.key);
      if !ok {
        return Failed;
      }
      app.status := app.status.(observedGeneration := app.generation);
      if dep.Some? {
        app.ApplyDeploymentConditions(View(dep.value), now);
      } else {
        app.ApplyNoDeploymentConditions(now);
      }
      err := UpdateStatus(app, dep);
      result := if err.Some? then Failed else Done;
    }

    /** One pass refines the function Reconciled: same state, same writes in order, same requeue. */
    method Reconcile(key: NsName, now: nat) returns (result: PassResult)
      requires forall k :: k in api.state.apps ==> api.state.apps[k].key == k
      modifies api
      ensures var o := Reconciled(platform, old(api.state), key, api.faults, now);
        api.state == o.state && api.writes == old(api.writes) + o.writes && result == o.result
    {
      hide Finalize, Settle;
      if Fails(api.faults, GetWebApp) {
        return Failed;
      }
      if key !in api.state.apps {
        return Done;
      }
      var app := new LiveApp(api.state.apps[key]);
      if app.deleting {
        result := FinalizeApp(app);
        return;
      }
      if FINALIZER !in app.finalizers {
        app.finalizers := app.finalizers + {FINALIZER};
        var err := api.Update(AddFinalizer, app.Value());
        if err.Some? {
          return Failed;
        }
      }
      result := SettleApp(app, now);
    }
  }
}
