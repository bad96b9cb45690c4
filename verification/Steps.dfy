/** What the steps of one pass touch. */
module Steps {
  import opened Base
  import opened Api
  import opened Builders
  import opened Conditions
  import opened Cluster
  import opened Pass

  function Key(app: Target, kind: Kind): ObjKey { ObjKey(kind, app.key) }

  /** Free for this WebApp to write: missing, or already controlled by it. */
  predicate NameFree(app: Target, s: Store, kind: Kind) {
    Key(app, kind) in s ==> ControlledBy(s, Key(app, kind), app.uid)
  }

  /** From s to t only objects of this WebApp's name and under its control were created,
      changed or deleted. */
  ghost predicate Keeps(app: Target, s: Store, t: Store) {
    && (forall k :: k in s && s[k].controller != Some(app.uid) ==> k in t && t[k] == s[k])
    && (forall k :: k in s && k !in t ==> k.name == app.key)
    && (forall k :: k in t && (k !in s || t[k] != s[k]) ==> k.name == app.key && t[k].controller == Some(app.uid))
  }

  lemma KeepsTransitive(app: Target, s: Store, t: Store, u: Store)
    requires Keeps(app, s, t) && Keeps(app, t, u)
    ensures Keeps(app, s, u)
  {
  }

  lemma ApplyKeeps(app: Target, f: Faults, s: Store, kind: Kind, body: Body, sent: Option<int>)
    requires Key(app, kind) in s ==> ControlledBy(s, Key(app, kind), app.uid)
    ensures Keeps(app, s, ApplyStep(app, f, s, kind, body, sent).store)
  {
    hide ApplyReplicas;
  }

  lemma DeleteKeeps(app: Target, f: Faults, s: Store, kind: Kind)
    ensures Keeps(app, s, DeleteOwnedStep(app, f, s, kind).store)
  {
  }

  lemma IngressKeeps(app: Target, f: Faults, s: Store)
    ensures Keeps(app, s, SyncIngress(app, f, s).store)
  {
    hide Keeps, ApplyStep, DeleteOwnedStep, BuildIngress;
    KeepsSelf(app, s);
    if !WantsIngress(app.spec) {
      DeleteKeeps(app, f, s, IngressKind);
    } else if BuildIngress(app.key, app.spec).Good? && Adoptable(app, f, s, IngressKind).None? {
      ApplyKeeps(app, f, s, IngressKind, BuildIngress(app.key, app.spec).value, None);
    }
  }

  lemma HpaKeeps(app: Target, f: Faults, s: Store)
    ensures Keeps(app, s, SyncHpa(app, f, s).store)
  {
    hide Keeps, ApplyStep, DeleteOwnedStep, BuildHpa;
    KeepsSelf(app, s);
    if !AutoscalingOn(app.spec) {
      DeleteKeeps(app, f, s, HpaKind);
    } else if BuildHpa(app.key, app.spec.autoscaling.value).Good? && Adoptable(app, f, s, HpaKind).None? {
      ApplyKeeps(app, f, s, HpaKind, BuildHpa(app.key, app.spec.autoscaling.value).value, None);
    }
  }

  lemma KeepsSelf(app: Target, s: Store)
    ensures Keeps(app, s, s)
  {
  }

  /* Each step is local to its kind. */

  ghost predicate Local(app: Target, kind: Kind, s: Store, t: Store) {
    forall k :: k != Key(app, kind) ==> At(t, k) == At(s, k)
  }

  lemma ApplyLocal(app: Target, f: Faults, s: Store, kind: Kind, body: Body, sent: Option<int>)
    ensures Local(app, kind, s, ApplyStep(app, f, s, kind, body, sent).store)
  {
    hide AppliedTo;
  }

  lemma DeleteLocal(app: Target, f: Faults, s: Store, kind: Kind)
    ensures Local(app, kind, s, DeleteOwnedStep(app, f, s, kind).store)
  {
  }

  lemma StepsLocal(pf: Platform, app: Target, f: Faults, s: Store)
    ensures Local(app, DeploymentKind, s, SyncDeployment(pf, app, f, s).store)
    ensures Local(app, ServiceKind, s, SyncService(app, f, s).store)
  {
    hide ApplyStep, Local, BuildDeployment, BuildService, Sent;
    ApplyLocal(app, f, s, DeploymentKind, BuildDeployment(pf, app.key, app.spec), Sent(app, s));
    ApplyLocal(app, f, s, ServiceKind, BuildService(app.key, app.spec), None);
  }

  lemma IngressLocal(app: Target, f: Faults, s: Store)
    ensures Local(app, IngressKind, s, SyncIngress(app, f, s).store)
  {
    hide ApplyStep, DeleteOwnedStep, BuildIngress, Adoptable, Local;
    LocalSelf(app, IngressKind, s);
    DeleteLocal(app, f, s, IngressKind);
    var ing := BuildIngress(app.key, app.spec);
    if ing.Good? {
      ApplyLocal(app, f, s, IngressKind, ing.value, None);
    }
  }

  lemma HpaLocal(app: Target, f: Faults, s: Store)
    ensures Local(app, HpaKind, s, SyncHpa(app, f, s).store)
  {
    hide ApplyStep, DeleteOwnedStep, BuildHpa, Adoptable, Local;
    LocalSelf(app, HpaKind, s);
    DeleteLocal(app, f, s, HpaKind);
    if AutoscalingOn(app.spec) && BuildHpa(app.key, app.spec.autoscaling.value).Good? {
      ApplyLocal(app, f, s, HpaKind, BuildHpa(app.key, app.spec.autoscaling.value).value, None);
    }
  }

  lemma LocalSelf(app: Target, kind: Kind, s: Store)
    ensures Local(app, kind, s, s)
  {
  }

  /** A step reads and writes its own kind only, so what happens elsewhere is the same. */
  lemma ServiceIndependent(app: Target, f: Faults, s: Store, t: Store)
    requires At(s, Key(app, ServiceKind)) == At(t, Key(app, ServiceKind))
    ensures At(SyncService(app, f, s).store, Key(app, ServiceKind)) == At(SyncService(app, f, t).store,
        Key(app, ServiceKind))
  {
    hide AppliedTo, BuildService;
  }

  lemma DeleteIndependent(app: Target, f: Faults, s: Store, t: Store, kind: Kind)
    requires At(s, Key(app, kind)) == At(t, Key(app, kind))
    ensures At(DeleteOwnedStep(app, f, s, kind).store, Key(app, kind)) == At(DeleteOwnedStep(app, f, t, kind).store,
        Key(app, kind))
    ensures DeleteOwnedStep(app, f, s, kind).err == DeleteOwnedStep(app, f, t, kind).err
  {
  }

  lemma ApplyIndependent(app: Target, f: Faults, s: Store, t: Store, kind: Kind, body: Body)
    requires At(s, Key(app, kind)) == At(t, Key(app, kind))
    ensures At(ApplyStep(app, f, s, kind, body, None).store,
        Key(app, kind)) == At(ApplyStep(app, f, t, kind, body, None).store, Key(app, kind))
    ensures Adoptable(app, f, s, kind) == Adoptable(app, f, t, kind)
  {
    hide AppliedTo;
  }

  lemma IngressIndependent(app: Target, f: Faults, s: Store, t: Store)
    requires At(s, Key(app, IngressKind)) == At(t, Key(app, IngressKind))
    ensures At(SyncIngress(app, f, s).store, Key(app, IngressKind)) == At(SyncIngress(app, f, t).store,
        Key(app, IngressKind))
    ensures SyncIngress(app, f, s).err == SyncIngress(app, f, t).err
  {
    hide ApplyStep, DeleteOwnedStep, Adoptable, BuildIngress, At;
    DeleteIndependent(app, f, s, t, IngressKind);
    var ing := BuildIngress(app.key, app.spec);
    if ing.Good? {
      ApplyIndependent(app, f, s, t, IngressKind, ing.value);
      ApplyErr(app, f, s, t, IngressKind, ing.value);
    }
  }

  lemma HpaIndependent(app: Target, f: Faults, s: Store, t: Store)
    requires At(s, Key(app, HpaKind)) == At(t, Key(app, HpaKind))
    ensures At(SyncHpa(app, f, s).store, Key(app, HpaKind)) == At(SyncHpa(app, f, t).store, Key(app, HpaKind))
    ensures SyncHpa(app, f, s).err == SyncHpa(app, f, t).err
  {
    hide ApplyStep, DeleteOwnedStep, Adoptable, BuildHpa, At;
    DeleteIndependent(app, f, s, t, HpaKind);
    if AutoscalingOn(app.spec) && BuildHpa(app.key, app.spec.autoscaling.value).Good? {
      ApplyIndependent(app, f, s, t, HpaKind, BuildHpa(app.key, app.spec.autoscaling.value).value);
      ApplyErr(app, f, s, t, HpaKind, BuildHpa(app.key, app.spec.autoscaling.value).value);
    }
  }

  lemma ApplyErr(app: Target, f: Faults, s: Store, t: Store, kind: Kind, body: Body)
    ensures ApplyStep(app, f, s, kind, body, None).err == ApplyStep(app, f, t, kind, body, None).err
  {
  }

  /** First error of the four writing steps, each judged on the store before any of them. */
  function WriteError(pf: Platform, app: Target, f: Faults, s: Store): Option<SyncError> {
    var dep, svc := SyncDeployment(pf, app, f, s).err, SyncService(app, f, s).err;
    var ing, hpa := SyncIngress(app, f, s).err, SyncHpa(app, f, s).err;
    if dep.Some? then dep else if svc.Some? then svc else if ing.Some? then ing else hpa
  }

  /** How far the writing steps get. */
  predicate Reaches(pf: Platform, app: Target, f: Faults, s: Store, kind: Kind) {
    match kind
    case DeploymentKind => true
    case ServiceKind => SyncDeployment(pf, app, f, s).err.None?
    case IngressKind => SyncDeployment(pf, app, f, s).err.None? && SyncService(app, f, s).err.None?
    case HpaKind =>
      SyncDeployment(pf, app, f, s).err.None? && SyncService(app, f, s).err.None? && SyncIngress(app, f, s).err.None?
  }

  function StepOn(pf: Platform, app: Target, f: Faults, s: Store, kind: Kind): Effect {
    match kind
    case DeploymentKind => SyncDeployment(pf, app, f, s)
    case ServiceKind => SyncService(app, f, s)
    case IngressKind => SyncIngress(app, f, s)
    case HpaKind => SyncHpa(app, f, s)
  }

  /** At one key a step of another kind or name changes nothing. */
  lemma StepsAt(pf: Platform, app: Target, f: Faults, s: Store, k: ObjKey)
    ensures k != Key(app, DeploymentKind) ==> At(SyncDeployment(pf, app, f, s).store, k) == At(s, k)
    ensures k != Key(app, ServiceKind) ==> At(SyncService(app, f, s).store, k) == At(s, k)
    ensures k != Key(app, IngressKind) ==> At(SyncIngress(app, f, s).store, k) == At(s, k)
    ensures k != Key(app, HpaKind) ==> At(SyncHpa(app, f, s).store, k) == At(s, k)
  {
    hide SyncDeployment, SyncService, SyncIngress, SyncHpa, At;
    StepsLocal(pf, app, f, s);
    IngressLocal(app, f, s);
    HpaLocal(app, f, s);
  }

  /** The chained writes fail as their first failing step does on the initial store. */
  lemma SyncWritesErr(pf: Platform, app: Target, f: Faults, s: Store)
    ensures SyncWrites(pf, app, f, s).err == WriteError(pf, app, f, s)
  {
    hide SyncDeployment, SyncService, SyncIngress, SyncHpa, At;
    var s1 := SyncDeployment(pf, app, f, s).store;
    var s2 := SyncService(app, f, s1).store;
    var s3 := SyncIngress(app, f, s2).store;
    var i, h := Key(app, IngressKind), Key(app, HpaKind);
    StepsAt(pf, app, f, s, i);
    StepsAt(pf, app, f, s1, i);
    StepsAt(pf, app, f, s, h);
    StepsAt(pf, app, f, s1, h);
    StepsAt(pf, app, f, s2, h);
    ServiceErr(app, f, s1, s);
    IngressIndependent(app, f, s2, s);
    HpaIndependent(app, f, s3, s);
  }

  /** The chained writes, in closed form: each kind gets its own step's result if reached. */
  lemma SyncWritesAt(pf: Platform, app: Target, f: Faults, s: Store, kind: Kind)
    ensures At(SyncWrites(pf, app, f, s).store, Key(app, kind)) ==
      if Reaches(pf, app, f, s, kind) then At(StepOn(pf, app, f, s, kind).store, Key(app, kind))
      else At(s, Key(app, kind))
  {
    hide SyncDeployment, SyncService, SyncIngress, SyncHpa, At;
    var s1 := SyncDeployment(pf, app, f, s).store;
    var s2 := SyncService(app, f, s1).store;
    var s3 := SyncIngress(app, f, s2).store;
    var k := Key(app, kind);
    StepsAt(pf, app, f, s, k);
    StepsAt(pf, app, f, s1, k);
    StepsAt(pf, app, f, s2, k);
    StepsAt(pf, app, f, s3, k);
    ServiceErr(app, f, s1, s);
    match kind
    case DeploymentKind =>
    case ServiceKind =>
      ServiceIndependent(app, f, s1, s);
    case IngressKind =>
      IngressIndependent(app, f, s2, s);
    case HpaKind =>
      var i := Key(app, IngressKind);
      StepsAt(pf, app, f, s, i);
      StepsAt(pf, app, f, s1, i);
      IngressIndependent(app, f, s2, s);
      HpaIndependent(app, f, s3, s);
  }

  lemma SyncWritesElsewhere(pf: Platform, app: Target, f: Faults, s: Store, k: ObjKey)
    requires k.name != app.key
    ensures At(SyncWrites(pf, app, f, s).store, k) == At(s, k)
  {
    hide SyncDeployment, SyncService, SyncIngress, SyncHpa, At;
    var s1 := SyncDeployment(pf, app, f, s).store;
    var s2 := SyncService(app, f, s1).store;
    StepsAt(pf, app, f, s, k);
    StepsAt(pf, app, f, s1, k);
    StepsAt(pf, app, f, s2, k);
    StepsAt(pf, app, f, SyncIngress(app, f, s2).store, k);
  }

  lemma ServiceErr(app: Target, f: Faults, s: Store, t: Store)
    ensures SyncService(app, f, s).err == SyncService(app, f, t).err == Outcome(f, Apply(ServiceKind))
  {
  }

  lemma DeploymentKeeps(pf: Platform, app: Target, f: Faults, s: Store)
    requires NameFree(app, s, DeploymentKind)
    ensures Keeps(app, s, SyncDeployment(pf, app, f, s).store)
  {
    hide Keeps, ApplyStep, BuildDeployment, Sent;
    ApplyKeeps(app, f, s, DeploymentKind, BuildDeployment(pf, app.key, app.spec), Sent(app, s));
  }

  lemma ServiceKeeps(app: Target, f: Faults, s: Store)
    requires NameFree(app, s, ServiceKind)
    ensures Keeps(app, s, SyncService(app, f, s).store)
  {
    hide Keeps, ApplyStep, BuildService;
    ApplyKeeps(app, f, s, ServiceKind, BuildService(app.key, app.spec), None);
  }

  lemma FreeAt(app: Target, s: Store, t: Store, kind: Kind)
    requires At(s, Key(app, kind)) == At(t, Key(app, kind)) && NameFree(app, s, kind)
    ensures NameFree(app, t, kind)
  {
  }

  lemma SyncWritesKeeps(pf: Platform, app: Target, f: Faults, s: Store)
    requires NameFree(app, s, DeploymentKind) && NameFree(app, s, ServiceKind)
    ensures Keeps(app, s, SyncWrites(pf, app, f, s).store)
  {
    hide Keeps, NameFree, SyncDeployment, SyncService, SyncIngress, SyncHpa, At;
    var s1 := SyncDeployment(pf, app, f, s).store;
    var s2 := SyncService(app, f, s1).store;
    var s3 := SyncIngress(app, f, s2).store;
    var s4 := SyncHpa(app, f, s3).store;
    StepsAt(pf, app, f, s, Key(app, ServiceKind));
    FreeAt(app, s, s1, ServiceKind);
    DeploymentKeeps(pf, app, f, s);
    ServiceKeeps(app, f, s1);
    IngressKeeps(app, f, s2);
    HpaKeeps(app, f, s3);
    KeepsTransitive(app, s, s1, s2);
    KeepsTransitive(app, s, s2, s3);
    KeepsTransitive(app, s, s3, s4);
  }

  lemma SyncKeeps(pf: Platform, c: State, app: Target, f: Faults)
    ensures Keeps(app, c.objs, Sync(pf, c, app, f).store)
  {
    hide SyncWrites, Keeps, ScaleCheck;
    if Guard(pf, c, app, f).None? {
      SyncWritesKeeps(pf, app, f, c.objs);
    } else {
      KeepsSelf(app, c.objs);
    }
  }

  lemma {:induction false} TeardownKeeps(app: Target, f: Faults, s: Store, n: nat)
    requires n <= |TEARDOWN_ORDER|
    ensures Keeps(app, s, TeardownTo(app, f, s, n).store)
  {
    hide Keeps, DeleteOwnedStep;
    if n == 0 {
      KeepsSelf(app, s);
    } else {
      var before := TeardownTo(app, f, s, n - 1);
      TeardownKeeps(app, f, s, n - 1);
      DeleteKeeps(app, f, before.store, TEARDOWN_ORDER[n - 1]);
      KeepsTransitive(app, s, before.store, DeleteOwnedStep(app, f, before.store, TEARDOWN_ORDER[n - 1]).store);
    }
  }

  /* A whole pass. */

  /** Between two states only the WebApp at key may differ, by finalizers and status, or vanish. */
  ghost predicate OnlyApp(c: State, d: State, key: NsName) {
    && d.policies == c.policies && d.namespaces == c.namespaces && d.appUids == c.appUids
    && d.apps.Keys <= c.apps.Keys
    && (forall n :: n in c.apps && n != key ==> n in d.apps && d.apps[n] == c.apps[n])
    && (key in d.apps ==>
          d.apps[key].(finalizers := {}, status := c.apps[key].status) == c.apps[key].(finalizers := {}))
  }

  ghost predicate WellKeyed(c: State) { forall n :: n in c.apps ==> c.apps[n].key == n }

  lemma PatchedFrame(c: State, app: WebApp, st: WebAppStatus, f: Faults)
    requires app.key in c.apps && c.apps[app.key] == app
    ensures var d := Patched(c, app, st, f);
      && OnlyApp(c, d, app.key) && d.apps.Keys == c.apps.Keys && d.objs == c.objs
      && d.apps[app.key].finalizers == app.finalizers
      && d.apps[app.key].status == if Lands(f, PatchStatus) then st else app.status
  {
  }

  lemma SettleFrame(pf: Platform, c: State, app: WebApp, f: Faults, now: nat)
    requires app.key in c.apps && c.apps[app.key] == app
    ensures var o := Settle(pf, c, app, f, now);
      && OnlyApp(c, o.state, app.key) && o.state.apps.Keys == c.apps.Keys
      && o.state.apps[app.key].finalizers == app.finalizers
      && o.state.objs == Sync(pf, c, AimOf(app), f).store && o.writes == Sync(pf, c, AimOf(app), f).writes
  {
    hide Sync, FailedStatus, SyncedStatus, Patched, OnlyApp;
    var sync := Sync(pf, c, AimOf(app), f);
    var c1 := c.(objs := sync.store);
    OnlyAppSelf(c, c1, app.key);
    if sync.err.Some? {
      PatchedFrame(c1, app, FailedStatus(app, sync.err.value, now), f);
      OnlyAppObjs(c, c1, Patched(c1, app, FailedStatus(app, sync.err.value, now), f), app.key);
    } else {
      var st := SyncedStatus(app, At(sync.store, ObjKey(DeploymentKind, app.key)), now);
      PatchedFrame(c1, app, st, f);
      OnlyAppObjs(c, c1, Patched(c1, app, st, f), app.key);
    }
  }

  lemma OnlyAppSelf(c: State, d: State, key: NsName)
    requires d == c.(objs := d.objs)
    ensures OnlyApp(c, d, key)
  {
  }

  lemma OnlyAppObjs(c: State, c1: State, d: State, key: NsName)
    requires c1 == c.(objs := c1.objs) && OnlyApp(c1, d, key)
    ensures OnlyApp(c, d, key)
  {
  }

  lemma UnfinalizedFrame(c: State, app: WebApp)
    requires app.key in c.apps && c.apps[app.key] == app
    ensures var d := Unfinalized(c, app);
      && OnlyApp(c, d, app.key) && d.objs == c.objs
      && (app.key in d.apps ==> d.apps[app.key].status == app.status)
  {
  }

  lemma FinalizeFrame(c: State, app: WebApp, f: Faults)
    requires app.key in c.apps && c.apps[app.key] == app
    ensures var o := Finalize(c, app, f);
      && OnlyApp(c, o.state, app.key)
      && (app.key in o.state.apps ==> o.state.apps[app.key].status == app.status)
      && Keeps(AimOf(app), c.objs, o.state.objs)
  {
    hide Teardown, Keeps, OnlyApp, Unfinalized;
    TeardownKeeps(AimOf(app), f, c.objs, |TEARDOWN_ORDER|);
    KeepsSelf(AimOf(app), c.objs);
    TeardownIs(AimOf(app), f, c.objs);
    var c1 := c.(objs := Teardown(AimOf(app), f, c.objs).store);
    UnfinalizedFrame(c1, app);
    OnlyAppSelf(c, c, app.key);
    OnlyAppSelf(c, c1, app.key);
    OnlyAppObjs(c, c1, Unfinalized(c1, app), app.key);
  }

  lemma {:induction false} TeardownIs(app: Target, f: Faults, s: Store)
    ensures Teardown(app, f, s) == TeardownTo(app, f, s, |TEARDOWN_ORDER|)
  {
  }
}
