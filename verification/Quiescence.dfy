/** Reconciling again with nothing changed and nothing failing. */
module Quiescence {
  import opened Base
  import opened Api
  import opened Builders
  import opened Policies
  import opened Conditions
  import opened Cluster
  import opened Pass
  import opened Steps
  import opened Deletion
  import opened Runs
  import opened Convergence

  /* The objects. */

  /** Equal but for who owns spec.replicas. */
  predicate SameButOwners(a: Option<Object>, b: Option<Object>) {
    a.Some? == b.Some? && (a.Some? ==> b.value == a.value.(managed := b.value.managed))
  }

  lemma {:induction false} GrantTwice(managed: seq<ManagedEntry>)
    ensures Grant(Grant(managed)) == Grant(managed)
  {
    GrantExact(managed);
  }

  /** Sending the same again changes nothing. */
  lemma ApplyReplicasTwice(r: Replicas, sent: Option<int>)
    ensures ApplyReplicas(ApplyReplicas(r, sent), sent) == ApplyReplicas(r, sent)
  {
    hide ReplicaOwners;
    ApplyReplicasOwners(r, sent);
    GrantTwice(r.managed);
    GrantTwice(Drop(r.managed, false));
  }

  lemma FreshApplyTwice(sent: Option<int>)
    ensures var r := Replicas(sent.GetOr(1), if sent.Some? then [OUR_CLAIM] else []); ApplyReplicas(r, sent) == r
  {
    if sent.Some? {
      OwnersExact([OUR_CLAIM], FIELD_OWNER);
      assert [OUR_CLAIM][0].Claims();
    } else {
      assert ReplicaOwners([]) == {};
    }
  }

  lemma AppliedTwice(o: Option<Object>, uid: Uid, body: Body, sent: Option<int>)
    ensures AppliedTo(Some(AppliedTo(o, uid, body, sent)), uid, body, sent) == AppliedTo(o, uid, body, sent)
  {
    hide ApplyReplicas, ReplicaOwners;
    if o.Some? {
      ApplyReplicasTwice(Replicas(o.value.replicas, o.value.managed), sent);
    } else {
      FreshApplyTwice(sent);
    }
  }

  /** What is held for an existing Deployment is held again after the apply. */
  lemma HoldStands(app: Target, s: Store, t: Store, body: Body)
    requires AutoscalingOn(app.spec) && body.DeploymentBody?
    requires var k := Key(app, DeploymentKind);
      k in s && At(t, k) == Some(AppliedTo(At(s, k), app.uid, body, Hold(app, s)))
    ensures Hold(app, t) == Hold(app, s)
  {
    hide ReplicaOwners;
    var was := s[Key(app, DeploymentKind)];
    ApplyReplicasOwners(Replicas(was.replicas, was.managed), Hold(app, s));
    OwnedByOtherExact(was.managed);
    OwnedByOtherExact(t[Key(app, DeploymentKind)].managed);
  }

  /** A Deployment just created while autoscaling has no owner for its count and is claimed next. */
  lemma HoldOfCreated(app: Target, t: Store, body: Body)
    requires At(t, Key(app, DeploymentKind)) == Some(AppliedTo(None, app.uid, body, None))
    ensures Hold(app, t) == Some(1)
  {
  }

  lemma SentStands(pf: Platform, app: Target, s: Store, t: Store)
    requires var k := Key(app, DeploymentKind);
      At(t, k) == Some(AppliedTo(At(s, k), app.uid, BuildDeployment(pf, app.key, app.spec), Sent(app, s)))
    ensures Sent(app, t) == Sent(app, s) ||
        (Key(app, DeploymentKind) !in s && Sent(app, s) == None && Sent(app, t) == Some(1))
  {
    hide AppliedTo, OwnedByOther;
    var body := BuildDeployment(pf, app.key, app.spec);
    if AutoscalingOn(app.spec) {
      if Key(app, DeploymentKind) in s {
        HoldStands(app, s, t, body);
      } else {
        HoldOfCreated(app, t, body);
      }
    }
  }

  /** Applying the Deployment again moves at most its owners. */
  lemma DeploymentTwice(pf: Platform, app: Target, s: Store, t: Store)
    requires var k := Key(app, DeploymentKind); At(t, k) == At(SyncDeployment(pf, app, NO_FAULTS, s).store, k)
    ensures var k := Key(app, DeploymentKind); var again := At(SyncDeployment(pf, app, NO_FAULTS, t).store, k);
      && SameButOwners(At(t, k), again)
      && (k in s ==> again == At(t, k))
  {
    hide AppliedTo, BuildDeployment, Sent;
    var body := BuildDeployment(pf, app.key, app.spec);
    var was := At(s, Key(app, DeploymentKind));
    SentStands(pf, app, s, t);
    AppliedTwice(was, app.uid, body, Sent(app, s));
    if Sent(app, t) != Sent(app, s) {
      CreatedThenClaimed(app.uid, body);
    }
  }

  lemma CreatedThenClaimed(uid: Uid, body: Body)
    ensures SameButOwners(Some(AppliedTo(None, uid, body, None)),
        Some(AppliedTo(Some(AppliedTo(None, uid, body, None)), uid, body, Some(1))))
  {
  }

  lemma ServiceTwice(app: Target, s: Store, t: Store)
    requires At(t, Key(app, ServiceKind)) == At(SyncService(app, NO_FAULTS, s).store, Key(app, ServiceKind))
    ensures At(SyncService(app, NO_FAULTS, t).store, Key(app, ServiceKind)) == At(t, Key(app, ServiceKind))
  {
    hide AppliedTo, BuildService;
    AppliedTwice(At(s, Key(app, ServiceKind)), app.uid, BuildService(app.key, app.spec), None);
  }

  lemma IngressTwice(app: Target, s: Store, t: Store)
    requires At(t, Key(app, IngressKind)) == At(SyncIngress(app, NO_FAULTS, s).store, Key(app, IngressKind))
    ensures At(SyncIngress(app, NO_FAULTS, t).store, Key(app, IngressKind)) == At(t, Key(app, IngressKind))
    ensures SyncIngress(app, NO_FAULTS, t).err == SyncIngress(app, NO_FAULTS, s).err
  {
    hide BuildIngress, ApplyReplicas;
    var body := BuildIngress(app.key, app.spec);
    if WantsIngress(app.spec) && body.Good? {
      AppliedTwice(At(s, Key(app, IngressKind)), app.uid, body.value, None);
    }
  }

  lemma HpaTwice(app: Target, s: Store, t: Store)
    requires At(t, Key(app, HpaKind)) == At(SyncHpa(app, NO_FAULTS, s).store, Key(app, HpaKind))
    ensures At(SyncHpa(app, NO_FAULTS, t).store, Key(app, HpaKind)) == At(t, Key(app, HpaKind))
    ensures SyncHpa(app, NO_FAULTS, t).err == SyncHpa(app, NO_FAULTS, s).err
  {
    hide BuildHpa, ApplyReplicas;
    if AutoscalingOn(app.spec) && BuildHpa(app.key, app.spec.autoscaling.value).Good? {
      AppliedTwice(At(s, Key(app, HpaKind)), app.uid, BuildHpa(app.key, app.spec.autoscaling.value).value, None);
    }
  }

  lemma NoFaultsDeployment(pf: Platform, app: Target, s: Store)
    ensures SyncDeployment(pf, app, NO_FAULTS, s).err.None? && SyncService(app, NO_FAULTS, s).err.None?
  {
  }

  lemma HpaSettled(app: Target, s: Store, t: Store)
    requires At(t, Key(app, HpaKind)) == At(s, Key(app, HpaKind))
    ensures SyncHpa(app, NO_FAULTS, t).err == SyncHpa(app, NO_FAULTS, s).err
  {
    HpaIndependent(app, NO_FAULTS, s, t);
  }

  /** The writing steps again on their own result: same error; each kind as it was, up to the
      owners of a Deployment the first round created. */
  lemma SyncWritesTwice(pf: Platform, app: Target, s: Store, kind: Kind)
    ensures var t := SyncWrites(pf, app, NO_FAULTS, s).store; var k := Key(app, kind);
      && SyncWrites(pf, app, NO_FAULTS, t).err == SyncWrites(pf, app, NO_FAULTS, s).err
      && (if kind == DeploymentKind then SameButOwners(At(t, k), At(SyncWrites(pf, app, NO_FAULTS, t).store, k))
          else At(SyncWrites(pf, app, NO_FAULTS, t).store, k) == At(t, k))
      && (k in s ==> At(SyncWrites(pf, app, NO_FAULTS, t).store, k) == At(t, k))
  {
    hide SyncDeployment, SyncService, SyncIngress, SyncHpa, SyncWrites, At, SameButOwners;
    var f := NO_FAULTS;
    var t := SyncWrites(pf, app, f, s).store;
    NoFaultsDeployment(pf, app, s);
    NoFaultsDeployment(pf, app, t);
    SyncWritesErr(pf, app, f, s);
    SyncWritesErr(pf, app, f, t);
    SyncWritesAt(pf, app, f, s, IngressKind);
    IngressTwice(app, s, t);
    SyncWritesAt(pf, app, f, s, HpaKind);
    if Reaches(pf, app, f, s, HpaKind) {
      HpaTwice(app, s, t);
    } else {
      HpaSettled(app, s, t);
    }
    SyncWritesAt(pf, app, f, s, kind);
    SyncWritesAt(pf, app, f, t, kind);
    if kind == DeploymentKind {
      DeploymentTwice(pf, app, s, t);
    } else if kind == ServiceKind {
      ServiceTwice(app, s, t);
    }
    KeyAt(app, s, t, kind);
  }

  lemma KeyAt(app: Target, s: Store, t: Store, kind: Kind)
    ensures SameButOwners(At(t, Key(app, kind)), At(t, Key(app, kind)))
  {
  }

  /** All objects of two stores agree, the Deployment of this WebApp up to its owners. */
  ghost predicate OwnersOnly(app: Target, s: Store, t: Store) {
    && (forall k :: k != Key(app, DeploymentKind) ==> At(t, k) == At(s, k))
    && SameButOwners(At(s, Key(app, DeploymentKind)), At(t, Key(app, DeploymentKind)))
  }

  lemma StoresEqual(s: Store, t: Store)
    requires forall k :: At(s, k) == At(t, k)
    ensures s == t
  {
    forall k ensures k in s <==> k in t {
      assert At(s, k) == At(t, k);
    }
    forall k | k in s ensures s[k] == t[k] {
      assert At(s, k) == At(t, k);
    }
  }

  lemma SyncWritesTwiceAll(pf: Platform, app: Target, s: Store)
    ensures var t := SyncWrites(pf, app, NO_FAULTS, s).store; var u := SyncWrites(pf, app, NO_FAULTS, t).store;
      && OwnersOnly(app, t, u)
      && SyncWrites(pf, app, NO_FAULTS, t).err == SyncWrites(pf, app, NO_FAULTS, s).err
      && (Key(app, DeploymentKind) in s ==> u == t)
  {
    hide SyncWrites, At, SameButOwners;
    var t := SyncWrites(pf, app, NO_FAULTS, s).store;
    var u := SyncWrites(pf, app, NO_FAULTS, t).store;
    forall k: ObjKey
      ensures k != Key(app, DeploymentKind) ==> At(u, k) == At(t, k)
      ensures Key(app, DeploymentKind) in s ==> At(u, k) == At(t, k)
    {
      if k.name == app.key {
        SyncWritesTwice(pf, app, s, k.kind);
        assert k == Key(app, k.kind);
      } else {
        SyncWritesElsewhere(pf, app, NO_FAULTS, t, k);
      }
    }
    SyncWritesTwice(pf, app, s, DeploymentKind);
    if Key(app, DeploymentKind) in s {
      StoresEqual(t, u);
    }
  }

  /** After the writing steps the guards still pass. */
  lemma GuardStands(pf: Platform, c: State, d: State, app: Target)
    requires Guard(pf, c, app, NO_FAULTS).None? && d.policies == c.policies && d.namespaces == c.namespaces
    requires NameFree(app, d.objs, DeploymentKind) && NameFree(app, d.objs, ServiceKind)
    ensures Guard(pf, d, app, NO_FAULTS).None?
  {
    hide Evaluated;
  }

  lemma WrittenNamesFree(pf: Platform, app: Target, s: Store)
    ensures var t := SyncWrites(pf, app, NO_FAULTS, s).store;
      NameFree(app, t, DeploymentKind) && NameFree(app, t, ServiceKind) && Key(app, DeploymentKind) in t
  {
    hide SyncWrites, BuildDeployment, BuildService, AppliedTo;
    SyncWritesAt(pf, app, NO_FAULTS, s, DeploymentKind);
    SyncWritesAt(pf, app, NO_FAULTS, s, ServiceKind);
    AppliedControls(pf, app, s);
  }

  lemma AppliedControls(pf: Platform, app: Target, s: Store)
    ensures ControlledBy(SyncDeployment(pf, app, NO_FAULTS, s).store, Key(app, DeploymentKind), app.uid)
    ensures ControlledBy(SyncService(app, NO_FAULTS, s).store, Key(app, ServiceKind), app.uid)
  {
  }

  /** A second sync ends as the first and changes at most who owns the count; after that, or
      if the Deployment existed before, nothing. */
  lemma SyncTwice(pf: Platform, c: State, d: State, app: Target)
    requires d.policies == c.policies && d.namespaces == c.namespaces && d.objs == Sync(pf, c, app, NO_FAULTS).store
    ensures var again := Sync(pf, d, app, NO_FAULTS);
      && again.err == Sync(pf, c, app, NO_FAULTS).err
      && OwnersOnly(app, d.objs, again.store)
      && (Key(app, DeploymentKind) in c.objs || Key(app, DeploymentKind) !in d.objs ==> again.store == d.objs)
  {
    hide SyncWrites, ScaleCheck, OwnersOnly, Guard;
    OwnersSelf(app, d.objs);
    if Guard(pf, c, app, NO_FAULTS).None? {
      WrittenNamesFree(pf, app, c.objs);
      GuardStands(pf, c, d, app);
      SyncWritesTwiceAll(pf, app, c.objs);
    } else {
      GuardSame(pf, c, d, app);
    }
  }

  lemma OwnersSelf(app: Target, s: Store)
    ensures OwnersOnly(app, s, s)
  {
  }

  lemma GuardSame(pf: Platform, c: State, d: State, app: Target)
    requires d.policies == c.policies && d.namespaces == c.namespaces && d.objs == c.objs
    ensures Guard(pf, d, app, NO_FAULTS) == Guard(pf, c, app, NO_FAULTS)
  {
    hide Evaluated, Adoptable;
  }

  /* The status. */

  /** Reporting the same outcome again, later, leaves the status as it is. */
  lemma StatusTwice(app: WebApp, e: Effect, again: Effect, now: nat, later: nat)
    requires again.err == e.err
    requires var k := ObjKey(DeploymentKind, app.key); SameButOwners(At(e.store, k), At(again.store, k))
    ensures var st := StatusOf(app, e, now); StatusOf(app.(status := st), again, later) == st
  {
    hide FailureConditions, DeploymentConditions, NoDeploymentConditions;
    var t, u := Stamp(app.generation, now), Stamp(app.generation, later);
    var cs := app.status.conditions;
    if e.err.Some? {
      FailureConditionsRepeat(cs, t, u, e.err.value);
    } else {
      var dep := At(e.store, ObjKey(DeploymentKind, app.key));
      NoDeploymentConditionsRepeat(cs, t, u);
      if dep.Some? {
        DeploymentConditionsRepeat(cs, t, u, View(dep.value));
      }
    }
  }

  /* Whole passes. */

  ghost function Undisturbed(pf: Platform, c: State, key: NsName, now: nat): State {
    Reconciled(pf, c, key, NO_FAULTS, now).state
  }

  lemma UndisturbedSettle(pf: Platform, c: State, app: WebApp, now: nat)
    ensures var sync := Sync(pf, c, AimOf(app), NO_FAULTS);
      Settle(pf, c, app, NO_FAULTS, now).state ==
        c.(objs := sync.store, apps := c.apps[app.key := app.(status := StatusOf(app, sync, now))])
  {
    hide Sync, FailedStatus, SyncedStatus;
  }

  /** A fault-free pass over a live WebApp, in closed form. */
  lemma UndisturbedLive(pf: Platform, c: State, key: NsName, now: nat)
    requires WellKeyed(c) && key in c.apps && !c.apps[key].deleting
    ensures var app := c.apps[key]; var sync := Sync(pf, c, AimOf(app), NO_FAULTS);
      var after := app.(finalizers := app.finalizers + {FINALIZER}, status := StatusOf(app, sync, now));
      Undisturbed(pf, c, key, now) == c.(objs := sync.store, apps := c.apps[key := after])
  {
    hide Sync, Settle, StatusOf;
    var app := c.apps[key];
    var held := Finalizing(app);
    if FINALIZER in app.finalizers {
      assert held == app;
      UndisturbedSettle(pf, c, app, now);
    } else {
      var c1 := WithApp(c, held);
      UndisturbedSettle(pf, c1, held, now);
      SyncSame(pf, c, c1, AimOf(app), NO_FAULTS);
      StatusIgnoresFinalizers(app, held, Sync(pf, c, AimOf(app), NO_FAULTS), now);
    }
  }

  /** Two states that differ at most in who owns one Deployment's count. */
  ghost predicate OwnersMoved(c: State, d: State, key: NsName) {
    && d == c.(objs := d.objs)
    && (forall k :: k != ObjKey(DeploymentKind, key) ==> At(d.objs, k) == At(c.objs, k))
    && SameButOwners(At(c.objs, ObjKey(DeploymentKind, key)), At(d.objs, ObjKey(DeploymentKind, key)))
  }

  lemma LiveTwice(pf: Platform, c: State, key: NsName, now: nat, later: nat)
    requires WellKeyed(c) && key in c.apps && !c.apps[key].deleting
    ensures var d := Undisturbed(pf, c, key, now); var e := Undisturbed(pf, d, key, later);
      && WellKeyed(d) && key in d.apps && !d.apps[key].deleting && AimOf(d.apps[key]) == AimOf(c.apps[key])
      && OwnersMoved(d, e, key)
      && (ObjKey(DeploymentKind, key) in c.objs || ObjKey(DeploymentKind, key) !in d.objs ==> e == d)
  {
    hide Sync, FailedStatus, SyncedStatus, Undisturbed, At;
    var app := c.apps[key];
    var d := Undisturbed(pf, c, key, now);
    UndisturbedLive(pf, c, key, now);
    UndisturbedLive(pf, d, key, later);
    var sync, again := Sync(pf, c, AimOf(app), NO_FAULTS), Sync(pf, d, AimOf(app), NO_FAULTS);
    SyncTwice(pf, c, d, AimOf(app));
    StatusTwice(app, sync, again, now, later);
    StatusIgnoresFinalizers(app, d.apps[key], again, later);
    var e := Undisturbed(pf, d, key, later);
    assert d.apps[key].finalizers + {FINALIZER} == d.apps[key].finalizers;
    assert e.apps == d.apps;
  }

  lemma StatusIgnoresFinalizers(app: WebApp, held: WebApp, e: Effect, now: nat)
    requires held == app.(finalizers := held.finalizers, status := held.status)
    ensures StatusOf(held, e, now) == StatusOf(app.(status := held.status), e, now)
  {
    hide FailureConditions, DeploymentConditions, NoDeploymentConditions;
  }

  lemma DeletingTwice(pf: Platform, c: State, key: NsName, now: nat, later: nat)
    requires WellKeyed(c) && key in c.apps && c.apps[key].deleting
    ensures var d := Undisturbed(pf, c, key, now); Undisturbed(pf, d, key, later) == d
  {
    hide Finalize, Deletable, Remaining, Keeps;
    var app, d := c.apps[key], Undisturbed(pf, c, key, now);
    DeletingPass(pf, c, key, NO_FAULTS, now);
    if FINALIZER in app.finalizers {
      FinalizeExact(c, app, NO_FAULTS);
      NothingFails(AimOf(app), c.objs);
    }
    if key in d.apps {
      ReleasedStays(d, d.apps[key], NO_FAULTS);
    }
  }

  /** With nobody else moving and no call failing, whatever the first pass found and however it
      ended, a second changes at most who owns spec.replicas, and a third nothing at all. */
  lemma Quiesces(pf: Platform, c: State, key: NsName, t1: nat, t2: nat, t3: nat)
    requires WellKeyed(c)
    ensures var c1 := Undisturbed(pf, c, key, t1);
      var c2 := Undisturbed(pf, c1, key, t2);
      OwnersMoved(c1, c2, key) && Undisturbed(pf, c2, key, t3) == c2
  {
    hide Undisturbed, SameButOwners, At;
    var c1 := Undisturbed(pf, c, key, t1);
    var c2 := Undisturbed(pf, c1, key, t2);
    OwnersSelfState(c1, key);
    if key !in c.apps {
      MissingStays(pf, c, key, t1);
      MissingStays(pf, c, key, t2);
      MissingStays(pf, c, key, t3);
    } else if c.apps[key].deleting {
      DeletingTwice(pf, c, key, t1, t2);
      DeletingTwice(pf, c, key, t1, t3);
    } else {
      LiveTwice(pf, c, key, t1, t2);
      LiveTwice(pf, c1, key, t2, t3);
      SameKeys(c1, c2, key);
    }
  }

  lemma OwnersSelfState(c: State, key: NsName)
    ensures OwnersMoved(c, c, key)
  {
  }

  lemma SameKeys(c: State, d: State, key: NsName)
    requires OwnersMoved(c, d, key)
    ensures ObjKey(DeploymentKind, key) in c.objs <==> ObjKey(DeploymentKind, key) in d.objs
  {
  }

  lemma MissingStays(pf: Platform, c: State, key: NsName, now: nat)
    requires key !in c.apps
    ensures Undisturbed(pf, c, key, now) == c
  {
  }
}
