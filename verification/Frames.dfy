/** What the operator leaves alone: other people's objects, and the replica count while
    something else scales. */
module Frames {
  import opened Base
  import opened Api
  import opened Builders
  import opened Conditions
  import opened Cluster
  import opened Pass
  import opened Steps
  import opened Deletion
  import opened Runs

  /* Foreign objects. */

  /** Every write is about an object of the WebApp's name that it is free to write. */
  ghost predicate WritesOurs(app: Target, s: Store, writes: seq<Write>) {
    forall w :: w in writes ==>
      w.key.name == app.key && NameFree(app, s, w.key.kind) && (w.Applied? ==> w.uid == app.uid)
  }

  lemma DeleteOurs(app: Target, f: Faults, s: Store, kind: Kind)
    ensures WritesOurs(app, s, DeleteOwnedStep(app, f, s, kind).writes)
  {
  }

  lemma StepOurs(pf: Platform, app: Target, f: Faults, s: Store, kind: Kind)
    requires kind.DeploymentKind? || kind.ServiceKind? ==> Adoptable(app, f, s, kind).None?
    ensures WritesOurs(app, s, StepOn(pf, app, f, s, kind).writes)
    ensures forall w :: w in StepOn(pf, app, f, s, kind).writes ==> w.key == Key(app, kind)
  {
    hide AppliedTo, BuildDeployment, BuildService, BuildIngress, BuildHpa, Sent;
    DeleteOurs(app, f, s, kind);
  }

  lemma OursMoved(app: Target, s: Store, t: Store, kind: Kind, writes: seq<Write>)
    requires At(s, Key(app, kind)) == At(t, Key(app, kind)) && WritesOurs(app, t, writes)
    requires forall w :: w in writes ==> w.key == Key(app, kind)
    ensures WritesOurs(app, s, writes)
  {
  }

  lemma SyncWritesOurs(pf: Platform, app: Target, f: Faults, s: Store)
    requires Adoptable(app, f, s, DeploymentKind).None? && Adoptable(app, f, s, ServiceKind).None?
    ensures WritesOurs(app, s, SyncWrites(pf, app, f, s).writes)
  {
    hide SyncDeployment, SyncService, SyncIngress, SyncHpa, At, WritesOurs;
    var dep := SyncDeployment(pf, app, f, s);
    var svc := SyncService(app, f, dep.store);
    var ing := SyncIngress(app, f, svc.store);
    var hpa := SyncHpa(app, f, ing.store);
    StepsAt(pf, app, f, s, Key(app, ServiceKind));
    StepsAt(pf, app, f, s, Key(app, IngressKind));
    StepsAt(pf, app, f, dep.store, Key(app, IngressKind));
    StepsAt(pf, app, f, s, Key(app, HpaKind));
    StepsAt(pf, app, f, dep.store, Key(app, HpaKind));
    StepsAt(pf, app, f, svc.store, Key(app, HpaKind));
    AdoptableAt(app, f, s, dep.store, ServiceKind);
    StepOurs(pf, app, f, s, DeploymentKind);
    StepOurs(pf, app, f, dep.store, ServiceKind);
    StepOurs(pf, app, f, svc.store, IngressKind);
    StepOurs(pf, app, f, ing.store, HpaKind);
    OursMoved(app, s, dep.store, ServiceKind, svc.writes);
    OursMoved(app, s, svc.store, IngressKind, ing.writes);
    OursMoved(app, s, ing.store, HpaKind, hpa.writes);
    OursTogether(app, s, dep.writes, svc.writes);
    OursTogether(app, s, dep.writes + svc.writes, ing.writes);
    OursTogether(app, s, dep.writes + svc.writes + ing.writes, hpa.writes);
  }

  lemma OursTogether(app: Target, s: Store, a: seq<Write>, b: seq<Write>)
    requires WritesOurs(app, s, a) && WritesOurs(app, s, b)
    ensures WritesOurs(app, s, a + b)
  {
  }

  lemma AdoptableAt(app: Target, f: Faults, s: Store, t: Store, kind: Kind)
    requires At(s, Key(app, kind)) == At(t, Key(app, kind))
    ensures Adoptable(app, f, s, kind) == Adoptable(app, f, t, kind)
  {
  }

  lemma {:induction false} TeardownOurs(app: Target, f: Faults, s: Store, n: nat)
    requires n <= |TEARDOWN_ORDER|
    ensures WritesOurs(app, s, TeardownTo(app, f, s, n).writes)
  {
    hide DeleteOwnedStep;
    if n > 0 {
      var kind := TEARDOWN_ORDER[n - 1];
      var before := TeardownTo(app, f, s, n - 1);
      TeardownOurs(app, f, s, n - 1);
      TeardownDeletes(app, f, s, n - 1);
      DeleteRemaining(app, f, before.store, kind);
    }
  }

  /** The empty list of writes is ours. */
  lemma NothingOurs(app: Target, s: Store)
    ensures WritesOurs(app, s, [])
  {
  }

  /** Any pass, any failures: every call that writes is about an object of the acting WebApp's
      name that was missing or under its control when the pass began; no object under other
      control, or none, is changed; and no other WebApp, policy or namespace is. */
  lemma ForeignUntouched(pf: Platform, c: State, key: NsName, f: Faults, now: nat)
    requires WellKeyed(c) && key in c.apps
    ensures var app, o := AimOf(c.apps[key]), Reconciled(pf, c, key, f, now);
      && WritesOurs(app, c.objs, o.writes)
      && Keeps(app, c.objs, o.state.objs)
      && OnlyApp(c, o.state, key)
  {
    hide Sync, Settle, Finalize, OnlyApp, Keeps, WritesOurs, Remaining;
    var app := c.apps[key];
    NothingOurs(AimOf(app), c.objs);
    if app.deleting {
      DeletingPass(pf, c, key, f, now);
      FinalizeOurs(c, app, f);
    } else {
      LivePass(pf, c, key, f, now);
      LiveWrites(pf, c, key, f, now);
      SyncOurs(pf, c, AimOf(app), f);
    }
  }

  lemma FinalizeOurs(c: State, app: WebApp, f: Faults)
    ensures WritesOurs(AimOf(app), c.objs, Finalize(c, app, f).writes)
  {
    hide TeardownTo, WritesOurs;
    NothingOurs(AimOf(app), c.objs);
    TeardownOurs(AimOf(app), f, c.objs, |TEARDOWN_ORDER|);
  }

  lemma SyncOurs(pf: Platform, c: State, app: Target, f: Faults)
    ensures WritesOurs(app, c.objs, Sync(pf, c, app, f).writes)
  {
    hide SyncWrites, WritesOurs, ScaleCheck;
    NothingOurs(app, c.objs);
    if Guard(pf, c, app, f).None? {
      SyncWritesOurs(pf, app, f, c.objs);
    }
  }

  /** A live pass changes the objects and asks for writes as its sync does, or not at all. */
  lemma LiveWrites(pf: Platform, c: State, key: NsName, f: Faults, now: nat)
    requires WellKeyed(c) && key in c.apps && !c.apps[key].deleting
    ensures var o, sync := Reconciled(pf, c, key, f, now), Sync(pf, c, AimOf(c.apps[key]), f);
      (o.state.objs == c.objs && o.writes == []) || (o.state.objs == sync.store && o.writes == sync.writes)
  {
    hide Sync, Settle;
    var app := c.apps[key];
    if FINALIZER in app.finalizers {
      SettleFrame(pf, c, app, f, now);
    } else {
      var c1 := WithApp(c, Finalizing(app));
      SettleFrame(pf, c1, Finalizing(app), f, now);
      SyncSame(pf, c, c1, AimOf(app), f);
    }
  }

  /** If someone else has the Deployment's or the Service's name, none of the four is written. */
  lemma TakenNameStopsAll(pf: Platform, c: State, key: NsName, f: Faults, now: nat)
    requires WellKeyed(c) && key in c.apps && !c.apps[key].deleting
    requires var app := AimOf(c.apps[key]);
      !NameFree(app, c.objs, DeploymentKind) || !NameFree(app, c.objs, ServiceKind)
    ensures var o := Reconciled(pf, c, key, f, now);
      && o.writes == [] && o.state.objs == c.objs && Sync(pf, c, AimOf(c.apps[key]), f).err.Some?
  {
    hide SyncWrites, ScaleCheck, Reconciled;
    LiveWrites(pf, c, key, f, now);
    var app := AimOf(c.apps[key]);
    assert Adoptable(app, f, c.objs, DeploymentKind).Some? || Adoptable(app, f, c.objs, ServiceKind).Some?;
  }

  /** Nobody else's move touches the object at k. */
  ghost predicate LeftAlone(pf: Platform, c: State, run: seq<Move>, k: ObjKey) {
    forall i :: 0 <= i < |run| && run[i].Others? ==> At(run[i].next.objs, k) == At(Reached(pf, c, run[..i]).objs, k)
  }

  predicate Foreign(c: State, k: ObjKey) {
    k in c.objs && (c.objs[k].controller.Some? ==> c.objs[k].controller.value !in c.appUids)
  }

  lemma LeftAlonePrefix(pf: Platform, c: State, run: seq<Move>, k: ObjKey)
    requires LeftAlone(pf, c, run, k) && run != []
    ensures LeftAlone(pf, c, run[..|run| - 1], k)
  {
    var init := run[..|run| - 1];
    forall i | 0 <= i < |init| && init[i].Others? ensures At(init[i].next.objs,
        k) == At(Reached(pf, c, init[..i]).objs, k) {
      assert init[..i] == run[..i] && init[i] == run[i];
    }
  }

  /** Over a whole run an object no WebApp controls stays exactly as it was, unless others change it. */
  lemma {:induction false} ForeignSurvivesRun(pf: Platform, c: State, run: seq<Move>, k: ObjKey)
    requires Sound(c) && Legal(pf, c, run) && LeftAlone(pf, c, run, k) && Foreign(c, k)
    ensures var d := Reached(pf, c, run); Foreign(d, k) && d.objs[k] == c.objs[k]
  {
    hide Legal, LeftAlone, OthersMove, Sound, Reconciled;
    if run != [] {
      var init, m := run[..|run| - 1], run[|run| - 1];
      LegalPrefix(pf, c, run);
      LeftAlonePrefix(pf, c, run, k);
      ForeignSurvivesRun(pf, c, init, k);
      RunsAreSound(pf, c, init);
      var d := Reached(pf, c, init);
      match m
      case Others(next) =>
        LastLeft(pf, c, run, k);
        OthersLeave(d, next, k);
      case Operator(key, f, now) =>
        PassLeaves(pf, d, key, f, now, k);
    }
  }

  lemma {:induction false} LastLeft(pf: Platform, c: State, run: seq<Move>, k: ObjKey)
    requires run != [] && LeftAlone(pf, c, run, k)
    ensures var m := run[|run| - 1]; m.Others? ==> At(m.next.objs, k) == At(Reached(pf, c, run[..|run| - 1]).objs, k)
  {
  }

  lemma OthersLeave(c: State, d: State, k: ObjKey)
    requires Sound(c) && OthersMove(c, d) && Foreign(c, k) && At(d.objs, k) == At(c.objs, k)
    ensures Foreign(d, k) && d.objs[k] == c.objs[k]
  {
    hide SoundConditions;
    assert At(c.objs, k) == Some(c.objs[k]);
  }

  lemma PassLeaves(pf: Platform, c: State, key: NsName, f: Faults, now: nat, k: ObjKey)
    requires Sound(c) && Foreign(c, k)
    ensures var d := Reconciled(pf, c, key, f, now).state; Foreign(d, k) && d.objs[k] == c.objs[k]
  {
    hide Reconciled, WritesOurs;
    if key in c.apps {
      ForeignUntouched(pf, c, key, f, now);
    } else {
      MissingPass(pf, c, key, f, now);
    }
  }

  /* The replica count. */

  lemma HoldKeeps(app: Target, s: Store, body: Body)
    requires AutoscalingOn(app.spec) && Key(app, DeploymentKind) in s
    ensures var was := s[Key(app, DeploymentKind)];
      var got := AppliedTo(Some(was), app.uid, body, Sent(app, s));
      && got.replicas == was.replicas
      && ReplicaOwners(got.managed) - {FIELD_OWNER} == ReplicaOwners(was.managed) - {FIELD_OWNER}
  {
    var was := s[Key(app, DeploymentKind)];
    ApplyReplicasOwners(Replicas(was.replicas, was.managed), Sent(app, s));
  }

  /** Who owns the count of an existing Deployment once the hand-over has been tried: everyone else
      who does already, or else the operator. */
  function HandedOver(owners: set<string>): (after: set<string>)
    ensures after != {} && after - {FIELD_OWNER} == owners - {FIELD_OWNER}
    ensures FIELD_OWNER in after <==> owners <= {FIELD_OWNER}
  {
    if owners - {FIELD_OWNER} != {} then owners - {FIELD_OWNER} else {FIELD_OWNER}
  }

  lemma HoldHandsOver(app: Target, s: Store, body: Body)
    requires AutoscalingOn(app.spec) && Key(app, DeploymentKind) in s && body.DeploymentBody?
    ensures var was := s[Key(app, DeploymentKind)];
      ReplicaOwners(AppliedTo(Some(was), app.uid, body, Sent(app, s)).managed) == HandedOver(ReplicaOwners(was.managed))
  {
    hide ReplicaOwners;
    var was := s[Key(app, DeploymentKind)];
    OwnedByOtherExact(was.managed);
    ApplyReplicasOwners(Replicas(was.replicas, was.managed), Sent(app, s));
  }

  lemma SyncHandsOver(pf: Platform, c: State, app: Target, f: Faults)
    requires AutoscalingOn(app.spec) && Key(app, DeploymentKind) in c.objs
    requires Guard(pf, c, app, f).None? && Lands(f, Apply(DeploymentKind))
    ensures var k, t := Key(app, DeploymentKind), Sync(pf, c, app, f).store;
      k in t && ReplicaOwners(t[k].managed) == HandedOver(ReplicaOwners(c.objs[k].managed))
  {
    hide SyncWrites, Guard, ReplicaOwners, AppliedTo, BuildDeployment, HandedOver, Sent;
    SyncWritesAt(pf, app, f, c.objs, DeploymentKind);
    BuildsDeployment(pf, app);
    HoldHandsOver(app, c.objs, BuildDeployment(pf, app.key, app.spec));
  }

  lemma BuildsDeployment(pf: Platform, app: Target)
    ensures BuildDeployment(pf, app.key, app.spec).DeploymentBody?
  {
  }

  /** The hand-over itself: a pass with autoscaling on whose apply lands lets go of the count of an
      existing Deployment as soon as another manager holds it, and holds it otherwise, so the
      count is never left without an owner. */
  lemma HandoverExact(pf: Platform, c: State, key: NsName, f: Faults, now: nat)
    requires WellKeyed(c) && key in c.apps && !c.apps[key].deleting && AutoscalingOn(c.apps[key].spec)
    requires !Fails(f, GetWebApp) && (FINALIZER in c.apps[key].finalizers || !Fails(f, AddFinalizer))
    requires Guard(pf, c, AimOf(c.apps[key]), f).None? && Lands(f, Apply(DeploymentKind))
    requires ObjKey(DeploymentKind, key) in c.objs
    ensures var k, d := ObjKey(DeploymentKind, key), Reconciled(pf, c, key, f, now).state;
      k in d.objs && ReplicaOwners(d.objs[k].managed) == HandedOver(ReplicaOwners(c.objs[k].managed))
  {
    hide Sync, Guard, Settle, ReplicaOwners, HandedOver;
    var app := c.apps[key];
    SyncHandsOver(pf, c, AimOf(app), f);
    if FINALIZER in app.finalizers {
      SettleFrame(pf, c, app, f, now);
    } else {
      var c1 := WithApp(c, Finalizing(app));
      SettleFrame(pf, c1, Finalizing(app), f, now);
      SyncSame(pf, c, c1, AimOf(app), f);
    }
  }

  /** Between s and t the Deployment at k, if it is in both, keeps its count unless autoscaling
      is off for this WebApp, whose desired count it then has. */
  predicate CountHeld(app: Target, s: Store, t: Store, k: ObjKey) {
    k in s && k in t && t[k].replicas != s[k].replicas ==>
      && k.name == app.key && !AutoscalingOn(app.spec)
      && t[k].replicas == (if app.spec.replicas.Some? then app.spec.replicas.value else 1)
  }

  predicate OthersHeld(app: Target, s: Store, t: Store, k: ObjKey) {
    k in s && AutoscalingOn(app.spec) ==>
      k in t && ReplicaOwners(t[k].managed) - {FIELD_OWNER} == ReplicaOwners(s[k].managed) - {FIELD_OWNER}
  }

  lemma SyncDeploymentHolds(pf: Platform, app: Target, f: Faults, s: Store)
    ensures var k, t := Key(app, DeploymentKind), SyncDeployment(pf, app, f, s).store;
      CountHeld(app, s, t, k) && OthersHeld(app, s, t, k) && (k in s ==> k in t)
  {
    hide BuildDeployment;
    var k := Key(app, DeploymentKind);
    var body := BuildDeployment(pf, app.key, app.spec);
    if k in s && AutoscalingOn(app.spec) {
      HoldKeeps(app, s, body);
    }
  }

  lemma SyncHolds(pf: Platform, c: State, app: Target, f: Faults, k: ObjKey)
    requires k.kind == DeploymentKind
    ensures var t := Sync(pf, c, app, f).store;
      CountHeld(app, c.objs, t, k) && OthersHeld(app, c.objs, t, k) && (k in c.objs ==> k in t)
  {
    hide SyncDeployment, SyncWrites, Guard, ReplicaOwners;
    var s := c.objs;
    if Guard(pf, c, app, f).None? {
      if k.name == app.key {
        SyncWritesAt(pf, app, f, s, DeploymentKind);
        SyncDeploymentHolds(pf, app, f, s);
      } else {
        SyncWritesElsewhere(pf, app, f, s, k);
      }
    }
  }

  /** The hand-over: no pass moves the count of an existing Deployment while autoscaling is on,
      and then every other owner of the field stays one; with autoscaling off the count moves
      only to the desired one; and no pass over a live WebApp removes a Deployment. */
  lemma CountOnlyMovedWhenOurs(pf: Platform, c: State, key: NsName, f: Faults, now: nat, k: ObjKey)
    requires WellKeyed(c) && key in c.apps && k.kind == DeploymentKind
    ensures var app, d := AimOf(c.apps[key]), Reconciled(pf, c, key, f, now).state;
      && CountHeld(app, c.objs, d.objs, k)
      && (!c.apps[key].deleting ==> OthersHeld(app, c.objs, d.objs, k) && (k in c.objs ==> k in d.objs))
  {
    hide Reconciled, Sync, ReplicaOwners, Remaining;
    if c.apps[key].deleting {
      DeletingPass(pf, c, key, f, now);
    } else {
      LiveWrites(pf, c, key, f, now);
      SyncHolds(pf, c, AimOf(c.apps[key]), f, k);
    }
  }

  /** Throughout the run the WebApp at n, when stored, is live with autoscaling on, and nobody
      else moves the count of its Deployment; who owns the field is up to them. */
  ghost predicate ScaledByNobody(pf: Platform, c: State, run: seq<Move>, n: NsName) {
    && (forall i :: 0 <= i <= |run| ==>
          var d := Reached(pf, c, run[..i]); n in d.apps ==> !d.apps[n].deleting && AutoscalingOn(d.apps[n].spec))
    && (forall i :: 0 <= i < |run| && run[i].Others? ==>
          SameCount(Reached(pf, c, run[..i]).objs, run[i].next.objs, ObjKey(DeploymentKind, n)))
  }

  predicate SameCount(s: Store, t: Store, k: ObjKey) {
    k in s ==> k in t && t[k].replicas == s[k].replicas
  }

  lemma {:induction false} ScaledByNobodyLast(pf: Platform, c: State, run: seq<Move>, n: NsName)
    requires ScaledByNobody(pf, c, run, n) && run != []
    ensures var init, m := run[..|run| - 1], run[|run| - 1]; var d := Reached(pf, c, init);
      && ScaledByNobody(pf, c, init, n)
      && (n in d.apps ==> !d.apps[n].deleting && AutoscalingOn(d.apps[n].spec))
      && (m.Others? ==> SameCount(d.objs, m.next.objs, ObjKey(DeploymentKind, n)))
  {
    var init := run[..|run| - 1];
    forall i | 0 <= i <= |init|
      ensures var d := Reached(pf, c, init[..i]); n in d.apps ==> !d.apps[n].deleting && AutoscalingOn(d.apps[n].spec)
    {
      assert init[..i] == run[..i];
    }
    forall i | 0 <= i < |init| && init[i].Others?
      ensures SameCount(Reached(pf, c, init[..i]).objs, init[i].next.objs, ObjKey(DeploymentKind, n))
    {
      assert init[..i] == run[..i] && init[i] == run[i];
    }
  }

  /** Whatever managers take, share or drop the field between passes, in whatever order, the
      operator on its own never moves the count while autoscaling is on. */
  lemma {:induction false} HandoverOverRuns(pf: Platform, c: State, run: seq<Move>, n: NsName)
    requires Sound(c) && Legal(pf, c, run) && ScaledByNobody(pf, c, run, n)
    ensures SameCount(c.objs, Reached(pf, c, run).objs, ObjKey(DeploymentKind, n))
  {
    hide Legal, ScaledByNobody, OthersMove, Sound, Reconciled;
    if run != [] {
      var init, m := run[..|run| - 1], run[|run| - 1];
      LegalPrefix(pf, c, run);
      ScaledByNobodyLast(pf, c, run, n);
      HandoverOverRuns(pf, c, init, n);
      RunsAreSound(pf, c, init);
      var d := Reached(pf, c, init);
      if m.Operator? {
        PassKeepsCount(pf, d, m.key, m.faults, m.now, n);
      }
    }
  }

  lemma PassKeepsCount(pf: Platform, c: State, key: NsName, f: Faults, now: nat, n: NsName)
    requires Sound(c)
    requires n in c.apps ==> !c.apps[n].deleting && AutoscalingOn(c.apps[n].spec)
    ensures SameCount(c.objs, Reconciled(pf, c, key, f, now).state.objs, ObjKey(DeploymentKind, n))
  {
    hide Reconciled, WritesOurs, ReplicaOwners, OnlyApp;
    var k := ObjKey(DeploymentKind, n);
    if key !in c.apps {
      MissingPass(pf, c, key, f, now);
    } else {
      ForeignUntouched(pf, c, key, f, now);
      CountOnlyMovedWhenOurs(pf, c, key, f, now, k);
      AppOfKey(c, key);
    }
  }

  lemma AppOfKey(c: State, key: NsName)
    requires Sound(c) && key in c.apps
    ensures AimOf(c.apps[key]).key == key
  {
  }
}
