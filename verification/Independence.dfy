/** Passes over different WebApps have nothing to do with each other. */
module Independence {
  import opened Api
  import opened Builders
  import opened Policies
  import opened Conditions
  import opened Cluster
  import opened Pass
  import opened Steps
  import opened Runs
  import opened Frames
  import opened Convergence
  import opened Quiescence

  /* What a pass over one key can see. */

  ghost predicate SameObjects(s: Store, t: Store, n: NsName) {
    forall kind :: At(t, ObjKey(kind, n)) == At(s, ObjKey(kind, n))
  }

  ghost predicate SameGround(c: State, d: State) { d.policies == c.policies && d.namespaces == c.namespaces }

  /** Two states a pass over n cannot tell apart. */
  ghost predicate SameFor(c: State, d: State, n: NsName) {
    && SameGround(c, d) && SameObjects(c.objs, d.objs, n)
    && (n in c.apps <==> n in d.apps) && (n in c.apps ==> d.apps[n] == c.apps[n])
  }

  lemma SameEverywhere(c: State, d: State)
    requires d.appUids == c.appUids && forall n :: SameFor(c, d, n)
    ensures d == c
  {
    forall k ensures At(c.objs, k) == At(d.objs, k) {
      assert SameFor(c, d, k.name);
      assert ObjKey(k.kind, k.name) == k;
    }
    StoresEqual(c.objs, d.objs);
    forall n ensures n in c.apps <==> n in d.apps
      ensures n in c.apps ==> d.apps[n] == c.apps[n]
    {
      assert SameFor(c, d, n);
    }
    assert d.apps == c.apps;
    assert SameFor(c, d, NsName("", ""));
  }

  /** A pass over n is invisible to a pass over any other key. */
  lemma PassLocal(pf: Platform, c: State, n: NsName, f: Faults, now: nat, m: NsName)
    requires WellKeyed(c) && m != n
    ensures SameFor(c, Reconciled(pf, c, n, f, now).state, m)
  {
    hide Reconciled, WritesOurs;
    if n in c.apps {
      ForeignUntouched(pf, c, n, f, now);
    } else {
      MissingPass(pf, c, n, f, now);
    }
  }

  lemma PassKeepsKeys(pf: Platform, c: State, n: NsName, f: Faults, now: nat)
    requires WellKeyed(c)
    ensures var d := Reconciled(pf, c, n, f, now).state;
      WellKeyed(d) && d.appUids == c.appUids && d.apps.Keys <= c.apps.Keys && SameGround(c, d)
  {
    hide Reconciled, WritesOurs, Keeps;
    if n in c.apps {
      ForeignUntouched(pf, c, n, f, now);
      KeysStay(c, Reconciled(pf, c, n, f, now).state, n);
    } else {
      MissingPass(pf, c, n, f, now);
    }
  }

  lemma KeysStay(c: State, d: State, n: NsName)
    requires WellKeyed(c) && OnlyApp(c, d, n) && n in c.apps
    ensures WellKeyed(d)
  {
    if n in d.apps {
      var a := d.apps[n].(finalizers := {}, status := c.apps[n].status);
      assert a.key == c.apps[n].(finalizers := {}).key;
    }
  }

  /* What a pass does, it does in every state that looks the same to it. */

  lemma DeploymentSame(pf: Platform, app: Target, f: Faults, s: Store, t: Store)
    requires SameObjects(s, t, app.key)
    ensures var k := Key(app, DeploymentKind);
      At(SyncDeployment(pf, app, f, t).store, k) == At(SyncDeployment(pf, app, f, s).store, k)
    ensures SyncDeployment(pf, app, f, t).err == SyncDeployment(pf, app, f, s).err
  {
    hide AppliedTo, BuildDeployment, OwnedByOther;
    assert At(t, Key(app, DeploymentKind)) == At(s, Key(app, DeploymentKind));
    assert Hold(app, t) == Hold(app, s);
  }

  lemma StepSame(pf: Platform, app: Target, f: Faults, s: Store, t: Store, kind: Kind)
    requires SameObjects(s, t, app.key)
    ensures var k := Key(app, kind);
      At(StepOn(pf, app, f, t, kind).store, k) == At(StepOn(pf, app, f, s, kind).store, k)
    ensures StepOn(pf, app, f, t, kind).err == StepOn(pf, app, f, s, kind).err
  {
    hide SyncDeployment, SyncService, SyncIngress, SyncHpa;
    assert At(t, Key(app, kind)) == At(s, Key(app, kind));
    match kind
    case DeploymentKind => DeploymentSame(pf, app, f, s, t);
    case ServiceKind =>
      ServiceIndependent(app, f, s, t);
      ServiceErr(app, f, s, t);
    case IngressKind => IngressIndependent(app, f, s, t);
    case HpaKind => HpaIndependent(app, f, s, t);
  }

  lemma WritesSame(pf: Platform, app: Target, f: Faults, s: Store, t: Store)
    requires SameObjects(s, t, app.key)
    ensures SyncWrites(pf, app, f, t).err == SyncWrites(pf, app, f, s).err
    ensures SameObjects(SyncWrites(pf, app, f, s).store, SyncWrites(pf, app, f, t).store, app.key)
  {
    hide SyncWrites, SyncDeployment, SyncService, SyncIngress, SyncHpa, At;
    StepSame(pf, app, f, s, t, DeploymentKind);
    StepSame(pf, app, f, s, t, ServiceKind);
    StepSame(pf, app, f, s, t, IngressKind);
    StepSame(pf, app, f, s, t, HpaKind);
    SyncWritesErr(pf, app, f, s);
    SyncWritesErr(pf, app, f, t);
    var after, other := SyncWrites(pf, app, f, s).store, SyncWrites(pf, app, f, t).store;
    forall kind ensures At(other, ObjKey(kind, app.key)) == At(after, ObjKey(kind, app.key)) {
      SyncWritesAt(pf, app, f, s, kind);
      SyncWritesAt(pf, app, f, t, kind);
    }
  }

  lemma GuardSameFor(pf: Platform, c: State, d: State, app: Target, f: Faults)
    requires SameGround(c, d) && SameObjects(c.objs, d.objs, app.key)
    ensures Guard(pf, d, app, f) == Guard(pf, c, app, f)
  {
    hide Evaluated;
    assert At(d.objs, Key(app, DeploymentKind)) == At(c.objs, Key(app, DeploymentKind));
    assert At(d.objs, Key(app, ServiceKind)) == At(c.objs, Key(app, ServiceKind));
  }

  lemma SyncSameFor(pf: Platform, c: State, d: State, app: Target, f: Faults)
    requires SameGround(c, d) && SameObjects(c.objs, d.objs, app.key)
    ensures Sync(pf, d, app, f).err == Sync(pf, c, app, f).err
    ensures SameObjects(Sync(pf, c, app, f).store, Sync(pf, d, app, f).store, app.key)
  {
    hide Guard, SyncWrites, SameObjects;
    GuardSameFor(pf, c, d, app, f);
    WritesSame(pf, app, f, c.objs, d.objs);
  }

  lemma SettleSameFor(pf: Platform, c: State, d: State, app: WebApp, f: Faults, now: nat)
    requires SameFor(c, d, app.key) && app.key in c.apps && c.apps[app.key] == app
    ensures SameFor(Settle(pf, c, app, f, now).state, Settle(pf, d, app, f, now).state, app.key)
  {
    hide Sync, FailedStatus, SyncedStatus, At;
    SyncSameFor(pf, c, d, AimOf(app), f);
    var k := ObjKey(DeploymentKind, app.key);
    assert At(Sync(pf, d, AimOf(app), f).store, k) == At(Sync(pf, c, AimOf(app), f).store, k);
    hide SameObjects;
  }

  lemma {:induction false} TeardownSame(app: Target, f: Faults, s: Store, t: Store, n: nat)
    requires SameObjects(s, t, app.key) && n <= |TEARDOWN_ORDER|
    ensures TeardownTo(app, f, t, n).err == TeardownTo(app, f, s, n).err
    ensures SameObjects(TeardownTo(app, f, s, n).store, TeardownTo(app, f, t, n).store, app.key)
  {
    hide DeleteOwnedStep, At;
    if n > 0 {
      TeardownSame(app, f, s, t, n - 1);
      DeleteSame(app, f, TeardownTo(app, f, s, n - 1).store, TeardownTo(app, f, t, n - 1).store, TEARDOWN_ORDER[n - 1]);
    }
  }

  lemma DeleteSame(app: Target, f: Faults, s: Store, t: Store, kind: Kind)
    requires SameObjects(s, t, app.key)
    ensures DeleteOwnedStep(app, f, t, kind).err == DeleteOwnedStep(app, f, s, kind).err
    ensures SameObjects(DeleteOwnedStep(app, f, s, kind).store, DeleteOwnedStep(app, f, t, kind).store, app.key)
  {
    assert At(t, ObjKey(kind, app.key)) == At(s, ObjKey(kind, app.key));
    var s1, t1 := DeleteOwnedStep(app, f, s, kind).store, DeleteOwnedStep(app, f, t, kind).store;
    forall other ensures At(t1, ObjKey(other, app.key)) == At(s1, ObjKey(other, app.key)) {
      assert At(t, ObjKey(other, app.key)) == At(s, ObjKey(other, app.key));
    }
  }

  lemma FinalizeSameFor(c: State, d: State, app: WebApp, f: Faults)
    requires SameFor(c, d, app.key) && app.key in c.apps && c.apps[app.key] == app
    ensures SameFor(Finalize(c, app, f).state, Finalize(d, app, f).state, app.key)
  {
    hide TeardownTo, SameObjects;
    TeardownSame(AimOf(app), f, c.objs, d.objs, |TEARDOWN_ORDER|);
  }

  /** What a pass over n leaves at n is decided by what it can see. */
  lemma PassDetermined(pf: Platform, c: State, d: State, n: NsName, f: Faults, now: nat)
    requires WellKeyed(c) && SameFor(c, d, n)
    ensures SameFor(Reconciled(pf, c, n, f, now).state, Reconciled(pf, d, n, f, now).state, n)
  {
    hide Settle, Finalize, SameObjects;
    if n in c.apps {
      var app := c.apps[n];
      if app.deleting {
        FinalizeSameFor(c, d, app, f);
      } else if FINALIZER in app.finalizers {
        SettleSameFor(pf, c, d, app, f, now);
      } else {
        SettleSameFor(pf, WithApp(c, Finalizing(app)), WithApp(d, Finalizing(app)), Finalizing(app), f, now);
      }
    }
  }

  lemma SameForChain(a: State, b: State, c: State, n: NsName)
    requires SameFor(a, b, n) && SameFor(b, c, n)
    ensures SameFor(a, c, n) && SameFor(b, a, n)
  {
  }

  /** Passes over different WebApps commute, whatever fails in either. */
  lemma PassesCommute(pf: Platform, c: State, n: NsName, f: Faults, t: nat, m: NsName, g: Faults, u: nat)
    requires WellKeyed(c) && m != n
    ensures var first := Reconciled(pf, c, n, f, t).state; var second := Reconciled(pf, c, m, g, u).state;
      Reconciled(pf, first, m, g, u).state == Reconciled(pf, second, n, f, t).state
  {
    hide Reconciled, SameFor;
    var first, second := Reconciled(pf, c, n, f, t).state, Reconciled(pf, c, m, g, u).state;
    var a, b := Reconciled(pf, first, m, g, u).state, Reconciled(pf, second, n, f, t).state;
    PassKeepsKeys(pf, c, n, f, t);
    PassKeepsKeys(pf, c, m, g, u);
    PassKeepsKeys(pf, first, m, g, u);
    PassKeepsKeys(pf, second, n, f, t);
    forall k ensures SameFor(a, b, k) {
      if k == n {
        PassLocal(pf, first, m, g, u, n);
        PassLocal(pf, c, m, g, u, n);
        PassDetermined(pf, c, second, n, f, t);
        SameForChain(first, a, a, n) by { SameForSelf(a, n); }
        SameForChain(a, first, b, n);
      } else if k == m {
        PassLocal(pf, second, n, f, t, m);
        PassLocal(pf, c, n, f, t, m);
        PassDetermined(pf, c, first, m, g, u);
        SameForChain(second, a, a, m) by { SameForSelf(a, m); }
        SameForChain(a, second, b, m);
      } else {
        PassLocal(pf, c, n, f, t, k);
        PassLocal(pf, first, m, g, u, k);
        PassLocal(pf, c, m, g, u, k);
        PassLocal(pf, second, n, f, t, k);
        SameForChain(c, first, a, k);
        SameForChain(c, second, b, k);
        SameForSelf(a, k);
        SameForChain(c, a, a, k);
        SameForChain(a, c, b, k);
      }
    }
    SameEverywhere(a, b);
  }

  lemma SameForSelf(c: State, n: NsName)
    ensures SameFor(c, c, n)
  {
  }

  /* Quiescence of the whole operator. */

  /** No undisturbed pass over n changes anything. */
  ghost predicate Settled(pf: Platform, c: State, n: NsName) {
    forall now :: Undisturbed(pf, c, n, now) == c
  }

  /** One more undisturbed pass settles n. */
  ghost predicate AlmostSettled(pf: Platform, c: State, n: NsName) {
    forall now :: Settled(pf, Undisturbed(pf, c, n, now), n)
  }

  lemma SettledForSame(pf: Platform, c: State, d: State, n: NsName)
    requires WellKeyed(c) && WellKeyed(d) && SameFor(c, d, n) && Settled(pf, c, n)
    ensures Settled(pf, d, n)
  {
    hide Reconciled, SameFor;
    forall now ensures Undisturbed(pf, d, n, now) == d {
      var e := Undisturbed(pf, d, n, now);
      PassKeepsKeys(pf, d, n, NO_FAULTS, now);
      assert Undisturbed(pf, c, n, now) == c;
      forall k ensures SameFor(d, e, k) {
        if k == n {
          PassDetermined(pf, c, d, n, NO_FAULTS, now);
          SameForChain(c, d, d, n) by { SameForSelf(d, n); }
          SameForChain(d, c, e, n);
        } else {
          PassLocal(pf, d, n, NO_FAULTS, now, k);
        }
      }
      SameEverywhere(d, e);
    }
  }

  lemma AlmostSettledForSame(pf: Platform, c: State, d: State, n: NsName)
    requires WellKeyed(c) && WellKeyed(d) && SameFor(c, d, n) && AlmostSettled(pf, c, n)
    ensures AlmostSettled(pf, d, n)
  {
    hide Reconciled, SameFor, Settled;
    forall now ensures Settled(pf, Undisturbed(pf, d, n, now), n) {
      PassKeepsKeys(pf, c, n, NO_FAULTS, now);
      PassKeepsKeys(pf, d, n, NO_FAULTS, now);
      PassDetermined(pf, c, d, n, NO_FAULTS, now);
      assert Settled(pf, Undisturbed(pf, c, n, now), n);
      SettledForSame(pf, Undisturbed(pf, c, n, now), Undisturbed(pf, d, n, now), n);
    }
  }

  /** After any undisturbed pass over n one more settles it. */
  lemma FirstVisit(pf: Platform, c: State, n: NsName, t: nat)
    requires WellKeyed(c)
    ensures AlmostSettled(pf, Undisturbed(pf, c, n, t), n)
  {
    hide Undisturbed, OwnersMoved;
    forall t2, t3
      ensures var c2 := Undisturbed(pf, Undisturbed(pf, c, n, t), n, t2); Undisturbed(pf, c2, n, t3) == c2
    {
      Quiesces(pf, c, n, t, t2, t3);
    }
  }

  datatype Visit = Visit(key: NsName, now: nat)

  ghost function Visited(pf: Platform, c: State, visits: seq<Visit>): State {
    if visits == [] then c
    else
      var last := visits[|visits| - 1];
      Undisturbed(pf, Visited(pf, c, visits[..|visits| - 1]), last.key, last.now)
  }

  function Visits(visits: seq<Visit>, n: NsName): nat {
    if visits == [] then 0
    else Visits(visits[..|visits| - 1], n) + if visits[|visits| - 1].key == n then 1 else 0
  }

  lemma {:induction false} VisitedKeys(pf: Platform, c: State, visits: seq<Visit>)
    requires WellKeyed(c)
    ensures WellKeyed(Visited(pf, c, visits)) && Visited(pf, c, visits).apps.Keys <= c.apps.Keys
  {
    hide Reconciled;
    if visits != [] {
      var init, last := visits[..|visits| - 1], visits[|visits| - 1];
      VisitedKeys(pf, c, init);
      PassKeepsKeys(pf, Visited(pf, c, init), last.key, NO_FAULTS, last.now);
    }
  }

  /** One visit almost settles a key, two settle it, and visits to others do not unsettle it. */
  lemma {:induction false} VisitsSettle(pf: Platform, c: State, visits: seq<Visit>, n: NsName)
    requires WellKeyed(c)
    ensures Visits(visits, n) >= 1 ==> AlmostSettled(pf, Visited(pf, c, visits), n)
    ensures Visits(visits, n) >= 2 ==> Settled(pf, Visited(pf, c, visits), n)
  {
    if visits != [] {
      var init, last := visits[..|visits| - 1], visits[|visits| - 1];
      var d, e := Visited(pf, c, init), Visited(pf, c, visits);
      VisitsSettle(pf, c, init, n);
      VisitedKeys(pf, c, init);
      VisitedKeys(pf, c, visits);
      hide Reconciled, SameFor;
      if last.key == n {
        FirstVisit(pf, d, n, last.now);
      } else {
        PassLocal(pf, d, last.key, NO_FAULTS, last.now, n);
        if Visits(init, n) >= 1 {
          AlmostSettledForSame(pf, d, e, n);
        }
        if Visits(init, n) >= 2 {
          SettledForSame(pf, d, e, n);
        }
      }
    }
  }

  /** The operator comes to rest: once undisturbed passes have visited every stored WebApp twice, in
      any order and among any others, no undisturbed pass over any key changes anything. */
  lemma {:induction false} OperatorQuiesces(pf: Platform, c: State, visits: seq<Visit>, key: NsName, now: nat)
    requires WellKeyed(c) && forall n :: n in c.apps ==> Visits(visits, n) >= 2
    ensures var d := Visited(pf, c, visits); Undisturbed(pf, d, key, now) == d
  {
    hide Undisturbed, Visited;
    var d := Visited(pf, c, visits);
    VisitedKeys(pf, c, visits);
    if key in d.apps {
      VisitsSettle(pf, c, visits, key);
    } else {
      MissingStays(pf, d, key, now);
    }
  }
}
