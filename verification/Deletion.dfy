/** Deleting a WebApp: what finalize removes, in which order, and when it lets go. */
module Deletion {
  import opened Api
  import opened Conditions
  import opened Cluster
  import opened Pass
  import opened Steps

  /** The kinds still controlled by the WebApp under its name. */
  function Remaining(app: Target, s: Store): set<Kind> {
    set kind: Kind | ControlledBy(s, Key(app, kind), app.uid)
  }

  predicate Earlier(kind: Kind, n: nat) { exists m :: 0 <= m < n <= |TEARDOWN_ORDER| && TEARDOWN_ORDER[m] == kind }

  lemma OrderCovers(kind: Kind) returns (n: nat)
    ensures n < |TEARDOWN_ORDER| && TEARDOWN_ORDER[n] == kind
    ensures forall m :: 0 <= m < |TEARDOWN_ORDER| && TEARDOWN_ORDER[m] == kind ==> m == n
  {
    n := match kind case IngressKind => 0 case HpaKind => 1 case ServiceKind => 2 case DeploymentKind => 3;
  }

  /** The deletion of one kind would go through. */
  predicate Deletable(app: Target, f: Faults, s: Store, kind: Kind) {
    !Fails(f, GetOwned(kind)) && (kind in Remaining(app, s) ==> !Fails(f, Delete(kind)))
  }

  lemma DeleteRemaining(app: Target, f: Faults, s: Store, kind: Kind)
    ensures var e := DeleteOwnedStep(app, f, s, kind);
      && Remaining(app, e.store) == Remaining(app, s) - (if Deleted(Key(app, kind)) in e.writes &&
          Lands(f, Delete(kind)) then {kind} else {})
      && (e.err.None? <==> Deletable(app, f, s, kind))
      && (e.err.None? ==> kind !in Remaining(app, e.store))
      && (e.writes == [] || (kind in Remaining(app, s) && e.writes == [Deleted(Key(app, kind))]))
  {
    var e := DeleteOwnedStep(app, f, s, kind);
    if e.writes == [Deleted(Key(app, kind))] {
      assert Deleted(Key(app, kind)) in e.writes;
    }
  }

  /** After n deletions: what is gone, and whether all went through. */
  lemma {:induction false} TeardownPrefix(app: Target, f: Faults, s: Store, n: nat)
    requires n <= |TEARDOWN_ORDER|
    ensures var e := TeardownTo(app, f, s, n);
      && (forall kind :: kind in Remaining(app, e.store) <==>
            kind in Remaining(app, s) && !(Deleted(Key(app, kind)) in e.writes && Lands(f, Delete(kind))))
      && (forall w :: w in e.writes ==> exists kind :: Earlier(kind, n) && w == Deleted(Key(app, kind)))
      && (e.err.None? <==> forall kind :: Earlier(kind, n) ==> Deletable(app, f, s, kind))
      && (e.err.None? ==> forall kind :: Earlier(kind, n) ==> kind !in Remaining(app, e.store))
  {
    hide DeleteOwnedStep, Remaining, Fails, Lands;
    if n > 0 {
      var kind := TEARDOWN_ORDER[n - 1];
      var before := TeardownTo(app, f, s, n - 1);
      var step := DeleteOwnedStep(app, f, before.store, kind);
      TeardownPrefix(app, f, s, n - 1);
      DeleteRemaining(app, f, before.store, kind);
      var at := OrderCovers(kind);
      assert !Earlier(kind, n - 1);
      assert forall k :: Earlier(k, n) <==> Earlier(k, n - 1) || k == kind by {
        assert Earlier(kind, n);
        assert forall k :: Earlier(k, n - 1) ==> Earlier(k, n);
      }
      assert Deleted(Key(app, kind)) !in before.writes;
      assert Deletable(app, f, before.store, kind) <==> Deletable(app, f, s, kind);
    }
  }

  /** Traffic is cut before scaling stops, scaling before the Service goes, the pods go last. */
  predicate GoesBefore(a: Kind, b: Kind) {
    match a
    case IngressKind => b != IngressKind
    case HpaKind => b == ServiceKind || b == DeploymentKind
    case ServiceKind => b == DeploymentKind
    case DeploymentKind => false
  }

  /** A deletion is asked for only on a controlled object, and only once no kind that goes
      before is controlled. */
  lemma TeardownOrdered(app: Target, f: Faults, s: Store, n: nat)
    requires n < |TEARDOWN_ORDER|
    ensures var now, next := TeardownTo(app, f, s, n), TeardownTo(app, f, s, n + 1);
      next.writes != now.writes ==>
        && next.writes == now.writes + [Deleted(Key(app, TEARDOWN_ORDER[n]))]
        && TEARDOWN_ORDER[n] in Remaining(app, now.store)
        && forall kind :: GoesBefore(kind, TEARDOWN_ORDER[n]) ==> kind !in Remaining(app, now.store)
  {
    hide DeleteOwnedStep, Remaining;
    TeardownPrefix(app, f, s, n);
    DeleteRemaining(app, f, TeardownTo(app, f, s, n).store, TEARDOWN_ORDER[n]);
    forall kind | GoesBefore(kind, TEARDOWN_ORDER[n]) ensures Earlier(kind, n) {
      var m := OrderCovers(kind);
    }
  }

  /** A whole teardown loses exactly what it was able to delete, never gains, and succeeds
      exactly when every call it needs does; then nothing is left. */
  lemma TeardownExact(app: Target, f: Faults, s: Store)
    ensures var e := Teardown(app, f, s);
      && Remaining(app, e.store) <= Remaining(app, s)
      && (forall kind :: kind in Remaining(app, s) ==>
            (kind !in Remaining(app, e.store) <==> Deleted(Key(app, kind)) in e.writes && Lands(f, Delete(kind))))
      && (e.err.None? <==> forall kind :: Deletable(app, f, s, kind))
      && (e.err.None? ==> Remaining(app, e.store) == {})
  {
    hide Remaining, TeardownTo;
    TeardownPrefix(app, f, s, |TEARDOWN_ORDER|);
    forall kind: Kind ensures Earlier(kind, |TEARDOWN_ORDER|) {
      var n := OrderCovers(kind);
    }
  }

  /** The finalizer goes only from a WebApp that controls nothing any more. */
  lemma FinalizeExact(c: State, app: WebApp, f: Faults)
    requires app.key in c.apps && c.apps[app.key] == app && app.deleting && FINALIZER in app.finalizers
    ensures var d := Finalize(c, app, f).state; var aim := AimOf(app);
      var released := app.key !in d.apps || FINALIZER !in d.apps[app.key].finalizers;
      && Remaining(aim, d.objs) <= Remaining(aim, c.objs)
      && (released ==> Remaining(aim, d.objs) == {})
      && (released <==> Lands(f, RemoveFinalizer) && forall kind :: Deletable(aim, f, c.objs, kind))
      && (app.key !in d.apps <==> released && app.finalizers == {FINALIZER})
      && (Finalize(c, app, f).result == Done <==>
            !Fails(f, RemoveFinalizer) && forall kind :: Deletable(aim, f, c.objs, kind))
      && Finalize(c, app, f).result != Retry
  {
    hide Teardown, Remaining;
    TeardownExact(AimOf(app), f, c.objs);
  }

  /* Over repeated passes. */

  ghost function FinalizedBy(c: State, key: NsName, fs: seq<Faults>): State {
    if fs == [] then c
    else
      var d := FinalizedBy(c, key, fs[..|fs| - 1]);
      if key in d.apps then Finalize(d, d.apps[key], fs[|fs| - 1]).state else d
  }

  ghost predicate Gone(c: State, app: WebApp) { app.key !in c.apps || FINALIZER !in c.apps[app.key].finalizers }

  /** Whatever fails in whichever pass, the controlled objects only become fewer, the finalizer
      outlives them, and one pass without failures ends it. */
  lemma {:induction false} RepeatedFinalize(c: State, app: WebApp, fs: seq<Faults>)
    requires WellKeyed(c) && app.key in c.apps && c.apps[app.key] == app && app.deleting && FINALIZER in app.finalizers
    ensures var d := FinalizedBy(c, app.key, fs); var aim := AimOf(app);
      && WellKeyed(d)
      && Remaining(aim, d.objs) <= Remaining(aim, c.objs)
      && (Gone(d, app) ==> Remaining(aim, d.objs) == {})
      && (!Gone(d, app) ==> d.apps[app.key] == app)
      && (map[] in fs ==> Gone(d, app))
  {
    hide Finalize, Remaining;
    if fs != [] {
      var init, f := fs[..|fs| - 1], fs[|fs| - 1];
      RepeatedFinalize(c, app, init);
      var d := FinalizedBy(c, app.key, init);
      assert map[] in fs ==> map[] in init || f == map[];
      if app.key in d.apps {
        if Gone(d, app) {
          ReleasedStays(d, d.apps[app.key], f);
        } else {
          FinalizeExact(d, app, f);
          FinalizeFrame(d, app, f);
          StillHeld(d, app, f);
        }
      }
    }
  }

  lemma ReleasedStays(d: State, app: WebApp, f: Faults)
    requires FINALIZER !in app.finalizers
    ensures Finalize(d, app, f).state == d
  {
  }

  lemma StillHeld(d: State, app: WebApp, f: Faults)
    requires app.key in d.apps && d.apps[app.key] == app
    ensures var e := Finalize(d, app, f).state;
      (app.key in e.apps && FINALIZER in e.apps[app.key].finalizers ==> e.apps[app.key] == app)
  {
    hide Teardown;
  }
}
