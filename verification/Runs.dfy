/** Whole runs: passes of the operator, each with its own failures, interleaved with whatever
    users, the HPA, the Deployment controller and foreign tools do. */
module Runs {
  import opened Base
  import opened Api
  import opened Policies
  import opened Conditions
  import opened Cluster
  import opened Pass
  import opened Steps
  import opened Deletion

  /* Moves. */

  /** The same WebApp later: nobody but the operator writes its status or takes the operator's
      finalizer away, and the API server numbers the edits of its spec. */
  predicate Continues(a: WebApp, b: WebApp) {
    && b.key == a.key && b.uid == a.uid && b.status == a.status
    && a.generation <= b.generation && (b.spec != a.spec ==> a.generation < b.generation)
    && (a.deleting ==> b.deleting)
    && (FINALIZER in a.finalizers ==> FINALIZER in b.finalizers)
  }

  /** A WebApp just created: a UID never used, no status. */
  predicate Starts(c: State, b: WebApp) {
    && b.uid !in c.appUids && b.status.conditions == [] && b.status.observedGeneration == 0
    && (forall k :: k in c.objs ==> c.objs[k].controller != Some(b.uid))
  }

  ghost predicate DistinctUids(c: State) {
    forall m, n :: m in c.apps && n in c.apps && c.apps[m].uid == c.apps[n].uid ==> m == n
  }

  /** Everyone else's move. Objects, policies and namespaces may become anything, except that
      nobody forges a reference to a WebApp as controller and no WebApp that holds the
      operator's finalizer vanishes. */
  ghost predicate OthersMove(c: State, d: State) {
    && WellKeyed(d) && DistinctUids(d)
    && (forall n :: n in d.apps ==>
          if n in c.apps && c.apps[n].uid == d.apps[n].uid then Continues(c.apps[n], d.apps[n])
          else Starts(c, d.apps[n]))
    && (forall n :: n in c.apps && FINALIZER in c.apps[n].finalizers ==> n in d.apps && d.apps[n].uid == c.apps[n].uid)
    && (forall u :: u in d.appUids <==> u in c.appUids || exists n :: n in d.apps && d.apps[n].uid == u)
    && (forall k :: k in d.objs && d.objs[k].controller.Some? && d.objs[k].controller.value in d.appUids ==>
          k in c.objs && c.objs[k].controller == d.objs[k].controller)
  }

  datatype Move = Others(next: State) | Operator(key: NsName, faults: Faults, now: nat)

  ghost function After(pf: Platform, c: State, m: Move): State {
    match m
    case Others(d) => d
    case Operator(key, f, now) => Reconciled(pf, c, key, f, now).state
  }

  ghost function Reached(pf: Platform, c: State, run: seq<Move>): State {
    if run == [] then c else After(pf, Reached(pf, c, run[..|run| - 1]), run[|run| - 1])
  }

  ghost predicate Legal(pf: Platform, c: State, run: seq<Move>) {
    forall i :: 0 <= i < |run| && run[i].Others? ==> OthersMove(Reached(pf, c, run[..i]), run[i].next)
  }

  lemma {:induction false} LegalPrefix(pf: Platform, c: State, run: seq<Move>)
    requires Legal(pf, c, run) && run != []
    ensures Legal(pf, c, run[..|run| - 1])
    ensures var last := run[|run| - 1]; last.Others? ==> OthersMove(Reached(pf, c, run[..|run| - 1]), last.next)
  {
    hide OthersMove;
    var init := run[..|run| - 1];
    forall i | 0 <= i < |init| && init[i].Others? ensures OthersMove(Reached(pf, c, init[..i]), init[i].next) {
      assert init[..i] == run[..i] && init[i] == run[i];
    }
  }

  /* The invariant. */

  /** Every object controlled by a WebApp bears its name, and that WebApp is still stored,
      holding the operator's finalizer. */
  ghost predicate NoOrphans(c: State) {
    forall k :: k in c.objs && c.objs[k].controller.Some? && c.objs[k].controller.value in c.appUids ==>
      && k.name in c.apps && Some(c.apps[k.name].uid) == c.objs[k].controller
      && FINALIZER in c.apps[k.name].finalizers
  }

  ghost predicate SoundStatus(app: WebApp) {
    SoundConditions(app.status.conditions) && app.status.observedGeneration <= app.generation
  }

  ghost predicate Sound(c: State) {
    && WellKeyed(c) && DistinctUids(c)
    && (forall n :: n in c.apps ==> c.apps[n].uid in c.appUids && SoundStatus(c.apps[n]))
    && NoOrphans(c)
  }

  /** Before the first WebApp: any objects, policies and namespaces. */
  predicate Initial(c: State) { c.apps == map[] && c.appUids == {} }

  lemma InitialIsSound(c: State)
    requires Initial(c)
    ensures Sound(c)
  {
  }

  lemma OthersKeepSound(c: State, d: State)
    requires Sound(c) && OthersMove(c, d)
    ensures Sound(d)
  {
    hide SoundConditions;
    FreshIsSound();
  }

  lemma FreshIsSound()
    ensures SoundConditions([])
  {
  }

  /* The rules for others leave them these freedoms. */

  lemma OthersMayCreate(c: State, b: WebApp)
    requires Sound(c) && b.key !in c.apps && Starts(c, b)
    ensures OthersMove(c, c.(apps := c.apps[b.key := b], appUids := c.appUids + {b.uid}))
  {
    hide SoundStatus, SoundConditions;
  }

  lemma OthersMayEditAndDelete(c: State, n: NsName, b: WebApp)
    requires Sound(c) && n in c.apps && Continues(c.apps[n], b)
    ensures OthersMove(c, c.(apps := c.apps[n := b]))
  {
    hide SoundStatus, SoundConditions;
  }

  /** Any object may be changed or removed, and any uncontrolled one created; in particular any
      manager may take, share or drop any field. */
  lemma OthersMayChangeObjects(c: State, t: Store)
    requires Sound(c)
    requires forall k :: k in t && t[k].controller.Some? ==> k in c.objs && c.objs[k].controller == t[k].controller
    ensures OthersMove(c, c.(objs := t))
  {
    hide SoundStatus, SoundConditions;
  }

  /* One pass. */

  /** Where the status of a WebApp goes in a pass: nowhere, or to the outcome of its sync. */
  ghost predicate StatusMoves(pf: Platform, c: State, app: WebApp, st: WebAppStatus, f: Faults, now: nat) {
    st == app.status || st == StatusOf(app, Sync(pf, c, AimOf(app), f), now)
  }

  lemma SettleStatus(pf: Platform, c: State, app: WebApp, f: Faults, now: nat)
    requires app.key in c.apps && c.apps[app.key] == app
    ensures var d := Settle(pf, c, app, f, now).state;
      app.key in d.apps && StatusMoves(pf, c, app, d.apps[app.key].status, f, now)
  {
    hide Sync, FailedStatus, SyncedStatus, Patched, OnlyApp;
    var sync := Sync(pf, c, AimOf(app), f);
    var c1 := c.(objs := sync.store);
    if sync.err.Some? {
      PatchedFrame(c1, app, FailedStatus(app, sync.err.value, now), f);
    } else {
      PatchedFrame(c1, app, SyncedStatus(app, At(sync.store, ObjKey(DeploymentKind, app.key)), now), f);
    }
  }

  /** What a pass over a live WebApp leaves. */
  lemma LivePass(pf: Platform, c: State, key: NsName, f: Faults, now: nat)
    requires WellKeyed(c) && key in c.apps && !c.apps[key].deleting
    ensures var app, d := c.apps[key], Reconciled(pf, c, key, f, now).state;
      && OnlyApp(c, d, key) && key in d.apps && app.finalizers <= d.apps[key].finalizers
      && Keeps(AimOf(app), c.objs, d.objs)
      && (d.objs != c.objs ==> FINALIZER in d.apps[key].finalizers)
      && StatusMoves(pf, c, app, d.apps[key].status, f, now)
  {
    hide Sync, Settle, OnlyApp, Keeps, StatusMoves;
    var app := c.apps[key];
    SyncKeeps(pf, c, AimOf(app), f);
    KeepsSelf(AimOf(app), c.objs);
    OnlyAppSelf(c, c, key);
    StatusStays(pf, c, app, f, now);
    if FINALIZER in app.finalizers {
      SettleFrame(pf, c, app, f, now);
      SettleStatus(pf, c, app, f, now);
    } else {
      var held := Finalizing(app);
      var c1 := WithApp(c, held);
      OnlyFinalizer(c, app, held.finalizers);
      if Lands(f, AddFinalizer) && !Fails(f, AddFinalizer) {
        SettleFrame(pf, c1, held, f, now);
        SettleStatus(pf, c1, held, f, now);
        OnlyAppThen(c, c1, Settle(pf, c1, held, f, now).state, key);
        SyncSame(pf, c, c1, AimOf(app), f);
        StatusMovesSame(pf, c, app, held, Settle(pf, c1, held, f, now).state.apps[key].status, f, now);
      }
    }
  }

  lemma StatusStays(pf: Platform, c: State, app: WebApp, f: Faults, now: nat)
    ensures StatusMoves(pf, c, app, app.status, f, now)
  {
    hide Sync, FailedStatus, SyncedStatus;
  }

  lemma OnlyFinalizer(c: State, app: WebApp, finalizers: set<string>)
    requires WellKeyed(c) && app.key in c.apps && c.apps[app.key] == app
    ensures OnlyApp(c, WithApp(c, app.(finalizers := finalizers)), app.key)
  {
  }

  lemma OnlyAppThen(c: State, c1: State, d: State, key: NsName)
    requires OnlyApp(c, c1, key) && OnlyApp(c1, d, key) && key in c.apps && key in c1.apps
    ensures OnlyApp(c, d, key)
  {
    if key in d.apps {
      assert c1.apps[key] == c.apps[key].(finalizers := c1.apps[key].finalizers, status := c1.apps[key].status);
      assert d.apps[key] == c1.apps[key].(finalizers := d.apps[key].finalizers, status := d.apps[key].status);
    }
  }

  /** A sync reads neither finalizers nor status. */
  lemma SyncSame(pf: Platform, c: State, c1: State, app: Target, f: Faults)
    requires c1 == c.(apps := c1.apps)
    ensures Sync(pf, c1, app, f) == Sync(pf, c, app, f)
  {
    hide SyncWrites, Evaluated, Adoptable;
  }

  lemma StatusMovesSame(pf: Platform, c: State, app: WebApp, held: WebApp, st: WebAppStatus, f: Faults, now: nat)
    requires held == app.(finalizers := held.finalizers)
    requires StatusMoves(pf, WithApp(c, held), held, st, f, now)
    ensures StatusMoves(pf, c, app, st, f, now)
  {
    hide Sync, FailureConditions, DeploymentConditions, NoDeploymentConditions;
    SyncSame(pf, c, WithApp(c, held), AimOf(app), f);
  }

  /** What a pass over a WebApp being deleted leaves. */
  lemma DeletingPass(pf: Platform, c: State, key: NsName, f: Faults, now: nat)
    requires WellKeyed(c) && key in c.apps && c.apps[key].deleting
    ensures var app, d := c.apps[key], Reconciled(pf, c, key, f, now).state;
      && OnlyApp(c, d, key)
      && (key in d.apps ==> d.apps[key].status == app.status)
      && Keeps(AimOf(app), c.objs, d.objs)
      && (forall k :: k in d.objs ==> k in c.objs && d.objs[k] == c.objs[k])
      && (FINALIZER in app.finalizers ==>
            (key in d.apps && FINALIZER in d.apps[key].finalizers) || Remaining(AimOf(app), d.objs) == {})
      && (FINALIZER !in app.finalizers ==> d == c)
  {
    hide Finalize, OnlyApp, Keeps, Remaining;
    var app := c.apps[key];
    OnlyAppSelf(c, c, key);
    KeepsSelf(AimOf(app), c.objs);
    if !Fails(f, GetWebApp) {
      FinalizeFrame(c, app, f);
      OnlyDeletes(c, app, f);
      if FINALIZER in app.finalizers {
        FinalizeExact(c, app, f);
      } else {
        ReleasedStays(c, app, f);
      }
    }
  }

  lemma OnlyDeletes(c: State, app: WebApp, f: Faults)
    ensures forall k :: k in Finalize(c, app, f).state.objs ==>
        k in c.objs && Finalize(c, app, f).state.objs[k] == c.objs[k]
  {
    hide TeardownTo;
    TeardownDeletes(AimOf(app), f, c.objs, |TEARDOWN_ORDER|);
  }

  lemma {:induction false} TeardownDeletes(app: Target, f: Faults, s: Store, n: nat)
    requires n <= |TEARDOWN_ORDER|
    ensures forall k :: k in TeardownTo(app, f, s, n).store ==> k in s && TeardownTo(app, f, s, n).store[k] == s[k]
  {
    if n > 0 {
      TeardownDeletes(app, f, s, n - 1);
    }
  }

  /* The invariant survives a pass. */

  lemma OnlyAppKeeps(c: State, d: State, key: NsName)
    requires WellKeyed(c) && DistinctUids(c) && OnlyApp(c, d, key) && key in c.apps
    ensures WellKeyed(d) && DistinctUids(d)
    ensures forall n :: n in d.apps ==>
        n in c.apps && d.apps[n].uid == c.apps[n].uid && d.apps[n].generation == c.apps[n].generation
  {
    if key in d.apps {
      var a := d.apps[key].(finalizers := {}, status := c.apps[key].status);
      var b := c.apps[key].(finalizers := {});
      assert a == b && a.uid == b.uid && a.key == b.key && a.generation == b.generation;
    }
  }

  lemma StatusKept(pf: Platform, c: State, app: WebApp, st: WebAppStatus, f: Faults, now: nat)
    requires SoundStatus(app) && StatusMoves(pf, c, app, st, f, now)
    ensures SoundConditions(st.conditions) && st.observedGeneration <= app.generation
  {
    hide Sync, SoundConditions, FailureConditions, DeploymentConditions, NoDeploymentConditions, View;
    var t := Stamp(app.generation, now);
    var sync := Sync(pf, c, AimOf(app), f);
    if sync.err.Some? {
      FailureConditionsSound(app.status.conditions, t, sync.err.value);
    } else {
      var dep := At(sync.store, ObjKey(DeploymentKind, app.key));
      NoDeploymentConditionsSound(app.status.conditions, t);
      if dep.Some? {
        DeploymentConditionsSound(app.status.conditions, t, View(dep.value));
      }
    }
  }

  /** Every WebApp is known and its status sound. */
  ghost predicate AppsSound(c: State) {
    forall n :: n in c.apps ==> c.apps[n].uid in c.appUids && SoundStatus(c.apps[n])
  }

  lemma OnlyAppStays(c: State, d: State, key: NsName)
    requires AppsSound(c) && OnlyApp(c, d, key) && key in c.apps
    requires key in d.apps ==>
      d.apps[key].uid == c.apps[key].uid && d.apps[key].generation == c.apps[key].generation && SoundStatus(d.apps[key])
    ensures AppsSound(d)
  {
    hide SoundStatus;
  }

  /** Objects of the acting WebApp are fine if its finalizer stands or none remains, all others
      as before. */
  lemma FinalizerKeepsNoOrphans(c: State, d: State, key: NsName)
    requires NoOrphans(c) && OnlyApp(c, d, key) && key in c.apps && c.apps[key].key == key
    requires key in d.apps ==> d.apps[key].uid == c.apps[key].uid
    requires Keeps(AimOf(c.apps[key]), c.objs, d.objs)
    requires FINALIZER in c.apps[key].finalizers || d.objs != c.objs ==>
      (key in d.apps && FINALIZER in d.apps[key].finalizers) || Remaining(AimOf(c.apps[key]), d.objs) == {}
    ensures NoOrphans(d)
  {
    forall k | k in d.objs && d.objs[k].controller.Some? && d.objs[k].controller.value in d.appUids
      ensures k.name in d.apps && Some(d.apps[k.name].uid) == d.objs[k].controller
      ensures FINALIZER in d.apps[k.name].finalizers
    {
      if k in c.objs && d.objs[k] == c.objs[k] {
        assert k.name in c.apps && FINALIZER in c.apps[k.name].finalizers;
      } else {
        assert k.name == key;
      }
      if k.name == key {
        assert k == Key(AimOf(c.apps[key]), k.kind);
        assert k.kind in Remaining(AimOf(c.apps[key]), d.objs);
      }
    }
  }

  lemma SoundIs(c: State)
    ensures Sound(c) <==> WellKeyed(c) && DistinctUids(c) && AppsSound(c) && NoOrphans(c)
  {
    hide WellKeyed, DistinctUids, NoOrphans, SoundStatus;
  }

  lemma PassOverAppKeepsSound(pf: Platform, c: State, key: NsName, f: Faults, now: nat)
    requires Sound(c) && key in c.apps
    ensures Sound(Reconciled(pf, c, key, f, now).state)
  {
    var app, d := c.apps[key], Reconciled(pf, c, key, f, now).state;
    assert SoundStatus(app) && app.key == key;
    SoundIs(c);
    SoundIs(d);
    hide Reconciled, SoundConditions, StatusMoves, NoOrphans, Keeps, Sound, OnlyApp, AppsSound, DistinctUids, Remaining;
    if app.deleting {
      DeletingPass(pf, c, key, f, now);
    } else {
      LivePass(pf, c, key, f, now);
      StatusKept(pf, c, app, d.apps[key].status, f, now);
    }
    OnlyAppKeeps(c, d, key);
    OnlyAppStays(c, d, key);
    FinalizerKeepsNoOrphans(c, d, key);
  }

  lemma MissingPass(pf: Platform, c: State, key: NsName, f: Faults, now: nat)
    requires key !in c.apps
    ensures Reconciled(pf, c, key, f, now).state == c && Reconciled(pf, c, key, f, now).writes == []
  {
  }

  lemma PassKeepsSound(pf: Platform, c: State, key: NsName, f: Faults, now: nat)
    requires Sound(c)
    ensures Sound(Reconciled(pf, c, key, f, now).state)
  {
    hide Sound, Reconciled;
    if key !in c.apps {
      MissingPass(pf, c, key, f, now);
    } else {
      PassOverAppKeepsSound(pf, c, key, f, now);
    }
  }

  /** Every reachable state is sound, whatever failed on the way. */
  lemma {:induction false} RunsAreSound(pf: Platform, c: State, run: seq<Move>)
    requires Sound(c) && Legal(pf, c, run)
    ensures Sound(Reached(pf, c, run))
  {
    hide Sound, Legal, OthersMove, Reconciled;
    if run != [] {
      LegalPrefix(pf, c, run);
      RunsAreSound(pf, c, run[..|run| - 1]);
      var d := Reached(pf, c, run[..|run| - 1]);
      match run[|run| - 1]
      case Others(next) => OthersKeepSound(d, next);
      case Operator(key, f, now) => PassKeepsSound(pf, d, key, f, now);
    }
  }

  /** Once no WebApp with UID u is stored, no object is controlled by u: nothing is orphaned. */
  lemma {:induction false} NothingOrphaned(pf: Platform, c: State, run: seq<Move>, u: Uid)
    requires Initial(c) && Legal(pf, c, run)
    ensures var d := Reached(pf, c, run);
      u in d.appUids && (forall n :: n in d.apps ==> d.apps[n].uid != u) ==>
        forall k :: k in d.objs ==> d.objs[k].controller != Some(u)
  {
    InitialIsSound(c);
    RunsAreSound(pf, c, run);
  }

  /* Deletion over runs. */

  /** The WebApp this aims at, if still stored, is being deleted. */
  ghost predicate GoingAway(c: State, app: Target) {
    && app.uid in c.appUids
    && (app.key in c.apps && c.apps[app.key].uid == app.uid ==> c.apps[app.key].deleting)
  }

  lemma OthersGoingAway(c: State, d: State, app: Target)
    requires Sound(c) && OthersMove(c, d) && GoingAway(c, app)
    ensures GoingAway(d, app) && Remaining(app, d.objs) <= Remaining(app, c.objs)
  {
    hide SoundStatus;
    forall kind | kind in Remaining(app, d.objs) ensures kind in Remaining(app, c.objs) {
      assert ControlledBy(d.objs, Key(app, kind), app.uid);
    }
  }

  /** A pass adds no object controlled by a UID other than that of the live WebApp it is about. */
  lemma KeepsRemaining(acting: Target, s: Store, t: Store, app: Target)
    requires Keeps(acting, s, t)
    requires acting.uid != app.uid || acting.key != app.key || (forall k :: k in t ==> k in s && t[k] == s[k])
    ensures Remaining(app, t) <= Remaining(app, s)
  {
    forall kind | kind in Remaining(app, t) ensures kind in Remaining(app, s) {
      assert Key(app, kind).name == app.key;
      assert ControlledBy(t, Key(app, kind), app.uid);
    }
  }

  lemma PassGoingAway(pf: Platform, c: State, key: NsName, f: Faults, now: nat, app: Target)
    requires Sound(c) && GoingAway(c, app)
    ensures var d := Reconciled(pf, c, key, f, now).state;
      GoingAway(d, app) && Remaining(app, d.objs) <= Remaining(app, c.objs)
  {
    hide Reconciled, Remaining, SoundStatus, NoOrphans, Keeps, StatusMoves;
    if key !in c.apps {
      MissingPass(pf, c, key, f, now);
    } else {
      var acting := AimOf(c.apps[key]);
      var d := Reconciled(pf, c, key, f, now).state;
      if c.apps[key].deleting {
        DeletingPass(pf, c, key, f, now);
      } else {
        LivePass(pf, c, key, f, now);
      }
      KeepsRemaining(acting, c.objs, d.objs, app);
      OnlyAppKeeps(c, d, key);
      if key in d.apps {
        var a := d.apps[key].(finalizers := {}, status := c.apps[key].status);
        assert a.deleting == c.apps[key].(finalizers := {}).deleting;
      }
    }
  }

  /** Once a WebApp is being deleted, what it controls only becomes less, under any interleaving of
      passes, failures and moves of others, even if its name is taken by a new WebApp. */
  lemma {:induction false} DeletionOnlyProgresses(pf: Platform, c: State, run: seq<Move>, n: NsName)
    requires Sound(c) && Legal(pf, c, run) && n in c.apps && c.apps[n].deleting
    ensures var app, d := AimOf(c.apps[n]), Reached(pf, c, run);
      GoingAway(d, app) && Remaining(app, d.objs) <= Remaining(app, c.objs)
  {
    var app := AimOf(c.apps[n]);
    assert GoingAway(c, app);
    hide Sound, Legal, OthersMove, Reconciled, GoingAway, Remaining;
    if run != [] {
      var init := run[..|run| - 1];
      LegalPrefix(pf, c, run);
      DeletionOnlyProgresses(pf, c, init, n);
      RunsAreSound(pf, c, init);
      var d := Reached(pf, c, init);
      match run[|run| - 1]
      case Others(next) => OthersGoingAway(d, next, app);
      case Operator(key, f, now) => PassGoingAway(pf, d, key, f, now, app);
    }
  }

  lemma NothingFails(app: Target, s: Store)
    ensures forall kind :: Deletable(app, map[], s, kind)
  {
  }

  /** Only a WebApp still stored with its finalizer has anything remaining. */
  lemma ReleasedHasNothing(c: State, app: Target)
    requires Sound(c) && app.uid in c.appUids
    requires app.key in c.apps && c.apps[app.key].uid == app.uid ==> FINALIZER !in c.apps[app.key].finalizers
    ensures Remaining(app, c.objs) == {}
  {
    hide SoundStatus;
    forall kind ensures !ControlledBy(c.objs, Key(app, kind), app.uid) {
      assert Key(app, kind).name == app.key;
    }
  }

  /** From any point of any run one undisturbed pass ends a deletion, even if the name was taken by a
      new WebApp meanwhile. */
  lemma DeletionEnds(pf: Platform, c: State, app: Target, now: nat)
    requires Sound(c) && GoingAway(c, app)
    ensures Remaining(app, Reconciled(pf, c, app.key, map[], now).state.objs) == {}
  {
    hide Remaining, SoundStatus, NoOrphans, Finalize, Deletable;
    if app.key in c.apps && c.apps[app.key].uid == app.uid && FINALIZER in c.apps[app.key].finalizers {
      var stored := c.apps[app.key];
      FinalizeExact(c, stored, map[]);
      NothingFails(AimOf(stored), c.objs);
      SameRemaining(AimOf(stored), app, Finalize(c, stored, map[]).state.objs);
    } else {
      ReleasedHasNothing(c, app);
      PassGoingAway(pf, c, app.key, map[], now, app);
    }
  }

  lemma SameRemaining(a: Target, b: Target, s: Store)
    requires a.key == b.key && a.uid == b.uid
    ensures Remaining(a, s) == Remaining(b, s)
  {
  }
}
