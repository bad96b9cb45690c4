/** What a pass may write: replica counts within the ceilings in force, and status. */
module History {
  import opened Api
  import opened Builders
  import opened ObjectsExact
  import opened Policies
  import opened PolicyExact
  import opened PolicyValidation
  import opened Conditions
  import opened Cluster
  import opened Pass
  import opened Steps
  import opened Deletion
  import opened Runs
  import opened Frames
  import opened Convergence

  /* The scale ceiling. */

  /** The count a write sets, or allows the HPA to set. */
  predicate WriteWithin(app: Target, w: Write, ceiling: int) {
    && (w.Applied? && w.key.kind == DeploymentKind && !AutoscalingOn(app.spec) ==>
          w.sent.Some? && w.sent.value <= ceiling)
    && (w.Applied? && w.key.kind == HpaKind ==> w.body.HpaBody? && w.body.maxReplicas <= ceiling)
  }

  ghost predicate AllWithin(app: Target, writes: seq<Write>, ceiling: int) {
    forall w :: w in writes ==> WriteWithin(app, w, ceiling)
  }

  lemma StepWithin(pf: Platform, app: Target, f: Faults, s: Store, kind: Kind, ceiling: int)
    requires WithinCeiling(app.spec, ceiling) && ceiling >= 1
    ensures AllWithin(app, StepOn(pf, app, f, s, kind).writes, ceiling)
  {
    hide AppliedTo, BuildDeployment, BuildService, BuildIngress, Hold;
  }

  lemma WithinTogether(app: Target, a: seq<Write>, b: seq<Write>, ceiling: int)
    requires AllWithin(app, a, ceiling) && AllWithin(app, b, ceiling)
    ensures AllWithin(app, a + b, ceiling)
  {
  }

  lemma SyncWritesWithin(pf: Platform, app: Target, f: Faults, s: Store, ceiling: int)
    requires WithinCeiling(app.spec, ceiling) && ceiling >= 1
    ensures AllWithin(app, SyncWrites(pf, app, f, s).writes, ceiling)
  {
    hide SyncDeployment, SyncService, SyncIngress, SyncHpa, AllWithin, WithinCeiling;
    var dep := SyncDeployment(pf, app, f, s);
    var svc := SyncService(app, f, dep.store);
    var ing := SyncIngress(app, f, svc.store);
    var hpa := SyncHpa(app, f, ing.store);
    StepWithin(pf, app, f, s, DeploymentKind, ceiling);
    StepWithin(pf, app, f, dep.store, ServiceKind, ceiling);
    StepWithin(pf, app, f, svc.store, IngressKind, ceiling);
    StepWithin(pf, app, f, ing.store, HpaKind, ceiling);
    WithinTogether(app, dep.writes, svc.writes, ceiling);
    WithinTogether(app, dep.writes + svc.writes, ing.writes, ceiling);
    WithinTogether(app, dep.writes + svc.writes + ing.writes, hpa.writes, ceiling);
  }

  /** The ceiling policy p puts on this WebApp, in cluster c. */
  ghost predicate Binds(pf: Platform, c: State, app: Target, p: Policy) {
    && p in c.policies && p.maxReplicas.Some? && CeilingRule(p)
    && (app.key.ns in c.namespaces ==> Enforced(Query(true, pf, app.spec, c.namespaces[app.key.ns]), p))
  }

  /** A passed scale check means every binding ceiling holds, and the namespace exists. */
  lemma CheckedWithin(pf: Platform, c: State, app: Target, f: Faults, p: Policy)
    requires ScaleCheck(pf, c, app, f).None? && Binds(pf, c, app, p)
    ensures WithinCeiling(app.spec, p.maxReplicas.value)
  {
    hide Evaluated, WithinCeiling;
    var q := Query(true, pf, app.spec, c.namespaces[app.key.ns]);
    ScaleVerdictExact(q, c.policies);
    var i :| 0 <= i < |c.policies| && c.policies[i] == p;
  }

  /** Whoever changed spec.replicas and however, no pass writes a count above the ceiling of a
      blocking policy that matches when the pass begins, nor lets an HPA go above it. */
  lemma CeilingRespected(pf: Platform, c: State, key: NsName, f: Faults, now: nat, p: Policy)
    requires WellKeyed(c) && key in c.apps && Binds(pf, c, AimOf(c.apps[key]), p)
    ensures AllWithin(AimOf(c.apps[key]), Reconciled(pf, c, key, f, now).writes, p.maxReplicas.value)
  {
    hide Reconciled, SyncWrites, AllWithin, ScaleCheck, Binds, WritesOurs, Keeps, OnlyApp;
    var app := AimOf(c.apps[key]);
    BoundPositive(pf, c, app, p);
    NothingWithin(app, p.maxReplicas.value);
    if c.apps[key].deleting {
      DeletesWithin(c, key, f, p.maxReplicas.value, pf, now);
    } else {
      LiveWrites(pf, c, key, f, now);
      if Guard(pf, c, app, f).None? {
        CheckedWithin(pf, c, app, f, p);
        SyncWritesWithin(pf, app, f, c.objs, p.maxReplicas.value);
      }
    }
  }

  lemma BoundPositive(pf: Platform, c: State, app: Target, p: Policy)
    requires Binds(pf, c, app, p)
    ensures p.maxReplicas.Some? && p.maxReplicas.value >= 1
  {
  }

  lemma NothingWithin(app: Target, ceiling: int)
    ensures AllWithin(app, [], ceiling)
  {
  }

  lemma DeletesWithin(c: State, key: NsName, f: Faults, ceiling: int, pf: Platform, now: nat)
    requires key in c.apps && c.apps[key].deleting
    ensures AllWithin(AimOf(c.apps[key]), Reconciled(pf, c, key, f, now).writes, ceiling)
  {
    hide TeardownTo, Deletable;
    TeardownPrefix(AimOf(c.apps[key]), f, c.objs, |TEARDOWN_ORDER|);
  }

  /* Status. */

  /** The pass over this live WebApp writes a status. */
  ghost predicate Reports(pf: Platform, c: State, key: NsName, f: Faults) {
    && key in c.apps && !c.apps[key].deleting
    && !Fails(f, GetWebApp) && (FINALIZER in c.apps[key].finalizers || !Fails(f, AddFinalizer))
    && (Sync(pf, c, AimOf(c.apps[key]), f).err.None? ==> !Fails(f, GetForStatus))
    && Lands(f, PatchStatus)
  }

  lemma SettleReports(pf: Platform, c: State, app: WebApp, f: Faults, now: nat)
    requires app.key in c.apps && c.apps[app.key] == app
    ensures var d, sync := Settle(pf, c, app, f, now).state, Sync(pf, c, AimOf(app), f);
      && d.objs == sync.store && app.key in d.apps
      && d.apps[app.key].status ==
          (if (sync.err.None? ==> !Fails(f, GetForStatus)) && Lands(f, PatchStatus) then StatusOf(app, sync, now)
           else app.status)
  {
    hide Sync, FailedStatus, SyncedStatus;
  }

  lemma ReportIgnoresFinalizers(app: WebApp, sync: Effect, now: nat)
    ensures StatusOf(Finalizing(app), sync, now) == StatusOf(app, sync, now)
  {
    hide FailureConditions, DeploymentConditions, NoDeploymentConditions;
  }

  lemma ReportExact(pf: Platform, c: State, key: NsName, f: Faults, now: nat)
    requires WellKeyed(c) && key in c.apps && !c.apps[key].deleting
    ensures var d := Reconciled(pf, c, key, f, now).state;
      && key in d.apps
      && d.apps[key].status ==
          (if Reports(pf, c, key, f) then StatusOf(c.apps[key], Sync(pf, c, AimOf(c.apps[key]), f), now)
           else c.apps[key].status)
      && (Reports(pf, c, key, f) ==> d.objs == Sync(pf, c, AimOf(c.apps[key]), f).store)
  {
    hide Sync, StatusOf, Settle;
    var app := c.apps[key];
    if FINALIZER in app.finalizers {
      SettleReports(pf, c, app, f, now);
    } else {
      var c1 := WithApp(c, Finalizing(app));
      SettleReports(pf, c1, Finalizing(app), f, now);
      ReportIgnoresFinalizers(app, Sync(pf, c, AimOf(app), f), now);
      SyncSame(pf, c, c1, AimOf(app), f);
    }
  }

  /** The pass from b to d over the WebApp at n synced it without error, left every object as
      its spec asks, and wrote the generation it did so for. */
  ghost predicate Applies(pf: Platform, b: State, d: State, n: NsName, f: Faults) {
    && Reports(pf, b, n, f) && Sync(pf, b, AimOf(b.apps[n]), f).err.None?
    && AllDesired(pf, AimOf(b.apps[n]), d.objs)
    && n in d.apps && d.apps[n].status.observedGeneration == b.apps[n].generation
  }

  lemma ReportedSuccessApplies(pf: Platform, b: State, n: NsName, f: Faults, now: nat)
    requires WellKeyed(b) && n in b.apps && !b.apps[n].deleting && Reports(pf, b, n, f)
    requires Sync(pf, b, AimOf(b.apps[n]), f).err.None?
    ensures Applies(pf, b, Reconciled(pf, b, n, f, now).state, n, f)
  {
    hide Reconciled, Sync, Reports, AllDesired, DeploymentConditions, NoDeploymentConditions;
    ReportExact(pf, b, n, f, now);
    SyncConverges(pf, b, AimOf(b.apps[n]), f);
  }

  /** A pass that writes no success leaves observedGeneration. */
  lemma ObservedStays(pf: Platform, c: State, key: NsName, f: Faults, now: nat)
    requires WellKeyed(c) && key in c.apps && !c.apps[key].deleting
    requires !(Reports(pf, c, key, f) && Sync(pf, c, AimOf(c.apps[key]), f).err.None?)
    ensures var d := Reconciled(pf, c, key, f, now).state;
      key in d.apps && d.apps[key].status.observedGeneration == c.apps[key].status.observedGeneration
  {
    hide Reconciled, Sync, Reports, FailureConditions;
    ReportExact(pf, c, key, f, now);
  }

  /** observedGeneration moves only in a pass over the WebApp itself that applied its spec, and
      then to the generation of that spec; nothing moves it back. */
  lemma ObservedOnlyAfterSync(pf: Platform, c: State, key: NsName, f: Faults, now: nat, n: NsName)
    requires Sound(c) && key in c.apps && n in c.apps && n in Reconciled(pf, c, key, f, now).state.apps
    ensures var d := Reconciled(pf, c, key, f, now).state;
      var was, got := c.apps[n].status.observedGeneration, d.apps[n].status.observedGeneration;
      was <= got && (got != was ==> n == key && got == c.apps[n].generation && Applies(pf, c, d, n, f))
  {
    hide Reconciled, Sync, SoundConditions, Reports, Remaining, Keeps, StatusMoves, Applies;
    if c.apps[key].deleting {
      DeletingPass(pf, c, key, f, now);
    } else {
      LivePass(pf, c, key, f, now);
      if Reports(pf, c, key, f) && Sync(pf, c, AimOf(c.apps[key]), f).err.None? {
        ReportedSuccessApplies(pf, c, key, f, now);
        WrittenGeneration(pf, c, Reconciled(pf, c, key, f, now).state, key, f);
      } else {
        ObservedStays(pf, c, key, f, now);
      }
    }
  }

  lemma WrittenGeneration(pf: Platform, b: State, d: State, n: NsName, f: Faults)
    requires Applies(pf, b, d, n, f)
    ensures n in b.apps && n in d.apps && d.apps[n].status.observedGeneration == b.apps[n].generation
  {
    hide AllDesired, Sync;
  }

  /** A written status says Ready exactly when the sync succeeded and the Deployment it left
      is healthy. */
  lemma ReadyIsTrue(pf: Platform, c: State, key: NsName, f: Faults, now: nat)
    requires Sound(c) && key in c.apps && !c.apps[key].deleting && Reports(pf, c, key, f)
    ensures var d := Reconciled(pf, c, key, f, now).state; var k := ObjKey(DeploymentKind, key);
      && key in d.apps && Lookup(d.apps[key].status.conditions, READY).Some?
      && (Lookup(d.apps[key].status.conditions, READY).value.status == StatusTrue <==>
            Sync(pf, c, AimOf(c.apps[key]), f).err.None? && k in d.objs && Healthy(d.objs[k]))
      && (Sync(pf, c, AimOf(c.apps[key]), f).err.Some? ==>
            Lookup(d.apps[key].status.conditions, DEGRADED).Some? &&
                Lookup(d.apps[key].status.conditions, DEGRADED).value.status == StatusTrue)
  {
    hide Reconciled, Sync, SoundConditions, FailureConditions, DeploymentConditions, NoDeploymentConditions, Lookup,
        Reports, RolloutStalled, NoOrphans;
    var app := c.apps[key];
    ReportExact(pf, c, key, f, now);
    var sync := Sync(pf, c, AimOf(app), f);
    var t := Stamp(app.generation, now);
    if sync.err.Some? {
      FailureConditionsSound(app.status.conditions, t, sync.err.value);
    } else {
      var dep := At(sync.store, ObjKey(DeploymentKind, app.key));
      NoDeploymentConditionsSound(app.status.conditions, t);
      if dep.Some? {
        DeploymentConditionsSound(app.status.conditions, t, View(dep.value));
      }
    }
  }

  /** Unstalled, its generation observed, a non-zero count desired, all of it updated and ready. */
  ghost predicate Healthy(o: Object) {
    && !RolloutStalled(View(o)) && o.status.observedGeneration >= o.generation && o.replicas != 0
    && o.status.updatedReplicas == o.status.readyReplicas == o.replicas
  }

  /** What a written status says of the Deployment: after a failure nothing new but the error, after
      a success what the Deployment says of itself. */
  lemma ConditionsReported(pf: Platform, c: State, key: NsName, f: Faults, now: nat)
    requires WellKeyed(c) && key in c.apps && !c.apps[key].deleting && Reports(pf, c, key, f)
    ensures var d, k := Reconciled(pf, c, key, f, now).state, ObjKey(DeploymentKind, key);
      var t, err := Stamp(c.apps[key].generation, now), Sync(pf, c, AimOf(c.apps[key]), f).err;
      key in d.apps && var was, got := c.apps[key].status.conditions, d.apps[key].status.conditions;
        if err.Some? then
          && Reads(was, got, t, "Degraded", StatusTrue, "ReconcileFailed", OfError(err.value))
          && Reads(was, got, t, "Ready", StatusFalse, "ReconcileFailed", OfError(err.value))
          && Filled(was, got, t, "Available") && Filled(was, got, t, "Progressing")
        else if k in d.objs then
          var own := d.objs[k].status.conditions;
          && Mirrors(was, got, t, own, "Available", "MinimumReplicasAvailable")
          && Mirrors(was, got, t, own, "Progressing", "RollingOut")
        else
          && Reads(was, got, t, "Available", StatusUnknown, "DeploymentNotFound", NotCreated)
          && Reads(was, got, t, "Progressing", StatusUnknown, "DeploymentNotFound", NotCreated)
  {
    hide Reconciled, Sync, Reports, FailureConditions, DeploymentConditions, NoDeploymentConditions, Reads, Filled,
      Mirrors, RolloutStalled, ReadyReason;
    var app := c.apps[key];
    ReportExact(pf, c, key, f, now);
    var sync := Sync(pf, c, AimOf(app), f);
    var t := Stamp(app.generation, now);
    if sync.err.Some? {
      FailureExact(app.status.conditions, t, sync.err.value);
    } else {
      var dep := At(sync.store, ObjKey(DeploymentKind, app.key));
      NoDeploymentExact(app.status.conditions, t);
      if dep.Some? {
        ConditionsMirror(app.status.conditions, t, View(dep.value));
      }
    }
  }

  /** A written status carries the counts of the Deployment the sync left, or, after a failed
      sync, the counts it had; its selector is the one the pods are selected by, and it gives a
      URL exactly when an Ingress is wanted. */
  lemma ReportedCounts(pf: Platform, c: State, key: NsName, f: Faults, now: nat)
    requires WellKeyed(c) && key in c.apps && !c.apps[key].deleting && Reports(pf, c, key, f)
    ensures var d, k := Reconciled(pf, c, key, f, now).state, ObjKey(DeploymentKind, key);
      key in d.apps && var was, st := c.apps[key].status, d.apps[key].status;
        && OperatorLabels(st.selector, key)
        && st.ingressURL == (if c.apps[key].spec.domain != "" then "http://" + c.apps[key].spec.domain else "")
        && if Sync(pf, c, AimOf(c.apps[key]), f).err.None? && k in d.objs then
          var dep := d.objs[k].status;
          && st.replicas == dep.replicas && st.readyReplicas == dep.readyReplicas
          && st.availableReplicas == dep.availableReplicas && st.updatedReplicas == dep.updatedReplicas
        else
          && st.replicas == was.replicas && st.readyReplicas == was.readyReplicas
          && st.availableReplicas == was.availableReplicas && st.updatedReplicas == was.updatedReplicas
  {
    hide Reconciled, Sync, FailureConditions, DeploymentConditions, NoDeploymentConditions;
    ReportExact(pf, c, key, f, now);
  }

  /* Over runs. */

  /** In one move, by whomever. */
  lemma MoveHistory(pf: Platform, c: State, m: Move, n: NsName)
    requires Sound(c) && (m.Others? ==> OthersMove(c, m.next))
    requires var d := After(pf, c, m); n in d.apps && d.apps[n].uid in c.appUids
    ensures var d := After(pf, c, m);
      && c.appUids <= d.appUids
      && n in c.apps && c.apps[n].uid == d.apps[n].uid
      && c.apps[n].status.observedGeneration <= d.apps[n].status.observedGeneration
      && c.apps[n].generation <= d.apps[n].generation
      && (d.apps[n].generation == c.apps[n].generation ==> d.apps[n].spec == c.apps[n].spec)
  {
    hide Reconciled, Sync, SoundStatus, NoOrphans, Keeps, WritesOurs;
    if m.Operator? {
      if m.key in c.apps {
        ForeignUntouched(pf, c, m.key, m.faults, m.now);
        ObservedOnlyAfterSync(pf, c, m.key, m.faults, m.now, n);
        if n == m.key {
          SameApp(c, After(pf, c, m), n);
        }
      } else {
        MissingPass(pf, c, m.key, m.faults, m.now);
      }
    }
  }

  lemma SameApp(c: State, d: State, key: NsName)
    requires OnlyApp(c, d, key) && key in c.apps && key in d.apps
    ensures d.apps[key].uid == c.apps[key].uid && d.apps[key].generation == c.apps[key].generation &&
        d.apps[key].spec == c.apps[key].spec
  {
    var a := d.apps[key].(finalizers := {}, status := c.apps[key].status);
    var b := c.apps[key].(finalizers := {});
    assert a == b && a.uid == b.uid && a.spec == b.spec && a.generation == b.generation;
  }

  lemma {:induction false} UidsGrow(pf: Platform, c: State, run: seq<Move>)
    requires Sound(c) && Legal(pf, c, run)
    ensures c.appUids <= Reached(pf, c, run).appUids
  {
    hide Legal, Sound, Reconciled, WritesOurs, Keeps;
    if run != [] {
      var init, m := run[..|run| - 1], run[|run| - 1];
      LegalPrefix(pf, c, run);
      UidsGrow(pf, c, init);
      RunsAreSound(pf, c, init);
      var d := Reached(pf, c, init);
      if m.Operator? {
        if m.key in d.apps {
          WellKeyedIfSound(d);
          ForeignUntouched(pf, d, m.key, m.faults, m.now);
        } else {
          MissingPass(pf, d, m.key, m.faults, m.now);
        }
      }
    }
  }

  lemma WellKeyedIfSound(c: State)
    requires Sound(c)
    ensures WellKeyed(c)
  {
  }

  /** Over a whole run: a WebApp stored at the end under a UID known at the start was stored then,
      under the same name; its observedGeneration and generation never went back; and the
      same generation means the same spec. */
  lemma {:induction false} StatusOverRuns(pf: Platform, c: State, run: seq<Move>, n: NsName)
    requires Sound(c) && Legal(pf, c, run)
    requires var d := Reached(pf, c, run); n in d.apps && d.apps[n].uid in c.appUids
    ensures var d := Reached(pf, c, run);
      && n in c.apps && c.apps[n].uid == d.apps[n].uid
      && c.apps[n].status.observedGeneration <= d.apps[n].status.observedGeneration
      && c.apps[n].generation <= d.apps[n].generation
      && (d.apps[n].generation == c.apps[n].generation ==> d.apps[n].spec == c.apps[n].spec)
  {
    hide Legal, Sound, OthersMove, Reconciled;
    if run != [] {
      var init, m := run[..|run| - 1], run[|run| - 1];
      LegalPrefix(pf, c, run);
      RunsAreSound(pf, c, init);
      UidsGrow(pf, c, init);
      MoveHistory(pf, Reached(pf, c, init), m, n);
      StatusOverRuns(pf, c, init, n);
    }
  }

  /** A run from the middle. */
  lemma {:induction false} RunSplits(pf: Platform, c: State, run: seq<Move>, i: nat)
    requires Legal(pf, c, run) && i <= |run|
    ensures var mid := Reached(pf, c, run[..i]);
      Legal(pf, c, run[..i]) && Legal(pf, mid, run[i..]) && Reached(pf, mid, run[i..]) == Reached(pf, c, run)
  {
    hide OthersMove, After;
    if i == |run| {
      assert run[..i] == run && run[i..] == [];
    } else {
      var init, n := run[..|run| - 1], |run| - 1 - i;
      var rest, mid := run[i..], Reached(pf, c, run[..i]);
      LegalPrefix(pf, c, run);
      RunSplits(pf, c, init, i);
      assert init[..i] == run[..i] && rest[..n] == init[i..];
      forall j | 0 <= j < |rest| && rest[j].Others? ensures OthersMove(Reached(pf, mid, rest[..j]), rest[j].next) {
        if j < n {
          assert rest[..j] == init[i..][..j] && rest[j] == init[i..][j];
        } else {
          assert rest[..j] == init[i..];
        }
      }
    }
  }

  /** Step i is a pass that applied generation g of the WebApp at n with this UID. */
  ghost predicate AppliedAt(pf: Platform, c: State, run: seq<Move>, n: NsName, uid: Uid, g: nat, i: nat) {
    && i < |run| && run[i].Operator? && run[i].key == n
    && var b, d := Reached(pf, c, run[..i]), Reached(pf, c, run[..i + 1]);
      n in b.apps && b.apps[n].uid == uid && b.apps[n].generation == g && Applies(pf, b, d, n, run[i].faults)
  }

  /** A non-zero observedGeneration was earned: some pass of the run applied that generation. */
  lemma {:induction false} ObservedWasApplied(pf: Platform, c: State, run: seq<Move>, n: NsName) returns (i: nat)
    requires Initial(c) && Legal(pf, c, run) && n in Reached(pf, c, run).apps
    ensures var app := Reached(pf, c, run).apps[n];
      app.status.observedGeneration != 0 ==> AppliedAt(pf, c, run, n, app.uid, app.status.observedGeneration, i)
  {
    hide Legal, Sound, Applies, Reconciled;
    i := 0;
    if run != [] {
      var init, m := run[..|run| - 1], run[|run| - 1];
      var b, d := Reached(pf, c, init), Reached(pf, c, run);
      LegalPrefix(pf, c, run);
      InitialIsSound(c);
      RunsAreSound(pf, c, init);
      if ObservedStands(pf, b, m, n) {
        i := ObservedWasApplied(pf, c, init, n);
        if d.apps[n].status.observedGeneration != 0 {
          assert init[..i] == run[..i] && init[i] == run[i] && init[..i + 1] == run[..i + 1];
        }
      } else {
        i := |init|;
        assert run[..i + 1] == run;
        LastMoveApplied(pf, b, m, n);
      }
    }
  }

  ghost predicate ObservedStands(pf: Platform, b: State, m: Move, n: NsName) {
    var d := After(pf, b, m);
    n in b.apps && n in d.apps && b.apps[n].uid == d.apps[n].uid &&
        b.apps[n].status.observedGeneration == d.apps[n].status.observedGeneration
  }

  lemma LastMoveApplied(pf: Platform, b: State, m: Move, n: NsName)
    requires Sound(b) && (m.Others? ==> OthersMove(b, m.next))
    requires n in After(pf, b, m).apps && !ObservedStands(pf, b, m, n)
    ensures var app := After(pf, b, m).apps[n];
      app.status.observedGeneration != 0 ==>
        && m.Operator? && m.key == n && n in b.apps && b.apps[n].uid == app.uid
        && b.apps[n].generation == app.status.observedGeneration && Applies(pf, b, After(pf, b, m), n, m.faults)
  {
    hide Reconciled, Applies, SoundStatus, NoOrphans, Keeps, WritesOurs;
    if m.Operator? {
      if m.key in b.apps {
        ForeignUntouched(pf, b, m.key, m.faults, m.now);
        ObservedOnlyAfterSync(pf, b, m.key, m.faults, m.now, n);
        if n == m.key {
          SameApp(b, After(pf, b, m), n);
        }
      } else {
        MissingPass(pf, b, m.key, m.faults, m.now);
      }
    }
  }

  /** observedGeneration == generation is a promise: some pass of the run left every object as the
      spec now stored asks. */
  lemma CurrentSpecWasApplied(pf: Platform, c: State, run: seq<Move>, n: NsName) returns (i: nat)
    requires Initial(c) && Legal(pf, c, run)
    requires var d := Reached(pf, c, run);
      n in d.apps && d.apps[n].status.observedGeneration == d.apps[n].generation != 0
    ensures var app := Reached(pf, c, run).apps[n];
      && AppliedAt(pf, c, run, n, app.uid, app.generation, i)
      && Reached(pf, c, run[..i]).apps[n].spec == app.spec
      && AllDesired(pf, AimOf(app), Reached(pf, c, run[..i + 1]).objs)
  {
    hide Legal, Sound, Reconciled, AllDesired, Reports, Sync;
    i := ObservedWasApplied(pf, c, run, n);
    InitialIsSound(c);
    RunSplits(pf, c, run, i);
    RunsAreSound(pf, c, run[..i]);
    RunsAreSound(pf, c, run);
    KnownIfSound(Reached(pf, c, run[..i]), n);
    KnownIfSound(Reached(pf, c, run), n);
    StatusOverRuns(pf, Reached(pf, c, run[..i]), run[i..], n);
    assert AimOf(Reached(pf, c, run).apps[n]) == AimOf(Reached(pf, c, run[..i]).apps[n]);
  }

  lemma KnownIfSound(c: State, n: NsName)
    requires Sound(c) && n in c.apps
    ensures c.apps[n].uid in c.appUids && c.apps[n].key == n
  {
  }
}
