/** The part of the cluster a reconcile pass reads and writes, and the API calls on it. */
module Cluster {
  import opened Base
  import opened Api
  import opened Builders
  import opened Conditions

  const FIELD_OWNER := "webapp-operator"

  datatype ObjKey = ObjKey(kind: Kind, name: NsName)

  /** metadata.managedFields, as far as spec.replicas is concerned. */
  datatype ManagedFields = Absent | Unreadable | WithoutSpec | Spec(replicas: bool)

  datatype ManagedEntry = ManagedEntry(manager: string, fields: ManagedFields) {
    predicate Claims() { fields == Spec(true) }
  }

  /** One stored object. The last four fields mean something for Deployments only. */
  datatype Object = Object(
    controller: Option<Uid>, body: Body,
    replicas: int, managed: seq<ManagedEntry>, generation: nat, status: DeploymentStatus)

  type Store = map<ObjKey, Object>

  datatype State = State(
    apps: map<NsName, WebApp>, objs: Store,
    policies: seq<Policy>, namespaces: map<string, Labels>,
    appUids: set<Uid>)   // every UID a WebApp ever had

  function At(s: Store, k: ObjKey): Option<Object> { if k in s then Some(s[k]) else None }

  predicate ControlledBy(s: Store, k: ObjKey, uid: Uid) { k in s && s[k].controller == Some(uid) }

  function View(o: Object): DeploymentView { DeploymentView(Some(o.replicas), o.generation, o.status) }

  /* Field ownership of spec.replicas under server-side apply with force. */

  function ReplicaOwners(managed: seq<ManagedEntry>): set<string> {
    set e | e in managed && e.Claims() :: e.manager
  }

  predicate OwnedByOther(managed: seq<ManagedEntry>) {
    exists i :: 0 <= i < |managed| && managed[i].Claims() && managed[i].manager != FIELD_OWNER
  }

  const OUR_CLAIM := ManagedEntry(FIELD_OWNER, Spec(true))

  function Grant(managed: seq<ManagedEntry>): seq<ManagedEntry> {
    if FIELD_OWNER in ReplicaOwners(managed) then managed else managed + [OUR_CLAIM]
  }

  function Dropped(e: ManagedEntry, ours: bool): ManagedEntry {
    if e.Claims() && (e.manager == FIELD_OWNER) == ours then e.(fields := Spec(false)) else e
  }

  /** Drop the operator's claims (ours) or everyone else's. */
  function Drop(managed: seq<ManagedEntry>, ours: bool): seq<ManagedEntry> {
    seq(|managed|, i requires 0 <= i < |managed| => Dropped(managed[i], ours))
  }

  datatype Replicas = Replicas(count: int, managed: seq<ManagedEntry>)

  /** Sending a value takes the field, alone if the value moves it, shared if it stands.
      Sending none gives the claim up; a field left unowned is removed, and the API
      defaults a removed count to 1. */
  function ApplyReplicas(r: Replicas, sent: Option<int>): Replicas {
    if sent.Some? then
      if sent.value == r.count then Replicas(r.count, Grant(r.managed))
      else Replicas(sent.value, Grant(Drop(r.managed, false)))
    else if FIELD_OWNER !in ReplicaOwners(r.managed) then r
    else Replicas(if OwnedByOther(r.managed) then r.count else 1, Drop(r.managed, true))
  }

  const FRESH_STATUS := DeploymentStatus(0, 0, 0, 0, 0, [])

  /** The object after a server-side apply of body, with the operator's controller reference. */
  function AppliedTo(o: Option<Object>, uid: Uid, body: Body, sent: Option<int>): Object {
    if o.None? then
      Object(Some(uid), body, sent.GetOr(1), if sent.Some? then [OUR_CLAIM] else [], 1, FRESH_STATUS)
    else
      var was := o.value;
      var r := if body.DeploymentBody? then ApplyReplicas(Replicas(was.replicas, was.managed), sent)
          else Replicas(was.replicas, was.managed);
      Object(Some(uid), body, r.count, r.managed,
             if body == was.body && r.count == was.replicas then was.generation else was.generation + 1, was.status)
  }

  lemma OwnersExact(managed: seq<ManagedEntry>, m: string)
    ensures m in ReplicaOwners(managed) <==>
        exists i :: 0 <= i < |managed| && managed[i].Claims() && managed[i].manager == m
  {
  }

  lemma OwnedByOtherExact(managed: seq<ManagedEntry>)
    ensures OwnedByOther(managed) <==> ReplicaOwners(managed) - {FIELD_OWNER} != {}
  {
    if OwnedByOther(managed) {
      var i :| 0 <= i < |managed| && managed[i].Claims() && managed[i].manager != FIELD_OWNER;
      assert managed[i] in managed;
      assert managed[i].manager in ReplicaOwners(managed) - {FIELD_OWNER};
    }
    if ReplicaOwners(managed) - {FIELD_OWNER} != {} {
      var m :| m in ReplicaOwners(managed) - {FIELD_OWNER};
      var e :| e in managed && e.Claims() && e.manager == m;
      var i :| 0 <= i < |managed| && managed[i] == e;
      assert managed[i].Claims();
    }
  }

  lemma DropExact(managed: seq<ManagedEntry>, ours: bool)
    ensures ReplicaOwners(Drop(managed, ours)) ==
      if ours then ReplicaOwners(managed) - {FIELD_OWNER} else ReplicaOwners(managed) * {FIELD_OWNER}
  {
    var d := Drop(managed, ours);
    forall m ensures m in ReplicaOwners(d) <==> m in ReplicaOwners(managed) && (m == FIELD_OWNER) != ours {
      if m in ReplicaOwners(d) {
        var e :| e in d && e.Claims() && e.manager == m;
        var i :| 0 <= i < |d| && d[i] == e;
        assert managed[i] in managed && managed[i].Claims();
      }
      if m in ReplicaOwners(managed) && (m == FIELD_OWNER) != ours {
        var e :| e in managed && e.Claims() && e.manager == m;
        var i :| 0 <= i < |managed| && managed[i] == e;
        assert d[i] == e && e in d;
      }
    }
  }

  lemma GrantExact(managed: seq<ManagedEntry>)
    ensures ReplicaOwners(Grant(managed)) == ReplicaOwners(managed) + {FIELD_OWNER}
  {
    var g := managed + [OUR_CLAIM];
    assert forall e :: e in g <==> e in managed || e == OUR_CLAIM;
    assert OUR_CLAIM in g && OUR_CLAIM.Claims();
  }

  /** Who owns the count after an apply. */
  lemma ApplyReplicasOwners(r: Replicas, sent: Option<int>)
    ensures var owners, after := ReplicaOwners(r.managed), ReplicaOwners(ApplyReplicas(r, sent).managed);
      after == if sent.None? then owners - {FIELD_OWNER}
               else if sent.value == r.count then owners + {FIELD_OWNER}
               else {FIELD_OWNER}
  {
    GrantExact(r.managed);
    DropExact(r.managed, true);
    DropExact(r.managed, false);
    GrantExact(Drop(r.managed, false));
  }

  /** Sending no count moves it exactly when the operator is the only owner of a count other
      than 1: the reason for the hold. */
  lemma OmissionResets(r: Replicas)
    ensures ApplyReplicas(r, None).count != r.count <==> ReplicaOwners(r.managed) == {FIELD_OWNER} && r.count != 1
    ensures ReplicaOwners(r.managed) == {FIELD_OWNER} ==> ApplyReplicas(r, None).count == 1
  {
    OwnedByOtherExact(r.managed);
  }

  /* API calls. */

  /** A refused call does nothing; an unacknowledged one takes effect and reports an error. */
  datatype Fault = Refused | Unacknowledged

  type Faults = map<Call, Fault>

  predicate Fails(f: Faults, call: Call) { call in f }

  predicate Lands(f: Faults, call: Call) { call !in f || f[call] == Unacknowledged }

  function Outcome(f: Faults, call: Call): Option<SyncError> {
    if Fails(f, call) then Some(CallFailed(call)) else None
  }

  /** Write calls the operator issued, whether or not they landed. */
  datatype Write = Applied(key: ObjKey, uid: Uid, body: Body, sent: Option<int>) | Deleted(key: ObjKey)

  datatype Effect = Effect(store: Store, writes: seq<Write>, err: Option<SyncError>)

  /** b starts where a ended and runs only if a succeeded. */
  function Then(a: Effect, b: Effect): Effect {
    if a.err.Some? then a else Effect(b.store, a.writes + b.writes, b.err)
  }

  lemma StoppedStays(a: Effect, b: Effect)
    requires a.err.Some?
    ensures Then(a, b) == a
  {
  }

  lemma GoesOn(a: Effect, b: Effect)
    requires a.err.None?
    ensures Then(a, b) == Effect(b.store, a.writes + b.writes, b.err)
  {
  }

  function ApplyStep(app: Target, f: Faults, s: Store, kind: Kind, body: Body, sent: Option<int>): Effect {
    var k := ObjKey(kind, app.key);
    Effect(if Lands(f, Apply(kind)) then s[k := AppliedTo(At(s, k), app.uid, body, sent)] else s,
           [Applied(k, app.uid, body, sent)], Outcome(f, Apply(kind)))
  }

  function DeleteOwnedStep(app: Target, f: Faults, s: Store, kind: Kind): Effect {
    var k := ObjKey(kind, app.key);
    if Fails(f, GetOwned(kind)) then Effect(s, [], Some(CallFailed(GetOwned(kind))))
    else if !ControlledBy(s, k, app.uid) then Effect(s, [], None)
    else Effect(if Lands(f, Delete(kind)) then s - {k} else s, [Deleted(k)], Outcome(f, Delete(kind)))
  }

  function Adoptable(app: Target, f: Faults, s: Store, kind: Kind): Option<SyncError> {
    var k := ObjKey(kind, app.key);
    if Fails(f, GetLive(kind)) then Some(CallFailed(GetLive(kind)))
    else if k in s && !ControlledBy(s, k, app.uid) then Some(NotAdoptable(kind))
    else None
  }
}
