/**
 The whole cluster: any number of Realms, each with its reconcile in progress, the children, the
 Jobs, and the finalizer handshake of the child controllers
 (operator/internal/controller/helper.go, client_controller.go). A run is any sequence of enabled
 actions; nothing is scheduled. The theorems about all runs are in `Theorems`.
 */
module World {
  import opened Wrappers
  import opened Api
  import opened Protocol
  import Builder

  // ----- children ----------------------------------------------------------------------------

  /** A child, of whatever kind, as the handshake sees it. */
  datatype Ref = Ref(uid: nat, realmRef: string, created: nat, deletedAt: Option<nat>, finalizer: bool)

  function ToRef<S>(o: Obj<S>): Ref {
    Ref(o.meta.uid, o.realmRef, o.meta.created, o.meta.deletedAt, o.meta.finalizer)
  }

  ghost function RefsOf<S>(xs: seq<Obj<S>>): set<Ref> { set o | o in xs :: ToRef(o) }

  ghost function Refs(ns: Namespace): set<Ref> {
    RefsOf(ns.clients) + RefsOf(ns.scopes) + RefsOf(ns.groups) + RefsOf(ns.users) + RefsOf(ns.flows) + RefsOf(ns.idps)
  }

  /** The children a build of this namespace takes into account. */
  ghost function Live(ns: Namespace): set<nat> { set c | c in Refs(ns) && c.deletedAt.None? :: c.uid }

  /** The child existed at moment t and nobody had asked for its deletion. */
  predicate LiveAt(c: Ref, t: nat) {
    c.created <= t && (c.deletedAt.None? || c.deletedAt.value > t)
  }

  ghost predicate RefsOk(refs: set<Ref>, now: nat, nextUid: nat) {
    && (forall c :: c in refs ==>
          c.uid < nextUid && c.created <= now && (c.deletedAt.Some? ==> c.deletedAt.value <= now))
    && (forall c, d :: c in refs && d in refs && c.uid == d.uid ==> c == d)
  }

  /** One child from one moment to a later one, t: deletion cannot be taken back. */
  predicate Later(c: Ref, c': Ref, t: nat) {
    && c'.uid == c.uid && c'.created == c.created
    && (c.deletedAt.Some? ==> c'.deletedAt == c.deletedAt)
    && (c.deletedAt.None? ==> c'.deletedAt.None? || c'.deletedAt == Some(t))
    && (c.finalizer ==> c'.finalizer)
  }

  /** Users and child controllers create, edit and delete children; a finalizer keeps its child. */
  ghost predicate Evolves(refs: set<Ref>, nextUid: nat, refs': set<Ref>, nextUid': nat, t: nat) {
    && nextUid <= nextUid' && RefsOk(refs', t, nextUid')
    && (forall c' :: c' in refs' && c'.uid < nextUid ==> exists c :: c in refs && Later(c, c', t))
    && (forall c' :: c' in refs' && c'.uid >= nextUid ==> c'.created == t && c'.deletedAt.None?)
    && (forall c :: c in refs && c.finalizer ==> exists c' :: c' in refs' && c'.uid == c.uid)
  }

  // ----- state and actions -------------------------------------------------------------------

  /**
   A child found safe to let go: the Realm objects there were, each with its realmName, and the last
   Ready record of the one the child's reference names, if any.
   */
  datatype Approval = Approval(ref: Ref, realms: map<string, string>, record: Option<nat>) {
    predicate Gone() { ref.realmRef !in realms }
  }

  datatype World = World(shared: Shared, locals: map<string, Local>, nextUid: nat, approvals: seq<Approval>)

  datatype Action =
    | Work(key: string, reply: Reply)
    | CreateRealm(new_key: string, spec: RealmSpec, dt: nat)
    | EditRealm(key: string, spec: RealmSpec, dt: nat)
    | DeleteRealm(key: string, dt: nat)
    | Trigger(key: string, stamp: string, dt: nat)
    | Children(ns: Namespace, uids: nat, dt: nat)
    | Approve(ref: Ref, dt: nat)
    | Release(index: nat, ns: Namespace, dt: nat)
    | JobReads(job: nat, dt: nat)
    | JobEnds(job: nat, cond: JobCondition, dt: nat)
    | JobVanishes(job: nat, dt: nat)

  predicate HasRealm(w: World, key: string) { key in w.locals && w.locals[key].realm.Some? }

  function RealmNames(w: World): map<string, string> {
    map k | k in w.locals && w.locals[k].realm.Some? :: w.locals[k].realm.value.spec.realmName
  }

  /** `IsSafelyDeletedFromRealm` for a deleted child: with stored, that is truncated, times. */
  predicate Safe(w: World, c: Ref) {
    c.deletedAt.Some? && c.realmRef != "" &&
    (HasRealm(w, c.realmRef) ==>
      var st := w.locals[c.realmRef].realm.value.status;
      st.ready && st.lastSync.Some? && st.lastSync.value > Trunc(c.deletedAt.value))
  }

  ghost predicate Enabled(w: World, a: Action) {
    match a
    case Work(key, _) => key in w.locals
    case CreateRealm(key, _, _) => key !in w.locals
    case EditRealm(key, spec, _) => HasRealm(w, key) && spec != w.locals[key].realm.value.spec
    case DeleteRealm(key, _) =>
      HasRealm(w, key) && w.locals[key].realm.value.finalizer && w.locals[key].realm.value.deletedAt.None?
    case Trigger(key, _, _) => HasRealm(w, key)
    case Children(ns, uids, dt) => Evolves(Refs(w.shared.ns), w.nextUid, Refs(ns), uids, w.shared.now + 1 + dt)
    case Approve(c, _) => c in Refs(w.shared.ns) && c.finalizer && Safe(w, c)
    case Release(i, ns, _) =>
      && i < |w.approvals|
      && Refs(ns) == set c | c in Refs(w.shared.ns) && c.uid != w.approvals[i].ref.uid
    case JobReads(j, _) =>
      && j in w.shared.jobs && !Terminal(w.shared.jobs[j])
      && w.shared.jobs[j].mounts in w.locals && |w.locals[w.shared.jobs[j].mounts].log.writes| > 0
    case JobEnds(j, c, _) =>
      && j in w.shared.jobs && !Terminal(w.shared.jobs[j])
      && (JobVerdict([c]) == Succeeded ==> w.shared.jobs[j].carried.Some?)
    case JobVanishes(j, _) => j in w.shared.jobs
  }

  function NewRealm(uid: nat, spec: RealmSpec): Local {
    Local(Some(Realm(uid, spec, 0, None, false, map[], NO_STATUS)), None, Idle, Log([], [spec], [], false))
  }

  function PutRealm(w: World, key: string, o: Realm, dt: nat): World
    requires key in w.locals
  {
    w.(locals := w.locals[key := w.locals[key].(realm := Some(o))], shared := w.shared.(now := w.shared.now + 1 + dt))
  }

  function PutJob(w: World, j: nat, job: Job, dt: nat): World {
    w.(shared := w.shared.(now := w.shared.now + 1 + dt, jobs := w.shared.jobs[j := job]))
  }

  ghost function Apply(w: World, a: Action): World
    requires Enabled(w, a)
  {
    var s := w.shared;
    match a
    case Work(key, reply) =>
      var r := Worker(key, w.locals[key], s, reply);
      w.(locals := w.locals[key := r.0], shared := r.1)
    case CreateRealm(key, spec, dt) =>
      w.(locals := w.locals[key := NewRealm(w.nextUid, spec)], nextUid := w.nextUid + 1, shared := s.(now := s.now + 1 + dt))
    case EditRealm(key, spec, dt) =>
      var l := w.locals[key];
      var l' := l.(realm := Some(l.realm.value.(spec := spec, generation := l.realm.value.generation + 1)),
                   log := l.log.(specs := l.log.specs + [spec]));
      w.(locals := w.locals[key := l'], shared := s.(now := s.now + 1 + dt))
    case DeleteRealm(key, dt) =>
      PutRealm(w, key, w.locals[key].realm.value.(deletedAt := Some(s.now + 1 + dt)), dt)
    case Trigger(key, stamp, dt) =>
      var o := w.locals[key].realm.value;
      PutRealm(w, key, o.(annotations := o.annotations[SYNC_REQUESTED := stamp]), dt)
    case Children(ns, uids, dt) => w.(shared := s.(now := s.now + 1 + dt, ns := ns), nextUid := uids)
    case Approve(c, dt) =>
      var record := if HasRealm(w, c.realmRef) && |w.locals[c.realmRef].log.readies| > 0
                    then Some(|w.locals[c.realmRef].log.readies| - 1) else None;
      w.(shared := s.(now := s.now + 1 + dt), approvals := w.approvals + [Approval(c, RealmNames(w), record)])
    case Release(_, ns, dt) => w.(shared := s.(now := s.now + 1 + dt, ns := ns))
    case JobReads(j, dt) =>
      var job := s.jobs[j];
      PutJob(w, j, job.(carried := Some(|w.locals[job.mounts].log.writes| - 1)), dt)
    case JobEnds(j, c, dt) => PutJob(w, j, s.jobs[j].(conditions := s.jobs[j].conditions + [c]), dt)
    case JobVanishes(j, dt) => w.(shared := s.(now := s.now + 1 + dt, jobs := s.jobs - {j}, vanished := true))
  }

  ghost predicate ValidRun(w: World, acts: seq<Action>)
    decreases |acts|
  {
    |acts| > 0 ==> Enabled(w, acts[0]) && ValidRun(Apply(w, acts[0]), acts[1..])
  }

  ghost function Run(w: World, acts: seq<Action>): World
    requires ValidRun(w, acts)
    decreases |acts|
  {
    if |acts| == 0 then w else Run(Apply(w, acts[0]), acts[1..])
  }

  /** An empty namespace served by the operator's builder. */
  ghost predicate Init(w: World) {
    && w.shared.jobs == map[] && w.locals == map[] && w.approvals == [] && Refs(w.shared.ns) == {}
    && w.shared.render == Builder.Payload
  }

  // ----- invariant ---------------------------------------------------------------------------

  /** A build's snapshot, read at `readAt`, seen from now: who was live then. */
  ghost predicate SnapshotInv(snap: Namespace, readAt: nat, w: World) {
    && readAt <= w.shared.now
    && (forall c :: c in Refs(w.shared.ns) ==> (c.uid in Live(snap) <==> LiveAt(c, readAt)))
    && (forall u :: u in Live(snap) ==> u < w.nextUid)
  }

  function DesiredOf(pc: Pc): Option<Desired> {
    match pc
    case Built(_, d) => Some(d)
    case Drifted(_, d) => Some(d)
    case Stored(_, d) => Some(d)
    case Spawned(_, d, _) => Some(d)
    case Recorded(_, d, _) => Some(d)
    case Observing(_, d, _, _) => Some(d)
    case Writing(d, _, _) => Some(d)
    case _ => None
  }

  ghost predicate SnapshotsInv(l: Local, w: World) {
    && (DesiredOf(l.pc).Some? ==> SnapshotInv(DesiredOf(l.pc).value.ns, DesiredOf(l.pc).value.readAt, w))
    && (forall i :: 0 <= i < |l.log.readies| ==> SnapshotInv(l.log.readies[i].d.ns, l.log.readies[i].d.readAt, w))
  }

  /** What a removal relied on: a Ready written after the deletion, and who its build had seen. */
  ghost predicate ApprovalOk(locals: map<string, Local>, a: Approval) {
    a.ref.deletedAt.Some? && a.ref.realmRef != "" &&
    (!a.Gone() ==>
      && a.ref.realmRef in locals
      && a.record.Some?
      && a.record.value < |locals[a.ref.realmRef].log.readies|
      && var r := locals[a.ref.realmRef].log.readies[a.record.value];
         && r.at > a.ref.deletedAt.value
         && (a.ref.uid in Live(r.d.ns) <==> LiveAt(a.ref, r.d.readAt)))
  }

  predicate JobsBasic(s: Shared) {
    forall j :: j in s.jobs ==>
      && j < s.nextJob && |s.jobs[j].owners| == 1 && s.jobs[j].created <= s.now
      && (JobVerdict(s.jobs[j].conditions) == Succeeded ==> s.jobs[j].carried.Some?)
  }

  function Uid(w: World, key: string): nat
    requires HasRealm(w, key)
  {
    w.locals[key].realm.value.uid
  }

  ghost predicate RealmUids(w: World) {
    && (forall k :: HasRealm(w, k) ==> Uid(w, k) < w.nextUid)
    && (forall k, m :: HasRealm(w, k) && HasRealm(w, m) && Uid(w, k) == Uid(w, m) ==> k == m)
  }

  ghost predicate JobUids(w: World) {
    forall j :: j in w.shared.jobs ==> w.shared.jobs[j].mounts in w.locals
  }

  ghost predicate UidsInv(w: World) { RealmUids(w) && JobUids(w) && JobsBasic(w.shared) }

  ghost predicate LocalsInv(w: World) {
    forall k :: k in w.locals ==> Inv(k, w.locals[k], w.shared)
  }

  ghost predicate WorldInv(w: World) {
    && LocalsInv(w) && UidsInv(w) && RefsOk(Refs(w.shared.ns), w.shared.now, w.nextUid)
    && (forall k :: k in w.locals ==> SnapshotsInv(w.locals[k], w))
    && (forall i :: 0 <= i < |w.approvals| ==> ApprovalOk(w.locals, w.approvals[i]))
  }
}
