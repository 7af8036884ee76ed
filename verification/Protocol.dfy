/**
 The Realm reconciler as a state machine: one step is one API call of
 operator/internal/controller/realm_controller.go or operator/internal/wrapper/job_runner.go, with
 the computation that follows it. Between two steps anything else may act on the cluster, within
 `Rely`. `Inv` is what every step of the worker and every interference keeps.
 */
module Protocol {
  import opened Wrappers
  import opened Api
  import opened Json

  const HEAL: nat := 5 * MINUTE
  const RETAIN: nat := 10 * MINUTE

  // ----- state -------------------------------------------------------------------------------

  /** `kc-config-<realm>`: realm.json and the parsed last-sync, if there is one that can be read. */
  datatype ConfigSecret = ConfigSecret(payload: Json, lastSync: Option<nat>) {
    /** Without a readable last-sync the zero time counts, which is always long ago. */
    predicate Expired(now: nat) { lastSync.None? || now >= lastSync.value + HEAL }
  }

  /** The result of one build: what was read, when, and the payload. */
  datatype Desired = Desired(spec: RealmSpec, generation: nat, ns: Namespace, readAt: nat, payload: Json)

  /** Where the reconcile of a Realm stands; `obj` is the object fetched at its start. */
  datatype Pc =
    | Idle
    | Adopting
    | Releasing
    | Fetched(obj: Realm)
    | Built(obj: Realm, d: Desired)
    | Drifted(obj: Realm, d: Desired)
    | Stored(obj: Realm, d: Desired)
    | Spawned(obj: Realm, d: Desired, job: nat)
    | Recorded(obj: Realm, d: Desired, spawned: Option<nat>)
    | Untriggering
    | Observing(obj: Realm, d: Desired, job: nat, spawnedNow: bool)
    | Writing(d: Desired, update: StatusUpdate, seen: Option<Seen>)
    | Failing

  /** A Job as it was when its success was observed. */
  datatype Seen = Seen(id: nat, job: Job)

  /** History: every payload the config Secret has held, every spec, every time Ready was written. */
  datatype Write = Write(payload: Json, at: nat)
  datatype ReadyRecord = ReadyRecord(d: Desired, seen: Seen, upTo: nat, at: nat, generation: nat, dirty: bool)
  datatype Log = Log(writes: seq<Write>, specs: seq<RealmSpec>, readies: seq<ReadyRecord>, dirty: bool)

  /** All that belongs to one Realm name. */
  datatype Local = Local(realm: Option<Realm>, config: Option<ConfigSecret>, pc: Pc, log: Log)

  /** Building the export and marshalling it: the payload, or None when the build fails. */
  type Render = (RealmSpec, Namespace) -> Option<Json>

  /**
   What all reconcilers share. `vanished` records that someone else deleted a Job; `render` never
   changes, and nothing in this module depends on what it is (`World` fixes it to `Builder.Payload`).
   */
  datatype Shared = Shared(
    now: nat, ns: Namespace, jobs: map<nat, Job>, nextJob: nat, vanished: bool, render: Render)

  /** A call takes effect and says so, has no effect, or takes effect while its answer is lost. */
  datatype Outcome = Ok | Rejected | Lost

  /**
   `dt` is how long the call took. A cleanup gets the Jobs in the order of `listing` (empty if the
   listing fails), and deleting those in `failing` fails.
   */
  datatype Reply = Reply(outcome: Outcome, dt: nat, listing: seq<nat>, failing: set<nat>) {
    predicate Lands() { outcome != Rejected }
    predicate Done() { outcome == Ok }
  }

  // ----- the step ----------------------------------------------------------------------------

  /** Not the skip of `SyncRealm`: no Secret, another payload, or five minutes since the last-sync. */
  predicate Drift(config: Option<ConfigSecret>, payload: Json, now: nat) {
    config.None? || config.value.payload != payload || config.value.Expired(now)
  }

  /** Nothing is due exactly when the Secret holds the payload and was synced less than 300 seconds ago. */
  lemma DriftExactly(config: Option<ConfigSecret>, payload: Json, now: nat)
    ensures !Drift(config, payload, now) <==>
      && config.Some? && config.value.payload == payload
      && config.value.lastSync.Some? && now - config.value.lastSync.value < 300_000_000_000
  {
  }

  /** What a complete `cleanupTerminalJobs` deletes. */
  function Victims(jobs: map<nat, Job>, uid: nat, active: Option<nat>, now: nat): set<nat> {
    set j | j in jobs && active != Some(j) && uid in jobs[j].owners && Terminal(jobs[j])
         && jobs[j].created + RETAIN <= now
  }

  /** The owned, finished and untracked Jobs of 600 seconds and more. */
  lemma VictimsExactly(jobs: map<nat, Job>, uid: nat, active: Option<nat>, now: nat, id: nat)
    ensures id in Victims(jobs, uid, active, now) <==>
      && id in jobs && active != Some(id) && uid in jobs[id].owners
      && (exists i :: 0 <= i < |jobs[id].conditions| && Decides(jobs[id].conditions[i]))
      && now - jobs[id].created >= 600_000_000_000
  {
    if id in jobs { VerdictExactly(jobs[id].conditions); }
  }

  /** Going through the listing, up to the first deletion that fails. */
  function Deleted(listing: seq<nat>, victims: set<nat>, failing: set<nat>): (r: set<nat>)
    ensures r <= victims
  {
    if |listing| == 0 then {}
    else if listing[0] !in victims then Deleted(listing[1..], victims, failing)
    else if listing[0] in failing then {}
    else {listing[0]} + Deleted(listing[1..], victims, failing)
  }

  /** Deleted are the victims listed before any victim whose deletion fails, and those alone. */
  lemma {:induction false} DeletedExactly(listing: seq<nat>, victims: set<nat>, failing: set<nat>, id: nat)
    ensures id in Deleted(listing, victims, failing) <==>
      id in victims && exists i :: 0 <= i < |listing| && listing[i] == id && NoFailure(listing, victims, failing, i)
  {
    if |listing| > 0 {
      var rest := listing[1..];
      DeletedExactly(rest, victims, failing, id);
      if i :| 0 <= i < |rest| && rest[i] == id && NoFailure(rest, victims, failing, i) {
        assert listing[i + 1] == id;
        if !(listing[0] in victims && listing[0] in failing) {
          forall j | 0 <= j <= i + 1 ensures !(listing[j] in victims && listing[j] in failing) {
            if j > 0 { assert rest[j - 1] == listing[j]; }
          }
          assert NoFailure(listing, victims, failing, i + 1);
        }
      }
      if i :| 0 <= i < |listing| && listing[i] == id && NoFailure(listing, victims, failing, i) {
        if i > 0 {
          assert rest[i - 1] == id;
          forall j | 0 <= j <= i - 1 ensures !(rest[j] in victims && rest[j] in failing) { assert rest[j] == listing[j + 1]; }
          assert NoFailure(rest, victims, failing, i - 1);
        }
      }
    }
  }

  predicate NoFailure(listing: seq<nat>, victims: set<nat>, failing: set<nat>, i: nat)
    requires i < |listing|
  {
    forall j :: 0 <= j <= i ==> !(listing[j] in victims && listing[j] in failing)
  }

  /** A status write: read the latest object, change its status, write it back. */
  function PutStatus(realm: Option<Realm>, u: StatusUpdate, now: nat): Option<Realm> {
    match realm
    case None => None
    case Some(o) => Some(o.(status := ApplyStatus(o.status, u, o.generation, now)))
  }

  function Pending(active: ActiveJob): StatusUpdate { StatusUpdate(JobRunning, "", active) }
  function Broke(active: ActiveJob): StatusUpdate { StatusUpdate(SyncFailed, "", active) }

  function StoreConfig(l: Local, d: Desired, now: nat): Local {
    var changed := l.config.None? || l.config.value.payload != d.payload;
    l.(config := Some(ConfigSecret(d.payload, Some(Trunc(now)))),
       log := l.log.(writes := l.log.writes + [Write(d.payload, now)], dirty := l.log.dirty || changed))
  }

  function NewJob(key: string, l: Local, uid: nat, now: nat): Job {
    Job([uid], key, Trunc(now), [], if |l.log.writes| == 0 then 0 else |l.log.writes| - 1, None)
  }

  function AfterFetch(realm: Option<Realm>): Pc {
    match realm
    case None => Idle
    case Some(o) =>
      if o.deletedAt.Some? then if o.finalizer then Releasing else Idle
      else if !o.finalizer then Adopting
      else Fetched(o)
  }

  function AfterSync(obj: Realm, d: Desired, spawned: Option<nat>): Pc {
    var active := if spawned.Some? then spawned else obj.status.activeJob;
    if SYNC_REQUESTED in obj.annotations then Untriggering
    else if active.Some? then Observing(obj, d, active.value, spawned.Some?)
    else if obj.status.ready then Idle
    else Writing(d, Pending(Keep), None)
  }

  function AfterObserve(obj: Realm, d: Desired, id: nat, jobs: map<nat, Job>): Pc {
    if id !in jobs then
      if obj.status.ready then Idle else Writing(d, Broke(Keep), None)
    else
      match JobVerdict(jobs[id].conditions)
      case Running => Writing(d, Pending(Keep), None)
      case Succeeded => Writing(d, StatusUpdate(Synced, d.spec.realmName, Track(None)), Some(Seen(id, jobs[id])))
      case Broken => Writing(d, Broke(Track(Some(id))), None)
  }

  function WriteVerdict(l: Local, d: Desired, u: StatusUpdate, seen: Option<Seen>, now: nat): Local {
    var l' := l.(realm := PutStatus(l.realm, u, now));
    if seen.Some? && l.realm.Some? then
      var r := ReadyRecord(d, seen.value, |l.log.writes|, now, l.realm.value.generation, l.log.dirty);
      l'.(log := l.log.(readies := l.log.readies + [r]))
    else l'
  }

  // One function per kind of call; `t` is the moment the call is answered.

  function FetchCall(obj: Realm, s: Shared, a: Reply, t: nat): Pc {
    var payload := s.render(obj.spec, s.ns);
    if !a.Done() || payload.None? then Failing
    else Built(obj, Desired(obj.spec, obj.generation, s.ns, t, payload.value))
  }

  function CompareCall(l: Local, obj: Realm, d: Desired, a: Reply, t: nat): Pc {
    if !a.Done() then Failing
    else if Drift(l.config, d.payload, t) then Drifted(obj, d)
    else Recorded(obj, d, None)
  }

  function StoreCall(l: Local, obj: Realm, d: Desired, a: Reply, t: nat): Local {
    var l' := if a.Lands() then StoreConfig(l, d, t) else l;
    l'.(pc := if a.Done() then Stored(obj, d) else Failing)
  }

  function SpawnCall(key: string, l: Local, s: Shared, obj: Realm, a: Reply, t: nat): Shared {
    if a.Lands() then s.(now := t, jobs := s.jobs[s.nextJob := NewJob(key, l, obj.uid, t)], nextJob := s.nextJob + 1)
    else s.(now := t)
  }

  function RecordCall(l: Local, obj: Realm, d: Desired, job: nat, a: Reply, t: nat): Local {
    var l' := if a.Lands() && l.realm.Some?
              then l.(realm := PutStatus(l.realm, Pending(Track(Some(job))), t), log := l.log.(dirty := false))
              else l;
    l'.(pc := if a.Done() && l.realm.Some? then Recorded(obj, d, Some(job)) else Failing)
  }

  function CleanCall(s: Shared, obj: Realm, spawned: Option<nat>, a: Reply, t: nat): Shared {
    var active := if spawned.Some? then spawned else obj.status.activeJob;
    s.(now := t, jobs := s.jobs - Deleted(a.listing, Victims(s.jobs, obj.uid, active, t), a.failing))
  }

  function TouchCall(l: Local, a: Reply): Local {
    var lands := a.Lands() && l.realm.Some?;
    match l.pc
    case Adopting =>
      l.(realm := if lands then Some(l.realm.value.(finalizer := true)) else l.realm, pc := Idle)
    case Untriggering =>
      var kept := if lands then Some(l.realm.value.(annotations := l.realm.value.annotations - {SYNC_REQUESTED}))
                  else l.realm;
      l.(realm := kept, pc := if a.Done() then Idle else Failing)
    case _ => l.(realm := if a.Lands() then None else l.realm, pc := Idle)
  }

  function VerdictCall(l: Local, d: Desired, u: StatusUpdate, seen: Option<Seen>, a: Reply, t: nat): Local {
    var l' := if a.Lands() then WriteVerdict(l, d, u, seen, t) else l;
    l'.(pc := if a.Done() then Idle else Failing)
  }

  function FailCall(l: Local, a: Reply, t: nat): Local {
    l.(realm := if a.Lands() then PutStatus(l.realm, Broke(Keep), t) else l.realm, pc := Idle)
  }

  /** One API call of the reconcile of the Realm `key`. */
  function Worker(key: string, l: Local, s: Shared, a: Reply): (Local, Shared) {
    var t := s.now + 1 + a.dt;
    match l.pc
    case Idle => (l.(pc := if a.Done() then AfterFetch(l.realm) else Idle), s.(now := t))
    case Adopting => (TouchCall(l, a), s.(now := t))
    case Releasing => (TouchCall(l, a), s.(now := t))
    case Fetched(obj) => (l.(pc := FetchCall(obj, s, a, t)), s.(now := t))
    case Built(obj, d) => (l.(pc := CompareCall(l, obj, d, a, t)), s.(now := t))
    case Drifted(obj, d) => (StoreCall(l, obj, d, a, t), s.(now := t))
    case Stored(obj, d) =>
      (l.(pc := if a.Done() then Spawned(obj, d, s.nextJob) else Failing), SpawnCall(key, l, s, obj, a, t))
    case Spawned(obj, d, job) => (RecordCall(l, obj, d, job, a, t), s.(now := t))
    case Recorded(obj, d, spawned) => (l.(pc := AfterSync(obj, d, spawned)), CleanCall(s, obj, spawned, a, t))
    case Untriggering => (TouchCall(l, a), s.(now := t))
    case Observing(obj, d, id, _) =>
      (l.(pc := if a.Done() then AfterObserve(obj, d, id, s.jobs) else Failing), s.(now := t))
    case Writing(d, u, seen) => (VerdictCall(l, d, u, seen, a, t), s.(now := t))
    case Failing => (FailCall(l, a, t), s.(now := t))
  }

  // ----- a reconcile on its own --------------------------------------------------------------

  /** A reconcile answered by the given replies, until it returns. */
  function Finish(key: string, l: Local, s: Shared, replies: seq<Reply>): (Local, Shared)
    decreases |replies|
  {
    if l.pc.Idle? || |replies| == 0 then (l, s)
    else
      var r := Worker(key, l, s, replies[0]);
      Finish(key, r.0, r.1, replies[1..])
  }

  const LONGEST := 10

  /** One whole reconcile without interference; no reconcile takes more than ten calls. */
  function ReconcileOnce(key: string, l: Local, s: Shared, replies: seq<Reply>): (Local, Shared)
    requires |replies| >= LONGEST
  {
    var r := Worker(key, l, s, replies[0]);
    Finish(key, r.0, r.1, replies[1..])
  }

  /** The calls a reconcile can still make. */
  function CallsLeft(pc: Pc): nat {
    match pc
    case Idle => 0
    case Adopting => 1
    case Releasing => 1
    case Failing => 1
    case Untriggering => 2
    case Writing(_, _, _) => 2
    case Observing(_, _, _, _) => 3
    case Recorded(_, _, _) => 4
    case Spawned(_, _, _) => 5
    case Stored(_, _) => 6
    case Drifted(_, _) => 7
    case Built(_, _) => 8
    case Fetched(_) => 9
  }

  lemma {:induction false} FinishEnds(key: string, l: Local, s: Shared, replies: seq<Reply>)
    requires |replies| >= CallsLeft(l.pc)
    ensures Finish(key, l, s, replies).0.pc.Idle? && Finish(key, l, s, replies).1.now >= s.now
    decreases |replies|
  {
    if !l.pc.Idle? {
      var r := Worker(key, l, s, replies[0]);
      assert CallsLeft(r.0.pc) < CallsLeft(l.pc) && r.1.now >= s.now;
      FinishEnds(key, r.0, r.1, replies[1..]);
    }
  }

  /** Ten calls are enough for any reconcile, whatever they are answered. */
  lemma ReconcileEnds(key: string, l: Local, s: Shared, replies: seq<Reply>)
    requires l.pc.Idle? && |replies| >= LONGEST
    ensures ReconcileOnce(key, l, s, replies).0.pc.Idle? && ReconcileOnce(key, l, s, replies).1.now >= s.now
  {
    var r := Worker(key, l, s, replies[0]);
    FinishEnds(key, r.0, r.1, replies[1..]);
  }

  // ----- invariant ---------------------------------------------------------------------------

  /** The Secret held one and the same payload from position k of its history until now. */
  predicate Steady(writes: seq<Write>, k: nat) {
    forall i :: k <= i < |writes| ==> writes[i].payload == Last(writes).payload
  }

  predicate ConfigInv(l: Local) {
    l.config == if |l.log.writes| == 0 then None
                else Some(ConfigSecret(Last(l.log.writes).payload, Some(Trunc(Last(l.log.writes).at))))
  }

  /** A rewrite with the same payload comes more than five minutes after the last-sync before it. */
  predicate Spaced(writes: seq<Write>) {
    forall i :: 0 < i < |writes| ==>
      && writes[i - 1].at < writes[i].at
      && (writes[i].payload == writes[i - 1].payload ==> writes[i].at > Trunc(writes[i - 1].at) + HEAL)
  }

  predicate WritesInv(l: Local, s: Shared) {
    Spaced(l.log.writes) && (|l.log.writes| > 0 ==> Last(l.log.writes).at <= s.now)
  }

  predicate SpecInv(l: Local) {
    l.realm.Some? ==> |l.log.specs| == l.realm.value.generation + 1 && l.realm.value.spec == Last(l.log.specs)
  }

  /** Ready and a tracked Job exclude each other, and the single condition tells the same as Ready. */
  predicate StatusInv(st: RealmStatus) {
    && (st.ready ==> st.activeJob.None? && |st.conditions| == 1 && st.conditions[0].ok
                     && st.conditions[0].reason == Synced)
    && (!st.ready && |st.conditions| > 0 ==> |st.conditions| == 1 && !st.conditions[0].ok)
    && (st.ready ==> st.lastSync.Some?)
  }

  predicate JobOk(key: string, writes: seq<Write>, j: Job) {
    && (JobVerdict(j.conditions) == Succeeded ==> j.carried.Some?)
    && (j.mounts == key ==>
         && j.birth < |writes| && j.created % SECOND == 0
         && (j.carried.Some? ==> j.birth <= j.carried.value < |writes|)
         && (j.birth + 1 < |writes| ==> j.created < writes[j.birth + 1].at))
  }

  predicate JobsInv(key: string, l: Local, s: Shared) {
    && (forall j :: j in s.jobs ==> j < s.nextJob && s.jobs[j].created <= s.now && JobOk(key, l.log.writes, s.jobs[j]))
    && (forall i, j | i in s.jobs && j in s.jobs && s.jobs[i].mounts == key && s.jobs[j].mounts == key ::
          s.jobs[i].birth == s.jobs[j].birth ==> i == j)
  }

  /** The tracked Job is this Realm's; its window is steady exactly when no change went unrecorded. */
  predicate ActiveInv(key: string, l: Local, s: Shared) {
    l.realm.Some? && l.realm.value.status.activeJob.Some? ==>
      var id := l.realm.value.status.activeJob.value;
      && id < s.nextJob
      && (id in s.jobs ==>
           && s.jobs[id].mounts == key && s.jobs[id].owners == [l.realm.value.uid]
           && (l.log.dirty <==> !Steady(l.log.writes, s.jobs[id].birth)))
      && (!s.vanished ==> id in s.jobs)
  }

  predicate DesiredOk(l: Local, s: Shared, d: Desired) {
    && s.render(d.spec, d.ns) == Some(d.payload)
    && d.readAt <= s.now
    && d.generation < |l.log.specs| && d.spec == l.log.specs[d.generation]
  }

  /** The Secret holds what this reconcile built. */
  predicate Current(l: Local, d: Desired) {
    |l.log.writes| > 0 && Last(l.log.writes).payload == d.payload
  }

  predicate Snapshot(l: Local, obj: Realm) {
    && l.realm.Some? && obj.uid == l.realm.value.uid && obj.status == l.realm.value.status
    && obj.generation < |l.log.specs| && obj.spec == l.log.specs[obj.generation]
  }

  predicate PcInv(key: string, l: Local, s: Shared) {
    match l.pc
    case Idle => true
    case Adopting => l.realm.Some?
    case Releasing => l.realm.Some? && l.realm.value.deletedAt.Some?
    case Fetched(obj) => Snapshot(l, obj)
    case Built(obj, d) => Snapshot(l, obj) && DesiredOk(l, s, d)
    case Drifted(obj, d) => Snapshot(l, obj) && DesiredOk(l, s, d) && Drift(l.config, d.payload, s.now)
    case Stored(obj, d) =>
      && Snapshot(l, obj) && DesiredOk(l, s, d) && Current(l, d)
      && (forall j :: j in s.jobs && s.jobs[j].mounts == key ==> s.jobs[j].birth + 1 < |l.log.writes|)
    case Spawned(obj, d, job) =>
      && Snapshot(l, obj) && DesiredOk(l, s, d) && Current(l, d)
      && job < s.nextJob
      && (job in s.jobs ==>
           s.jobs[job].mounts == key && s.jobs[job].owners == [obj.uid] && s.jobs[job].birth + 1 == |l.log.writes|)
      && (!s.vanished ==> job in s.jobs)
    case Recorded(obj, d, spawned) =>
      && l.realm.Some? && obj.uid == l.realm.value.uid && DesiredOk(l, s, d) && Current(l, d)
      && StatusInv(obj.status)
      && (spawned.None? ==> obj.status == l.realm.value.status)
      && (spawned.Some? ==> l.realm.value.status.activeJob == spawned)
    case Untriggering => l.realm.Some?
    case Observing(obj, d, id, spawnedNow) =>
      && l.realm.Some? && DesiredOk(l, s, d) && Current(l, d)
      && l.realm.value.status.activeJob == Some(id)
      && (obj.status.ready ==> spawnedNow)
    case Writing(d, u, seen) =>
      && l.realm.Some? && DesiredOk(l, s, d) && Current(l, d)
      && (u.reason == Synced <==> seen.Some?)
      && (u.reason == Synced ==> u.active == Track(None))
      && (u.reason != Synced ==> u.active.Keep? || u.active.job == l.realm.value.status.activeJob)
      && (seen.Some? ==> SeenOk(key, l, seen.value))
    case Failing => l.realm.Some?
  }

  /** A Job of this Realm that has completed, and so has read its Secret. */
  predicate CompletedJob(key: string, realm: Option<Realm>, j: Job) {
    && DecidedBy(j.conditions, Complete) && j.mounts == key && j.carried.Some?
    && (realm.Some? ==> j.owners == [realm.value.uid])
  }

  /** The Job whose success was observed, and what it may have read. */
  predicate SeenOk(key: string, l: Local, seen: Seen) {
    && CompletedJob(key, l.realm, seen.job)
    && seen.job.birth <= seen.job.carried.value < |l.log.writes|
    && (l.log.dirty <==> !Steady(l.log.writes, seen.job.birth))
  }

  predicate RecordOk(key: string, l: Local, s: Shared, r: ReadyRecord) {
    && DesiredOk(l, s, r.d) && r.d.readAt < r.at <= s.now
    && r.generation < |l.log.specs|
    && CompletedJob(key, l.realm, r.seen.job)
    && r.seen.job.birth <= r.seen.job.carried.value < r.upTo <= |l.log.writes|
    && l.log.writes[r.upTo - 1].payload == r.d.payload
    && (r.dirty <==> exists i :: r.seen.job.birth <= i < r.upTo && l.log.writes[i].payload != r.d.payload)
  }

  predicate ReadyInv(key: string, l: Local, s: Shared) {
    && (forall i :: 0 <= i < |l.log.readies| ==> RecordOk(key, l, s, l.log.readies[i]))
    && (l.realm.Some? && l.realm.value.status.ready ==>
         && |l.log.readies| > 0
         && l.realm.value.status.lastSync == Some(Trunc(Last(l.log.readies).at))
         && l.realm.value.status.observedGeneration == Last(l.log.readies).generation
         && (!l.log.dirty ==>
              Current(l, Last(l.log.readies).d) && Steady(l.log.writes, Last(l.log.readies).seen.job.birth)))
  }

  /** Everything that does not depend on where the reconcile stands. */
  predicate Rest(key: string, l: Local, s: Shared) {
    match l
    case Local(realm, _, _, _) =>
      && ConfigInv(l) && WritesInv(l, s) && SpecInv(l)
      && (realm.Some? ==> StatusInv(realm.value.status))
      && JobsInv(key, l, s) && ActiveInv(key, l, s) && ReadyInv(key, l, s)
  }

  predicate Inv(key: string, l: Local, s: Shared) { Rest(key, l, s) && PcInv(key, l, s) }

  // ----- parts of a step ---------------------------------------------------------------------

  /** Records of Ready speak about a prefix of the history, so a longer history leaves them true. */
  lemma RecordsFrame(key: string, l: Local, s: Shared, l': Local, s': Shared)
    requires l.log.writes <= l'.log.writes && l.log.specs <= l'.log.specs
    requires s.now <= s'.now && s.render == s'.render
    requires l'.realm.Some? ==> l.realm.Some? && l'.realm.value.uid == l.realm.value.uid
    ensures forall r :: RecordOk(key, l, s, r) ==> RecordOk(key, l', s', r)
  {
  }

  lemma SteadyAppend(writes: seq<Write>, w: Write, k: nat)
    requires k < |writes|
    ensures Steady(writes + [w], k) <==> Steady(writes, k) && w.payload == Last(writes).payload
  {
    var ws := writes + [w];
    if Steady(ws, k) {
      assert ws[|writes| - 1] == Last(writes) && ws[|ws| - 1] == w;
      forall i | k <= i < |writes| ensures writes[i].payload == Last(writes).payload { assert ws[i] == writes[i]; }
    }
  }

  /** Rewriting the Secret after drift was seen keeps rewrites of one payload five minutes apart. */
  lemma StoreSpaced(l: Local, s: Shared, d: Desired, now: nat)
    requires ConfigInv(l) && WritesInv(l, s) && Drift(l.config, d.payload, s.now) && s.now < now
    ensures var l' := StoreConfig(l, d, now); ConfigInv(l') && Spaced(l'.log.writes) && Last(l'.log.writes).at == now
  {
    var ws, ws' := l.log.writes, StoreConfig(l, d, now).log.writes;
    forall i | 0 < i < |ws'|
      ensures ws'[i - 1].at < ws'[i].at
      ensures ws'[i].payload == ws'[i - 1].payload ==> ws'[i].at > Trunc(ws'[i - 1].at) + HEAL
    {
      if i < |ws| { assert ws'[i] == ws[i] && ws'[i - 1] == ws[i - 1]; }
      else { assert ws'[i - 1] == Last(ws); }
    }
  }

  lemma StoreJobs(key: string, l: Local, s: Shared, d: Desired, now: nat)
    requires ConfigInv(l) && WritesInv(l, s) && JobsInv(key, l, s) && ActiveInv(key, l, s) && s.now < now
    ensures var l' := StoreConfig(l, d, now); JobsInv(key, l', s) && ActiveInv(key, l', s)
  {
    var l' := StoreConfig(l, d, now);
    if l.realm.Some? && l.realm.value.status.activeJob.Some? {
      var id := l.realm.value.status.activeJob.value;
      if id in s.jobs { SteadyAppend(l.log.writes, Write(d.payload, now), s.jobs[id].birth); }
    }
  }

  /** Time passes and the reconcile moves on. */
  lemma Move(key: string, l: Local, s: Shared, pc: Pc, now: nat)
    requires Rest(key, l, s) && s.now <= now
    ensures Rest(key, l.(pc := pc), s.(now := now))
  {
    RecordsFrame(key, l, s, l.(pc := pc), s.(now := now));
  }

  /** A status that is not Ready is written and the tracked Job stays. */
  lemma WriteNotReady(key: string, l: Local, s: Shared, u: StatusUpdate, now: nat)
    requires Rest(key, l, s) && l.realm.Some? && u.reason != Synced
    requires u.active.Keep? || u.active.job == l.realm.value.status.activeJob
    ensures Rest(key, l.(realm := PutStatus(l.realm, u, now)), s)
    ensures PutStatus(l.realm, u, now).value.status.activeJob == l.realm.value.status.activeJob
  {
    RecordsFrame(key, l, s, l.(realm := PutStatus(l.realm, u, now)), s);
  }

  /** Anything but status and spec of the Realm object changes. */
  lemma TouchMeta(key: string, l: Local, s: Shared, o: Realm)
    requires Rest(key, l, s) && l.realm.Some?
    requires o.uid == l.realm.value.uid && o.spec == l.realm.value.spec
    requires o.generation == l.realm.value.generation && o.status == l.realm.value.status
    ensures Rest(key, l.(realm := Some(o)), s)
  {
    RecordsFrame(key, l, s, l.(realm := Some(o)), s);
  }

  lemma StoreKeepsRest(key: string, l: Local, s: Shared, d: Desired, now: nat)
    requires Rest(key, l, s) && Drift(l.config, d.payload, s.now) && s.now < now
    ensures Rest(key, StoreConfig(l, d, now), s.(now := now))
  {
    var l' := StoreConfig(l, d, now);
    StoreSpaced(l, s, d, now);
    StoreJobs(key, l, s, d, now);
    RecordsFrame(key, l, s, l', s.(now := now));
  }

  lemma SpawnKeepsRest(key: string, l: Local, s: Shared, uid: nat, now: nat)
    requires Rest(key, l, s) && s.now <= now && |l.log.writes| > 0
    requires forall j :: j in s.jobs && s.jobs[j].mounts == key ==> s.jobs[j].birth + 1 < |l.log.writes|
    ensures
      var s' := s.(now := now, jobs := s.jobs[s.nextJob := NewJob(key, l, uid, now)], nextJob := s.nextJob + 1);
      Rest(key, l, s')
  {
    var s' := s.(now := now, jobs := s.jobs[s.nextJob := NewJob(key, l, uid, now)], nextJob := s.nextJob + 1);
    RecordsFrame(key, l, s, l, s');
  }

  lemma RecordKeepsRest(key: string, l: Local, s: Shared, job: nat, now: nat)
    requires Rest(key, l, s) && l.realm.Some? && |l.log.writes| > 0 && job < s.nextJob
    requires job in s.jobs ==>
      s.jobs[job].mounts == key && s.jobs[job].owners == [l.realm.value.uid] && s.jobs[job].birth + 1 == |l.log.writes|
    requires !s.vanished ==> job in s.jobs
    ensures Rest(key, l.(realm := PutStatus(l.realm, Pending(Track(Some(job))), now), log := l.log.(dirty := false)), s)
  {
    var l' := l.(realm := PutStatus(l.realm, Pending(Track(Some(job))), now), log := l.log.(dirty := false));
    RecordsFrame(key, l, s, l', s);
  }

  lemma CleanKeepsRest(key: string, l: Local, s: Shared, gone: set<nat>)
    requires Rest(key, l, s) && l.realm.Some?
    requires forall j :: j in gone ==> l.realm.value.status.activeJob != Some(j)
    ensures Rest(key, l, s.(jobs := s.jobs - gone))
  {
    RecordsFrame(key, l, s, l, s.(jobs := s.jobs - gone));
  }

  lemma ReadyKeepsRest(key: string, l: Local, s: Shared, d: Desired, id: string, seen: Seen, now: nat)
    requires Rest(key, l, s) && l.realm.Some? && DesiredOk(l, s, d) && Current(l, d) && SeenOk(key, l, seen)
    requires s.now < now
    ensures Rest(key, WriteVerdict(l, d, StatusUpdate(Synced, id, Track(None)), Some(seen), now), s.(now := now))
  {
    var l' := WriteVerdict(l, d, StatusUpdate(Synced, id, Track(None)), Some(seen), now);
    var s' := s.(now := now);
    RecordsFrame(key, l, s, l', s');
    assert RecordOk(key, l', s', Last(l'.log.readies));
  }

  // ----- the worker keeps it -----------------------------------------------------------------

  lemma IdleStep(key: string, l: Local, s: Shared, a: Reply)
    requires Inv(key, l, s) && l.pc.Idle?
    ensures Inv(key, Worker(key, l, s, a).0, Worker(key, l, s, a).1)
  {
    var t := s.now + 1 + a.dt;
    Move(key, l, s, if a.Done() then AfterFetch(l.realm) else Idle, t);
    assert Worker(key, l, s, a) == (l.(pc := if a.Done() then AfterFetch(l.realm) else Idle), s.(now := t));
  }

  lemma FetchStep(key: string, l: Local, s: Shared, a: Reply)
    requires Inv(key, l, s) && l.pc.Fetched?
    ensures Inv(key, Worker(key, l, s, a).0, Worker(key, l, s, a).1)
  {
    var t := s.now + 1 + a.dt;
    Move(key, l, s, FetchCall(l.pc.obj, s, a, t), t);
    assert Worker(key, l, s, a) == (l.(pc := FetchCall(l.pc.obj, s, a, t)), s.(now := t));
  }

  lemma CompareStep(key: string, l: Local, s: Shared, a: Reply)
    requires Inv(key, l, s) && l.pc.Built?
    ensures Inv(key, Worker(key, l, s, a).0, Worker(key, l, s, a).1)
  {
    var t := s.now + 1 + a.dt;
    Move(key, l, s, CompareCall(l, l.pc.obj, l.pc.d, a, t), t);
    assert Worker(key, l, s, a) == (l.(pc := CompareCall(l, l.pc.obj, l.pc.d, a, t)), s.(now := t));
  }

  lemma TouchStep(key: string, l: Local, s: Shared, a: Reply)
    requires Inv(key, l, s) && (l.pc.Adopting? || l.pc.Releasing? || l.pc.Untriggering?)
    ensures Inv(key, Worker(key, l, s, a).0, Worker(key, l, s, a).1)
  {
    var l', t := TouchCall(l, a), s.now + 1 + a.dt;
    Move(key, l, s, l'.pc, t);
    if l'.realm.Some? { TouchMeta(key, l.(pc := l'.pc), s.(now := t), l'.realm.value); }
    assert Worker(key, l, s, a) == (TouchCall(l, a), s.(now := t));
  }

  lemma StoreStep(key: string, l: Local, s: Shared, a: Reply)
    requires Inv(key, l, s) && l.pc.Drifted?
    ensures Inv(key, Worker(key, l, s, a).0, Worker(key, l, s, a).1)
  {
    var t := s.now + 1 + a.dt;
    var l' := StoreCall(l, l.pc.obj, l.pc.d, a, t);
    if a.Lands() {
      StoreKeepsRest(key, l, s, l.pc.d, t);
      Move(key, StoreConfig(l, l.pc.d, t), s.(now := t), l'.pc, t);
    } else {
      Move(key, l, s, l'.pc, t);
    }
    assert Worker(key, l, s, a) == (StoreCall(l, l.pc.obj, l.pc.d, a, t), s.(now := t));
  }

  lemma SpawnStep(key: string, l: Local, s: Shared, a: Reply)
    requires Inv(key, l, s) && l.pc.Stored?
    ensures Inv(key, Worker(key, l, s, a).0, Worker(key, l, s, a).1)
  {
    var t := s.now + 1 + a.dt;
    var pc := if a.Done() then Spawned(l.pc.obj, l.pc.d, s.nextJob) else Failing;
    if a.Lands() {
      SpawnKeepsRest(key, l, s, l.pc.obj.uid, t);
      Move(key, l, SpawnCall(key, l, s, l.pc.obj, a, t), pc, t);
    } else {
      Move(key, l, s, pc, t);
    }
    assert Worker(key, l, s, a) == (l.(pc := pc), SpawnCall(key, l, s, l.pc.obj, a, t));
  }

  lemma RecordStep(key: string, l: Local, s: Shared, a: Reply)
    requires Inv(key, l, s) && l.pc.Spawned?
    ensures Inv(key, Worker(key, l, s, a).0, Worker(key, l, s, a).1)
  {
    var t := s.now + 1 + a.dt;
    var l' := RecordCall(l, l.pc.obj, l.pc.d, l.pc.job, a, t);
    Move(key, l, s, l'.pc, t);
    if a.Lands() { RecordKeepsRest(key, l.(pc := l'.pc), s.(now := t), l.pc.job, t); }
    assert Worker(key, l, s, a) == (RecordCall(l, l.pc.obj, l.pc.d, l.pc.job, a, t), s.(now := t));
  }

  lemma CleanStep(key: string, l: Local, s: Shared, a: Reply)
    requires Inv(key, l, s) && l.pc.Recorded?
    ensures Inv(key, Worker(key, l, s, a).0, Worker(key, l, s, a).1)
  {
    var t := s.now + 1 + a.dt;
    var pc := AfterSync(l.pc.obj, l.pc.d, l.pc.spawned);
    var active := if l.pc.spawned.Some? then l.pc.spawned else l.pc.obj.status.activeJob;
    Move(key, l, s, pc, t);
    CleanKeepsRest(key, l.(pc := pc), s.(now := t), Deleted(a.listing, Victims(s.jobs, l.pc.obj.uid, active, t), a.failing));
    assert Worker(key, l, s, a) == (l.(pc := pc), CleanCall(s, l.pc.obj, l.pc.spawned, a, t));
  }

  lemma ObserveStep(key: string, l: Local, s: Shared, a: Reply)
    requires Inv(key, l, s) && l.pc.Observing?
    ensures Inv(key, Worker(key, l, s, a).0, Worker(key, l, s, a).1)
  {
    var t := s.now + 1 + a.dt;
    var pc := if a.Done() then AfterObserve(l.pc.obj, l.pc.d, l.pc.job, s.jobs) else Failing;
    if l.pc.job in s.jobs { VerdictExactly(s.jobs[l.pc.job].conditions); }
    Move(key, l, s, pc, t);
    assert Worker(key, l, s, a) == (l.(pc := pc), s.(now := t));
  }

  lemma ReadyStep(key: string, l: Local, s: Shared, a: Reply)
    requires Inv(key, l, s) && l.pc.Writing? && l.pc.update.reason == Synced && a.Lands()
    ensures Inv(key, Worker(key, l, s, a).0, Worker(key, l, s, a).1)
  {
    var u, t, pc := l.pc.update, s.now + 1 + a.dt, if a.Done() then Idle else Failing;
    ReadyKeepsRest(key, l, s, l.pc.d, u.id, l.pc.seen.value, t);
    Move(key, WriteVerdict(l, l.pc.d, u, l.pc.seen, t), s.(now := t), pc, t);
    assert Worker(key, l, s, a) == (VerdictCall(l, l.pc.d, l.pc.update, l.pc.seen, a, t), s.(now := t));
  }

  lemma VerdictStep(key: string, l: Local, s: Shared, a: Reply)
    requires Inv(key, l, s) && l.pc.Writing? && (l.pc.update.reason == Synced ==> !a.Lands())
    ensures Inv(key, Worker(key, l, s, a).0, Worker(key, l, s, a).1)
  {
    var t, pc := s.now + 1 + a.dt, if a.Done() then Idle else Failing;
    Move(key, l, s, pc, t);
    if a.Lands() { WriteNotReady(key, l.(pc := pc), s.(now := t), l.pc.update, t); }
    assert Worker(key, l, s, a) == (VerdictCall(l, l.pc.d, l.pc.update, l.pc.seen, a, t), s.(now := t));
  }

  lemma FailStep(key: string, l: Local, s: Shared, a: Reply)
    requires Inv(key, l, s) && l.pc.Failing?
    ensures Inv(key, Worker(key, l, s, a).0, Worker(key, l, s, a).1)
  {
    var t := s.now + 1 + a.dt;
    Move(key, l, s, Idle, t);
    if a.Lands() { WriteNotReady(key, l.(pc := Idle), s.(now := t), Broke(Keep), t); }
    assert Worker(key, l, s, a) == (FailCall(l, a, t), s.(now := t));
  }

  /** Whatever the API answers, one call of the reconcile keeps the invariant. */
  lemma WorkerKeepsInv(key: string, l: Local, s: Shared, a: Reply)
    requires Inv(key, l, s)
    ensures Inv(key, Worker(key, l, s, a).0, Worker(key, l, s, a).1)
  {
    match l.pc
    case Idle => IdleStep(key, l, s, a);
    case Fetched(_) => FetchStep(key, l, s, a);
    case Built(_, _) => CompareStep(key, l, s, a);
    case Drifted(_, _) => StoreStep(key, l, s, a);
    case Stored(_, _) => SpawnStep(key, l, s, a);
    case Spawned(_, _, _) => RecordStep(key, l, s, a);
    case Recorded(_, _, _) => CleanStep(key, l, s, a);
    case Observing(_, _, _, _) => ObserveStep(key, l, s, a);
    case Writing(_, u, _) =>
      if u.reason == Synced && a.Lands() { ReadyStep(key, l, s, a); } else { VerdictStep(key, l, s, a); }
    case Failing => FailStep(key, l, s, a);
    case _ => TouchStep(key, l, s, a);
  }
}
