/** What holds at every point of every run that starts with an empty cluster. */
module Theorems {
  import opened Wrappers
  import opened Api
  import opened Json
  import opened Export
  import opened Builder
  import opened BuilderLaws
  import opened Protocol
  import opened World
  import opened Runs
  import opened Rounds
  import opened SpawnRate

  ghost predicate Reachable(w0: World, acts: seq<Action>, w: World) {
    Init(w0) && ValidRun(w0, acts) && w == Run(w0, acts)
  }

  lemma {:induction false} RenderFixed(w: World, acts: seq<Action>)
    requires WorldInv(w) && ValidRun(w, acts)
    ensures Run(w, acts).shared.render == w.shared.render
    decreases |acts|
  {
    if |acts| > 0 {
      StepGuarantee(w, acts[0]);
      assert Apply(w, acts[0]).shared.render == w.shared.render;
      StepKeepsInv(w, acts[0]);
      RenderFixed(Apply(w, acts[0]), acts[1..]);
    }
  }

  lemma ReachableInv(w0: World, acts: seq<Action>, w: World)
    requires Reachable(w0, acts, w)
    ensures WorldInv(w)
  {
    InitInv(w0);
    RunKeepsInv(w0, acts);
  }

  lemma LocalInv(w0: World, acts: seq<Action>, w: World, key: string)
    requires Reachable(w0, acts, w) && key in w.locals
    ensures Inv(key, w.locals[key], w.shared)
  {
    ReachableInv(w0, acts, w);
  }

  lemma RenderIsPayload(w0: World, acts: seq<Action>, w: World, spec: RealmSpec, ns: Namespace)
    requires Reachable(w0, acts, w)
    ensures w.shared.render(spec, ns) == Payload(spec, ns)
  {
    InitInv(w0);
    RenderFixed(w0, acts);
  }

  // ----- Ready is truthful -------------------------------------------------------------------

  /** The payload the Job of a Ready record actually read. */
  function Carried(l: Local, r: ReadyRecord): Json
    requires r.seen.job.carried.Some? && r.seen.job.carried.value < |l.log.writes|
  {
    l.log.writes[r.seen.job.carried.value].payload
  }

  /** Whenever between its creation and the Ready write the Job read the Secret, it read this payload. */
  predicate AnyReadGives(l: Local, r: ReadyRecord, payload: Json)
    requires r.upTo <= |l.log.writes|
  {
    forall m :: r.seen.job.birth <= m < r.upTo ==> l.log.writes[m].payload == payload
  }

  /**
   The observed Job is this Realm's, has completed, and read a payload: the one built, exactly if
   nothing went unrecorded.
   */
  predicate Backed(key: string, l: Local, r: ReadyRecord) {
    && r.d.readAt < r.at && CompletedJob(key, l.realm, r.seen.job)
    && r.seen.job.birth <= r.seen.job.carried.value < r.upTo <= |l.log.writes|
    && (!r.dirty ==> Carried(l, r) == r.d.payload)
    && (!r.dirty <==> AnyReadGives(l, r, r.d.payload))
  }

  /**
   Every time a Realm became Ready, the Job whose success was observed had read the payload of the
   export built in that same reconcile, if no change of the payload was left without a recorded Job;
   and that condition is exact: otherwise some moment of reading gives another payload.
   */
  lemma ReadyIsTruthful(w0: World, acts: seq<Action>, w: World, key: string, i: nat)
    requires Reachable(w0, acts, w) && key in w.locals && i < |w.locals[key].log.readies|
    ensures Backed(key, w.locals[key], w.locals[key].log.readies[i])
  {
    LocalInv(w0, acts, w, key);
    RecordMeans(key, w.locals[key], w.shared, w.locals[key].log.readies[i]);
  }

  /** The payload of a record is what the builder gives for the spec and the namespace that were read. */
  lemma RecordedPayload(w0: World, acts: seq<Action>, w: World, key: string, i: nat)
    requires Reachable(w0, acts, w) && key in w.locals && i < |w.locals[key].log.readies|
    ensures var d := w.locals[key].log.readies[i].d; Payload(d.spec, d.ns) == Some(d.payload)
  {
    LocalInv(w0, acts, w, key);
    var d := w.locals[key].log.readies[i].d;
    assert DesiredOk(w.locals[key], w.shared, d);
    RenderIsPayload(w0, acts, w, d.spec, d.ns);
  }

  lemma RecordMeans(key: string, l: Local, s: Shared, r: ReadyRecord)
    requires RecordOk(key, l, s, r)
    ensures Backed(key, l, r)
  {
  }

  predicate IsReady(l: Local) { l.realm.Some? && l.realm.value.status.ready }

  /** A record is added of what this reconcile has built and of the completed Job it has observed. */
  predicate NewRecord(key: string, l: Local, l': Local) {
    && l.pc.Writing? && l.pc.seen.Some? && |l'.log.readies| == |l.log.readies| + 1
    && Last(l'.log.readies).d == l.pc.d && Last(l'.log.readies).seen == l.pc.seen.value
    && CompletedJob(key, l'.realm, l.pc.seen.value.job)
  }

  lemma WorkerBecomesReady(key: string, l: Local, s: Shared, a: Reply)
    requires PcInv(key, l, s)
    requires IsReady(Worker(key, l, s, a).0) && !IsReady(l)
    ensures NewRecord(key, l, Worker(key, l, s, a).0)
  {
  }

  /**
   Only the write after an observed success makes a Realm Ready, and it leaves a record of what was
   built in that reconcile and of the Job that was observed.
   */
  lemma BecomingReadyIsRecorded(w0: World, acts: seq<Action>, w: World, a: Action, w': World, key: string)
    requires Reachable(w0, acts, w) && Enabled(w, a) && w' == Apply(w, a) && key in w.locals && key in w'.locals
    requires IsReady(w'.locals[key]) && !IsReady(w.locals[key])
    ensures a.Work? && a.key == key
    ensures NewRecord(key, w.locals[key], w'.locals[key])
  {
    ReachableInv(w0, acts, w);
    StepBecomesReady(w, a, w', key);
  }

  lemma StepBecomesReady(w: World, a: Action, w': World, key: string)
    requires WorldInv(w) && Enabled(w, a) && w' == Apply(w, a) && key in w.locals && key in w'.locals
    requires IsReady(w'.locals[key]) && !IsReady(w.locals[key])
    ensures a.Work? && a.key == key
    ensures NewRecord(key, w.locals[key], w'.locals[key])
  {
    assert Inv(key, w.locals[key], w.shared);
    StepGuarantee(w, a);
    if a.Work? && a.key == key { WorkerBecomesReady(key, w.locals[key], w.shared, a.reply); }
    else { ActionIsRely(w, a, key); }
  }

  /** While a Realm says Ready with no unrecorded change, its Secret holds what the last Job completed. */
  lemma ReadyStaysTruthful(w0: World, acts: seq<Action>, w: World, key: string)
    requires Reachable(w0, acts, w) && HasRealm(w, key)
    requires w.locals[key].realm.value.status.ready && !w.locals[key].log.dirty
    ensures
      var l := w.locals[key];
      |l.log.readies| > 0 && l.config.Some? && l.config.value.payload == Last(l.log.readies).d.payload
  {
    LocalInv(w0, acts, w, key);
  }

  predicate SpawnCallDone(pc: Pc, reply: Reply) {
    pc.Drifted? || pc.Stored? || pc.Spawned? ==> reply.Done()
  }

  /** Every call from the Secret rewrite to the recording of its Job succeeds. */
  ghost predicate NoSpawnFault(w: World, a: Action)
    requires Enabled(w, a)
  {
    a.Work? ==> SpawnCallDone(w.locals[a.key].pc, a.reply)
  }

  ghost predicate NoSpawnFaults(w: World, acts: seq<Action>)
    requires ValidRun(w, acts)
    decreases |acts|
  {
    |acts| > 0 ==> NoSpawnFault(w, acts[0]) && NoSpawnFaults(Apply(w, acts[0]), acts[1..])
  }

  predicate CleanLog(l: Local) {
    && (l.log.dirty ==> l.pc.Stored? || l.pc.Spawned?)
    && (forall i :: 0 <= i < |l.log.readies| ==> !l.log.readies[i].dirty)
  }

  lemma WorkerStaysClean(key: string, l: Local, s: Shared, a: Reply)
    requires CleanLog(l) && SpawnCallDone(l.pc, a) && (l.pc.Spawned? ==> l.realm.Some?)
    ensures CleanLog(Worker(key, l, s, a).0)
  {
  }

  lemma StepStaysClean(w: World, a: Action, k: string)
    requires WorldInv(w) && Enabled(w, a) && NoSpawnFault(w, a) && k in Apply(w, a).locals
    requires k in w.locals ==> CleanLog(w.locals[k])
    ensures CleanLog(Apply(w, a).locals[k])
  {
    if k in w.locals {
      assert Inv(k, w.locals[k], w.shared);
      StepGuarantee(w, a);
      if a.Work? && a.key == k { WorkerStaysClean(k, w.locals[k], w.shared, a.reply); }
      else { ActionIsRely(w, a, k); }
    }
  }

  lemma {:induction false} RunStaysClean(w: World, acts: seq<Action>)
    requires WorldInv(w) && ValidRun(w, acts) && NoSpawnFaults(w, acts)
    requires forall k :: k in w.locals ==> CleanLog(w.locals[k])
    ensures forall k :: k in Run(w, acts).locals ==> CleanLog(Run(w, acts).locals[k])
    decreases |acts|
  {
    if |acts| > 0 {
      var w' := Apply(w, acts[0]);
      forall k | k in w'.locals ensures CleanLog(w'.locals[k]) { StepStaysClean(w, acts[0], k); }
      StepKeepsInv(w, acts[0]);
      RunStaysClean(w', acts[1..]);
    }
  }

  /** In every run without a fault between Secret rewrite and recorded Job, Ready is always truthful. */
  lemma FaultFreeRunsAreTruthful(w0: World, acts: seq<Action>, w: World, key: string, i: nat)
    requires Reachable(w0, acts, w) && NoSpawnFaults(w0, acts)
    requires key in w.locals && i < |w.locals[key].log.readies|
    ensures
      var r := w.locals[key].log.readies[i];
      && CompletedJob(key, w.locals[key].realm, r.seen.job)
      && r.seen.job.carried.value < |w.locals[key].log.writes|
      && Some(Carried(w.locals[key], r)) == Payload(r.d.spec, r.d.ns)
  {
    InitInv(w0);
    RunStaysClean(w0, acts);
    assert CleanLog(w.locals[key]);
    ReadyIsTruthful(w0, acts, w, key, i);
    RecordedPayload(w0, acts, w, key, i);
  }

  // ----- what was applied last ---------------------------------------------------------------

  /** Jobs of one Realm that have read their Secret, in the order of their creation. */
  predicate AppliedInOrder(key: string, l: Local, s: Shared, applied: seq<Job>)
    requires |l.log.readies| > 0
  {
    && (forall i :: 0 <= i < |applied| ==>
          applied[i].carried.Some? && applied[i].mounts == key
          && (applied[i] in s.jobs.Values || applied[i] == Last(l.log.readies).seen.job))
    && (forall i, j :: 0 <= i < j < |applied| ==> applied[i].birth <= applied[j].birth)
  }

  /**
   If Jobs apply in the order of their creation, then as long as a Realm is Ready with no unrecorded
   change, the payload applied last is the one of that Ready: Jobs created after the observed one can
   have read nothing else. (Of the Jobs still there and the observed one; any of them may have applied.)
   */
  lemma LastAppliedIsDesired(w0: World, acts: seq<Action>, w: World, key: string, applied: seq<Job>)
    requires Reachable(w0, acts, w) && key in w.locals && IsReady(w.locals[key]) && !w.locals[key].log.dirty
    requires |w.locals[key].log.readies| > 0 && AppliedInOrder(key, w.locals[key], w.shared, applied)
    requires Last(w.locals[key].log.readies).seen.job in applied
    ensures
      var l, last := w.locals[key], Last(applied);
      && last.carried.Some? && last.carried.value < |l.log.writes|
      && l.log.writes[last.carried.value].payload == Last(l.log.readies).d.payload
  {
    LocalInv(w0, acts, w, key);
    LastApplied(key, w.locals[key], w.shared, applied);
  }

  lemma LastApplied(key: string, l: Local, s: Shared, applied: seq<Job>)
    requires JobsInv(key, l, s) && ReadyInv(key, l, s) && IsReady(l) && !l.log.dirty
    requires |l.log.readies| > 0 && AppliedInOrder(key, l, s, applied) && Last(l.log.readies).seen.job in applied
    ensures Last(applied).carried.Some? && Last(applied).carried.value < |l.log.writes|
    ensures l.log.writes[Last(applied).carried.value].payload == Last(l.log.readies).d.payload
  {
    var r, last := Last(l.log.readies), Last(applied);
    assert RecordOk(key, l, s, r);
    var i :| 0 <= i < |applied| && applied[i] == r.seen.job;
    assert r.seen.job.birth <= last.birth;
    assert last.birth <= last.carried.value < |l.log.writes|;
  }

  // ----- generation --------------------------------------------------------------------------

  /** Up to omitempty, the payload has the realm-level fields of this spec. */
  ghost predicate CarriesFields(payload: Json, spec: RealmSpec) {
    forall e :: Marshal(e) == payload ==> NormSpec(e.realm) == NormSpec(spec)
  }

  /**
   Ready with ObservedGeneration equal to Generation: the payload has the realm-level fields of the
   current spec exactly if the spec fetched and the spec on the object at the status write agree up to
   omitempty. Equal generations of the two are enough.
   */
  lemma GenerationTruthful(w0: World, acts: seq<Action>, w: World, key: string)
    requires Reachable(w0, acts, w) && HasRealm(w, key)
    requires
      var o := w.locals[key].realm.value;
      o.status.ready && o.status.observedGeneration == o.generation
    ensures
      var l := w.locals[key];
      && |l.log.readies| > 0
      && var r := Last(l.log.readies);
         && Backed(key, l, r)
         && r.d.generation < |l.log.specs| && r.generation < |l.log.specs|
         && (CarriesFields(r.d.payload, l.realm.value.spec)
             <==> NormSpec(l.log.specs[r.d.generation]) == NormSpec(l.log.specs[r.generation]))
         && (r.d.generation == r.generation ==> CarriesFields(r.d.payload, l.realm.value.spec))
  {
    hide CarriesFields, Payload, Inv, NormSpec, Backed;
    LocalInv(w0, acts, w, key);
    var l := w.locals[key];
    ReadyGeneration(key, l, w.shared);
    var r := Last(l.log.readies);
    ReadyIsTruthful(w0, acts, w, key, |l.log.readies| - 1);
    RecordedPayload(w0, acts, w, key, |l.log.readies| - 1);
    RealmFieldsOf(r.d.spec, r.d.ns, r.d.payload, l.realm.value.spec);
  }

  lemma ReadyGeneration(key: string, l: Local, s: Shared)
    requires Inv(key, l, s) && IsReady(l) && l.realm.value.status.observedGeneration == l.realm.value.generation
    ensures |l.log.readies| > 0
    ensures
      var r := Last(l.log.readies);
      && DesiredOk(l, s, r.d) && r.generation < |l.log.specs| && l.log.specs[r.generation] == l.realm.value.spec
  {
    assert RecordOk(key, l, s, Last(l.log.readies));
  }

  /** A payload determines the realm-level fields of the spec it was built from, up to omitempty. */
  lemma RealmFieldsOf(spec: RealmSpec, ns: Namespace, payload: Json, other: RealmSpec)
    requires Payload(spec, ns) == Some(payload)
    ensures CarriesFields(payload, other) <==> NormSpec(spec) == NormSpec(other)
  {
    var b := Build(spec, ns).value;
    assert Marshal(b) == payload;
    forall e | Marshal(e) == payload ensures NormSpec(e.realm) == NormSpec(spec) {
      PayloadExact(e, b);
      assert Norm(e).realm == NormSpec(e.realm) && Norm(b).realm == NormSpec(b.realm);
    }
  }

  // ----- status ------------------------------------------------------------------------------

  /** Ready and a tracked Job exclude each other; the one condition says the same as Ready. */
  lemma ReadyExcludesActiveJob(w0: World, acts: seq<Action>, w: World, key: string)
    requires Reachable(w0, acts, w) && HasRealm(w, key)
    ensures
      var st := w.locals[key].realm.value.status;
      && (st.ready ==> st.activeJob.None? && st.lastSync.Some?)
      && (st.ready ==> |st.conditions| == 1 && st.conditions[0].ok && st.conditions[0].reason == Synced)
      && (!st.ready && |st.conditions| > 0 ==> |st.conditions| == 1 && !st.conditions[0].ok)
  {
    LocalInv(w0, acts, w, key);
  }

  /** The silent exit "Job not found, but Ready" is possible only right after spawning that Job. */
  lemma SilentExitOnlyAfterSpawn(w0: World, acts: seq<Action>, w: World, key: string)
    requires Reachable(w0, acts, w) && key in w.locals
    requires w.locals[key].pc.Observing? && w.locals[key].pc.obj.status.ready
    ensures w.locals[key].pc.spawnedNow
  {
    LocalInv(w0, acts, w, key);
  }

  // ----- Jobs --------------------------------------------------------------------------------

  lemma TrackedJob(key: string, l: Local, s: Shared)
    requires ActiveInv(key, l, s) && JobsBasic(s) && !s.vanished
    requires l.realm.Some? && l.realm.value.status.activeJob.Some?
    ensures
      var id := l.realm.value.status.activeJob.value;
      id in s.jobs && s.jobs[id].owners == [l.realm.value.uid] && s.jobs[id].mounts == key
  {
    var id := l.realm.value.status.activeJob.value;
    assert |s.jobs[id].owners| == 1;
  }

  predicate TracksOwnJob(w: World, key: string)
    requires HasRealm(w, key)
  {
    var active := w.locals[key].realm.value.status.activeJob;
    active.Some? ==>
      var id := active.value;
      id in w.shared.jobs && w.shared.jobs[id].owners == [Uid(w, key)] && w.shared.jobs[id].mounts == key
  }

  lemma InvTracks(w: World, key: string)
    requires WorldInv(w) && HasRealm(w, key) && !w.shared.vanished
    ensures TracksOwnJob(w, key)
  {
    assert Inv(key, w.locals[key], w.shared);
    if w.locals[key].realm.value.status.activeJob.Some? { TrackedJob(key, w.locals[key], w.shared); }
  }

  /** Unless someone else deletes Jobs, a tracked Job exists and belongs to its Realm alone. */
  lemma ActiveJobExists(w0: World, acts: seq<Action>, w: World, key: string)
    requires Reachable(w0, acts, w) && HasRealm(w, key) && !w.shared.vanished
    ensures TracksOwnJob(w, key)
  {
    ReachableInv(w0, acts, w);
    InvTracks(w, key);
  }

  lemma WorkerCollects(key: string, l: Local, s: Shared, reply: Reply, id: nat)
    requires PcInv(key, l, s) && JobsBasic(s)
    requires id in s.jobs && id !in Worker(key, l, s, reply).1.jobs
    ensures l.realm.Some? && s.jobs[id].owners == [l.realm.value.uid] && Terminal(s.jobs[id])
    ensures l.realm.value.status.activeJob != Some(id)
  {
  }

  /** No Realm's cleanup deletes a running Job, another Realm's Job, or a Job any Realm tracks. */
  lemma CleanupStaysHome(w0: World, acts: seq<Action>, w: World, key: string, reply: Reply, id: nat, k: string)
    requires Reachable(w0, acts, w) && key in w.locals && HasRealm(w, k)
    requires id in w.shared.jobs && id !in Worker(key, w.locals[key], w.shared, reply).1.jobs
    ensures HasRealm(w, key) && w.shared.jobs[id].owners == [Uid(w, key)] && Terminal(w.shared.jobs[id])
    ensures w.locals[k].realm.value.status.activeJob != Some(id)
  {
    ReachableInv(w0, acts, w);
    CollectedByOwner(w, key, reply, id);
    if w.locals[k].realm.value.status.activeJob == Some(id) {
      TrackedIsOwn(w, k, id);
      OneOwner(w, k, key);
    }
  }

  lemma TrackedIsOwn(w: World, k: string, id: nat)
    requires WorldInv(w) && HasRealm(w, k) && w.locals[k].realm.value.status.activeJob == Some(id) && id in w.shared.jobs
    ensures w.shared.jobs[id].owners == [Uid(w, k)]
  {
    assert Inv(k, w.locals[k], w.shared);
  }

  lemma CollectedByOwner(w: World, key: string, reply: Reply, id: nat)
    requires WorldInv(w) && key in w.locals
    requires id in w.shared.jobs && id !in Worker(key, w.locals[key], w.shared, reply).1.jobs
    ensures HasRealm(w, key) && w.shared.jobs[id].owners == [Uid(w, key)] && Terminal(w.shared.jobs[id])
    ensures w.locals[key].realm.value.status.activeJob != Some(id)
  {
    assert Inv(key, w.locals[key], w.shared);
    WorkerCollects(key, w.locals[key], w.shared, reply, id);
  }

  lemma OneOwner(w: World, k: string, m: string)
    requires RealmUids(w) && HasRealm(w, k) && HasRealm(w, m) && Uid(w, k) == Uid(w, m)
    ensures k == m
  {
  }

  // ----- how often Jobs are spawned ----------------------------------------------------------

  /** A reconcile that has rewritten the Secret and not yet asked for the Job. */
  function Owed(l: Local): nat { if l.pc.Stored? then 1 else 0 }

  function SpawnedIn(l: Local, reply: Reply): nat { if l.pc.Stored? && reply.Lands() then 1 else 0 }

  function SpawnsNow(w: World, a: Action, key: string): nat {
    if a.Work? && a.key == key && key in w.locals then SpawnedIn(w.locals[key], a.reply) else 0
  }

  /** The Jobs created for one Realm in a run, whatever became of them. */
  ghost function Spawns(w: World, acts: seq<Action>, key: string): nat
    requires ValidRun(w, acts)
    decreases |acts|
  {
    if |acts| == 0 then 0 else SpawnsNow(w, acts[0], key) + Spawns(Apply(w, acts[0]), acts[1..], key)
  }

  /** The Jobs of one Realm that are there after an action and were not before. */
  ghost function NewJobs(w: World, a: Action, key: string): set<nat>
    requires Enabled(w, a)
  {
    set j | j in Apply(w, a).shared.jobs && j !in w.shared.jobs && Apply(w, a).shared.jobs[j].mounts == key
  }

  /** What `Spawns` counts are Jobs: in every action, as many as come into being for that Realm. */
  lemma SpawnsAreJobs(w0: World, acts: seq<Action>, w: World, a: Action, key: string)
    requires Reachable(w0, acts, w) && Enabled(w, a)
    ensures |NewJobs(w, a, key)| == SpawnsNow(w, a, key)
  {
    ReachableInv(w0, acts, w);
    StepSpawns(w, a, key);
  }

  lemma StepSpawns(w: World, a: Action, key: string)
    requires WorldInv(w) && Enabled(w, a)
    ensures NewJobs(w, a, key) == if SpawnsNow(w, a, key) == 1 then {w.shared.nextJob} else {}
  {
    hide Refs, Evolves, Safe, Worker, WorldInv;
    if a.Work? { WorkSpawns(w, a.key, a.reply); }
  }

  lemma WorkSpawns(w: World, key: string, reply: Reply)
    requires WorldInv(w) && key in w.locals
    ensures var s, s' := w.shared, Worker(key, w.locals[key], w.shared, reply).1;
      && (forall j :: j in s'.jobs && j !in s.jobs ==> j == s.nextJob) && s.nextJob !in s.jobs
      && (s.nextJob in s'.jobs <==> SpawnedIn(w.locals[key], reply) == 1)
      && (s.nextJob in s'.jobs ==> s'.jobs[s.nextJob].mounts == key)
  {
    assert w.shared.nextJob !in w.shared.jobs by { assert Inv(key, w.locals[key], w.shared); }
    WorkerSpawns(key, w.locals[key], w.shared, reply);
  }

  lemma WorkerSpawns(key: string, l: Local, s: Shared, reply: Reply)
    requires s.nextJob !in s.jobs
    ensures var s' := Worker(key, l, s, reply).1;
      && (forall j :: j in s'.jobs && j !in s.jobs ==> j == s.nextJob)
      && (s.nextJob in s'.jobs <==> SpawnedIn(l, reply) == 1)
      && (s.nextJob in s'.jobs ==> s'.jobs[s.nextJob].mounts == key)
  {
  }

  predicate Grown(l: Local, l': Local, before: nat, after: nat) {
    && l.log.writes <= l'.log.writes
    && (forall i :: |l.log.writes| <= i < |l'.log.writes| ==> before < l'.log.writes[i].at <= after)
  }

  lemma GrownOn(l: Local, m: Local, n: Local, t0: nat, t1: nat, t2: nat)
    requires Grown(l, m, t0, t1) && Grown(m, n, t1, t2) && t0 <= t1 <= t2
    ensures Grown(l, n, t0, t2)
  {
    forall i | |l.log.writes| <= i < |n.log.writes| ensures t0 < n.log.writes[i].at <= t2 {
      if i < |m.log.writes| { assert n.log.writes[i] == m.log.writes[i]; }
    }
  }

  /** A stretch of a run from one moment to another: the rewrites in it, and that they pay for its Jobs. */
  predicate Accounted(l: Local, l': Local, before: nat, after: nat, spawns: nat) {
    && Grown(l, l', before, after) && before <= after && Spaced(l'.log.writes)
    && spawns + Owed(l') + |l.log.writes| <= |l'.log.writes| + Owed(l)
  }

  lemma AccountedOn(l: Local, m: Local, n: Local, t0: nat, t1: nat, t2: nat, a: nat, b: nat)
    requires Accounted(l, m, t0, t1, a) && Accounted(m, n, t1, t2, b)
    ensures Accounted(l, n, t0, t2, a + b)
  {
    GrownOn(l, m, n, t0, t1, t2);
  }

  /** At most (m + 1) + W / 299 s, and one more if a rewrite was waiting for its Job at the start. */
  predicate WithinRate(l: Local, l': Local, before: nat, after: nat, spawns: nat) {
    var a, ws := |l.log.writes|, l'.log.writes;
    && a <= |ws| && before <= after
    && (a == |ws| ==> spawns <= Owed(l))
    && (a < |ws| ==> spawns <= Owed(l) + Changes(ws, a, |ws| - 1) + 1 + (after - before) / GAP)
  }

  lemma AccountedRate(l: Local, l': Local, before: nat, after: nat, spawns: nat)
    requires Accounted(l, l', before, after, spawns)
    ensures WithinRate(l, l', before, after, spawns)
  {
    if |l.log.writes| < |l'.log.writes| {
      RewriteRate(l'.log.writes, |l.log.writes|, |l'.log.writes| - 1, after - before);
    }
  }

  /** Every Job has a rewrite of its own, made just before it. */
  lemma WorkerRewrites(key: string, l: Local, s: Shared, a: Reply)
    ensures var r := Worker(key, l, s, a);
      && Grown(l, r.0, s.now, r.1.now)
      && SpawnedIn(l, a) + Owed(r.0) + |l.log.writes| <= |r.0.log.writes| + Owed(l)
  {
  }

  lemma StepRewrites(w: World, a: Action, key: string)
    requires WorldInv(w) && Enabled(w, a) && key in w.locals
    ensures key in Apply(w, a).locals && w.shared.now < Apply(w, a).shared.now
    ensures
      var l, l' := w.locals[key], Apply(w, a).locals[key];
      && Grown(l, l', w.shared.now, Apply(w, a).shared.now)
      && SpawnsNow(w, a, key) + Owed(l') + |l.log.writes| <= |l'.log.writes| + Owed(l)
  {
    StepGuarantee(w, a);
    StepRefs(w, a);
    if a.Work? && a.key == key { WorkerRewrites(key, w.locals[key], w.shared, a.reply); }
    else {
      assert Inv(key, w.locals[key], w.shared);
      ActionIsRely(w, a, key);
    }
  }

  lemma WritesSpaced(w: World, key: string)
    requires WorldInv(w) && key in w.locals
    ensures Spaced(w.locals[key].log.writes)
  {
    assert Inv(key, w.locals[key], w.shared);
  }

  lemma StepAccounted(w: World, a: Action, key: string)
    requires WorldInv(w) && Enabled(w, a) && key in w.locals && WorldInv(Apply(w, a))
    ensures
      var w' := Apply(w, a);
      key in w'.locals && Accounted(w.locals[key], w'.locals[key], w.shared.now, w'.shared.now, SpawnsNow(w, a, key))
  {
    StepRewrites(w, a, key);
    WritesSpaced(Apply(w, a), key);
  }

  lemma {:induction false} RunAccounted(w: World, acts: seq<Action>, w': World, key: string)
    requires WorldInv(w) && ValidRun(w, acts) && w' == Run(w, acts) && key in w.locals
    ensures key in w'.locals
    ensures Accounted(w.locals[key], w'.locals[key], w.shared.now, w'.shared.now, Spawns(w, acts, key))
    decreases |acts|
  {
    if |acts| > 0 {
      var w1, here := Apply(w, acts[0]), SpawnsNow(w, acts[0], key);
      StepKeepsInv(w, acts[0]);
      StepAccounted(w, acts[0], key);
      RunAccounted(w1, acts[1..], w', key);
      AccountedOn(w.locals[key], w1.locals[key], w'.locals[key], w.shared.now, w1.shared.now, w'.shared.now,
                  here, Spawns(w1, acts[1..], key));
    } else {
      WritesSpaced(w, key);
    }
  }

  /**
   The spawn rate over any stretch of any run, whatever calls fail: the Jobs spawned for a Realm within
   W seconds are at most (m + 1) + W / 299, m being the changes of payload after the first rewrite in
   that time, and one more if the stretch begins between a rewrite and its Job.
   */
  lemma SpawnsBounded(w0: World, acts: seq<Action>, w: World, more: seq<Action>, w': World, key: string)
    requires Reachable(w0, acts, w) && ValidRun(w, more) && w' == Run(w, more) && key in w.locals
    ensures key in w'.locals
    ensures WithinRate(w.locals[key], w'.locals[key], w.shared.now, w'.shared.now, Spawns(w, more, key))
  {
    ReachableInv(w0, acts, w);
    RunAccounted(w, more, w', key);
    AccountedRate(w.locals[key], w'.locals[key], w.shared.now, w'.shared.now, Spawns(w, more, key));
  }

  // ----- isolation of reconciles -------------------------------------------------------------

  /**
   Whatever happens to children of other realms, the next reconcile of this one, if it would have
   skipped inside the window, still skips: nothing is written to the Secret and no Job is spawned.
   */
  lemma ForeignChangesSpawnNothing(key: string, l: Local, s: Shared, ns: Namespace, replies: seq<Reply>, desired: Json)
    requires s.render == Payload && Fit(l, s, desired) && |replies| >= LONGEST && !DriftSeen(l, s, replies, desired)
    requires ns.secrets == s.ns.secrets && SameOwn(s.ns, ns, l.realm.value.spec.realmName)
    ensures SpawnsNothing(l, s.(ns := ns), ReconcileOnce(key, l, s.(ns := ns), replies))
  {
    RealmIsolation(l.realm.value.spec, s.ns, ns);
    QuietRound(key, l, s.(ns := ns), replies, desired);
  }
}
