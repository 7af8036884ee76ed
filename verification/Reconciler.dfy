/**
 The Realm reconciler in the form the source has: methods that call the API server one call after
 the other, with early returns, on mutable state (operator/internal/controller/realm_controller.go,
 operator/internal/wrapper/job_runner.go). What it does is proved to be `Protocol.ReconcileOnce`, the
 steps of the state machine with nobody interfering, for every sequence of answers the API may give.
 */
module Reconciler {
  import opened Wrappers
  import opened Api
  import opened Json
  import opened Export
  import opened Builder
  import opened Protocol
  import Store

  /** One call has been made and the machine has made the step for it. */
  lemma Advance(key: string, l: Local, s: Shared, replies: seq<Reply>, i: nat, r: (Local, Shared), goal: (Local, Shared))
    requires !l.pc.Idle? && i < |replies| && Worker(key, l, s, replies[i]) == r
    requires Finish(key, l, s, replies[i..]) == goal
    ensures Finish(key, r.0, r.1, replies[i + 1..]) == goal
  {
    assert replies[i..][0] == replies[i] && replies[i..][1..] == replies[i + 1..];
  }

  /**
   Every write of the worker to its Realm object is one atomic change in the sense of `Store`. (An
   object being deleted that is still there has a finalizer.)
   */
  lemma WritesAreChanges(key: string, l: Local, s: Shared, a: Reply)
    requires PcInv(key, l, s) && l.realm.Some? && (l.realm.value.finalizer || l.realm.value.deletedAt.None?)
    ensures
      var realm' := Worker(key, l, s, a).0.realm;
      realm' == l.realm || exists c :: realm' == Store.Effect(c, l.realm.value)
  {
    var t, o, realm' := s.now + 1 + a.dt, l.realm.value, Worker(key, l, s, a).0.realm;
    match l.pc
    case Adopting => assert a.Lands() ==> realm' == Store.Effect(Store.AddFinalizer, o);
    case Releasing => assert a.Lands() ==> realm' == Store.Effect(Store.RemoveFinalizer, o);
    case Untriggering =>
      assert a.Lands() ==> realm' == Store.Effect(Store.Unannotate(SYNC_REQUESTED), o);
    case Spawned(_, _, job) =>
      assert a.Lands() ==> realm' == Store.Effect(Store.WriteStatus(Pending(Track(Some(job))), t), o);
    case Writing(_, u, _) => assert a.Lands() ==> realm' == Store.Effect(Store.WriteStatus(u, t), o);
    case Failing => assert a.Lands() ==> realm' == Store.Effect(Store.WriteStatus(Broke(Keep), t), o);
    case _ =>
  }

  /**
   The object after a status write: all of the status is new, with the time of the write in whole seconds
   and the generation of the object; nothing else of the object changes.
   */
  predicate Reported(o: Realm, o': Option<Realm>, ready: bool, reason: Reason, id: string, active: Option<nat>, now: nat) {
    o' == Some(o.(status := RealmStatus(
                    ready, Some(Trunc(now)), [Condition(ready, reason, Trunc(now))], id, o.generation, active)))
  }

  /** Without the trigger annotation and otherwise the same. */
  function Untriggered(o: Realm): (r: Realm)
    ensures "keycloak.opendefense.cloud/sync-requested" !in r.annotations
    ensures forall k :: k != "keycloak.opendefense.cloud/sync-requested" ==>
      (k in r.annotations <==> k in o.annotations) && (k in o.annotations ==> r.annotations[k] == o.annotations[k])
    ensures r == o.(annotations := r.annotations)
  {
    o.(annotations := o.annotations - {SYNC_REQUESTED})
  }

  /** What becomes of the object when a tracked Job is looked at; `id` is the Job, `wasReady` the fetched status. */
  predicate Observed(o: Realm, o': Option<Realm>, wasReady: bool, realmName: string, jobs: map<nat, Job>, id: nat, now: nat) {
    var st := o.status;
    if id !in jobs then
      if wasReady then o' == Some(o) else Reported(o, o', false, SyncFailed, st.keycloakId, st.activeJob, now)
    else
      && (DecidedBy(jobs[id].conditions, Complete) ==> Reported(o, o', true, Synced, realmName, None, now))
      && (DecidedBy(jobs[id].conditions, Failed) ==>
            Reported(o, o', false, SyncFailed, st.keycloakId, Some(id), now))
      && ((forall i :: 0 <= i < |jobs[id].conditions| ==> !Decides(jobs[id].conditions[i])) ==>
            Reported(o, o', false, JobRunning, st.keycloakId, st.activeJob, now))
  }

  class RealmReconciler {
    const key: string
    const replies: seq<Reply>
    const render: Render
    var calls: nat

    // The cluster as this reconcile meets it.
    var now: nat
    var ns: Namespace
    var jobs: map<nat, Job>
    var nextJob: nat
    const vanished: bool
    var realm: Option<Realm>
    var config: Option<ConfigSecret>
    var log: Log

    // The step of the machine the code has reached, and where the machine will end.
    ghost var pc: Pc
    ghost var goal: (Local, Shared)

    ghost function L(): Local reads this { Local(realm, config, pc, log) }
    ghost function S(): Shared reads this { Shared(now, ns, jobs, nextJob, vanished, render) }

    ghost predicate OnCourse(left: nat)
      reads this
    {
      calls + left <= |replies| && Finish(key, L(), S(), replies[calls..]) == goal
    }

    constructor (key: string, replies: seq<Reply>, l: Local, s: Shared)
      requires |replies| >= LONGEST && l.pc.Idle?
      ensures L() == l && S() == s && this.key == key && this.replies == replies && calls == 0
    {
      this.key, this.replies, this.render := key, replies, s.render;
      this.now, this.ns, this.jobs, this.nextJob, this.vanished := s.now, s.ns, s.jobs, s.nextJob, s.vanished;
      this.realm, this.config, this.log := l.realm, l.config, l.log;
      this.calls := 0;
      this.pc := Idle;
    }

    /** Any call: time passes and the API answers. */
    method Call() returns (a: Reply)
      requires calls < |replies|
      modifies this`calls, this`now
      ensures a == replies[old(calls)] && calls == old(calls) + 1 && now == old(now) + 1 + a.dt
    {
      a := replies[calls];
      calls := calls + 1;
      now := now + 1 + a.dt;
    }

    method Reconcile()
      requires calls == 0 && pc.Idle? && |replies| >= LONGEST && render == Payload
      modifies this
      ensures (L(), S()) == ReconcileOnce(key, old(L()), old(S()), replies)
      ensures pc.Idle?
      // Without an object, or one whose deletion is requested, or one still without finalizer, nothing else changes.
      ensures !replies[0].Done() || old(realm).None? || old(realm).value.deletedAt.Some? || !old(realm).value.finalizer ==>
        config == old(config) && jobs == old(jobs) && log == old(log)
      ensures !replies[0].Done() || old(realm).None? ==> realm == old(realm)
      ensures replies[0].Done() && old(realm).Some? && old(realm).value.deletedAt.Some? ==>
        realm == if old(realm).value.finalizer && replies[1].Lands() then None else old(realm)
      ensures replies[0].Done() && old(realm).Some? && old(realm).value.deletedAt.None? && !old(realm).value.finalizer ==>
        realm == if replies[1].Lands() then Some(old(realm).value.(finalizer := true)) else old(realm)
    {
      goal := ReconcileOnce(key, L(), S(), replies);
      var a := Call();
      pc := if a.Done() then AfterFetch(realm) else Idle;
      if !a.Done() { return; }
      if realm.None? { return; }
      var obj := realm.value;
      if obj.deletedAt.Some? {
        if !obj.finalizer { return; }
        assert OnCourse(1);
        RemoveFinalizer();
        return;
      }
      if !obj.finalizer {
        assert OnCourse(1);
        AddFinalizer();
        return;
      }
      assert OnCourse(9);
      var err := Sync(obj);
      if err { SetFailed(); }
    }

    method RemoveFinalizer()
      requires pc.Releasing? && OnCourse(1)
      modifies this
      ensures goal == old(goal)
      ensures pc.Idle? && OnCourse(0)
      ensures realm == if replies[old(calls)].Lands() then None else old(realm)
      ensures config == old(config) && jobs == old(jobs) && log == old(log)
    {
      ghost var l, s := L(), S();
      var a := Call();
      if a.Lands() { realm := None; }
      pc := Idle;
      Advance(key, l, s, replies, calls - 1, (L(), S()), goal);
    }

    method AddFinalizer()
      requires pc.Adopting? && OnCourse(1)
      modifies this
      ensures goal == old(goal)
      ensures pc.Idle? && OnCourse(0)
      ensures realm == if replies[old(calls)].Lands() && old(realm).Some?
                       then Some(old(realm).value.(finalizer := true)) else old(realm)
      ensures config == old(config) && jobs == old(jobs) && log == old(log)
    {
      ghost var l, s := L(), S();
      var a := Call();
      if a.Lands() && realm.Some? { realm := Some(realm.value.(finalizer := true)); }
      pc := Idle;
      Advance(key, l, s, replies, calls - 1, (L(), S()), goal);
    }

    method SetFailed()
      requires pc.Failing? && OnCourse(1)
      modifies this
      ensures goal == old(goal)
      ensures pc.Idle? && OnCourse(0)
      ensures old(realm).None? || !replies[old(calls)].Lands() ==> realm == old(realm)
      ensures old(realm).Some? && replies[old(calls)].Lands() ==>
        var st := old(realm).value.status;
        Reported(old(realm).value, realm, false, SyncFailed, st.keycloakId, st.activeJob, now)
      ensures config == old(config) && jobs == old(jobs) && log == old(log)
    {
      ghost var l, s := L(), S();
      var a := Call();
      if a.Lands() { realm := PutStatus(realm, Broke(Keep), now); }
      pc := Idle;
      Advance(key, l, s, replies, calls - 1, (L(), S()), goal);
    }

    /** `BuildRealmExport` and `json.Marshal`. */
    method Render(spec: RealmSpec) returns (payload: Option<Json>)
      requires render == Payload
      ensures payload == render(spec, ns)
    {
      var document := BuildRealmExport(spec, ns);
      if document.None? { return None; }
      return Some(Marshal(document.value));
    }

    method Sync(obj: Realm) returns (err: bool)
      requires pc == Fetched(obj) && OnCourse(9) && render == Payload
      modifies this
      ensures goal == old(goal)
      ensures err ==> pc == Failing && OnCourse(1)
      ensures !err ==> pc.Idle? && OnCourse(0)
    {
      var payload := Render(obj.spec);
      var built := BuildDesired(obj, payload);
      if built.None? { return true; }
      var d := built.value;
      var job, err' := SyncRealm(obj, d);
      if err' { return true; }
      if job.Some? {
        err := RecordJob(obj, d, job.value);
        if err { return; }
      }
      err := AfterSyncRealm(obj, d, job);
    }

    method BuildDesired(obj: Realm, payload: Option<Json>) returns (d: Option<Desired>)
      requires pc == Fetched(obj) && OnCourse(9) && payload == render(obj.spec, ns)
      modifies this
      ensures goal == old(goal)
      ensures d.None? ==> pc == Failing && OnCourse(1)
      ensures d.Some? ==> pc == Built(obj, d.value) && OnCourse(8)
    {
      ghost var l, s := L(), S();
      var a := Call();
      d := None;
      pc := Failing;
      if a.Done() && payload.Some? {
        d := Some(Desired(obj.spec, obj.generation, ns, now, payload.value));
        pc := Built(obj, d.value);
      }
      Advance(key, l, s, replies, calls - 1, (L(), S()), goal);
    }

    /** Pending at once, with the new Job tracked. */
    method RecordJob(obj: Realm, d: Desired, job: nat) returns (err: bool)
      requires pc == Spawned(obj, d, job) && OnCourse(5)
      modifies this
      ensures goal == old(goal)
      ensures err ==> pc == Failing && OnCourse(1)
      ensures !err ==> pc == Recorded(obj, d, Some(job)) && OnCourse(4)
      ensures err <==> !replies[old(calls)].Done() || old(realm).None?
      ensures old(realm).None? || !replies[old(calls)].Lands() ==> realm == old(realm) && log == old(log)
      ensures old(realm).Some? && replies[old(calls)].Lands() ==>
        !log.dirty && Reported(old(realm).value, realm, false, JobRunning, old(realm).value.status.keycloakId, Some(job), now)
      ensures config == old(config) && jobs == old(jobs) && log.writes == old(log.writes)
    {
      hide Finish;
      ghost var l, s := L(), S();
      var a := Call();
      err := !a.Done() || realm.None?;
      if a.Lands() && realm.Some? {
        realm := PutStatus(realm, Pending(Track(Some(job))), now);
        log := log.(dirty := false);
      }
      pc := if err then Failing else Recorded(obj, d, Some(job));
      Advance(key, l, s, replies, calls - 1, (L(), S()), goal);
    }

    method RemoveTrigger() returns (err: bool)
      requires pc.Untriggering? && OnCourse(2)
      modifies this
      ensures goal == old(goal)
      ensures err ==> pc == Failing && OnCourse(1)
      ensures !err ==> pc.Idle? && OnCourse(0)
      ensures err <==> !replies[old(calls)].Done()
      ensures realm == if replies[old(calls)].Lands() && old(realm).Some?
                       then Some(Untriggered(old(realm).value)) else old(realm)
      ensures config == old(config) && jobs == old(jobs) && log == old(log)
    {
      hide Finish;
      ghost var l, s := L(), S();
      var a := Call();
      if a.Lands() && realm.Some? {
        realm := Some(realm.value.(annotations := realm.value.annotations - {SYNC_REQUESTED}));
      }
      err := !a.Done();
      pc := if err then Failing else Idle;
      Advance(key, l, s, replies, calls - 1, (L(), S()), goal);
    }

    /** From the cleanup of old Jobs to the final status. */
    method AfterSyncRealm(obj: Realm, d: Desired, job: Option<nat>) returns (err: bool)
      requires pc == Recorded(obj, d, job) && OnCourse(4)
      modifies this
      ensures goal == old(goal)
      ensures err ==> pc == Failing && OnCourse(1)
      ensures !err ==> pc.Idle? && OnCourse(0)
      ensures config == old(config)
      ensures old(realm).Some? ==>
        var o, active := old(realm).value, if job.Some? then job else obj.status.activeJob;
        var second, third := replies[old(calls) + 1], replies[old(calls) + 2];
        if "keycloak.opendefense.cloud/sync-requested" in obj.annotations then
          realm == if second.Lands() then Some(Untriggered(o)) else old(realm)
        else if active.None? then
          if obj.status.ready || !second.Lands() then realm == old(realm)
          else Reported(o, realm, false, JobRunning, o.status.keycloakId, o.status.activeJob, now)
        else if !second.Done() || !third.Lands() then realm == old(realm)
        else Observed(o, realm, obj.status.ready, d.spec.realmName, jobs, active.value, now)
    {
      hide Finish;
      ghost var l, s := L(), S();
      var activeJob := job;
      if activeJob.None? { activeJob := obj.status.activeJob; }
      var a := Call();
      CleanupTerminalJobs(obj.uid, activeJob, a.listing, a.failing);
      pc := AfterSync(obj, d, job);
      Advance(key, l, s, replies, calls - 1, (L(), S()), goal);

      if SYNC_REQUESTED in obj.annotations {
        err := RemoveTrigger();
        return;
      }
      if activeJob.None? {
        if obj.status.ready { return false; }
        err := WriteStatus(d, Pending(Keep), None);
        return;
      }
      err := ObserveJob(obj, d, activeJob.value, job.Some?);
    }

    /** Rewrite the Secret and spawn a Job, unless payload and time say that nothing is due. */
    method SyncRealm(obj: Realm, d: Desired) returns (job: Option<nat>, err: bool)
      requires pc == Built(obj, d) && OnCourse(8)
      modifies this
      ensures goal == old(goal)
      ensures err ==> pc == Failing && OnCourse(1)
      ensures !err && job.None? ==> pc == Recorded(obj, d, None) && OnCourse(4)
      ensures !err && job.Some? ==> pc == Spawned(obj, d, job.value) && OnCourse(5)
      ensures
        var get, compared := replies[old(calls)], old(now) + 1 + replies[old(calls)].dt;
        var upToDate := old(config).Some? && old(config).value.payload == d.payload && old(config).value.lastSync.Some?
                     && compared - old(config).value.lastSync.value < 300_000_000_000;
        && realm == old(realm)
        && (!get.Done() || upToDate ==> job.None? && (err <==> !get.Done()) && config == old(config) && jobs == old(jobs))
        && (get.Done() && !upToDate ==>
             && (err <==> !replies[old(calls) + 1].Done() || !replies[old(calls) + 2].Done())
             && (job.Some? <==> !err)
             && (replies[old(calls) + 1].Lands() ==> config.Some? && config.value.payload == d.payload))
        && (job.Some? ==> job.value == old(nextJob) && job.value in jobs && jobs[job.value].mounts == key)
    {
      var current, err' := GetConfig(obj, d);
      if err' { return None, true; }
      if current.Some? {
        if current.value.payload == d.payload {
          if current.value.lastSync.Some? && now < current.value.lastSync.value + HEAL { return None, false; }
        }
      }
      err := PutConfig(obj, d);
      if err { return None, true; }
      var id;
      id, err := CreateJob(obj, d);
      job := if err then None else Some(id);
    }

    method GetConfig(obj: Realm, d: Desired) returns (current: Option<ConfigSecret>, err: bool)
      requires pc == Built(obj, d) && OnCourse(8)
      modifies this
      ensures goal == old(goal)
      ensures err ==> pc == Failing && OnCourse(1)
      ensures !err ==> current == config && OnCourse(7)
      ensures !err ==> pc == if Drift(config, d.payload, now) then Drifted(obj, d) else Recorded(obj, d, None)
      ensures err <==> !replies[old(calls)].Done()
      ensures calls == old(calls) + 1 && now == old(now) + 1 + replies[old(calls)].dt
      ensures realm == old(realm) && config == old(config) && jobs == old(jobs) && nextJob == old(nextJob)
    {
      ghost var l, s := L(), S();
      var a := Call();
      err := !a.Done();
      current := config;
      pc := if err then Failing else if Drift(config, d.payload, now) then Drifted(obj, d) else Recorded(obj, d, None);
      Advance(key, l, s, replies, calls - 1, (L(), S()), goal);
    }

    method PutConfig(obj: Realm, d: Desired) returns (err: bool)
      requires pc == Drifted(obj, d) && OnCourse(7)
      modifies this
      ensures goal == old(goal)
      ensures err ==> pc == Failing && OnCourse(1)
      ensures !err ==> pc == Stored(obj, d) && OnCourse(6)
      ensures
        || (config == Some(ConfigSecret(d.payload, Some(Trunc(now)))) && log.writes == old(log.writes) + [Write(d.payload, now)])
        || (err && config == old(config) && log == old(log))
      ensures realm == old(realm) && jobs == old(jobs)
      ensures err <==> !replies[old(calls)].Done()
      ensures calls == old(calls) + 1 && nextJob == old(nextJob)
      ensures replies[old(calls)].Lands() ==> config == Some(ConfigSecret(d.payload, Some(Trunc(now))))
    {
      hide Finish;
      ghost var l, s := L(), S();
      var a := Call();
      if a.Lands() {
        var changed := config.None? || config.value.payload != d.payload;
        config := Some(ConfigSecret(d.payload, Some(Trunc(now))));
        log := log.(writes := log.writes + [Write(d.payload, now)], dirty := log.dirty || changed);
      }
      err := !a.Done();
      pc := if err then Failing else Stored(obj, d);
      Advance(key, l, s, replies, calls - 1, (L(), S()), goal);
    }

    method CreateJob(obj: Realm, d: Desired) returns (id: nat, err: bool)
      requires pc == Stored(obj, d) && OnCourse(6)
      modifies this
      ensures goal == old(goal)
      ensures err ==> pc == Failing && OnCourse(1)
      ensures !err ==> pc == Spawned(obj, d, id) && OnCourse(5)
      ensures id == old(nextJob)
      ensures
        || (id in jobs && jobs == old(jobs)[id := jobs[id]] && nextJob == id + 1
            && jobs[id].owners == [obj.uid] && jobs[id].mounts == key && jobs[id].created == Trunc(now)
            && jobs[id].conditions == [] && jobs[id].carried.None?)
        || (err && jobs == old(jobs) && nextJob == id)
      ensures realm == old(realm) && config == old(config) && log == old(log)
      ensures err <==> !replies[old(calls)].Done()
    {
      hide Finish;
      ghost var l, s := L(), S();
      var a := Call();
      id := nextJob;
      if a.Lands() {
        var birth := if |log.writes| == 0 then 0 else |log.writes| - 1;
        jobs := jobs[id := Job([obj.uid], key, Trunc(now), [], birth, None)];
        nextJob := nextJob + 1;
      }
      err := !a.Done();
      pc := if err then Failing else Spawned(obj, d, id);
      Advance(key, l, s, replies, calls - 1, (L(), S()), goal);
    }

    method WriteStatus(d: Desired, u: StatusUpdate, seen: Option<Seen>) returns (err: bool)
      requires pc == Writing(d, u, seen) && OnCourse(2)
      modifies this
      ensures goal == old(goal)
      ensures err ==> pc == Failing && OnCourse(1)
      ensures !err ==> pc.Idle? && OnCourse(0)
      ensures err <==> !replies[old(calls)].Done()
      ensures realm == if replies[old(calls)].Lands() then PutStatus(old(realm), u, now) else old(realm)
      ensures config == old(config) && jobs == old(jobs)
    {
      hide Finish;
      ghost var l, s := L(), S();
      var a := Call();
      if a.Lands() {
        if seen.Some? && realm.Some? {
          var r := ReadyRecord(d, seen.value, |log.writes|, now, realm.value.generation, log.dirty);
          log := log.(readies := log.readies + [r]);
        }
        realm := PutStatus(realm, u, now);
      }
      err := !a.Done();
      pc := if err then Failing else Idle;
      Advance(key, l, s, replies, calls - 1, (L(), S()), goal);
    }

    method ObserveJob(obj: Realm, d: Desired, id: nat, spawnedNow: bool) returns (err: bool)
      requires pc == Observing(obj, d, id, spawnedNow) && OnCourse(3)
      modifies this
      ensures goal == old(goal)
      ensures err ==> pc == Failing && OnCourse(1)
      ensures !err ==> pc.Idle? && OnCourse(0)
      ensures config == old(config) && jobs == old(jobs)
      ensures
        var get, put := replies[old(calls)], replies[old(calls) + 1];
        && (!get.Done() ==> err)
        && (old(realm).Some? && get.Done() && put.Lands() ==>
             Observed(old(realm).value, realm, obj.status.ready, d.spec.realmName, jobs, id, now))
        && (!get.Done() || !put.Lands() ==> realm == old(realm))
    {
      hide Finish;
      ghost var l, s := L(), S();
      var a := Call();
      pc := if a.Done() then AfterObserve(obj, d, id, jobs) else Failing;
      Advance(key, l, s, replies, calls - 1, (L(), S()), goal);
      if !a.Done() { return true; }
      if id !in jobs {
        if obj.status.ready { return false; }
        err := WriteStatus(d, Broke(Keep), None);
        return;
      }
      var job := jobs[id];
      var verdict := ReadConditions(job.conditions);
      VerdictExactly(job.conditions);
      match verdict {
        case Succeeded =>
          err := WriteStatus(d, StatusUpdate(Synced, d.spec.realmName, Track(None)), Some(Seen(id, job)));
        case Broken => err := WriteStatus(d, Broke(Track(Some(id))), None);
        case Running => err := WriteStatus(d, Pending(Keep), None);
      }
    }

    /** The loop over the conditions of a Job. */
    static method ReadConditions(conditions: seq<JobCondition>) returns (v: Verdict)
      ensures v == JobVerdict(conditions)
      ensures v == Succeeded <==> DecidedBy(conditions, Complete)
      ensures v == Broken <==> DecidedBy(conditions, Failed)
      ensures v == Running <==> forall i :: 0 <= i < |conditions| ==> !Decides(conditions[i])
    {
      VerdictExactly(conditions);
      for i := 0 to |conditions|
        invariant JobVerdict(conditions) == JobVerdict(conditions[i..])
      {
        var c := conditions[i];
        assert conditions[i..][0] == c && conditions[i..][1..] == conditions[i + 1..];
        if !c.isTrue { continue; }
        match c.kind {
          case Complete => return Succeeded;
          case Failed => return Broken;
          case Other =>
        }
      }
      return Running;
    }

    static method IsOwnedBy(job: Job, uid: nat) returns (r: bool)
      ensures r == (uid in job.owners)
    {
      for i := 0 to |job.owners|
        invariant uid !in job.owners[..i]
      {
        if job.owners[i] == uid { return true; }
      }
      assert job.owners[..|job.owners|] == job.owners;
      return false;
    }

    /** Go through the listed Jobs and delete those that are due, until a deletion fails. */
    method CleanupTerminalJobs(uid: nat, active: Option<nat>, listing: seq<nat>, failing: set<nat>)
      modifies this`jobs
      ensures jobs == old(jobs) - Deleted(listing, Victims(old(jobs), uid, active, now), failing)
      ensures forall j :: j in old(jobs) && j !in jobs ==>
        && j in listing && active != Some(j) && uid in old(jobs)[j].owners && now - old(jobs)[j].created >= 600_000_000_000
        && exists i :: 0 <= i < |old(jobs)[j].conditions| && Decides(old(jobs)[j].conditions[i])
    {
      var listed := jobs;
      ghost var due, done: set<nat> := Victims(listed, uid, active, now), {};
      Explain(listed, uid, active, now, listing, failing);
      for i := 0 to |listing|
        invariant jobs == listed - done
        invariant done + Deleted(listing[i..], due, failing) == Deleted(listing, due, failing)
      {
        var id := listing[i];
        assert listing[i..][0] == id && listing[i..][1..] == listing[i + 1..];
        if active == Some(id) || id !in listed { continue; }
        var job := listed[id];
        var owned := IsOwnedBy(job, uid);
        var verdict := ReadConditions(job.conditions);
        if !owned || verdict == Running || job.created + RETAIN > now { continue; }
        if id in failing { return; }
        jobs := jobs - {id};
        done := done + {id};
      }
    }
  }

  lemma Explain(jobs: map<nat, Job>, uid: nat, active: Option<nat>, now: nat, listing: seq<nat>, failing: set<nat>)
    ensures forall j :: j in Deleted(listing, Victims(jobs, uid, active, now), failing) ==>
      && j in jobs && j in listing && active != Some(j) && uid in jobs[j].owners && now - jobs[j].created >= 600_000_000_000
      && exists i :: 0 <= i < |jobs[j].conditions| && Decides(jobs[j].conditions[i])
  {
    forall j | j in Deleted(listing, Victims(jobs, uid, active, now), failing)
      ensures j in listing && j in Victims(jobs, uid, active, now)
    {
      DeletedExactly(listing, Victims(jobs, uid, active, now), failing, j);
    }
    forall j | j in Victims(jobs, uid, active, now)
      ensures j in jobs && active != Some(j) && uid in jobs[j].owners && now - jobs[j].created >= 600_000_000_000
      ensures exists i :: 0 <= i < |jobs[j].conditions| && Decides(jobs[j].conditions[i])
    {
      VictimsExactly(jobs, uid, active, now, j);
    }
  }

  // ----- the cleanup -------------------------------------------------------------------------

  /** A listing that has them all, and no failure: exactly the victims go. */
  lemma CompleteCleanup(listing: seq<nat>, victims: set<nat>, failing: set<nat>)
    requires forall j :: j in victims ==> j in listing && j !in failing
    ensures Deleted(listing, victims, failing) == victims
  {
    forall j | j in victims ensures j in Deleted(listing, victims, failing) {
      var i :| 0 <= i < |listing| && listing[i] == j;
      assert NoFailure(listing, victims, failing, i);
      DeletedExactly(listing, victims, failing, j);
    }
  }

  /**
   A complete cleanup leaves nothing to clean; one that was aborted, wherever, has deleted victims only,
   and a complete one after it ends where a complete one at once would have.
   */
  lemma CleanupIdempotent(jobs: map<nat, Job>, uid: nat, active: Option<nat>, now: nat, listing: seq<nat>, failing: set<nat>)
    ensures Victims(jobs - Victims(jobs, uid, active, now), uid, active, now) == {}
    ensures
      var victims := Victims(jobs, uid, active, now);
      var aborted := jobs - Deleted(listing, victims, failing);
      && Deleted(listing, victims, failing) <= victims
      && aborted - Victims(aborted, uid, active, now) == jobs - victims
  {
    var v := Victims(jobs, uid, active, now);
    var aborted := jobs - Deleted(listing, v, failing);
    assert Victims(aborted, uid, active, now) == v - Deleted(listing, v, failing);
  }
}
