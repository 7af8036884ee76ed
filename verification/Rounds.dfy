/**
 What one reconcile does when nothing else happens in the meantime: skip, fail on the way to the
 comparison, spawn, or see the tracked Job succeed.
 */
module Rounds {
  import opened Wrappers
  import opened Api
  import opened Json
  import opened Protocol

  /** Fetching, building and comparing succeed. */
  predicate ComparisonDone(replies: seq<Reply>) {
    |replies| >= LONGEST && replies[0].Done() && replies[1].Done() && replies[2].Done()
  }

  /**
   The three calls after the comparison succeed too: Secret, Job and recording in a round that drifts;
   cleanup, observation and status in one that observes.
   */
  predicate SixDone(replies: seq<Reply>) {
    ComparisonDone(replies) && replies[3].Done() && replies[4].Done() && replies[5].Done()
  }

  /** When the comparison of this reconcile happens: it is the third call. */
  function ComparedAt(s: Shared, replies: seq<Reply>): nat
    requires |replies| >= LONGEST
  {
    s.now + 3 + replies[0].dt + replies[1].dt + replies[2].dt
  }

  /** The Realm is there, adopted, not being deleted, and its build gives the desired payload. */
  predicate Fit(l: Local, s: Shared, desired: Json) {
    && l.pc.Idle? && l.realm.Some? && l.realm.value.deletedAt.None? && l.realm.value.finalizer
    && s.render(l.realm.value.spec, s.ns) == Some(desired)
    && (forall j :: j in s.jobs ==> j < s.nextJob)
  }

  /** After three calls: what was built has been compared with the Secret. */
  lemma Compared(key: string, l: Local, s: Shared, replies: seq<Reply>, desired: Json)
    returns (d: Desired, s3: Shared, rest: seq<Reply>)
    requires Fit(l, s, desired) && ComparisonDone(replies)
    ensures d.payload == desired && d.spec == l.realm.value.spec && rest == replies[3..]
    ensures s3 == s.(now := ComparedAt(s, replies))
    ensures
      var o := l.realm.value;
      var pc := if Drift(l.config, desired, s3.now) then Drifted(o, d) else Recorded(o, d, None);
      ReconcileOnce(key, l, s, replies) == Finish(key, l.(pc := pc), s3, rest)
  {
    var o := l.realm.value;
    var l1, s1 := l.(pc := Fetched(o)), s.(now := s.now + 1 + replies[0].dt);
    assert Worker(key, l, s, replies[0]) == (l1, s1);
    var s2 := s.(now := s1.now + 1 + replies[1].dt);
    d := Desired(o.spec, o.generation, s.ns, s2.now, desired);
    assert Worker(key, l1, s1, replies[1]) == (l.(pc := Built(o, d)), s2);
    s3 := s.(now := s2.now + 1 + replies[2].dt);
    rest := replies[3..];
    var pc := if Drift(l.config, desired, s3.now) then Drifted(o, d) else Recorded(o, d, None);
    assert Worker(key, l.(pc := Built(o, d)), s2, replies[2]) == (l.(pc := pc), s3);
    assert replies[1..][0] == replies[1] && replies[1..][1..] == replies[2..];
    assert replies[2..][0] == replies[2] && replies[2..][1..] == rest;
    assert ReconcileOnce(key, l, s, replies) == Finish(key, l1, s1, replies[1..])
        == Finish(key, l.(pc := Built(o, d)), s2, replies[2..]);
  }

  /** A finished cleanup, seen without the other Jobs. */
  lemma Cleaned(key: string, l: Local, s: Shared, a: Reply)
    requires l.pc.Recorded?
    ensures
      var r := Worker(key, l, s, a);
      && r.0 == l.(pc := AfterSync(l.pc.obj, l.pc.d, l.pc.spawned))
      && r.1 == s.(now := s.now + 1 + a.dt, jobs := r.1.jobs)
      && (forall j :: j in r.1.jobs ==> j in s.jobs && r.1.jobs[j] == s.jobs[j])
      && (forall j :: j in s.jobs && !Terminal(s.jobs[j]) ==> j in r.1.jobs)
      && (forall j :: j in s.jobs && (l.pc.spawned == Some(j) || (l.pc.spawned.None? && l.pc.obj.status.activeJob == Some(j)))
            ==> j in r.1.jobs)
  {
  }

  /** With nothing to do, the Secret and its history stay as they are and no Job is spawned. */
  lemma QuietRound(key: string, l: Local, s: Shared, replies: seq<Reply>, desired: Json)
    requires Fit(l, s, desired) && |replies| >= LONGEST && !DriftSeen(l, s, replies, desired)
    ensures SpawnsNothing(l, s, ReconcileOnce(key, l, s, replies))
  {
    if ComparisonDone(replies) {
      var d, s3, rest := Compared(key, l, s, replies, desired);
      FinishQuiet(key, l.(pc := Recorded(l.realm.value, d, None)), s3, rest);
    } else {
      var l', s', rest := Interrupted(key, l, s, replies, desired);
      FinishQuiet(key, l', s', rest);
    }
  }

  /** The reconcile gets as far as the comparison, and what it built is due. */
  predicate DriftSeen(l: Local, s: Shared, replies: seq<Reply>, desired: Json)
    requires |replies| >= LONGEST
  {
    ComparisonDone(replies) && Drift(l.config, desired, ComparedAt(s, replies))
  }

  /** A reconcile that does not get as far as comparing only reports the failure, if anything. */
  lemma Interrupted(key: string, l: Local, s: Shared, replies: seq<Reply>, desired: Json)
    returns (l': Local, s': Shared, rest: seq<Reply>)
    requires Fit(l, s, desired) && |replies| >= LONGEST && !ComparisonDone(replies)
    ensures (l'.pc.Idle? || l'.pc.Failing?) && l' == l.(pc := l'.pc) && s' == s.(now := s'.now) && s.now <= s'.now
    ensures |rest| >= 1 && ReconcileOnce(key, l, s, replies) == Finish(key, l', s', rest)
  {
    var o := l.realm.value;
    var s1 := s.(now := s.now + 1 + replies[0].dt);
    if !replies[0].Done() {
      l', s', rest := l, s1, replies[1..];
      assert Worker(key, l, s, replies[0]) == (l', s');
    } else {
      var l1 := l.(pc := Fetched(o));
      assert Worker(key, l, s, replies[0]) == (l1, s1);
      assert replies[1..][0] == replies[1] && replies[1..][1..] == replies[2..];
      var s2 := s.(now := s1.now + 1 + replies[1].dt);
      if !replies[1].Done() {
        l', s', rest := l.(pc := Failing), s2, replies[2..];
        assert Worker(key, l1, s1, replies[1]) == (l', s');
      } else {
        var d := Desired(o.spec, o.generation, s.ns, s2.now, desired);
        var l2 := l.(pc := Built(o, d));
        assert Worker(key, l1, s1, replies[1]) == (l2, s2);
        assert replies[2..][0] == replies[2] && replies[2..][1..] == replies[3..];
        l', s', rest := l.(pc := Failing), s.(now := s2.now + 1 + replies[2].dt), replies[3..];
        assert Worker(key, l2, s2, replies[2]) == (l', s');
        assert Finish(key, l1, s1, replies[1..]) == Finish(key, l2, s2, replies[2..]) == Finish(key, l', s', rest);
      }
    }
  }

  predicate SpawnsNothing(l: Local, s: Shared, r: (Local, Shared)) {
    && r.0.config == l.config && r.0.log.writes == l.log.writes && r.0.log.dirty == l.log.dirty
    && r.1.nextJob == s.nextJob && r.1.jobs.Keys <= s.jobs.Keys
  }

  predicate Quiet(pc: Pc) {
    pc.Idle? || pc.Recorded? || pc.Untriggering? || pc.Observing? || pc.Writing? || pc.Failing?
  }

  lemma {:induction false} FinishQuiet(key: string, l: Local, s: Shared, replies: seq<Reply>)
    requires Quiet(l.pc)
    ensures SpawnsNothing(l, s, Finish(key, l, s, replies))
    decreases |replies|
  {
    if !l.pc.Idle? && |replies| > 0 {
      var r := Worker(key, l, s, replies[0]);
      assert Quiet(r.0.pc) && SpawnsNothing(l, s, r);
      FinishQuiet(key, r.0, r.1, replies[1..]);
    }
  }

  /** The tracked Job, once it has succeeded, makes the Realm Ready. */
  lemma ReadyRound(key: string, l: Local, s: Shared, replies: seq<Reply>, desired: Json, id: nat)
    requires Fit(l, s, desired) && SixDone(replies) && !Drift(l.config, desired, ComparedAt(s, replies))
    requires l.realm.value.status.activeJob == Some(id) && SYNC_REQUESTED !in l.realm.value.annotations
    requires id in s.jobs && JobVerdict(s.jobs[id].conditions) == Succeeded
    ensures
      var r := ReconcileOnce(key, l, s, replies);
      && r.0.realm.Some? && r.0.realm.value.status.ready && r.0.realm.value.uid == l.realm.value.uid
      && |r.0.log.readies| > 0 && Last(r.0.log.readies).d.payload == desired
      && Last(r.0.log.readies).seen == Seen(id, s.jobs[id]) && r.0.log.writes == l.log.writes
  {
    var o := l.realm.value;
    var d, s3, rest := Compared(key, l, s, replies, desired);
    var l3 := l.(pc := Recorded(o, d, None));
    Cleaned(key, l3, s3, rest[0]);
    var r4 := Worker(key, l3, s3, rest[0]);
    assert r4.0 == l.(pc := Observing(o, d, id, false));
    var r5 := Worker(key, r4.0, r4.1, rest[1]);
    assert r5.0 == l.(pc := Writing(d, StatusUpdate(Synced, d.spec.realmName, Track(None)), Some(Seen(id, s.jobs[id]))));
    var r6 := Worker(key, r5.0, r5.1, rest[2]);
    assert rest[1..][0] == rest[1] && rest[1..][1..] == rest[2..];
    assert rest[2..][0] == rest[2] && rest[2..][1..] == rest[3..];
    assert Finish(key, l3, s3, rest) == Finish(key, r4.0, r4.1, rest[1..]) == Finish(key, r5.0, r5.1, rest[2..])
        == Finish(key, r6.0, r6.1, rest[3..]) == r6;
  }

  /** A Job of this Realm that has read nothing, or the desired payload. */
  predicate Holds(key: string, l: Local, j: Job, desired: Json)
    requires l.realm.Some?
  {
    && j.mounts == key && j.owners == [l.realm.value.uid]
    && (JobVerdict(j.conditions) == Succeeded ==> j.carried.Some?)
    && (j.carried.Some? ==> j.carried.value < |l.log.writes| && l.log.writes[j.carried.value].payload == desired)
  }

  /** The Secret holds the desired payload, and the status tracks a Job that can have read no other. */
  predicate Tracked(key: string, l: Local, s: Shared, id: nat, desired: Json) {
    && l.realm.Some? && l.realm.value.status.activeJob == Some(id) && id < s.nextJob
    && |l.log.writes| > 0 && Last(l.log.writes).payload == desired
    && l.config == Some(ConfigSecret(desired, Some(Trunc(Last(l.log.writes).at))))
    && (id in s.jobs ==> Holds(key, l, s.jobs[id], desired))
  }

  predicate Succeeds(s: Shared, id: nat) { id in s.jobs && JobVerdict(s.jobs[id].conditions) == Succeeded }

  /** The steps from the comparison on of a reconcile that does not come to see the Job succeed. */
  predicate Waiting(pc: Pc, s: Shared, id: nat) {
    match pc
    case Recorded(obj, _, spawned) =>
      && (if spawned.Some? then spawned else obj.status.activeJob) == Some(id)
      && (SYNC_REQUESTED in obj.annotations || !Succeeds(s, id))
    case Observing(_, _, j, _) => j == id && !Succeeds(s, id)
    case Writing(_, u, seen) => seen.None? && u.reason != Synced && (u.active.Keep? || u.active.job == Some(id))
    case Idle => true
    case Untriggering => true
    case Failing => true
    case _ => false
  }

  predicate SameJob(s: Shared, s': Shared, id: nat) {
    s.nextJob == s'.nextJob && (id in s.jobs <==> id in s'.jobs) && (id in s.jobs ==> s'.jobs[id] == s.jobs[id])
  }

  lemma {:induction false} FinishWaits(key: string, l: Local, s: Shared, replies: seq<Reply>, id: nat, desired: Json)
    requires Tracked(key, l, s, id, desired) && Waiting(l.pc, s, id)
    ensures
      var r := Finish(key, l, s, replies);
      && Tracked(key, r.0, r.1, id, desired) && SameJob(s, r.1, id) && r.0.log.writes == l.log.writes
    decreases |replies|
  {
    if !l.pc.Idle? && |replies| > 0 {
      var r := Worker(key, l, s, replies[0]);
      if l.pc.Recorded? { Cleaned(key, l, s, replies[0]); }
      assert SameJob(s, r.1, id) && Waiting(r.0.pc, r.1, id) && Tracked(key, r.0, r.1, id, desired);
      FinishWaits(key, r.0, r.1, replies[1..], id, desired);
    }
  }

  /** Drift rewrites the Secret and leaves a new, recorded, running Job. */
  lemma SpawnRound(key: string, l: Local, s: Shared, replies: seq<Reply>, desired: Json)
    requires Fit(l, s, desired) && SixDone(replies) && Drift(l.config, desired, ComparedAt(s, replies))
    ensures
      var r := ReconcileOnce(key, l, s, replies);
      && Tracked(key, r.0, r.1, s.nextJob, desired) && Last(r.0.log.writes).at > s.now
      && s.nextJob in r.1.jobs && r.1.jobs[s.nextJob].carried.None? && JobVerdict(r.1.jobs[s.nextJob].conditions) == Running
  {
    var o, id := l.realm.value, s.nextJob;
    var d, s3, rest := Compared(key, l, s, replies, desired);
    var l3 := l.(pc := Drifted(o, d));
    var r4 := Worker(key, l3, s3, rest[0]);
    assert r4.0.pc == Stored(o, d) && r4.0.config == Some(ConfigSecret(desired, Some(Trunc(r4.1.now))));
    assert Last(r4.0.log.writes) == Write(desired, r4.1.now);
    var r5 := Worker(key, r4.0, r4.1, rest[1]);
    assert r5.0 == r4.0.(pc := Spawned(o, d, id)) && id in r5.1.jobs && !Terminal(r5.1.jobs[id]);
    var r6 := Worker(key, r5.0, r5.1, rest[2]);
    assert r6.0.pc == Recorded(o, d, Some(id)) && Tracked(key, r6.0, r6.1, id, desired);
    assert rest[1..][0] == rest[1] && rest[1..][1..] == rest[2..];
    assert rest[2..][0] == rest[2] && rest[2..][1..] == rest[3..];
    assert Finish(key, l3, s3, rest) == Finish(key, r4.0, r4.1, rest[1..]) == Finish(key, r5.0, r5.1, rest[2..])
        == Finish(key, r6.0, r6.1, rest[3..]);
    FinishWaits(key, r6.0, r6.1, rest[3..], id, desired);
  }
}
