/**
 Where the code does less than its documentation says, shown on concrete runs from an empty cluster:
 a Ready that vouches for a payload no Job has read, finalizers removed although what was applied lists
 the child, and an observed generation whose spec was never built. `Theorems` and `Handshake` state the
 exact conditions under which these happen.
 */
module Counterexamples {
  import opened Wrappers
  import opened Api
  import opened Json
  import opened Export
  import opened Builder
  import opened BuilderLaws
  import opened Protocol
  import opened World
  import opened Runs
  import opened Rounds
  import opened Theorems
  import opened Handshake

  // ----- building runs -----------------------------------------------------------------------

  ghost predicate CanReach(w: World) { exists w0, acts :: Reachable(w0, acts, w) }

  lemma Then(w: World, a: Action)
    requires CanReach(w) && Enabled(w, a)
    ensures CanReach(Apply(w, a))
  {
    var w0, acts :| Reachable(w0, acts, w);
    assert [a][1..] == [] && ValidRun(Apply(w, a), []);
    RunOn(w0, acts, [a]);
    assert Reachable(w0, acts + [a], Apply(w, a));
  }

  function Put(w: World, key: string, r: (Local, Shared)): World {
    w.(locals := w.locals[key := r.0], shared := r.1)
  }

  lemma OneCall(w: World, key: string, reply: Reply)
    requires CanReach(w) && key in w.locals
    ensures CanReach(Put(w, key, Worker(key, w.locals[key], w.shared, reply)))
  {
    hide CanReach;
    Then(w, Work(key, reply));
    assert Apply(w, Work(key, reply)) == Put(w, key, Worker(key, w.locals[key], w.shared, reply));
  }

  lemma {:induction false} Calls(w: World, key: string, replies: seq<Reply>)
    requires CanReach(w) && key in w.locals
    ensures CanReach(Put(w, key, Finish(key, w.locals[key], w.shared, replies)))
    decreases |replies|
  {
    hide CanReach;
    var l, r := w.locals[key], Finish(key, w.locals[key], w.shared, replies);
    if l.pc.Idle? || |replies| == 0 {
      assert w.locals[key := l] == w.locals;
      assert Put(w, key, r) == w;
    } else {
      var w1 := Put(w, key, Worker(key, l, w.shared, replies[0]));
      OneCall(w, key, replies[0]);
      Calls(w1, key, replies[1..]);
      assert Put(w1, key, r) == Put(w, key, r);
    }
  }

  lemma Reconciles(w: World, key: string, replies: seq<Reply>)
    requires CanReach(w) && key in w.locals && |replies| >= LONGEST
    ensures CanReach(Put(w, key, ReconcileOnce(key, w.locals[key], w.shared, replies)))
  {
    hide CanReach;
    var w1 := Put(w, key, Worker(key, w.locals[key], w.shared, replies[0]));
    OneCall(w, key, replies[0]);
    Calls(w1, key, replies[1..]);
    var r := ReconcileOnce(key, w.locals[key], w.shared, replies);
    assert Put(w1, key, r) == Put(w, key, r);
  }

  // ----- what a reconcile leaves alone -------------------------------------------------------

  const GOOD := Reply(Ok, 0, [], {})
  const BAD := Reply(Rejected, 0, [], {})

  predicate SameRealm(o: Realm, o': Realm) {
    && o' == o.(status := o'.status, annotations := o'.annotations)
    && (SYNC_REQUESTED !in o.annotations ==> SYNC_REQUESTED !in o'.annotations)
  }

  ghost predicate Kept(l: Local, s: Shared, r: (Local, Shared), calls: nat) {
    && l.realm.Some? && r.0.realm.Some? && SameRealm(l.realm.value, r.0.realm.value)
    && l.log.readies <= r.0.log.readies && l.log.writes <= r.0.log.writes
    && r.1.ns == s.ns && r.1.render == s.render && s.now <= r.1.now <= s.now + calls
  }

  lemma {:induction false} FinishKept(key: string, l: Local, s: Shared, replies: seq<Reply>)
    requires l.realm.Some? && !l.pc.Adopting? && !l.pc.Releasing?
    requires forall i :: 0 <= i < |replies| ==> replies[i].dt == 0
    ensures Kept(l, s, Finish(key, l, s, replies), |replies|)
    decreases |replies|
  {
    if !l.pc.Idle? && |replies| > 0 {
      var r := Worker(key, l, s, replies[0]);
      assert Kept(l, s, r, 1) && !r.0.pc.Adopting? && !r.0.pc.Releasing?;
      FinishKept(key, r.0, r.1, replies[1..]);
    }
  }

  lemma ReconcileKept(key: string, l: Local, s: Shared, replies: seq<Reply>, desired: Json)
    requires Fit(l, s, desired) && |replies| >= LONGEST && replies[0].Done()
    requires forall i :: 0 <= i < |replies| ==> replies[i].dt == 0
    ensures Kept(l, s, ReconcileOnce(key, l, s, replies), |replies|)
  {
    var r := Worker(key, l, s, replies[0]);
    assert r == (l.(pc := Fetched(l.realm.value)), s.(now := s.now + 1));
    FinishKept(key, r.0, r.1, replies[1..]);
  }

  // ----- the common beginning ----------------------------------------------------------------

  const SPEC := RealmSpec("r", "", None, None, None, None, "", "", "", "", "", None, None, "", None)
  const EDITED := SPEC.(enabled := Some(false))
  const CHILD := Obj(Meta("g", 0, 1, None, true), "r", GroupSpec("g", "", None, None))
  const NS := EMPTY.(groups := [CHILD])

  function Document(spec: RealmSpec): Json { Marshal(RealmExport(spec, [], [], [CHILD.spec], [], [], [])) }

  lemma Documents()
    ensures Payload(SPEC, NS) == Some(Document(SPEC)) && Payload(EDITED, NS) == Some(Document(EDITED))
    ensures Document(SPEC) != Document(EDITED)
  {
    OneGroup(SPEC, CHILD);
    OneGroup(EDITED, CHILD);
    var a, b := Build(SPEC, NS).value, Build(EDITED, NS).value;
    PayloadExact(a, b);
    assert Norm(a).realm == NormSpec(SPEC) && Norm(b).realm == NormSpec(EDITED);
    assert NormSpec(SPEC).enabled != NormSpec(EDITED).enabled;
  }

  lemma DocumentWithoutChild()
    ensures SurviveAll(NS, {0}) == EMPTY && Payload(SPEC, EMPTY).Some? && Payload(SPEC, EMPTY) != Some(Document(SPEC))
    ensures 0 in Live(NS)
  {
    OneGroup(SPEC, CHILD);
    GroupRefs(CHILD);
    assert ToRef(CHILD) in Refs(NS);
  }

  lemma AtStart(w: World)
    requires Init(w)
    ensures CanReach(w)
  {
    assert Reachable(w, [], w);
  }

  /** An empty cluster in which a child is created, then a Realm object. */
  lemma Created(key: string) returns (w: World)
    ensures CanReach(w) && w == World(Shared(2, NS, map[], 0, false, Payload), map[key := NewRealm(1, SPEC)], 2, [])
  {
    hide CanReach;
    var w0 := World(Shared(0, EMPTY, map[], 0, false, Payload), map[], 0, []);
    var w1 := w0.(shared := w0.shared.(now := 1, ns := NS), nextUid := 1);
    GroupRefs(CHILD);
    AtStart(w0);
    Then(w0, Children(NS, 1, 0));
    assert Apply(w0, Children(NS, 1, 0)) == w1;
    Then(w1, CreateRealm(key, SPEC, 0));
    w := Apply(w1, CreateRealm(key, SPEC, 0));
  }

  /** The first reconcile adopts the Realm. */
  lemma Adopted(key: string) returns (w: World)
    ensures CanReach(w) && w.shared == Shared(4, NS, map[], 0, false, Payload)
    ensures w.locals.Keys == {key} && w.approvals == [] && w.nextUid == 2
    ensures
      w.locals[key] == Local(Some(Realm(1, SPEC, 0, None, true, map[], NO_STATUS)), None, Idle, Log([], [SPEC], [], false))
  {
    hide CanReach;
    var w2 := Created(key);
    OneCall(w2, key, GOOD);
    var w3 := Put(w2, key, Worker(key, w2.locals[key], w2.shared, GOOD));
    OneCall(w3, key, GOOD);
    w := Put(w3, key, Worker(key, w3.locals[key], w3.shared, GOOD));
  }

  const TEN: seq<Reply> := [GOOD, GOOD, GOOD, GOOD, GOOD, GOOD, GOOD, GOOD, GOOD, GOOD]

  lemma JobsBelow(w: World)
    requires CanReach(w)
    ensures forall j :: j in w.shared.jobs ==> j < w.shared.nextJob
  {
    var w0, acts :| Reachable(w0, acts, w);
    ReachableInv(w0, acts, w);
  }

  /** A Realm between two reconciles: adopted, not deleted, no trigger pending, and what it builds. */
  ghost predicate Poised(w: World, key: string, desired: Json) {
    && HasRealm(w, key) && w.locals[key].pc.Idle? && w.shared.render == Payload
    && var o := w.locals[key].realm.value;
       && o.deletedAt.None? && o.finalizer && SYNC_REQUESTED !in o.annotations
       && Payload(o.spec, w.shared.ns) == Some(desired)
  }

  /** Time has passed and the Realm has been at work; everything else is as it was. */
  ghost predicate Onwards(v: World, w: World, key: string) {
    && HasRealm(v, key) && HasRealm(w, key) && SameRealm(v.locals[key].realm.value, w.locals[key].realm.value)
    && v.locals[key].log.readies <= w.locals[key].log.readies && v.locals[key].log.writes <= w.locals[key].log.writes
    && w.locals.Keys == v.locals.Keys && w.approvals == v.approvals && w.nextUid == v.nextUid
    && w.shared.ns == v.shared.ns && w.shared.render == v.shared.render && v.shared.now <= w.shared.now
  }

  /** A round that drifts. */
  lemma Spawned(v: World, key: string, desired: Json) returns (w: World, id: nat)
    requires CanReach(v) && Poised(v, key, desired) && Drift(v.locals[key].config, desired, v.shared.now + 3)
    ensures CanReach(w) && Onwards(v, w, key) && w.locals[key].pc.Idle? && w.shared.now <= v.shared.now + 10
    ensures Tracked(key, w.locals[key], w.shared, id, desired) && Last(w.locals[key].log.writes).at > v.shared.now
    ensures id in w.shared.jobs && JobVerdict(w.shared.jobs[id].conditions) == Running
  {
    hide CanReach, ReconcileOnce, Payload, Worker, Finish, Tracked;
    JobsBelow(v);
    Reconciles(v, key, TEN);
    SpawnRound(key, v.locals[key], v.shared, TEN, desired);
    ReconcileKept(key, v.locals[key], v.shared, TEN, desired);
    ReconcileEnds(key, v.locals[key], v.shared, TEN);
    w, id := Put(v, key, ReconcileOnce(key, v.locals[key], v.shared, TEN)), v.shared.nextJob;
  }

  /** The new Job reads the Secret. */
  lemma SpawnedAndRead(v: World, key: string, desired: Json) returns (w: World, id: nat)
    requires CanReach(v) && Poised(v, key, desired) && Drift(v.locals[key].config, desired, v.shared.now + 3)
    ensures CanReach(w) && Onwards(v, w, key) && w.locals[key].pc.Idle? && w.shared.now <= v.shared.now + 11
    ensures Tracked(key, w.locals[key], w.shared, id, desired) && Last(w.locals[key].log.writes).at > v.shared.now
    ensures id in w.shared.jobs && JobVerdict(w.shared.jobs[id].conditions) == Running
    ensures w.shared.jobs[id].carried == Some(|w.locals[key].log.writes| - 1)
  {
    hide CanReach, Payload;
    var u;
    u, id := Spawned(v, key, desired);
    Then(u, JobReads(id, 0));
    w := Apply(u, JobReads(id, 0));
  }

  lemma JobEndsWell(v: World, id: nat) returns (w: World)
    requires CanReach(v) && id in v.shared.jobs && v.shared.jobs[id].carried.Some?
    requires JobVerdict(v.shared.jobs[id].conditions) == Running
    ensures CanReach(w) && id in w.shared.jobs && JobVerdict(w.shared.jobs[id].conditions) == Succeeded
    ensures w.shared.jobs[id].mounts == v.shared.jobs[id].mounts && w.shared.jobs[id].carried == v.shared.jobs[id].carried
    ensures w == v.(shared := v.shared.(now := v.shared.now + 1, jobs := w.shared.jobs))
  {
    hide CanReach;
    var c := JobCondition(Complete, true);
    VerdictStable(v.shared.jobs[id].conditions, c);
    assert JobVerdict([c]) == Succeeded;
    Then(v, JobEnds(id, c, 0));
    w := Apply(v, JobEnds(id, c, 0));
  }

  lemma EditSpec(v: World, key: string, spec: RealmSpec) returns (w: World)
    requires CanReach(v) && HasRealm(v, key) && v.locals[key].realm.value.spec != spec
    ensures CanReach(w) && key in w.locals
    ensures
      var l := v.locals[key];
      var o := l.realm.value.(spec := spec, generation := l.realm.value.generation + 1);
      && w.locals[key] == l.(realm := Some(o), log := l.log.(specs := l.log.specs + [spec]))
      && w == v.(locals := v.locals[key := w.locals[key]], shared := v.shared.(now := v.shared.now + 1))
  {
    hide CanReach, Worker, Refs, Evolves, Safe;
    Then(v, EditRealm(key, spec, 0));
    w := Apply(v, EditRealm(key, spec, 0));
  }

  // ----- a Ready that no Job stands behind ---------------------------------------------------

  /** The Secret is rewritten, creating the Job fails, and the failure is reported if that call lands. */
  lemma RejectedRound(key: string, l: Local, s: Shared, replies: seq<Reply>, desired: Json)
    requires Fit(l, s, desired) && ComparisonDone(replies) && Drift(l.config, desired, ComparedAt(s, replies))
    requires replies[3].Done() && replies[4].outcome == Rejected
    ensures
      var r := ReconcileOnce(key, l, s, replies);
      var stored := ComparedAt(s, replies) + 1 + replies[3].dt;
      var end := stored + 2 + replies[4].dt + replies[5].dt;
      && r.1 == s.(now := end) && r.0.pc.Idle?
      && r.0.realm == (if replies[5].Lands() then PutStatus(l.realm, Broke(Keep), end) else l.realm)
      && r.0.config == Some(ConfigSecret(desired, Some(Trunc(stored))))
      && r.0.log.writes == l.log.writes + [Write(desired, stored)]
  {
    var o := l.realm.value;
    var d, s3, rest := Compared(key, l, s, replies, desired);
    var l3 := l.(pc := Drifted(o, d));
    var r4 := Worker(key, l3, s3, rest[0]);
    assert r4.0.pc == Stored(o, d) && r4.1 == s.(now := ComparedAt(s, replies) + 1 + replies[3].dt);
    var r5 := Worker(key, r4.0, r4.1, rest[1]);
    assert r5 == (r4.0.(pc := Failing), s.(now := r4.1.now + 1 + replies[4].dt));
    var r6 := Worker(key, r5.0, r5.1, rest[2]);
    assert rest[1..][0] == rest[1] && rest[1..][1..] == rest[2..];
    assert rest[2..][0] == rest[2] && rest[2..][1..] == rest[3..];
    assert Finish(key, l3, s3, rest) == Finish(key, r4.0, r4.1, rest[1..]) == Finish(key, r5.0, r5.1, rest[2..])
        == Finish(key, r6.0, r6.1, rest[3..]) == r6;
  }

  const UNLUCKY: seq<Reply> := [GOOD, GOOD, GOOD, GOOD, BAD, GOOD, GOOD, GOOD, GOOD, GOOD]

  /** The spec is edited while the Job runs, and the Job for the edited spec cannot be created. */
  lemma EditedInVain() returns (w: World, id: nat)
    ensures CanReach(w) && Poised(w, "r", Document(EDITED)) && w.shared.now <= 22
    ensures
      var l := w.locals["r"];
      && l.realm.value.status.activeJob == Some(id) && id in w.shared.jobs
      && JobVerdict(w.shared.jobs[id].conditions) == Running
      && l.config.Some? && l.config.value.payload == Document(EDITED) && l.config.value.lastSync.Some?
      && w.shared.jobs[id].carried.Some? && w.shared.jobs[id].carried.value < |l.log.writes|
      && l.log.writes[w.shared.jobs[id].carried.value].payload == Document(SPEC)
  {
    hide CanReach, ReconcileOnce, Document, Payload, Worker, Finish;
    Documents();
    var t := Adopted("r");
    var u;
    u, id := SpawnedAndRead(t, "r", Document(SPEC));
    var v := EditSpec(u, "r", EDITED);
    JobsBelow(v);
    Reconciles(v, "r", UNLUCKY);
    RejectedRound("r", v.locals["r"], v.shared, UNLUCKY, Document(EDITED));
    w := Put(v, "r", ReconcileOnce("r", v.locals["r"], v.shared, UNLUCKY));
  }

  /**
   Ready is not truthful in every run. The next reconcile finds the Secret up to date, skips, observes
   the old Job succeed, and reports Ready for a payload that no Job has read.
   */
  lemma StaleReady() returns (w: World)
    ensures CanReach(w) && HasRealm(w, "r") && w.locals["r"].realm.value.status.ready
    ensures
      var l := w.locals["r"];
      && |l.log.readies| > 0
      && var r := Last(l.log.readies);
         && Payload(l.realm.value.spec, w.shared.ns) == Some(r.d.payload)
         && r.seen.job.carried.Some? && r.seen.job.carried.value < |l.log.writes| && Carried(l, r) != r.d.payload
  {
    hide CanReach, ReconcileOnce, Document, Payload, Worker, Finish;
    var u, id := EditedInVain();
    var v := JobEndsWell(u, id);
    Documents();
    JobsBelow(v);
    Reconciles(v, "r", TEN);
    ReadyRound("r", v.locals["r"], v.shared, TEN, Document(EDITED), id);
    ReconcileKept("r", v.locals["r"], v.shared, TEN, Document(EDITED));
    w := Put(v, "r", ReconcileOnce("r", v.locals["r"], v.shared, TEN));
  }

  // ----- what happens between a build and the Ready it leads to ------------------------------

  /** A reconcile that has observed the success and is about to write Ready. */
  lemma Observes(key: string, l: Local, s: Shared, desired: Json, id: nat) returns (d: Desired)
    requires Fit(l, s, desired) && !Drift(l.config, desired, s.now + 3)
    requires l.realm.value.status.activeJob == Some(id) && SYNC_REQUESTED !in l.realm.value.annotations
    requires id in s.jobs && JobVerdict(s.jobs[id].conditions) == Succeeded
    ensures d == Desired(l.realm.value.spec, l.realm.value.generation, s.ns, s.now + 2, desired)
    ensures
      var first := Worker(key, l, s, GOOD);
      var r := Finish(key, first.0, first.1, [GOOD, GOOD, GOOD, GOOD]);
      && r.0 == l.(pc := Writing(d, StatusUpdate(Synced, d.spec.realmName, Track(None)), Some(Seen(id, s.jobs[id]))))
      && r.1 == s.(now := s.now + 5, jobs := r.1.jobs)
  {
    var o := l.realm.value;
    d := Desired(o.spec, o.generation, s.ns, s.now + 2, desired);
    var r1 := Worker(key, l, s, GOOD);
    assert r1 == (l.(pc := Fetched(o)), s.(now := s.now + 1));
    var r2 := Worker(key, r1.0, r1.1, GOOD);
    assert r2 == (l.(pc := Built(o, d)), s.(now := s.now + 2));
    var r3 := Worker(key, r2.0, r2.1, GOOD);
    assert r3 == (l.(pc := Recorded(o, d, None)), s.(now := s.now + 3));
    Cleaned(key, r3.0, r3.1, GOOD);
    var r4 := Worker(key, r3.0, r3.1, GOOD);
    var r5 := Worker(key, r4.0, r4.1, GOOD);
    assert r5 == (r5.0, s.(now := s.now + 5, jobs := r4.1.jobs));
    var four, three, two, one := [GOOD, GOOD, GOOD, GOOD], [GOOD, GOOD, GOOD], [GOOD, GOOD], [GOOD];
    assert four[1..] == three && three[1..] == two && two[1..] == one && one[1..] == [];
    assert Finish(key, r1.0, r1.1, four) == Finish(key, r2.0, r2.1, three) == Finish(key, r3.0, r3.1, two)
        == Finish(key, r4.0, r4.1, one) == Finish(key, r5.0, r5.1, []) == r5;
  }

  /** The call that is due is to write Ready for this build, on a completed Job that read its payload. */
  ghost predicate Reporting(w: World, key: string, d: Desired, seen: Seen) {
    && HasRealm(w, key)
    && var l := w.locals[key];
       && l.pc == Writing(d, StatusUpdate(Synced, d.spec.realmName, Track(None)), Some(seen))
       && l.config.Some? && l.config.value.payload == d.payload
       && seen.job.carried.Some? && seen.job.carried.value < |l.log.writes|
       && l.log.writes[seen.job.carried.value].payload == d.payload
  }

  /** Drift, spawn, success, and the next reconcile up to its last call. */
  lemma SyncsUpToReport(v: World, key: string, desired: Json) returns (w: World, d: Desired, seen: Seen)
    requires CanReach(v) && Poised(v, key, desired) && Drift(v.locals[key].config, desired, v.shared.now + 3)
    ensures CanReach(w) && Onwards(v, w, key) && w.shared.now <= v.shared.now + 17 && Reporting(w, key, d, seen)
    ensures
      var o := v.locals[key].realm.value;
      d.ns == v.shared.ns && d.spec == o.spec && d.generation == o.generation && d.payload == desired
    ensures d.readAt <= w.shared.now
  {
    hide CanReach, Payload, Worker, Finish;
    var t, id := SpawnedAndRead(v, key, desired);
    var u := JobEndsWell(t, id);
    JobsBelow(u);
    d := Observes(key, u.locals[key], u.shared, desired, id);
    seen := Seen(id, u.shared.jobs[id]);
    OneCall(u, key, GOOD);
    var first := Worker(key, u.locals[key], u.shared, GOOD);
    var u1 := Put(u, key, first);
    Calls(u1, key, [GOOD, GOOD, GOOD, GOOD]);
    w := Put(u1, key, Finish(key, first.0, first.1, [GOOD, GOOD, GOOD, GOOD]));
  }

  lemma AboutToReport(key: string) returns (w: World, d: Desired, seen: Seen)
    ensures CanReach(w) && Reporting(w, key, d, seen) && 4 <= w.shared.now <= 21
    ensures w.locals.Keys == {key} && w.approvals == [] && w.nextUid == 2
    ensures w.shared.ns == NS && w.shared.render == Payload
    ensures d.ns == NS && d.spec == SPEC && d.generation == 0 && d.payload == Document(SPEC)
    ensures
      var o := w.locals[key].realm.value;
      o.spec == SPEC && o.generation == 0 && o.deletedAt.None? && o.finalizer && SYNC_REQUESTED !in o.annotations
  {
    hide CanReach, Document, Payload, Worker;
    Documents();
    var v := Adopted(key);
    w, d, seen := SyncsUpToReport(v, key, Document(SPEC));
  }

  /**
   ObservedGeneration is not always truthful. The spec is edited after it was built and before Ready is
   written, and the write takes the generation from the edited object.
   */
  lemma StaleGeneration() returns (w: World)
    ensures CanReach(w) && HasRealm(w, "r")
    ensures
      var l := w.locals["r"];
      var o := l.realm.value;
      && o.status.ready && o.status.observedGeneration == o.generation && |l.log.readies| > 0
      && !CarriesFields(Last(l.log.readies).d.payload, o.spec)
  {
    hide CanReach, Document, Payload, CarriesFields;
    var u, d, seen := AboutToReport("r");
    var v := EditSpec(u, "r", EDITED);
    OneCall(v, "r", GOOD);
    w := Put(v, "r", Worker("r", v.locals["r"], v.shared, GOOD));
    Documents();
    RealmFieldsOf(SPEC, NS, Document(SPEC), EDITED);
    assert NormSpec(SPEC).enabled != NormSpec(EDITED).enabled;
  }

  /** Equal generations are not necessary: an edit from nil to an empty list does no harm there. */
  lemma HarmlessEdit() returns (w: World)
    ensures CanReach(w) && HasRealm(w, "r")
    ensures
      var l := w.locals["r"];
      var o := l.realm.value;
      && o.status.ready && o.status.observedGeneration == o.generation && |l.log.readies| > 0
      && Last(l.log.readies).d.generation != Last(l.log.readies).generation
      && CarriesFields(Last(l.log.readies).d.payload, o.spec)
  {
    hide CanReach, Document, Payload, CarriesFields;
    var u, d, seen := AboutToReport("r");
    var spec := SPEC.(supportedLocales := Some([]));
    var v := EditSpec(u, "r", spec);
    OneCall(v, "r", GOOD);
    w := Put(v, "r", Worker("r", v.locals["r"], v.shared, GOOD));
    Documents();
    RealmFieldsOf(SPEC, NS, Document(SPEC), spec);
  }

  // ----- children let go too early -----------------------------------------------------------

  const SLOW := Reply(Ok, 2 * SECOND, [], {})

  /** The call that was due writes Ready. */
  lemma Reports(u: World, key: string, d: Desired, seen: Seen, reply: Reply) returns (w: World)
    requires CanReach(u) && Reporting(u, key, d, seen) && reply.Done()
    ensures CanReach(w) && HasRealm(w, key)
    ensures w.locals == u.locals[key := w.locals[key]] && w == u.(locals := w.locals, shared := w.shared)
    ensures w.shared == u.shared.(now := u.shared.now + 1 + reply.dt)
    ensures
      var l, l' := u.locals[key], w.locals[key];
      && l'.pc.Idle? && l'.config == l.config && l'.log.writes == l.log.writes
      && l'.realm.value == l.realm.value.(status := l'.realm.value.status)
      && l'.realm.value.status.ready && l'.realm.value.status.lastSync == Some(Trunc(w.shared.now))
      && |l'.log.readies| == |l.log.readies| + 1 && l.log.readies <= l'.log.readies
      && Last(l'.log.readies).d == d && Last(l'.log.readies).seen == seen && Last(l'.log.readies).at == w.shared.now
  {
    hide CanReach;
    OneCall(u, key, reply);
    w := Put(u, key, Worker(key, u.locals[key], u.shared, reply));
  }

  /** The one child changes. */
  lemma ChildChanges(u: World, c: Obj<GroupSpec>, c': Obj<GroupSpec>) returns (v: World)
    requires CanReach(u) && u.shared.ns == EMPTY.(groups := [c]) && u.nextUid == 2
    requires c.meta.uid == 0 && Later(ToRef(c), ToRef(c'), u.shared.now + 1)
    requires c'.meta.created <= u.shared.now + 1 && (c'.meta.deletedAt.Some? ==> c'.meta.deletedAt.value <= u.shared.now + 1)
    ensures CanReach(v) && v == u.(shared := u.shared.(now := u.shared.now + 1, ns := EMPTY.(groups := [c'])))
  {
    hide CanReach;
    var ns := EMPTY.(groups := [c']);
    GroupRefs(c);
    GroupRefs(c');
    Then(u, Children(ns, 2, 0));
    v := Apply(u, Children(ns, 2, 0));
  }

  function Dying(c: Obj<GroupSpec>, t: nat): Obj<GroupSpec> { c.(meta := c.meta.(deletedAt := Some(t))) }

  lemma LetGoNow(u: World, c: Obj<GroupSpec>) returns (w: World)
    requires CanReach(u) && u.shared.ns == EMPTY.(groups := [c]) && c.meta.finalizer && Safe(u, ToRef(c))
    ensures CanReach(w) && w.locals == u.locals && |w.approvals| == |u.approvals| + 1
    ensures Last(w.approvals).ref == ToRef(c) && Last(w.approvals).realms == RealmNames(u)
    ensures HasRealm(u, c.realmRef) && |u.locals[c.realmRef].log.readies| > 0 ==>
      Last(w.approvals).record == Some(|u.locals[c.realmRef].log.readies| - 1)
  {
    hide CanReach, Safe;
    GroupRefs(c);
    Then(u, Approve(ToRef(c), 0));
    w := Apply(u, Approve(ToRef(c), 0));
  }

  /** A completed Job stands for a payload that lists the child. */
  ghost predicate Applied(l: Local, r: ReadyRecord, uid: nat) {
    && Lists(r.d, uid)
    && r.seen.job.carried.Some? && r.seen.job.carried.value < |l.log.writes| && Carried(l, r) == r.d.payload
  }

  lemma AppliedHere(w: World, key: string, d: Desired, seen: Seen)
    requires HasRealm(w, key) && |w.locals[key].log.readies| > 0
    requires Last(w.locals[key].log.readies).d == d && Last(w.locals[key].log.readies).seen == seen
    requires d.ns == NS && d.spec == SPEC && d.payload == Document(SPEC)
    requires seen.job.carried.Some? && seen.job.carried.value < |w.locals[key].log.writes|
    requires w.locals[key].log.writes[seen.job.carried.value].payload == d.payload
    ensures Applied(w.locals[key], Last(w.locals[key].log.readies), 0) && SawAs(d.ns, 0, "r")
  {
    hide Document, Payload;
    DocumentWithoutChild();
    GroupRefs(CHILD);
    assert ToRef(CHILD) in Refs(NS);
  }

  lemma AppliedOn(l: Local, l': Local, r: ReadyRecord, uid: nat)
    requires Applied(l, r, uid) && l.log.writes <= l'.log.writes
    ensures Applied(l', r, uid)
  {
  }

  /** The common part: the Realm is Ready on a payload that lists the child, and a Job has applied it. */
  lemma ReadyWithChild(key: string) returns (w: World, d: Desired)
    ensures CanReach(w) && HasRealm(w, key) && w.locals.Keys == {key} && w.approvals == [] && w.nextUid == 2
    ensures w.shared.ns == NS && w.shared.render == Payload && 4 <= w.shared.now <= 22
    ensures
      var l := w.locals[key];
      && l.pc.Idle? && l.realm.value.status.ready && l.realm.value.spec == SPEC && l.realm.value.deletedAt.None?
      && l.realm.value.finalizer && SYNC_REQUESTED !in l.realm.value.annotations
      && l.config.Some? && l.config.value.payload == Document(SPEC)
      && |l.log.readies| > 0 && Last(l.log.readies).at == w.shared.now && Last(l.log.readies).d == d
      && Applied(l, Last(l.log.readies), 0)
    ensures d.spec == SPEC && SawAs(d.ns, 0, "r")
  {
    hide CanReach, Document, Payload, Worker, Applied, SawAs;
    var u, seen;
    u, d, seen := AboutToReport(key);
    w := Reports(u, key, d, seen, GOOD);
    AppliedHere(w, key, d, seen);
  }

  /**
   The finalizer handshake is not always safe. The child is deleted between the build and its Ready,
   which lets the child go although what the observed Job applied lists it.
   */
  lemma DeletedTooLate() returns (w: World)
    ensures CanReach(w) && |w.approvals| == 1 && !w.approvals[0].Gone()
    ensures
      var p := w.approvals[0];
      && p.ref.uid == 0 && p.ref.realmRef in w.locals && p.record.Some?
      && var l := w.locals[p.ref.realmRef];
         p.record.value < |l.log.readies| && Applied(l, l.log.readies[p.record.value], 0)
  {
    hide CanReach, Document, Payload, Applied, Worker, SawAs;
    var u, d, seen := AboutToReport("r");
    var dying := Dying(CHILD, u.shared.now + 1);
    var v := ChildChanges(u, CHILD, dying);
    var x := Reports(v, "r", d, seen, SLOW);
    AppliedHere(x, "r", d, seen);
    assert Trunc(x.shared.now) == 2 * SECOND;
    w := LetGoNow(x, dying);
  }

  /** Let go at once: the Realm that applied the child stays Ready, and has not synced since the deletion. */
  ghost predicate NeverAsked(w: World, key: string) {
    && |w.approvals| == 1 && w.approvals[0].Gone() && HasRealm(w, key) && w.locals[key].realm.value.status.ready
    && |w.locals[key].log.readies| > 0
    && var p, r := w.approvals[0], Last(w.locals[key].log.readies);
       p.ref.uid == 0 && p.ref.deletedAt.Some? && r.at < p.ref.deletedAt.value && Applied(w.locals[key], r, 0)
  }

  /**
   A Realm object with another name than its realmName. The child refers to the realmName, is exported
   and applied, then deleted; no Realm object bears the name it refers to.
   */
  lemma UnaskedRealm(key: string) returns (w: World)
    requires key != SPEC.realmName
    ensures CanReach(w) && NeverAsked(w, key)
    ensures ListedMisnamed(key, Last(w.locals[key].log.readies).d, w.approvals[0].ref)
  {
    hide CanReach, Document, Payload, Applied, Worker, SawAs;
    var v, d := ReadyWithChild(key);
    var dying := Dying(CHILD, v.shared.now + 1);
    var x := ChildChanges(v, CHILD, dying);
    w := LetGoNow(x, dying);
  }

  /**
   The names agree, but the child is pointed to another Realm before it is deleted. The Realm that has
   applied it is not asked.
   */
  lemma EditedReference() returns (w: World)
    ensures CanReach(w) && NeverAsked(w, "r") && w.locals["r"].realm.value.spec.realmName == "r"
    ensures ListedBeforeEdit("r", Last(w.locals["r"].log.readies).d, w.approvals[0].ref)
  {
    hide CanReach, Document, Payload, Applied, Worker, SawAs;
    var v, d := ReadyWithChild("r");
    var moved := CHILD.(realmRef := "x");
    var x := ChildChanges(v, CHILD, moved);
    var dying := Dying(moved, x.shared.now + 1);
    var y := ChildChanges(x, moved, dying);
    w := LetGoNow(y, dying);
  }

  const RENAMED := SPEC.(realmName := "s")

  /** The document of the renamed realm, without the child. */
  lemma RenamedDocument(c: Obj<GroupSpec>) returns (desired: Json)
    requires c.realmRef == "r" && c.meta.Deleting()
    ensures Payload(RENAMED, EMPTY.(groups := [c])) == Some(desired) && desired != Document(SPEC)
  {
    CollectOne(c, "s", Same<GroupSpec>());
    OneGroup(SPEC, CHILD);
    var a, b := Build(RENAMED, EMPTY.(groups := [c])).value, Build(SPEC, NS).value;
    desired := Marshal(a);
    PayloadExact(a, b);
    assert Norm(a).realm == NormSpec(RENAMED) && Norm(b).realm == NormSpec(SPEC);
    assert NormSpec(RENAMED).realmName != NormSpec(SPEC).realmName;
  }

  /**
   The realmName is edited before the child is deleted. The Realm is asked and gives evidence, but for
   another Keycloak realm than the one in which the child was applied.
   */
  lemma RenamedRealm() returns (w: World, j: nat)
    ensures CanReach(w) && |w.approvals| == 1 && !w.approvals[0].Gone() && "r" in w.locals
    ensures
      var p, l := w.approvals[0], w.locals["r"];
      && p.ref.uid == 0 && p.ref.realmRef == "r" && p.record.Some? && j < p.record.value < |l.log.readies|
      && Applied(l, l.log.readies[j], 0) && l.log.readies[j].d.spec.realmName == "r"
      && l.log.readies[p.record.value].d.spec.realmName == "s"
  {
    hide CanReach, Document, Payload, Applied, Worker, SawAs;
    var u, d := ReadyWithChild("r");
    j := |u.locals["r"].log.readies| - 1;
    var v := EditSpec(u, "r", RENAMED);
    var dying := Dying(CHILD, v.shared.now + 1);
    var x := ChildChanges(v, CHILD, dying);
    var desired := RenamedDocument(dying);
    var y, d', seen := SyncsUpToReport(x, "r", desired);
    var z := Reports(y, "r", d', seen, SLOW);
    assert Trunc(z.shared.now) == 2 * SECOND;
    AppliedOn(u.locals["r"], z.locals["r"], z.locals["r"].log.readies[j], 0);
    w := LetGoNow(z, dying);
  }
}
