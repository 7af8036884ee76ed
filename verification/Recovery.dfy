/**
 Recovery: from any Secret contents and any status, if the desired state stays fixed, the Realm becomes
 Ready with the desired payload. The first reconcile that compares five minutes past the recorded
 last-sync respawns at the latest; after that the Realm waits, through any number of reconciles, for one
 that finds the Job finished and no trigger. Between any two calls anything tolerated may happen.
 */
module Recovery {
  import opened Wrappers
  import opened Api
  import opened Json
  import opened Protocol
  import opened Interference
  import opened Rounds
  import opened World
  import opened Runs

  // ----- traces ------------------------------------------------------------------------------

  /** A call of one Realm's reconcile: the state it is made in, and its answer. */
  datatype Step = Step(l: Local, s: Shared, reply: Reply)

  function Next(key: string, st: Step): (Local, Shared) { Worker(key, st.l, st.s, st.reply) }

  function Answered(st: Step): nat { st.s.now + 1 + st.reply.dt }

  ghost predicate Linked(key: string, a: Step, b: Step) { Rely(key, Next(key, a).0, Next(key, a).1, b.l, b.s) }

  /** The calls of a Realm's reconciles, one after the other, with tolerated interference in between. */
  ghost predicate Trace(key: string, steps: seq<Step>) {
    forall i :: 0 < i < |steps| ==> Linked(key, steps[i - 1], steps[i])
  }

  lemma LinkedAt(key: string, steps: seq<Step>, i: nat)
    requires Trace(key, steps) && i + 1 < |steps|
    ensures Linked(key, steps[i], steps[i + 1])
  {
    assert steps[i + 1 - 1] == steps[i];
  }

  lemma RealmRelyOn(l: Local, m: Local, n: Local)
    requires RealmRely(l, m) && RealmRely(m, n)
    ensures RealmRely(l, n)
  {
  }

  lemma JobRelyOn(key: string, writes: seq<Write>, a: Job, b: Job, c: Job)
    requires JobRely(key, writes, a, b) && JobRely(key, writes, b, c)
    ensures JobRely(key, writes, a, c)
  {
  }

  lemma SharedRelyOn(key: string, l: Local, s: Shared, l1: Local, s1: Shared, s2: Shared)
    requires RealmRely(l, l1) && SharedRely(key, l, s, s1) && SharedRely(key, l1, s1, s2)
    requires forall j :: j in s.jobs ==> j < s.nextJob
    ensures SharedRely(key, l, s, s2)
  {
    forall j | j in s2.jobs && j < s.nextJob ensures j in s.jobs && JobRely(key, l.log.writes, s.jobs[j], s2.jobs[j]) {
      JobRelyOn(key, l.log.writes, s.jobs[j], s1.jobs[j], s2.jobs[j]);
    }
    forall j | j in s2.jobs && j >= s.nextJob
      ensures j < s2.nextJob && s2.jobs[j].mounts != key && s2.jobs[j].created <= s2.now
      ensures JobVerdict(s2.jobs[j].conditions) == Succeeded ==> s2.jobs[j].carried.Some?
    {
      if j < s1.nextJob { assert JobRely(key, l1.log.writes, s1.jobs[j], s2.jobs[j]); }
    }
    forall j | j in s.jobs && !s2.vanished && l.realm.Some? && l.realm.value.uid in s.jobs[j].owners
      ensures j in s2.jobs
    {
      assert j in s1.jobs && JobRely(key, l.log.writes, s.jobs[j], s1.jobs[j]);
    }
  }

  /** Interference after interference is interference. */
  lemma RelyOn(key: string, l: Local, s: Shared, l1: Local, s1: Shared, l2: Local, s2: Shared)
    requires Rely(key, l, s, l1, s1) && Rely(key, l1, s1, l2, s2) && forall j :: j in s.jobs ==> j < s.nextJob
    ensures Rely(key, l, s, l2, s2)
  {
    RealmRelyOn(l, l1, l2);
    SharedRelyOn(key, l, s, l1, s1, s2);
  }

  /** The calls of one Realm's reconciles in a run of the whole cluster. */
  ghost function StepsOf(w: World, acts: seq<Action>, key: string): seq<Step>
    requires ValidRun(w, acts) && key in w.locals
    decreases |acts|
  {
    if |acts| == 0 then []
    else
      StepKeepsKey(w, acts[0], key);
      var rest := StepsOf(Apply(w, acts[0]), acts[1..], key);
      if acts[0].Work? && acts[0].key == key then [Step(w.locals[key], w.shared, acts[0].reply)] + rest else rest
  }

  lemma StepKeepsKey(w: World, a: Action, key: string)
    requires Enabled(w, a) && key in w.locals
    ensures key in Apply(w, a).locals
  {
  }

  /** In every run they are a trace, so everything about traces is about runs. */
  lemma {:induction false} RunsAreTraces(w: World, acts: seq<Action>, key: string)
    requires WorldInv(w) && ValidRun(w, acts) && key in w.locals
    ensures
      var steps := StepsOf(w, acts, key);
      && Trace(key, steps)
      && (|steps| > 0 ==> Rely(key, w.locals[key], w.shared, steps[0].l, steps[0].s))
    decreases |acts|
  {
    if |acts| > 0 {
      var w1, rest := Apply(w, acts[0]), StepsOf(Apply(w, acts[0]), acts[1..], key);
      StepKeepsInv(w, acts[0]);
      RunsAreTraces(w1, acts[1..], key);
      if acts[0].Work? && acts[0].key == key {
        OwnStep(w, acts[0], key, rest);
      } else if |rest| > 0 {
        OtherStep(w, acts[0], key);
        RelyOn(key, w.locals[key], w.shared, w1.locals[key], w1.shared, rest[0].l, rest[0].s);
      }
    }
  }

  lemma OwnStep(w: World, a: Action, key: string, rest: seq<Step>)
    requires WorldInv(w) && Enabled(w, a) && key in w.locals && a.Work? && a.key == key && Trace(key, rest)
    requires |rest| > 0 ==> Rely(key, Apply(w, a).locals[key], Apply(w, a).shared, rest[0].l, rest[0].s)
    ensures
      var st := Step(w.locals[key], w.shared, a.reply);
      Trace(key, [st] + rest) && Rely(key, w.locals[key], w.shared, st.l, st.s)
  {
    hide Worker, Refs, Evolves, Safe, Rely;
    var st := Step(w.locals[key], w.shared, a.reply);
    var steps := [st] + rest;
    forall i | 0 < i < |steps| ensures Linked(key, steps[i - 1], steps[i]) {
      if i > 1 { assert Linked(key, rest[i - 2], rest[i - 1]); }
    }
    RelyRefl(w, key);
  }

  lemma RelyRefl(w: World, key: string)
    requires WorldInv(w) && key in w.locals
    ensures Rely(key, w.locals[key], w.shared, w.locals[key], w.shared)
  {
    assert SpecInv(w.locals[key]) && JobsInv(key, w.locals[key], w.shared) by {
      assert Inv(key, w.locals[key], w.shared);
    }
    NothingHappens(key, w.locals[key], w.shared);
  }

  lemma NothingHappens(key: string, l: Local, s: Shared)
    requires SpecInv(l) && JobsInv(key, l, s)
    ensures Rely(key, l, s, l, s)
  {
  }

  lemma OtherStep(w: World, a: Action, key: string)
    requires WorldInv(w) && Enabled(w, a) && key in w.locals && !(a.Work? && a.key == key)
    ensures key in Apply(w, a).locals
    ensures Rely(key, w.locals[key], w.shared, Apply(w, a).locals[key], Apply(w, a).shared)
  {
    assert Inv(key, w.locals[key], w.shared);
    StepGuarantee(w, a);
    ActionIsRely(w, a, key);
  }

  // ----- hypotheses --------------------------------------------------------------------------

  /** The Realm is there, adopted, not being deleted, and whatever it builds is the desired payload. */
  predicate Settled(st: Step, desired: Json) {
    && st.l.realm.Some? && st.l.realm.value.deletedAt.None? && st.l.realm.value.finalizer
    && (st.l.pc.Fetched? ==> st.s.render(st.l.pc.obj.spec, st.s.ns) == Some(desired))
    && (forall j :: j in st.s.jobs ==> j < st.s.nextJob)
  }

  /** The desired state is fixed, from the beginning of some reconcile on. */
  predicate Fixed(steps: seq<Step>, desired: Json) {
    |steps| > 0 && steps[0].l.pc.Idle? && forall i :: 0 <= i < |steps| ==> Settled(steps[i], desired)
  }

  ghost predicate Calm(key: string, steps: seq<Step>, desired: Json) { Trace(key, steps) && Fixed(steps, desired) }

  /** The call that compares. */
  predicate Compares(st: Step) { st.l.pc.Built? && st.reply.Done() }

  predicate Drifts(st: Step, desired: Json) { Compares(st) && Drift(st.l.config, desired, Answered(st)) }

  /** When drift is found by call k, the Secret, the Job and its recording get through. */
  predicate SpawnsSucceed(steps: seq<Step>, desired: Json, k: nat) {
    forall j :: 0 <= j <= k && j < |steps| && Drifts(steps[j], desired) ==>
      j + 4 < |steps| && steps[j + 1].reply.Done() && steps[j + 2].reply.Done() && steps[j + 3].reply.Done()
  }

  /** The Job for the drift found in step j. */
  function JobOf(steps: seq<Step>, j: nat): nat
    requires j + 2 < |steps|
  {
    steps[j + 2].s.nextJob
  }

  /**
   The reconcile that begins with step f, after the recording of that Job, finds it succeeded and had no
   trigger when it began, less than five minutes after the last-sync of the rewrite; its calls succeed,
   but for the cleanup. Any number of reconciles may come between.
   */
  predicate SeenIn(steps: seq<Step>, j: nat, f: nat) {
    && j + 4 <= f && f + 5 < |steps|
    && steps[f].l.pc.Idle? && steps[f].l.realm.Some? && SYNC_REQUESTED !in steps[f].l.realm.value.annotations
    && Succeeds(steps[f + 4].s, JobOf(steps, j))
    && Answered(steps[f + 2]) < Trunc(Answered(steps[j + 1])) + HEAL
    && steps[f].reply.Done() && steps[f + 1].reply.Done() && steps[f + 2].reply.Done()
    && steps[f + 4].reply.Done() && steps[f + 5].reply.Done()
  }

  ghost predicate JobsFinish(steps: seq<Step>, desired: Json, k: nat) {
    forall j :: 0 <= j <= k && j < |steps| && Drifts(steps[j], desired) ==> exists f :: SeenIn(steps, j, f)
  }

  predicate WritesReady(st: Step) { st.l.pc.Writing? && st.l.pc.seen.Some? && st.reply.Lands() }

  /** No answer to a Ready write is lost. */
  predicate ReadyReturns(steps: seq<Step>) {
    forall i :: 0 <= i < |steps| && WritesReady(steps[i]) ==> steps[i].reply.Done()
  }

  /**
   Call k compares five minutes or more past the last-sync found at the start (or the Secret was missing
   or held another payload); a spawn that is due by then succeeds, and its Job is seen to finish.
   */
  ghost predicate Fair(steps: seq<Step>, desired: Json, k: nat) {
    && k < |steps| && Compares(steps[k]) && Drift(steps[0].l.config, desired, Answered(steps[k]))
    && SpawnsSucceed(steps, desired, k) && JobsFinish(steps, desired, k) && ReadyReturns(steps)
  }

  // ----- until the first drift ---------------------------------------------------------------

  predicate BeforeDrift(l: Local, config: Option<ConfigSecret>, desired: Json) {
    && l.config == config
    && match l.pc
       case Idle => true
       case Fetched(obj) => l.realm.Some? && obj.uid == l.realm.value.uid
       case Built(obj, d) => d.payload == desired && l.realm.Some? && obj.uid == l.realm.value.uid
       case Recorded(_, _, spawned) => spawned.None?
       case Untriggering => true
       case Observing(_, _, _, _) => true
       case Writing(_, _, _) => true
       case Failing => true
       case _ => false
  }

  lemma NoDriftYet(key: string, a: Step, b: Step, config: Option<ConfigSecret>, desired: Json)
    requires BeforeDrift(a.l, config, desired) && Settled(a, desired) && !Drifts(a, desired) && Linked(key, a, b)
    ensures BeforeDrift(b.l, config, desired)
  {
    assert BeforeDrift(Next(key, a).0, config, desired);
  }

  /** Until the first drift the Secret stays as it was, so five minutes past its last-sync ends the wait. */
  lemma {:induction false} FirstDrift(key: string, steps: seq<Step>, desired: Json, k: nat) returns (j: nat)
    requires Calm(key, steps, desired) && k < |steps| && Compares(steps[k])
    requires Drift(steps[0].l.config, desired, Answered(steps[k]))
    ensures j <= k && Drifts(steps[j], desired) && steps[j].l.pc.d.payload == desired
    ensures steps[j].l.realm.Some? && steps[j].l.pc.obj.uid == steps[j].l.realm.value.uid
  {
    j := 0;
    while !Drifts(steps[j], desired)
      invariant j <= k && BeforeDrift(steps[j].l, steps[0].l.config, desired)
      decreases k - j
    {
      assert j < k;
      LinkedAt(key, steps, j);
      NoDriftYet(key, steps[j], steps[j + 1], steps[0].l.config, desired);
      j := j + 1;
    }
  }

  // ----- from drift to the recorded Job ------------------------------------------------------

  /** Steps of the machine that do not lead away from the tracked Job, unless they write Ready. */
  predicate Watching(key: string, l: Local, id: nat, desired: Json) {
    match l.pc
    case Idle => true
    case Untriggering => true
    case Failing => true
    case Fetched(obj) => obj.status.activeJob == Some(id)
    case Built(obj, d) => obj.status.activeJob == Some(id) && d.payload == desired
    case Recorded(obj, d, spawned) =>
      d.payload == desired && (if spawned.Some? then spawned else obj.status.activeJob) == Some(id)
    case Observing(_, d, j, _) => d.payload == desired && j == id
    case Writing(d, u, seen) =>
      && d.payload == desired
      && (if seen.Some? then
            u.reason == Synced && CompletedJob(key, l.realm, seen.value.job) && ReadDesired(l, seen.value.job, desired)
          else
            u.reason != Synced && (u.active.Keep? || u.active.job == Some(id)))
    case _ => false
  }

  predicate ReadDesired(l: Local, j: Job, desired: Json) {
    j.carried.Some? && j.carried.value < |l.log.writes| && l.log.writes[j.carried.value].payload == desired
  }

  /** The Job is tracked, the Secret was rewritten at that moment, and the reconcile is on its way. */
  predicate On(key: string, st: Step, id: nat, desired: Json, stored: nat) {
    && Tracked(key, st.l, st.s, id, desired) && Watching(key, st.l, id, desired)
    && Last(st.l.log.writes).at == stored
  }

  lemma TrackedOn(key: string, l: Local, s: Shared, l': Local, s': Shared, id: nat, desired: Json)
    requires Tracked(key, l, s, id, desired) && Rely(key, l, s, l', s') && l'.realm.Some?
    ensures Tracked(key, l', s', id, desired) && l'.config == l.config && l'.log.writes == l.log.writes
  {
    if id in s'.jobs { assert JobRely(key, l.log.writes, s.jobs[id], s'.jobs[id]); }
  }

  lemma WatchingOn(key: string, l: Local, s: Shared, l': Local, s': Shared, id: nat, desired: Json)
    requires Watching(key, l, id, desired) && Rely(key, l, s, l', s')
    ensures Watching(key, l', id, desired)
  {
  }

  /** What a step leads to, the interference after it leaves. */
  lemma OnAcross(key: string, a: Step, b: Step, id: nat, desired: Json, stored: nat)
    requires Linked(key, a, b) && b.l.realm.Some?
    requires
      var r := Next(key, a);
      Tracked(key, r.0, r.1, id, desired) && Watching(key, r.0, id, desired) && Last(r.0.log.writes).at == stored
    ensures On(key, b, id, desired, stored)
  {
    var r := Next(key, a);
    TrackedOn(key, r.0, r.1, b.l, b.s, id, desired);
    WatchingOn(key, r.0, r.1, b.l, b.s, id, desired);
  }

  predicate JustStored(l: Local, desired: Json, stored: nat) {
    && |l.log.writes| > 0 && Last(l.log.writes) == Write(desired, stored)
    && l.config == Some(ConfigSecret(desired, Some(Trunc(stored))))
  }

  predicate JobMade(key: string, st: Step, id: nat, desired: Json, stored: nat) {
    && st.l.realm.Some? && st.l.pc.Spawned? && st.l.pc.d.payload == desired && st.l.pc.job == id
    && JustStored(st.l, desired, stored) && id < st.s.nextJob
    && (id in st.s.jobs ==> Holds(key, st.l, st.s.jobs[id], desired))
  }

  lemma Makes(key: string, a: Step, b: Step, desired: Json, stored: nat)
    requires a.l.pc.Stored? && a.l.pc.d.payload == desired && a.reply.Done() && JustStored(a.l, desired, stored)
    requires a.l.realm.Some? && a.l.pc.obj.uid == a.l.realm.value.uid && Linked(key, a, b) && b.l.realm.Some?
    ensures JobMade(key, b, a.s.nextJob, desired, stored)
  {
    var r, id := Next(key, a), a.s.nextJob;
    assert r.0.pc.Spawned? && Holds(key, r.0, r.1.jobs[id], desired);
    if id in b.s.jobs { assert JobRely(key, r.0.log.writes, r.1.jobs[id], b.s.jobs[id]); }
  }

  lemma Records(key: string, a: Step, id: nat, desired: Json, stored: nat)
    requires JobMade(key, a, id, desired, stored) && a.reply.Done()
    ensures
      var r := Next(key, a);
      Tracked(key, r.0, r.1, id, desired) && Watching(key, r.0, id, desired) && Last(r.0.log.writes).at == stored
  {
  }

  /** Drift, the Secret, the Job and its recording: four calls, whatever happens between them. */
  lemma Spawns(key: string, steps: seq<Step>, desired: Json, j: nat)
    requires Calm(key, steps, desired) && j + 4 < |steps| && Drifts(steps[j], desired) && steps[j].l.pc.d.payload == desired
    requires steps[j].l.pc.obj.uid == steps[j].l.realm.value.uid
    requires steps[j + 1].reply.Done() && steps[j + 2].reply.Done() && steps[j + 3].reply.Done()
    ensures On(key, steps[j + 4], JobOf(steps, j), desired, Answered(steps[j + 1]))
  {
    var stored, id := Answered(steps[j + 1]), JobOf(steps, j);
    LinkedAt(key, steps, j);
    assert steps[j + 1].l.pc == Drifted(steps[j].l.pc.obj, steps[j].l.pc.d);
    LinkedAt(key, steps, j + 1);
    assert steps[j + 2].l.pc.Stored? && steps[j + 2].l.pc.d.payload == desired && JustStored(steps[j + 2].l, desired, stored);
    LinkedAt(key, steps, j + 2);
    Makes(key, steps[j + 2], steps[j + 3], desired, stored);
    Records(key, steps[j + 3], id, desired, stored);
    LinkedAt(key, steps, j + 3);
    OnAcross(key, steps[j + 3], steps[j + 4], id, desired, stored);
  }

  // ----- waiting -----------------------------------------------------------------------------

  /**
   Whatever a call is answered, a Realm that tracks the Job goes on tracking it, on the same Secret, as
   long as no drift is found and Ready is not written.
   */
  lemma Waits(key: string, a: Step, b: Step, id: nat, desired: Json, stored: nat)
    requires On(key, a, id, desired, stored) && Settled(a, desired) && !Drifts(a, desired) && !WritesReady(a)
    requires Linked(key, a, b) && b.l.realm.Some?
    ensures On(key, b, id, desired, stored)
  {
    hide Worker, Tracked, Watching, Rely;
    StillTracked(key, a, id, desired);
    StillWatching(key, a, id, desired);
    OnAcross(key, a, b, id, desired, stored);
  }

  lemma StillTracked(key: string, a: Step, id: nat, desired: Json)
    requires Tracked(key, a.l, a.s, id, desired) && Watching(key, a.l, id, desired) && Settled(a, desired)
    requires !Drifts(a, desired) && !WritesReady(a)
    ensures Tracked(key, Next(key, a).0, Next(key, a).1, id, desired) && Next(key, a).0.log.writes == a.l.log.writes
  {
    if a.l.pc.Recorded? { Cleaned(key, a.l, a.s, a.reply); }
  }

  lemma StillWatching(key: string, a: Step, id: nat, desired: Json)
    requires Tracked(key, a.l, a.s, id, desired) && Watching(key, a.l, id, desired) && Settled(a, desired)
    requires !Drifts(a, desired) && !WritesReady(a)
    ensures Watching(key, Next(key, a).0, id, desired)
  {
    hide Victims, Deleted;
    if id in a.s.jobs { VerdictExactly(a.s.jobs[id].conditions); }
  }

  /** Where the reconcile that is to see the success stands after n calls. */
  predicate Course(l: Local, n: nat, id: nat) {
    match n
    case 0 => l.pc.Idle? && l.realm.Some? && SYNC_REQUESTED !in l.realm.value.annotations
    case 1 => l.pc.Fetched? && SYNC_REQUESTED !in l.pc.obj.annotations
    case 2 => l.pc.Built? && SYNC_REQUESTED !in l.pc.obj.annotations
    case 3 => l.pc.Recorded? && l.pc.spawned.None? && SYNC_REQUESTED !in l.pc.obj.annotations
    case 4 => l.pc.Observing? && l.pc.job == id
    case _ => l.pc.Writing? && l.pc.seen.Some?
  }

  lemma Advances(key: string, a: Step, b: Step, n: nat, id: nat, desired: Json, stored: nat)
    requires On(key, a, id, desired, stored) && Settled(a, desired) && !Drifts(a, desired)
    requires Course(a.l, n, id) && n < 5 && (n != 3 ==> a.reply.Done()) && (n == 4 ==> Succeeds(a.s, id))
    requires Linked(key, a, b)
    ensures Course(b.l, n + 1, id)
  {
    assert Course(Next(key, a).0, n + 1, id);
  }

  /** Ready, and the completed Job behind it read the desired payload. */
  predicate ReadyWith(key: string, l: Local, desired: Json) {
    && l.realm.Some? && l.realm.value.status.ready && |l.log.readies| > 0
    && var rec := Last(l.log.readies);
       rec.d.payload == desired && CompletedJob(key, l.realm, rec.seen.job) && ReadDesired(l, rec.seen.job, desired)
  }

  lemma BecomesReady(key: string, a: Step, id: nat, desired: Json, stored: nat)
    requires On(key, a, id, desired, stored) && WritesReady(a)
    ensures
      var r := Next(key, a);
      && ReadyWith(key, r.0, desired) && (a.reply.Done() ==> r.0.pc.Idle?)
      && r.0.realm.value.status.lastSync == Some(Trunc(Answered(a))) && Last(r.0.log.readies).at == Answered(a)
  {
  }

  lemma TimePasses(key: string, a: Step)
    ensures Next(key, a).1.now == Answered(a)
  {
  }

  lemma {:induction false} InOrder(key: string, steps: seq<Step>, i: nat, m: nat)
    requires Trace(key, steps) && i < m < |steps|
    ensures Answered(steps[i]) <= steps[m].s.now
    decreases m
  {
    hide Trace, RealmRely;
    if i < m - 1 { InOrder(key, steps, i, m - 1); }
    LinkedAt(key, steps, m - 1);
    TimePasses(key, steps[m - 1]);
  }

  /** No comparison up to the one in the observing reconcile finds the rewrite five minutes old. */
  lemma StillFresh(key: string, steps: seq<Step>, desired: Json, j: nat, i: nat, f: nat)
    requires Calm(key, steps, desired) && SeenIn(steps, j, f) && j + 4 <= i <= f + 5
    requires On(key, steps[i], JobOf(steps, j), desired, Answered(steps[j + 1]))
    requires i > f + 2 ==> !steps[i].l.pc.Built?
    ensures !Drifts(steps[i], desired)
  {
    hide Trace, Settled, Watching, Holds;
    if i < f + 2 { InOrder(key, steps, i, f + 2); }
  }

  /** After a drift, wait: the reconcile that sees the Job succeed, or one before it, writes Ready. */
  lemma ReadyAfterDrift(key: string, steps: seq<Step>, desired: Json, j: nat, f: nat) returns (i: nat)
    requires Calm(key, steps, desired) && SeenIn(steps, j, f)
    requires On(key, steps[j + 4], JobOf(steps, j), desired, Answered(steps[j + 1]))
    ensures j < i <= f + 5 && WritesReady(steps[i])
    ensures On(key, steps[i], JobOf(steps, j), desired, Answered(steps[j + 1]))
  {
    hide On, Drifts, Worker, Rely, Trace;
    var id, stored := JobOf(steps, j), Answered(steps[j + 1]);
    i := j + 4;
    while !WritesReady(steps[i])
      invariant j + 4 <= i <= f + 5 && On(key, steps[i], id, desired, stored)
      invariant i >= f ==> Course(steps[i].l, i - f, id)
      decreases f + 5 - i
    {
      StillFresh(key, steps, desired, j, i, f);
      LinkedAt(key, steps, i);
      Waits(key, steps[i], steps[i + 1], id, desired, stored);
      if i >= f { Advances(key, steps[i], steps[i + 1], i - f, id, desired, stored); }
      i := i + 1;
    }
  }

  /**
   Recovery. Under these hypotheses some call up to the end of the observing reconcile leaves the Realm
   Ready, on a completed Job that had read the desired payload. Nothing is assumed of the status, the
   tracked Job or the Secret at the start.
   */
  lemma Recovers(key: string, steps: seq<Step>, desired: Json, k: nat) returns (j: nat, f: nat, i: nat)
    requires Calm(key, steps, desired) && Fair(steps, desired, k)
    ensures j <= k && SeenIn(steps, j, f) && j < i <= f + 5
    ensures
      var r := Next(key, steps[i]).0;
      && ReadyWith(key, r, desired) && r.pc.Idle?
      && r.realm.value.status.lastSync == Some(Trunc(Answered(steps[i])))
  {
    j := FirstDrift(key, steps, desired, k);
    Spawns(key, steps, desired, j);
    f :| SeenIn(steps, j, f);
    i := ReadyAfterDrift(key, steps, desired, j, f);
    BecomesReady(key, steps[i], JobOf(steps, j), desired, Answered(steps[j + 1]));
  }

  // ----- the wait is needed ------------------------------------------------------------------

  /** Not Ready, nothing tracked, and no reconcile under way that would change that before a drift. */
  predicate Stuck(l: Local, desired: Json) {
    && l.realm.Some? && !l.realm.value.status.ready && l.realm.value.status.activeJob.None?
    && match l.pc
       case Idle => true
       case Untriggering => true
       case Failing => true
       case Fetched(obj) => obj.status.activeJob.None?
       case Built(obj, d) => obj.status.activeJob.None? && d.payload == desired
       case Recorded(obj, _, spawned) => spawned.None? && obj.status.activeJob.None?
       case Writing(_, u, seen) => u == Pending(Keep) && seen.None?
       case _ => false
  }

  /**
   The wait cannot be shortened: a Realm that is not Ready and tracks no Job stays so until a call finds
   drift. A matching Secret with its last-sync in the future (an annotation anyone may write) therefore
   holds recovery back until five minutes past that moment.
   */
  lemma {:induction false} StuckUntilDrift(key: string, steps: seq<Step>, desired: Json, k: nat)
    requires Calm(key, steps, desired) && k < |steps| && Stuck(steps[0].l, desired)
    requires forall i :: 0 <= i <= k ==> !Drifts(steps[i], desired)
    ensures Stuck(steps[k].l, desired) && Stuck(Next(key, steps[k]).0, desired)
  {
    if k > 0 {
      StuckUntilDrift(key, steps, desired, k - 1);
      LinkedAt(key, steps, k - 1);
      assert Stuck(steps[k].l, desired);
    }
    StuckStep(key, steps[k], desired);
  }

  lemma StuckStep(key: string, a: Step, desired: Json)
    requires Stuck(a.l, desired) && Settled(a, desired) && !Drifts(a, desired)
    ensures Stuck(Next(key, a).0, desired)
  {
  }
}
