/** Every enabled action keeps `WorldInv`, so it holds at every point of every run. */
module Runs {
  import opened Wrappers
  import opened Api
  import opened Protocol
  import opened Interference
  import opened World

  // ----- what one call of a worker does to the rest ------------------------------------------

  ghost predicate Guarantee(key: string, l: Local, s: Shared, l': Local, s': Shared) {
    && s'.render == s.render && s'.ns == s.ns && s'.vanished == s.vanished
    && s.now < s'.now && s.nextJob <= s'.nextJob <= s.nextJob + 1
    && (forall j :: j in s'.jobs && j != s.nextJob ==> j in s.jobs && s'.jobs[j] == s.jobs[j])
    && (s.nextJob in s'.jobs ==>
         var j := s'.jobs[s.nextJob];
         s.nextJob < s'.nextJob && j.mounts == key && l.realm.Some? && j.owners == [l.realm.value.uid]
         && j.created <= s'.now && j.conditions == [])
    && (forall j :: j in s.jobs && j !in s'.jobs ==> l.realm.Some? && l.realm.value.uid in s.jobs[j].owners)
    && (l'.realm.Some? ==> l.realm.Some? && l'.realm.value.uid == l.realm.value.uid)
    && l.log.readies <= l'.log.readies
  }

  lemma WorkerGuarantee(key: string, l: Local, s: Shared, a: Reply)
    requires PcInv(key, l, s) && s.nextJob !in s.jobs
    ensures Guarantee(key, l, s, Worker(key, l, s, a).0, Worker(key, l, s, a).1)
  {
  }

  /** A reconcile works on what it built, or on what it has just read; so do the Ready records. */
  lemma WorkerBuilds(key: string, l: Local, s: Shared, a: Reply)
    ensures var r := Worker(key, l, s, a);
      && (DesiredOf(r.0.pc).Some? ==>
           DesiredOf(r.0.pc) == DesiredOf(l.pc)
           || (DesiredOf(r.0.pc).value.ns == s.ns && DesiredOf(r.0.pc).value.readAt == r.1.now))
      && (forall i :: |l.log.readies| <= i < |r.0.log.readies| ==> DesiredOf(l.pc) == Some(r.0.log.readies[i].d))
      && l.log.readies <= r.0.log.readies
  {
  }

  // ----- locals ------------------------------------------------------------------------------

  /** The call of one Realm's reconcile is within what every other Realm's reconcile tolerates. */
  lemma GuaranteeIsRely(k: string, l: Local, q: string, lq: Local, s: Shared, lq': Local, s': Shared)
    requires Guarantee(q, lq, s, lq', s') && JobsBasic(s) && SpecInv(l) && k != q
    requires l.realm.Some? && lq.realm.Some? ==> l.realm.value.uid != lq.realm.value.uid
    ensures Rely(k, l, s, l, s')
  {
  }

  lemma PutJobRely(k: string, l: Local, s: Shared, s': Shared, j: nat)
    requires JobsBasic(s) && SpecInv(l) && j in s.jobs && j in s'.jobs && s.now <= s'.now
    requires s' == s.(now := s'.now, jobs := s.jobs[j := s'.jobs[j]])
    requires JobRely(k, l.log.writes, s.jobs[j], s'.jobs[j])
    ensures Rely(k, l, s, l, s')
  {
  }

  lemma JobActionRely(w: World, a: Action, k: string)
    requires UidsInv(w) && Enabled(w, a) && k in w.locals && SpecInv(w.locals[k])
    requires a.JobReads? || a.JobEnds?
    ensures Rely(k, w.locals[k], w.shared, w.locals[k], Apply(w, a).shared)
  {
    var job, s' := w.shared.jobs[a.job], Apply(w, a).shared;
    if a.JobEnds? { VerdictStable(job.conditions, a.cond); }
    assert JobRely(k, w.locals[k].log.writes, job, s'.jobs[a.job]);
    PutJobRely(k, w.locals[k], w.shared, s', a.job);
  }

  lemma RealmActionRely(w: World, a: Action, k: string)
    requires JobsBasic(w.shared) && Enabled(w, a) && k in w.locals && SpecInv(w.locals[k])
    requires a.EditRealm? || a.DeleteRealm? || a.Trigger? || a.CreateRealm?
    ensures k in Apply(w, a).locals && Rely(k, w.locals[k], w.shared, Apply(w, a).locals[k], Apply(w, a).shared)
  {
    assert RealmRely(w.locals[k], Apply(w, a).locals[k]);
  }

  lemma OtherActionRely(w: World, a: Action, k: string)
    requires JobsBasic(w.shared) && Enabled(w, a) && k in w.locals && SpecInv(w.locals[k])
    requires a.Children? || a.Approve? || a.Release? || a.JobVanishes?
    ensures k in Apply(w, a).locals && Rely(k, w.locals[k], w.shared, Apply(w, a).locals[k], Apply(w, a).shared)
  {
    hide Refs, Live, Evolves, Safe;
  }

  lemma ActionIsRely(w: World, a: Action, k: string)
    requires UidsInv(w) && Enabled(w, a) && k in w.locals && SpecInv(w.locals[k]) && !(a.Work? && a.key == k)
    requires Guaranteed(w, a)
    ensures k in Apply(w, a).locals
    ensures Rely(k, w.locals[k], w.shared, Apply(w, a).locals[k], Apply(w, a).shared)
  {
    if a.Work? {
      if HasRealm(w, k) && HasRealm(w, a.key) { assert Uid(w, k) != Uid(w, a.key); }
      GuaranteeIsRely(k, w.locals[k], a.key, w.locals[a.key], w.shared, Apply(w, a).locals[a.key], Apply(w, a).shared);
    } else if a.JobReads? || a.JobEnds? {
      JobActionRely(w, a, k);
    } else if a.EditRealm? || a.DeleteRealm? || a.Trigger? || a.CreateRealm? {
      RealmActionRely(w, a, k);
    } else {
      OtherActionRely(w, a, k);
    }
  }

  ghost predicate Guaranteed(w: World, a: Action)
    requires Enabled(w, a)
  {
    a.Work? ==> Guarantee(a.key, w.locals[a.key], w.shared, Apply(w, a).locals[a.key], Apply(w, a).shared)
  }

  lemma StepGuarantee(w: World, a: Action)
    requires LocalsInv(w) && JobsBasic(w.shared) && Enabled(w, a)
    ensures Guaranteed(w, a)
  {
    if a.Work? {
      assert Inv(a.key, w.locals[a.key], w.shared);
      WorkerGuarantee(a.key, w.locals[a.key], w.shared, a.reply);
    }
  }

  lemma NewRealmInv(key: string, uid: nat, spec: RealmSpec, s: Shared)
    requires JobsBasic(s) && forall j :: j in s.jobs ==> s.jobs[j].mounts != key
    ensures Inv(key, NewRealm(uid, spec), s)
  {
  }

  lemma StepLocals(w: World, a: Action, k: string)
    requires LocalsInv(w) && UidsInv(w) && Enabled(w, a) && Guaranteed(w, a) && k in Apply(w, a).locals
    ensures Inv(k, Apply(w, a).locals[k], Apply(w, a).shared)
  {
    var w' := Apply(w, a);
    if k in w.locals {
      assert Inv(k, w.locals[k], w.shared);
      if a.Work? && a.key == k {
        WorkerKeepsInv(k, w.locals[k], w.shared, a.reply);
      } else {
        ActionIsRely(w, a, k);
        RelyKeepsInv(k, w.locals[k], w.shared, w'.locals[k], w'.shared);
      }
    } else {
      NewRealmInv(k, w.nextUid, a.spec, w'.shared);
    }
  }

  // ----- uids, children, snapshots, approvals ------------------------------------------------

  lemma RealmUidsFrame(w: World, w': World)
    requires RealmUids(w) && w.nextUid <= w'.nextUid
    requires forall k :: HasRealm(w', k) ==> HasRealm(w, k) && Uid(w', k) == Uid(w, k)
    ensures RealmUids(w')
  {
  }

  lemma NewRealmUids(w: World, a: Action)
    requires RealmUids(w) && Enabled(w, a) && a.CreateRealm?
    ensures RealmUids(Apply(w, a))
  {
    var w' := Apply(w, a);
    forall k | HasRealm(w', k) && k != a.new_key ensures HasRealm(w, k) && Uid(w', k) == Uid(w, k) {}
    assert Uid(w', a.new_key) == w.nextUid;
  }

  lemma StepRealmUids(w: World, a: Action)
    requires RealmUids(w) && Enabled(w, a) && Guaranteed(w, a) && !a.CreateRealm? && w.nextUid <= Apply(w, a).nextUid
    ensures RealmUids(Apply(w, a))
  {
    var w' := Apply(w, a);
    forall k | HasRealm(w', k) ensures HasRealm(w, k) && Uid(w', k) == Uid(w, k) {}
    RealmUidsFrame(w, w');
  }

  lemma StepJobUids(w: World, a: Action)
    requires JobUids(w) && JobsBasic(w.shared) && Enabled(w, a) && Guaranteed(w, a)
    ensures JobUids(Apply(w, a)) && JobsBasic(Apply(w, a).shared)
  {
    hide Refs, Evolves, Safe, Worker;
    if a.JobEnds? { VerdictStable(w.shared.jobs[a.job].conditions, a.cond); }
  }

  lemma StepUids(w: World, a: Action)
    requires UidsInv(w) && Enabled(w, a) && Guaranteed(w, a) && w.nextUid <= Apply(w, a).nextUid
    ensures UidsInv(Apply(w, a))
  {
    if a.CreateRealm? { NewRealmUids(w, a); } else { StepRealmUids(w, a); }
    StepJobUids(w, a);
  }

  lemma StepRefs(w: World, a: Action)
    requires RefsOk(Refs(w.shared.ns), w.shared.now, w.nextUid) && Enabled(w, a) && Guaranteed(w, a)
    ensures RefsOk(Refs(Apply(w, a).shared.ns), Apply(w, a).shared.now, Apply(w, a).nextUid)
    ensures w.shared.now < Apply(w, a).shared.now && w.nextUid <= Apply(w, a).nextUid
    ensures !a.Children? ==> Refs(Apply(w, a).shared.ns) <= Refs(w.shared.ns)
  {
  }

  /** A snapshot stays right: later creations and deletions have later times. */
  lemma SnapshotLasts(snap: Namespace, readAt: nat, w: World, w': World)
    requires SnapshotInv(snap, readAt, w)
    requires w.shared.now < w'.shared.now && w.nextUid <= w'.nextUid
    requires || Refs(w'.shared.ns) <= Refs(w.shared.ns)
             || Evolves(Refs(w.shared.ns), w.nextUid, Refs(w'.shared.ns), w'.nextUid, w'.shared.now)
    ensures SnapshotInv(snap, readAt, w')
  {
    forall c' | c' in Refs(w'.shared.ns) ensures c'.uid in Live(snap) <==> LiveAt(c', readAt) {
      if !(Refs(w'.shared.ns) <= Refs(w.shared.ns)) && c'.uid < w.nextUid {
        var c :| c in Refs(w.shared.ns) && Later(c, c', w'.shared.now);
        assert c.uid in Live(snap) <==> LiveAt(c, readAt);
      }
    }
  }

  /** A snapshot taken now is right now. */
  lemma FreshSnapshot(w: World)
    requires RefsOk(Refs(w.shared.ns), w.shared.now, w.nextUid)
    ensures SnapshotInv(w.shared.ns, w.shared.now, w)
  {
    var refs := Refs(w.shared.ns);
    forall c | c in refs ensures c.uid in Live(w.shared.ns) <==> LiveAt(c, w.shared.now) {
      if c.uid in Live(w.shared.ns) {
        var d :| d in refs && d.deletedAt.None? && d.uid == c.uid;
        assert d == c;
      }
    }
  }

  lemma SnapshotsLast(l: Local, w: World, w': World)
    requires SnapshotsInv(l, w)
    requires w.shared.now < w'.shared.now && w.nextUid <= w'.nextUid
    requires || Refs(w'.shared.ns) <= Refs(w.shared.ns)
             || Evolves(Refs(w.shared.ns), w.nextUid, Refs(w'.shared.ns), w'.nextUid, w'.shared.now)
    ensures SnapshotsInv(l, w')
  {
    if DesiredOf(l.pc).Some? { SnapshotLasts(DesiredOf(l.pc).value.ns, DesiredOf(l.pc).value.readAt, w, w'); }
    forall i | 0 <= i < |l.log.readies|
      ensures SnapshotInv(l.log.readies[i].d.ns, l.log.readies[i].d.readAt, w')
    {
      SnapshotLasts(l.log.readies[i].d.ns, l.log.readies[i].d.readAt, w, w');
    }
  }

  /** The snapshots of a worker after its call are those it had, or the one it has just taken. */
  lemma WorkerSnapshots(key: string, l: Local, s: Shared, reply: Reply, w': World)
    requires SnapshotsInv(l, w') && SnapshotInv(w'.shared.ns, w'.shared.now, w')
    requires w'.shared == Worker(key, l, s, reply).1 && w'.shared.ns == s.ns
    ensures SnapshotsInv(Worker(key, l, s, reply).0, w')
  {
    var l' := Worker(key, l, s, reply).0;
    WorkerBuilds(key, l, s, reply);
    forall i | 0 <= i < |l'.log.readies|
      ensures SnapshotInv(l'.log.readies[i].d.ns, l'.log.readies[i].d.readAt, w')
    {
      if i < |l.log.readies| { assert l'.log.readies[i] == l.log.readies[i]; }
    }
  }

  lemma StepSnapshots(w: World, a: Action, k: string)
    requires RefsOk(Refs(w.shared.ns), w.shared.now, w.nextUid) && Enabled(w, a) && Guaranteed(w, a)
    requires k in Apply(w, a).locals && (k in w.locals ==> SnapshotsInv(w.locals[k], w))
    ensures SnapshotsInv(Apply(w, a).locals[k], Apply(w, a))
  {
    hide Refs, Live, SnapshotInv, Worker;
    var w' := Apply(w, a);
    StepRefs(w, a);
    if k in w.locals {
      SnapshotsLast(w.locals[k], w, w');
      if a.Work? && a.key == k {
        FreshSnapshot(w');
        WorkerSnapshots(k, w.locals[k], w.shared, a.reply, w');
      }
    }
  }

  /** Ready records are never taken back, so an approval keeps what it relied on. */
  lemma StepReadies(w: World, a: Action, k: string)
    requires Enabled(w, a) && Guaranteed(w, a) && k in w.locals
    ensures k in Apply(w, a).locals && w.locals[k].log.readies <= Apply(w, a).locals[k].log.readies
  {
  }

  lemma ApprovalLasts(old_locals: map<string, Local>, locals: map<string, Local>, p: Approval)
    requires ApprovalOk(old_locals, p)
    requires !p.Gone() ==> p.ref.realmRef in locals
    requires !p.Gone() ==> old_locals[p.ref.realmRef].log.readies <= locals[p.ref.realmRef].log.readies
    ensures ApprovalOk(locals, p)
  {
  }

  lemma TruncLater(a: nat, b: nat)
    requires Trunc(a) > Trunc(b)
    ensures a > b
  {
  }

  /** The heart of the handshake: a Ready whose truncated time is later than the truncated deletion. */
  lemma NewApproval(w: World, c: Ref)
    requires Safe(w, c)
    requires HasRealm(w, c.realmRef) ==> ReadyInv(c.realmRef, w.locals[c.realmRef], w.shared)
    requires HasRealm(w, c.realmRef) ==> SnapshotsInv(w.locals[c.realmRef], w)
    requires c in Refs(w.shared.ns)
    ensures HasRealm(w, c.realmRef) ==>
      |w.locals[c.realmRef].log.readies| > 0
      && ApprovalOk(w.locals, Approval(c, RealmNames(w), Some(|w.locals[c.realmRef].log.readies| - 1)))
  {
    hide Refs, Live, RecordOk, Current;
    if HasRealm(w, c.realmRef) {
      var l := w.locals[c.realmRef];
      TruncLater(Last(l.log.readies).at, c.deletedAt.value);
    }
  }

  lemma FreshApproval(w: World, a: Action)
    requires Enabled(w, a) && a.Approve?
    requires HasRealm(w, a.ref.realmRef) ==> ReadyInv(a.ref.realmRef, w.locals[a.ref.realmRef], w.shared)
    requires HasRealm(w, a.ref.realmRef) ==> SnapshotsInv(w.locals[a.ref.realmRef], w)
    ensures ApprovalOk(w.locals, Last(Apply(w, a).approvals))
  {
    NewApproval(w, a.ref);
  }

  lemma StepApprovals(w: World, a: Action)
    requires Enabled(w, a) && Guaranteed(w, a)
    requires forall i :: 0 <= i < |w.approvals| ==> ApprovalOk(w.locals, w.approvals[i])
    requires a.Approve? ==> ApprovalOk(w.locals, Last(Apply(w, a).approvals))
    ensures forall i :: 0 <= i < |Apply(w, a).approvals| ==> ApprovalOk(Apply(w, a).locals, Apply(w, a).approvals[i])
  {
    var ps := Apply(w, a).approvals;
    forall i | 0 <= i < |ps| ensures ApprovalOk(Apply(w, a).locals, ps[i]) {
      if i < |w.approvals| { assert ps[i] == w.approvals[i]; }
      assert ApprovalOk(w.locals, ps[i]);
      if !ps[i].Gone() { StepReadies(w, a, ps[i].ref.realmRef); }
      ApprovalLasts(w.locals, Apply(w, a).locals, ps[i]);
    }
  }

  lemma StepKeepsInv(w: World, a: Action)
    requires WorldInv(w) && Enabled(w, a)
    ensures WorldInv(Apply(w, a))
  {
    var w' := Apply(w, a);
    StepGuarantee(w, a);
    StepRefs(w, a);
    StepUids(w, a);
    if a.Approve? {
      if HasRealm(w, a.ref.realmRef) { assert Inv(a.ref.realmRef, w.locals[a.ref.realmRef], w.shared); }
      FreshApproval(w, a);
    }
    StepApprovals(w, a);
    forall k | k in w'.locals ensures Inv(k, w'.locals[k], w'.shared) { StepLocals(w, a, k); }
    forall k | k in w'.locals ensures SnapshotsInv(w'.locals[k], w') { StepSnapshots(w, a, k); }
  }

  lemma {:induction false} RunKeepsInv(w: World, acts: seq<Action>)
    requires WorldInv(w) && ValidRun(w, acts)
    ensures WorldInv(Run(w, acts))
    decreases |acts|
  {
    if |acts| > 0 {
      StepKeepsInv(w, acts[0]);
      RunKeepsInv(Apply(w, acts[0]), acts[1..]);
    }
  }

  /** Runs compose. */
  lemma {:induction false} RunOn(w: World, acts: seq<Action>, more: seq<Action>)
    requires ValidRun(w, acts) && ValidRun(Run(w, acts), more)
    ensures ValidRun(w, acts + more) && Run(w, acts + more) == Run(Run(w, acts), more)
    decreases |acts|
  {
    if |acts| == 0 {
      assert acts + more == more;
    } else {
      RunOn(Apply(w, acts[0]), acts[1..], more);
      assert (acts + more)[1..] == acts[1..] + more;
    }
  }

  lemma InitInv(w: World)
    requires Init(w)
    ensures WorldInv(w)
  {
  }
}
