/**
 What the finalizer handshake guarantees over whole runs: which children leave the namespace, on what
 evidence, and which Realms the handshake never asks.
 */
module Handshake {
  import opened Wrappers
  import opened Api
  import opened Export
  import opened Builder
  import opened BuilderLaws
  import opened Protocol
  import opened World
  import opened Runs
  import opened Theorems

  // ----- builds without the child ------------------------------------------------------------

  lemma {:induction false} ForeignNotOwn<S>(xs: seq<Obj<S>>, uid: nat, realm: string)
    requires forall o :: o in xs && o.meta.uid == uid ==> Foreign(o, realm)
    ensures Own(Survivors(xs, {uid}), realm) == Own(xs, realm)
  {
    if |xs| > 0 {
      var rest := DropLast(xs);
      assert forall o :: o in rest ==> o in xs;
      ForeignNotOwn(rest, uid, realm);
      if Last(xs).meta.uid == uid {
        assert Survivors(xs, {uid}) == Survivors(rest, {uid});
      } else {
        assert DropLast(Survivors(xs, {uid})) == Survivors(rest, {uid});
      }
    }
  }

  /** The child is being deleted, or names another realm. */
  ghost predicate NotOfRealm(ns: Namespace, uid: nat, realm: string) {
    forall c :: c in Refs(ns) && c.uid == uid ==> c.deletedAt.Some? || (c.realmRef != "" && c.realmRef != realm)
  }

  lemma ForeignRefs<S>(xs: seq<Obj<S>>, ns: Namespace, uid: nat, realm: string)
    requires RefsOf(xs) <= Refs(ns) && NotOfRealm(ns, uid, realm)
    ensures forall o :: o in xs && o.meta.uid == uid ==> Foreign(o, realm)
  {
    forall o | o in xs && o.meta.uid == uid ensures Foreign(o, realm) {
      assert ToRef(o) in RefsOf(xs);
    }
  }

  /**
   A child that is being deleted when the build reads leaves no trace: the payload is the one without
   it. Neither does a child whose reference is not the realmName of the spec, deleted or not: the
   handshake with a Realm whose object name and realmName differ is about a payload that never had it.
   */
  lemma BuiltWithout(spec: RealmSpec, ns: Namespace, uid: nat)
    requires NotOfRealm(ns, uid, spec.realmName)
    ensures Payload(spec, ns) == Payload(spec, SurviveAll(ns, {uid}))
  {
    var name := spec.realmName;
    ForeignRefs(ns.clients, ns, uid, name); ForeignNotOwn(ns.clients, uid, name);
    ForeignRefs(ns.scopes, ns, uid, name); ForeignNotOwn(ns.scopes, uid, name);
    ForeignRefs(ns.groups, ns, uid, name); ForeignNotOwn(ns.groups, uid, name);
    ForeignRefs(ns.users, ns, uid, name); ForeignNotOwn(ns.users, uid, name);
    ForeignRefs(ns.flows, ns, uid, name); ForeignNotOwn(ns.flows, uid, name);
    ForeignRefs(ns.idps, ns, uid, name); ForeignNotOwn(ns.idps, uid, name);
    RealmIsolation(spec, ns, SurviveAll(ns, {uid}));
  }

  lemma NotLive(ns: Namespace, uid: nat, realm: string)
    requires uid !in Live(ns)
    ensures NotOfRealm(ns, uid, realm)
  {
    forall c | c in Refs(ns) && c.uid == uid ensures c.deletedAt.Some? {
      assert c.deletedAt.None? ==> c.uid in Live(ns);
    }
  }

  // ----- the evidence ------------------------------------------------------------------------

  /** The deletion fell between the reading of the build and the writing of its Ready. */
  predicate InTheGap(c: Ref, r: ReadyRecord)
    requires c.deletedAt.Some?
  {
    c.created <= r.d.readAt < c.deletedAt.value
  }

  /**
   A Ready of this Realm, written after the deletion, behind which stands a completed Job; its build
   excluded the child exactly if the deletion did not fall into the gap.
   */
  ghost predicate Evidence(locals: map<string, Local>, c: Ref, record: nat)
    requires c.deletedAt.Some?
  {
    && c.realmRef in locals && record < |locals[c.realmRef].log.readies|
    && var l := locals[c.realmRef];
       var r := l.log.readies[record];
       && r.at > c.deletedAt.value && Backed(c.realmRef, l, r)
       && (c.uid !in Live(r.d.ns) <==> !InTheGap(c, r))
       && (!InTheGap(c, r) ==> Payload(r.d.spec, SurviveAll(r.d.ns, {c.uid})) == Some(r.d.payload))
  }

  /**
   Deletion safety. For every child ever found safe to let go there is such evidence in the Realm its
   reference names, unless no Realm object had that name. The evidence is permanent, so the check and
   the removal of the finalizer need not be one action.
   */
  lemma DeletionSafety(w0: World, acts: seq<Action>, w: World, i: nat)
    requires Reachable(w0, acts, w) && i < |w.approvals|
    ensures
      var p := w.approvals[i];
      && p.ref.deletedAt.Some?
      && (!p.Gone() ==> p.record.Some? && Evidence(w.locals, p.ref, p.record.value))
  {
    ReachableInv(w0, acts, w);
    var p := w.approvals[i];
    assert ApprovalOk(w.locals, p);
    if !p.Gone() {
      ReadyIsTruthful(w0, acts, w, p.ref.realmRef, p.record.value);
      RecordedPayload(w0, acts, w, p.ref.realmRef, p.record.value);
      var r := w.locals[p.ref.realmRef].log.readies[p.record.value];
      if p.ref.uid !in Live(r.d.ns) {
        NotLive(r.d.ns, p.ref.uid, r.d.spec.realmName);
        BuiltWithout(r.d.spec, r.d.ns, p.ref.uid);
      }
    }
  }

  // ----- children leave only with an approval ------------------------------------------------

  ghost predicate Present(w: World, uid: nat) {
    exists c :: c in Refs(w.shared.ns) && c.uid == uid && c.finalizer
  }

  predicate Approved(w: World, uid: nat) {
    exists i :: 0 <= i < |w.approvals| && w.approvals[i].ref.uid == uid
  }

  lemma EvolvesKeeps(refs: set<Ref>, nextUid: nat, refs': set<Ref>, nextUid': nat, t: nat, c: Ref) returns (c': Ref)
    requires RefsOk(refs, t, nextUid) && Evolves(refs, nextUid, refs', nextUid', t) && c in refs && c.finalizer
    ensures c' in refs' && c'.uid == c.uid && c'.finalizer
  {
    c' :| c' in refs' && c'.uid == c.uid;
    var d :| d in refs && Later(d, c', t);
    assert d == c;
  }

  lemma StepKeepsChild(w: World, a: Action, uid: nat)
    requires WorldInv(w) && Enabled(w, a) && Present(w, uid)
    ensures Present(Apply(w, a), uid) || Approved(Apply(w, a), uid)
  {
    var c :| c in Refs(w.shared.ns) && c.uid == uid && c.finalizer;
    if a.Children? {
      var t := w.shared.now + 1 + a.dt;
      var c' := EvolvesKeeps(Refs(w.shared.ns), w.nextUid, Refs(a.ns), a.uids, t, c);
    } else if a.Release? {
      if c.uid == w.approvals[a.index].ref.uid { assert Apply(w, a).approvals[a.index] == w.approvals[a.index]; }
    } else {
      StepGuarantee(w, a);
      assert c in Refs(Apply(w, a).shared.ns);
    }
  }

  lemma {:induction false} RunKeepsChild(w: World, acts: seq<Action>, uid: nat)
    requires WorldInv(w) && ValidRun(w, acts) && (Present(w, uid) || Approved(w, uid))
    ensures Present(Run(w, acts), uid) || Approved(Run(w, acts), uid)
    decreases |acts|
  {
    if |acts| > 0 {
      if Present(w, uid) { StepKeepsChild(w, acts[0], uid); } else { StepKeepsApproval(w, acts[0], uid); }
      StepKeepsInv(w, acts[0]);
      RunKeepsChild(Apply(w, acts[0]), acts[1..], uid);
    }
  }

  lemma StepKeepsApproval(w: World, a: Action, uid: nat)
    requires Enabled(w, a) && Approved(w, uid)
    ensures Approved(Apply(w, a), uid)
  {
    var i :| 0 <= i < |w.approvals| && w.approvals[i].ref.uid == uid;
    assert Apply(w, a).approvals[i] == w.approvals[i];
  }

  /**
   Removal. A child with the finalizer that is no longer there at the end of a run was let go by an
   approval of its own, with everything `DeletionSafety` says of it.
   */
  lemma RemovalSafety(w0: World, acts: seq<Action>, w: World, more: seq<Action>, w': World, c: Ref) returns (i: nat)
    requires Reachable(w0, acts, w) && ValidRun(w, more) && w' == Run(w, more)
    requires c in Refs(w.shared.ns) && c.finalizer && forall d :: d in Refs(w'.shared.ns) ==> d.uid != c.uid
    ensures i < |w'.approvals|
    ensures
      var p := w'.approvals[i];
      && p.ref.uid == c.uid && p.ref.deletedAt.Some?
      && (!p.Gone() ==> p.record.Some? && Evidence(w'.locals, p.ref, p.record.value))
  {
    RunOn(w0, acts, more);
    i := ApprovedWhenGone(w0, acts, w, more, w', c);
    DeletionSafety(w0, acts + more, w', i);
  }

  lemma ApprovedWhenGone(w0: World, acts: seq<Action>, w: World, more: seq<Action>, w': World, c: Ref) returns (i: nat)
    requires Reachable(w0, acts, w) && ValidRun(w, more) && w' == Run(w, more)
    requires c in Refs(w.shared.ns) && c.finalizer && forall d :: d in Refs(w'.shared.ns) ==> d.uid != c.uid
    ensures i < |w'.approvals| && w'.approvals[i].ref.uid == c.uid
  {
    ReachableInv(w0, acts, w);
    assert Present(w, c.uid);
    RunKeepsChild(w, more, c.uid);
    i :| 0 <= i < |w'.approvals| && w'.approvals[i].ref.uid == c.uid;
  }

  // ----- which builds list the child ---------------------------------------------------------

  /** The payload is not the one without the child. */
  ghost predicate Lists(d: Desired, uid: nat) {
    Payload(d.spec, SurviveAll(d.ns, {uid})) != Some(d.payload)
  }

  /** The build saw the child, not being deleted, with this reference. */
  ghost predicate SawAs(ns: Namespace, uid: nat, realmRef: string) {
    exists c :: c in Refs(ns) && c.uid == uid && c.deletedAt.None? && c.realmRef == realmRef
  }

  lemma RefOf<S>(xs: seq<Obj<S>>, c: Ref) returns (i: nat)
    requires c in RefsOf(xs)
    ensures i < |xs| && ToRef(xs[i]) == c
  {
    var o :| o in xs && ToRef(o) == c;
    i :| 0 <= i < |xs| && xs[i] == o;
  }

  /** In a build that succeeded no live child is without a reference. */
  lemma RefsNamed(spec: RealmSpec, ns: Namespace, c: Ref)
    requires Build(spec, ns).Some? && c in Refs(ns) && c.deletedAt.None?
    ensures c.realmRef != ""
  {
    BuildFailsExactly(spec, ns);
    if c in RefsOf(ns.clients) { var i := RefOf(ns.clients, c); }
    else if c in RefsOf(ns.scopes) { var i := RefOf(ns.scopes, c); }
    else if c in RefsOf(ns.groups) { var i := RefOf(ns.groups, c); }
    else if c in RefsOf(ns.users) { var i := RefOf(ns.users, c); }
    else if c in RefsOf(ns.flows) { var i := RefOf(ns.flows, c); }
    else { var i := RefOf(ns.idps, c); }
  }

  /** Taking an own live child away shortens the list of its kind. */
  lemma {:induction false} FewerLive<S(!new)>(xs: seq<Obj<S>>, uid: nat, realm: string)
    ensures |LiveOf(Survivors(xs, {uid}), realm)| <= |LiveOf(xs, realm)|
    ensures (exists i :: 0 <= i < |xs| && xs[i].meta.uid == uid && !xs[i].meta.Deleting() && xs[i].realmRef == realm)
      ==> |LiveOf(Survivors(xs, {uid}), realm)| < |LiveOf(xs, realm)|
  {
    if |xs| > 0 {
      var rest := DropLast(xs);
      FewerLive(rest, uid, realm);
      if Last(xs).meta.uid == uid {
        assert Survivors(xs, {uid}) == Survivors(rest, {uid});
      } else {
        assert DropLast(Survivors(xs, {uid})) == Survivors(rest, {uid});
      }
      if i :| 0 <= i < |xs| && xs[i].meta.uid == uid && !xs[i].meta.Deleting() && xs[i].realmRef == realm {
        if i < |rest| { assert rest[i] == xs[i]; }
      }
    }
  }

  function Sizes(e: RealmExport): nat {
    |e.clients| + |e.users| + |e.groups| + |e.scopes| + |e.flows| + |e.idps|
  }

  lemma SamePayloadSameSizes(a: RealmExport, b: RealmExport)
    requires Marshal(a) == Marshal(b)
    ensures Sizes(a) == Sizes(b)
  {
    PayloadExact(a, b);
    assert |Norm(a).clients| == |a.clients| && |Norm(b).clients| == |b.clients|;
    assert |Norm(a).users| == |a.users| && |Norm(b).users| == |b.users|;
    assert |Norm(a).groups| == |a.groups| && |Norm(b).groups| == |b.groups|;
    assert |Norm(a).scopes| == |a.scopes| && |Norm(b).scopes| == |b.scopes|;
    assert Norm(a).flows == a.flows && Norm(b).flows == b.flows && Norm(a).idps == a.idps && Norm(b).idps == b.idps;
  }

  lemma SmallerWithout(spec: RealmSpec, ns: Namespace, uid: nat)
    requires SawAs(ns, uid, spec.realmName)
    requires Build(spec, ns).Some? && Build(spec, SurviveAll(ns, {uid})).Some?
    ensures Sizes(Build(spec, SurviveAll(ns, {uid})).value) < Sizes(Build(spec, ns).value)
  {
    hide Build, LiveOf, Survivors;
    var name := spec.realmName;
    BuildIsFilterMap(spec, ns);
    BuildIsFilterMap(spec, SurviveAll(ns, {uid}));
    FewerLive(ns.clients, uid, name); FewerLive(ns.scopes, uid, name); FewerLive(ns.groups, uid, name);
    FewerLive(ns.users, uid, name); FewerLive(ns.flows, uid, name); FewerLive(ns.idps, uid, name);
    var c :| c in Refs(ns) && c.uid == uid && c.deletedAt.None? && c.realmRef == name;
    if c in RefsOf(ns.clients) { var i := RefOf(ns.clients, c); }
    else if c in RefsOf(ns.scopes) { var i := RefOf(ns.scopes, c); }
    else if c in RefsOf(ns.groups) { var i := RefOf(ns.groups, c); }
    else if c in RefsOf(ns.users) { var i := RefOf(ns.users, c); }
    else if c in RefsOf(ns.flows) { var i := RefOf(ns.flows, c); }
    else { var i := RefOf(ns.idps, c); }
  }

  /** A payload lists a child exactly if its build saw it live and referring to the realmName. */
  lemma ListsExactly(d: Desired, uid: nat)
    requires Payload(d.spec, d.ns) == Some(d.payload)
    ensures Lists(d, uid) <==> SawAs(d.ns, uid, d.spec.realmName)
  {
    var without := SurviveAll(d.ns, {uid});
    if SawAs(d.ns, uid, d.spec.realmName) {
      if Build(d.spec, without).Some? {
        SmallerWithout(d.spec, d.ns, uid);
        if Marshal(Build(d.spec, without).value) == d.payload {
          SamePayloadSameSizes(Build(d.spec, without).value, Build(d.spec, d.ns).value);
        }
      }
    } else {
      forall c | c in Refs(d.ns) && c.uid == uid && c.deletedAt.None?
        ensures c.realmRef != "" && c.realmRef != d.spec.realmName
      {
        RefsNamed(d.spec, d.ns, c);
      }
      BuiltWithout(d.spec, d.ns, uid);
    }
  }

  // ----- Realms that are not asked -----------------------------------------------------------

  /** The Realm exported the child, and its object bears another name. */
  ghost predicate ListedMisnamed(key: string, d: Desired, c: Ref) {
    d.spec.realmName != key && SawAs(d.ns, c.uid, d.spec.realmName)
  }

  /** The child referred to this Realm then, and does not any more. */
  ghost predicate ListedBeforeEdit(key: string, d: Desired, c: Ref) {
    d.spec.realmName == key && SawAs(d.ns, c.uid, key) && c.realmRef != key
  }

  /**
   A Realm that was not asked when the child was let go has been Ready on a payload that lists the
   child: exactly if its object did not bear its realmName then, or the child has been given another
   reference since.
   */
  lemma UnaskedExactly(w0: World, acts: seq<Action>, w: World, i: nat, key: string, j: nat)
    requires Reachable(w0, acts, w) && i < |w.approvals|
    requires key in w.locals && j < |w.locals[key].log.readies| && key != w.approvals[i].ref.realmRef
    ensures
      var c, d := w.approvals[i].ref, w.locals[key].log.readies[j].d;
      Lists(d, c.uid) <==> ListedMisnamed(key, d, c) || ListedBeforeEdit(key, d, c)
  {
    hide Lists, SawAs;
    RecordedPayload(w0, acts, w, key, j);
    ListsExactly(w.locals[key].log.readies[j].d, w.approvals[i].ref.uid);
  }

  /**
   The Realm that was asked lists and gives evidence for one and the same Keycloak realm, unless its spec
   was edited between the two builds.
   */
  lemma AskedUnlessEdited(w0: World, acts: seq<Action>, w: World, i: nat, j: nat)
    requires Reachable(w0, acts, w) && i < |w.approvals| && !w.approvals[i].Gone()
    requires
      var key := w.approvals[i].ref.realmRef;
      key in w.locals && j < |w.locals[key].log.readies|
    ensures
      var p := w.approvals[i];
      && p.record.Some? && p.record.value < |w.locals[p.ref.realmRef].log.readies|
      && var asked, listed := w.locals[p.ref.realmRef].log.readies[p.record.value].d, w.locals[p.ref.realmRef].log.readies[j].d;
         listed.generation == asked.generation ==> listed.spec.realmName == asked.spec.realmName
  {
    DeletionSafety(w0, acts, w, i);
    var p := w.approvals[i];
    var l := w.locals[p.ref.realmRef];
    LocalInv(w0, acts, w, p.ref.realmRef);
    assert DesiredOk(l, w.shared, l.log.readies[j].d) && DesiredOk(l, w.shared, l.log.readies[p.record.value].d);
  }

  // ----- what every snapshot satisfies -------------------------------------------------------

  /** The namespace of the build in progress, and of every Ready, has this property. */
  ghost predicate Snapshots(l: Local, P: Namespace -> bool) {
    && (DesiredOf(l.pc).Some? ==> P(DesiredOf(l.pc).value.ns))
    && (forall i :: 0 <= i < |l.log.readies| ==> P(l.log.readies[i].d.ns))
  }

  lemma WorkerSnaps(key: string, l: Local, s: Shared, a: Reply, P: Namespace -> bool)
    requires Snapshots(l, P) && P(s.ns)
    ensures Snapshots(Worker(key, l, s, a).0, P)
  {
    WorkerBuilds(key, l, s, a);
    var l' := Worker(key, l, s, a).0;
    forall i | 0 <= i < |l'.log.readies| ensures P(l'.log.readies[i].d.ns) {
      if i < |l.log.readies| { assert l'.log.readies[i] == l.log.readies[i]; }
    }
  }

  /** Builds read what is there: a property of the namespace gets into every snapshot. */
  lemma StepSnaps(w: World, a: Action, k: string, P: Namespace -> bool)
    requires WorldInv(w) && Enabled(w, a) && k in Apply(w, a).locals
    requires k in w.locals ==> P(w.shared.ns) && Snapshots(w.locals[k], P)
    ensures Snapshots(Apply(w, a).locals[k], P)
  {
    if k in w.locals {
      if a.Work? && a.key == k { WorkerSnaps(k, w.locals[k], w.shared, a.reply, P); }
      else { OthersLeave(w, a, k); }
    }
  }

  lemma OthersLeave(w: World, a: Action, k: string)
    requires WorldInv(w) && Enabled(w, a) && k in w.locals && !(a.Work? && a.key == k)
    ensures k in Apply(w, a).locals
    ensures
      var l, l' := w.locals[k], Apply(w, a).locals[k];
      l'.pc == l.pc && l'.log.readies == l.log.readies && (l'.realm.Some? ==> l.realm.Some?)
  {
    assert Inv(k, w.locals[k], w.shared);
    StepGuarantee(w, a);
    ActionIsRely(w, a, k);
  }

  // ----- after an approval -------------------------------------------------------------------

  ghost function FreeOf(uid: nat): Namespace -> bool { ns => uid !in Live(ns) }

  /**
   A child let go is never live again; and a Realm that takes the name it referred to only afterwards
   never builds with it.
   */
  ghost predicate LetGo(w: World, p: Approval) {
    && p.ref.uid < w.nextUid && p.ref.uid !in Live(w.shared.ns)
    && (p.Gone() && HasRealm(w, p.ref.realmRef) ==> Snapshots(w.locals[p.ref.realmRef], FreeOf(p.ref.uid)))
  }

  lemma NeverLiveAgain(w: World, a: Action, uid: nat)
    requires WorldInv(w) && Enabled(w, a) && uid < w.nextUid && uid !in Live(w.shared.ns)
    ensures uid < Apply(w, a).nextUid && uid !in Live(Apply(w, a).shared.ns)
  {
    StepGuarantee(w, a);
    StepRefs(w, a);
    var refs, refs' := Refs(w.shared.ns), Refs(Apply(w, a).shared.ns);
    forall c' | c' in refs' && c'.uid == uid ensures c'.deletedAt.Some? {
      if a.Children? {
        var c :| c in refs && Later(c, c', w.shared.now + 1 + a.dt);
        assert c.deletedAt.None? ==> c.uid in Live(w.shared.ns);
      } else {
        assert c'.deletedAt.None? ==> c'.uid in Live(w.shared.ns);
      }
    }
  }

  lemma StepLetGo(w: World, a: Action, p: Approval)
    requires WorldInv(w) && Enabled(w, a) && LetGo(w, p)
    ensures LetGo(Apply(w, a), p)
  {
    hide Live, Evolves, Refs, Snapshots;
    NeverLiveAgain(w, a, p.ref.uid);
    var k := p.ref.realmRef;
    if p.Gone() && HasRealm(Apply(w, a), k) {
      if k in w.locals { RealmsStayGone(w, a, k); }
      StepSnaps(w, a, k, FreeOf(p.ref.uid));
    }
  }

  lemma RealmsStayGone(w: World, a: Action, k: string)
    requires WorldInv(w) && Enabled(w, a) && k in w.locals && HasRealm(Apply(w, a), k)
    ensures HasRealm(w, k)
  {
    if a.Work? && a.key == k { StepGuarantee(w, a); } else { OthersLeave(w, a, k); }
  }

  lemma NewLetGo(w: World, a: Action)
    requires WorldInv(w) && Enabled(w, a) && a.Approve?
    ensures LetGo(Apply(w, a), Last(Apply(w, a).approvals))
  {
    var refs := Refs(w.shared.ns);
    forall c | c in refs && c.uid == a.ref.uid ensures c == a.ref {}
  }

  ghost predicate AllLetGo(w: World) { forall i :: 0 <= i < |w.approvals| ==> LetGo(w, w.approvals[i]) }

  lemma StepAllLetGo(w: World, a: Action)
    requires WorldInv(w) && Enabled(w, a) && AllLetGo(w)
    ensures AllLetGo(Apply(w, a))
  {
    hide LetGo, WorldInv, Evolves, Refs, Safe, Worker;
    var w' := Apply(w, a);
    forall i | 0 <= i < |w'.approvals| ensures LetGo(w', w'.approvals[i]) {
      if i < |w.approvals| {
        assert w'.approvals[i] == w.approvals[i];
        StepLetGo(w, a, w.approvals[i]);
      } else {
        NewLetGo(w, a);
      }
    }
  }

  lemma {:induction false} RunLetGo(w: World, acts: seq<Action>)
    requires WorldInv(w) && ValidRun(w, acts) && AllLetGo(w)
    ensures AllLetGo(Run(w, acts))
    decreases |acts|
  {
    hide AllLetGo;
    if |acts| > 0 {
      StepAllLetGo(w, acts[0]);
      StepKeepsInv(w, acts[0]);
      RunLetGo(Apply(w, acts[0]), acts[1..]);
    }
  }

  lemma NotLiveInRecords(w: World, p: Approval, j: nat)
    requires LetGo(w, p) && p.Gone() && HasRealm(w, p.ref.realmRef) && j < |w.locals[p.ref.realmRef].log.readies|
    ensures p.ref.uid !in Live(w.locals[p.ref.realmRef].log.readies[j].d.ns)
  {
    assert FreeOf(p.ref.uid)(w.locals[p.ref.realmRef].log.readies[j].d.ns);
  }

  // ----- runs in which names and references stay ---------------------------------------------

  predicate NamesItself(a: Action) {
    match a
    case CreateRealm(key, spec, _) => spec.realmName == key
    case EditRealm(key, spec, _) => spec.realmName == key
    case _ => true
  }

  predicate NamesAgree(acts: seq<Action>) { forall i :: 0 <= i < |acts| ==> NamesItself(acts[i]) }

  predicate Named(key: string, l: Local) { forall i :: 0 <= i < |l.log.specs| ==> l.log.specs[i].realmName == key }

  /** No child ever has another reference than this. */
  ghost function Follows(refOf: nat -> string): Namespace -> bool {
    ns => forall c :: c in Refs(ns) ==> c.realmRef == refOf(c.uid)
  }

  ghost predicate RefsStay(refOf: nat -> string, acts: seq<Action>) {
    forall i :: 0 <= i < |acts| && acts[i].Children? ==> Follows(refOf)(acts[i].ns)
  }

  ghost predicate SettledNames(w: World, refOf: nat -> string) {
    && Follows(refOf)(w.shared.ns)
    && (forall k :: k in w.locals ==> Named(k, w.locals[k]) && Snapshots(w.locals[k], Follows(refOf)))
    && (forall i :: 0 <= i < |w.approvals| ==> w.approvals[i].ref.realmRef == refOf(w.approvals[i].ref.uid))
  }

  lemma StepNamed(w: World, a: Action, k: string)
    requires WorldInv(w) && Enabled(w, a) && NamesItself(a) && k in Apply(w, a).locals
    requires k in w.locals ==> Named(k, w.locals[k])
    ensures Named(k, Apply(w, a).locals[k])
  {
    hide WorldInv, Evolves, Refs, Safe;
    if a.Work? { WorkerKeepsSpecs(a.key, w.locals[a.key], w.shared, a.reply); }
    if k in w.locals { assert Named(k, w.locals[k]); }
  }

  lemma WorkerKeepsSpecs(key: string, l: Local, s: Shared, a: Reply)
    ensures Worker(key, l, s, a).0.log.specs == l.log.specs
  {
  }

  lemma StepFollows(w: World, a: Action, refOf: nat -> string)
    requires WorldInv(w) && Enabled(w, a) && Follows(refOf)(w.shared.ns) && (a.Children? ==> Follows(refOf)(a.ns))
    ensures Follows(refOf)(Apply(w, a).shared.ns)
  {
    StepGuarantee(w, a);
    StepRefs(w, a);
  }

  lemma StepSettled(w: World, a: Action, refOf: nat -> string)
    requires WorldInv(w) && Enabled(w, a) && NamesItself(a) && (a.Children? ==> Follows(refOf)(a.ns))
    requires SettledNames(w, refOf)
    ensures SettledNames(Apply(w, a), refOf)
  {
    hide WorldInv, Evolves, Refs, Safe, Snapshots, Named, Worker;
    var w' := Apply(w, a);
    StepFollows(w, a, refOf);
    forall k | k in w'.locals ensures Named(k, w'.locals[k]) && Snapshots(w'.locals[k], Follows(refOf)) {
      StepNamed(w, a, k);
      StepSnaps(w, a, k, Follows(refOf));
    }
    forall i | 0 <= i < |w'.approvals| ensures w'.approvals[i].ref.realmRef == refOf(w'.approvals[i].ref.uid) {
      if i < |w.approvals| { assert w'.approvals[i] == w.approvals[i]; }
    }
  }

  lemma {:induction false} RunSettled(w: World, acts: seq<Action>, refOf: nat -> string)
    requires WorldInv(w) && ValidRun(w, acts) && NamesAgree(acts) && RefsStay(refOf, acts) && SettledNames(w, refOf)
    ensures SettledNames(Run(w, acts), refOf)
    decreases |acts|
  {
    hide SettledNames, Follows;
    if |acts| > 0 {
      StepSettled(w, acts[0], refOf);
      StepKeepsInv(w, acts[0]);
      assert NamesAgree(acts[1..]) && RefsStay(refOf, acts[1..]);
      RunSettled(Apply(w, acts[0]), acts[1..], refOf);
    }
  }

  lemma RecordNamed(w0: World, acts: seq<Action>, w: World, key: string, i: nat)
    requires Reachable(w0, acts, w) && key in w.locals && i < |w.locals[key].log.readies| && Named(key, w.locals[key])
    ensures w.locals[key].log.readies[i].d.spec.realmName == key
  {
    LocalInv(w0, acts, w, key);
    assert DesiredOk(w.locals[key], w.shared, w.locals[key].log.readies[i].d);
  }

  /**
   In runs in which every Realm object bears its realmName and no child is given another reference, no
   Realm but the one that a child names when it is let go has ever been Ready on a payload listing it.
   */
  lemma UnaskedNeverListed(w0: World, acts: seq<Action>, w: World, refOf: nat -> string, i: nat, key: string, j: nat)
    requires Reachable(w0, acts, w) && NamesAgree(acts) && RefsStay(refOf, acts)
    requires i < |w.approvals| && key in w.locals && j < |w.locals[key].log.readies|
    ensures Lists(w.locals[key].log.readies[j].d, w.approvals[i].ref.uid) ==>
      && key == w.approvals[i].ref.realmRef && w.locals[key].log.readies[j].d.spec.realmName == key
      && w.approvals[i].ref.uid in Live(w.locals[key].log.readies[j].d.ns)
  {
    hide Lists, Live, Refs, WorldInv;
    InitSettled(w0, refOf);
    RunSettled(w0, acts, refOf);
    RecordNamed(w0, acts, w, key, j);
    RecordedPayload(w0, acts, w, key, j);
    var uid, d := w.approvals[i].ref.uid, w.locals[key].log.readies[j].d;
    ListsExactly(d, uid);
    if Lists(d, uid) {
      SawFollows(d.ns, uid, key, refOf);
      SawLive(d.ns, uid, key);
    }
  }

  /**
   Deletion safety in such runs: any Realm there is that has ever been Ready on a payload listing a child
   that was let go is the one that was asked, and gave the evidence, for the same Keycloak realm.
   */
  lemma SettledRunsAreSafe(w0: World, acts: seq<Action>, w: World, refOf: nat -> string, i: nat, key: string, j: nat)
    requires Reachable(w0, acts, w) && NamesAgree(acts) && RefsStay(refOf, acts)
    requires i < |w.approvals| && HasRealm(w, key) && j < |w.locals[key].log.readies|
    requires Lists(w.locals[key].log.readies[j].d, w.approvals[i].ref.uid)
    ensures
      var p, l := w.approvals[i], w.locals[key];
      && key == p.ref.realmRef && !p.Gone() && p.ref.deletedAt.Some? && p.record.Some?
      && Evidence(w.locals, p.ref, p.record.value)
      && l.log.readies[p.record.value].d.spec.realmName == key && l.log.readies[j].d.spec.realmName == key
  {
    hide Lists, Evidence, Live, Refs, WorldInv, LetGo;
    InitSettled(w0, refOf);
    RunSettled(w0, acts, refOf);
    RunLetGo(w0, acts);
    UnaskedNeverListed(w0, acts, w, refOf, i, key, j);
    DeletionSafety(w0, acts, w, i);
    var p := w.approvals[i];
    if p.Gone() {
      NotLiveInRecords(w, p, j);
      assert false;
    }
    EvidenceAt(w.locals, p.ref, p.record.value);
    RecordNamed(w0, acts, w, key, p.record.value);
  }

  lemma EvidenceAt(locals: map<string, Local>, c: Ref, record: nat)
    requires c.deletedAt.Some? && Evidence(locals, c, record)
    ensures c.realmRef in locals && record < |locals[c.realmRef].log.readies|
  {
  }

  lemma SawFollows(ns: Namespace, uid: nat, realmRef: string, refOf: nat -> string)
    requires SawAs(ns, uid, realmRef) && Follows(refOf)(ns)
    ensures realmRef == refOf(uid)
  {
  }

  lemma SawLive(ns: Namespace, uid: nat, realmRef: string)
    requires SawAs(ns, uid, realmRef)
    ensures uid in Live(ns)
  {
  }

  lemma InitSettled(w: World, refOf: nat -> string)
    requires Init(w)
    ensures WorldInv(w) && SettledNames(w, refOf)
  {
    InitInv(w);
  }

  // ----- one group ---------------------------------------------------------------------------

  const EMPTY := Namespace([], [], [], [], [], [], map[])

  /** A namespace with one live group, and what its build owes to it. */
  lemma OneGroup(spec: RealmSpec, g: Obj<GroupSpec>)
    requires !g.meta.Deleting() && g.realmRef == spec.realmName && spec.realmName != ""
    ensures Build(spec, EMPTY) == Some(RealmExport(spec, [], [], [], [], [], []))
    ensures Build(spec, EMPTY.(groups := [g])) == Some(RealmExport(spec, [], [], [g.spec], [], [], []))
    ensures SurviveAll(EMPTY.(groups := [g]), {g.meta.uid}) == EMPTY
    ensures Payload(spec, EMPTY) != Payload(spec, EMPTY.(groups := [g]))
  {
    CollectOne(g, spec.realmName, Same<GroupSpec>());
    var a, c := Build(spec, EMPTY.(groups := [g])).value, Build(spec, EMPTY).value;
    PayloadExact(a, c);
    assert |Norm(a).groups| != |Norm(c).groups|;
    assert DropLast([g]) == [] && Last([g]).meta.uid in {g.meta.uid};
    assert Survivors([g], {g.meta.uid}) == Survivors(DropLast([g]), {g.meta.uid}) + [];
    assert SurviveAll(EMPTY.(groups := [g]), {g.meta.uid}).groups == [];
  }

  lemma GroupRefs(g: Obj<GroupSpec>)
    ensures Refs(EMPTY) == {} && Refs(EMPTY.(groups := [g])) == {ToRef(g)}
  {
    assert RefsOf([g]) == {ToRef(g)};
  }
}
