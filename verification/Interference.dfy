/**
 What the rest of the cluster may do between two calls of one Realm's reconcile, and why that never
 breaks the invariant of `Protocol`: users edit and annotate the Realm, Jobs read the Secret and end,
 other Realms spawn and collect their own Jobs.
 */
module Interference {
  import opened Wrappers
  import opened Api
  import opened Protocol

  /** One Job before and after: it may read the Secret again or end, but an ended Job is final. */
  predicate JobRely(key: string, writes: seq<Write>, a: Job, b: Job) {
    && a.owners == b.owners && a.mounts == b.mounts && a.created == b.created && a.birth == b.birth
    && (Terminal(a) ==> JobVerdict(b.conditions) == JobVerdict(a.conditions) && b.carried == a.carried)
    && (JobVerdict(b.conditions) == Succeeded ==> b.carried.Some?)
    && (a.mounts == key && b.carried != a.carried ==> |writes| > 0 && b.carried == Some(|writes| - 1))
  }

  predicate RealmRely(l: Local, l': Local) {
    && l.log.specs <= l'.log.specs
    && l' == l.(realm := l'.realm, log := l.log.(specs := l'.log.specs))
    && (l.realm.None? ==> l'.realm.None?)
    && (l.realm.Some? ==>
         && l'.realm.Some? && SpecInv(l')
         && l'.realm.value.uid == l.realm.value.uid && l'.realm.value.status == l.realm.value.status
         && l'.realm.value.finalizer == l.realm.value.finalizer
         && (l.realm.value.deletedAt.Some? ==> l'.realm.value.deletedAt == l.realm.value.deletedAt))
  }

  ghost predicate SharedRely(key: string, l: Local, s: Shared, s': Shared) {
    && s'.render == s.render && s.now <= s'.now && s.nextJob <= s'.nextJob && (s.vanished ==> s'.vanished)
    && (forall j :: j in s'.jobs && j < s.nextJob ==> j in s.jobs && JobRely(key, l.log.writes, s.jobs[j], s'.jobs[j]))
    && (forall j :: j in s'.jobs && j >= s.nextJob ==>
          && j < s'.nextJob && s'.jobs[j].mounts != key && s'.jobs[j].created <= s'.now
          && (JobVerdict(s'.jobs[j].conditions) == Succeeded ==> s'.jobs[j].carried.Some?))
    && (forall j :: j in s.jobs && !s'.vanished && l.realm.Some? && l.realm.value.uid in s.jobs[j].owners ==> j in s'.jobs)
  }

  ghost predicate Rely(key: string, l: Local, s: Shared, l': Local, s': Shared) {
    RealmRely(l, l') && SharedRely(key, l, s, s')
  }

  lemma RelyKeepsJobs(key: string, l: Local, s: Shared, l': Local, s': Shared)
    requires Rest(key, l, s) && Rely(key, l, s, l', s')
    ensures JobsInv(key, l', s') && ActiveInv(key, l', s')
  {
    forall j | j in s'.jobs
      ensures j < s'.nextJob && s'.jobs[j].created <= s'.now && JobOk(key, l'.log.writes, s'.jobs[j])
    {
      if j < s.nextJob { assert JobRely(key, l.log.writes, s.jobs[j], s'.jobs[j]); }
    }
  }

  lemma RelyKeepsRest(key: string, l: Local, s: Shared, l': Local, s': Shared)
    requires Rest(key, l, s) && Rely(key, l, s, l', s')
    ensures Rest(key, l', s')
  {
    RelyKeepsJobs(key, l, s, l', s');
    RecordsFrame(key, l, s, l', s');
  }

  lemma RelyKeepsPc(key: string, l: Local, s: Shared, l': Local, s': Shared)
    requires PcInv(key, l, s) && JobsInv(key, l, s) && ConfigInv(l) && Rely(key, l, s, l', s')
    ensures PcInv(key, l', s')
  {
  }

  lemma RelyKeepsInv(key: string, l: Local, s: Shared, l': Local, s': Shared)
    requires Inv(key, l, s) && Rely(key, l, s, l', s')
    ensures Inv(key, l', s')
  {
    RelyKeepsRest(key, l, s, l', s');
    RelyKeepsPc(key, l, s, l', s');
  }
}
