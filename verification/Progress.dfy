/**
 Recovery in runs of the whole cluster, and what it means for the finalizer handshake: a Realm that has
 recovered lets its deleted children go.
 */
module Progress {
  import opened Wrappers
  import opened Api
  import opened Json
  import opened Protocol
  import opened World
  import opened Recovery
  import opened Theorems

  /** What a call of a Realm's reconcile leads to is a state of the run. */
  lemma {:induction false} StepInRun(w: World, acts: seq<Action>, key: string, i: nat) returns (n: nat)
    requires ValidRun(w, acts) && key in w.locals && i < |StepsOf(w, acts, key)|
    ensures 0 < n <= |acts| && ValidRun(w, acts[..n])
    ensures
      var w' := Run(w, acts[..n]);
      key in w'.locals && (w'.locals[key], w'.shared) == Next(key, StepsOf(w, acts, key)[i])
    decreases |acts|
  {
    StepKeepsKey(w, acts[0], key);
    var own := acts[0].Work? && acts[0].key == key;
    if own && i == 0 {
      n := 1;
      FirstOf(w, acts);
    } else {
      var m := StepInRun(Apply(w, acts[0]), acts[1..], key, if own then i - 1 else i);
      n := m + 1;
      assert acts[..n][0] == acts[0] && acts[..n][1..] == acts[1..][..m];
    }
  }

  lemma FirstOf(w: World, acts: seq<Action>)
    requires ValidRun(w, acts) && |acts| > 0
    ensures ValidRun(w, acts[..1]) && Run(w, acts[..1]) == Apply(w, acts[0])
  {
    assert acts[..1][0] == acts[0] && acts[..1][1..] == [];
    assert ValidRun(Apply(w, acts[0]), []);
  }

  /** The state is one in which the Realm has just become Ready with the desired payload. */
  predicate Recovered(w: World, key: string, desired: Json) {
    && HasRealm(w, key) && ReadyWith(key, w.locals[key], desired) && w.locals[key].pc.Idle?
    && w.locals[key].realm.value.status.lastSync == Some(Trunc(w.shared.now))
  }

  /**
   Recovery, whatever else goes on in the cluster between any two calls: in every stretch of every run in
   which the desired state is fixed, a due spawn succeeds and its Job is seen to finish, the Realm becomes
   Ready with the desired payload.
   */
  lemma RunsRecover(w0: World, acts: seq<Action>, w: World, more: seq<Action>, key: string, desired: Json, k: nat)
    returns (n: nat)
    requires Reachable(w0, acts, w) && ValidRun(w, more) && key in w.locals
    requires Fixed(StepsOf(w, more, key), desired) && Fair(StepsOf(w, more, key), desired, k)
    ensures 0 < n <= |more| && ValidRun(w, more[..n]) && Recovered(Run(w, more[..n]), key, desired)
  {
    hide Fixed, Fair, ReadyWith, WorldInv, Worker;
    ReachableInv(w0, acts, w);
    RunsAreTraces(w, more, key);
    var steps := StepsOf(w, more, key);
    assert Calm(key, steps, desired);
    var j, f, i := Recovers(key, steps, desired, k);
    n := StepInRun(w, more, key, i);
    AnsweredIs(key, steps[i]);
  }

  lemma AnsweredIs(key: string, a: Step)
    ensures Next(key, a).1.now == Answered(a)
  {
    TimePasses(key, a);
  }

  /** A recovered Realm lets go of every child that was deleted in an earlier second. */
  lemma RecoveredLetsGo(w: World, key: string, desired: Json, c: Ref)
    requires Recovered(w, key, desired) && c.realmRef == key && key != "" && c.deletedAt.Some?
    ensures Safe(w, c) <==> Trunc(c.deletedAt.value) < Trunc(w.shared.now)
  {
  }

  /**
   The handshake makes progress: a child with the finalizer, deleted in an earlier second than the one in
   which its Realm recovers, may be let go there and then.
   */
  lemma HandshakeProgresses(w0: World, acts: seq<Action>, w: World, more: seq<Action>, key: string, desired: Json, k: nat)
    returns (n: nat)
    requires Reachable(w0, acts, w) && ValidRun(w, more) && key in w.locals && key != ""
    requires Fixed(StepsOf(w, more, key), desired) && Fair(StepsOf(w, more, key), desired, k)
    ensures 0 < n <= |more| && ValidRun(w, more[..n]) && Recovered(Run(w, more[..n]), key, desired)
    ensures
      var w' := Run(w, more[..n]);
      forall c, dt :: c in Refs(w'.shared.ns) && c.finalizer && c.realmRef == key && c.deletedAt.Some? ==>
        (Enabled(w', Approve(c, dt)) <==> Trunc(c.deletedAt.value) < Trunc(w'.shared.now))
  {
    hide Fixed, Fair, Recovered, Safe, Refs;
    n := RunsRecover(w0, acts, w, more, key, desired, k);
    var w' := Run(w, more[..n]);
    forall c: Ref, dt: nat | c in Refs(w'.shared.ns) && c.finalizer && c.realmRef == key && c.deletedAt.Some?
      ensures Enabled(w', Approve(c, dt)) <==> Trunc(c.deletedAt.value) < Trunc(w'.shared.now)
    {
      RecoveredLetsGo(w', key, desired, c);
    }
  }
}
