/**
 The child controllers, on the Client, which alone also owns a credential
 (operator/internal/controller/client_controller.go, helper.go). The operator creates a client secret
 once and never changes it, and every export built from then on carries exactly that value.
 */
module Clients {
  import opened Wrappers
  import opened Api
  import opened Builder
  import World

  // ----- reference ---------------------------------------------------------------------------

  /** The calls of a child's reconcile. */
  datatype Call =
    | GetObject | GetRealm | GetSecret | DrawRandom | CreateSecret | PutAnnotation | PutObject | PutPending | PutFailure

  /** A call may be rejected, without effect, or take effect while its answer is lost. */
  datatype Faults = Faults(rejected: set<Call>, lost: set<Call>) {
    predicate Fails(c: Call) { c in rejected || c in lost }
    predicate Lands(c: Call) { c !in rejected }
  }

  datatype Answer = Yes | No | Error

  /** `IsSafelyDeletedFromRealm`: the stored times are truncated, and a Realm that is gone is safe. */
  function SafelyDeleted(realm: Option<Realm>, realmRef: string, deletedAt: Option<nat>, faults: Faults): Answer {
    if deletedAt.None? then No
    else if realmRef == "" || faults.Fails(GetRealm) then Error
    else match realm
      case None => Yes
      case Some(o) =>
        if o.status.ready && o.status.lastSync.Some? && o.status.lastSync.value > Trunc(deletedAt.value) then Yes else No
  }

  /** The check is the one whose consequences over whole runs `Handshake` states: it says yes exactly there. */
  lemma CheckIsSafe(w: World.World, c: World.Ref, faults: Faults)
    ensures
      var realm := if c.realmRef in w.locals then w.locals[c.realmRef].realm else None;
      SafelyDeleted(realm, c.realmRef, c.deletedAt, faults) == Yes <==> World.Safe(w, c) && !faults.Fails(GetRealm)
  {
  }

  /** A missing credential is created, nothing else changes. */
  function WithCredential(secrets: map<string, SecretData>, s: ClientSpec, drawn: string): map<string, SecretData> {
    if s.IsPublic() || CredentialName(s.clientId) in secrets then secrets
    else secrets[CredentialName(s.clientId) := map["CLIENT_ID" := s.clientId, "CLIENT_SECRET" := drawn]]
  }

  /** The Secrets after delegation; `rivals` are created by others right after the lookup. */
  function SecretsAfter(c: Obj<ClientSpec>, secrets: map<string, SecretData>, rivals: map<string, SecretData>,
                        drawn: string, faults: Faults): map<string, SecretData>
  {
    if c.realmRef == "" || c.spec.IsPublic() || faults.Fails(GetSecret) || CredentialName(c.spec.clientId) in secrets
    then secrets
    else if faults.Fails(DrawRandom) || !faults.Lands(CreateSecret) then rivals + secrets
    else WithCredential(rivals + secrets, c.spec, drawn)
  }

  /** Any number of delegations of any clients, each with its own draw, rivals and failures. */
  datatype Delegation = Delegation(
    client: Obj<ClientSpec>, rivals: map<string, SecretData>, drawn: string, faults: Faults)

  function AfterAll(secrets: map<string, SecretData>, runs: seq<Delegation>): map<string, SecretData> {
    if |runs| == 0 then secrets
    else
      var d := Last(runs);
      SecretsAfter(d.client, AfterAll(secrets, DropLast(runs)), d.rivals, d.drawn, d.faults)
  }

  lemma {:induction false} CredentialsNeverChange(secrets: map<string, SecretData>, runs: seq<Delegation>, name: string)
    requires name in secrets
    ensures name in AfterAll(secrets, runs) && AfterAll(secrets, runs)[name] == secrets[name]
  {
    if |runs| > 0 { CredentialsNeverChange(secrets, DropLast(runs), name); }
  }

  /** Different clients have different Secrets. */
  lemma CredentialNames(a: string, b: string)
    ensures CredentialName(a) == a + "-secret"
    ensures CredentialName(a) == CredentialName(b) <==> a == b
  {
    if CredentialName(a) == CredentialName(b) {
      assert |a| == |b| && (a + "-secret")[..|a|] == a && (b + "-secret")[..|b|] == b;
    }
  }

  /** What the application mounts. */
  function Mounted(secrets: map<string, SecretData>, clientId: string): string
    requires CredentialName(clientId) in secrets
  {
    var data := secrets[CredentialName(clientId)];
    if "CLIENT_SECRET" in data then data["CLIENT_SECRET"] else ""
  }

  /** Every client in a successful build: the mounted value if confidential, none if public. */
  lemma {:induction false} EntriesCarryCredentials(xs: seq<Obj<ClientSpec>>, realm: string, secrets: map<string, SecretData>)
    requires Collect(xs, realm, Builder.Clients(secrets)).Some?
    ensures forall e :: e in Collect(xs, realm, Builder.Clients(secrets)).value ==>
      if e.spec.IsPublic() then e.secret == ""
      else CredentialName(e.spec.clientId) in secrets && e.secret == Mounted(secrets, e.spec.clientId)
  {
    if |xs| > 0 { EntriesCarryCredentials(DropLast(xs), realm, secrets); }
  }

  /**
   Credential agreement: whatever clients are reconciled between two builds, of any realms, the two
   exports list one and the same secret for a confidential client they share.
   */
  lemma CredentialAgreement(a: RealmSpec, ns: Namespace, b: RealmSpec, ns': Namespace,
                            runs: seq<Delegation>, i: nat, j: nat)
    requires Build(a, ns).Some? && Build(b, ns').Some? && ns'.secrets == AfterAll(ns.secrets, runs)
    requires i < |Build(a, ns).value.clients| && j < |Build(b, ns').value.clients|
    requires
      var e, e' := Build(a, ns).value.clients[i], Build(b, ns').value.clients[j];
      e.spec.clientId == e'.spec.clientId && e.spec.IsPublic() == e'.spec.IsPublic()
    ensures Build(a, ns).value.clients[i].secret == Build(b, ns').value.clients[j].secret
  {
    var e, e' := Build(a, ns).value.clients[i], Build(b, ns').value.clients[j];
    EntriesCarryCredentials(ns.clients, a.realmName, ns.secrets);
    EntriesCarryCredentials(ns'.clients, b.realmName, ns'.secrets);
    assert e in Build(a, ns).value.clients && e' in Build(b, ns').value.clients;
    if !e.spec.IsPublic() { CredentialsNeverChange(ns.secrets, runs, CredentialName(e.spec.clientId)); }
  }

  // ----- one reconcile -----------------------------------------------------------------------

  /** The Realm named by the reference, if any, gets the trigger annotation. */
  function Annotated(realms: map<string, Realm>, realmRef: string, stamp: string): map<string, Realm> {
    if realmRef == "" || realmRef !in realms then realms
    else
      var o := realms[realmRef];
      realms[realmRef := o.(annotations := o.annotations[SYNC_REQUESTED := stamp])]
  }

  /** The Realm of that name carries the stamp as its trigger; all else about all Realms is as before. */
  predicate Woken(realms: map<string, Realm>, realms': map<string, Realm>, name: string, stamp: string) {
    && name in realms && realms'.Keys == realms.Keys
    && (forall k :: k in realms && k != name ==> realms'[k] == realms[k])
    && realms'[name] == realms[name].(annotations := realms'[name].annotations)
    && realms'[name].annotations == realms[name].annotations["keycloak.opendefense.cloud/sync-requested" := stamp]
  }

  lemma AnnotatedIsWoken(realms: map<string, Realm>, name: string, stamp: string)
    requires name != "" && name in realms
    ensures Woken(realms, Annotated(realms, name, stamp), name, stamp)
  {
  }

  /** It is what the action `Trigger` of the cluster does to a Realm. */
  lemma WokenInRuns(w: World.World, key: string, stamp: string, dt: nat)
    requires World.Enabled(w, World.Trigger(key, stamp, dt))
    ensures
      var w' := World.Apply(w, World.Trigger(key, stamp, dt));
      && key in w'.locals && w'.locals[key].realm.Some?
      && Woken(map[key := w.locals[key].realm.value], map[key := w'.locals[key].realm.value], key, stamp)
  {
  }

  /** The trigger fails without a Realm of that name, or if one of its calls fails. */
  predicate TriggerFails(realms: map<string, Realm>, realmRef: string, faults: Faults) {
    realmRef == "" || realmRef !in realms || faults.Fails(GetRealm) || faults.Fails(PutAnnotation)
  }

  /** The annotation is set, whether or not the caller learns of it. */
  predicate TriggerLands(realms: map<string, Realm>, realmRef: string, faults: Faults) {
    realmRef != "" && realmRef in realms && !faults.Fails(GetRealm) && faults.Lands(PutAnnotation)
  }

  /** A confidential client has no credential to rely on: a call failed, or somebody else was faster. */
  predicate CredentialFails(c: Obj<ClientSpec>, secrets: map<string, SecretData>, rivals: map<string, SecretData>,
                            faults: Faults)
  {
    var name := CredentialName(c.spec.clientId);
    && !c.spec.IsPublic()
    && (faults.Fails(GetSecret) || (name !in secrets && (faults.Fails(DrawRandom) || faults.Fails(CreateSecret) || name in rivals)))
  }

  lemma CredentialFailsExactly(c: Obj<ClientSpec>, secrets: map<string, SecretData>, rivals: map<string, SecretData>,
                               faults: Faults)
    ensures CredentialFails(c, secrets, rivals, faults) <==>
      && c.spec.publicClient != Some(true)
      && (faults.Fails(GetSecret)
          || (c.spec.clientId + "-secret" !in secrets
              && (c.spec.clientId + "-secret" in rivals || faults.Fails(DrawRandom) || faults.Fails(CreateSecret))))
  {
  }

  lemma NothingCreated(c: Obj<ClientSpec>, secrets: map<string, SecretData>, rivals: map<string, SecretData>,
                       drawn: string, faults: Faults)
    ensures c.realmRef == "" || c.spec.IsPublic() ==> SecretsAfter(c, secrets, rivals, drawn, faults) == secrets
  {
  }

  predicate DelegationFails(c: Obj<ClientSpec>, realms: map<string, Realm>, secrets: map<string, SecretData>,
                            rivals: map<string, SecretData>, faults: Faults)
  {
    c.realmRef == "" || CredentialFails(c, secrets, rivals, faults) || TriggerFails(realms, c.realmRef, faults)
  }

  /** The Realms after delegation. */
  function RealmsAfter(c: Obj<ClientSpec>, realms: map<string, Realm>, secrets: map<string, SecretData>,
                       rivals: map<string, SecretData>, stamp: string, faults: Faults): map<string, Realm>
  {
    if !CredentialFails(c, secrets, rivals, faults) && TriggerLands(realms, c.realmRef, faults)
    then Annotated(realms, c.realmRef, stamp)
    else realms
  }

  /** Everything that keeps a client from being handed over to its Realm. */
  predicate Hindered(c: Obj<ClientSpec>, realms: map<string, Realm>, secrets: map<string, SecretData>,
                     rivals: map<string, SecretData>, faults: Faults)
  {
    || c.realmRef == "" || c.realmRef !in realms || faults.Fails(GetRealm) || faults.Fails(PutAnnotation)
    || (c.spec.publicClient != Some(true)
        && (faults.Fails(GetSecret)
            || (c.spec.clientId + "-secret" !in secrets
                && (c.spec.clientId + "-secret" in rivals || faults.Fails(DrawRandom) || faults.Fails(CreateSecret)))))
  }

  predicate Leaving(c: Option<Obj<ClientSpec>>) {
    c.Some? && c.value.meta.Deleting() && c.value.meta.finalizer && c.value.realmRef != ""
  }

  predicate Staying(c: Option<Obj<ClientSpec>>) { c.Some? && !c.value.meta.Deleting() && c.value.meta.finalizer }

  function ChildStatus(s: RealmStatus, failed: bool, generation: nat, now: nat): RealmStatus {
    ApplyStatus(s, StatusUpdate(if failed then SyncFailed else JobRunning, "", Keep), generation, now)
  }

  // ----- the code ----------------------------------------------------------------------------

  class ClientReconciler {
    var client: Option<Obj<ClientSpec>>
    var generation: nat
    var status: RealmStatus
    var realms: map<string, Realm>
    var secrets: map<string, SecretData>
    var now: nat

    method IsSafelyDeletedFromRealm(realmRef: string, deletedAt: Option<nat>, faults: Faults) returns (a: Answer)
      ensures a == SafelyDeleted(if realmRef in realms then Some(realms[realmRef]) else None, realmRef, deletedAt, faults)
      ensures a == Error <==> deletedAt.Some? && (realmRef == "" || faults.Fails(GetRealm))
      ensures a == Yes && realmRef in realms ==>
        realms[realmRef].status.lastSync.Some? &&
        realms[realmRef].status.ready && Trunc(deletedAt.value) < realms[realmRef].status.lastSync.value
    {
      if deletedAt.None? { return No; }
      if realmRef == "" { return Error; }
      if faults.Fails(GetRealm) { return Error; }
      if realmRef !in realms { return Yes; }
      var st := realms[realmRef].status;
      if st.ready && st.lastSync.Some? && st.lastSync.value > Trunc(deletedAt.value) { return Yes; }
      return No;
    }

    method TriggerRealmSync(realmRef: string, stamp: string, faults: Faults) returns (err: bool)
      modifies this`realms
      ensures err <==> realmRef == "" || realmRef !in old(realms) || faults.Fails(GetRealm) || faults.Fails(PutAnnotation)
      ensures
        var lands := realmRef != "" && realmRef in old(realms) && !faults.Fails(GetRealm) && faults.Lands(PutAnnotation);
        if lands then Woken(old(realms), realms, realmRef, stamp) else realms == old(realms)
      ensures realms == if TriggerLands(old(realms), realmRef, faults) then Annotated(old(realms), realmRef, stamp) else old(realms)
    {
      if realmRef == "" { return true; }
      if faults.Fails(GetRealm) { return true; }
      if realmRef !in realms { return true; }
      if faults.Lands(PutAnnotation) {
        var o := realms[realmRef];
        realms := realms[realmRef := o.(annotations := o.annotations[SYNC_REQUESTED := stamp])];
      }
      return faults.Fails(PutAnnotation);
    }

    /** Look the credential up, and create it from the random string if it is not there. */
    method EnsureCredential(drawn: string, rivals: map<string, SecretData>, faults: Faults) returns (err: bool)
      requires client.Some? && client.value.realmRef != "" && !client.value.spec.IsPublic()
      modifies this`secrets
      ensures err == CredentialFails(client.value, old(secrets), rivals, faults)
      ensures secrets == SecretsAfter(client.value, old(secrets), rivals, drawn, faults)
      ensures !err ==> client.value.spec.clientId + "-secret" in secrets
    {
      var c := client.value;
      var name := CredentialName(c.spec.clientId);
      if faults.Fails(GetSecret) { return true; }
      if name !in secrets {
        secrets := rivals + secrets;
        if faults.Fails(DrawRandom) || name in secrets { return true; }
        if faults.Lands(CreateSecret) {
          secrets := secrets[name := map["CLIENT_ID" := c.spec.clientId, "CLIENT_SECRET" := drawn]];
        }
        if faults.Fails(CreateSecret) { return true; }
      }
      return false;
    }

    /**
     Delegate to the Realm: `drawn` is the random string, `rivals` the Secrets that others create
     right after the lookup. The status is Pending, never Ready.
     */
    method Sync(drawn: string, rivals: map<string, SecretData>, stamp: string, faults: Faults) returns (err: bool)
      requires client.Some?
      modifies this`secrets, this`realms, this`status
      ensures secrets == SecretsAfter(client.value, old(secrets), rivals, drawn, faults)
      ensures
        var failed := DelegationFails(client.value, old(realms), old(secrets), rivals, faults);
        && (err <==> failed || faults.Fails(PutPending))
        && realms == RealmsAfter(client.value, old(realms), old(secrets), rivals, stamp, faults)
        && status == (if !failed && faults.Lands(PutPending) then ChildStatus(old(status), false, generation, now)
                      else old(status))
      // A public client, or one whose credential is there, needs nothing but its Realm.
      ensures !err ==>
        && client.value.realmRef in old(realms) && Woken(old(realms), realms, client.value.realmRef, stamp)
        && !status.ready && status.conditions == [Condition(false, JobRunning, Trunc(now))]
        && status.lastSync == Some(Trunc(now)) && status.observedGeneration == generation
        && (client.value.spec.publicClient != Some(true) ==> client.value.spec.clientId + "-secret" in secrets)
      ensures err <==> Hindered(client.value, old(realms), old(secrets), rivals, faults) || faults.Fails(PutPending)
      ensures Woken(old(realms), realms, client.value.realmRef, stamp) || realms == old(realms)
    {
      hide Annotated, Woken, SecretsAfter, CredentialFails;
      var c := client.value;
      CredentialFailsExactly(c, secrets, rivals, faults);
      NothingCreated(c, secrets, rivals, drawn, faults);
      if c.realmRef == "" { return true; }
      if !c.spec.IsPublic() {
        err := EnsureCredential(drawn, rivals, faults);
        if err { return; }
      }
      err := TriggerRealmSync(c.realmRef, stamp, faults);
      if err { return; }
      if faults.Lands(PutPending) {
        status := ApplyStatus(status, StatusUpdate(JobRunning, "", Keep), generation, now);
      }
      err := faults.Fails(PutPending);
    }

    /**
     One reconcile. A deleted client goes exactly when it has the finalizer, the check says yes and the
     removal succeeds, and until then keeps its Realm triggered; a new one gets the finalizer first; any
     other delegates.
     */
    method Reconcile(drawn: string, rivals: map<string, SecretData>, stamp: string, faults: Faults) returns (err: bool)
      modifies this
      ensures generation == old(generation) && now == old(now)
      ensures old(client).None? || faults.Fails(GetObject) ==>
        && client == old(client) && realms == old(realms) && secrets == old(secrets) && status == old(status)
        && (err <==> faults.Fails(GetObject))
      ensures !faults.Fails(GetObject) && old(client).Some? && old(client).value.meta.Deleting() ==>
        var c := old(client).value;
        var realm := if c.realmRef in old(realms) then Some(old(realms)[c.realmRef]) else None;
        var answer := SafelyDeleted(realm, c.realmRef, c.meta.deletedAt, faults);
        var triggers := c.meta.finalizer && answer == No && TriggerLands(old(realms), c.realmRef, faults);
        && secrets == old(secrets) && status == old(status)
        && client == (if c.meta.finalizer && answer == Yes && faults.Lands(PutObject) then None else old(client))
        && realms == (if triggers then Annotated(old(realms), c.realmRef, stamp) else old(realms))
        && (err <==> c.meta.finalizer && (answer == Error || (answer == Yes && faults.Fails(PutObject))))
      ensures !faults.Fails(GetObject) && old(client).Some? && !old(client).value.meta.Deleting()
              && !old(client).value.meta.finalizer ==>
        var c := old(client).value;
        && client == (if faults.Lands(PutObject) then Some(c.(meta := c.meta.(finalizer := true))) else old(client))
        && realms == old(realms) && secrets == old(secrets) && status == old(status)
        && (err <==> faults.Fails(PutObject))
      ensures !faults.Fails(GetObject) && old(client).Some? && !old(client).value.meta.Deleting()
              && old(client).value.meta.finalizer ==>
        var c := old(client).value;
        var failed := DelegationFails(c, old(realms), old(secrets), rivals, faults);
        && client == old(client) && !err
        && secrets == SecretsAfter(c, old(secrets), rivals, drawn, faults)
        && realms == RealmsAfter(c, old(realms), old(secrets), rivals, stamp, faults)
        && var pending := if !failed && faults.Lands(PutPending) then ChildStatus(old(status), false, generation, now)
                          else old(status);
           status == if (failed || faults.Fails(PutPending)) && faults.Lands(PutFailure)
                     then ChildStatus(pending, true, generation, now) else pending
      // What it comes to for the Realm and the status.
      ensures realms == old(realms)
        || (old(client).Some? && Woken(old(realms), realms, old(client).value.realmRef, stamp))
      ensures Leaving(old(client)) && faults == Faults({}, {}) && old(client).value.realmRef in old(realms) ==>
        if client.None? then realms == old(realms) else Woken(old(realms), realms, old(client).value.realmRef, stamp)
      ensures Staying(old(client)) && faults == Faults({}, {}) ==>
        var c := old(client).value;
        && !status.ready && status.lastSync == Some(Trunc(now)) && status.observedGeneration == generation
        && (if Hindered(c, old(realms), old(secrets), rivals, faults)
            then status.conditions == [Condition(false, SyncFailed, Trunc(now))]
            else status.conditions == [Condition(false, JobRunning, Trunc(now))]
                 && Woken(old(realms), realms, c.realmRef, stamp))
    {
      if faults.Fails(GetObject) { return true; }
      if client.None? { return false; }
      var c := client.value;
      if c.meta.Deleting() {
        if c.meta.finalizer {
          var safe := IsSafelyDeletedFromRealm(c.realmRef, c.meta.deletedAt, faults);
          if safe == Error { return true; }
          if safe == Yes {
            if faults.Lands(PutObject) { client := None; }
            return faults.Fails(PutObject);
          }
          var ignored := TriggerRealmSync(c.realmRef, stamp, faults);
        }
        return false;
      }
      if !c.meta.finalizer {
        if faults.Lands(PutObject) { client := Some(c.(meta := c.meta.(finalizer := true))); }
        return faults.Fails(PutObject);
      }
      err := Sync(drawn, rivals, stamp, faults);
      if err {
        if faults.Lands(PutFailure) {
          status := ApplyStatus(status, StatusUpdate(SyncFailed, "", Keep), generation, now);
        }
        err := false;
      }
    }
  }

  /**
   No delegation overwrites a Secret that was there before or that somebody else created meanwhile;
   and when it succeeds, a confidential client has its credential: the old one, or the one just drawn.
   */
  lemma DelegationKeepsSecrets(c: Obj<ClientSpec>, realms: map<string, Realm>, secrets: map<string, SecretData>,
                               rivals: map<string, SecretData>, drawn: string, faults: Faults)
    ensures
      var after, name := SecretsAfter(c, secrets, rivals, drawn, faults), CredentialName(c.spec.clientId);
      && (forall n :: n in secrets ==> n in after && after[n] == secrets[n])
      && (forall n :: n in after && n !in secrets && n !in rivals ==>
            n == name && after[n] == map["CLIENT_ID" := c.spec.clientId, "CLIENT_SECRET" := drawn])
      && (forall n :: n in after && n !in secrets && n in rivals ==> after[n] == rivals[n])
      && (!DelegationFails(c, realms, secrets, rivals, faults) && !c.spec.IsPublic() ==>
            && name in after
            && Mounted(after, c.spec.clientId) == if name in secrets then Mounted(secrets, c.spec.clientId) else drawn)
  {
    var after, name := SecretsAfter(c, secrets, rivals, drawn, faults), CredentialName(c.spec.clientId);
    if !DelegationFails(c, realms, secrets, rivals, faults) && !c.spec.IsPublic() && name !in secrets {
      assert after[name] == map["CLIENT_ID" := c.spec.clientId, "CLIENT_SECRET" := drawn];
    }
  }
}
