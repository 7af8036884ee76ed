/**
 The objects of the cluster: custom resources with their specs, the realm status, the config
 Secret and the config-cli Jobs. Time is in nanoseconds; what the API server stores is truncated
 to whole seconds.
 */
module Api {
  import opened Wrappers

  const SECOND: nat := 1_000_000_000
  const MINUTE: nat := 60 * SECOND

  /** RFC 3339 (section 5.6) without a fraction: the whole second a moment lies in. */
  function Trunc(t: nat): (r: nat)
    ensures r <= t < r + SECOND
    ensures r % SECOND == 0
  {
    t - t % SECOND
  }

  /** Go tells a nil slice or map from an empty one; so does `encoding/json` where nothing is omitted. */
  type Slice = Option<seq<string>>
  type StringMap = Option<map<string, string>>
  type SliceMap = Option<map<string, Slice>>

  // ----- custom resources --------------------------------------------------------------------

  datatype Meta = Meta(name: string, uid: nat, created: nat, deletedAt: Option<nat>, finalizer: bool) {
    predicate Deleting() { deletedAt.Some? }
  }

  /** A child resource: metadata, the realm it names, and the rest of its spec. */
  datatype Obj<S> = Obj(meta: Meta, realmRef: string, spec: S)

  datatype RealmSpec = RealmSpec(
    realmName: string, displayName: string, enabled: Option<bool>, registrationAllowed: Option<bool>,
    resetPasswordAllowed: Option<bool>, bruteForceProtected: Option<bool>, loginTheme: string,
    accountTheme: string, adminTheme: string, emailTheme: string, sslRequired: string,
    internationalizationEnabled: Option<bool>, supportedLocales: Slice, defaultLocale: string,
    accessTokenLifespan: Option<int>)

  datatype ClientSpec = ClientSpec(
    clientId: string, name: string, description: string, enabled: Option<bool>, protocol: string,
    publicClient: Option<bool>, standardFlowEnabled: Option<bool>, implicitFlowEnabled: Option<bool>,
    directAccessGrantsEnabled: Option<bool>, serviceAccountsEnabled: Option<bool>,
    redirectUris: Slice, webOrigins: Slice)
  {
    predicate IsPublic() { publicClient == Some(true) }
  }

  datatype KeyRef = KeyRef(secret: string, key: string)

  datatype UserSpec = UserSpec(
    username: string, email: string, firstName: string, lastName: string, enabled: Option<bool>,
    emailVerified: Option<bool>, groups: Slice, attributes: SliceMap, realmRoles: Slice,
    clientRoles: SliceMap, initialPassword: Option<KeyRef>)

  datatype GroupSpec = GroupSpec(name: string, path: string, attributes: SliceMap, realmRoles: Slice)

  datatype ScopeSpec = ScopeSpec(name: string, protocol: string, description: string, attributes: StringMap)

  datatype FlowSpec = FlowSpec(alias: string, description: string, topLevel: bool, requireMfa: bool)

  datatype IdpSpec = IdpSpec(
    alias: string, kind: string, enabled: bool, displayName: string, storeToken: bool,
    addReadTokenRoleOnCreate: bool, trustEmail: bool, linkOnly: bool, firstBrokerLoginFlowAlias: string,
    postBrokerLoginFlowAlias: string, config: StringMap, clientSecretRef: Option<KeyRef>,
    signingCertificateRef: Option<KeyRef>)

  type SecretData = map<string, string>

  /** What a build reads: the six listings, in the order the API returns them, and the Secrets. */
  datatype Namespace = Namespace(
    clients: seq<Obj<ClientSpec>>, scopes: seq<Obj<ScopeSpec>>, groups: seq<Obj<GroupSpec>>,
    users: seq<Obj<UserSpec>>, flows: seq<Obj<FlowSpec>>, idps: seq<Obj<IdpSpec>>,
    secrets: map<string, SecretData>)

  // ----- realm -------------------------------------------------------------------------------

  const SYNC_REQUESTED := "keycloak.opendefense.cloud/sync-requested"

  datatype Reason = Synced | JobRunning | SyncFailed

  datatype Condition = Condition(ok: bool, reason: Reason, at: nat)

  datatype RealmStatus = RealmStatus(
    ready: bool, lastSync: Option<nat>, conditions: seq<Condition>, keycloakId: string,
    observedGeneration: nat, activeJob: Option<nat>)

  const NO_STATUS := RealmStatus(false, None, [], "", 0, None)

  datatype Realm = Realm(
    uid: nat, spec: RealmSpec, generation: nat, deletedAt: Option<nat>, finalizer: bool,
    annotations: map<string, string>, status: RealmStatus)

  /** What one status write changes besides the time stamps: the verdict and the tracked Job. */
  datatype ActiveJob = Keep | Track(job: Option<nat>)
  datatype StatusUpdate = StatusUpdate(reason: Reason, id: string, active: ActiveJob)

  /** `setReady`, `setPending` or `setFailed`, then the observed generation and the tracked Job. */
  function ApplyStatus(s: RealmStatus, u: StatusUpdate, generation: nat, now: nat): RealmStatus {
    RealmStatus(
      ready := u.reason == Synced,
      lastSync := Some(Trunc(now)),
      conditions := [Condition(u.reason == Synced, u.reason, Trunc(now))],
      keycloakId := if u.reason == Synced then u.id else s.keycloakId,
      observedGeneration := generation,
      activeJob := if u.active.Keep? then s.activeJob else u.active.job)
  }

  // ----- Jobs --------------------------------------------------------------------------------

  datatype JobKind = Complete | Failed | Other
  datatype JobCondition = JobCondition(kind: JobKind, isTrue: bool)

  /**
   A config-cli Job. `mounts` names the Realm whose config Secret the pod mounts; `birth` and
   `carried` are positions in the sequence of payloads that Secret has held: the one it held when
   the Job was created, and the one the Job last read.
   */
  datatype Job = Job(
    owners: seq<nat>, mounts: string, created: nat, conditions: seq<JobCondition>,
    birth: nat, carried: Option<nat>)

  datatype Verdict = Running | Succeeded | Broken

  /** The first condition with status True that is Complete or Failed decides. */
  function JobVerdict(cs: seq<JobCondition>): Verdict {
    if |cs| == 0 then Running
    else if cs[0].isTrue && cs[0].kind == Complete then Succeeded
    else if cs[0].isTrue && cs[0].kind == Failed then Broken
    else JobVerdict(cs[1..])
  }

  predicate Decides(c: JobCondition) { c == JobCondition(Complete, true) || c == JobCondition(Failed, true) }

  /** The first deciding condition is of this kind. */
  predicate DecidedBy(cs: seq<JobCondition>, kind: JobKind) {
    exists i :: 0 <= i < |cs| && cs[i] == JobCondition(kind, true) && forall j :: 0 <= j < i ==> !Decides(cs[j])
  }

  /** A true Complete means success, a true Failed failure, whichever comes first; else the Job runs. */
  lemma {:induction false} VerdictExactly(cs: seq<JobCondition>)
    ensures JobVerdict(cs) == Succeeded <==> DecidedBy(cs, Complete)
    ensures JobVerdict(cs) == Broken <==> DecidedBy(cs, Failed)
    ensures JobVerdict(cs) == Running <==> forall i :: 0 <= i < |cs| ==> !Decides(cs[i])
  {
    if |cs| > 0 {
      VerdictExactly(cs[1..]);
      if !Decides(cs[0]) {
        DecidedLater(cs, Complete);
        DecidedLater(cs, Failed);
        assert forall i :: 0 < i < |cs| ==> cs[i] == cs[1..][i - 1];
      } else {
        assert DecidedBy(cs, cs[0].kind);
      }
    }
  }

  lemma DecidedLater(cs: seq<JobCondition>, kind: JobKind)
    requires |cs| > 0 && !Decides(cs[0]) && (kind == Complete || kind == Failed)
    ensures DecidedBy(cs, kind) <==> DecidedBy(cs[1..], kind)
  {
    if i :| 0 <= i < |cs| && cs[i] == JobCondition(kind, true) && forall j :: 0 <= j < i ==> !Decides(cs[j]) {
      assert cs[1..][i - 1] == cs[i];
      forall j | 0 <= j < i - 1 ensures !Decides(cs[1..][j]) { assert cs[1..][j] == cs[j + 1]; }
    }
    if i :| 0 <= i < |cs[1..]| && cs[1..][i] == JobCondition(kind, true) && forall j :: 0 <= j < i ==> !Decides(cs[1..][j]) {
      assert cs[i + 1] == cs[1..][i];
      forall j | 0 <= j < i + 1 ensures !Decides(cs[j]) { if j > 0 { assert cs[j] == cs[1..][j - 1]; } }
    }
  }

  predicate Terminal(j: Job) { JobVerdict(j.conditions) != Running }

  /** A condition appended later never changes a verdict already reached. */
  lemma {:induction false} VerdictStable(cs: seq<JobCondition>, c: JobCondition)
    ensures JobVerdict(cs) != Running ==> JobVerdict(cs + [c]) == JobVerdict(cs)
    ensures JobVerdict(cs) == Running ==> JobVerdict(cs + [c]) == JobVerdict([c])
  {
    if |cs| == 0 {
      assert cs + [c] == [c];
    } else {
      VerdictStable(cs[1..], c);
      assert (cs + [c])[1..] == cs[1..] + [c];
    }
  }
}
