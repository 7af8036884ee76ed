/**
 Building the desired state of one realm from the listings of its namespace
 (operator/internal/wrapper/builder.go).

 `Collect` is the reference: every listed object contributes nothing, an entry, or a failure, and the
 result is their concatenation. `BuildRealmExport` is the code: six loops that append to six slices
 and return early. The theorems about isolation, partition, deletion and order are about `Collect`
 and hold for all six kinds at once.
 */
module Builder {
  import opened Wrappers
  import opened Api
  import opened Json
  import opened Export

  // ----- reference ---------------------------------------------------------------------------

  /** What one listed object adds: nothing when deleted or of another realm, else its translation. */
  function Contribution<S, E>(o: Obj<S>, realm: string, f: S -> Option<E>): Option<seq<E>> {
    if o.meta.Deleting() then Some([])
    else if o.realmRef == "" then None
    else if o.realmRef != realm then Some([])
    else match f(o.spec) case None => None case Some(e) => Some([e])
  }

  function Join<E>(a: Option<seq<E>>, b: Option<seq<E>>): Option<seq<E>> {
    if a.Some? && b.Some? then Some(a.value + b.value) else None
  }

  function Collect<S, E>(xs: seq<Obj<S>>, realm: string, f: S -> Option<E>): Option<seq<E>> {
    if |xs| == 0 then Some([])
    else Join(Collect(DropLast(xs), realm, f), Contribution(Last(xs), realm, f))
  }

  lemma {:induction false} CollectAppend<S, E>(xs: seq<Obj<S>>, ys: seq<Obj<S>>, realm: string, f: S -> Option<E>)
    ensures Collect(xs + ys, realm, f) == Join(Collect(xs, realm, f), Collect(ys, realm, f))
  {
    if |ys| == 0 {
      assert xs + ys == xs;
      if Collect(xs, realm, f).Some? { assert Collect(xs, realm, f).value + [] == Collect(xs, realm, f).value; }
    } else {
      CollectAppend(xs, DropLast(ys), realm, f);
      assert DropLast(xs + ys) == xs + DropLast(ys) && Last(xs + ys) == Last(ys);
      var a, b, c := Collect(xs, realm, f), Collect(DropLast(ys), realm, f), Contribution(Last(ys), realm, f);
      if a.Some? && b.Some? && c.Some? { assert a.value + b.value + c.value == a.value + (b.value + c.value); }
    }
  }

  lemma CollectOne<S, E>(x: Obj<S>, realm: string, f: S -> Option<E>)
    ensures Collect([x], realm, f) == Contribution(x, realm, f)
  {
    assert DropLast([x]) == [];
    assert Collect<S, E>([], realm, f) == Some([]);
    if Contribution(x, realm, f).Some? { assert [] + Contribution(x, realm, f).value == Contribution(x, realm, f).value; }
  }

  /** Splitting at a position: what is before, the object itself, what is after. */
  lemma CollectSplit<S, E>(xs: seq<Obj<S>>, i: nat, realm: string, f: S -> Option<E>)
    requires i < |xs|
    ensures Collect(xs, realm, f)
         == Join(Join(Collect(xs[..i], realm, f), Contribution(xs[i], realm, f)), Collect(xs[i + 1..], realm, f))
    ensures Collect(Without(xs, i), realm, f) == Join(Collect(xs[..i], realm, f), Collect(xs[i + 1..], realm, f))
  {
    assert xs == (xs[..i] + [xs[i]]) + xs[i + 1..];
    CollectAppend(xs[..i] + [xs[i]], xs[i + 1..], realm, f);
    CollectAppend(xs[..i], [xs[i]], realm, f);
    CollectOne(xs[i], realm, f);
    CollectAppend(xs[..i], xs[i + 1..], realm, f);
  }

  /** A failure in a prefix is a failure of the whole: the early returns lose nothing. */
  lemma CollectPrefix<S, E>(xs: seq<Obj<S>>, i: nat, realm: string, f: S -> Option<E>)
    requires i <= |xs| && Collect(xs[..i], realm, f).None?
    ensures Collect(xs, realm, f).None?
  {
    assert xs == xs[..i] + xs[i..];
    CollectAppend(xs[..i], xs[i..], realm, f);
  }

  // ----- translation -------------------------------------------------------------------------

  function CredentialName(clientId: string): string { clientId + "-secret" }

  function ToClient(s: ClientSpec, secrets: map<string, SecretData>): Option<ClientExport> {
    if s.IsPublic() then Some(ClientExport(s, ""))
    else if CredentialName(s.clientId) !in secrets then None
    else
      var data := secrets[CredentialName(s.clientId)];
      Some(ClientExport(s, if "CLIENT_SECRET" in data then data["CLIENT_SECRET"] else ""))
  }

  function ToUser(s: UserSpec, secrets: map<string, SecretData>): Option<UserExport> {
    var u := UserExport(s.username, s.email, s.firstName, s.lastName, s.enabled, s.emailVerified, s.groups,
                        s.attributes, s.realmRoles, s.clientRoles, []);
    match s.initialPassword
    case None => Some(u)
    case Some(ref) =>
      var key := if ref.key == "" then "password" else ref.key;
      if ref.secret !in secrets || key !in secrets[ref.secret] then None
      else Some(u.(credentials := [CredentialExport("password", secrets[ref.secret][key], true)]))
  }

  function ToFlow(s: FlowSpec): FlowExport {
    FlowExport(s.alias, s.description, "basic-flow", s.topLevel, false,
               [ExecutionExport("auth-username-password-form", "REQUIRED", 10)]
               + if s.requireMfa then [ExecutionExport("auth-otp-form", "REQUIRED", 20)] else [])
  }

  /** One resolved reference: a missing Secret fails, a missing key in it is skipped. */
  function Resolve(config: map<string, string>, ref: Option<KeyRef>, key: string, secrets: map<string, SecretData>)
    : Option<map<string, string>>
  {
    match ref
    case None => Some(config)
    case Some(r) =>
      if r.secret !in secrets then None
      else if r.key !in secrets[r.secret] then Some(config)
      else Some(config[key := secrets[r.secret][r.key]])
  }

  function ToIdp(s: IdpSpec, secrets: map<string, SecretData>): Option<IdpExport> {
    var copied := if s.config.None? then map[] else s.config.value;
    match Resolve(copied, s.clientSecretRef, "clientSecret", secrets)
    case None => None
    case Some(c) =>
      match Resolve(c, s.signingCertificateRef, "signingCertificate", secrets)
      case None => None
      case Some(config) => Some(IdpExport(
        s.alias, s.displayName, s.kind, s.enabled, s.storeToken, s.addReadTokenRoleOnCreate, s.trustEmail,
        s.linkOnly, s.firstBrokerLoginFlowAlias, s.postBrokerLoginFlowAlias, config))
  }

  function Clients(secrets: map<string, SecretData>): ClientSpec -> Option<ClientExport> { s => ToClient(s, secrets) }
  function Users(secrets: map<string, SecretData>): UserSpec -> Option<UserExport> { s => ToUser(s, secrets) }
  function Idps(secrets: map<string, SecretData>): IdpSpec -> Option<IdpExport> { s => ToIdp(s, secrets) }
  function Flows(): FlowSpec -> Option<FlowExport> { s => Some(ToFlow(s)) }
  function Same<S>(): S -> Option<S> { s => Some(s) }

  function Build(realm: RealmSpec, ns: Namespace): Option<RealmExport> {
    var name := realm.realmName;
    var clients := Collect(ns.clients, name, Clients(ns.secrets));
    var scopes := Collect(ns.scopes, name, Same());
    var groups := Collect(ns.groups, name, Same());
    var users := Collect(ns.users, name, Users(ns.secrets));
    var flows := Collect(ns.flows, name, Flows());
    var idps := Collect(ns.idps, name, Idps(ns.secrets));
    if name == "" || clients.None? || scopes.None? || groups.None? || users.None? || flows.None? || idps.None? then None
    else Some(RealmExport(realm, clients.value, users.value, groups.value, scopes.value, flows.value, idps.value))
  }

  function Payload(realm: RealmSpec, ns: Namespace): Option<Json> {
    match Build(realm, ns) case None => None case Some(e) => Some(Marshal(e))
  }

  // ----- what an export is -------------------------------------------------------------------

  /** The live children of one realm, in the order of the listing. */
  function LiveOf<S(!new)>(xs: seq<Obj<S>>, realm: string): (r: seq<Obj<S>>)
    ensures forall o :: o in r <==> o in xs && !o.meta.Deleting() && o.realmRef == realm
  {
    if |xs| == 0 then []
    else LiveOf(DropLast(xs), realm) + if !Last(xs).meta.Deleting() && Last(xs).realmRef == realm then [Last(xs)] else []
  }

  /** Entry by entry the translations of the live children of this realm, and of no other object. */
  predicate Translates<S(!new), E(==)>(xs: seq<Obj<S>>, realm: string, f: S -> Option<E>, es: seq<E>) {
    && |es| == |LiveOf(xs, realm)|
    && forall p :: 0 <= p < |es| ==> f(LiveOf(xs, realm)[p].spec) == Some(es[p])
  }

  lemma {:induction false} CollectIsFilterMap<S(!new), E>(xs: seq<Obj<S>>, realm: string, f: S -> Option<E>)
    requires Collect(xs, realm, f).Some?
    ensures Translates(xs, realm, f, Collect(xs, realm, f).value)
  {
    if |xs| > 0 { CollectIsFilterMap(DropLast(xs), realm, f); }
  }

  /** A client's credential is mandatory unless it is declared public. */
  predicate MissingCredential(s: ClientSpec, secrets: map<string, SecretData>) {
    s.publicClient != Some(true) && s.clientId + "-secret" !in secrets
  }

  predicate ClientEntry(s: ClientSpec, secrets: map<string, SecretData>, e: ClientExport) {
    && e.spec == s && !MissingCredential(s, secrets)
    && e.secret ==
       if s.publicClient != Some(true) && "CLIENT_SECRET" in secrets[s.clientId + "-secret"]
       then secrets[s.clientId + "-secret"]["CLIENT_SECRET"] else ""
  }

  function PasswordKey(ref: KeyRef): string { if ref.key == "" then "password" else ref.key }

  /** Unlike for clients and identity providers, the key is mandatory too. */
  predicate MissingPassword(s: UserSpec, secrets: map<string, SecretData>) {
    s.initialPassword.Some? &&
    (s.initialPassword.value.secret !in secrets
     || PasswordKey(s.initialPassword.value) !in secrets[s.initialPassword.value.secret])
  }

  predicate UserEntry(s: UserSpec, secrets: map<string, SecretData>, e: UserExport) {
    && e.username == s.username && e.email == s.email && e.firstName == s.firstName && e.lastName == s.lastName
    && e.enabled == s.enabled && e.emailVerified == s.emailVerified && e.groups == s.groups
    && e.attributes == s.attributes && e.realmRoles == s.realmRoles && e.clientRoles == s.clientRoles
    && !MissingPassword(s, secrets)
    && (s.initialPassword.None? ==> e.credentials == [])
    && (s.initialPassword.Some? ==>
         var ref := s.initialPassword.value;
         e.credentials == [CredentialExport("password", secrets[ref.secret][PasswordKey(ref)], true)])
  }

  predicate FlowEntry(s: FlowSpec, e: FlowExport) {
    && e.alias == s.alias && e.description == s.description && e.topLevel == s.topLevel
    && e.providerId == "basic-flow" && !e.builtIn
    && |e.executions| == (if s.requireMfa then 2 else 1)
    && e.executions[0] == ExecutionExport("auth-username-password-form", "REQUIRED", 10)
    && (s.requireMfa ==> e.executions[1] == ExecutionExport("auth-otp-form", "REQUIRED", 20))
  }

  /** A referenced Secret is mandatory, the key in it is not. */
  predicate MissingReference(s: IdpSpec, secrets: map<string, SecretData>) {
    || (s.clientSecretRef.Some? && s.clientSecretRef.value.secret !in secrets)
    || (s.signingCertificateRef.Some? && s.signingCertificateRef.value.secret !in secrets)
  }

  predicate Given(ref: Option<KeyRef>, secrets: map<string, SecretData>) {
    ref.Some? && ref.value.secret in secrets && ref.value.key in secrets[ref.value.secret]
  }

  predicate IdpEntry(s: IdpSpec, secrets: map<string, SecretData>, e: IdpExport) {
    var base := if s.config.None? then map[] else s.config.value;
    var secret, certificate := Given(s.clientSecretRef, secrets), Given(s.signingCertificateRef, secrets);
    && e.alias == s.alias && e.displayName == s.displayName && e.providerId == s.kind && e.enabled == s.enabled
    && e.storeToken == s.storeToken && e.addReadTokenRoleOnCreate == s.addReadTokenRoleOnCreate
    && e.trustEmail == s.trustEmail && e.linkOnly == s.linkOnly
    && e.firstBrokerLoginFlowAlias == s.firstBrokerLoginFlowAlias
    && e.postBrokerLoginFlowAlias == s.postBrokerLoginFlowAlias
    && !MissingReference(s, secrets)
    && e.config.Keys == base.Keys + (if secret then {"clientSecret"} else {})
                                    + (if certificate then {"signingCertificate"} else {})
    && (secret ==> e.config["clientSecret"] == secrets[s.clientSecretRef.value.secret][s.clientSecretRef.value.key])
    && (certificate ==>
         e.config["signingCertificate"] == secrets[s.signingCertificateRef.value.secret][s.signingCertificateRef.value.key])
    && (forall k :: k in base && !(k == "clientSecret" && secret) && !(k == "signingCertificate" && certificate) ==>
         e.config[k] == base[k])
  }

  /** The export of a realm: list by list, and entry by entry, what becomes of its live children. */
  ghost predicate ExportOf(realm: RealmSpec, ns: Namespace, e: RealmExport) {
    var name := realm.realmName;
    var cs, us, gs := LiveOf(ns.clients, name), LiveOf(ns.users, name), LiveOf(ns.groups, name);
    var ss, fs, ps := LiveOf(ns.scopes, name), LiveOf(ns.flows, name), LiveOf(ns.idps, name);
    && name != "" && e.realm == realm
    && |e.clients| == |cs| && (forall i :: 0 <= i < |cs| ==> ClientEntry(cs[i].spec, ns.secrets, e.clients[i]))
    && |e.users| == |us| && (forall i :: 0 <= i < |us| ==> UserEntry(us[i].spec, ns.secrets, e.users[i]))
    && |e.groups| == |gs| && (forall i :: 0 <= i < |gs| ==> e.groups[i] == gs[i].spec)
    && |e.scopes| == |ss| && (forall i :: 0 <= i < |ss| ==> e.scopes[i] == ss[i].spec)
    && |e.flows| == |fs| && (forall i :: 0 <= i < |fs| ==> FlowEntry(fs[i].spec, e.flows[i]))
    && |e.idps| == |ps| && (forall i :: 0 <= i < |ps| ==> IdpEntry(ps[i].spec, ns.secrets, e.idps[i]))
  }

  lemma EntriesOf(secrets: map<string, SecretData>)
    ensures forall s, e :: ToClient(s, secrets) == Some(e) ==> ClientEntry(s, secrets, e)
    ensures forall s, e :: ToUser(s, secrets) == Some(e) ==> UserEntry(s, secrets, e)
    ensures forall s :: FlowEntry(s, ToFlow(s))
  {
  }

  lemma IdpEntryOf(s: IdpSpec, secrets: map<string, SecretData>)
    ensures ToIdp(s, secrets).Some? ==> IdpEntry(s, secrets, ToIdp(s, secrets).value)
  {
  }

  /** Every build is the export of its realm. */
  lemma BuildIsExport(realm: RealmSpec, ns: Namespace)
    requires Build(realm, ns).Some?
    ensures ExportOf(realm, ns, Build(realm, ns).value)
  {
    var name := realm.realmName;
    CollectIsFilterMap(ns.clients, name, Clients(ns.secrets));
    CollectIsFilterMap(ns.scopes, name, Same<ScopeSpec>());
    CollectIsFilterMap(ns.groups, name, Same<GroupSpec>());
    CollectIsFilterMap(ns.users, name, Users(ns.secrets));
    CollectIsFilterMap(ns.flows, name, Flows());
    CollectIsFilterMap(ns.idps, name, Idps(ns.secrets));
    EntriesOf(ns.secrets);
    forall s ensures ToIdp(s, ns.secrets).Some? ==> IdpEntry(s, ns.secrets, ToIdp(s, ns.secrets).value) {
      IdpEntryOf(s, ns.secrets);
    }
  }

  // ----- the code ----------------------------------------------------------------------------

  /** Copying a Go map entry by entry, in whatever order the iteration yields the keys. */
  method CopyConfig(source: StringMap) returns (copy: map<string, string>)
    ensures copy == if source.None? then map[] else source.value
  {
    copy := map[];
    if source.Some? {
      var todo := source.value.Keys;
      while todo != {}
        invariant todo <= source.value.Keys
        invariant copy == map k | k in source.value && k !in todo :: source.value[k]
        decreases todo
      {
        var k :| k in todo;
        copy := copy[k := source.value[k]];
        todo := todo - {k};
      }
    }
  }

  method BuildRealmExport(realm: RealmSpec, ns: Namespace) returns (r: Option<RealmExport>)
    ensures r == Build(realm, ns)
    ensures r.Some? ==> ExportOf(realm, ns, r.value)
  {
    var name := realm.realmName;
    if name == "" { return None; }
    var clients: seq<ClientExport> := [];
    for i := 0 to |ns.clients|
      invariant Collect(ns.clients[..i], name, Clients(ns.secrets)) == Some(clients)
    {
      var item := ns.clients[i];
      Prefix(ns.clients, i, name, Clients(ns.secrets));
      if item.meta.Deleting() { continue; }
      if item.realmRef == "" { return None; }
      if item.realmRef == name {
        var entry := ClientExport(item.spec, "");
        if !item.spec.IsPublic() {
          if CredentialName(item.spec.clientId) !in ns.secrets { return None; }
          var data := ns.secrets[CredentialName(item.spec.clientId)];
          if "CLIENT_SECRET" in data { entry := entry.(secret := data["CLIENT_SECRET"]); }
        }
        clients := clients + [entry];
      }
    }
    assert ns.clients[..|ns.clients|] == ns.clients;

    var scopes: seq<ScopeSpec> := [];
    for i := 0 to |ns.scopes|
      invariant Collect(ns.scopes[..i], name, Same()) == Some(scopes)
    {
      var item := ns.scopes[i];
      Prefix(ns.scopes, i, name, Same());
      if item.meta.Deleting() { continue; }
      if item.realmRef == "" { return None; }
      if item.realmRef == name { scopes := scopes + [item.spec]; }
    }
    assert ns.scopes[..|ns.scopes|] == ns.scopes;

    var groups: seq<GroupSpec> := [];
    for i := 0 to |ns.groups|
      invariant Collect(ns.groups[..i], name, Same()) == Some(groups)
    {
      var item := ns.groups[i];
      Prefix(ns.groups, i, name, Same());
      if item.meta.Deleting() { continue; }
      if item.realmRef == "" { return None; }
      if item.realmRef == name { groups := groups + [item.spec]; }
    }
    assert ns.groups[..|ns.groups|] == ns.groups;

    var rest := BuildRest(realm, ns);
    if rest.None? { return None; }
    BuildIsExport(realm, ns);
    return Some(RealmExport(realm, clients, rest.value.0, groups, scopes, rest.value.1, rest.value.2));
  }

  /** The last three loops: users, authentication flows, identity providers. */
  method BuildRest(realm: RealmSpec, ns: Namespace)
    returns (r: Option<(seq<UserExport>, seq<FlowExport>, seq<IdpExport>)>)
    ensures
      var us := Collect(ns.users, realm.realmName, Users(ns.secrets));
      var fs := Collect(ns.flows, realm.realmName, Flows());
      var ps := Collect(ns.idps, realm.realmName, Idps(ns.secrets));
      r == if us.None? || fs.None? || ps.None? then None else Some((us.value, fs.value, ps.value))
  {
    var name := realm.realmName;
    var users: seq<UserExport> := [];
    for i := 0 to |ns.users|
      invariant Collect(ns.users[..i], name, Users(ns.secrets)) == Some(users)
    {
      var item := ns.users[i];
      Prefix(ns.users, i, name, Users(ns.secrets));
      if item.meta.Deleting() { continue; }
      if item.realmRef == "" { return None; }
      if item.realmRef == name {
        var s := item.spec;
        var entry := UserExport(s.username, s.email, s.firstName, s.lastName, s.enabled, s.emailVerified,
                                s.groups, s.attributes, s.realmRoles, s.clientRoles, []);
        if s.initialPassword.Some? {
          var ref := s.initialPassword.value;
          if ref.secret !in ns.secrets { return None; }
          var key := ref.key;
          if key == "" { key := "password"; }
          if key !in ns.secrets[ref.secret] { return None; }
          entry := entry.(credentials := [CredentialExport("password", ns.secrets[ref.secret][key], true)]);
        }
        users := users + [entry];
      }
    }
    assert ns.users[..|ns.users|] == ns.users;

    var flows: seq<FlowExport> := [];
    for i := 0 to |ns.flows|
      invariant Collect(ns.flows[..i], name, Flows()) == Some(flows)
    {
      var item := ns.flows[i];
      Prefix(ns.flows, i, name, Flows());
      if item.meta.Deleting() { continue; }
      if item.realmRef == "" { return None; }
      if item.realmRef == name {
        var executions := [ExecutionExport("auth-username-password-form", "REQUIRED", 10)];
        if item.spec.requireMfa { executions := executions + [ExecutionExport("auth-otp-form", "REQUIRED", 20)]; }
        assert executions == ToFlow(item.spec).executions;
        flows := flows + [FlowExport(item.spec.alias, item.spec.description, "basic-flow", item.spec.topLevel,
                                     false, executions)];
      }
    }
    assert ns.flows[..|ns.flows|] == ns.flows;

    var idps: seq<IdpExport> := [];
    for i := 0 to |ns.idps|
      invariant Collect(ns.idps[..i], name, Idps(ns.secrets)) == Some(idps)
    {
      var item := ns.idps[i];
      Prefix(ns.idps, i, name, Idps(ns.secrets));
      if item.meta.Deleting() { continue; }
      if item.realmRef == "" { return None; }
      if item.realmRef == name {
        var s := item.spec;
        var config := CopyConfig(s.config);
        if s.clientSecretRef.Some? {
          var ref := s.clientSecretRef.value;
          if ref.secret !in ns.secrets { return None; }
          if ref.key in ns.secrets[ref.secret] { config := config["clientSecret" := ns.secrets[ref.secret][ref.key]]; }
        }
        if s.signingCertificateRef.Some? {
          var ref := s.signingCertificateRef.value;
          if ref.secret !in ns.secrets { return None; }
          if ref.key in ns.secrets[ref.secret] {
            config := config["signingCertificate" := ns.secrets[ref.secret][ref.key]];
          }
        }
        idps := idps + [IdpExport(
          s.alias, s.displayName, s.kind, s.enabled, s.storeToken, s.addReadTokenRoleOnCreate, s.trustEmail,
          s.linkOnly, s.firstBrokerLoginFlowAlias, s.postBrokerLoginFlowAlias, config)];
      }
    }
    assert ns.idps[..|ns.idps|] == ns.idps;
    return Some((users, flows, idps));
  }

  /** One turn of a loop: the next prefix, and what a failing object means for the whole listing. */
  lemma Prefix<S, E>(xs: seq<Obj<S>>, i: nat, realm: string, f: S -> Option<E>)
    requires i < |xs|
    ensures Collect(xs[..i + 1], realm, f) == Join(Collect(xs[..i], realm, f), Contribution(xs[i], realm, f))
    ensures Contribution(xs[i], realm, f).None? ==> Collect(xs, realm, f).None?
    ensures Collect(xs[..i], realm, f).Some? && Contribution(xs[i], realm, f) == Some([])
        ==> Collect(xs[..i + 1], realm, f) == Collect(xs[..i], realm, f)
  {
    assert DropLast(xs[..i + 1]) == xs[..i];
    if Contribution(xs[i], realm, f).None? { CollectPrefix(xs, i + 1, realm, f); }
    if Collect(xs[..i], realm, f).Some? {
      assert Collect(xs[..i], realm, f).value + [] == Collect(xs[..i], realm, f).value;
    }
  }
}
