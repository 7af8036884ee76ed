/**
 The document handed to keycloak-config-cli and how it is marshalled. The main result, `PayloadExact`,
 says when two documents give the same payload, which is the question drift detection asks.
 */
module Export {
  import opened Wrappers
  import opened Api
  import opened Json

  datatype ClientExport = ClientExport(spec: ClientSpec, secret: string)
  datatype CredentialExport = CredentialExport(kind: string, value: string, temporary: bool)
  datatype UserExport = UserExport(
    username: string, email: string, firstName: string, lastName: string, enabled: Option<bool>,
    emailVerified: Option<bool>, groups: Slice, attributes: SliceMap, realmRoles: Slice,
    clientRoles: SliceMap, credentials: seq<CredentialExport>)
  datatype ExecutionExport = ExecutionExport(authenticator: string, requirement: string, priority: int)
  datatype FlowExport = FlowExport(
    alias: string, description: string, providerId: string, topLevel: bool, builtIn: bool,
    executions: seq<ExecutionExport>)
  datatype IdpExport = IdpExport(
    alias: string, displayName: string, providerId: string, enabled: bool, storeToken: bool,
    addReadTokenRoleOnCreate: bool, trustEmail: bool, linkOnly: bool, firstBrokerLoginFlowAlias: string,
    postBrokerLoginFlowAlias: string, config: map<string, string>)

  /** The six lists are never nil: the builder starts from empty, non-nil slices. */
  datatype RealmExport = RealmExport(
    realm: RealmSpec, clients: seq<ClientExport>, users: seq<UserExport>, groups: seq<GroupSpec>,
    scopes: seq<ScopeSpec>, flows: seq<FlowExport>, idps: seq<IdpExport>)

  // ----- marshalling, following the struct tags ----------------------------------------------

  function ClientFields(c: ClientExport): seq<Option<Json>> {
    var s := c.spec;
    [Req(s.clientId), Str(s.name), Str(s.description), Bool(s.enabled), Str(s.protocol), Bool(s.publicClient),
     Bool(s.standardFlowEnabled), Bool(s.implicitFlowEnabled), Bool(s.directAccessGrantsEnabled),
     Bool(s.serviceAccountsEnabled), Str(c.secret), List(s.redirectUris), List(s.webOrigins)]
  }
  function ClientJson(c: ClientExport): Json { Struct(ClientFields(c)) }
  function NormClient(c: ClientExport): ClientExport {
    c.(spec := c.spec.(redirectUris := NormList(c.spec.redirectUris), webOrigins := NormList(c.spec.webOrigins)))
  }

  function CredentialJson(c: CredentialExport): Json {
    Struct([Req(c.kind), Req(c.value), ReqBool(c.temporary)])
  }

  function Array<E>(f: E -> Json, xs: seq<E>): Option<Json> {
    if |xs| == 0 then None else Some(JArr(MapSeq(f, xs)))
  }

  function UserFields(u: UserExport): seq<Option<Json>> {
    [Req(u.username), Str(u.email), Str(u.firstName), Str(u.lastName), Bool(u.enabled), Bool(u.emailVerified),
     List(u.groups), ListDict(u.attributes), List(u.realmRoles), ListDict(u.clientRoles),
     Array(CredentialJson, u.credentials)]
  }
  function UserJson(u: UserExport): Json { Struct(UserFields(u)) }
  function NormUser(u: UserExport): UserExport {
    u.(groups := NormList(u.groups), attributes := NormListDict(u.attributes),
       realmRoles := NormList(u.realmRoles), clientRoles := NormListDict(u.clientRoles))
  }

  function GroupFields(g: GroupSpec): seq<Option<Json>> {
    [Req(g.name), Str(g.path), ListDict(g.attributes), List(g.realmRoles)]
  }
  function GroupJson(g: GroupSpec): Json { Struct(GroupFields(g)) }
  function NormGroup(g: GroupSpec): GroupSpec {
    g.(attributes := NormListDict(g.attributes), realmRoles := NormList(g.realmRoles))
  }

  function ScopeFields(s: ScopeSpec): seq<Option<Json>> {
    [Req(s.name), Str(s.protocol), Str(s.description), Dict(s.attributes)]
  }
  function ScopeJson(s: ScopeSpec): Json { Struct(ScopeFields(s)) }
  function NormScope(s: ScopeSpec): ScopeSpec { s.(attributes := NormDict(s.attributes)) }

  function ExecutionJson(e: ExecutionExport): Json {
    Struct([Str(e.authenticator), Str(e.requirement), Int(e.priority)])
  }
  function FlowFields(f: FlowExport): seq<Option<Json>> {
    [Req(f.alias), Str(f.description), Str(f.providerId), ReqBool(f.topLevel), ReqBool(f.builtIn),
     Array(ExecutionJson, f.executions)]
  }
  function FlowJson(f: FlowExport): Json { Struct(FlowFields(f)) }

  function IdpFields(p: IdpExport): seq<Option<Json>> {
    [Req(p.alias), Str(p.displayName), Req(p.providerId), Flag(p.enabled), Flag(p.storeToken),
     Flag(p.addReadTokenRoleOnCreate), Flag(p.trustEmail), Flag(p.linkOnly), Str(p.firstBrokerLoginFlowAlias),
     Str(p.postBrokerLoginFlowAlias), Dict(Some(p.config))]
  }
  function IdpJson(p: IdpExport): Json { Struct(IdpFields(p)) }

  function RealmFields(r: RealmSpec): seq<Option<Json>> {
    [Req(r.realmName), Str(r.displayName), Bool(r.enabled), Bool(r.registrationAllowed),
     Bool(r.resetPasswordAllowed), Bool(r.bruteForceProtected), Str(r.loginTheme), Str(r.accountTheme),
     Str(r.adminTheme), Str(r.emailTheme), Str(r.sslRequired), Bool(r.internationalizationEnabled),
     List(r.supportedLocales), Str(r.defaultLocale), IntPtr(r.accessTokenLifespan)]
  }
  function NormSpec(r: RealmSpec): RealmSpec { r.(supportedLocales := NormList(r.supportedLocales)) }

  function ListFields(e: RealmExport): seq<Option<Json>> {
    [Some(JArr(MapSeq(ClientJson, e.clients))), Some(JArr(MapSeq(UserJson, e.users))),
     Some(JArr(MapSeq(GroupJson, e.groups))), Some(JArr(MapSeq(ScopeJson, e.scopes))),
     Some(JArr(MapSeq(FlowJson, e.flows))), Some(JArr(MapSeq(IdpJson, e.idps)))]
  }

  function Marshal(e: RealmExport): Json { Struct(RealmFields(e.realm) + ListFields(e)) }

  /** The document with nil and empty identified wherever the tag says omitempty. */
  function Norm(e: RealmExport): RealmExport {
    e.(realm := NormSpec(e.realm), clients := MapSeq(NormClient, e.clients), users := MapSeq(NormUser, e.users),
       groups := MapSeq(NormGroup, e.groups), scopes := MapSeq(NormScope, e.scopes))
  }

  // ----- what stands under each tag, in the order of the struct declarations -----------------

  predicate ClientSays(j: Json, c: ClientExport) {
    var s := c.spec;
    && SaysAnyText(j, 0, s.clientId)                          // clientId
    && SaysText(j, 1, s.name)                                 // name
    && SaysText(j, 2, s.description)                          // description
    && SaysOptionalBool(j, 3, s.enabled)                      // enabled
    && SaysText(j, 4, s.protocol)                             // protocol
    && SaysOptionalBool(j, 5, s.publicClient)                 // publicClient
    && SaysOptionalBool(j, 6, s.standardFlowEnabled)          // standardFlowEnabled
    && SaysOptionalBool(j, 7, s.implicitFlowEnabled)          // implicitFlowEnabled
    && SaysOptionalBool(j, 8, s.directAccessGrantsEnabled)    // directAccessGrantsEnabled
    && SaysOptionalBool(j, 9, s.serviceAccountsEnabled)       // serviceAccountsEnabled
    && SaysText(j, 10, c.secret)                              // secret
    && SaysList(j, 11, s.redirectUris)                        // redirectUris
    && SaysList(j, 12, s.webOrigins)                          // webOrigins
  }

  lemma ClientDocument(c: ClientExport)
    ensures ClientSays(ClientJson(c), c)
  {
    StructSays(ClientFields(c));
    ListSays(ClientJson(c), 11, c.spec.redirectUris);
    ListSays(ClientJson(c), 12, c.spec.webOrigins);
  }

  /** A JSON array whose items say what the elements are. */
  ghost predicate Items<E(!new)>(j: Option<Json>, xs: seq<E>, says: (Json, E) -> bool) {
    && j.Some? && j.value.JArr? && |j.value.items| == |xs|
    && forall i :: 0 <= i < |xs| ==> says(j.value.items[i], xs[i])
  }

  predicate CredentialSays(j: Json, c: CredentialExport) {
    && SaysAnyText(j, 0, c.kind)                              // type
    && SaysAnyText(j, 1, c.value)                             // value
    && SaysBool(j, 2, c.temporary)                            // temporary
  }

  lemma CredentialDocument(c: CredentialExport)
    ensures CredentialSays(CredentialJson(c), c)
  {
    StructSays([Req(c.kind), Req(c.value), ReqBool(c.temporary)]);
  }

  ghost predicate UserSays(j: Json, u: UserExport) {
    && SaysAnyText(j, 0, u.username)                          // username
    && SaysText(j, 1, u.email)                                // email
    && SaysText(j, 2, u.firstName)                            // firstName
    && SaysText(j, 3, u.lastName)                             // lastName
    && SaysOptionalBool(j, 4, u.enabled)                      // enabled
    && SaysOptionalBool(j, 5, u.emailVerified)                // emailVerified
    && SaysList(j, 6, u.groups)                               // groups
    && SaysListDict(j, 7, u.attributes)                       // attributes
    && SaysList(j, 8, u.realmRoles)                           // realmRoles
    && SaysListDict(j, 9, u.clientRoles)                      // clientRoles
    && CredentialsSay(j, u.credentials)                       // credentials
  }

  ghost predicate CredentialsSay(j: Json, cs: seq<CredentialExport>) {
    if cs == [] then At(j, 10) == None else Items(At(j, 10), cs, CredentialSays)
  }

  lemma UserDocument(u: UserExport)
    ensures UserSays(UserJson(u), u)
  {
    var j := UserJson(u);
    StructSays(UserFields(u));
    hide At, Struct, Members, CredentialsSay;
    ListSays(j, 6, u.groups);
    ListDictSays(j, 7, u.attributes);
    ListSays(j, 8, u.realmRoles);
    ListDictSays(j, 9, u.clientRoles);
    CredentialItems(u);
  }

  lemma CredentialItems(u: UserExport)
    ensures CredentialsSay(UserJson(u), u.credentials)
  {
    StructSays(UserFields(u));
    hide At, Struct, Members;
    forall c ensures CredentialSays(CredentialJson(c), c) { CredentialDocument(c); }
  }

  predicate GroupSays(j: Json, g: GroupSpec) {
    && SaysAnyText(j, 0, g.name)                              // name
    && SaysText(j, 1, g.path)                                 // path
    && SaysListDict(j, 2, g.attributes)                       // attributes
    && SaysList(j, 3, g.realmRoles)                           // realmRoles
  }

  lemma GroupDocument(g: GroupSpec)
    ensures GroupSays(GroupJson(g), g)
  {
    StructSays(GroupFields(g));
    ListDictSays(GroupJson(g), 2, g.attributes);
    ListSays(GroupJson(g), 3, g.realmRoles);
  }

  predicate ScopeSays(j: Json, s: ScopeSpec) {
    && SaysAnyText(j, 0, s.name)                              // name
    && SaysText(j, 1, s.protocol)                             // protocol
    && SaysText(j, 2, s.description)                          // description
    && SaysDict(j, 3, s.attributes)                           // attributes
  }

  lemma ScopeDocument(s: ScopeSpec)
    ensures ScopeSays(ScopeJson(s), s)
  {
    StructSays(ScopeFields(s));
    DictSays(ScopeJson(s), 3, s.attributes);
  }

  predicate ExecutionSays(j: Json, e: ExecutionExport) {
    && SaysText(j, 0, e.authenticator)                        // authenticator
    && SaysText(j, 1, e.requirement)                          // requirement
    && SaysInt(j, 2, e.priority)                              // priority
  }

  lemma ExecutionDocument(e: ExecutionExport)
    ensures ExecutionSays(ExecutionJson(e), e)
  {
    StructSays([Str(e.authenticator), Str(e.requirement), Int(e.priority)]);
  }

  ghost predicate FlowSays(j: Json, f: FlowExport) {
    && SaysAnyText(j, 0, f.alias)                             // alias
    && SaysText(j, 1, f.description)                          // description
    && SaysText(j, 2, f.providerId)                           // providerId
    && SaysBool(j, 3, f.topLevel)                             // topLevel
    && SaysBool(j, 4, f.builtIn)                              // builtIn
    && (if f.executions == [] then At(j, 5) == None           // authenticationExecutions
        else Items(At(j, 5), f.executions, ExecutionSays))
  }

  lemma FlowDocument(f: FlowExport)
    ensures FlowSays(FlowJson(f), f)
  {
    StructSays(FlowFields(f));
    forall e ensures ExecutionSays(ExecutionJson(e), e) { ExecutionDocument(e); }
  }

  predicate IdpSays(j: Json, p: IdpExport) {
    && SaysAnyText(j, 0, p.alias)                             // alias
    && SaysText(j, 1, p.displayName)                          // displayName
    && SaysAnyText(j, 2, p.providerId)                        // providerId
    && SaysFlag(j, 3, p.enabled)                              // enabled
    && SaysFlag(j, 4, p.storeToken)                           // storeToken
    && SaysFlag(j, 5, p.addReadTokenRoleOnCreate)             // addReadTokenRoleOnCreate
    && SaysFlag(j, 6, p.trustEmail)                           // trustEmail
    && SaysFlag(j, 7, p.linkOnly)                             // linkOnly
    && SaysText(j, 8, p.firstBrokerLoginFlowAlias)            // firstBrokerLoginFlowAlias
    && SaysText(j, 9, p.postBrokerLoginFlowAlias)             // postBrokerLoginFlowAlias
    && SaysDict(j, 10, Some(p.config))                        // config
  }

  lemma IdpDocument(p: IdpExport)
    ensures IdpSays(IdpJson(p), p)
  {
    StructSays(IdpFields(p));
    DictSays(IdpJson(p), 10, Some(p.config));
  }

  predicate RealmTextsSay(j: Json, r: RealmSpec) {
    && SaysAnyText(j, 0, r.realmName)                         // realm
    && SaysText(j, 1, r.displayName)                          // displayName
    && SaysText(j, 6, r.loginTheme)                           // loginTheme
    && SaysText(j, 7, r.accountTheme)                         // accountTheme
    && SaysText(j, 8, r.adminTheme)                           // adminTheme
    && SaysText(j, 9, r.emailTheme)                           // emailTheme
    && SaysText(j, 10, r.sslRequired)                         // sslRequired
    && SaysText(j, 13, r.defaultLocale)                       // defaultLocale
  }

  predicate RealmOptionsSay(j: Json, r: RealmSpec) {
    && SaysOptionalBool(j, 2, r.enabled)                      // enabled
    && SaysOptionalBool(j, 3, r.registrationAllowed)          // registrationAllowed
    && SaysOptionalBool(j, 4, r.resetPasswordAllowed)         // resetPasswordAllowed
    && SaysOptionalBool(j, 5, r.bruteForceProtected)          // bruteForceProtected
    && SaysOptionalBool(j, 11, r.internationalizationEnabled) // internationalizationEnabled
    && SaysList(j, 12, r.supportedLocales)                    // supportedLocales
    && SaysOptionalInt(j, 14, r.accessTokenLifespan)          // accessTokenLifespan
  }

  /** The six lists are never omitted. */
  ghost predicate ListsSay(j: Json, e: RealmExport) {
    && Items(At(j, 15), e.clients, ClientSays)                // clients
    && Items(At(j, 16), e.users, UserSays)                    // users
    && Items(At(j, 17), e.groups, GroupSays)                  // groups
    && Items(At(j, 18), e.scopes, ScopeSays)                  // clientScopes
    && Items(At(j, 19), e.flows, FlowSays)                    // authenticationFlows
    && Items(At(j, 20), e.idps, IdpSays)                      // identityProviders
  }

  lemma FifteenFields(r: RealmSpec)
    ensures |RealmFields(r)| == 15
  {
  }

  lemma TopLevel(e: RealmExport)
    ensures |RealmFields(e.realm)| == 15
    ensures forall i :: 0 <= i < 15 ==> At(Marshal(e), i) == RealmFields(e.realm)[i]
    ensures forall i :: 15 <= i < 21 ==> At(Marshal(e), i) == ListFields(e)[i - 15]
    ensures forall i :: i > 20 ==> At(Marshal(e), i) == None
  {
    FifteenFields(e.realm);
    hide RealmFields, MapSeq, At, Struct;
    StructSays(RealmFields(e.realm) + ListFields(e));
  }

  lemma RealmTexts(e: RealmExport)
    ensures RealmTextsSay(Marshal(e), e.realm)
  {
    hide Marshal, ListFields, At, List, Bool, IntPtr;
    TopLevel(e);
  }

  lemma RealmOptions(e: RealmExport)
    ensures RealmOptionsSay(Marshal(e), e.realm)
  {
    hide Marshal, ListFields, At, List, SaysList, Str, Req;
    TopLevel(e);
    ListSays(Marshal(e), 12, e.realm.supportedLocales);
  }

  lemma ItemsSay<E(!new)>(f: E -> Json, xs: seq<E>, says: (Json, E) -> bool)
    requires forall x :: says(f(x), x)
    ensures Items(Some(JArr(MapSeq(f, xs))), xs, says)
  {
    forall i | 0 <= i < |xs| ensures says(MapSeq(f, xs)[i], xs[i]) { assert MapSeq(f, xs)[i] == f(xs[i]); }
  }

  lemma ListsDocument(e: RealmExport)
    ensures ListsSay(Marshal(e), e)
  {
    hide Marshal, MapSeq, RealmFields, Items, ClientSays, UserSays, GroupSays, ScopeSays, FlowSays, IdpSays;
    hide ClientJson, UserJson, GroupJson, ScopeJson, FlowJson, IdpJson;
    TopLevel(e);
    forall c ensures ClientSays(ClientJson(c), c) { ClientDocument(c); }
    ItemsSay(ClientJson, e.clients, ClientSays);
    forall u ensures UserSays(UserJson(u), u) { UserDocument(u); }
    ItemsSay(UserJson, e.users, UserSays);
    forall g ensures GroupSays(GroupJson(g), g) { GroupDocument(g); }
    ItemsSay(GroupJson, e.groups, GroupSays);
    forall s ensures ScopeSays(ScopeJson(s), s) { ScopeDocument(s); }
    ItemsSay(ScopeJson, e.scopes, ScopeSays);
    forall f ensures FlowSays(FlowJson(f), f) { FlowDocument(f); }
    ItemsSay(FlowJson, e.flows, FlowSays);
    forall p ensures IdpSays(IdpJson(p), p) { IdpDocument(p); }
    ItemsSay(IdpJson, e.idps, IdpSays);
  }

  /** The payload says, tag by tag, what the document is. */
  lemma MarshalSays(e: RealmExport)
    ensures RealmTextsSay(Marshal(e), e.realm) && RealmOptionsSay(Marshal(e), e.realm) && ListsSay(Marshal(e), e)
    ensures forall tag :: tag > 20 ==> At(Marshal(e), tag) == None
  {
    hide RealmTextsSay, RealmOptionsSay, ListsSay;
    RealmTexts(e);
    RealmOptions(e);
    ListsDocument(e);
    TopLevel(e);
  }

  // ----- exactness, struct by struct ---------------------------------------------------------

  lemma ClientExact(a: ClientExport, b: ClientExport)
    ensures ClientJson(a) == ClientJson(b) <==> NormClient(a) == NormClient(b)
  {
    var f, g := ClientFields(a), ClientFields(b);
    StructInjective(f, g);
    ListExact(a.spec.redirectUris, b.spec.redirectUris);
    ListExact(a.spec.webOrigins, b.spec.webOrigins);
    if f == g {
      assert f[0] == g[0] && f[1] == g[1] && f[2] == g[2] && f[3] == g[3] && f[4] == g[4] && f[5] == g[5];
      assert f[6] == g[6] && f[7] == g[7] && f[8] == g[8] && f[9] == g[9] && f[10] == g[10];
      assert f[11] == g[11] && f[12] == g[12];
    }
  }

  lemma CredentialExact(a: CredentialExport, b: CredentialExport)
    ensures CredentialJson(a) == CredentialJson(b) <==> a == b
  {
    var f, g := [Req(a.kind), Req(a.value), ReqBool(a.temporary)], [Req(b.kind), Req(b.value), ReqBool(b.temporary)];
    StructInjective(f, g);
    if f == g { assert f[0] == g[0] && f[1] == g[1] && f[2] == g[2]; }
  }

  lemma ExecutionExact(a: ExecutionExport, b: ExecutionExport)
    ensures ExecutionJson(a) == ExecutionJson(b) <==> a == b
  {
    var f := [Str(a.authenticator), Str(a.requirement), Int(a.priority)];
    var g := [Str(b.authenticator), Str(b.requirement), Int(b.priority)];
    StructInjective(f, g);
    if f == g { assert f[0] == g[0] && f[1] == g[1] && f[2] == g[2]; }
  }

  /** An injective element marshaller makes the array of a list field injective, empty included. */
  lemma ArrayInjective<E(!new)>(f: E -> Json, xs: seq<E>, ys: seq<E>)
    requires forall x, y :: f(x) == f(y) ==> x == y
    ensures Array(f, xs) == Array(f, ys) <==> xs == ys
  {
    if Array(f, xs) == Array(f, ys) && |xs| > 0 {
      assert MapSeq(f, xs) == MapSeq(f, ys);
      forall i | 0 <= i < |xs| ensures xs[i] == ys[i] {
        assert MapSeq(f, xs)[i] == MapSeq(f, ys)[i];
      }
    }
  }

  lemma UserExact(a: UserExport, b: UserExport)
    ensures UserJson(a) == UserJson(b) <==> NormUser(a) == NormUser(b)
  {
    var f, g := UserFields(a), UserFields(b);
    StructInjective(f, g);
    ListExact(a.groups, b.groups);
    ListExact(a.realmRoles, b.realmRoles);
    ListDictExact(a.attributes, b.attributes);
    ListDictExact(a.clientRoles, b.clientRoles);
    forall x, y ensures CredentialJson(x) == CredentialJson(y) ==> x == y { CredentialExact(x, y); }
    ArrayInjective(CredentialJson, a.credentials, b.credentials);
    if f == g {
      assert f[0] == g[0] && f[1] == g[1] && f[2] == g[2] && f[3] == g[3] && f[4] == g[4] && f[5] == g[5];
      assert f[6] == g[6] && f[7] == g[7] && f[8] == g[8] && f[9] == g[9] && f[10] == g[10];
    }
  }

  lemma GroupExact(a: GroupSpec, b: GroupSpec)
    ensures GroupJson(a) == GroupJson(b) <==> NormGroup(a) == NormGroup(b)
  {
    var f, g := GroupFields(a), GroupFields(b);
    StructInjective(f, g);
    ListExact(a.realmRoles, b.realmRoles);
    ListDictExact(a.attributes, b.attributes);
    if f == g { assert f[0] == g[0] && f[1] == g[1] && f[2] == g[2] && f[3] == g[3]; }
  }

  lemma ScopeExact(a: ScopeSpec, b: ScopeSpec)
    ensures ScopeJson(a) == ScopeJson(b) <==> NormScope(a) == NormScope(b)
  {
    var f, g := ScopeFields(a), ScopeFields(b);
    StructInjective(f, g);
    DictExact(a.attributes, b.attributes);
    if f == g { assert f[0] == g[0] && f[1] == g[1] && f[2] == g[2] && f[3] == g[3]; }
  }

  lemma FlowExact(a: FlowExport, b: FlowExport)
    ensures FlowJson(a) == FlowJson(b) <==> a == b
  {
    var f, g := FlowFields(a), FlowFields(b);
    StructInjective(f, g);
    forall x, y ensures ExecutionJson(x) == ExecutionJson(y) ==> x == y { ExecutionExact(x, y); }
    ArrayInjective(ExecutionJson, a.executions, b.executions);
    if f == g {
      assert f[0] == g[0] && f[1] == g[1] && f[2] == g[2] && f[3] == g[3] && f[4] == g[4] && f[5] == g[5];
    }
  }

  lemma IdpExact(a: IdpExport, b: IdpExport)
    ensures IdpJson(a) == IdpJson(b) <==> a == b
  {
    var f, g := IdpFields(a), IdpFields(b);
    StructInjective(f, g);
    DictExact(Some(a.config), Some(b.config));
    if f == g {
      assert f[0] == g[0] && f[1] == g[1] && f[2] == g[2] && f[3] == g[3] && f[4] == g[4] && f[5] == g[5];
      assert f[6] == g[6] && f[7] == g[7] && f[8] == g[8] && f[9] == g[9] && f[10] == g[10];
    }
  }

  lemma SpecExact(a: RealmSpec, b: RealmSpec)
    ensures RealmFields(a) == RealmFields(b) <==> NormSpec(a) == NormSpec(b)
  {
    var f, g := RealmFields(a), RealmFields(b);
    ListExact(a.supportedLocales, b.supportedLocales);
    if f == g {
      assert f[0] == g[0] && f[1] == g[1] && f[2] == g[2] && f[3] == g[3] && f[4] == g[4] && f[5] == g[5];
      assert f[6] == g[6] && f[7] == g[7] && f[8] == g[8] && f[9] == g[9] && f[10] == g[10];
      assert f[11] == g[11] && f[12] == g[12] && f[13] == g[13] && f[14] == g[14];
    }
  }

  lemma IdentitySeq<E(!new)>(f: E -> Json, xs: seq<E>, ys: seq<E>)
    requires forall x, y :: f(x) == f(y) <==> x == y
    ensures MapSeq(f, xs) == MapSeq(f, ys) <==> xs == ys
  {
    if MapSeq(f, xs) == MapSeq(f, ys) {
      forall i | 0 <= i < |xs| ensures xs[i] == ys[i] { assert MapSeq(f, xs)[i] == MapSeq(f, ys)[i]; }
    }
  }

  lemma ListsExact(a: RealmExport, b: RealmExport)
    ensures ListFields(a) == ListFields(b)
       <==> Norm(a).(realm := b.realm) == Norm(b).(realm := b.realm)
  {
    forall x, y ensures ClientJson(x) == ClientJson(y) <==> NormClient(x) == NormClient(y) { ClientExact(x, y); }
    MapSeqAgree(ClientJson, NormClient, a.clients, b.clients);
    forall x, y ensures UserJson(x) == UserJson(y) <==> NormUser(x) == NormUser(y) { UserExact(x, y); }
    MapSeqAgree(UserJson, NormUser, a.users, b.users);
    forall x, y ensures GroupJson(x) == GroupJson(y) <==> NormGroup(x) == NormGroup(y) { GroupExact(x, y); }
    MapSeqAgree(GroupJson, NormGroup, a.groups, b.groups);
    forall x, y ensures ScopeJson(x) == ScopeJson(y) <==> NormScope(x) == NormScope(y) { ScopeExact(x, y); }
    MapSeqAgree(ScopeJson, NormScope, a.scopes, b.scopes);
    forall x, y ensures FlowJson(x) == FlowJson(y) <==> x == y { FlowExact(x, y); }
    IdentitySeq(FlowJson, a.flows, b.flows);
    forall x, y ensures IdpJson(x) == IdpJson(y) <==> x == y { IdpExact(x, y); }
    IdentitySeq(IdpJson, a.idps, b.idps);
    var f, g := ListFields(a), ListFields(b);
    if f == g {
      assert f[0] == g[0] && f[1] == g[1] && f[2] == g[2] && f[3] == g[3] && f[4] == g[4] && f[5] == g[5];
    }
  }

  /** Drift detection is exact: same payload if and only if same normalised desired state. */
  lemma PayloadExact(a: RealmExport, b: RealmExport)
    ensures Marshal(a) == Marshal(b) <==> Norm(a) == Norm(b)
  {
    var fa, fb := RealmFields(a.realm), RealmFields(b.realm);
    StructInjective(fa + ListFields(a), fb + ListFields(b));
    SpecExact(a.realm, b.realm);
    ListsExact(a, b);
    if Marshal(a) == Marshal(b) {
      assert (fa + ListFields(a))[..15] == fa && (fb + ListFields(b))[..15] == fb;
      assert (fa + ListFields(a))[15..] == ListFields(a) && (fb + ListFields(b))[15..] == ListFields(b);
    }
  }

  /** nil, true and false of a `*bool` are three different desired states, unlike nil and empty lists. */
  lemma OptionalBoolsStayDistinct(e: RealmExport)
    ensures Marshal(e.(realm := e.realm.(enabled := None))) != Marshal(e.(realm := e.realm.(enabled := Some(false))))
    ensures Marshal(e.(realm := e.realm.(enabled := Some(true)))) != Marshal(e.(realm := e.realm.(enabled := Some(false))))
    ensures Marshal(e.(realm := e.realm.(supportedLocales := None)))
         == Marshal(e.(realm := e.realm.(supportedLocales := Some([]))))
  {
    var n, t, f := e.realm.(enabled := None), e.realm.(enabled := Some(true)), e.realm.(enabled := Some(false));
    PayloadExact(e.(realm := n), e.(realm := f));
    PayloadExact(e.(realm := t), e.(realm := f));
    assert NormSpec(n).enabled == None && NormSpec(f).enabled == Some(false) && NormSpec(t).enabled == Some(true);
    PayloadExact(e.(realm := e.realm.(supportedLocales := None)), e.(realm := e.realm.(supportedLocales := Some([]))));
  }
}
