/** What the export of one realm, and the exports of all realms together, are guaranteed to be. */
module BuilderLaws {
  import opened Wrappers
  import opened Api
  import opened Builder

  // ----- all or nothing ----------------------------------------------------------------------

  /** A live object without a realm, or one of this realm whose Secret lookup fails. */
  predicate Blocks<S, E>(o: Obj<S>, realm: string, f: S -> Option<E>) {
    !o.meta.Deleting() && (o.realmRef == "" || (o.realmRef == realm && f(o.spec).None?))
  }

  lemma {:induction false} FailsExactly<S, E>(xs: seq<Obj<S>>, realm: string, f: S -> Option<E>)
    ensures Collect(xs, realm, f).None? <==> exists i :: 0 <= i < |xs| && Blocks(xs[i], realm, f)
  {
    if |xs| > 0 {
      FailsExactly(DropLast(xs), realm, f);
      if i :| 0 <= i < |xs| && Blocks(xs[i], realm, f) {
        if i < |xs| - 1 { assert Blocks(DropLast(xs)[i], realm, f); }
      }
      if Contribution(Last(xs), realm, f).None? { assert Blocks(xs[|xs| - 1], realm, f); }
      if j :| 0 <= j < |DropLast(xs)| && Blocks(DropLast(xs)[j], realm, f) { assert Blocks(xs[j], realm, f); }
    }
  }

  /** The listing has a live object without a realm, or one of this realm that cannot be translated. */
  predicate Unbuildable<S(!new)>(xs: seq<Obj<S>>, realm: string, missing: S -> bool) {
    exists i :: 0 <= i < |xs| && !xs[i].meta.Deleting()
      && (xs[i].realmRef == "" || (xs[i].realmRef == realm && missing(xs[i].spec)))
  }

  lemma UnbuildableExactly<S(!new), E>(xs: seq<Obj<S>>, realm: string, f: S -> Option<E>, missing: S -> bool)
    requires forall s :: f(s).None? <==> missing(s)
    ensures Collect(xs, realm, f).None? <==> Unbuildable(xs, realm, missing)
  {
    FailsExactly(xs, realm, f);
    if i :| 0 <= i < |xs| && Blocks(xs[i], realm, f) { assert f(xs[i].spec).None? <==> missing(xs[i].spec); }
    if i :| 0 <= i < |xs| && !xs[i].meta.Deleting()
            && (xs[i].realmRef == "" || (xs[i].realmRef == realm && missing(xs[i].spec)))
    {
      assert f(xs[i].spec).None? <==> missing(xs[i].spec);
      assert Blocks(xs[i], realm, f);
    }
  }

  /**
   The build gives no export exactly when the realm has no name, some live object no reference, or a
   Secret (for passwords: or its key) that a live child of the realm needs is missing.
   */
  lemma BuildFailsExactly(realm: RealmSpec, ns: Namespace)
    ensures Build(realm, ns).None? <==>
      || realm.realmName == ""
      || Unbuildable(ns.clients, realm.realmName, s => MissingCredential(s, ns.secrets))
      || Unbuildable(ns.scopes, realm.realmName, _ => false)
      || Unbuildable(ns.groups, realm.realmName, _ => false)
      || Unbuildable(ns.users, realm.realmName, s => MissingPassword(s, ns.secrets))
      || Unbuildable(ns.flows, realm.realmName, _ => false)
      || Unbuildable(ns.idps, realm.realmName, s => MissingReference(s, ns.secrets))
  {
    var name := realm.realmName;
    UnbuildableExactly(ns.clients, name, Clients(ns.secrets), s => MissingCredential(s, ns.secrets));
    UnbuildableExactly(ns.scopes, name, Same<ScopeSpec>(), _ => false);
    UnbuildableExactly(ns.groups, name, Same<GroupSpec>(), _ => false);
    UnbuildableExactly(ns.users, name, Users(ns.secrets), s => MissingPassword(s, ns.secrets));
    UnbuildableExactly(ns.flows, name, Flows(), _ => false);
    UnbuildableExactly(ns.idps, name, Idps(ns.secrets), s => MissingReference(s, ns.secrets));
  }

  // ----- isolation ---------------------------------------------------------------------------

  predicate Foreign<S>(o: Obj<S>, realm: string) {
    o.meta.Deleting() || (o.realmRef != "" && o.realmRef != realm)
  }

  /** The objects that can matter to a realm: live, and its own or of no realm at all. */
  function Own<S>(xs: seq<Obj<S>>, realm: string): seq<Obj<S>> {
    if |xs| == 0 then []
    else Own(DropLast(xs), realm) + if Foreign(Last(xs), realm) then [] else [Last(xs)]
  }

  lemma {:induction false} CollectOwn<S, E>(xs: seq<Obj<S>>, realm: string, f: S -> Option<E>)
    ensures Collect(xs, realm, f) == Collect(Own(xs, realm), realm, f)
  {
    if |xs| > 0 {
      var before := Own(DropLast(xs), realm);
      CollectOwn(DropLast(xs), realm, f);
      if Foreign(Last(xs), realm) {
        assert before + [] == before;
        var c := Collect(DropLast(xs), realm, f);
        if c.Some? { assert c.value + [] == c.value; }
      } else {
        CollectAppend(before, [Last(xs)], realm, f);
        CollectOne(Last(xs), realm, f);
      }
    }
  }

  predicate SameOwn(a: Namespace, b: Namespace, realm: string) {
    && Own(a.clients, realm) == Own(b.clients, realm) && Own(a.scopes, realm) == Own(b.scopes, realm)
    && Own(a.groups, realm) == Own(b.groups, realm) && Own(a.users, realm) == Own(b.users, realm)
    && Own(a.flows, realm) == Own(b.flows, realm) && Own(a.idps, realm) == Own(b.idps, realm)
  }

  /** Adding, editing, moving or deleting children of other realms leaves this realm's build as it was. */
  lemma RealmIsolation(realm: RealmSpec, a: Namespace, b: Namespace)
    requires a.secrets == b.secrets
    requires SameOwn(a, b, realm.realmName)
    ensures Build(realm, a) == Build(realm, b)
  {
    var name := realm.realmName;
    CollectOwn(a.clients, name, Clients(a.secrets)); CollectOwn(b.clients, name, Clients(a.secrets));
    CollectOwn(a.scopes, name, Same()); CollectOwn(b.scopes, name, Same());
    CollectOwn(a.groups, name, Same()); CollectOwn(b.groups, name, Same());
    CollectOwn(a.users, name, Users(a.secrets)); CollectOwn(b.users, name, Users(a.secrets));
    CollectOwn(a.flows, name, Flows()); CollectOwn(b.flows, name, Flows());
    CollectOwn(a.idps, name, Idps(a.secrets)); CollectOwn(b.idps, name, Idps(a.secrets));
  }

  // ----- deletion ----------------------------------------------------------------------------

  function MarkDeleted<S>(o: Obj<S>, at: nat): Obj<S> { o.(meta := o.meta.(deletedAt := Some(at))) }

  /**
   Marking one object deleted removes its own entry and nothing else: order and values of the
   others stay, and a build that succeeded still succeeds.
   */
  lemma DeletionRemovesOwnEntry<S, E>(xs: seq<Obj<S>>, i: nat, at: nat, realm: string, f: S -> Option<E>)
    requires i < |xs|
    ensures Collect(xs[i := MarkDeleted(xs[i], at)], realm, f) == Collect(Without(xs, i), realm, f)
    ensures Collect(xs, realm, f).Some? ==>
      var before, own, after := Collect(xs[..i], realm, f), Contribution(xs[i], realm, f), Collect(xs[i + 1..], realm, f);
      && before.Some? && own.Some? && after.Some?
      && Collect(xs, realm, f).value == before.value + own.value + after.value
      && Collect(xs[i := MarkDeleted(xs[i], at)], realm, f) == Some(before.value + after.value)
  {
    var ys := xs[i := MarkDeleted(xs[i], at)];
    assert ys[..i] == xs[..i] && ys[i + 1..] == xs[i + 1..];
    CollectSplit(xs, i, realm, f);
    CollectSplit(ys, i, realm, f);
    var before := Collect(xs[..i], realm, f);
    if before.Some? { assert before.value + [] == before.value; }
  }

  /** Every object whose uid is in the set is marked deleted at the given time, unless it already is. */
  function Delete<S>(xs: seq<Obj<S>>, uids: set<nat>, at: nat): seq<Obj<S>> {
    if |xs| == 0 then []
    else
      var x := Last(xs);
      var x' := if x.meta.uid in uids && !x.meta.Deleting() then MarkDeleted(x, at) else x;
      Delete(DropLast(xs), uids, at) + [x']
  }

  function Survivors<S>(xs: seq<Obj<S>>, uids: set<nat>): seq<Obj<S>> {
    if |xs| == 0 then []
    else Survivors(DropLast(xs), uids) + if Last(xs).meta.uid in uids then [] else [Last(xs)]
  }

  lemma {:induction false} DeleteIsRemoval<S>(xs: seq<Obj<S>>, uids: set<nat>, at: nat, realm: string)
    ensures Own(Delete(xs, uids, at), realm) == Own(Survivors(xs, uids), realm)
  {
    if |xs| > 0 {
      DeleteIsRemoval(DropLast(xs), uids, at, realm);
      assert DropLast(Delete(xs, uids, at)) == Delete(DropLast(xs), uids, at);
      if Last(xs).meta.uid in uids {
        assert Survivors(xs, uids) == Survivors(DropLast(xs), uids);
      } else {
        assert DropLast(Survivors(xs, uids)) == Survivors(DropLast(xs), uids);
      }
    }
  }

  lemma {:induction false} SurvivorsSucceed<S, E>(xs: seq<Obj<S>>, uids: set<nat>, realm: string, f: S -> Option<E>)
    requires Collect(xs, realm, f).Some?
    ensures Collect(Survivors(xs, uids), realm, f).Some?
  {
    if |xs| > 0 {
      SurvivorsSucceed(DropLast(xs), uids, realm, f);
      if Last(xs).meta.uid in uids {
        assert Survivors(xs, uids) == Survivors(DropLast(xs), uids);
      } else {
        assert DropLast(Survivors(xs, uids)) == Survivors(DropLast(xs), uids);
      }
    }
  }

  lemma DeleteCollect<S, E>(xs: seq<Obj<S>>, uids: set<nat>, at: nat, realm: string, f: S -> Option<E>)
    ensures Collect(Delete(xs, uids, at), realm, f) == Collect(Survivors(xs, uids), realm, f)
    ensures Collect(xs, realm, f).Some? ==> Collect(Delete(xs, uids, at), realm, f).Some?
  {
    CollectOwn(Delete(xs, uids, at), realm, f);
    CollectOwn(Survivors(xs, uids), realm, f);
    DeleteIsRemoval(xs, uids, at, realm);
    if Collect(xs, realm, f).Some? { SurvivorsSucceed(xs, uids, realm, f); }
  }

  function DeleteAll(ns: Namespace, uids: set<nat>, at: nat): Namespace {
    Namespace(Delete(ns.clients, uids, at), Delete(ns.scopes, uids, at), Delete(ns.groups, uids, at),
              Delete(ns.users, uids, at), Delete(ns.flows, uids, at), Delete(ns.idps, uids, at), ns.secrets)
  }

  function SurviveAll(ns: Namespace, uids: set<nat>): Namespace {
    Namespace(Survivors(ns.clients, uids), Survivors(ns.scopes, uids), Survivors(ns.groups, uids),
              Survivors(ns.users, uids), Survivors(ns.flows, uids), Survivors(ns.idps, uids), ns.secrets)
  }

  /**
   Requesting deletion of any children, of any kinds, gives the export as if they had never been
   there, and never breaks a build that worked.
   */
  lemma DeletionMonotone(realm: RealmSpec, ns: Namespace, uids: set<nat>, at: nat)
    ensures Build(realm, DeleteAll(ns, uids, at)) == Build(realm, SurviveAll(ns, uids))
    ensures Build(realm, ns).Some? ==> Build(realm, DeleteAll(ns, uids, at)).Some?
  {
    var name := realm.realmName;
    DeleteCollect(ns.clients, uids, at, name, Clients(ns.secrets));
    DeleteCollect(ns.scopes, uids, at, name, Same());
    DeleteCollect(ns.groups, uids, at, name, Same());
    DeleteCollect(ns.users, uids, at, name, Users(ns.secrets));
    DeleteCollect(ns.flows, uids, at, name, Flows());
    DeleteCollect(ns.idps, uids, at, name, Idps(ns.secrets));
  }

  // ----- partition ---------------------------------------------------------------------------

  /** A live child of the realm has its entry in the export, in the place its listing position gives. */
  lemma LiveChildExported<S, E>(xs: seq<Obj<S>>, i: nat, realm: string, f: S -> Option<E>)
    requires i < |xs| && Collect(xs, realm, f).Some?
    requires !xs[i].meta.Deleting() && xs[i].realmRef == realm
    ensures f(xs[i].spec).Some? && Collect(xs[..i], realm, f).Some?
    ensures
      var p := |Collect(xs[..i], realm, f).value|;
      p < |Collect(xs, realm, f).value| && Collect(xs, realm, f).value[p] == f(xs[i].spec).value
  {
    CollectSplit(xs, i, realm, f);
  }

  function ExportSize<S, E>(xs: seq<Obj<S>>, realm: string, f: S -> Option<E>): nat {
    var c := Collect(xs, realm, f);
    if c.Some? then |c.value| else 0
  }

  function TotalSize<S, E>(xs: seq<Obj<S>>, realms: seq<string>, f: S -> Option<E>): nat {
    if |realms| == 0 then 0 else TotalSize(xs, DropLast(realms), f) + ExportSize(xs, Last(realms), f)
  }

  function LiveIn<S>(xs: seq<Obj<S>>, realms: seq<string>): nat {
    if |xs| == 0 then 0
    else LiveIn(DropLast(xs), realms) + if !Last(xs).meta.Deleting() && Last(xs).realmRef in realms then 1 else 0
  }

  lemma {:induction false} SizeStep<S, E>(xs: seq<Obj<S>>, realms: seq<string>, f: S -> Option<E>)
    requires |xs| > 0 && Distinct(realms)
    requires forall r :: r in realms ==> Collect(xs, r, f).Some?
    ensures TotalSize(xs, realms, f) == TotalSize(DropLast(xs), realms, f)
      + if !Last(xs).meta.Deleting() && Last(xs).realmRef in realms then 1 else 0
  {
    if |realms| > 0 {
      var rest, r := DropLast(realms), Last(realms);
      assert realms == rest + [r] && r in realms;
      assert forall q :: q in rest ==> q in realms;
      SizeStep(xs, rest, f);
      assert r !in rest;
      assert Collect(xs, r, f) == Join(Collect(DropLast(xs), r, f), Contribution(Last(xs), r, f));
      assert Last(xs).realmRef in realms <==> Last(xs).realmRef in rest || Last(xs).realmRef == r;
      assert Contribution(Last(xs), r, f).Some?;
    }
  }

  /**
   Conservation: over realms with distinct names whose builds all succeed, the export sizes of one
   kind add up to the number of live children that name one of them; none is lost or shared.
   */
  lemma {:induction false} ExportsPartition<S, E>(xs: seq<Obj<S>>, realms: seq<string>, f: S -> Option<E>)
    requires Distinct(realms)
    requires forall r :: r in realms ==> Collect(xs, r, f).Some?
    ensures TotalSize(xs, realms, f) == LiveIn(xs, realms)
  {
    if |xs| == 0 {
      EmptyTotal(xs, realms, f);
    } else {
      forall r | r in realms ensures Collect(DropLast(xs), r, f).Some? { assert Collect(xs, r, f).Some?; }
      ExportsPartition(DropLast(xs), realms, f);
      SizeStep(xs, realms, f);
    }
  }

  lemma EmptyTotal<S, E>(xs: seq<Obj<S>>, realms: seq<string>, f: S -> Option<E>)
    requires |xs| == 0
    ensures TotalSize(xs, realms, f) == 0
  {
    if |realms| > 0 { EmptyTotal(xs, DropLast(realms), f); }
  }

  /** A build is, kind by kind, the filter and translation of the listings: which export holds which child. */
  lemma BuildIsFilterMap(realm: RealmSpec, ns: Namespace)
    requires Build(realm, ns).Some?
    ensures
      var name, e := realm.realmName, Build(realm, ns).value;
      && e.realm == realm
      && Translates(ns.clients, name, Clients(ns.secrets), e.clients)
      && Translates(ns.scopes, name, Same(), e.scopes)
      && Translates(ns.groups, name, Same(), e.groups)
      && Translates(ns.users, name, Users(ns.secrets), e.users)
      && Translates(ns.flows, name, Flows(), e.flows)
      && Translates(ns.idps, name, Idps(ns.secrets), e.idps)
  {
    var name := realm.realmName;
    CollectIsFilterMap(ns.clients, name, Clients(ns.secrets));
    CollectIsFilterMap(ns.scopes, name, Same<ScopeSpec>());
    CollectIsFilterMap(ns.groups, name, Same<GroupSpec>());
    CollectIsFilterMap(ns.users, name, Users(ns.secrets));
    CollectIsFilterMap(ns.flows, name, Flows());
    CollectIsFilterMap(ns.idps, name, Idps(ns.secrets));
  }

  // ----- order of the listings ---------------------------------------------------------------

  ghost predicate SameEntries<E>(a: Option<seq<E>>, b: Option<seq<E>>) {
    (a.Some? <==> b.Some?) && (a.Some? ==> multiset(a.value) == multiset(b.value))
  }

  /** Permuting a listing keeps success and failure, and the entries with their multiplicity. */
  lemma {:induction false} OrderIrrelevant<S, E>(xs: seq<Obj<S>>, ys: seq<Obj<S>>, realm: string, f: S -> Option<E>)
    requires multiset(xs) == multiset(ys)
    ensures SameEntries(Collect(xs, realm, f), Collect(ys, realm, f))
    decreases |xs|
  {
    if |xs| == 0 {
      assert |multiset(ys)| == |ys|;
      assert |multiset(xs)| == 0;
    } else {
      var x, rest := Last(xs), DropLast(xs);
      assert xs == rest + [x];
      assert x in multiset(ys);
      var i :| 0 <= i < |ys| && ys[i] == x;
      assert ys == ys[..i] + [x] + ys[i + 1..];
      assert multiset(ys) == multiset(Without(ys, i)) + multiset{x};
      assert multiset(xs) == multiset(rest) + multiset{x};
      assert multiset(rest) == multiset(rest) + multiset{x} - multiset{x};
      assert multiset(Without(ys, i)) == multiset(Without(ys, i)) + multiset{x} - multiset{x};
      OrderIrrelevant(rest, Without(ys, i), realm, f);
      CollectSplit(ys, i, realm, f);
    }
  }

  ghost predicate Reordered(a: Namespace, b: Namespace) {
    && multiset(a.clients) == multiset(b.clients) && multiset(a.scopes) == multiset(b.scopes)
    && multiset(a.groups) == multiset(b.groups) && multiset(a.users) == multiset(b.users)
    && multiset(a.flows) == multiset(b.flows) && multiset(a.idps) == multiset(b.idps)
    && a.secrets == b.secrets
  }

  lemma BuildOrderIrrelevant(realm: RealmSpec, a: Namespace, b: Namespace)
    requires Reordered(a, b)
    ensures Build(realm, a).Some? <==> Build(realm, b).Some?
    ensures Build(realm, a).Some? ==>
      var x, y := Build(realm, a).value, Build(realm, b).value;
      && x.realm == y.realm
      && multiset(x.clients) == multiset(y.clients) && multiset(x.scopes) == multiset(y.scopes)
      && multiset(x.groups) == multiset(y.groups) && multiset(x.users) == multiset(y.users)
      && multiset(x.flows) == multiset(y.flows) && multiset(x.idps) == multiset(y.idps)
  {
    var name := realm.realmName;
    OrderIrrelevant(a.clients, b.clients, name, Clients(a.secrets));
    OrderIrrelevant(a.scopes, b.scopes, name, Same());
    OrderIrrelevant(a.groups, b.groups, name, Same());
    OrderIrrelevant(a.users, b.users, name, Users(a.secrets));
    OrderIrrelevant(a.flows, b.flows, name, Flows());
    OrderIrrelevant(a.idps, b.idps, name, Idps(a.secrets));
  }
}
