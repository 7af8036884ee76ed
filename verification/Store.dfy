/**
 One object in the API server and its writers. Every writer reads a copy, changes it and sends the
 whole copy back with the version it read (`RetryOnConflict` around Get, mutate, Update); the status
 is written through its own endpoint (operator/internal/controller/status_util.go, helper.go:26-34,
 94-109, realm_controller.go:125-131). No update is ever lost: the versions are exactly the committed
 changes, each applied to the version before it.
 */
module Store {
  import opened Wrappers
  import opened Api

  /** What a commit changes. Deletion is requested at the server and needs no copy. */
  datatype Change =
    | RequestDeletion(at: nat)
    | Annotate(key: string, value: string)
    | Unannotate(key: string)
    | AddFinalizer
    | RemoveFinalizer
    | EditSpec(spec: RealmSpec)
    | WriteStatus(update: StatusUpdate, now: nat)

  /** What a writer sends back as a changed copy. */
  type Edit = c: Change | !c.RequestDeletion? witness AddFinalizer

  /** The change made on a private copy. */
  function Mutate(c: Edit, o: Realm): Realm {
    match c
    case Annotate(k, v) => o.(annotations := o.annotations[k := v])
    case Unannotate(k) => o.(annotations := o.annotations - {k})
    case AddFinalizer => o.(finalizer := true)
    case RemoveFinalizer => o.(finalizer := false)
    case EditSpec(spec) => o.(spec := spec)
    case WriteStatus(u, now) => o.(status := ApplyStatus(o.status, u, o.generation, now))
  }

  /**
   The server takes only the status from a copy sent to the status endpoint, and everything but the
   status from any other; it counts generations, and drops a deleted object without finalizer.
   */
  function Accept(c: Edit, current: Realm, sent: Realm): Option<Realm> {
    if c.WriteStatus? then Some(current.(status := sent.status))
    else
      var generation := if sent.spec != current.spec then current.generation + 1 else current.generation;
      var o := sent.(status := current.status, generation := generation, uid := current.uid, deletedAt := current.deletedAt);
      if o.deletedAt.Some? && !o.finalizer then None else Some(o)
  }

  /** The intended effect: this one change on the object as it is. */
  function Effect(c: Change, o: Realm): Option<Realm> {
    match c
    case RequestDeletion(at) => if o.deletedAt.Some? then Some(o) else Drop(o.(deletedAt := Some(at)))
    case Annotate(k, v) => Drop(o.(annotations := o.annotations[k := v]))
    case Unannotate(k) => Drop(o.(annotations := o.annotations - {k}))
    case AddFinalizer => Some(o.(finalizer := true))
    case RemoveFinalizer => if o.deletedAt.Some? then None else Some(o.(finalizer := false))
    case EditSpec(spec) => Drop(o.(spec := spec, generation := if spec == o.spec then o.generation else o.generation + 1))
    case WriteStatus(u, now) => Some(o.(status := ApplyStatus(o.status, u, o.generation, now)))
  }

  function Drop(o: Realm): Option<Realm> { if o.deletedAt.Some? && !o.finalizer then None else Some(o) }

  /** Sending back a changed copy of the current version has exactly the intended effect. */
  lemma CopyBackIsEffect(c: Edit, current: Realm)
    ensures Accept(c, current, Mutate(c, current)) == Effect(c, current)
  {
  }

  /** What each change does, and does not, to an object that is there. */
  lemma EffectsExactly(o: Realm, k: string, v: string, spec: RealmSpec, at: nat)
    ensures
      var kept := o.finalizer || o.deletedAt.None?;
      && (kept ==> Effect(Annotate(k, v), o) == Some(o.(annotations := o.annotations[k := v])))
      && (kept ==> Effect(EditSpec(spec), o) ==
                     Some(o.(spec := spec, generation := o.generation + if spec != o.spec then 1 else 0)))
      && (kept && k !in o.annotations ==> Effect(Unannotate(k), o) == Some(o))
      && Effect(AddFinalizer, o) == Some(o.(finalizer := true))
      && Effect(RemoveFinalizer, o) == (if o.deletedAt.Some? then None else Some(o.(finalizer := false)))
      && Effect(RequestDeletion(at), o) ==
           (if o.deletedAt.Some? then Some(o) else if o.finalizer then Some(o.(deletedAt := Some(at))) else None)
  {
    if k !in o.annotations { assert o.annotations - {k} == o.annotations; }
  }

  // ----- versions ----------------------------------------------------------------------------

  type History = h: seq<Option<Realm>> | |h| > 0 witness [None]

  /** Committing changes one after the other; nothing can be committed to an object that is gone. */
  function Replay(h: History, cs: seq<Change>): (r: History)
    ensures h <= r
    decreases |cs|
  {
    if |cs| == 0 then h
    else
      var before := Replay(h, DropLast(cs));
      match Last(before)
      case None => before
      case Some(o) => before + [Effect(Last(cs), o)]
  }

  lemma {:induction false} ReplayAppend(h: History, cs: seq<Change>, ds: seq<Change>)
    ensures Replay(h, cs + ds) == Replay(Replay(h, cs), ds)
    decreases |ds|
  {
    if |ds| == 0 {
      assert cs + ds == cs;
    } else {
      assert DropLast(cs + ds) == cs + DropLast(ds) && Last(cs + ds) == Last(ds);
      ReplayAppend(h, cs, DropLast(ds));
    }
  }

  lemma ReplayNone(h: History)
    ensures Replay(h, []) == h
  {
  }

  lemma ReplayOne(h: History, c: Change)
    requires Last(h).Some?
    ensures Replay(h, [c]) == h + [Effect(c, Last(h).value)]
  {
    assert DropLast([c]) == [] && Replay(h, []) == h;
  }

  // ----- any number of writers, in any interleaving ------------------------------------------

  /** A writer with its change and, once it has read, its copy and the version of the copy. */
  datatype Copy = Copy(o: Realm, version: nat)
  datatype Writer = Writer(change: Edit, copy: Option<Copy>)
  datatype Writers = Writers(history: History, writers: map<nat, Writer>)

  /** A writer begins, reads or sends; or somebody asks the server to delete the object. */
  datatype Move = Begin(id: nat, change: Edit) | Read(id: nat) | Send(id: nat) | Ask(at: nat)

  predicate CanMove(s: Writers, m: Move) {
    match m
    case Begin(_, _) => true
    case Read(i) => i in s.writers && Last(s.history).Some?
    case Send(i) => i in s.writers && s.writers[i].copy.Some?
    case Ask(_) => Last(s.history).Some?
  }

  /** The server accepts a copy only if the object still has the version it was read at. */
  predicate Wins(s: Writers, i: nat)
    requires CanMove(s, Send(i))
  {
    s.writers[i].copy.value.version == |s.history| - 1 && Last(s.history).Some?
  }

  function Step(s: Writers, m: Move): Writers
    requires CanMove(s, m)
  {
    match m
    case Begin(i, c) => s.(writers := s.writers[i := Writer(c, None)])
    case Read(i) =>
      s.(writers := s.writers[i := s.writers[i].(copy := Some(Copy(Last(s.history).value, |s.history| - 1)))])
    case Send(i) =>
      var w := s.writers[i];
      var s' := s.(writers := s.writers[i := w.(copy := None)]);
      if Wins(s, i)
      then s'.(history := s.history + [Accept(w.change, Last(s.history).value, Mutate(w.change, w.copy.value.o))])
      else s'
    case Ask(at) => s.(history := s.history + [Effect(RequestDeletion(at), Last(s.history).value)])
  }

  predicate CanRun(s: Writers, ms: seq<Move>)
    decreases |ms|
  {
    |ms| > 0 ==> CanMove(s, ms[0]) && CanRun(Step(s, ms[0]), ms[1..])
  }

  function After(s: Writers, ms: seq<Move>): Writers
    requires CanRun(s, ms)
    decreases |ms|
  {
    if |ms| == 0 then s else After(Step(s, ms[0]), ms[1..])
  }

  /** What a move commits. */
  function Commits(s: Writers, m: Move): seq<Change>
    requires CanMove(s, m)
  {
    match m
    case Send(i) => if Wins(s, i) then [s.writers[i].change] else []
    case Ask(at) => [RequestDeletion(at)]
    case _ => []
  }

  /** The changes whose copies were accepted, and the requested deletions, in order. */
  function Accepted(s: Writers, ms: seq<Move>): seq<Change>
    requires CanRun(s, ms)
    decreases |ms|
  {
    if |ms| == 0 then []
    else Commits(s, ms[0]) + Accepted(Step(s, ms[0]), ms[1..])
  }

  /** A copy sent right after it was read is accepted; one that somebody else was faster than is not. */
  lemma FreshCopyWins(s: Writers, i: nat, j: nat)
    requires CanMove(s, Read(i))
    ensures
      var read := Step(s, Read(i));
      && CanMove(read, Send(i))
      && Step(read, Send(i)).history == s.history + [Effect(s.writers[i].change, Last(s.history).value)]
    ensures i != j && CanMove(s, Send(j)) && Wins(s, j) ==>
      var late := Step(Step(s, Read(i)), Send(j));
      CanMove(late, Send(i)) && Step(late, Send(i)).history == late.history
  {
    CopyBackIsEffect(s.writers[i].change, Last(s.history).value);
  }

  predicate CopiesOk(s: Writers) {
    forall i :: i in s.writers && s.writers[i].copy.Some? ==>
      var c := s.writers[i].copy.value;
      c.version < |s.history| && s.history[c.version] == Some(c.o)
  }

  /**
   No lost updates, for every interleaving of every set of writers: the versions are the accepted
   changes, each with exactly its own effect on the version before it, and a writer that meets a
   conflict leaves nothing behind.
   */
  lemma {:induction false} NoLostUpdates(s: Writers, ms: seq<Move>)
    requires CopiesOk(s) && CanRun(s, ms)
    ensures After(s, ms).history == Replay(s.history, Accepted(s, ms))
    decreases |ms|
  {
    if |ms| > 0 {
      var m, s' := ms[0], Step(s, ms[0]);
      StepCopies(s, m);
      hide Step, Effect, Accept, Mutate, CopiesOk, Replay;
      NoLostUpdates(s', ms[1..]);
      var rest := Accepted(s', ms[1..]);
      StepCommits(s, m);
      ReplayAppend(s.history, Commits(s, m), rest);
    }
  }

  lemma StepCopies(s: Writers, m: Move)
    requires CopiesOk(s) && CanMove(s, m)
    ensures CopiesOk(Step(s, m)) && s.history <= Step(s, m).history
  {
    hide Effect, Accept, Mutate;
  }

  lemma StepCommits(s: Writers, m: Move)
    requires CopiesOk(s) && CanMove(s, m)
    ensures Step(s, m).history == Replay(s.history, Commits(s, m))
  {
    match m
    case Send(i) =>
      if Wins(s, i) {
        CopyBackIsEffect(s.writers[i].change, Last(s.history).value);
        ReplayOne(s.history, s.writers[i].change);
      }
    case Ask(at) => ReplayOne(s.history, RequestDeletion(at));
    case _ =>
  }

  // ----- what that protects ------------------------------------------------------------------

  /** The annotation as the last accepted change that names it left it. */
  function AnnotationAfter(was: Option<string>, cs: seq<Change>, key: string): Option<string> {
    if |cs| == 0 then was
    else match Last(cs)
      case Annotate(k, v) => if k == key then Some(v) else AnnotationAfter(was, DropLast(cs), key)
      case Unannotate(k) => if k == key then None else AnnotationAfter(was, DropLast(cs), key)
      case _ => AnnotationAfter(was, DropLast(cs), key)
  }

  function Annotation(o: Realm, key: string): Option<string> {
    if key in o.annotations then Some(o.annotations[key]) else None
  }

  /** A trigger or any other annotation is changed only by a change that names it; status writes never do. */
  lemma {:induction false} AnnotationsSurvive(h: History, cs: seq<Change>, key: string)
    requires Last(Replay(h, cs)).Some?
    ensures Last(h).Some?
    ensures Annotation(Last(Replay(h, cs)).value, key) == AnnotationAfter(Annotation(Last(h).value, key), cs, key)
    decreases |cs|
  {
    if |cs| > 0 {
      assert Last(Replay(h, DropLast(cs))).Some?;
      AnnotationsSurvive(h, DropLast(cs), key);
    }
  }

  /** The status is what the last accepted status write made it, whatever else was written meanwhile. */
  lemma {:induction false} StatusSurvives(h: History, cs: seq<Change>)
    requires Last(Replay(h, cs)).Some? && forall i :: 0 <= i < |cs| ==> !cs[i].WriteStatus?
    ensures Last(h).Some? && Last(Replay(h, cs)).value.status == Last(h).value.status
    decreases |cs|
  {
    if |cs| > 0 {
      assert Last(Replay(h, DropLast(cs))).Some?;
      StatusSurvives(h, DropLast(cs));
    }
  }

  /** The finalizer goes only when somebody removes it. */
  lemma {:induction false} FinalizerSurvives(h: History, cs: seq<Change>)
    requires Last(h).Some? && Last(h).value.finalizer
    requires forall i :: 0 <= i < |cs| ==> !cs[i].RemoveFinalizer?
    ensures Last(Replay(h, cs)).Some? && Last(Replay(h, cs)).value.finalizer
    decreases |cs|
  {
    if |cs| > 0 { FinalizerSurvives(h, DropLast(cs)); }
  }

  // ----- the retry loop ----------------------------------------------------------------------

  datatype PutResult = Committed | Conflict | NotFound

  class ApiObject {
    var stored: Option<Realm>
    var version: nat
    ghost var history: seq<Option<Realm>>

    ghost predicate Valid()
      reads this
    {
      |history| == version + 1 && Last(history) == stored
    }

    constructor (o: Realm)
      ensures Valid() && history == [Some(o)]
    {
      stored, version := Some(o), 0;
      history := [Some(o)];
    }

    method Get() returns (copy: Option<Copy>)
      requires Valid()
      ensures copy == if stored.None? then None else Some(Copy(stored.value, version))
    {
      if stored.None? { return None; }
      return Some(Copy(stored.value, version));
    }

    method Put(c: Edit, sent: Realm, at: nat) returns (r: PutResult)
      requires Valid()
      modifies this
      ensures Valid()
      ensures r == if old(stored).None? then NotFound else if at != old(version) then Conflict else Committed
      ensures history == old(history) + if r.Committed? then [Accept(c, old(stored).value, sent)] else []
    {
      if stored.None? { return NotFound; }
      if at != version { return Conflict; }
      stored := Accept(c, stored.value, sent);
      version := version + 1;
      history := history + [stored];
      return Committed;
    }

    /** Other writers commit their changes, one after the other. */
    method Rivals(cs: seq<Change>)
      requires Valid()
      modifies this
      ensures Valid() && history == Replay(old(history), cs)
    {
      for i := 0 to |cs|
        invariant Valid() && history == Replay(old(history), cs[..i])
      {
        assert DropLast(cs[..i + 1]) == cs[..i];
        if stored.Some? {
          stored := Effect(cs[i], stored.value);
          version := version + 1;
          history := history + [stored];
        }
      }
      assert cs[..|cs|] == cs;
    }
  }

  /** `retry.DefaultRetry` makes five attempts. */
  const ATTEMPTS: nat := 5

  function Flatten(css: seq<seq<Change>>): seq<Change> {
    if |css| == 0 then [] else Flatten(DropLast(css)) + Last(css)
  }

  lemma FlattenOne(css: seq<seq<Change>>, k: nat)
    requires k < |css|
    ensures Flatten(css[..k + 1]) == Flatten(css[..k]) + css[k]
  {
    assert DropLast(css[..k + 1]) == css[..k];
  }

  /** What there is when attempt k begins, if all before it failed. */
  function Before(h: History, rivals: seq<seq<Change>>, k: nat): History
    requires k <= |rivals|
  {
    Replay(h, Flatten(rivals[..k]))
  }

  lemma BeforeNext(h: History, rivals: seq<seq<Change>>, k: nat)
    requires k < |rivals|
    ensures Before(h, rivals, k + 1) == Replay(Before(h, rivals, k), rivals[k])
  {
    FlattenOne(rivals, k);
    ReplayAppend(h, Flatten(rivals[..k]), rivals[k]);
  }

  /** An object that is there sees a commit if there is one to see. */
  lemma {:induction false} RivalsShow(h: History, cs: seq<Change>)
    requires Last(h).Some?
    ensures |Replay(h, cs)| > |h| <==> |cs| > 0
    decreases |cs|
  {
    if |cs| > 0 {
      RivalsShow(h, DropLast(cs));
      if |cs| == 1 { ReplayNone(h); assert DropLast(cs) == []; }
    }
  }

  /** Once gone, an object stays gone. */
  lemma {:induction false} GoneStays(h: History, cs: seq<Change>)
    requires Last(h).None?
    ensures Replay(h, cs) == h
    decreases |cs|
  {
    if |cs| > 0 { GoneStays(h, DropLast(cs)); }
  }

  /**
   The loop shared by `UpdateStatusWithRetry`, `TriggerRealmSync`, `removeFinalizer` and the removal
   of the trigger: read, change the copy, send it; again on a conflict. `rivals[k]` is what others
   commit between reading and sending in attempt k. `tried` attempts were made.

   It commits in the first attempt that nobody disturbs, and gives up only after five disturbed ones or
   when the object is gone.
   */
  method CommitWithRetry(o: ApiObject, c: Edit, rivals: seq<seq<Change>>) returns (r: PutResult, tried: nat)
    requires o.Valid() && |rivals| == 5
    modifies o
    ensures o.Valid() && tried <= 5
    ensures
      var others := Flatten(rivals[..tried]);
      o.history == Replay(old(o.history), if r.Committed? then others + [c] else others)
    ensures r.Committed? ==>
      |o.history| > 1 && o.history[|o.history| - 2].Some?
      && o.stored == Effect(c, o.history[|o.history| - 2].value)
    ensures r.Committed? <==>
      exists k :: 0 <= k < 5 && rivals[k] == [] && Last(Before(old(o.history), rivals, k)).Some?
                  && forall j :: 0 <= j < k ==> rivals[j] != []
    ensures r.Committed? ==> tried > 0 && rivals[tried - 1] == [] && forall j :: 0 <= j < tried - 1 ==> rivals[j] != []
    ensures r.Conflict? ==> tried == 5 && o.stored.Some? && forall j :: 0 <= j < 5 ==> rivals[j] != []
    ensures r.NotFound? <==> !r.Committed? && o.stored.None?
  {
    hide Replay, Accept, Effect, Mutate, Flatten;
    ghost var h := o.history;
    tried := 0;
    r := Conflict;
    FlattenNone(rivals);
    ReplayNone(h);
    while tried < ATTEMPTS
      invariant o.Valid() && tried <= ATTEMPTS && r.Conflict?
      invariant o.history == Before(h, rivals, tried)
      invariant tried > 0 ==> o.stored.Some?
      invariant forall j :: 0 <= j < tried ==> rivals[j] != []
    {
      var copy := o.Get();
      if copy.None? {
        NeverFree(h, rivals, tried);
        return NotFound, tried;
      }
      var sent := Mutate(c, copy.value.o);
      ghost var read := o.history;
      o.Rivals(rivals[tried]);
      BeforeNext(h, rivals, tried);
      RivalsShow(read, rivals[tried]);
      tried := tried + 1;
      ghost var settled := o.history;
      r := o.Put(c, sent, copy.value.version);
      if r.Committed? {
        assert |settled| == |read| && settled == read;
        assert rivals[tried - 1] == [];
        CopyBackIsEffect(c, copy.value.o);
        ReplayOne(settled, c);
        ReplayAppend(h, Flatten(rivals[..tried]), [c]);
        return;
      }
      assert rivals[tried - 1] != [];
      if r.NotFound? {
        NeverFree(h, rivals, tried);
        return;
      }
    }
  }

  lemma FlattenNone(css: seq<seq<Change>>)
    ensures Flatten(css[..0]) == []
  {
  }

  /** After the object is gone no attempt finds it. */
  lemma {:induction false} GoneBefore(h: History, rivals: seq<seq<Change>>, k: nat, m: nat)
    requires k <= m <= |rivals| && Last(Before(h, rivals, k)).None?
    ensures Last(Before(h, rivals, m)).None?
    decreases m - k
  {
    if k < m {
      GoneBefore(h, rivals, k, m - 1);
      BeforeNext(h, rivals, m - 1);
      GoneStays(Before(h, rivals, m - 1), rivals[m - 1]);
    }
  }

  lemma NeverFree(h: History, rivals: seq<seq<Change>>, k: nat)
    requires k <= |rivals| && Last(Before(h, rivals, k)).None? && forall j :: 0 <= j < k ==> rivals[j] != []
    ensures forall m :: 0 <= m < |rivals| && rivals[m] == [] ==> Last(Before(h, rivals, m)).None?
  {
    forall m | 0 <= m < |rivals| && rivals[m] == [] ensures Last(Before(h, rivals, m)).None? {
      GoneBefore(h, rivals, k, m);
    }
  }
}
