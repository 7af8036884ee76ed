/** How often the config Secret is rewritten, hence how many Jobs there can be. */
module SpawnRate {
  import opened Wrappers
  import opened Api
  import opened Json
  import opened Protocol

  /** 299 seconds: the five minutes less the second that truncation of last-sync can cost. */
  const GAP: nat := 299 * SECOND

  /** How many of the rewrites a+1 .. b changed the payload. */
  function Changes(writes: seq<Write>, a: nat, b: nat): nat
    requires a <= b < |writes|
    decreases b - a
  {
    if a == b then 0
    else Changes(writes, a, b - 1) + if writes[b].payload != writes[b - 1].payload then 1 else 0
  }

  lemma WholeSecond(m: nat, t: nat)
    requires m % SECOND == 0 && m <= t
    ensures m <= Trunc(t)
  {
  }

  /** Measured in whole seconds, rewrites with the same payload are five minutes apart. */
  lemma {:induction false} Gaps(writes: seq<Write>, a: nat, b: nat)
    requires Spaced(writes) && a <= b < |writes|
    ensures Changes(writes, a, b) <= b - a
    ensures Trunc(writes[b].at) >= Trunc(writes[a].at) + (b - a - Changes(writes, a, b)) * HEAL
    decreases b - a
  {
    if a < b {
      Gaps(writes, a, b - 1);
      var before := Trunc(writes[b - 1].at);
      WholeSecond(before, writes[b].at);
      if writes[b].payload == writes[b - 1].payload { WholeSecond(before + HEAL, writes[b].at); }
    }
  }

  /**
   The spawn rate: rewrites a .. b with m changes of payload, all within `window` nanoseconds, are at
   most (m + 1) + (window + 1 s) / 300 s, and so at most (m + 1) + window / 299 s: truncation costs one
   second in all, not one a rewrite. A rewrite whose Job could not be created counts too.
   */
  lemma RewriteRate(writes: seq<Write>, a: nat, b: nat, window: nat)
    requires Spaced(writes) && a <= b < |writes| && writes[b].at - writes[a].at <= window
    ensures b - a + 1 <= Changes(writes, a, b) + 1 + (window + SECOND - 1) / (300 * SECOND)
    ensures b - a + 1 <= Changes(writes, a, b) + 1 + window / GAP
  {
    Gaps(writes, a, b);
    Divides(b - a - Changes(writes, a, b), window);
  }

  lemma Divides(n: nat, window: nat)
    requires n * HEAL < window + SECOND
    ensures n <= (window + SECOND - 1) / (300 * SECOND) && n <= window / GAP
  {
    if n > 0 { assert n * GAP <= window; }
  }

  /** Dividing by 300 s would be wrong: `SyncRealm` lets two rewrites come 299.001 s apart. */
  lemma TruncationCostsASecond(p: Json)
    ensures
      var first := Write(p, 999_000_000);
      var later := 300 * SECOND;
      && Drift(Some(ConfigSecret(p, Some(Trunc(first.at)))), p, later)
      && Spaced([first, Write(p, later + 1)]) && later + 1 - first.at < 300 * SECOND
  {
  }

  // ----- backlog of finished Jobs ------------------------------------------------------------

  lemma {:induction false} BirthsBound(jobs: map<nat, Job>, js: set<nat>, lo: nat, hi: nat)
    requires js <= jobs.Keys && lo <= hi
    requires forall j :: j in js ==> lo <= jobs[j].birth < hi
    requires forall i, j | i in js && j in js :: jobs[i].birth == jobs[j].birth ==> i == j
    ensures |js| <= hi - lo
    decreases hi - lo
  {
    if js != {} {
      if j :| j in js && jobs[j].birth == hi - 1 {
        BirthsBound(jobs, js - {j}, lo, hi - 1);
      } else {
        BirthsBound(jobs, js, lo, hi - 1);
      }
    }
  }

  lemma {:induction false} Extremes(jobs: map<nat, Job>, js: set<nat>) returns (first: nat, last: nat)
    requires js <= jobs.Keys && js != {}
    ensures first in js && last in js
    ensures forall j :: j in js ==> jobs[first].birth <= jobs[j].birth <= jobs[last].birth
    decreases |js|
  {
    var j :| j in js;
    first, last := j, j;
    if js != {j} {
      first, last := Extremes(jobs, js - {j});
      if jobs[j].birth < jobs[first].birth { first := j; }
      if jobs[j].birth > jobs[last].birth { last := j; }
    }
  }

  /** Jobs of one Realm that a cleanup leaves because they are younger than ten minutes. */
  predicate Young(key: string, s: Shared, js: set<nat>) {
    js <= s.jobs.Keys && forall j :: j in js ==> s.jobs[j].mounts == key && s.jobs[j].created + 600 * SECOND > s.now
  }

  /** There are at most three more of them than the changes of payload between the first and the last. */
  lemma BacklogBounded(key: string, l: Local, s: Shared, js: set<nat>) returns (first: nat, last: nat)
    requires Inv(key, l, s) && Young(key, s, js) && js != {}
    ensures first in js && last in js
    ensures s.jobs[first].birth <= s.jobs[last].birth < |l.log.writes|
    ensures |js| <= Changes(l.log.writes, s.jobs[first].birth, s.jobs[last].birth) + 3
  {
    hide ActiveInv, ReadyInv, PcInv, StatusInv, SpecInv, Changes;
    first, last := YoungSpan(key, l.log.writes, s, js);
  }

  lemma YoungSpan(key: string, ws: seq<Write>, s: Shared, js: set<nat>) returns (first: nat, last: nat)
    requires Young(key, s, js) && js != {} && Spaced(ws) && (|ws| > 0 ==> Last(ws).at <= s.now)
    requires forall j :: j in js ==> JobOk(key, ws, s.jobs[j])
    requires forall i, j | i in js && j in js :: s.jobs[i].birth == s.jobs[j].birth ==> i == j
    ensures first in js && last in js && s.jobs[first].birth <= s.jobs[last].birth < |ws|
    ensures |js| <= Changes(ws, s.jobs[first].birth, s.jobs[last].birth) + 3
  {
    hide Changes;
    first, last := Extremes(s.jobs, js);
    var a, b := s.jobs[first].birth, s.jobs[last].birth;
    BirthsBound(s.jobs, js, a, b + 1);
    if a < b {
      WholeSecond(s.jobs[first].created, ws[a + 1].at);
      LastIsLatest(ws, b);
      Gaps(ws, a + 1, b);
      ChangesSuffix(ws, a, a + 1, b);
    }
  }

  /** What a complete cleanup leaves of the Jobs of one Realm, besides the tracked and the running ones. */
  function Leftovers(key: string, s: Shared, uid: nat, active: Option<nat>): set<nat> {
    var kept := s.jobs - Victims(s.jobs, uid, active, s.now);
    set j | j in kept && kept[j].mounts == key && uid in kept[j].owners && Terminal(kept[j]) && active != Some(j)
  }

  lemma LeftoversAreYoung(key: string, s: Shared, uid: nat, active: Option<nat>)
    ensures Young(key, s, Leftovers(key, s, uid, active))
  {
  }

  /** If the payload was constant for the last ten minutes, a cleanup leaves at most three. */
  lemma BacklogOfThree(key: string, l: Local, s: Shared, uid: nat, active: Option<nat>)
    requires Inv(key, l, s)
    requires
      var ws := l.log.writes;
      forall i :: 0 < i < |ws| && ws[i].at + 600 * SECOND > s.now ==> ws[i].payload == ws[i - 1].payload
    ensures |Leftovers(key, s, uid, active)| <= 3
  {
    hide ActiveInv, ReadyInv, PcInv, StatusInv, SpecInv, Changes, Leftovers, Victims, Terminal;
    var js := Leftovers(key, s, uid, active);
    LeftoversAreYoung(key, s, uid, active);
    if js != {} {
      var first, last := BacklogBounded(key, l, s, js);
      NoChanges(l.log.writes, s.jobs[first].birth, s.jobs[last].birth, s.jobs[first].created);
    }
  }

  lemma {:induction false} NoChanges(writes: seq<Write>, a: nat, b: nat, since: nat)
    requires Spaced(writes) && a <= b < |writes| && (a + 1 < |writes| ==> writes[a + 1].at > since)
    requires forall i :: 0 < i < |writes| && writes[i].at > since ==> writes[i].payload == writes[i - 1].payload
    ensures Changes(writes, a, b) == 0
    ensures b > a ==> writes[b].at > since
    decreases b - a
  {
    if a < b { NoChanges(writes, a, b - 1, since); }
  }

  lemma {:induction false} LastIsLatest(writes: seq<Write>, b: nat)
    requires Spaced(writes) && b < |writes|
    ensures writes[b].at <= Last(writes).at
    decreases |writes| - b
  {
    if b + 1 < |writes| { LastIsLatest(writes, b + 1); }
  }

  lemma {:induction false} ChangesSuffix(writes: seq<Write>, a: nat, a': nat, b: nat)
    requires a <= a' <= b < |writes|
    ensures Changes(writes, a', b) <= Changes(writes, a, b)
    decreases b - a'
  {
    if a' < b { ChangesSuffix(writes, a, a', b - 1); }
  }
}
