/**
 JSON as a tree. A struct is marshalled to the list of its members that are not omitted; a member
 is known by the position of its tag in the struct declaration (tags of one struct are distinct and
 written in declaration order, so position and tag determine each other).
 */
module Json {
  import opened Wrappers
  import opened Api

  datatype Json =
    | JNull
    | JBool(b: bool)
    | JInt(n: int)
    | JStr(s: string)
    | JArr(items: seq<Json>)
    | JObj(members: seq<Member>)
    | JMap(entries: map<string, Json>)

  datatype Member = Member(tag: nat, value: Json)

  // ----- structs -----------------------------------------------------------------------------

  /** Members for the fields from position k on; an omitted field (None) leaves no member. */
  function Members(fields: seq<Option<Json>>, k: nat): (r: seq<Member>)
    ensures forall m :: m in r ==> m.tag >= k
    decreases |fields|
  {
    if |fields| == 0 then []
    else (if fields[0].Some? then [Member(k, fields[0].value)] else []) + Members(fields[1..], k + 1)
  }

  function Struct(fields: seq<Option<Json>>): Json { JObj(Members(fields, 0)) }

  /** Omission loses nothing: which members are present, and their values, give the fields back. */
  lemma {:induction false} MembersInjective(f: seq<Option<Json>>, g: seq<Option<Json>>, k: nat)
    requires |f| == |g|
    requires Members(f, k) == Members(g, k)
    ensures f == g
    decreases |f|
  {
    if |f| > 0 {
      var mf, mg := Members(f[1..], k + 1), Members(g[1..], k + 1);
      var hf := if f[0].Some? then [Member(k, f[0].value)] else [];
      var hg := if g[0].Some? then [Member(k, g[0].value)] else [];
      assert hf + mf == hg + mg;
      assert hf == (hf + mf)[..|hf|] == (hg + mg)[..|hg|] == hg;
      assert mf == (hf + mf)[|hf|..] == (hg + mg)[|hg|..] == mg;
      MembersInjective(f[1..], g[1..], k + 1);
      assert f == [f[0]] + f[1..] && g == [g[0]] + g[1..];
    }
  }

  lemma StructInjective(f: seq<Option<Json>>, g: seq<Option<Json>>)
    requires |f| == |g|
    ensures Struct(f) == Struct(g) <==> f == g
  {
    if Struct(f) == Struct(g) { MembersInjective(f, g, 0); }
  }

  /** What a struct says under a tag, if anything. */
  function At(j: Json, tag: nat): Option<Json> {
    if j.JObj? then Find(j.members, tag) else None
  }

  function Find(members: seq<Member>, tag: nat): Option<Json> {
    if |members| == 0 then None
    else if members[0].tag == tag then Some(members[0].value)
    else Find(members[1..], tag)
  }

  lemma {:induction false} FindLater(members: seq<Member>, tag: nat)
    requires forall m :: m in members ==> m.tag > tag
    ensures Find(members, tag) == None
  {
    if |members| > 0 {
      assert members[0] in members && forall m :: m in members[1..] ==> m in members;
      FindLater(members[1..], tag);
    }
  }

  lemma {:induction false} FindField(fields: seq<Option<Json>>, k: nat, i: nat)
    requires i < |fields|
    ensures Find(Members(fields, k), k + i) == fields[i]
    decreases |fields|
  {
    var rest := Members(fields[1..], k + 1);
    if fields[0].Some? {
      assert Members(fields, k)[0] == Member(k, fields[0].value) && Members(fields, k)[1..] == rest;
    } else {
      assert Members(fields, k) == rest;
    }
    if i > 0 { FindField(fields[1..], k + 1, i - 1); } else if fields[0].None? { FindLater(rest, k); }
  }

  lemma {:induction false} FindBeyond(fields: seq<Option<Json>>, k: nat, tag: nat)
    requires tag >= k + |fields|
    ensures Find(Members(fields, k), tag) == None
    decreases |fields|
  {
    if |fields| > 0 {
      FindBeyond(fields[1..], k + 1, tag);
      var rest := Members(fields[1..], k + 1);
      if fields[0].Some? {
        assert Members(fields, k)[0] == Member(k, fields[0].value) && Members(fields, k)[1..] == rest;
      } else {
        assert Members(fields, k) == rest;
      }
    }
  }

  /** The struct says under each tag what the field of that position gives, and nothing else. */
  lemma StructSays(fields: seq<Option<Json>>)
    ensures forall i :: 0 <= i < |fields| ==> At(Struct(fields), i) == fields[i]
    ensures forall i :: i >= |fields| ==> At(Struct(fields), i) == None
  {
    forall i | i >= |fields| ensures At(Struct(fields), i) == None { FindBeyond(fields, 0, i); }
    forall i | 0 <= i < |fields| ensures At(Struct(fields), i) == fields[i] { FindField(fields, 0, i); }
  }

  // ----- arrays and maps ---------------------------------------------------------------------

  function MapSeq<A, B>(f: A -> B, xs: seq<A>): (r: seq<B>)
    ensures |r| == |xs|
    ensures forall i :: 0 <= i < |xs| ==> r[i] == f(xs[i])
  {
    if |xs| == 0 then [] else MapSeq(f, DropLast(xs)) + [f(Last(xs))]
  }

  /** If two element maps identify the same pairs, so do their liftings to sequences. */
  lemma MapSeqAgree<A(!new), B, C>(f: A -> B, g: A -> C, xs: seq<A>, ys: seq<A>)
    requires forall x, y :: f(x) == f(y) <==> g(x) == g(y)
    ensures MapSeq(f, xs) == MapSeq(f, ys) <==> MapSeq(g, xs) == MapSeq(g, ys)
  {
    if MapSeq(f, xs) == MapSeq(f, ys) {
      forall i | 0 <= i < |xs| ensures MapSeq(g, xs)[i] == MapSeq(g, ys)[i] {
        assert MapSeq(f, xs)[i] == MapSeq(f, ys)[i];
      }
    }
    if MapSeq(g, xs) == MapSeq(g, ys) {
      forall i | 0 <= i < |xs| ensures MapSeq(f, xs)[i] == MapSeq(f, ys)[i] {
        assert MapSeq(g, xs)[i] == MapSeq(g, ys)[i];
      }
    }
  }

  function Strings(xs: seq<string>): Json { JArr(seq(|xs|, i requires 0 <= i < |xs| => JStr(xs[i]))) }

  lemma StringsInjective(xs: seq<string>, ys: seq<string>)
    ensures Strings(xs) == Strings(ys) <==> xs == ys
  {
    if Strings(xs) == Strings(ys) {
      assert |Strings(xs).items| == |xs| && |Strings(ys).items| == |ys|;
      forall i | 0 <= i < |xs| ensures xs[i] == ys[i] {
        assert Strings(xs).items[i] == Strings(ys).items[i];
      }
    }
  }

  /** A list that is itself a map value is never omitted: nil gives null, empty gives []. */
  function SliceValue(s: Slice): Json { if s.None? then JNull else Strings(s.value) }

  function StringEntries(m: map<string, string>): Json { JMap(map k | k in m :: JStr(m[k])) }

  function SliceEntries(m: map<string, Slice>): Json { JMap(map k | k in m :: SliceValue(m[k])) }

  lemma StringEntriesInjective(m: map<string, string>, n: map<string, string>)
    ensures StringEntries(m) == StringEntries(n) <==> m == n
  {
    if StringEntries(m) == StringEntries(n) {
      var a, b := StringEntries(m).entries, StringEntries(n).entries;
      assert a.Keys == m.Keys && b.Keys == n.Keys;
      forall k | k in m ensures m[k] == n[k] { assert a[k] == b[k]; }
    }
  }

  lemma SliceEntriesInjective(m: map<string, Slice>, n: map<string, Slice>)
    ensures SliceEntries(m) == SliceEntries(n) <==> m == n
  {
    if SliceEntries(m) == SliceEntries(n) {
      var a, b := SliceEntries(m).entries, SliceEntries(n).entries;
      assert a.Keys == m.Keys && b.Keys == n.Keys;
      forall k | k in m ensures m[k] == n[k] {
        assert a[k] == b[k];
        if m[k].Some? && n[k].Some? { StringsInjective(m[k].value, n[k].value); }
      }
    }
  }

  // ----- fields with and without omitempty ---------------------------------------------------

  function Req(s: string): Option<Json> { Some(JStr(s)) }
  function ReqBool(b: bool): Option<Json> { Some(JBool(b)) }
  function Str(s: string): Option<Json> { if s == "" then None else Some(JStr(s)) }
  function Bool(b: Option<bool>): Option<Json> { if b.None? then None else Some(JBool(b.value)) }
  function Flag(b: bool): Option<Json> { if b then Some(JBool(true)) else None }
  function IntPtr(n: Option<int>): Option<Json> { if n.None? then None else Some(JInt(n.value)) }
  function Int(n: int): Option<Json> { if n == 0 then None else Some(JInt(n)) }
  function List(s: Slice): Option<Json> { if s.None? || |s.value| == 0 then None else Some(Strings(s.value)) }
  function Dict(m: StringMap): Option<Json> {
    if m.None? || |m.value| == 0 then None else Some(StringEntries(m.value))
  }
  function ListDict(m: SliceMap): Option<Json> {
    if m.None? || |m.value| == 0 then None else Some(SliceEntries(m.value))
  }

  // What a tag says for a value of a kind, in terms of the JSON itself.

  predicate SaysText(j: Json, tag: nat, s: string) { At(j, tag) == if s == "" then None else Some(JStr(s)) }
  predicate SaysAnyText(j: Json, tag: nat, s: string) { At(j, tag) == Some(JStr(s)) }
  predicate SaysBool(j: Json, tag: nat, b: bool) { At(j, tag) == Some(JBool(b)) }
  predicate SaysFlag(j: Json, tag: nat, b: bool) { At(j, tag) == if b then Some(JBool(true)) else None }
  predicate SaysOptionalBool(j: Json, tag: nat, b: Option<bool>) {
    && (b == None ==> At(j, tag) == None)
    && (b == Some(true) ==> At(j, tag) == Some(JBool(true)))
    && (b == Some(false) ==> At(j, tag) == Some(JBool(false)))
  }
  predicate SaysOptionalInt(j: Json, tag: nat, n: Option<int>) {
    At(j, tag) == match n case None => None case Some(v) => Some(JInt(v))
  }
  predicate SaysInt(j: Json, tag: nat, n: int) { At(j, tag) == if n == 0 then None else Some(JInt(n)) }

  predicate IsStrings(j: Json, xs: seq<string>) {
    j.JArr? && |j.items| == |xs| && forall i :: 0 <= i < |xs| ==> j.items[i] == JStr(xs[i])
  }
  predicate SaysList(j: Json, tag: nat, s: Slice) {
    if s == None || s == Some([]) then At(j, tag) == None
    else At(j, tag).Some? && IsStrings(At(j, tag).value, s.value)
  }
  predicate SaysDict(j: Json, tag: nat, m: StringMap) {
    if m == None || m == Some(map[]) then At(j, tag) == None
    else
      && At(j, tag).Some? && At(j, tag).value.JMap? && At(j, tag).value.entries.Keys == m.value.Keys
      && forall k :: k in m.value ==> At(j, tag).value.entries[k] == JStr(m.value[k])
  }
  predicate SaysListDict(j: Json, tag: nat, m: SliceMap) {
    if m == None || m == Some(map[]) then At(j, tag) == None
    else
      && At(j, tag).Some? && At(j, tag).value.JMap? && At(j, tag).value.entries.Keys == m.value.Keys
      && forall k :: k in m.value ==>
           if m.value[k] == None then At(j, tag).value.entries[k] == JNull
           else IsStrings(At(j, tag).value.entries[k], m.value[k].value)
  }

  lemma ListSays(j: Json, tag: nat, s: Slice)
    requires At(j, tag) == List(s)
    ensures SaysList(j, tag, s)
  {
  }

  lemma DictSays(j: Json, tag: nat, m: StringMap)
    requires At(j, tag) == Dict(m)
    ensures SaysDict(j, tag, m)
  {
    if m.Some? && m.value != map[] { assert |m.value| > 0; }
  }

  lemma ListDictSays(j: Json, tag: nat, m: SliceMap)
    requires At(j, tag) == ListDict(m)
    ensures SaysListDict(j, tag, m)
  {
    if m.Some? && m.value != map[] { assert |m.value| > 0; }
  }

  /** omitempty on a list or map: nil and empty are one value. */
  function NormList(s: Slice): Slice { if s == Some([]) then None else s }
  function NormDict(m: StringMap): StringMap { if m == Some(map[]) then None else m }
  function NormListDict(m: SliceMap): SliceMap { if m == Some(map[]) then None else m }

  lemma ListExact(s: Slice, t: Slice)
    ensures List(s) == List(t) <==> NormList(s) == NormList(t)
  {
    if s.Some? && t.Some? { StringsInjective(s.value, t.value); }
  }

  lemma DictExact(m: StringMap, n: StringMap)
    ensures Dict(m) == Dict(n) <==> NormDict(m) == NormDict(n)
  {
    if m.Some? && n.Some? { StringEntriesInjective(m.value, n.value); }
  }

  lemma ListDictExact(m: SliceMap, n: SliceMap)
    ensures ListDict(m) == ListDict(n) <==> NormListDict(m) == NormListDict(n)
  {
    if m.Some? && n.Some? { SliceEntriesInjective(m.value, n.value); }
  }
}
