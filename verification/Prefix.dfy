/**
 The stable prompt prefix of src/llm-gateway/prompt-prefix.ts: the normal form of a request and the
 fingerprint of its stable part. The hash is any function on texts.
 */
module Prefix {
  import opened Options
  import opened CanonicalJson
  import opened CanonicalTheorems

  /** The parts of a request that the prefix is made of; None for a field that is no list. */
  datatype Body = Body(messages: Option<seq<Json>>, tools: Option<seq<Json>>)

  predicate Sound(b: Body) {
    (b.messages.Some? ==> WellFormed(Arr(b.messages.value))) && (b.tools.Some? ==> WellFormed(Arr(b.tools.value)))
  }

  function Lookup(es: seq<(string, Json)>, key: string): Option<Json> {
    if es == [] then None else if es[0].0 == key then Some(es[0].1) else Lookup(es[1..], key)
  }

  function Field(v: Json, key: string): Option<Json> {
    if v.Obj? then Lookup(v.entries, key) else None
  }

  predicate IsSystem(m: Json) { Field(m, "role") == Some(Str("system")) }

  function Messages(ms: seq<Json>, system: bool): (r: seq<Json>)
    ensures forall i :: 0 <= i < |r| ==> r[i] in ms && IsSystem(r[i]) == system
  {
    if ms == [] then []
    else
      var rest := Messages(ms[..|ms| - 1], system);
      var last := ms[|ms| - 1];
      assert forall i :: 0 <= i < |rest| ==> rest[i] in ms[..|ms| - 1];
      if IsSystem(last) == system then rest + [last] else rest
  }

  /** The function name of a tool, else its type, else nothing; names and types are strings. */
  function ToolKey(t: Json): string {
    var name := if Field(t, "function").Some? then Field(Field(t, "function").value, "name") else None;
    var kind := Field(t, "type");
    if name.Some? && !name.value.Null? then TextOf(name.value)
    else if kind.Some? then TextOf(kind.value)
    else ""
  }

  function TextOf(v: Json): string { if v.Str? then v.s else "" }

  function Keyed(ts: seq<Json>): (r: seq<(string, Json)>)
    ensures |r| == |ts| && forall i :: 0 <= i < |r| ==> r[i] == (ToolKey(ts[i]), ts[i])
  {
    seq(|ts|, i requires 0 <= i < |ts| => (ToolKey(ts[i]), ts[i]))
  }

  function Values(es: seq<(string, Json)>): (r: seq<Json>)
    ensures |r| == |es| && forall i :: 0 <= i < |r| ==> r[i] == es[i].1
  {
    seq(|es|, i requires 0 <= i < |es| => es[i].1)
  }

  function SortTools(ts: seq<Json>): seq<Json> { Values(SortByKey(Keyed(ts))) }

  lemma SortedTools(ts: seq<Json>)
    ensures |SortTools(ts)| == |ts|
    ensures forall i :: 0 <= i < |ts| ==> SortTools(ts)[i] in ts && SortByKey(Keyed(ts))[i] == (ToolKey(SortTools(ts)[i]), SortTools(ts)[i])
  {
    var es := Keyed(ts);
    SortSorts(es);
    hide SortByKey, ToolKey, Ascending, DistinctKeys;
    assert |multiset(SortByKey(es))| == |multiset(es)|;
    forall i | 0 <= i < |ts|
      ensures SortTools(ts)[i] in ts && SortByKey(es)[i] == (ToolKey(SortTools(ts)[i]), SortTools(ts)[i])
    {
      var e := SortByKey(es)[i];
      assert e in multiset(SortByKey(es));
      assert e in multiset(es);
      var j :| 0 <= j < |es| && es[j] == e;
      assert e.1 == ts[j];
    }
  }

  lemma SortedToolsSound(ts: seq<Json>)
    requires WellFormed(Arr(ts))
    ensures WellFormed(Arr(SortTools(ts)))
  {
    SortedTools(ts);
    hide SortTools, SortByKey, ToolKey;
    forall i | 0 <= i < |SortTools(ts)|
      ensures WellFormed(SortTools(ts)[i])
    {
      var j :| 0 <= j < |ts| && ts[j] == SortTools(ts)[i];
    }
  }

  /** Sorted by name, printed, and read again. */
  function NormalTools(ts: seq<Json>): seq<Json>
    requires WellFormed(Arr(ts))
  {
    SortedToolsSound(ts);
    StringifyReadsBack(Arr(SortTools(ts)));
    Read(StableStringify(Arr(SortTools(ts)))).value.items
  }

  lemma NormalToolsAre(ts: seq<Json>)
    requires WellFormed(Arr(ts))
    ensures NormalTools(ts) == Normals(SortTools(ts)) && WellFormed(Arr(NormalTools(ts)))
  {
    hide StableStringify, Read, SortTools;
    SortedToolsSound(ts);
    StringifyReadsBack(Arr(SortTools(ts)));
    PrintArray(SortTools(ts));
    NormalAgain(Arr(SortTools(ts)));
    hide Normal, WellFormed;
  }

  function NormalizePrompt(b: Body): Body
    requires Sound(b)
  {
    Body(if b.messages.Some? then Some(Messages(b.messages.value, true) + Messages(b.messages.value, false)) else None,
         if b.tools.Some? && |b.tools.value| > 1 then Some(NormalTools(b.tools.value)) else b.tools)
  }

  function SystemOf(b: Body): seq<Json> { if b.messages.Some? then Messages(b.messages.value, true) else [] }

  function ToolsOf(b: Body): seq<Json> { if b.tools.Some? then b.tools.value else [] }

  /** The tools as the fingerprint sees them. */
  function ToolsPart(ts: seq<Json>): Json
    requires WellFormed(Arr(ts))
  {
    if ts == [] then Null else if |ts| == 1 then Arr(ts) else Arr(NormalTools(ts))
  }

  function PrefixValue(b: Body): Json
    requires Sound(b)
  {
    assert WellFormed(Arr([]));
    Obj([("system", Arr(SystemOf(b))), ("tools", ToolsPart(ToolsOf(b)))])
  }

  function Fingerprint(b: Body, hash: string -> string): Option<string>
    requires Sound(b)
  {
    if SystemOf(b) == [] && ToolsOf(b) == [] then None else Some(hash(StableStringify(PrefixValue(b))))
  }

  // ---------- messages ----------

  lemma {:induction false} MessagesConcat(a: seq<Json>, b: seq<Json>, system: bool)
    ensures Messages(a + b, system) == Messages(a, system) + Messages(b, system)
    decreases |b|
  {
    hide IsSystem;
    if b == [] {
      assert a + b == a;
    } else {
      assert (a + b)[..|a + b| - 1] == a + b[..|b| - 1];
      MessagesConcat(a, b[..|b| - 1], system);
    }
  }

  lemma {:induction false} MessagesAll(ms: seq<Json>, system: bool)
    requires forall i :: 0 <= i < |ms| ==> IsSystem(ms[i]) == system
    ensures Messages(ms, system) == ms && Messages(ms, !system) == []
    decreases |ms|
  {
    hide IsSystem;
    if ms != [] {
      MessagesAll(ms[..|ms| - 1], system);
    }
  }

  lemma NormalMessages(ms: seq<Json>)
    ensures var n := Messages(ms, true) + Messages(ms, false);
      Messages(n, true) == Messages(ms, true) && Messages(n, false) == Messages(ms, false)
  {
    var s, r := Messages(ms, true), Messages(ms, false);
    hide Messages, IsSystem;
    MessagesConcat(s, r, true);
    MessagesConcat(s, r, false);
    MessagesAll(s, true);
    MessagesAll(r, false);
  }

  // ---------- tools ----------

  /** No entry is greater than one after it. */
  predicate Nondescending<T>(es: seq<(string, T)>) {
    forall i, j :: 0 <= i < j < |es| ==> !Below(es[j].0, es[i].0)
  }

  lemma {:induction false} NondescendingStays<T>(es: seq<(string, T)>)
    requires Nondescending(es)
    ensures SortByKey(es) == es
  {
    hide Below;
    if es != [] {
      var rest, e := es[..|es| - 1], es[|es| - 1];
      assert es == rest + [e];
      NondescendingStays(rest);
    }
  }

  predicate NoneAbove<T>(es: seq<(string, T)>, key: string) {
    forall i :: 0 <= i < |es| ==> !Below(key, es[i].0)
  }

  lemma NoneAbovePermuted<T>(es: seq<(string, T)>, fs: seq<(string, T)>, key: string)
    requires NoneAbove(es, key) && multiset(fs) == multiset(es)
    ensures NoneAbove(fs, key)
  {
    hide Below;
    forall i | 0 <= i < |fs|
      ensures !Below(key, fs[i].0)
    {
      assert fs[i] in multiset(fs);
      assert fs[i] in multiset(es);
      var j :| 0 <= j < |es| && es[j] == fs[i];
    }
  }

  lemma NondescendingSnoc<T>(es: seq<(string, T)>, e: (string, T))
    requires Nondescending(es) && NoneAbove(es, e.0)
    ensures Nondescending(es + [e])
  {
    hide Below;
  }

  lemma {:induction false} InsertNondescends<T>(sorted: seq<(string, T)>, e: (string, T))
    requires Nondescending(sorted)
    ensures Nondescending(Insert(sorted, e))
  {
    hide Below;
    if sorted == [] {
      assert Insert(sorted, e) == [e];
    } else {
      var rest, last := sorted[..|sorted| - 1], sorted[|sorted| - 1];
      assert sorted == rest + [last];
      if Below(e.0, last.0) {
        InsertNondescends(rest, e);
        InsertHolds(rest, e);
        BelowAsymmetric(e.0, last.0);
        assert NoneAbove(rest + [e], last.0);
        NoneAbovePermuted(rest + [e], Insert(rest, e), last.0);
        NondescendingSnoc(Insert(rest, e), last);
      } else {
        forall i | 0 <= i < |sorted|
          ensures !Below(e.0, sorted[i].0)
        {
          if i < |rest| && Below(e.0, sorted[i].0) {
            BelowTotal(sorted[i].0, last.0);
            if sorted[i].0 != last.0 {
              BelowTransitive(e.0, sorted[i].0, last.0);
            }
            assert false;
          }
        }
        NondescendingSnoc(sorted, e);
      }
    }
  }

  lemma {:induction false} SortNondescends<T>(es: seq<(string, T)>)
    ensures Nondescending(SortByKey(es))
  {
    hide Below, Insert;
    if es != [] {
      SortNondescends(es[..|es| - 1]);
      InsertNondescends(SortByKey(es[..|es| - 1]), es[|es| - 1]);
    }
  }

  // ---------- the key of a tool does not depend on key order ----------

  lemma {:induction false} LookupFinds(es: seq<(string, Json)>, i: nat)
    requires DistinctKeys(es) && i < |es|
    ensures Lookup(es, es[i].0) == Some(es[i].1)
  {
    if i > 0 {
      LookupFinds(es[1..], i - 1);
    }
  }

  lemma {:induction false} LookupMisses(es: seq<(string, Json)>, key: string)
    ensures Lookup(es, key).None? <==> Without(es, key)
  {
    if es != [] {
      LookupMisses(es[1..], key);
      if Without(es, key) {
        assert Without(es[1..], key);
      }
      if Without(es[1..], key) && es[0].0 != key {
        assert forall i :: 0 < i < |es| ==> es[i] == es[1..][i - 1];
      }
    }
  }

  /** The same field holds the same value but for key order. */
  lemma FieldSame(v: Json, w: Json, key: string)
    requires WellFormed(v) && WellFormed(w) && SameUpToOrder(v, w)
    ensures Field(v, key).Some? <==> Field(w, key).Some?
    ensures Field(v, key).Some? ==>
              && WellFormed(Field(v, key).value) && WellFormed(Field(w, key).value)
              && SameUpToOrder(Field(v, key).value, Field(w, key).value)
  {
    if v.Obj? {
      var es, fs := v.entries, w.entries;
      LookupMisses(es, key);
      LookupMisses(fs, key);
      hide Lookup;
      if !Without(es, key) {
        var i :| 0 <= i < |es| && es[i].0 == key;
        var j :| 0 <= j < |fs| && es[i].0 == fs[j].0 && SameUpToOrder(es[i].1, fs[j].1);
        LookupFinds(es, i);
        LookupFinds(fs, j);
      } else if !Without(fs, key) {
        SameBack(v, w);
        KeySame(w, v, key);
      }
    }
  }

  lemma KeySame(v: Json, w: Json, key: string)
    requires v.Obj? && SameUpToOrder(v, w) && !Without(v.entries, key)
    ensures w.Obj? && !Without(w.entries, key)
  {
    var i :| 0 <= i < |v.entries| && v.entries[i].0 == key;
    var j :| 0 <= j < |w.entries| && v.entries[i].0 == w.entries[j].0 && SameUpToOrder(v.entries[i].1, w.entries[j].1);
  }

  lemma SameBack(v: Json, w: Json)
    requires WellFormed(v) && WellFormed(w) && SameUpToOrder(v, w)
    ensures SameUpToOrder(w, v)
  {
    hide SameUpToOrder, StableStringify, WellFormed;
    PrintsAlikeIff(v, w);
    PrintsAlikeIff(w, v);
  }

  lemma ToolKeySame(v: Json, w: Json)
    requires WellFormed(v) && WellFormed(w) && SameUpToOrder(v, w)
    ensures ToolKey(v) == ToolKey(w)
  {
    hide Field, WellFormed;
    FieldSame(v, w, "type");
    FieldSame(v, w, "function");
    if Field(v, "function").Some? {
      FieldSame(Field(v, "function").value, Field(w, "function").value, "name");
    }
  }

  lemma NormalIsSame(v: Json)
    requires WellFormed(v)
    ensures WellFormed(Normal(v)) && SameUpToOrder(v, Normal(v))
  {
    hide SameUpToOrder, Normal, StableStringify, WellFormed;
    NormalAgain(v);
    PrintsAlikeIff(v, Normal(v));
  }

  /** Sorting and normalising tools that are sorted and normal already changes nothing. */
  lemma NormalToolsAgain(ts: seq<Json>)
    requires WellFormed(Arr(ts))
    ensures WellFormed(Arr(NormalTools(ts))) && NormalTools(NormalTools(ts)) == NormalTools(ts)
  {
    NormalToolsAre(ts);
    var n := NormalTools(ts);
    NormalToolsAre(n);
    SortedTools(ts);
    SortedToolsSound(ts);
    SortNondescends(Keyed(ts));
    hide NormalTools, SortByKey, Normal, ToolKey, SameUpToOrder;
    var s := SortTools(ts);
    forall i | 0 <= i < |s|
      ensures Keyed(n)[i].0 == SortByKey(Keyed(ts))[i].0 && Normal(n[i]) == n[i]
    {
      NormalIsSame(s[i]);
      ToolKeySame(s[i], n[i]);
      NormalAgain(s[i]);
    }
    hide WellFormed, SortTools;
    assert Nondescending(Keyed(n)) by { hide Below; }
    NondescendingStays(Keyed(n));
    assert SortTools(n) == n by { SortToolsIs(n); }
    assert Normals(n) == n;
  }

  lemma SortToolsIs(ts: seq<Json>)
    requires SortByKey(Keyed(ts)) == Keyed(ts)
    ensures SortTools(ts) == ts
  {
  }

  // ---------- theorems ----------

  /** A normal request is left as it is. */
  lemma NormalisationIsIdempotent(b: Body)
    requires Sound(b)
    ensures Sound(NormalizePrompt(b)) && NormalizePrompt(NormalizePrompt(b)) == NormalizePrompt(b)
  {
    hide Messages, NormalTools;
    if b.messages.Some? {
      NormalMessages(b.messages.value);
      MessagesSound(b.messages.value, true);
      MessagesSound(b.messages.value, false);
    }
    if b.tools.Some? && |b.tools.value| > 1 {
      NormalToolsAgain(b.tools.value);
      NormalToolsAre(b.tools.value);
      SortedTools(b.tools.value);
    }
  }

  lemma MessagesSound(ms: seq<Json>, system: bool)
    requires WellFormed(Arr(ms))
    ensures WellFormed(Arr(Messages(ms, system)))
  {
    var r := Messages(ms, system);
    hide Messages, IsSystem;
    forall i | 0 <= i < |r|
      ensures WellFormed(r[i])
    {
      var j :| 0 <= j < |ms| && ms[j] == r[i];
    }
  }

  ghost predicate SameEach(a: seq<Json>, b: seq<Json>) {
    |a| == |b| && forall i :: 0 <= i < |a| ==> SameUpToOrder(a[i], b[i])
  }

  lemma PrefixSound(b: Body)
    requires Sound(b)
    ensures WellFormed(PrefixValue(b)) && WellFormed(ToolsPart(ToolsOf(b))) && WellFormed(Arr(SystemOf(b)))
  {
    hide Messages, NormalTools;
    if b.messages.Some? {
      MessagesSound(b.messages.value, true);
    }
    if b.tools.Some? {
      NormalToolsAre(b.tools.value);
    }
  }

  /**
   Two requests have the same fingerprinted text exactly when their system messages are, one by one,
   the same up to key order, and so are their tools in normal order. Other messages do not matter,
   nor where the system messages stand among them.
   */
  lemma FingerprintTextIff(b: Body, c: Body)
    requires Sound(b) && Sound(c)
    ensures StableStringify(PrefixValue(b)) == StableStringify(PrefixValue(c))
            <==> SameEach(SystemOf(b), SystemOf(c)) && SameUpToOrder(ToolsPart(ToolsOf(b)), ToolsPart(ToolsOf(c)))
  {
    hide StableStringify, WellFormed, ToolsPart, SystemOf, SameUpToOrder;
    PrefixSound(b);
    PrefixSound(c);
    PartsSound(b);
    PartsSound(c);
    PrintsAlikeIff(PrefixValue(b), PrefixValue(c));
    PairSame(SystemOf(b), ToolsPart(ToolsOf(b)), SystemOf(c), ToolsPart(ToolsOf(c)));
  }

  lemma PairSame(s: seq<Json>, t: Json, s': seq<Json>, t': Json)
    ensures SameUpToOrder(Obj([("system", Arr(s)), ("tools", t)]), Obj([("system", Arr(s')), ("tools", t')]))
            <==> SameEach(s, s') && SameUpToOrder(t, t')
  {
    var es, fs := [("system", Arr(s)), ("tools", t)], [("system", Arr(s')), ("tools", t')];
    assert "system" != "tools" by { assert |"system"| != |"tools"|; }
    assert SameUpToOrder(Arr(s), Arr(s')) <==> SameEach(s, s');
    if SameUpToOrder(Obj(es), Obj(fs)) {
      var i :| 0 <= i < |fs| && es[0].0 == fs[i].0 && SameUpToOrder(es[0].1, fs[i].1);
      var j :| 0 <= j < |fs| && es[1].0 == fs[j].0 && SameUpToOrder(es[1].1, fs[j].1);
      assert i == 0 && j == 1;
    }
    if SameUpToOrder(Arr(s), Arr(s')) && SameUpToOrder(t, t') {
      assert es[0].0 == fs[0].0 && SameUpToOrder(es[0].1, fs[0].1);
      assert es[1].0 == fs[1].0 && SameUpToOrder(es[1].1, fs[1].1);
    }
  }

  ghost predicate Alike(v: Json, w: Json) { SameUpToOrder(v, w) }

  /** Every value of the first list is, but for key order, in the second. */
  ghost predicate EachAmong(ts: seq<Json>, us: seq<Json>) {
    forall i :: 0 <= i < |ts| ==> exists j :: 0 <= j < |us| && Alike(ts[i], us[j])
  }

  /** Tools with different names, in any order and with their keys in any order, have one normal form. */
  lemma PermutedToolsAlike(ts: seq<Json>, us: seq<Json>)
    requires WellFormed(Arr(ts)) && WellFormed(Arr(us)) && |ts| == |us|
    requires DistinctKeys(Keyed(ts)) && DistinctKeys(Keyed(us))
    requires EachAmong(ts, us)
    ensures NormalTools(ts) == NormalTools(us)
  {
    hide SortTools, SortByKey, Normal, ToolKey, SameUpToOrder, NormalTools, Ascending, DistinctKeys;
    NormalToolsAre(ts);
    NormalToolsAre(us);
    SortedTools(ts);
    SortedTools(us);
    SortSorts(Keyed(ts));
    SortSorts(Keyed(us));
    var a, b := Mapped(SortByKey(Keyed(ts)), Normal), Mapped(SortByKey(Keyed(us)), Normal);
    MappedAscends(SortByKey(Keyed(ts)));
    MappedAscends(SortByKey(Keyed(us)));
    KeyedLengths(ts);
    KeyedLengths(us);
    forall p | 0 <= p < |a|
      ensures a[p] in b
    {
      var t := SortTools(ts)[p];
      var i :| 0 <= i < |ts| && ts[i] == t;
      var j :| 0 <= j < |us| && Alike(ts[i], us[j]);
      ToolKeySame(t, us[j]);
      SameTellsNormal(t, us[j]);
      InSorted(us, j);
      var q :| 0 <= q < |SortByKey(Keyed(us))| && SortByKey(Keyed(us))[q] == (ToolKey(us[j]), us[j]);
      assert b[q] == a[p];
    }
    AscendingUnique(a, b);
    forall i | 0 <= i < |ts|
      ensures Normals(SortTools(ts))[i] == Normals(SortTools(us))[i]
    {
      assert a[i] == b[i];
    }
  }

  lemma KeyedLengths(ts: seq<Json>)
    ensures |SortByKey(Keyed(ts))| == |ts|
  {
    SortSorts(Keyed(ts));
    assert |multiset(SortByKey(Keyed(ts)))| == |multiset(Keyed(ts))|;
  }

  lemma InSorted(us: seq<Json>, j: nat)
    requires j < |us|
    ensures (ToolKey(us[j]), us[j]) in SortByKey(Keyed(us))
  {
    hide SortByKey, ToolKey;
    SortSorts(Keyed(us));
    assert Keyed(us)[j] in multiset(Keyed(us));
    assert Keyed(us)[j] in multiset(SortByKey(Keyed(us)));
  }

  /**
   The fingerprinted texts of two requests whose tools have different names agree exactly when the
   system messages are the same one by one and the tools are the same in any order, up to key order.
   So permuting tools, reordering keys, changing other messages or moving system messages among them
   never changes the fingerprint, and every other change changes the text that is hashed.
   */
  lemma FingerprintIsStable(b: Body, c: Body, hash: string -> string)
    requires Sound(b) && Sound(c) && DistinctKeys(Keyed(ToolsOf(b))) && DistinctKeys(Keyed(ToolsOf(c)))
    ensures StableStringify(PrefixValue(b)) == StableStringify(PrefixValue(c))
            <==> SameEach(SystemOf(b), SystemOf(c)) && |ToolsOf(b)| == |ToolsOf(c)| && EachAmong(ToolsOf(b), ToolsOf(c))
    ensures SameEach(SystemOf(b), SystemOf(c)) && |ToolsOf(b)| == |ToolsOf(c)| && EachAmong(ToolsOf(b), ToolsOf(c)) ==>
              Fingerprint(b, hash) == Fingerprint(c, hash)
  {
    hide StableStringify, SystemOf, NormalTools, PrefixValue, Keyed, DistinctKeys, WellFormed, SameUpToOrder, ToolsPart, EachAmong;
    PartsSound(b);
    PartsSound(c);
    FingerprintTextIff(b, c);
    if |ToolsOf(b)| == |ToolsOf(c)| && EachAmong(ToolsOf(b), ToolsOf(c)) {
      ToolsPartAlike(ToolsOf(b), ToolsOf(c));
    }
    if SameUpToOrder(ToolsPart(ToolsOf(b)), ToolsPart(ToolsOf(c))) {
      ToolsPartTells(ToolsOf(b), ToolsOf(c));
    }
  }

  lemma SameThrough(u: Json, v: Json, w: Json)
    requires WellFormed(u) && WellFormed(v) && WellFormed(w) && SameUpToOrder(u, v) && SameUpToOrder(v, w)
    ensures SameUpToOrder(u, w)
  {
    hide SameUpToOrder, StableStringify, WellFormed;
    PrintsAlikeIff(u, v);
    PrintsAlikeIff(v, w);
    PrintsAlikeIff(u, w);
  }

  lemma SameArrays(xs: seq<Json>, ys: seq<Json>)
    ensures SameUpToOrder(Arr(xs), Arr(ys)) <==> SameEach(xs, ys)
  {
  }

  /** Tools that look the same to the fingerprint are the same in some order. */
  lemma ToolsPartTells(ts: seq<Json>, us: seq<Json>)
    requires WellFormed(Arr(ts)) && WellFormed(Arr(us)) && SameUpToOrder(ToolsPart(ts), ToolsPart(us))
    ensures |ts| == |us| && EachAmong(ts, us)
  {
    hide NormalTools, SortTools, SortByKey, ToolKey, Normal, SameUpToOrder;
    NormalToolsAre(ts);
    NormalToolsAre(us);
    SortedTools(ts);
    SortedTools(us);
    assert ts != [] && us != [] ==> SameUpToOrder(ToolsPart(ts), ToolsPart(us));
    SameArrays(if |ts| == 1 then ts else NormalTools(ts), if |us| == 1 then us else NormalTools(us));
    assert ts == [] <==> us == [] by { NullIsNoArray(ToolsPart(ts), ToolsPart(us)); }
    if |ts| > 1 {
      SortedTell(ts, us);
    } else if |ts| == 1 {
      assert Alike(ts[0], us[0]);
    }
  }

  lemma SortedTell(ts: seq<Json>, us: seq<Json>)
    requires WellFormed(Arr(ts)) && WellFormed(Arr(us)) && |ts| == |us| && SameEach(NormalTools(ts), NormalTools(us))
    ensures EachAmong(ts, us)
  {
    forall i | 0 <= i < |ts|
      ensures exists j :: 0 <= j < |us| && Alike(ts[i], us[j])
    {
      var j := PlaceTells(ts, us, i);
      assert 0 <= j < |us| && Alike(ts[i], us[j]);
    }
    assert forall i :: 0 <= i < |ts| ==> exists j :: 0 <= j < |us| && Alike(ts[i], us[j]);
  }

  lemma PlaceTells(ts: seq<Json>, us: seq<Json>, i: nat) returns (j: nat)
    requires WellFormed(Arr(ts)) && WellFormed(Arr(us)) && |ts| == |us| && SameEach(NormalTools(ts), NormalTools(us)) && i < |ts|
    ensures j < |us| && Alike(ts[i], us[j])
  {
    hide NormalTools, SortTools, SortByKey, ToolKey, Normal, SameUpToOrder;
    NormalToolsAre(ts);
    NormalToolsAre(us);
    SortedTools(us);
    SortedPlace(ts, i);
    var p :| 0 <= p < |ts| && SortTools(ts)[p] == ts[i];
    j :| 0 <= j < |us| && us[j] == SortTools(us)[p];
    assert SameUpToOrder(NormalTools(ts)[p], NormalTools(us)[p]);
    ItemSound(ts, i);
    ItemSound(us, j);
    hide WellFormed;
    NormalsTell(ts[i], us[j]);
    AreAlike(ts[i], us[j]);
  }

  lemma AreAlike(v: Json, w: Json)
    requires SameUpToOrder(v, w)
    ensures Alike(v, w)
  {
  }

  lemma ItemSound(ts: seq<Json>, i: nat)
    requires WellFormed(Arr(ts)) && i < |ts|
    ensures WellFormed(ts[i])
  {
  }

  lemma NormalsTell(v: Json, w: Json)
    requires WellFormed(v) && WellFormed(w) && SameUpToOrder(Normal(v), Normal(w))
    ensures SameUpToOrder(v, w)
  {
    hide SameUpToOrder, Normal, WellFormed;
    NormalIsSame(v);
    NormalIsSame(w);
    SameBack(w, Normal(w));
    SameThrough(v, Normal(v), Normal(w));
    SameThrough(v, Normal(w), w);
  }

  lemma NullIsNoArray(v: Json, w: Json)
    requires SameUpToOrder(v, w)
    ensures v.Null? <==> w.Null?
  {
  }

  lemma SortedPlace(ts: seq<Json>, i: nat)
    requires i < |ts|
    ensures exists p :: 0 <= p < |ts| == |SortTools(ts)| && SortTools(ts)[p] == ts[i]
  {
    hide SortByKey, ToolKey;
    SortedTools(ts);
    InSorted(ts, i);
    KeyedLengths(ts);
    var p :| 0 <= p < |SortByKey(Keyed(ts))| && SortByKey(Keyed(ts))[p] == (ToolKey(ts[i]), ts[i]);
    assert SortTools(ts)[p] == ts[i];
  }

  lemma ToolsPartAlike(ts: seq<Json>, us: seq<Json>)
    requires WellFormed(Arr(ts)) && WellFormed(Arr(us)) && |ts| == |us|
    requires DistinctKeys(Keyed(ts)) && DistinctKeys(Keyed(us))
    requires EachAmong(ts, us)
    ensures SameUpToOrder(ToolsPart(ts), ToolsPart(us))
  {
    hide NormalTools, Keyed, DistinctKeys, WellFormed, SameUpToOrder;
    if |ts| > 1 {
      PermutedToolsAlike(ts, us);
      NormalToolsAre(ts);
      SameReflexive(ToolsPart(ts));
    } else if |ts| == 1 {
      var j :| 0 <= j < |us| && Alike(ts[0], us[j]);
      OneAlike(ts, us);
    } else {
      NullAlike();
    }
  }

  lemma NullAlike()
    ensures SameUpToOrder(Null, Null)
  {
  }

  lemma OneAlike(ts: seq<Json>, us: seq<Json>)
    requires |ts| == |us| == 1 && SameUpToOrder(ts[0], us[0])
    ensures SameUpToOrder(Arr(ts), Arr(us))
  {
  }

  lemma PartsSound(b: Body)
    requires Sound(b)
    ensures WellFormed(Arr(ToolsOf(b)))
  {
  }

  lemma SameReflexive(v: Json)
    requires WellFormed(v)
    ensures SameUpToOrder(v, v)
  {
    hide StableStringify, SameUpToOrder, WellFormed;
    PrintsAlikeIff(v, v);
  }

  /** The gateway fingerprints the normalised request; that is the fingerprint of the request as it came. */
  lemma NormalisingKeepsFingerprint(b: Body, hash: string -> string)
    requires Sound(b)
    ensures Sound(NormalizePrompt(b)) && Fingerprint(NormalizePrompt(b), hash) == Fingerprint(b, hash)
  {
    hide Messages, NormalTools, StableStringify;
    NormalisationIsIdempotent(b);
    if b.messages.Some? {
      NormalMessages(b.messages.value);
    }
    if b.tools.Some? && |b.tools.value| > 1 {
      NormalToolsAgain(b.tools.value);
      NormalToolsAre(b.tools.value);
      SortedTools(b.tools.value);
    }
  }
}
