/** stableStringify is canonical: it reads back, and prints alike exactly what differs in key order only. */
module CanonicalTheorems {
  import opened Options
  import opened CanonicalJson

  // ---------- strings and numbers read back ----------

  lemma EscapedReadsBack(c: char, t: string)
    ensures ReadString(Escaped(c) + t) == Prepend(c, ReadString(t))
  {
    var s := Escaped(c) + t;
    assert |Escaped(c)| == 1 ==> s[1..] == t;
    assert |Escaped(c)| == 2 ==> s[2..] == t;
    assert |Escaped(c)| == 6 ==> s[6..] == t && s[2..6] == Escaped(c)[2..6];
  }

  lemma {:induction false} StringReadsBack(s: string, rest: string)
    ensures ReadString(EscapedAll(s) + ("\"" + rest)) == Some((s, rest))
  {
    hide Escaped;
    if s == "" {
      var t := EscapedAll(s) + ("\"" + rest);
      assert t[0] == '\"' && t[1..] == rest;
    } else {
      assert EscapedAll(s) + ("\"" + rest) == Escaped(s[0]) + (EscapedAll(s[1..]) + ("\"" + rest));
      EscapedReadsBack(s[0], EscapedAll(s[1..]) + ("\"" + rest));
      StringReadsBack(s[1..], rest);
      hide ReadString, EscapedAll;
      assert [s[0]] + s[1..] == s;
    }
  }

  /** What may follow a value: nothing, or a character that is no part of a number. */
  predicate Stops(rest: string) { rest == "" || !NumberChar(rest[0]) }

  lemma {:induction false} NumberStops(text: string, rest: string)
    requires (forall i :: 0 <= i < |text| ==> NumberChar(text[i])) && Stops(rest)
    ensures NumberLength(text + rest) == |text|
  {
    if text == "" {
      assert text + rest == rest;
    } else {
      assert (text + rest)[1..] == text[1..] + rest;
      NumberStops(text[1..], rest);
    }
  }

  lemma QuotedReadsBack(k: string, rest: string)
    ensures (Quoted(k) + rest)[0] == '\"' && ReadString((Quoted(k) + rest)[1..]) == Some((k, rest))
  {
    assert (Quoted(k) + rest)[1..] == EscapedAll(k) + ("\"" + rest);
    StringReadsBack(k, rest);
  }

  lemma QuotedBegins(k: string)
    ensures Quoted(k) != "" && Quoted(k)[0] == '\"'
  {
  }

  // ---------- objects ----------

  lemma PrintObject(es: seq<(string, Json)>)
    ensures StableStringify(Obj(es)) == "{" + Joined(Members(Mapped(SortByKey(es), StableStringify))) + "}"
    ensures Normal(Obj(es)) == Obj(Mapped(SortByKey(es), Normal))
  {
    SortCommutes(es, StableStringify);
    SortCommutes(es, Normal);
    assert seq(|es|, i requires 0 <= i < |es| => (es[i].0, StableStringify(es[i].1))) == Mapped(es, StableStringify);
    assert seq(|es|, i requires 0 <= i < |es| => (es[i].0, Normal(es[i].1))) == Mapped(es, Normal);
    hide SortByKey, Joined, Members;
  }

  /** The entries of a well-formed object, sorted. */
  lemma SortedEntries(es: seq<(string, Json)>)
    requires WellFormed(Obj(es))
    ensures var s := SortByKey(es);
      |s| == |es| && Ascending(s) && forall i :: 0 <= i < |s| ==> s[i] in es && WellFormed(s[i].1)
  {
    SortSorts(es);
    var s := SortByKey(es);
    hide SortByKey, Ascending;
    assert |multiset(s)| == |multiset(es)|;
    forall i | 0 <= i < |s|
      ensures s[i] in es && WellFormed(s[i].1)
    {
      assert s[i] in multiset(s);
      assert s[i] in multiset(es);
      var j :| 0 <= j < |es| && es[j] == s[i];
    }
  }

  lemma {:induction false} PutNew(es: seq<(string, Json)>, k: string, v: Json)
    requires Without(es, k)
    ensures Put(es, k, v) == es + [(k, v)]
  {
    if es != [] {
      PutNew(es[1..], k, v);
    }
  }

  lemma JoinedNothing(parts: seq<string>)
    requires parts == []
    ensures Joined(parts) == ""
  {
  }

  lemma JoinedFrom(parts: seq<string>, i: nat)
    requires i < |parts|
    ensures Joined(parts[i..]) == if i + 1 < |parts| then parts[i] + "," + Joined(parts[i + 1..]) else parts[i]
  {
    assert parts[i..][1..] == parts[i + 1..];
  }

  /** No printed value is empty or begins like the end of a list. */
  lemma PrintBegins(v: Json)
    requires WellFormed(v)
    ensures StableStringify(v) != "" && StableStringify(v)[0] != ']' && StableStringify(v)[0] != '}'
  {
  }

  // ---------- reading back ----------

  /**
   Reading what was printed gives the value back, with the keys of every object in order, and leaves
   what follows.
   */
  lemma {:induction false} ReadsBack(v: Json, rest: string)
    requires WellFormed(v) && Stops(rest)
    ensures ReadValue(StableStringify(v) + rest) == Some((Normal(v), rest))
    decreases v, 0
  {
    match v
    case Null => LiteralReadsBack(v, rest);
    case Bool(_) => LiteralReadsBack(v, rest);
    case Num(_) => LiteralReadsBack(v, rest);
    case Str(s) => LiteralReadsBack(v, rest);
    case Arr(items) => ArrayReadsBack(items, v, rest);
    case Obj(es) => ObjectReadsBack(es, v, rest);
  }

  lemma LiteralReadsBack(v: Json, rest: string)
    requires WellFormed(v) && Stops(rest) && !v.Arr? && !v.Obj?
    ensures ReadValue(StableStringify(v) + rest) == Some((v, rest))
  {
    var s := StableStringify(v) + rest;
    match v
    case Null => assert s[4..] == rest;
    case Bool(b) => assert s[if b then 4 else 5..] == rest;
    case Num(text) => NumberReadsBack(text, rest);
    case Str(t) => QuotedReadsBack(t, rest);
  }

  lemma NumberReadsBack(text: string, rest: string)
    requires NumberText(text) && Stops(rest)
    ensures ReadValue(text + rest) == Some((Num(text), rest))
  {
    NumberStops(text, rest);
    var s := text + rest;
    assert NumberChar(s[0]);
    assert s[..|text|] == text && s[|text|..] == rest;
    hide NumberText;
  }

  function ItemTexts(items: seq<Json>): (r: seq<string>)
    ensures |r| == |items| && forall i :: 0 <= i < |r| ==> r[i] == StableStringify(items[i])
  {
    seq(|items|, i requires 0 <= i < |items| => StableStringify(items[i]))
  }

  function Normals(items: seq<Json>): (r: seq<Json>)
    ensures |r| == |items| && forall i :: 0 <= i < |r| ==> r[i] == Normal(items[i])
  {
    seq(|items|, i requires 0 <= i < |items| => Normal(items[i]))
  }

  lemma PrintArray(items: seq<Json>)
    ensures StableStringify(Arr(items)) == "[" + Joined(ItemTexts(items)) + "]"
    ensures Normal(Arr(items)) == Arr(Normals(items))
  {
    assert seq(|items|, i requires 0 <= i < |items| => StableStringify(items[i])) == ItemTexts(items);
    assert seq(|items|, i requires 0 <= i < |items| => Normal(items[i])) == Normals(items);
  }

  lemma ArrayReadsBack(items: seq<Json>, v: Json, rest: string)
    requires v == Arr(items) && WellFormed(v) && Stops(rest)
    ensures ReadValue(StableStringify(v) + rest) == Some((Normal(v), rest))
    decreases v, 0, 1
  {
    hide StableStringify, Normal;
    PrintArray(items);
    var parts := ItemTexts(items);
    var s := StableStringify(v) + rest;
    assert s == "[" + (Joined(parts) + ("]" + rest));
    if items == [] {
      assert s[1] == ']' && s[2..] == rest;
      assert Normals(items) == [];
    } else {
      PrintBegins(items[0]);
      JoinedFrom(parts, 0);
      assert parts[0..] == parts;
      assert s[1] == parts[0][0];
      ItemsReadBack(items, v, 0, rest);
      assert s[1..] == Joined(parts[0..]) + ("]" + rest);
      assert Normals(items)[..0] == [];
    }
  }

  lemma {:induction false} ItemsReadBack(items: seq<Json>, v: Json, i: nat, rest: string)
    requires v == Arr(items) && WellFormed(v) && i < |items|
    ensures ReadItems(Joined(ItemTexts(items)[i..]) + ("]" + rest), Normals(items)[..i]) == Some((Arr(Normals(items)), rest))
    decreases v, 0, 0, |items| - i
  {
    hide StableStringify, Normal, ReadValue, Joined;
    var parts := ItemTexts(items);
    JoinedFrom(parts, i);
    assert Normals(items)[..i + 1] == Normals(items)[..i] + [Normal(items[i])];
    assert WellFormed(items[i]);
    if i + 1 < |items| {
      var more := Joined(parts[i + 1..]) + ("]" + rest);
      assert Joined(parts[i..]) + ("]" + rest) == parts[i] + ("," + more);
      ReadsBack(items[i], "," + more);
      assert ("," + more)[1..] == more;
      ItemsReadBack(items, v, i + 1, rest);
    } else {
      assert Joined(parts[i..]) + ("]" + rest) == parts[i] + ("]" + rest);
      ReadsBack(items[i], "]" + rest);
      assert ("]" + rest)[1..] == rest;
      assert Normals(items)[..i + 1] == Normals(items);
    }
  }

  function MemberTexts(s: seq<(string, Json)>): (r: seq<string>)
    ensures |r| == |s| && forall i :: 0 <= i < |r| ==> r[i] == Quoted(s[i].0) + ":" + StableStringify(s[i].1)
  {
    Members(Mapped(s, StableStringify))
  }

  lemma ObjectReadsBack(es: seq<(string, Json)>, v: Json, rest: string)
    requires v == Obj(es) && WellFormed(v) && Stops(rest)
    ensures ReadValue(StableStringify(v) + rest) == Some((Normal(v), rest))
    decreases v, 0, 1
  {
    hide StableStringify, Normal, SortByKey, Quoted, Ascending, Joined, Members, ReadMembers, WellFormed;
    PrintObject(es);
    SortedEntries(es);
    var sorted := SortByKey(es);
    var parts := MemberTexts(sorted);
    var s := StableStringify(v) + rest;
    assert s == "{" + (Joined(parts) + ("}" + rest));
    if sorted == [] {
      assert Joined(parts) == "" by { JoinedNothing(parts); }
      assert s[1] == '}' && s[2..] == rest;
      assert Mapped(sorted, Normal) == [];
    } else {
      JoinedFrom(parts, 0);
      assert parts[0..] == parts;
      QuotedBegins(sorted[0].0);
      assert s[1] == parts[0][0];
      MembersReadBack(sorted, v, 0, rest);
      assert s[1..] == Joined(parts[0..]) + ("}" + rest);
      assert Mapped(sorted, Normal)[..0] == [];
    }
  }

  lemma {:induction false} MembersReadBack(sorted: seq<(string, Json)>, v: Json, i: nat, rest: string)
    requires v.Obj? && i < |sorted| && Ascending(sorted)
    requires forall k :: 0 <= k < |sorted| ==> sorted[k] in v.entries && WellFormed(sorted[k].1)
    ensures ReadMembers(Joined(MemberTexts(sorted)[i..]) + ("}" + rest), Mapped(sorted, Normal)[..i])
            == Some((Obj(Mapped(sorted, Normal)), rest))
    decreases v, 0, 0, |sorted| - i
  {
    hide StableStringify, Normal, ReadValue, ReadMembers, Joined, Quoted, WellFormed, Ascending, MemberTexts, Put;
    var parts, done := MemberTexts(sorted), Mapped(sorted, Normal);
    var (k, w) := sorted[i];
    assert done[..i + 1] == done[..i] + [(k, Normal(w))];
    NewKey(sorted, i);
    PutNew(done[..i], k, Normal(w));
    EntrySmaller(v, sorted[i]);
    var more := if i + 1 < |sorted| then "," + (Joined(parts[i + 1..]) + ("}" + rest)) else "}" + rest;
    MemberText(sorted, i, rest, more);
    ReadsBack(w, more);
    ReadOneMember(k, StableStringify(w) + more, Normal(w), more, done[..i]);
    if i + 1 < |sorted| {
      assert more[1..] == Joined(parts[i + 1..]) + ("}" + rest);
      MembersReadBack(sorted, v, i + 1, rest);
    } else {
      assert more[1..] == rest;
      assert done[..i + 1] == done;
    }
  }

  lemma MemberText(sorted: seq<(string, Json)>, i: nat, rest: string, more: string)
    requires i < |sorted|
    requires more == if i + 1 < |sorted| then "," + (Joined(MemberTexts(sorted)[i + 1..]) + ("}" + rest)) else "}" + rest
    ensures Joined(MemberTexts(sorted)[i..]) + ("}" + rest)
            == Quoted(sorted[i].0) + (":" + (StableStringify(sorted[i].1) + more))
  {
    hide StableStringify, Joined, Quoted;
    JoinedFrom(MemberTexts(sorted), i);
  }

  lemma ReadOneMember(k: string, text: string, v: Json, more: string, before: seq<(string, Json)>)
    requires ReadValue(text) == Some((v, more)) && more != ""
    ensures ReadMembers(Quoted(k) + (":" + text), before)
            == if more[0] == '}' then Some((Obj(Put(before, k, v)), more[1..]))
               else if more[0] == ',' then ReadMembers(more[1..], Put(before, k, v))
               else None
  {
    hide ReadValue, ReadString, Quoted, Put;
    QuotedReadsBack(k, ":" + text);
    assert (":" + text)[1..] == text;
  }

  lemma EntrySmaller(v: Json, e: (string, Json))
    requires v.Obj? && e in v.entries
    ensures e.1 < v
  {
    var i :| 0 <= i < |v.entries| && v.entries[i] == e;
    assert v.entries[i].1 < v;
  }

  lemma NewKey(sorted: seq<(string, Json)>, i: nat)
    requires Ascending(sorted) && i < |sorted|
    ensures Without(Mapped(sorted, Normal)[..i], sorted[i].0)
  {
    hide Below, Normal;
    forall j | 0 <= j < i
      ensures sorted[j].0 != sorted[i].0
    {
      BelowAsymmetric(sorted[j].0, sorted[i].0);
    }
  }

  /** JSON.parse(stableStringify(v)) is v, but for the order of keys. */
  lemma StringifyReadsBack(v: Json)
    requires WellFormed(v)
    ensures Read(StableStringify(v)) == Some(Normal(v))
  {
    hide StableStringify, Normal, ReadValue;
    ReadsBack(v, "");
    assert StableStringify(v) + "" == StableStringify(v);
  }

  // ---------- the same up to key order ----------

  /** Equal values, but that the keys of their objects may stand in different orders. */
  ghost predicate SameUpToOrder(v: Json, w: Json) {
    match v
    case Arr(xs) => w.Arr? && |xs| == |w.items| && forall i :: 0 <= i < |xs| ==> SameUpToOrder(xs[i], w.items[i])
    case Obj(es) =>
      && w.Obj? && |es| == |w.entries|
      && forall i :: 0 <= i < |es| ==>
                       exists j :: 0 <= j < |w.entries| && es[i].0 == w.entries[j].0 && SameUpToOrder(es[i].1, w.entries[j].1)
    case _ => v == w
  }

  lemma {:induction false} NormalTellsSame(v: Json, w: Json)
    requires WellFormed(v) && WellFormed(w) && Normal(v) == Normal(w)
    ensures SameUpToOrder(v, w)
    decreases v
  {
    match v
    case Arr(xs) =>
      assert w.Arr?;
      PrintArray(xs);
      PrintArray(w.items);
      forall i | 0 <= i < |xs|
        ensures SameUpToOrder(xs[i], w.items[i])
      {
        assert Normals(xs)[i] == Normals(w.items)[i];
        NormalTellsSame(xs[i], w.items[i]);
      }
    case Obj(es) =>
      assert w.Obj?;
      ObjectTellsSame(es, w.entries, v, w);
    case _ =>
  }

  lemma {:induction false} ObjectTellsSame(es: seq<(string, Json)>, fs: seq<(string, Json)>, v: Json, w: Json)
    requires v == Obj(es) && w == Obj(fs) && WellFormed(v) && WellFormed(w) && Normal(v) == Normal(w)
    ensures SameUpToOrder(v, w)
    decreases v, 0
  {
    hide Normal, SortByKey, WellFormed;
    PrintObject(es);
    PrintObject(fs);
    SortedEntries(es);
    SortedEntries(fs);
    var s, t := SortByKey(es), SortByKey(fs);
    assert |s| == |Mapped(s, Normal)| == |Mapped(t, Normal)| == |t|;
    forall i | 0 <= i < |es|
      ensures exists j :: 0 <= j < |fs| && es[i].0 == fs[j].0 && SameUpToOrder(es[i].1, fs[j].1)
    {
      SortedHasAll(es, es[i]);
      var p :| 0 <= p < |s| && s[p] == es[i];
      assert Mapped(s, Normal)[p] == Mapped(t, Normal)[p];
      var j :| 0 <= j < |fs| && fs[j] == t[p];
      NormalTellsSame(es[i].1, fs[j].1);
    }
  }

  lemma SortedHasAll(es: seq<(string, Json)>, e: (string, Json))
    requires e in es
    ensures e in SortByKey(es)
  {
    SortSorts(es);
    assert e in multiset(es);
    assert e in multiset(SortByKey(es));
  }

  // ---------- two ascending lists of the same entries ----------

  /** Where entry i of an ascending list stands in another that has all its entries: not before i. */
  lemma {:induction false} NotBefore<T>(a: seq<(string, T)>, b: seq<(string, T)>, i: nat) returns (j: nat)
    requires Ascending(a) && Ascending(b) && i < |a| && forall k :: 0 <= k < |a| ==> a[k] in b
    ensures i <= j < |b| && b[j] == a[i]
  {
    hide Below;
    assert a[i] in b;
    j :| 0 <= j < |b| && b[j] == a[i];
    if i > 0 {
      var p := NotBefore(a, b, i - 1);
      if j <= p {
        BelowAsymmetric(a[i - 1].0, a[i].0);
        assert false;
      }
    }
  }

  lemma {:induction false} NotAfter<T>(a: seq<(string, T)>, b: seq<(string, T)>, i: nat) returns (j: nat)
    requires Ascending(a) && Ascending(b) && |a| == |b| && i < |a| && forall k :: 0 <= k < |a| ==> a[k] in b
    ensures j <= i && b[j] == a[i]
    decreases |a| - i
  {
    hide Below;
    assert a[i] in b;
    j :| 0 <= j < |b| && b[j] == a[i];
    if i + 1 < |a| {
      var p := NotAfter(a, b, i + 1);
      if j >= p {
        BelowAsymmetric(a[i].0, a[i + 1].0);
        assert false;
      }
    }
  }

  lemma AscendingUnique<T>(a: seq<(string, T)>, b: seq<(string, T)>)
    requires Ascending(a) && Ascending(b) && |a| == |b| && forall k :: 0 <= k < |a| ==> a[k] in b
    ensures a == b
  {
    hide Below;
    forall i | 0 <= i < |a|
      ensures a[i] == b[i]
    {
      var j := NotBefore(a, b, i);
      var k := NotAfter(a, b, i);
      if k < j {
        BelowAsymmetric(b[k].0, b[j].0);
        assert false;
      }
    }
  }

  lemma MappedAscends(s: seq<(string, Json)>)
    requires Ascending(s)
    ensures Ascending(Mapped(s, Normal))
  {
    hide Below, Normal;
  }

  lemma {:induction false} SameTellsNormal(v: Json, w: Json)
    requires WellFormed(v) && WellFormed(w) && SameUpToOrder(v, w)
    ensures Normal(v) == Normal(w)
    decreases v
  {
    match v
    case Arr(xs) =>
      forall i | 0 <= i < |xs|
        ensures Normal(xs[i]) == Normal(w.items[i])
      {
        SameTellsNormal(xs[i], w.items[i]);
      }
      PrintArray(xs);
      PrintArray(w.items);
      assert Normals(xs) == Normals(w.items);
    case Obj(es) =>
      SameObjectsNormal(es, w.entries, v, w);
    case _ =>
  }

  lemma {:induction false} SameObjectsNormal(es: seq<(string, Json)>, fs: seq<(string, Json)>, v: Json, w: Json)
    requires v == Obj(es) && w == Obj(fs) && WellFormed(v) && WellFormed(w) && SameUpToOrder(v, w)
    ensures Normal(v) == Normal(w)
    decreases v, 0
  {
    hide Normal, SortByKey, WellFormed, Ascending;
    PrintObject(es);
    PrintObject(fs);
    SortedEntries(es);
    SortedEntries(fs);
    var s, t := SortByKey(es), SortByKey(fs);
    MappedAscends(s);
    MappedAscends(t);
    var a, b := Mapped(s, Normal), Mapped(t, Normal);
    forall p | 0 <= p < |a|
      ensures a[p] in b
    {
      var i :| 0 <= i < |es| && es[i] == s[p];
      var j :| 0 <= j < |fs| && es[i].0 == fs[j].0 && SameUpToOrder(es[i].1, fs[j].1);
      SortedHasAll(fs, fs[j]);
      var q :| 0 <= q < |t| && t[q] == fs[j];
      EntrySmaller(v, es[i]);
      SameTellsNormal(es[i].1, fs[j].1);
      assert b[q] == a[p];
    }
    AscendingUnique(a, b);
  }

  // ---------- idempotence ----------

  lemma {:induction false} NormalAgain(v: Json)
    requires WellFormed(v)
    ensures WellFormed(Normal(v)) && Normal(Normal(v)) == Normal(v) && StableStringify(Normal(v)) == StableStringify(v)
    decreases v
  {
    match v
    case Arr(xs) =>
      PrintArray(xs);
      PrintArray(Normals(xs));
      forall i | 0 <= i < |xs|
        ensures WellFormed(Normals(xs)[i])
        ensures Normals(Normals(xs))[i] == Normals(xs)[i] && ItemTexts(Normals(xs))[i] == ItemTexts(xs)[i]
      {
        NormalAgain(xs[i]);
      }
      assert Normals(Normals(xs)) == Normals(xs);
      assert ItemTexts(Normals(xs)) == ItemTexts(xs);
    case Obj(es) => ObjectNormalAgain(es, v);
    case _ =>
  }

  lemma {:induction false} ObjectNormalAgain(es: seq<(string, Json)>, v: Json)
    requires v == Obj(es) && WellFormed(v)
    ensures WellFormed(Normal(v)) && Normal(Normal(v)) == Normal(v) && StableStringify(Normal(v)) == StableStringify(v)
    decreases v, 0
  {
    hide Normal, SortByKey, StableStringify, Ascending, Joined, Members;
    PrintObject(es);
    SortedEntries(es);
    var s := SortByKey(es);
    var n := Mapped(s, Normal);
    MappedAscends(s);
    SortedStays(n);
    PrintObject(n);
    forall i | 0 <= i < |s|
      ensures WellFormed(n[i].1) && Mapped(n, Normal)[i] == n[i]
      ensures Mapped(n, StableStringify)[i] == Mapped(s, StableStringify)[i]
    {
      EntrySmaller(v, s[i]);
      NormalAgain(s[i].1);
    }
    assert Mapped(n, Normal) == n;
    assert Mapped(n, StableStringify) == Mapped(s, StableStringify);
    AscendingDistinct(n);
  }

  lemma AscendingDistinct<T>(es: seq<(string, T)>)
    requires Ascending(es)
    ensures DistinctKeys(es)
  {
    hide Below;
    forall i, j | 0 <= i < j < |es|
      ensures es[i].0 != es[j].0
    {
      BelowAsymmetric(es[i].0, es[j].0);
    }
  }

  /**
   stableStringify is canonical: two values print alike exactly when they are the same but for the
   order of object keys.
   */
  lemma PrintsAlikeIff(v: Json, w: Json)
    requires WellFormed(v) && WellFormed(w)
    ensures StableStringify(v) == StableStringify(w) <==> SameUpToOrder(v, w)
  {
    hide StableStringify, Normal, SameUpToOrder, Read, WellFormed;
    if StableStringify(v) == StableStringify(w) {
      StringifyReadsBack(v);
      StringifyReadsBack(w);
      NormalTellsSame(v, w);
    }
    if SameUpToOrder(v, w) {
      SameTellsNormal(v, w);
      NormalAgain(v);
      NormalAgain(w);
    }
  }
}
