/** The normal order of messages and tools, said over the entries of the messages and tool definitions. */
module ToolNames {
  import opened Options
  import opened CanonicalJson
  import opened CanonicalTheorems
  import opened Prefix
  import opened Places

  /** The object holds the value under the key. */
  predicate Has(v: Json, key: string, x: Json) {
    v.Obj? && exists i :: 0 <= i < |v.entries| && v.entries[i].0 == key && v.entries[i].1 == x
  }

  /** The function of the tool has the name. */
  ghost predicate Named(t: Json, name: string) {
    exists f :: Has(t, "function", f) && Has(f, "name", Str(name))
  }

  /** The tool has no function, or one without a name. */
  ghost predicate Nameless(t: Json) {
    forall f, x :: Has(t, "function", f) && Has(f, "name", x) ==> x == Null
  }

  /** A tool goes by the name of its function, without one by its type, without that by nothing. */
  ghost predicate GoesBy(t: Json, name: string) {
    || Named(t, name)
    || (Nameless(t) && Has(t, "type", Str(name)))
    || (Nameless(t) && name == "" && forall x :: Has(t, "type", x) ==> x == Null)
  }

  /** The tools go by these names, which are all different. */
  ghost predicate GoBy(ts: seq<Json>, names: seq<string>) {
    && |ts| == |names|
    && (forall i :: 0 <= i < |ts| ==> GoesBy(ts[i], names[i]))
    && forall i, j :: 0 <= i < j < |names| ==> names[i] != names[j]
  }

  lemma FieldIff(v: Json, key: string, x: Json)
    requires WellFormed(v)
    ensures Has(v, key, x) <==> Field(v, key) == Some(x)
  {
    hide Lookup;
    if v.Obj? {
      LookupMisses(v.entries, key);
      if !Without(v.entries, key) {
        var i :| 0 <= i < |v.entries| && v.entries[i].0 == key;
        LookupFinds(v.entries, i);
      }
    }
  }

  lemma FieldSound(v: Json, key: string)
    requires WellFormed(v) && Field(v, key).Some?
    ensures WellFormed(Field(v, key).value)
  {
    FieldIff(v, key, Field(v, key).value);
    hide Field;
  }

  lemma KeyIsName(t: Json, name: string)
    requires WellFormed(t) && GoesBy(t, name)
    ensures ToolKey(t) == name
  {
    hide Has, Field, WellFormed;
    forall x
      ensures Has(t, "function", x) <==> Field(t, "function") == Some(x)
      ensures Has(t, "type", x) <==> Field(t, "type") == Some(x)
    {
      FieldIff(t, "function", x);
      FieldIff(t, "type", x);
    }
    if Field(t, "function").Some? {
      FieldSound(t, "function");
      var f := Field(t, "function").value;
      forall x
        ensures Has(f, "name", x) <==> Field(f, "name") == Some(x)
      {
        FieldIff(f, "name", x);
      }
    }
  }

  lemma KeysAreNames(ts: seq<Json>, names: seq<string>)
    requires WellFormed(Arr(ts)) && GoBy(ts, names)
    ensures forall i :: 0 <= i < |ts| ==> ToolKey(ts[i]) == names[i]
    ensures DistinctKeys(Keyed(ts))
  {
    hide GoesBy, ToolKey;
    forall i | 0 <= i < |ts|
      ensures ToolKey(ts[i]) == names[i]
    {
      ItemSound(ts, i);
      KeyIsName(ts[i], names[i]);
    }
  }

  // ---------- names do not depend on key order ----------

  lemma HasSame(v: Json, w: Json, key: string, x: Json) returns (y: Json)
    requires SameUpToOrder(v, w) && Has(v, key, x)
    ensures Has(w, key, y) && SameUpToOrder(x, y)
  {
    var i :| 0 <= i < |v.entries| && v.entries[i].0 == key && v.entries[i].1 == x;
    var j :| 0 <= j < |w.entries| && v.entries[i].0 == w.entries[j].0 && SameUpToOrder(v.entries[i].1, w.entries[j].1);
    y := w.entries[j].1;
  }

  lemma NamedSame(v: Json, w: Json, name: string)
    requires SameUpToOrder(v, w) && Named(v, name)
    ensures Named(w, name)
  {
    hide Has;
    var f :| Has(v, "function", f) && Has(f, "name", Str(name));
    var g := HasSame(v, w, "function", f);
    var x := HasSame(f, g, "name", Str(name));
  }

  lemma TypeSame(v: Json, w: Json, x: Json)
    requires SameUpToOrder(v, w) && Has(v, "type", x)
    requires x.Str? || x.Null?
    ensures Has(w, "type", x)
  {
    hide Has;
    var y := HasSame(v, w, "type", x);
  }

  lemma NamelessSame(v: Json, w: Json)
    requires WellFormed(v) && WellFormed(w) && SameUpToOrder(v, w) && Nameless(v)
    ensures Nameless(w)
  {
    hide Has, WellFormed;
    SameBack(v, w);
    forall f, x | Has(w, "function", f) && Has(f, "name", x)
      ensures x == Null
    {
      var g := HasSame(w, v, "function", f);
      var y := HasSame(f, g, "name", x);
    }
  }

  lemma UntypedSame(v: Json, w: Json)
    requires WellFormed(v) && WellFormed(w) && SameUpToOrder(v, w) && forall x :: Has(v, "type", x) ==> x == Null
    ensures forall x :: Has(w, "type", x) ==> x == Null
  {
    hide Has, WellFormed;
    SameBack(v, w);
    forall x | Has(w, "type", x)
      ensures x == Null
    {
      var y := HasSame(w, v, "type", x);
    }
  }

  lemma GoesBySame(v: Json, w: Json, name: string)
    requires WellFormed(v) && WellFormed(w) && SameUpToOrder(v, w) && GoesBy(v, name)
    ensures GoesBy(w, name)
  {
    hide Named, Nameless, Has, WellFormed, SameUpToOrder;
    if Named(v, name) {
      NamedSame(v, w, name);
    } else {
      NamelessSame(v, w);
      if Has(v, "type", Str(name)) {
        TypeSame(v, w, Str(name));
      } else {
        UntypedSame(v, w);
      }
    }
  }

  // ---------- the normal order ----------

  ghost predicate AscendingNames(names: seq<string>) { forall i, j :: 0 <= i < j < |names| ==> Below(names[i], names[j]) }

  lemma NormalAt(ts: seq<Json>, names: seq<string>, p: nat) returns (i: nat)
    requires WellFormed(Arr(ts)) && GoBy(ts, names) && p < |ts|
    ensures |SortTools(ts)| == |NormalTools(ts)| == |ts| && |SortByKey(Keyed(ts))| == |ts|
    ensures i < |ts| && ts[i] == SortTools(ts)[p] && SortByKey(Keyed(ts))[p].0 == names[i]
    ensures GoesBy(NormalTools(ts)[p], names[i]) && SameUpToOrder(ts[i], NormalTools(ts)[p])
  {
    hide NormalTools, SortTools, SortByKey, GoesBy, ToolKey, Normal, SameUpToOrder;
    KeysAreNames(ts, names);
    NormalToolsAre(ts);
    SortedTools(ts);
    KeyedLengths(ts);
    i :| 0 <= i < |ts| && ts[i] == SortTools(ts)[p];
    ItemSound(ts, i);
    NormalIsSame(ts[i]);
    hide WellFormed;
    GoesBySame(ts[i], NormalTools(ts)[p], names[i]);
  }

  /**
   The normal form lists the tools, the same but for key order, in the ascending order of the names they
   go by.
   */
  lemma NormalOrder(ts: seq<Json>, names: seq<string>) returns (order: seq<string>)
    requires WellFormed(Arr(ts)) && GoBy(ts, names)
    ensures GoBy(NormalTools(ts), order) && AscendingNames(order)
    ensures EachAmong(NormalTools(ts), ts) && forall p :: 0 <= p < |order| ==> order[p] in names
  {
    hide NormalTools, SortTools, SortByKey, GoesBy, ToolKey, Normal, SameUpToOrder, WellFormed, Below;
    NormalToolsAre(ts);
    SortedTools(ts);
    KeyedLengths(ts);
    var es := SortByKey(Keyed(ts));
    KeysAreNames(ts, names);
    SortSorts(Keyed(ts));
    order := seq(|ts|, p requires 0 <= p < |ts| => es[p].0);
    forall p | 0 <= p < |ts|
      ensures GoesBy(NormalTools(ts)[p], order[p]) && order[p] in names
      ensures exists i :: 0 <= i < |ts| && Alike(NormalTools(ts)[p], ts[i])
    {
      var i := NormalAt(ts, names, p);
      ItemSound(ts, i);
      ItemSound(NormalTools(ts), p);
      SameBack(ts[i], NormalTools(ts)[p]);
      AreAlike(NormalTools(ts)[p], ts[i]);
    }
    NamesDiffer(order);
    assert |NormalTools(ts)| == |ts|;
    assert forall p :: 0 <= p < |NormalTools(ts)| ==> exists i :: 0 <= i < |ts| && Alike(NormalTools(ts)[p], ts[i]);
  }

  lemma NamesDiffer(order: seq<string>)
    requires AscendingNames(order)
    ensures forall i, j :: 0 <= i < j < |order| ==> order[i] != order[j]
  {
    forall i, j | 0 <= i < j < |order|
      ensures order[i] != order[j]
    {
      if order[i] == order[j] {
        BelowAsymmetric(order[i], order[j]);
      }
    }
    hide Below;
  }

  /**
   Requests whose tools go by different names: the order of the tools and of their keys does not matter.
   The normal forms hold the same tools, and the fingerprints are the same when the system messages are.
   */
  lemma OrderOfToolsIsLost(b: Body, c: Body, names: seq<string>, others: seq<string>, hash: string -> string)
    requires Sound(b) && Sound(c) && GoBy(ToolsOf(b), names) && GoBy(ToolsOf(c), others)
    requires |ToolsOf(b)| == |ToolsOf(c)| && EachAmong(ToolsOf(b), ToolsOf(c))
    ensures |ToolsOf(b)| > 1 ==> NormalizePrompt(b).tools == NormalizePrompt(c).tools
    ensures SameEach(SystemOf(b), SystemOf(c)) ==> Fingerprint(b, hash) == Fingerprint(c, hash)
  {
    hide StableStringify, SystemOf, NormalTools, PrefixValue, Keyed, DistinctKeys, WellFormed, GoesBy, EachAmong, SameUpToOrder;
    PartsSound(b);
    PartsSound(c);
    KeysAreNames(ToolsOf(b), names);
    KeysAreNames(ToolsOf(c), others);
    PermutedToolsAlike(ToolsOf(b), ToolsOf(c));
    FingerprintIsStable(b, c, hash);
  }

  /** Nothing else is lost: requests with the same hashed text have the same tools but for order. */
  lemma HashedTextTells(b: Body, c: Body, names: seq<string>, others: seq<string>)
    requires Sound(b) && Sound(c) && GoBy(ToolsOf(b), names) && GoBy(ToolsOf(c), others)
    ensures StableStringify(PrefixValue(b)) == StableStringify(PrefixValue(c))
            <==> SameEach(SystemOf(b), SystemOf(c)) && |ToolsOf(b)| == |ToolsOf(c)| && EachAmong(ToolsOf(b), ToolsOf(c))
  {
    hide StableStringify, SystemOf, NormalTools, PrefixValue, Keyed, DistinctKeys, WellFormed, GoesBy, EachAmong, SameUpToOrder;
    PartsSound(b);
    PartsSound(c);
    KeysAreNames(ToolsOf(b), names);
    KeysAreNames(ToolsOf(c), others);
    FingerprintIsStable(b, c, s => s);
  }

  // ---------- messages ----------

  const FROM_SYSTEM: Json -> bool := (m: Json) => Has(m, "role", Str("system"))
  const FROM_OTHERS: Json -> bool := (m: Json) => !Has(m, "role", Str("system"))

  lemma {:induction false} MessagesSifted(ms: seq<Json>)
    requires forall i :: 0 <= i < |ms| ==> WellFormed(ms[i])
    ensures Sifted(ms, FROM_SYSTEM, Messages(ms, true)) && Sifted(ms, FROM_OTHERS, Messages(ms, false))
    decreases |ms|
  {
    hide Sifted, WellFormed, Has, IsSystem;
    if ms == [] {
      NothingSifted(FROM_SYSTEM);
      NothingSifted(FROM_OTHERS);
    } else {
      var rest, m := ms[..|ms| - 1], ms[|ms| - 1];
      assert ms == rest + [m];
      MessagesSifted(rest);
      SystemIff(m);
      SiftedSnoc(rest, m, FROM_SYSTEM, Messages(rest, true));
      SiftedSnoc(rest, m, FROM_OTHERS, Messages(rest, false));
    }
  }

  lemma SystemIff(m: Json)
    requires WellFormed(m)
    ensures IsSystem(m) <==> Has(m, "role", Str("system"))
  {
    FieldIff(m, "role", Str("system"));
    hide Field, Has;
  }

  /** The normal form lists the messages whose role is system, in order, and then the others, in order. */
  lemma SystemMessagesFirst(b: Body, system: seq<Json>, others: seq<Json>)
    requires Sound(b) && b.messages.Some? && Sifted(b.messages.value, FROM_SYSTEM, system) && Sifted(b.messages.value, FROM_OTHERS, others)
    ensures NormalizePrompt(b).messages == Some(system + others) && SystemOf(b) == system
  {
    hide Sifted, Messages, NormalTools;
    var ms := b.messages.value;
    forall i | 0 <= i < |ms|
      ensures WellFormed(ms[i])
    {
      ItemSound(ms, i);
    }
    hide WellFormed;
    MessagesSifted(ms);
    SiftedUnique(ms, FROM_SYSTEM, system, Messages(ms, true));
    SiftedUnique(ms, FROM_OTHERS, others, Messages(ms, false));
  }
}
