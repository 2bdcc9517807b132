/**
 stableStringify of src/llm-gateway/prompt-prefix.ts, with a reader for what it prints. A number is
 carried as the text it prints as.
 */
module CanonicalJson {
  import opened Options
  import JsonText

  datatype Json =
    | Null
    | Bool(b: bool)
    | Num(text: string)
    | Str(s: string)
    | Arr(items: seq<Json>)
    | Obj(entries: seq<(string, Json)>)

  // ---------- the order of keys ----------

  /** The place of a character in the order of UTF-16 code units, by which strings are compared. */
  function Rank(c: char): nat {
    var cp := c as int;
    if cp < 0xd800 then cp else if cp >= 0x10000 then 0xd800 + (cp - 0x10000) else cp + 0x100000
  }

  predicate Below(a: string, b: string) {
    b != "" && (a == "" || Rank(a[0]) < Rank(b[0]) || (a[0] == b[0] && Below(a[1..], b[1..])))
  }

  lemma {:induction false} BelowTotal(a: string, b: string)
    ensures a == b || Below(a, b) || Below(b, a)
  {
    if a != "" && b != "" && a[0] == b[0] {
      BelowTotal(a[1..], b[1..]);
      if a[1..] == b[1..] {
        assert a == [a[0]] + a[1..] && b == [b[0]] + b[1..];
      }
    }
  }

  lemma {:induction false} BelowAsymmetric(a: string, b: string)
    requires Below(a, b)
    ensures !Below(b, a) && a != b
  {
    if a != "" && a[0] == b[0] {
      BelowAsymmetric(a[1..], b[1..]);
    }
  }

  lemma {:induction false} BelowTransitive(a: string, b: string, c: string)
    requires Below(a, b) && Below(b, c)
    ensures Below(a, c)
  {
    if a != "" && a[0] == b[0] == c[0] {
      BelowTransitive(a[1..], b[1..], c[1..]);
    }
  }

  // ---------- sorting entries ----------

  /** Insert behind every entry whose key is not greater. */
  function Insert<T>(sorted: seq<(string, T)>, e: (string, T)): seq<(string, T)> {
    if sorted == [] || !Below(e.0, sorted[|sorted| - 1].0) then sorted + [e]
    else Insert(sorted[..|sorted| - 1], e) + [sorted[|sorted| - 1]]
  }

  function SortByKey<T>(es: seq<(string, T)>): seq<(string, T)> {
    if es == [] then [] else Insert(SortByKey(es[..|es| - 1]), es[|es| - 1])
  }

  predicate Ascending<T>(es: seq<(string, T)>) {
    forall i, j :: 0 <= i < j < |es| ==> Below(es[i].0, es[j].0)
  }

  predicate DistinctKeys<T>(es: seq<(string, T)>) {
    forall i, j :: 0 <= i < j < |es| ==> es[i].0 != es[j].0
  }

  lemma {:induction false} InsertHolds<T>(sorted: seq<(string, T)>, e: (string, T))
    ensures multiset(Insert(sorted, e)) == multiset(sorted) + multiset{e}
  {
    if sorted != [] && Below(e.0, sorted[|sorted| - 1].0) {
      InsertHolds(sorted[..|sorted| - 1], e);
      assert sorted == sorted[..|sorted| - 1] + [sorted[|sorted| - 1]];
    }
  }

  predicate AllBelow<T>(es: seq<(string, T)>, key: string) {
    forall i :: 0 <= i < |es| ==> Below(es[i].0, key)
  }

  lemma AllBelowPermuted<T>(es: seq<(string, T)>, fs: seq<(string, T)>, key: string)
    requires AllBelow(es, key) && multiset(fs) == multiset(es)
    ensures AllBelow(fs, key)
  {
    hide Below;
    forall i | 0 <= i < |fs|
      ensures Below(fs[i].0, key)
    {
      assert fs[i] in multiset(fs);
      assert fs[i] in multiset(es);
      var j :| 0 <= j < |es| && es[j] == fs[i];
    }
  }

  predicate Without<T>(es: seq<(string, T)>, key: string) {
    forall i :: 0 <= i < |es| ==> es[i].0 != key
  }

  lemma WithoutPermuted<T>(es: seq<(string, T)>, fs: seq<(string, T)>, key: string)
    requires Without(es, key) && multiset(fs) == multiset(es)
    ensures Without(fs, key)
  {
    forall i | 0 <= i < |fs|
      ensures fs[i].0 != key
    {
      assert fs[i] in multiset(fs);
      assert fs[i] in multiset(es);
      var j :| 0 <= j < |es| && es[j] == fs[i];
    }
  }

  lemma AscendingSnoc<T>(es: seq<(string, T)>, e: (string, T))
    requires Ascending(es) && AllBelow(es, e.0)
    ensures Ascending(es + [e])
  {
    hide Below;
  }

  lemma {:induction false} InsertAscends<T>(sorted: seq<(string, T)>, e: (string, T))
    requires Ascending(sorted) && Without(sorted, e.0)
    ensures Ascending(Insert(sorted, e))
  {
    hide Below;
    if sorted == [] {
      assert Insert(sorted, e) == [e];
    } else {
      var rest, last := sorted[..|sorted| - 1], sorted[|sorted| - 1];
      assert sorted == rest + [last];
      assert AllBelow(rest, last.0);
      if Below(e.0, last.0) {
        InsertAscends(rest, e);
        InsertHolds(rest, e);
        assert AllBelow(rest + [e], last.0);
        AllBelowPermuted(rest + [e], Insert(rest, e), last.0);
        AscendingSnoc(Insert(rest, e), last);
      } else {
        BelowTotal(e.0, last.0);
        forall i | 0 <= i < |rest|
          ensures Below(rest[i].0, e.0)
        {
          BelowTransitive(rest[i].0, last.0, e.0);
        }
        assert AllBelow(sorted, e.0);
        AscendingSnoc(sorted, e);
      }
    }
  }

  /** Sorting keeps the entries and puts distinct keys into strictly ascending order. */
  lemma {:induction false} SortSorts<T>(es: seq<(string, T)>)
    ensures multiset(SortByKey(es)) == multiset(es)
    ensures DistinctKeys(es) ==> Ascending(SortByKey(es))
  {
    hide Below, Insert;
    if es != [] {
      var rest, e := es[..|es| - 1], es[|es| - 1];
      assert es == rest + [e];
      SortSorts(rest);
      InsertHolds(SortByKey(rest), e);
      if DistinctKeys(es) {
        WithoutPermuted(rest, SortByKey(rest), e.0);
        InsertAscends(SortByKey(rest), e);
      }
    }
  }

  /** Entries in strictly ascending order are already sorted. */
  lemma {:induction false} SortedStays<T>(es: seq<(string, T)>)
    requires Ascending(es)
    ensures SortByKey(es) == es
  {
    if es != [] {
      var rest, e := es[..|es| - 1], es[|es| - 1];
      assert es == rest + [e];
      SortedStays(rest);
      if rest != [] {
        assert Below(rest[|rest| - 1].0, e.0);
        BelowAsymmetric(rest[|rest| - 1].0, e.0);
      }
    }
  }

  /** Sorting looks at keys only, so it commutes with a change of the values. */
  function Mapped<T, U>(es: seq<(string, T)>, f: T --> U): (r: seq<(string, U)>)
    requires forall i :: 0 <= i < |es| ==> f.requires(es[i].1)
  {
    seq(|es|, i requires 0 <= i < |es| => (es[i].0, f(es[i].1)))
  }

  lemma {:induction false} InsertCommutes<T, U>(sorted: seq<(string, T)>, e: (string, T), f: T -> U)
    ensures Mapped(Insert(sorted, e), f) == Insert(Mapped(sorted, f), (e.0, f(e.1)))
  {
    hide Below;
    if sorted != [] && Below(e.0, sorted[|sorted| - 1].0) {
      var rest, last := sorted[..|sorted| - 1], sorted[|sorted| - 1];
      InsertCommutes(rest, e, f);
      assert Mapped(sorted, f)[..|sorted| - 1] == Mapped(rest, f);
      assert Mapped(Insert(rest, e) + [last], f) == Mapped(Insert(rest, e), f) + [(last.0, f(last.1))];
    } else {
      assert Mapped(sorted + [e], f) == Mapped(sorted, f) + [(e.0, f(e.1))];
    }
  }

  lemma {:induction false} SortCommutes<T, U>(es: seq<(string, T)>, f: T -> U)
    ensures Mapped(SortByKey(es), f) == SortByKey(Mapped(es, f))
  {
    if es != [] {
      var rest, e := es[..|es| - 1], es[|es| - 1];
      SortCommutes(rest, f);
      InsertCommutes(SortByKey(rest), e, f);
      assert Mapped(es, f)[..|es| - 1] == Mapped(rest, f);
    } else {
      assert Mapped(es, f) == [];
    }
  }

  // ---------- printing ----------

  function HexDigit(n: nat): char
    requires n < 16
  {
    if n < 10 then ('0' as int + n) as char else ('a' as int + n - 10) as char
  }

  /** JSON.stringify on one character. */
  function Escaped(c: char): string {
    if c == '\"' then "\\\""
    else if c == '\\' then "\\\\"
    else if c == 8 as char then "\\b"
    else if c == 12 as char then "\\f"
    else if c == '\n' then "\\n"
    else if c == '\r' then "\\r"
    else if c == '\t' then "\\t"
    else if c < ' ' then "\\u00" + [HexDigit(c as int / 16), HexDigit(c as int % 16)]
    else [c]
  }

  function EscapedAll(s: string): string { if s == "" then "" else Escaped(s[0]) + EscapedAll(s[1..]) }

  function Quoted(s: string): string { "\"" + EscapedAll(s) + "\"" }

  function Joined(parts: seq<string>): string {
    if parts == [] then "" else if |parts| == 1 then parts[0] else parts[0] + "," + Joined(parts[1..])
  }

  function Member(e: (string, string)): string { Quoted(e.0) + ":" + e.1 }

  function Members(es: seq<(string, string)>): seq<string> {
    seq(|es|, i requires 0 <= i < |es| => Member(es[i]))
  }

  function StableStringify(v: Json): string {
    match v
    case Null => "null"
    case Bool(b) => if b then "true" else "false"
    case Num(text) => text
    case Str(s) => Quoted(s)
    case Arr(items) => "[" + Joined(seq(|items|, i requires 0 <= i < |items| => StableStringify(items[i]))) + "]"
    case Obj(es) =>
      "{" + Joined(Members(SortByKey(seq(|es|, i requires 0 <= i < |es| => (es[i].0, StableStringify(es[i].1)))))) + "}"
  }

  predicate NumberChar(c: char) { '0' <= c <= '9' || c == '-' || c == '+' || c == '.' || c == 'e' || c == 'E' }

  predicate NumberText(s: string) {
    s != "" && (forall i :: 0 <= i < |s| ==> NumberChar(s[i])) && JsonText.Valid(s)
  }

  /** A value a request can carry: numbers are numbers, and the keys of an object differ. */
  predicate WellFormed(v: Json) {
    match v
    case Num(text) => NumberText(text)
    case Arr(items) => forall i :: 0 <= i < |items| ==> WellFormed(items[i])
    case Obj(es) => DistinctKeys(es) && forall i :: 0 <= i < |es| ==> WellFormed(es[i].1)
    case _ => true
  }

  /** The value with the keys of every object in order. */
  function Normal(v: Json): Json {
    match v
    case Arr(items) => Arr(seq(|items|, i requires 0 <= i < |items| => Normal(items[i])))
    case Obj(es) => Obj(SortByKey(seq(|es|, i requires 0 <= i < |es| => (es[i].0, Normal(es[i].1)))))
    case _ => v
  }

  // ---------- reading ----------

  function HexValue(c: char): int {
    if '0' <= c <= '9' then c as int - '0' as int
    else if 'a' <= c <= 'f' then c as int - 'a' as int + 10
    else if 'A' <= c <= 'F' then c as int - 'A' as int + 10
    else -1
  }

  /** The character a four-digit escape stands for; half a surrogate pair is none. */
  function HexChar(s: string): Option<char>
    requires |s| >= 4
  {
    var a, b, c, d := HexValue(s[0]), HexValue(s[1]), HexValue(s[2]), HexValue(s[3]);
    var cp := 4096 * a + 256 * b + 16 * c + d;
    if a < 0 || b < 0 || c < 0 || d < 0 || 0xd800 <= cp < 0xe000 then None else Some(cp as char)
  }

  function Unescaped(c: char): Option<char> {
    if c == '\"' || c == '\\' || c == '/' then Some(c)
    else if c == 'b' then Some(8 as char)
    else if c == 'f' then Some(12 as char)
    else if c == 'n' then Some('\n')
    else if c == 'r' then Some('\r')
    else if c == 't' then Some('\t')
    else None
  }

  /** The rest of a string after its opening quote, and what follows its closing one. */
  function ReadString(s: string): (r: Option<(string, string)>)
    ensures r.Some? ==> |r.value.1| < |s|
  {
    if s == "" || s[0] < ' ' then None
    else if s[0] == '\"' then Some(("", s[1..]))
    else if s[0] != '\\' then Prepend(s[0], ReadString(s[1..]))
    else if |s| >= 6 && s[1] == 'u' then
      var c := HexChar(s[2..6]);
      if c.None? then None else Prepend(c.value, ReadString(s[6..]))
    else if |s| >= 2 && Unescaped(s[1]).Some? then Prepend(Unescaped(s[1]).value, ReadString(s[2..]))
    else None
  }

  function Prepend(c: char, r: Option<(string, string)>): Option<(string, string)> {
    if r.None? then None else Some(([c] + r.value.0, r.value.1))
  }

  function NumberLength(s: string): (n: nat)
    ensures n <= |s|
    ensures forall i :: 0 <= i < n ==> NumberChar(s[i])
    ensures n < |s| ==> !NumberChar(s[n])
  {
    if s == "" || !NumberChar(s[0]) then 0 else 1 + NumberLength(s[1..])
  }

  /** A later entry of a key replaces an earlier one in its place. */
  function Put(es: seq<(string, Json)>, k: string, v: Json): seq<(string, Json)> {
    if es == [] then [(k, v)]
    else if es[0].0 == k then [(k, v)] + es[1..]
    else [es[0]] + Put(es[1..], k, v)
  }

  /** JSON.parse on text without insignificant whitespace: the value at the front, and what follows it. */
  function ReadValue(s: string): (r: Option<(Json, string)>)
    ensures r.Some? ==> |r.value.1| < |s|
    decreases |s|, 0
  {
    if s == "" then None
    else if s[0] == '\"' then
      var r := ReadString(s[1..]);
      if r.None? then None else Some((Str(r.value.0), r.value.1))
    else if s[0] == '[' then
      if |s| >= 2 && s[1] == ']' then Some((Arr([]), s[2..])) else ReadItems(s[1..], [])
    else if s[0] == '{' then
      if |s| >= 2 && s[1] == '}' then Some((Obj([]), s[2..])) else ReadMembers(s[1..], [])
    else if "null" <= s then Some((Null, s[4..]))
    else if "true" <= s then Some((Bool(true), s[4..]))
    else if "false" <= s then Some((Bool(false), s[5..]))
    else
      var n := NumberLength(s);
      if NumberText(s[..n]) then Some((Num(s[..n]), s[n..])) else None
  }

  function ReadItems(s: string, before: seq<Json>): (r: Option<(Json, string)>)
    ensures r.Some? ==> |r.value.1| < |s|
    decreases |s|, 1
  {
    var item := ReadValue(s);
    if item.None? || item.value.1 == "" then None
    else if item.value.1[0] == ']' then Some((Arr(before + [item.value.0]), item.value.1[1..]))
    else if item.value.1[0] == ',' then ReadItems(item.value.1[1..], before + [item.value.0])
    else None
  }

  function ReadMembers(s: string, before: seq<(string, Json)>): (r: Option<(Json, string)>)
    ensures r.Some? ==> |r.value.1| < |s|
    decreases |s|, 1
  {
    if s == "" || s[0] != '\"' then None
    else
      var key := ReadString(s[1..]);
      if key.None? || key.value.1 == "" || key.value.1[0] != ':' then None
      else
        var v := ReadValue(key.value.1[1..]);
        if v.None? || v.value.1 == "" then None
        else
          var es := Put(before, key.value.0, v.value.0);
          if v.value.1[0] == '}' then Some((Obj(es), v.value.1[1..]))
          else if v.value.1[0] == ',' then ReadMembers(v.value.1[1..], es)
          else None
  }

  function Read(s: string): Option<Json> {
    var r := ReadValue(s);
    if r.Some? && r.value.1 == "" then Some(r.value.0) else None
  }
}
