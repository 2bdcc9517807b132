/** The order of keys and names is that of their UTF-16 code units, the order of strings in ECMAScript. */
module CodeUnits {
  import opened CanonicalJson

  /** A character of the basic plane is one unit, any other a surrogate pair. */
  function UnitsOf(c: char): seq<nat> {
    var cp := c as int;
    if cp < 0x10000 then [cp] else [0xd800 + (cp - 0x10000) / 0x400, 0xdc00 + (cp - 0x10000) % 0x400]
  }

  function Utf16(s: string): seq<nat> { if s == "" then [] else UnitsOf(s[0]) + Utf16(s[1..]) }

  predicate DecidesAt(a: seq<nat>, b: seq<nat>, k: nat) {
    k <= |a| && k < |b| && (forall i :: 0 <= i < k ==> a[i] == b[i]) && (k == |a| || a[k] < b[k])
  }

  /** The first place at which two sequences differ decides; a proper prefix comes first. */
  ghost predicate Precedes(a: seq<nat>, b: seq<nat>) { exists k: nat :: DecidesAt(a, b, k) }

  lemma PrecedesStrip(p: seq<nat>, a: seq<nat>, b: seq<nat>)
    ensures Precedes(p + a, p + b) <==> Precedes(a, b)
  {
    if k: nat :| DecidesAt(a, b, k) {
      assert DecidesAt(p + a, p + b, |p| + k);
    }
    if m: nat :| DecidesAt(p + a, p + b, m) {
      assert m >= |p|;
      assert forall i :: 0 <= i < |a| ==> (p + a)[|p| + i] == a[i];
      assert forall i :: 0 <= i < |b| ==> (p + b)[|p| + i] == b[i];
      assert DecidesAt(a, b, m - |p|);
    }
  }

  lemma FirstDecides(a: seq<nat>, b: seq<nat>, k: nat)
    requires k < |a| && k < |b| && (forall i :: 0 <= i < k ==> a[i] == b[i]) && a[k] != b[k]
    ensures Precedes(a, b) <==> a[k] < b[k]
  {
    assert a[k] < b[k] ==> DecidesAt(a, b, k);
  }

  /** The ranks of two characters compare as their units do. */
  lemma RanksCompare(c: char, d: char, x: seq<nat>, y: seq<nat>)
    requires c != d
    ensures Precedes(UnitsOf(c) + x, UnitsOf(d) + y) <==> Rank(c) < Rank(d)
  {
    var a, b := UnitsOf(c) + x, UnitsOf(d) + y;
    if a[0] != b[0] {
      FirstDecides(a, b, 0);
    } else {
      FirstDecides(a, b, 1);
    }
  }

  lemma {:induction false} BelowIsPrecedes(a: string, b: string)
    ensures Below(a, b) <==> Precedes(Utf16(a), Utf16(b))
    decreases |a|
  {
    hide Precedes, Rank, UnitsOf;
    if b == "" {
      NothingPrecedes(Utf16(a));
    } else if a == "" {
      EmptyPrecedes(Utf16(b), b[0], Utf16(b[1..]));
    } else if a[0] == b[0] {
      PrecedesStrip(UnitsOf(a[0]), Utf16(a[1..]), Utf16(b[1..]));
      BelowIsPrecedes(a[1..], b[1..]);
      assert Rank(a[0]) == Rank(b[0]);
    } else {
      RanksCompare(a[0], b[0], Utf16(a[1..]), Utf16(b[1..]));
    }
  }

  lemma NothingPrecedes(a: seq<nat>)
    ensures !Precedes(a, [])
  {
  }

  lemma EmptyPrecedes(b: seq<nat>, c: char, rest: seq<nat>)
    requires b == UnitsOf(c) + rest
    ensures Precedes([], b)
  {
    assert DecidesAt([], b, 0);
  }
}
