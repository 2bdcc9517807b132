/**
 Absolute POSIX paths as `resolve` of node:path makes them, and isWithin of
 src/policies/effective-policy.ts, which compares them as strings.
 */
module Paths {
  /** The pieces of a path between its slashes, empty ones included. */
  function Pieces(s: string): (r: seq<string>)
    ensures |r| > 0
  {
    if s == "" then [""]
    else
      var rest := Pieces(s[1..]);
      if s[0] == '/' then [""] + rest else [[s[0]] + rest[0]] + rest[1..]
  }

  /** One more piece: empty pieces and dots change nothing, two dots go up as far as the root. */
  function Walk(names: seq<string>, piece: string): seq<string> {
    if piece == "" || piece == "." then names
    else if piece == ".." then (if names == [] then [] else names[..|names| - 1])
    else names + [piece]
  }

  function WalkAll(names: seq<string>, pieces: seq<string>): seq<string>
    decreases |pieces|
  {
    if pieces == [] then names else WalkAll(Walk(names, pieces[0]), pieces[1..])
  }

  function Slashed(names: seq<string>): string { if names == [] then "" else "/" + names[0] + Slashed(names[1..]) }

  function FromNames(names: seq<string>): string { if names == [] then "/" else Slashed(names) }

  function Absolute(cwd: string, p: string): string {
    if p != "" && p[0] == '/' then p else if p == "" then cwd else cwd + "/" + p
  }

  function Names(cwd: string, p: string): seq<string> { WalkAll([], Pieces(Absolute(cwd, p))) }

  /** resolve(p) in the working directory `cwd`. */
  function Resolve(cwd: string, p: string): string { FromNames(Names(cwd, p)) }

  // ---------- resolving twice ----------

  predicate Name(s: string) { s != "" && s != "." && s != ".." && '/' !in s }

  ghost predicate AllNames(names: seq<string>) { forall i :: 0 <= i < |names| ==> Name(names[i]) }

  lemma {:induction false} PiecesHaveNoSlash(s: string)
    ensures forall i :: 0 <= i < |Pieces(s)| ==> '/' !in Pieces(s)[i]
  {
    if s != "" {
      PiecesHaveNoSlash(s[1..]);
      var rest := Pieces(s[1..]);
      assert '/' !in rest[0];
      assert forall i :: 0 < i < |rest| ==> rest[1..][i - 1] == rest[i];
    }
  }

  lemma {:induction false} WalkGivesNames(names: seq<string>, pieces: seq<string>)
    requires AllNames(names) && forall i :: 0 <= i < |pieces| ==> '/' !in pieces[i]
    ensures AllNames(WalkAll(names, pieces))
    decreases |pieces|
  {
    if pieces != [] {
      WalkGivesNames(Walk(names, pieces[0]), pieces[1..]);
    }
  }

  lemma {:induction false} PiecesOfName(name: string, rest: string)
    requires '/' !in name && (rest == "" || rest[0] == '/')
    ensures Pieces(name + rest) == if rest == "" then [name] else [name] + Pieces(rest[1..])
  {
    if name == "" {
      assert name + rest == rest;
    } else {
      assert (name + rest)[1..] == name[1..] + rest;
      PiecesOfName(name[1..], rest);
      assert [name[0]] + name[1..] == name;
    }
  }

  lemma {:induction false} PiecesOfSlashed(names: seq<string>)
    requires AllNames(names)
    ensures Pieces(Slashed(names)) == [""] + names
    decreases |names|
  {
    if names == [] {
      assert [""] + names == [""];
    } else {
      var rest := Slashed(names[1..]);
      assert Slashed(names)[1..] == names[0] + rest;
      PiecesOfName(names[0], rest);
      PiecesOfSlashed(names[1..]);
      if rest != "" {
        assert Pieces(rest) == [""] + Pieces(rest[1..]);
        assert Pieces(rest[1..]) == Pieces(rest)[1..];
      }
      assert names == [names[0]] + names[1..];
    }
  }

  lemma {:induction false} WalkingNames(before: seq<string>, names: seq<string>)
    requires AllNames(names)
    ensures WalkAll(before, names) == before + names
    decreases |names|
  {
    if names == [] {
      assert before + names == before;
    } else {
      WalkingNames(before + [names[0]], names[1..]);
      assert before + [names[0]] + names[1..] == before + names;
    }
  }

  lemma ResolveIsNames(cwd: string, p: string)
    ensures AllNames(Names(cwd, p))
  {
    PiecesHaveNoSlash(Absolute(cwd, p));
    WalkGivesNames([], Pieces(Absolute(cwd, p)));
  }

  /** A resolved path resolves to itself, in every directory. */
  lemma ResolveAgain(cwd: string, dir: string, p: string)
    ensures Resolve(dir, Resolve(cwd, p)) == Resolve(cwd, p)
  {
    hide WalkAll, Pieces, AllNames;
    var names := Names(cwd, p);
    ResolveIsNames(cwd, p);
    PiecesOfSlashed(names);
    WalkSkip(names);
    WalkingNames([], names);
    if names == [] {
      RootPieces();
    }
    assert [] + names == names;
  }

  lemma WalkSkip(names: seq<string>)
    ensures WalkAll([], [""] + names) == WalkAll([], names)
  {
    assert ([""] + names)[1..] == names;
  }

  lemma RootPieces()
    ensures WalkAll([], Pieces("/")) == []
  {
    assert Pieces("/") == ["", ""];
    assert WalkAll([], ["", ""]) == WalkAll([], [""]);
  }

  // ---------- within ----------

  /** `root` is `p` or, with a slash behind it, the beginning of `p`. */
  predicate Under(p: string, root: string) { p == root || root + "/" <= p }

  predicate IsWithin(cwd: string, p: string, root: string) { Under(Resolve(cwd, p), Resolve(cwd, root)) }

  lemma UnderTransitive(p: string, q: string, r: string)
    requires Under(p, q) && Under(q, r)
    ensures Under(p, r)
  {
  }

  /** Two ancestors of one path are comparable. */
  lemma AncestorsCompare(p: string, a: string, b: string)
    requires Under(p, a) && Under(p, b)
    ensures Under(a, b) || Under(b, a)
  {
    if |a| <= |b| {
      PrefixesCompare(p, a, b);
    } else {
      PrefixesCompare(p, b, a);
    }
  }

  lemma PrefixesCompare(p: string, a: string, b: string)
    requires Under(p, a) && Under(p, b) && |a| <= |b|
    ensures Under(b, a)
  {
    assert p[..|a|] == a && p[..|b|] == b;
    if |a| == |b| {
      assert a == b;
    } else {
      assert p[|a|] == (a + "/")[|a|];
      assert b[..|a| + 1] == p[..|a| + 1];
      assert b[..|a| + 1] == a + "/";
    }
  }

  // ---------- what the string test means ----------

  lemma {:induction false} SlashedPrefix(a: seq<string>, b: seq<string>)
    requires AllNames(a) && AllNames(b) && a != []
    ensures Under(Slashed(b), Slashed(a)) <==> a <= b
    decreases |a|
  {
    if b == [] {
      assert |Slashed(a)| > 0;
    } else {
      var x, y := Slashed(a[1..]), Slashed(b[1..]);
      SameFirstName(a[0], x, b[0], y);
      if a[0] == b[0] {
        CommonStart("/" + a[0], x, y);
        assert a <= b <==> a[1..] <= b[1..];
        if |a| == 1 {
          assert x == "";
          assert y == "" || y[0] == '/';
        } else {
          SlashedPrefix(a[1..], b[1..]);
        }
      } else {
        assert !(a <= b);
      }
    }
  }

  lemma CommonStart(s: string, x: string, y: string)
    ensures Under(s + y, s + x) <==> Under(y, x)
  {
    if s + x == s + y {
      assert (s + x)[|s|..] == x && (s + y)[|s|..] == y;
    }
    if (s + x) + "/" <= s + y {
      assert (s + y)[..|s + x| + 1][|s|..] == x + "/";
      assert x + "/" <= y;
    }
    if x + "/" <= y {
      assert s + (x + "/") <= s + y;
      assert s + (x + "/") == (s + x) + "/";
    }
  }

  /** Of two slashed paths, one under the other, the first names agree. */
  lemma SameFirstName(m: string, x: string, n: string, y: string)
    requires Name(m) && Name(n) && (x == "" || x[0] == '/') && (y == "" || y[0] == '/')
    ensures Under("/" + n + y, "/" + m + x) ==> m == n
  {
    var p, r := "/" + n + y, "/" + m + x;
    assert |m| < |n| ==> p[|m| + 1] == n[|m|];
    assert |p| > |n| + 1 ==> p[|n| + 1] == '/';
    assert |n| < |m| ==> r[|n| + 1] == m[|n|];
    if Under(p, r) {
      var k := if |m| < |n| then |m| else |n|;
      assert p[..|r|] == r;
      forall i | 0 <= i < k
        ensures m[i] == n[i]
      {
        assert r[i + 1] == m[i] && p[i + 1] == n[i];
      }
      assert |p| > |m| + 1 ==> p[|m| + 1] == '/';
      assert |m| == |n|;
    }
  }

  /**
   On resolved paths the string test is the test on names, except for the root directory, which
   contains only itself.
   */
  lemma WithinIsPrefix(cwd: string, p: string, root: string)
    ensures IsWithin(cwd, p, root) <==>
            if Names(cwd, root) == [] then Names(cwd, p) == [] else Names(cwd, root) <= Names(cwd, p)
  {
    hide Names, Slashed;
    ResolveIsNames(cwd, p);
    ResolveIsNames(cwd, root);
    var a, b := Names(cwd, root), Names(cwd, p);
    if a == [] {
      if b != [] {
        SlashedShape(b);
        assert Slashed(b)[1] != '/';
      }
    } else {
      SlashedShape(a);
      SlashedPrefix(a, b);
      if b == [] {
        assert !Under("/", Slashed(a));
      }
    }
  }

  lemma SlashedShape(names: seq<string>)
    requires AllNames(names) && names != []
    ensures |Slashed(names)| >= 2 && Slashed(names)[0] == '/' && Slashed(names)[1] != '/'
  {
    assert Name(names[0]);
    assert names[0][0] != '/';
  }
}
