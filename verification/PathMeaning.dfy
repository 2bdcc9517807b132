/**
 What resolving a path means: its pieces are rewritten until nothing but names is left. Said without the
 walk that computes it, and carried over to the guard.
 */
module PathMeaning {
  import opened Options
  import opened Paths
  import opened Policy
  import PolicyTheorems

  // ---------- pieces ----------

  function Joined(ps: seq<string>): string
    requires |ps| > 0
  {
    if |ps| == 1 then ps[0] else ps[0] + "/" + Joined(ps[1..])
  }

  predicate NoSlashes(ps: seq<string>) { forall i :: 0 <= i < |ps| ==> '/' !in ps[i] }

  lemma {:induction false} PiecesJoin(s: string)
    ensures Joined(Pieces(s)) == s
  {
    if s != "" {
      PiecesJoin(s[1..]);
      var rest := Pieces(s[1..]);
      assert s == [s[0]] + s[1..];
      if s[0] == '/' {
        assert ([""] + rest)[1..] == rest;
      } else {
        var first := [s[0]] + rest[0];
        assert ([first] + rest[1..])[1..] == rest[1..];
        if |rest| > 1 {
          assert first + "/" + Joined(rest[1..]) == [s[0]] + (rest[0] + "/" + Joined(rest[1..]));
        }
      }
    }
  }

  lemma {:induction false} PiecesOfJoined(ps: seq<string>)
    requires |ps| > 0 && NoSlashes(ps)
    ensures Pieces(Joined(ps)) == ps
    decreases |ps|
  {
    if |ps| == 1 {
      assert ps[0] + "" == ps[0];
      PiecesOfName(ps[0], "");
      assert ps == [ps[0]];
    } else {
      var rest := "/" + Joined(ps[1..]);
      assert Joined(ps) == ps[0] + rest && rest[1..] == Joined(ps[1..]);
      PiecesOfName(ps[0], rest);
      PiecesOfJoined(ps[1..]);
      assert ps == [ps[0]] + ps[1..];
    }
  }

  /** The pieces of a path are the only strings without slashes that give it back, joined by slashes. */
  lemma PiecesIff(s: string, ps: seq<string>)
    ensures Pieces(s) == ps <==> |ps| > 0 && NoSlashes(ps) && Joined(ps) == s
  {
    PiecesJoin(s);
    PiecesHaveNoSlash(s);
    if |ps| > 0 && NoSlashes(ps) && Joined(ps) == s {
      PiecesOfJoined(ps);
    }
    hide Pieces, Joined;
  }

  lemma PiecesCons(c: char, s: string)
    ensures Pieces([c] + s) == if c == '/' then [""] + Pieces(s) else [[c] + Pieces(s)[0]] + Pieces(s)[1..]
  {
    assert ([c] + s)[1..] == s;
  }

  lemma {:induction false} PiecesConcat(s: string, t: string)
    ensures Pieces(s + "/" + t) == Pieces(s) + Pieces(t)
  {
    hide Pieces;
    if s == "" {
      assert s + "/" + t == ['/'] + t;
      PiecesCons('/', t);
      assert Pieces("") == [""] by { NoPieces(); }
    } else {
      var c, rest := s[0], s[1..];
      assert s == [c] + rest && s + "/" + t == [c] + (rest + "/" + t);
      PiecesConcat(rest, t);
      PiecesCons(c, rest);
      PiecesCons(c, rest + "/" + t);
      var ps, qs := Pieces(rest), Pieces(t);
      assert (ps + qs)[1..] == ps[1..] + qs && (ps + qs)[0] == ps[0];
    }
  }

  lemma NoPieces()
    ensures Pieces("") == [""]
  {
  }

  // ---------- rewriting ----------

  predicate Plain(piece: string) { piece != "" && piece != "." && piece != ".." }

  predicate Plains(ps: seq<string>) { forall i :: 0 <= i < |ps| ==> Plain(ps[i]) }

  /** One step: an empty piece or a dot goes, a name goes with the two dots behind it, leading dots go. */
  predicate Drops(a: seq<string>, i: nat, b: seq<string>) {
    || (i < |a| && (a[i] == "" || a[i] == ".") && b == a[..i] + a[i + 1..])
    || (i + 1 < |a| && Plain(a[i]) && a[i + 1] == ".." && b == a[..i] + a[i + 2..])
    || (i == 0 && a != [] && a[0] == ".." && b == a[1..])
  }

  ghost predicate Reduces(a: seq<string>, b: seq<string>) { exists i :: Drops(a, i, b) }

  ghost predicate Chain(chain: seq<seq<string>>) {
    |chain| > 0 && forall i :: 0 <= i < |chain| - 1 ==> Reduces(chain[i], chain[i + 1])
  }

  ghost predicate Leads(a: seq<string>, b: seq<string>) {
    exists chain :: Chain(chain) && chain[0] == a && chain[|chain| - 1] == b
  }

  // ---------- rewriting and walking ----------

  lemma {:induction false} WalkConcat(names: seq<string>, a: seq<string>, b: seq<string>)
    ensures WalkAll(names, a + b) == WalkAll(WalkAll(names, a), b)
    decreases |a|
  {
    if a == [] {
      assert a + b == b;
    } else {
      assert (a + b)[0] == a[0] && (a + b)[1..] == a[1..] + b;
      WalkConcat(Walk(names, a[0]), a[1..], b);
    }
  }

  lemma WalkOne(names: seq<string>, piece: string)
    ensures WalkAll(names, [piece]) == Walk(names, piece)
  {
    assert [piece][1..] == [];
    assert WalkAll(Walk(names, piece), []) == Walk(names, piece);
  }

  lemma DropsWalkAlike(a: seq<string>, i: nat, b: seq<string>)
    requires Drops(a, i, b)
    ensures WalkAll([], a) == WalkAll([], b)
  {
    hide WalkAll;
    if i < |a| && (a[i] == "" || a[i] == ".") && b == a[..i] + a[i + 1..] {
      assert a == a[..i] + ([a[i]] + a[i + 1..]);
      WalkConcat([], a[..i], [a[i]] + a[i + 1..]);
      WalkConcat(WalkAll([], a[..i]), [a[i]], a[i + 1..]);
      WalkOne(WalkAll([], a[..i]), a[i]);
      WalkConcat([], a[..i], a[i + 1..]);
    } else if i + 1 < |a| && Plain(a[i]) && a[i + 1] == ".." && b == a[..i] + a[i + 2..] {
      var before := WalkAll([], a[..i]);
      assert a == a[..i] + ([a[i]] + ([a[i + 1]] + a[i + 2..]));
      WalkConcat([], a[..i], [a[i]] + ([a[i + 1]] + a[i + 2..]));
      WalkConcat(before, [a[i]], [a[i + 1]] + a[i + 2..]);
      WalkOne(before, a[i]);
      WalkConcat(before + [a[i]], [a[i + 1]], a[i + 2..]);
      WalkOne(before + [a[i]], a[i + 1]);
      assert (before + [a[i]])[..|before|] == before;
      WalkConcat([], a[..i], a[i + 2..]);
    } else {
      assert a == [a[0]] + a[1..];
      WalkConcat([], [a[0]], a[1..]);
      WalkOne([], a[0]);
    }
  }

  lemma {:induction false} ChainWalksAlike(chain: seq<seq<string>>)
    requires Chain(chain)
    ensures WalkAll([], chain[0]) == WalkAll([], chain[|chain| - 1])
    decreases |chain|
  {
    hide WalkAll;
    if |chain| > 1 {
      var i :| Drops(chain[0], i, chain[1]);
      DropsWalkAlike(chain[0], i, chain[1]);
      var rest := chain[1..];
      assert forall k :: 0 <= k < |rest| ==> rest[k] == chain[k + 1];
      ChainWalksAlike(rest);
    }
  }

  lemma {:induction false} PlainsWalk(names: seq<string>, ps: seq<string>)
    requires Plains(ps)
    ensures WalkAll(names, ps) == names + ps
    decreases |ps|
  {
    if ps == [] {
      assert names + ps == names;
    } else {
      PlainsWalk(names + [ps[0]], ps[1..]);
      assert names + [ps[0]] + ps[1..] == names + ps;
    }
  }

  lemma Prepend(a: seq<string>, b: seq<string>, c: seq<string>)
    requires Reduces(a, b) && Leads(b, c)
    ensures Leads(a, c)
  {
    var chain :| Chain(chain) && chain[0] == b && chain[|chain| - 1] == c;
    hide Reduces;
    var all := [a] + chain;
    forall i | 0 <= i < |all| - 1
      ensures Reduces(all[i], all[i + 1])
    {
      if i > 0 {
        assert all[i] == chain[i - 1] && all[i + 1] == chain[i];
      }
    }
    assert all[|all| - 1] == c;
  }

  lemma Stays(a: seq<string>)
    ensures Leads(a, a)
  {
    assert Chain([a]);
  }

  lemma {:induction false} LeadsToWalk(names: seq<string>, ps: seq<string>)
    requires Plains(names)
    ensures Leads(names + ps, WalkAll(names, ps)) && Plains(WalkAll(names, ps))
    decreases |ps|
  {
    hide Leads, Reduces;
    if ps == [] {
      assert names + ps == names;
      Stays(names);
    } else {
      var a, next := names + ps, Walk(names, ps[0]);
      LeadsToWalk(next, ps[1..]);
      OneWalk(names, ps);
      if a != next + ps[1..] {
        Prepend(a, next + ps[1..], WalkAll(names, ps));
      }
    }
  }

  lemma OneWalk(names: seq<string>, ps: seq<string>)
    requires Plains(names) && ps != []
    ensures names + ps == Walk(names, ps[0]) + ps[1..] || Reduces(names + ps, Walk(names, ps[0]) + ps[1..])
  {
    var a, b, n := names + ps, Walk(names, ps[0]) + ps[1..], |names|;
    if Plain(ps[0]) {
      assert a == b;
    } else if ps[0] == ".." && names != [] {
      assert Drops(a, n - 1, b) by { assert a[..n - 1] == names[..n - 1] && a[n + 1..] == ps[1..]; }
    } else if ps[0] == ".." {
      assert Drops(a, 0, b);
    } else {
      assert Drops(a, n, b) by { assert a[..n] == names && a[n + 1..] == ps[1..]; }
    }
  }

  /** Every list of pieces leads to exactly one list of names. */
  lemma LeadsIff(a: seq<string>, b: seq<string>)
    requires Plains(b)
    ensures Leads(a, b) <==> WalkAll([], a) == b
  {
    hide WalkAll;
    LeadsToWalk([], a);
    assert [] + a == a;
    if Leads(a, b) {
      var chain :| Chain(chain) && chain[0] == a && chain[|chain| - 1] == b;
      ChainWalksAlike(chain);
      PlainsWalk([], b);
    }
  }

  /** The rewriting is confluent: whatever is dropped first, both ways end in the same names. */
  lemma Confluent(a: seq<string>, b: seq<string>, c: seq<string>) returns (names: seq<string>)
    requires Leads(a, b) && Leads(a, c)
    ensures Plains(names) && Leads(b, names) && Leads(c, names)
    ensures forall d :: Plains(d) && Leads(a, d) ==> d == names
  {
    hide WalkAll;
    names := WalkAll([], a);
    LeadsToWalk([], a);
    assert [] + a == a;
    var one :| Chain(one) && one[0] == a && one[|one| - 1] == b;
    var two :| Chain(two) && two[0] == a && two[|two| - 1] == c;
    ChainWalksAlike(one);
    ChainWalksAlike(two);
    hide Leads;
    LeadsIff(b, names);
    LeadsIff(c, names);
    forall d | Plains(d) && Leads(a, d)
      ensures d == names
    {
      LeadsIff(a, d);
    }
  }

  /** The first piece that is no name can be dropped. */
  lemma OtherDrops(a: seq<string>, i: nat) returns (b: seq<string>)
    requires i < |a| && !Plain(a[i]) && Plains(a[..i])
    ensures Reduces(a, b)
  {
    if a[i] != ".." {
      b := a[..i] + a[i + 1..];
      assert Drops(a, i, b);
    } else if i == 0 {
      b := a[1..];
      assert Drops(a, 0, b);
    } else {
      assert Plain(a[..i][i - 1]);
      b := a[..i - 1] + a[i + 1..];
      assert Drops(a, i - 1, b);
    }
  }

  /** Only lists of names cannot be rewritten. */
  lemma StuckIff(a: seq<string>)
    ensures (forall b :: !Reduces(a, b)) <==> Plains(a)
  {
    if !Plains(a) {
      var i := FirstOther(a);
      var b := OtherDrops(a, i);
    }
  }

  lemma {:induction false} FirstOther(a: seq<string>) returns (i: nat)
    requires !Plains(a)
    ensures i < |a| && !Plain(a[i]) && Plains(a[..i])
    decreases |a|
  {
    var rest := a[..|a| - 1];
    if Plains(rest) {
      i := |a| - 1;
    } else {
      i := FirstOther(rest);
      assert a[..i] == rest[..i];
    }
  }

  // ---------- resolving ----------

  predicate IsAbsolute(p: string) { p != "" && p[0] == '/' }

  /** The pieces of several paths, each seen from the one before it. */
  function Parts(paths: seq<string>): seq<string> {
    if paths == [] then []
    else
      var last := paths[|paths| - 1];
      if IsAbsolute(last) then Pieces(last) else Parts(paths[..|paths| - 1]) + Pieces(last)
  }

  /** A path is printed as its names, each behind a slash. */
  function Printed(names: seq<string>): string { if names == [] then "/" else Joined([""] + names) }

  lemma {:induction false} PrintedIs(names: seq<string>)
    ensures Printed(names) == FromNames(names)
  {
    if names != [] {
      assert ([""] + names)[1..] == names;
      assert "" + "/" + Joined(names) == "/" + Joined(names);
      JoinedIsSlashed(names);
    }
  }

  lemma {:induction false} JoinedIsSlashed(names: seq<string>)
    requires names != []
    ensures "/" + Joined(names) == Slashed(names)
    decreases |names|
  {
    if |names| > 1 {
      JoinedIsSlashed(names[1..]);
      assert "/" + (names[0] + "/" + Joined(names[1..])) == "/" + names[0] + ("/" + Joined(names[1..]));
    } else {
      assert Slashed(names[1..]) == "";
    }
  }

  /** Empty texts add an empty piece, which changes nothing. */
  lemma AbsoluteParts(cwd: string, p: string)
    ensures WalkAll([], Pieces(Absolute(cwd, p))) == WalkAll([], Parts([cwd, p]))
  {
    hide WalkAll, Pieces;
    assert [cwd, p][..1] == [cwd] && [cwd][..0] == [];
    assert Parts([cwd]) == Pieces(cwd) by { assert [] + Pieces(cwd) == Pieces(cwd); }
    if p == "" {
      NoPieces();
      WalkConcat([], Pieces(cwd), [""]);
      WalkOne(WalkAll([], Pieces(cwd)), "");
    } else if p[0] != '/' {
      PiecesConcat(cwd, p);
    }
  }

  /**
   A path resolves to the only names its pieces lead to, those of the working directory in front unless
   it is absolute.
   */
  lemma ResolveIff(cwd: string, p: string, r: string)
    ensures Resolve(cwd, p) == r <==> exists names :: Plains(names) && Leads(Parts([cwd, p]), names) && r == Printed(names)
  {
    hide WalkAll, Pieces, Parts, Leads, Printed;
    AbsoluteParts(cwd, p);
    LeadsToWalk([], Parts([cwd, p]));
    var names := WalkAll([], Parts([cwd, p]));
    assert [] + Parts([cwd, p]) == Parts([cwd, p]);
    PrintedIs(names);
    hide FromNames;
    if b :| Plains(b) && Leads(Parts([cwd, p]), b) && r == Printed(b) {
      LeadsIff(Parts([cwd, p]), b);
    }
  }

  lemma NamesIff(cwd: string, p: string, names: seq<string>)
    requires Plains(names)
    ensures Names(cwd, p) == names <==> Leads(Parts([cwd, p]), names)
  {
    hide WalkAll, Pieces, Parts, Leads;
    AbsoluteParts(cwd, p);
    LeadsIff(Parts([cwd, p]), names);
  }

  /** One path is within another exactly when its names begin with those of the other; the root directory holds only itself. */
  lemma WithinIff(cwd: string, p: string, root: string, names: seq<string>, above: seq<string>)
    requires Plains(names) && Leads(Parts([cwd, p]), names) && Plains(above) && Leads(Parts([cwd, root]), above)
    ensures IsWithin(cwd, p, root) <==> if above == [] then names == [] else above <= names
  {
    hide Names, Parts, Leads, IsWithin;
    NamesIff(cwd, p, names);
    NamesIff(cwd, root, above);
    WithinIsPrefix(cwd, p, root);
  }

  // ---------- the guard ----------

  /** The paths a call's argument is seen from: the working directory, and the workspace if it names one. */
  function Seen(cwd: string, call: ToolCall): seq<string>
    requires call.argument.Some?
  {
    if call.workspace.Some? then [cwd, call.workspace.value, call.argument.value] else [cwd, call.argument.value]
  }

  lemma SeenWalks(cwd: string, call: ToolCall)
    requires call.argument.Some?
    ensures ToolPath(cwd, call) == Some(FromNames(WalkAll([], Parts(Seen(cwd, call)))))
  {
    hide WalkAll, Pieces, FromNames;
    var arg := call.argument.value;
    if call.workspace.None? {
      AbsoluteParts(cwd, arg);
    } else {
      var dir := Absolute(cwd, call.workspace.value);
      var two := Parts([cwd, call.workspace.value]);
      assert [cwd, call.workspace.value, arg][..2] == [cwd, call.workspace.value];
      AbsoluteParts(cwd, call.workspace.value);
      if !IsAbsolute(arg) {
        assert Parts(Seen(cwd, call)) == two + Pieces(arg);
        WalkConcat([], two, Pieces(arg));
        hide Parts;
        if arg == "" {
          NoPieces();
          WalkOne(WalkAll([], two), "");
        } else {
          PiecesConcat(dir, arg);
          WalkConcat([], Pieces(dir), Pieces(arg));
        }
      }
    }
  }

  /** The path the guard looks at is the one the argument leads to, seen from the workspace. */
  lemma ToolPathIff(cwd: string, call: ToolCall, r: string)
    ensures ToolPath(cwd, call) == Some(r) <==>
            call.argument.Some? && exists names :: Plains(names) && Leads(Parts(Seen(cwd, call)), names) && r == Printed(names)
  {
    hide WalkAll, Parts, Leads, Printed, FromNames;
    if call.argument.Some? {
      var all := Parts(Seen(cwd, call));
      SeenWalks(cwd, call);
      LeadsToWalk([], all);
      assert [] + all == all;
      PrintedIs(WalkAll([], all));
      if b :| Plains(b) && Leads(all, b) && r == Printed(b) {
        LeadsIff(all, b);
      }
    }
  }

  /** The root, resolved, holds the names. */
  ghost predicate Holds(cwd: string, root: string, names: seq<string>) {
    exists above :: Plains(above) && Leads(Parts([cwd, root]), above) && if above == [] then names == [] else above <= names
  }

  lemma {:induction false} PartsHaveNoSlash(paths: seq<string>)
    ensures NoSlashes(Parts(paths))
  {
    hide Pieces;
    if paths != [] {
      PartsHaveNoSlash(paths[..|paths| - 1]);
      PiecesHaveNoSlash(paths[|paths| - 1]);
    }
  }

  /** Printed names resolve to themselves. */
  lemma NamesAgain(cwd: string, names: seq<string>)
    requires AllNames(names)
    ensures Names(cwd, FromNames(names)) == names
  {
    hide WalkAll, Pieces, AllNames;
    PiecesOfSlashed(names);
    WalkSkip(names);
    WalkingNames([], names);
    if names == [] {
      RootPieces();
    }
    assert [] + names == names;
  }

  lemma WithinHolds(cwd: string, call: ToolCall, root: string, names: seq<string>)
    requires call.argument.Some? && Plains(names) && Leads(Parts(Seen(cwd, call)), names)
    ensures IsWithin(cwd, ToolPath(cwd, call).value, root) <==> Holds(cwd, root, names)
  {
    hide WalkAll, Parts, Leads, FromNames, Names, IsWithin, ToolPath;
    var all := Parts(Seen(cwd, call));
    SeenWalks(cwd, call);
    LeadsIff(all, names);
    PartsHaveNoSlash(Seen(cwd, call));
    WalkGivesNames([], all);
    NamesAgain(cwd, names);
    var above := Names(cwd, root);
    ResolveIsNames(cwd, root);
    NamesIff(cwd, root, above);
    WithinIsPrefix(cwd, FromNames(names), root);
    if b :| Plains(b) && Leads(Parts([cwd, root]), b) && if b == [] then names == [] else b <= names {
      NamesIff(cwd, root, b);
    }
  }

  ghost predicate AnyHolds(cwd: string, roots: seq<string>, names: seq<string>) {
    exists i :: 0 <= i < |roots| && Holds(cwd, roots[i], names)
  }

  /**
   The guard lets a call other than bash through exactly when every layer allows the tool and, where the
   call names a path and the layer has roots, one of the roots holds the names the path leads to.
   */
  lemma GuardByNames(cwd: string, layers: seq<Layer>, call: ToolCall, names: seq<string>)
    requires EffectivePolicy(cwd, layers).Ok? && call.tool != "bash"
    requires call.argument.Some? ==> Plains(names) && Leads(Parts(Seen(cwd, call)), names)
    ensures GuardAllows(cwd, EffectivePolicy(cwd, layers).value, call) <==>
            forall i :: 0 <= i < |layers| ==>
                          && (layers[i].constraints.tools.Some? ==> call.tool in layers[i].constraints.tools.value)
                          && (call.argument.Some? && layers[i].constraints.roots.Some? ==> AnyHolds(cwd, layers[i].constraints.roots.value, names))
  {
    hide EffectivePolicy, GuardAllows, IsWithin, Parts, Leads, Holds, Seen;
    PolicyTheorems.GuardAsksEveryLayer(cwd, layers, call);
    if call.argument.Some? {
      forall root
        ensures IsWithin(cwd, ToolPath(cwd, call).value, root) <==> Holds(cwd, root, names)
      {
        WithinHolds(cwd, call, root, names);
      }
    }
    hide Resolve;
  }

  // ---------- climbing out of the workspace ----------

  function Ups(n: nat): seq<string> { if n == 0 then [] else [".."] + Ups(n - 1) }

  function Less(n: nat, m: nat): nat { if n <= m then 0 else n - m }

  lemma {:induction false} WalkUps(names: seq<string>, n: nat)
    ensures WalkAll(names, Ups(n)) == names[..Less(|names|, n)]
    decreases n
  {
    if n == 0 {
      assert names[..|names|] == names;
    } else {
      var next := Walk(names, "..");
      assert Ups(n)[0] == ".." && Ups(n)[1..] == Ups(n - 1);
      WalkUps(next, n - 1);
      assert next[..Less(|next|, n - 1)] == names[..Less(|names|, n)];
    }
  }

  /**
   A path that goes up from its workspace and then down again: under the workspace as the only root it is
   let through exactly when it comes back to the directories it left.
   */
  lemma ClimbingOut(cwd: string, c: Constraints, call: ToolCall, work: seq<string>, n: nat, down: seq<string>)
    requires call.tool != "bash" && call.argument.Some? && call.workspace.Some? && !IsAbsolute(call.argument.value)
    requires c.roots == Some([call.workspace.value]) && Allows(c.tools, call.tool)
    requires Plains(work) && Leads(Parts([cwd, call.workspace.value]), work) && work != []
    requires Plains(down) && Pieces(call.argument.value) == Ups(n) + down
    ensures GuardAllows(cwd, c, call) <==> work[Less(|work|, n)..] <= down
  {
    hide WalkAll, Leads, Pieces, IsWithin, Holds, ToolPath, GuardAllows;
    var two, all, k := Parts([cwd, call.workspace.value]), Parts(Seen(cwd, call)), Less(|work|, n);
    var names := work[..k] + down;
    assert Seen(cwd, call)[..2] == [cwd, call.workspace.value];
    assert all == two + (Ups(n) + down);
    LeadsIff(two, work);
    WalkConcat([], two, Ups(n) + down);
    WalkConcat(work, Ups(n), down);
    WalkUps(work, n);
    PlainsWalk(work[..k], down);
    LeadsIff(all, names);
    hide Parts, Seen;
    WithinHolds(cwd, call, call.workspace.value, names);
    HoldsOnly(cwd, call.workspace.value, work, names);
    OneRoot(cwd, c, call, call.workspace.value);
    assert work == work[..k] + work[k..];
    assert work <= names <==> work[k..] <= down by { PrefixCancels(work[..k], work[k..], down); }
  }

  lemma OneRoot(cwd: string, c: Constraints, call: ToolCall, root: string)
    requires call.tool != "bash" && call.argument.Some? && c.roots == Some([root]) && Allows(c.tools, call.tool)
    ensures ToolPath(cwd, call).Some? && (GuardAllows(cwd, c, call) <==> IsWithin(cwd, ToolPath(cwd, call).value, root))
  {
    assert [root][0] == root;
    hide IsWithin;
  }

  lemma PrefixCancels(a: seq<string>, b: seq<string>, d: seq<string>)
    ensures a + b <= a + d <==> b <= d
  {
    assert (a + b)[|a|..] == b && (a + d)[|a|..] == d;
    if a + b <= a + d {
      assert (a + d)[..|a + b|] == a + b;
      assert (a + d)[..|a + b|][|a|..] == d[..|b|];
    }
  }

  lemma HoldsOnly(cwd: string, root: string, above: seq<string>, names: seq<string>)
    requires Plains(above) && Leads(Parts([cwd, root]), above)
    ensures Holds(cwd, root, names) <==> if above == [] then names == [] else above <= names
  {
    hide Leads, Parts, Names;
    NamesIff(cwd, root, above);
    if b :| Plains(b) && Leads(Parts([cwd, root]), b) && if b == [] then names == [] else b <= names {
      NamesIff(cwd, root, b);
    }
  }
}
