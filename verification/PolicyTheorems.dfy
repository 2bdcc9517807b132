/** The effective policy is the exact meet of its layers, in whatever order they come. */
module PolicyTheorems {
  import opened Options
  import opened Paths
  import opened Policy

  // ---------- lists ----------

  lemma {:induction false} UniqueHas(items: seq<string>, x: string)
    ensures x in Unique(items) <==> x in items
  {
    if items != [] {
      assert items == items[..|items| - 1] + [items[|items| - 1]];
      UniqueHas(items[..|items| - 1], x);
    }
  }

  lemma {:induction false} CommonHas(items: seq<string>, others: seq<string>, x: string)
    ensures x in Common(items, others) <==> x in items && x in others
  {
    if items != [] {
      assert items == items[..|items| - 1] + [items[|items| - 1]];
      CommonHas(items[..|items| - 1], others, x);
    }
  }

  lemma ValuesMeet(a: Option<seq<string>>, b: Option<seq<string>>, x: string)
    ensures Allows(IntersectValues(a, b), x) <==> Allows(a, x) && Allows(b, x)
    ensures IntersectValues(a, b).None? <==> a.None? && b.None?
  {
    hide Unique, Common;
    if a.Some? {
      UniqueHas(a.value, x);
      if b.Some? {
        CommonHas(Unique(a.value), b.value, x);
      }
    }
    if b.Some? {
      UniqueHas(b.value, x);
    }
  }

  // ---------- roots ----------

  lemma WithinResolved(cwd: string, p: string, root: string)
    ensures IsWithin(cwd, p, Resolve(cwd, root)) <==> IsWithin(cwd, p, root)
    ensures IsWithin(cwd, Resolve(cwd, p), root) <==> IsWithin(cwd, p, root)
  {
    ResolveAgain(cwd, cwd, p);
    ResolveAgain(cwd, cwd, root);
  }

  lemma InSomeAdd(cwd: string, roots: seq<string>, x: string, p: string)
    ensures InSome(cwd, Add(roots, x), p) <==> InSome(cwd, roots, p) || IsWithin(cwd, p, x)
  {
    hide IsWithin;
    var all := Add(roots, x);
    if InSome(cwd, roots, p) {
      var i :| 0 <= i < |roots| && IsWithin(cwd, p, roots[i]);
      assert IsWithin(cwd, p, all[i]);
    }
    if IsWithin(cwd, p, x) {
      assert x in all;
      var i :| 0 <= i < |all| && all[i] == x;
    }
  }

  /** A path within two roots is within the deeper of them, and the deeper is within the other. */
  lemma PairMeet(cwd: string, roots: seq<string>, l: string, r: string, p: string)
    ensures InSome(cwd, MeetInto(cwd, roots, l, r), p) <==> InSome(cwd, roots, p) || (IsWithin(cwd, p, l) && IsWithin(cwd, p, r))
  {
    hide Resolve, InSome;
    InSomeAdd(cwd, roots, l, p);
    InSomeAdd(cwd, roots, r, p);
    var rp, rl, rr := Resolve(cwd, p), Resolve(cwd, l), Resolve(cwd, r);
    if Under(rp, rl) && Under(rp, rr) {
      AncestorsCompare(rp, rl, rr);
    }
    if Under(rp, rl) && Under(rl, rr) {
      UnderTransitive(rp, rl, rr);
    }
    if Under(rp, rr) && Under(rr, rl) {
      UnderTransitive(rp, rr, rl);
    }
    hide Under;
  }

  lemma InSomeSnoc(cwd: string, roots: seq<string>, p: string)
    requires roots != []
    ensures InSome(cwd, roots, p) <==> InSome(cwd, roots[..|roots| - 1], p) || IsWithin(cwd, p, roots[|roots| - 1])
  {
    hide IsWithin;
    var rest := roots[..|roots| - 1];
    if InSome(cwd, rest, p) {
      var i :| 0 <= i < |rest| && IsWithin(cwd, p, rest[i]);
      assert roots[i] == rest[i];
    }
    if InSome(cwd, roots, p) && !IsWithin(cwd, p, roots[|roots| - 1]) {
      var i :| 0 <= i < |roots| && IsWithin(cwd, p, roots[i]);
      assert rest[i] == roots[i];
    }
  }

  lemma {:induction false} OneMeet(cwd: string, roots: seq<string>, l: string, rs: seq<string>, p: string)
    ensures InSome(cwd, MeetOne(cwd, roots, l, rs), p) <==> InSome(cwd, roots, p) || (IsWithin(cwd, p, l) && InSome(cwd, rs, p))
    decreases |rs|
  {
    hide IsWithin, MeetInto;
    if rs == [] {
      assert !InSome(cwd, rs, p);
    } else {
      hide InSome;
      OneMeet(cwd, roots, l, rs[..|rs| - 1], p);
      PairMeet(cwd, MeetOne(cwd, roots, l, rs[..|rs| - 1]), l, rs[|rs| - 1], p);
      InSomeSnoc(cwd, rs, p);
    }
  }

  lemma {:induction false} AllMeet(cwd: string, ls: seq<string>, rs: seq<string>, p: string)
    ensures InSome(cwd, MeetAll(cwd, ls, rs), p) <==> InSome(cwd, ls, p) && InSome(cwd, rs, p)
    decreases |ls|
  {
    hide IsWithin, MeetOne;
    if ls == [] {
      assert !InSome(cwd, ls, p);
    } else {
      hide InSome;
      AllMeet(cwd, ls[..|ls| - 1], rs, p);
      OneMeet(cwd, MeetAll(cwd, ls[..|ls| - 1], rs), ls[|ls| - 1], rs, p);
      InSomeSnoc(cwd, ls, p);
    }
  }

  lemma InSomeResolved(cwd: string, roots: seq<string>, p: string)
    ensures InSome(cwd, ResolveEach(cwd, roots), p) <==> InSome(cwd, roots, p)
  {
    hide IsWithin, Resolve;
    forall i | 0 <= i < |roots|
      ensures IsWithin(cwd, p, ResolveEach(cwd, roots)[i]) <==> IsWithin(cwd, p, roots[i])
    {
      WithinResolved(cwd, p, roots[i]);
    }
  }

  /** The meet of two lists of roots admits exactly what both admit. */
  lemma RootsMeet(cwd: string, a: Option<seq<string>>, b: Option<seq<string>>, p: string)
    ensures Admits(cwd, IntersectRoots(cwd, a, b), p) <==> Admits(cwd, a, p) && Admits(cwd, b, p)
    ensures IntersectRoots(cwd, a, b).None? <==> a.None? && b.None?
  {
    hide InSome, MeetAll, ResolveEach;
    if a.Some? {
      InSomeResolved(cwd, a.value, p);
      if b.Some? {
        AllMeet(cwd, ResolveEach(cwd, a.value), ResolveEach(cwd, b.value), p);
      }
    }
    if b.Some? {
      InSomeResolved(cwd, b.value, p);
    }
  }

  // ---------- one matter at a time ----------

  /** What can be asked of a policy: a listed value, a path, a permission, an amount. */
  datatype Question =
    | Tool(x: string) | Skill(x: string) | Model(x: string) | Secret(x: string)
    | Path(p: string) | Network | Process
    | Cpu(amount: real) | Memory(amount: real) | Disk(amount: real)

  predicate Grants(cwd: string, c: Constraints, q: Question) {
    match q
    case Tool(x) => Allows(c.tools, x)
    case Skill(x) => Allows(c.skills, x)
    case Model(x) => Allows(c.models, x)
    case Secret(x) => Allows(c.secrets, x)
    case Path(p) => Admits(cwd, c.roots, p)
    case Network => c.network
    case Process => c.process
    case Cpu(x) => Within(c.limits.cpuCores, x)
    case Memory(x) => Within(c.limits.memoryMiB, x)
    case Disk(x) => Within(c.limits.diskMiB, x)
  }

  lemma ConstraintsMeet(cwd: string, a: Constraints, b: Constraints, q: Question)
    requires IntersectConstraints(cwd, a, b).Ok?
    ensures Grants(cwd, IntersectConstraints(cwd, a, b).value, q) <==> Grants(cwd, a, q) && Grants(cwd, b, q)
  {
    hide IntersectValues, IntersectRoots, Allows, Admits;
    match q
    case Tool(x) => ValuesMeet(a.tools, b.tools, x);
    case Skill(x) => ValuesMeet(a.skills, b.skills, x);
    case Model(x) => ValuesMeet(a.models, b.models, x);
    case Secret(x) => ValuesMeet(a.secrets, b.secrets, x);
    case Path(p) => RootsMeet(cwd, a.roots, b.roots, p);
    case _ =>
  }

  ghost predicate AllGrant(cwd: string, layers: seq<Layer>, q: Question) {
    forall i :: 0 <= i < |layers| ==> Grants(cwd, layers[i].constraints, q)
  }

  /** The profiles the layers ask for. */
  ghost function Profiles(layers: seq<Layer>): set<string> {
    set i | 0 <= i < |layers| && layers[i].constraints.profile.Some? :: layers[i].constraints.profile.value
  }

  lemma ProfilesSnoc(layers: seq<Layer>)
    requires layers != []
    ensures var last := layers[|layers| - 1].constraints.profile;
      Profiles(layers) == Profiles(layers[..|layers| - 1]) + if last.Some? then {last.value} else {}
  {
    var rest, last := layers[..|layers| - 1], layers[|layers| - 1];
    forall x
      ensures x in Profiles(layers) <==> x in Profiles(rest) || last.constraints.profile == Some(x)
    {
      if x in Profiles(rest) {
        var i :| 0 <= i < |rest| && rest[i].constraints.profile.Some? && rest[i].constraints.profile.value == x;
        assert layers[i] == rest[i];
      }
      if x in Profiles(layers) && last.constraints.profile != Some(x) {
        var i :| 0 <= i < |layers| && layers[i].constraints.profile.Some? && layers[i].constraints.profile.value == x;
        assert rest[i] == layers[i];
      }
      if last.constraints.profile == Some(x) {
        assert layers[|layers| - 1].constraints.profile.value == x;
      }
    }
  }

  lemma NoProfiles()
    ensures Profiles([]) == {}
  {
  }

  lemma UnrestrictedGrants(cwd: string, q: Question)
    ensures Grants(cwd, UNRESTRICTED, q)
  {
  }

  lemma AllGrantSnoc(cwd: string, layers: seq<Layer>, q: Question)
    requires layers != []
    ensures AllGrant(cwd, layers, q) <==> AllGrant(cwd, layers[..|layers| - 1], q) && Grants(cwd, layers[|layers| - 1].constraints, q)
  {
    hide Grants;
    var rest := layers[..|layers| - 1];
    assert forall i :: 0 <= i < |rest| ==> rest[i] == layers[i];
  }

  lemma {:induction false} AllMeetExactly(cwd: string, layers: seq<Layer>, q: Question)
    ensures IntersectAll(cwd, layers).Ok? <==> |Profiles(layers)| <= 1
    ensures IntersectAll(cwd, layers).Ok? ==>
              && (Grants(cwd, IntersectAll(cwd, layers).value, q) <==> AllGrant(cwd, layers, q))
              && Profiles(layers) == (var p := IntersectAll(cwd, layers).value.profile; if p.Some? then {p.value} else {})
    decreases |layers|
  {
    hide Grants, Profiles, AllGrant, IntersectValues, IntersectRoots;
    if layers == [] {
      NoProfiles();
      UnrestrictedGrants(cwd, q);
      assert AllGrant(cwd, [], q) by { Vacuous(cwd, q); }
    } else {
      var rest, last := layers[..|layers| - 1], layers[|layers| - 1];
      AllMeetExactly(cwd, rest, q);
      ProfilesSnoc(layers);
      AllGrantSnoc(cwd, layers, q);
      if IntersectAll(cwd, rest).Ok? {
        var c := IntersectAll(cwd, rest).value;
        ProfilePair(Profiles(rest), c.profile, last.constraints.profile);
        if IntersectConstraints(cwd, c, last.constraints).Ok? {
          ConstraintsMeet(cwd, c, last.constraints, q);
        }
      } else {
        assert Profiles(rest) <= Profiles(layers);
        Bigger(Profiles(rest), Profiles(layers));
      }
    }
  }

  lemma Vacuous(cwd: string, q: Question)
    ensures AllGrant(cwd, [], q)
  {
  }

  lemma Bigger(a: set<string>, b: set<string>)
    requires a <= b
    ensures |a| <= |b|
  {
    assert b == a + (b - a);
  }

  lemma ProfilePair(ps: set<string>, a: Option<string>, b: Option<string>)
    requires ps == if a.Some? then {a.value} else {}
    ensures var all := ps + if b.Some? then {b.value} else {};
      && (IntersectProfiles(a, b).Ok? <==> |all| <= 1)
      && (IntersectProfiles(a, b).Ok? ==>
            all == if IntersectProfiles(a, b).value.Some? then {IntersectProfiles(a, b).value.value} else {})
  {
    var all := ps + if b.Some? then {b.value} else {};
    if a.Some? && b.Some? {
      assert all == {a.value, b.value};
      if a != b {
        assert |all| == 2;
      } else {
        assert all == {a.value};
      }
    }
  }

  lemma FreezeGrants(cwd: string, c: Constraints, q: Question)
    ensures Grants(cwd, Freeze(cwd, c), q) <==> Grants(cwd, c, q)
  {
    hide IsWithin, Unique, Resolve;
    match q
    case Tool(x) => if c.tools.Some? { UniqueHas(c.tools.value, x); }
    case Skill(x) => if c.skills.Some? { UniqueHas(c.skills.value, x); }
    case Model(x) => if c.models.Some? { UniqueHas(c.models.value, x); }
    case Secret(x) => if c.secrets.Some? { UniqueHas(c.secrets.value, x); }
    case Path(p) =>
      if c.roots.Some? {
        InSomeResolved(cwd, c.roots.value, p);
        InSomeUnique(cwd, ResolveEach(cwd, c.roots.value), p);
        hide InSome;
      }
    case _ =>
  }

  lemma InSomeUnique(cwd: string, roots: seq<string>, p: string)
    ensures InSome(cwd, Unique(roots), p) <==> InSome(cwd, roots, p)
  {
    hide IsWithin, Unique;
    if InSome(cwd, roots, p) {
      var i :| 0 <= i < |roots| && IsWithin(cwd, p, roots[i]);
      UniqueHas(roots, roots[i]);
      var j :| 0 <= j < |Unique(roots)| && Unique(roots)[j] == roots[i];
    }
    if InSome(cwd, Unique(roots), p) {
      var i :| 0 <= i < |Unique(roots)| && IsWithin(cwd, p, Unique(roots)[i]);
      UniqueHas(roots, Unique(roots)[i]);
      var j :| 0 <= j < |roots| && roots[j] == Unique(roots)[i];
    }
  }

  // ---------- theorems ----------

  /**
   The effective policy exists exactly when all five kinds of layer are there and no two layers ask for
   different sandbox profiles; it then grants a tool, skill, model, secret, path, permission or amount
   exactly when every layer does.
   */
  lemma EffectivePolicyIsMeet(cwd: string, layers: seq<Layer>, q: Question)
    ensures EffectivePolicy(cwd, layers).Ok? <==> HasAllKinds(layers) && |Profiles(layers)| <= 1
    ensures EffectivePolicy(cwd, layers).Ok? ==>
              (Grants(cwd, EffectivePolicy(cwd, layers).value, q) <==> AllGrant(cwd, layers, q))
  {
    hide Grants, Profiles, AllGrant, IntersectAll, Freeze;
    AllMeetExactly(cwd, layers, q);
    if IntersectAll(cwd, layers).Ok? {
      FreezeGrants(cwd, IntersectAll(cwd, layers).value, q);
    }
  }

  /** Each layer of one list is in the other. */
  ghost predicate SameLayers(a: seq<Layer>, b: seq<Layer>) {
    forall x :: x in a <==> x in b
  }

  /** The order of the layers, and repeating one, makes no difference to what is granted. */
  lemma OrderDoesNotMatter(cwd: string, a: seq<Layer>, b: seq<Layer>, q: Question)
    requires SameLayers(a, b)
    ensures EffectivePolicy(cwd, a).Ok? <==> EffectivePolicy(cwd, b).Ok?
    ensures EffectivePolicy(cwd, a).Ok? ==>
              (Grants(cwd, EffectivePolicy(cwd, a).value, q) <==> Grants(cwd, EffectivePolicy(cwd, b).value, q))
  {
    hide Grants, EffectivePolicy;
    EffectivePolicyIsMeet(cwd, a, q);
    EffectivePolicyIsMeet(cwd, b, q);
    MoreLayers(cwd, a, b, q);
    MoreLayers(cwd, b, a, q);
    assert Profiles(a) == Profiles(b);
  }

  lemma MoreLayers(cwd: string, a: seq<Layer>, b: seq<Layer>, q: Question)
    requires forall x :: x in a ==> x in b
    ensures AllGrant(cwd, b, q) ==> AllGrant(cwd, a, q)
    ensures HasAllKinds(a) ==> HasAllKinds(b)
    ensures Profiles(a) <= Profiles(b)
  {
    hide Grants;
    forall i | 0 <= i < |a|
      ensures exists j :: 0 <= j < |b| && b[j] == a[i]
    {
      assert a[i] in b;
    }
    forall k: LayerKind | HasKind(a, k)
      ensures HasKind(b, k)
    {
      var i :| 0 <= i < |a| && a[i].kind == k;
      var j :| 0 <= j < |b| && b[j] == a[i];
    }
    if AllGrant(cwd, b, q) {
      forall i | 0 <= i < |a|
        ensures Grants(cwd, a[i].constraints, q)
      {
        var j :| 0 <= j < |b| && b[j] == a[i];
      }
    }
    forall x | x in Profiles(a)
      ensures x in Profiles(b)
    {
      var i :| 0 <= i < |a| && a[i].constraints.profile.Some? && a[i].constraints.profile.value == x;
      var j :| 0 <= j < |b| && b[j] == a[i];
    }
  }

  /**
   The guard lets a call other than bash through exactly when every layer allows the tool and, where
   the call names a path, every layer admits the path.
   */
  lemma GuardAsksEveryLayer(cwd: string, layers: seq<Layer>, call: ToolCall)
    requires EffectivePolicy(cwd, layers).Ok? && call.tool != "bash"
    ensures GuardAllows(cwd, EffectivePolicy(cwd, layers).value, call) <==>
            forall i :: 0 <= i < |layers| ==>
                          && Allows(layers[i].constraints.tools, call.tool)
                          && (ToolPath(cwd, call).Some? ==> Admits(cwd, layers[i].constraints.roots, ToolPath(cwd, call).value))
  {
    hide EffectivePolicy, Allows, Admits, ToolPath;
    EffectivePolicyIsMeet(cwd, layers, Tool(call.tool));
    if ToolPath(cwd, call).Some? {
      EffectivePolicyIsMeet(cwd, layers, Path(ToolPath(cwd, call).value));
    }
  }

  /**
   bash goes through exactly when every layer allows it and allows processes, no network is enforced if
   any layer forbids it, the file system is isolated if any layer has roots, and a sandbox boundary
   isolates processes.
   */
  lemma BashNeedsEnforcement(cwd: string, layers: seq<Layer>, call: ToolCall)
    requires EffectivePolicy(cwd, layers).Ok? && call.tool == "bash"
    ensures GuardAllows(cwd, EffectivePolicy(cwd, layers).value, call) <==>
            && (forall i :: 0 <= i < |layers| ==> Allows(layers[i].constraints.tools, "bash") && layers[i].constraints.process)
            && (EnforcementOf(call).networkPolicyEnforced || forall i :: 0 <= i < |layers| ==> layers[i].constraints.network)
            && (EnforcementOf(call).filesystemIsolation || forall i :: 0 <= i < |layers| ==> layers[i].constraints.roots.None?)
            && (EnforcementOf(call).sandboxBoundary ==> EnforcementOf(call).processIsolation)
  {
    hide EffectivePolicy, Allows, Admits;
    EffectivePolicyIsMeet(cwd, layers, Tool("bash"));
    EffectivePolicyIsMeet(cwd, layers, Process);
    EffectivePolicyIsMeet(cwd, layers, Network);
    RootsOfAll(cwd, layers);
  }

  /** Whether the call's enforcement says so; a call without one has nothing enforced. */
  predicate Enforced(call: ToolCall, says: Enforcement -> bool) {
    match call.enforcement
    case None => false
    case Some(e) => says(e)
  }

  /** Why bash is denied: the first of these that applies. */
  lemma BashDeniedFor(c: Constraints, call: ToolCall)
    ensures var d := BashDenial(c, EnforcementOf(call));
      var network := c.network || Enforced(call, (e: Enforcement) => e.networkPolicyEnforced);
      var files := c.roots.None? || Enforced(call, (e: Enforcement) => e.filesystemIsolation);
      var processes := !Enforced(call, (e: Enforcement) => e.sandboxBoundary) || Enforced(call, (e: Enforcement) => e.processIsolation);
      && (d == Some(ProcessDenied) <==> !c.process)
      && (d == Some(NetworkUnenforced) <==> c.process && !network)
      && (d == Some(FilesystemOpen) <==> c.process && network && !files)
      && (d == Some(ProcessOpen) <==> c.process && network && files && !processes)
      && (d == None <==> c.process && network && files && processes)
  {
  }

  lemma RootsOfAll(cwd: string, layers: seq<Layer>)
    requires EffectivePolicy(cwd, layers).Ok?
    ensures EffectivePolicy(cwd, layers).value.roots.None? <==> forall i :: 0 <= i < |layers| ==> layers[i].constraints.roots.None?
  {
    RootsFound(cwd, layers);
  }

  lemma {:induction false} RootsFound(cwd: string, layers: seq<Layer>)
    requires IntersectAll(cwd, layers).Ok?
    ensures IntersectAll(cwd, layers).value.roots.None? <==> forall i :: 0 <= i < |layers| ==> layers[i].constraints.roots.None?
    decreases |layers|
  {
    hide IntersectValues, Resolve, MeetAll;
    if layers != [] {
      var rest := layers[..|layers| - 1];
      RootsFound(cwd, rest);
      assert forall i :: 0 <= i < |rest| ==> rest[i] == layers[i];
    }
  }
}
