/**
 The intersection of policy layers in src/policies/effective-policy.ts and the decision of
 src/policies/tool-policy-guard.ts on its result.
 */
module Policy {
  import opened Options
  import opened Paths

  datatype LayerKind = Platform | Tenant | Template | Workspace | Run

  datatype Limits = Limits(cpuCores: Option<real>, memoryMiB: Option<real>, diskMiB: Option<real>)

  /** None means that the layer does not restrict the matter. */
  datatype Constraints = Constraints(
    profile: Option<string>, tools: Option<seq<string>>, skills: Option<seq<string>>, models: Option<seq<string>>,
    roots: Option<seq<string>>, network: bool, process: bool, secrets: Option<seq<string>>, limits: Limits)

  const UNRESTRICTED := Constraints(None, None, None, None, None, true, true, None, Limits(None, None, None))

  datatype Layer = Layer(kind: LayerKind, constraints: Constraints)

  datatype PolicyError = MissingLayer | ProfileConflict

  datatype Result<+T> = Ok(value: T) | Failure(error: PolicyError)

  // ---------- sets kept in insertion order ----------

  function Add(s: seq<string>, x: string): seq<string> { if x in s then s else s + [x] }

  /** [...new Set(items)] */
  function Unique(items: seq<string>): seq<string> {
    if items == [] then [] else Add(Unique(items[..|items| - 1]), items[|items| - 1])
  }

  function Common(items: seq<string>, others: seq<string>): seq<string> {
    if items == [] then []
    else
      var rest := Common(items[..|items| - 1], others);
      if items[|items| - 1] in others then rest + [items[|items| - 1]] else rest
  }

  function ResolveEach(cwd: string, items: seq<string>): (r: seq<string>)
    ensures |r| == |items| && forall i :: 0 <= i < |r| ==> r[i] == Resolve(cwd, items[i])
  {
    seq(|items|, i requires 0 <= i < |items| => Resolve(cwd, items[i]))
  }

  // ---------- the intersection ----------

  function IntersectValues(left: Option<seq<string>>, right: Option<seq<string>>): Option<seq<string>> {
    if left.None? then (if right.None? then None else Some(Unique(right.value)))
    else if right.None? then Some(Unique(left.value))
    else Some(Common(Unique(left.value), right.value))
  }

  /** Adds the deeper of two comparable roots. */
  function MeetInto(cwd: string, roots: seq<string>, l: string, r: string): seq<string> {
    if IsWithin(cwd, l, r) then Add(roots, l) else if IsWithin(cwd, r, l) then Add(roots, r) else roots
  }

  function MeetOne(cwd: string, roots: seq<string>, l: string, rs: seq<string>): seq<string> {
    if rs == [] then roots else MeetInto(cwd, MeetOne(cwd, roots, l, rs[..|rs| - 1]), l, rs[|rs| - 1])
  }

  function MeetAll(cwd: string, ls: seq<string>, rs: seq<string>): seq<string> {
    if ls == [] then [] else MeetOne(cwd, MeetAll(cwd, ls[..|ls| - 1], rs), ls[|ls| - 1], rs)
  }

  function IntersectRoots(cwd: string, left: Option<seq<string>>, right: Option<seq<string>>): Option<seq<string>> {
    if left.None? then (if right.None? then None else Some(ResolveEach(cwd, right.value)))
    else if right.None? then Some(ResolveEach(cwd, left.value))
    else Some(MeetAll(cwd, ResolveEach(cwd, left.value), ResolveEach(cwd, right.value)))
  }

  method IntersectRootLists(cwd: string, left: Option<seq<string>>, right: Option<seq<string>>) returns (roots: Option<seq<string>>)
    ensures roots == IntersectRoots(cwd, left, right)
  {
    if left.None? {
      return if right.None? then None else Some(ResolveEach(cwd, right.value));
    }
    if right.None? {
      return Some(ResolveEach(cwd, left.value));
    }
    hide IsWithin, MeetOne, Resolve;
    var ls, rs := ResolveEach(cwd, left.value), ResolveEach(cwd, right.value);
    var found := MeetLists(cwd, ls, rs);
    roots := Some(found);
  }

  /** The outer loop over the left list. */
  method MeetLists(cwd: string, ls: seq<string>, rs: seq<string>) returns (found: seq<string>)
    ensures found == MeetAll(cwd, ls, rs)
  {
    hide IsWithin, MeetOne;
    found := [];
    for i := 0 to |ls|
      invariant found == MeetAll(cwd, ls[..i], rs)
    {
      assert ls[..i + 1][..i] == ls[..i];
      found := MeetRoot(cwd, found, ls[i], rs);
    }
    assert ls[..|ls|] == ls;
  }

  /** The inner loop: one root of the left list against all of the right. */
  method MeetRoot(cwd: string, before: seq<string>, l: string, rs: seq<string>) returns (found: seq<string>)
    ensures found == MeetOne(cwd, before, l, rs)
  {
    hide IsWithin;
    found := before;
    for j := 0 to |rs|
      invariant found == MeetOne(cwd, before, l, rs[..j])
    {
      assert rs[..j + 1][..j] == rs[..j];
      if IsWithin(cwd, l, rs[j]) {
        if l !in found { found := found + [l]; }
      } else if IsWithin(cwd, rs[j], l) {
        if rs[j] !in found { found := found + [rs[j]]; }
      }
    }
    assert rs[..|rs|] == rs;
  }

  function Minimum(a: Option<real>, b: Option<real>): Option<real> {
    if a.None? then b else if b.None? then a else Some(if a.value <= b.value then a.value else b.value)
  }

  function IntersectProfiles(a: Option<string>, b: Option<string>): Result<Option<string>> {
    if a.None? then Ok(b) else if b.None? || a == b then Ok(a) else Failure(ProfileConflict)
  }

  function IntersectConstraints(cwd: string, a: Constraints, b: Constraints): Result<Constraints> {
    match IntersectProfiles(a.profile, b.profile)
    case Failure(e) => Failure(e)
    case Ok(profile) =>
      Ok(Constraints(
        profile, IntersectValues(a.tools, b.tools), IntersectValues(a.skills, b.skills), IntersectValues(a.models, b.models),
        IntersectRoots(cwd, a.roots, b.roots), a.network && b.network, a.process && b.process,
        IntersectValues(a.secrets, b.secrets),
        Limits(Minimum(a.limits.cpuCores, b.limits.cpuCores), Minimum(a.limits.memoryMiB, b.limits.memoryMiB),
               Minimum(a.limits.diskMiB, b.limits.diskMiB))))
  }

  function IntersectAll(cwd: string, layers: seq<Layer>): Result<Constraints> {
    if layers == [] then Ok(UNRESTRICTED)
    else
      match IntersectAll(cwd, layers[..|layers| - 1])
      case Failure(e) => Failure(e)
      case Ok(c) => IntersectConstraints(cwd, c, layers[|layers| - 1].constraints)
  }

  function FreezeList(items: Option<seq<string>>): Option<seq<string>> {
    if items.None? then None else Some(Unique(items.value))
  }

  function Freeze(cwd: string, c: Constraints): Constraints {
    c.(tools := FreezeList(c.tools), skills := FreezeList(c.skills), models := FreezeList(c.models),
       roots := FreezeList(if c.roots.None? then None else Some(ResolveEach(cwd, c.roots.value))), secrets := FreezeList(c.secrets))
  }

  predicate HasKind(layers: seq<Layer>, k: LayerKind) { exists i :: 0 <= i < |layers| && layers[i].kind == k }

  predicate HasAllKinds(layers: seq<Layer>) {
    HasKind(layers, Platform) && HasKind(layers, Tenant) && HasKind(layers, Template) && HasKind(layers, Workspace) && HasKind(layers, Run)
  }

  function EffectivePolicy(cwd: string, layers: seq<Layer>): Result<Constraints> {
    if !HasAllKinds(layers) then Failure(MissingLayer)
    else
      match IntersectAll(cwd, layers)
      case Failure(e) => Failure(e)
      case Ok(c) => Ok(Freeze(cwd, c))
  }

  method ComputeEffectivePolicy(cwd: string, layers: seq<Layer>) returns (r: Result<Constraints>)
    ensures r == EffectivePolicy(cwd, layers)
  {
    if !HasAllKinds(layers) {
      return Failure(MissingLayer);
    }
    var effective := UNRESTRICTED;
    for i := 0 to |layers|
      invariant IntersectAll(cwd, layers[..i]) == Ok(effective)
    {
      assert layers[..i + 1][..i] == layers[..i];
      var next := IntersectConstraints(cwd, effective, layers[i].constraints);
      if next.Failure? {
        ConflictStays(cwd, layers, i + 1);
        return Failure(next.error);
      }
      effective := next.value;
    }
    assert layers[..|layers|] == layers;
    r := Ok(Freeze(cwd, effective));
  }

  lemma {:induction false} ConflictStays(cwd: string, layers: seq<Layer>, n: nat)
    requires n <= |layers| && IntersectAll(cwd, layers[..n]).Failure?
    ensures IntersectAll(cwd, layers) == IntersectAll(cwd, layers[..n])
    decreases |layers|
  {
    if n < |layers| {
      assert layers[..|layers| - 1][..n] == layers[..n];
      ConflictStays(cwd, layers[..|layers| - 1], n);
    } else {
      assert layers[..n] == layers;
    }
  }

  // ---------- what lists and roots admit ----------

  predicate Allows(values: Option<seq<string>>, x: string) { values.Some? ==> x in values.value }

  predicate InSome(cwd: string, roots: seq<string>, p: string) {
    exists i :: 0 <= i < |roots| && IsWithin(cwd, p, roots[i])
  }

  predicate Admits(cwd: string, roots: Option<seq<string>>, p: string) { roots.Some? ==> InSome(cwd, roots.value, p) }

  predicate Within(limit: Option<real>, x: real) { limit.Some? ==> x <= limit.value }

  // ---------- the guard ----------

  datatype Enforcement = Enforcement(networkPolicyEnforced: bool, filesystemIsolation: bool, sandboxBoundary: bool, processIsolation: bool)

  /** No enforcement means that none is promised. */
  const NO_ENFORCEMENT := Enforcement(false, false, false, false)

  /** `argument` is the path argument of the call, when it has one that is a string. */
  datatype ToolCall = ToolCall(tool: string, workspace: Option<string>, argument: Option<string>, enforcement: Option<Enforcement>)

  datatype Denial = ToolDenied | ProcessDenied | NetworkUnenforced | FilesystemOpen | ProcessOpen | PathOutside

  function BashDenial(c: Constraints, e: Enforcement): Option<Denial> {
    if !c.process then Some(ProcessDenied)
    else if !c.network && !e.networkPolicyEnforced then Some(NetworkUnenforced)
    else if c.roots.Some? && !e.filesystemIsolation then Some(FilesystemOpen)
    else if e.sandboxBoundary && !e.processIsolation then Some(ProcessOpen)
    else None
  }

  /** The path a call names, in the workspace it names it from. */
  function ToolPath(cwd: string, call: ToolCall): Option<string> {
    if call.argument.None? then None
    else Some(Resolve(if call.workspace.Some? then Absolute(cwd, call.workspace.value) else cwd, call.argument.value))
  }

  /** When the guard lets a call through. */
  predicate GuardAllows(cwd: string, c: Constraints, call: ToolCall) {
    && Allows(c.tools, call.tool)
    && (call.tool == "bash" ==> BashDenial(c, EnforcementOf(call)).None?)
    && (call.tool != "bash" && ToolPath(cwd, call).Some? ==> Admits(cwd, c.roots, ToolPath(cwd, call).value))
  }

  function EnforcementOf(call: ToolCall): Enforcement {
    if call.enforcement.Some? then call.enforcement.value else NO_ENFORCEMENT
  }

  /** The denial of a call, if any, and its reason: the tool first, then what bash or the path asks for. */
  method Decide(cwd: string, c: Constraints, call: ToolCall) returns (denial: Option<Denial>)
    ensures denial.None? <==> GuardAllows(cwd, c, call)
    ensures denial == Some(ToolDenied) <==> !Allows(c.tools, call.tool)
    ensures Allows(c.tools, call.tool) && call.tool == "bash" ==> denial == BashDenial(c, EnforcementOf(call))
    ensures Allows(c.tools, call.tool) && call.tool != "bash" && denial.Some? ==> denial == Some(PathOutside)
  {
    denial := None;
    if c.tools.Some? && call.tool !in c.tools.value {
      denial := Some(ToolDenied);
    } else if call.tool == "bash" {
      denial := BashDenial(c, EnforcementOf(call));
    } else {
      var path := ToolPath(cwd, call);
      if path.Some? && c.roots.Some? && !InSome(cwd, c.roots.value, path.value) {
        denial := Some(PathOutside);
      }
    }
  }

  /** A stored effective policy, with the run it was made for. */
  datatype Snapshot = Snapshot(runId: string, constraints: Constraints)

  /** A row of the decision table. */
  datatype Decision = Decision(snapshotId: string, runId: string, tool: string, allowed: bool)

  /** Unchecked is a call that names no snapshot; NoSnapshot is the error for one that is not the run's. */
  datatype Verdict = Unchecked | NoSnapshot | Allowed | Denied(reason: Denial)

  class PersistentToolPolicyGuard {
    const cwd: string
    const snapshots: map<string, Snapshot>
    var decisions: seq<Decision>

    constructor (cwd: string, snapshots: map<string, Snapshot>)
      ensures this.cwd == cwd && this.snapshots == snapshots && decisions == []
    {
      this.cwd, this.snapshots, decisions := cwd, snapshots, [];
    }

    /** Whether the snapshot a call names is there and is its run's. */
    predicate Known(snapshotId: string, runId: string) {
      snapshotId in snapshots && snapshots[snapshotId].runId == runId
    }

    /**
     A call without a snapshot passes unchecked and one with a snapshot of another run is an error; neither
     is recorded. Every other call is decided by its snapshot and recorded once.
     */
    method AssertAllowed(runId: string, snapshotId: Option<string>, call: ToolCall) returns (verdict: Verdict)
      modifies this
      ensures verdict.Unchecked? <==> snapshotId.None?
      ensures verdict.NoSnapshot? <==> snapshotId.Some? && !Known(snapshotId.value, runId)
      ensures verdict.Allowed? <==>
              && snapshotId.Some? && Known(snapshotId.value, runId)
              && GuardAllows(cwd, snapshots[snapshotId.value].constraints, call)
      ensures decisions == if verdict.Unchecked? || verdict.NoSnapshot? then old(decisions)
                           else old(decisions) + [Decision(snapshotId.value, runId, call.tool, verdict.Allowed?)]
    {
      if snapshotId.None? {
        return Unchecked;
      }
      if !Known(snapshotId.value, runId) {
        return NoSnapshot;
      }
      var denial := Decide(cwd, snapshots[snapshotId.value].constraints, call);
      decisions := decisions + [Decision(snapshotId.value, runId, call.tool, denial.None?)];
      verdict := if denial.None? then Allowed else Denied(denial.value);
    }
  }
}
