/**
 Many chat completions at once: handleChatCompletions and tryBackend of src/llm-gateway/llm-gateway.ts
 cut at their awaits, each request a process of its own on one router. Every call of the router goes
 into one log, together with the request that made it.
 */
module Requests {
  import opened Options
  import opened Router
  import opened RouterTheorems
  import opened Fallback
  import Stream
  import StreamTheorems
  import StreamEnds

  /** `next` is the candidate a request is at. */
  datatype Phase =
    | Ready(next: nat)                                  // about to try it
    | Waiting(next: nat)                                // slot taken, fetch under way
    | Replied(next: nat, outcome: Outcome)              // slot returned, reply not yet acted upon
    | Streaming(next: nat, events: seq<Stream.Event>)   // response handed over, the stream decides
    | Served(next: nat)                                 // answered, success recorded
    | Passed(next: nat)                                 // client error passed through
    | GivenUp                                           // every candidate failed, or there was none

  datatype Request = Request(model: string, candidates: seq<string>, phase: Phase)

  /** `caller` is the request that called the router; the health monitor calls it for none. */
  datatype Entry = Entry(caller: Option<nat>, op: Op)

  datatype System = System(requests: map<nat, Request>, log: seq<Entry>)

  const INITIAL := System(map[], [])

  datatype Action =
    | Arrive(r: nat, model: string, now: nat)
    | TakeSlot(r: nat, now: nat)
    | Reply(r: nat, outcome: Outcome, now: nat)
    | Settle(r: nat, now: nat)
    | StreamStep(r: nat, event: Stream.Event, now: nat)
    | Health(id: string, healthy: bool, now: nat)

  function Ops(log: seq<Entry>): (ops: seq<Op>)
    ensures |ops| == |log| && forall i :: 0 <= i < |log| ==> ops[i] == log[i].op
  {
    seq(|log|, i requires 0 <= i < |log| => log[i].op)
  }

  function Routed(c: Config, sys: System): Routing { Run(c, Ops(sys.log)) }

  function Log(sys: System, r: nat, op: Op): System { sys.(log := sys.log + [Entry(Some(r), op)]) }

  function Put(sys: System, r: nat, p: Phase): System
    requires r in sys.requests
  {
    sys.(requests := sys.requests[r := sys.requests[r].(phase := p)])
  }

  predicate InRange(q: Request) {
    match q.phase
    case GivenUp => true
    case _ => q.phase.next < |q.candidates|
  }

  function CurrentOf(q: Request): string
    requires InRange(q) && !q.phase.GivenUp?
  {
    q.candidates[q.phase.next]
  }

  function VerdictOp(id: string, verdict: bool, now: nat): Op { if verdict then Succeeded(id, now) else Failed(id, now) }

  function Next(c: Config, ws: nat -> Stream.Wire, sys: System, a: Action): System {
    if a.Health? then sys.(log := sys.log + [Entry(None, Probed(a.id, a.healthy, a.now))])
    else if a.Arrive? then
      if a.r in sys.requests then sys
      else
        var found := CandidatesFor(c, Routed(c, sys), a.model, a.now).1;
        Log(sys.(requests := sys.requests[a.r := Request(a.model, found, if found == [] then GivenUp else Ready(0))]), a.r,
            Asked(a.model, a.now))
    else if a.r !in sys.requests || !InRange(sys.requests[a.r]) then sys
    else
      var q := sys.requests[a.r];
      match a
      case TakeSlot(r, now) =>
        if q.phase.Ready? then Log(Put(sys, r, Waiting(q.phase.next)), r, Taken(CurrentOf(q), now)) else sys
      case Reply(r, outcome, now) =>
        if q.phase.Waiting? then Log(Put(sys, r, Replied(q.phase.next, outcome)), r, Returned(CurrentOf(q), now)) else sys
      case Settle(r, now) => if q.phase.Replied? then Settled(sys, r, now) else sys
      case StreamStep(r, e, now) => if q.phase.Streaming? then Streamed(ws(r), sys, r, e, now) else sys
  }

  /** What a reply leads to. */
  function Settled(sys: System, r: nat, now: nat): System
    requires r in sys.requests && InRange(sys.requests[r]) && sys.requests[r].phase.Replied?
  {
    var q := sys.requests[r];
    var i := q.phase.next;
    match q.phase.outcome
    case Success(deferred) =>
      if deferred then Put(sys, r, Streaming(i, [])) else Log(Put(sys, r, Served(i)), r, Succeeded(CurrentOf(q), now))
    case ClientError => Put(sys, r, Passed(i))
    case Retryable =>
      Log(Put(sys, r, if i + 1 < |q.candidates| then Ready(i + 1) else GivenUp), r, Failed(CurrentOf(q), now))
  }

  /** An event of a response stream; a verdict it gives is recorded at once. */
  function Streamed(w: Stream.Wire, sys: System, r: nat, e: Stream.Event, now: nat): System
    requires r in sys.requests && InRange(sys.requests[r]) && sys.requests[r].phase.Streaming?
  {
    var q := sys.requests[r];
    var before, after := StreamTheorems.Ran(w, q.phase.events), StreamTheorems.Ran(w, q.phase.events + [e]);
    if before.None? || after.None? then sys
    else
      var moved := Put(sys, r, Streaming(q.phase.next, q.phase.events + [e]));
      var verdicts := after.value.verdicts;
      if |verdicts| == |before.value.verdicts| || verdicts == [] then moved
      else Log(moved, r, VerdictOp(CurrentOf(q), verdicts[|verdicts| - 1], now))
  }

  function After(c: Config, ws: nat -> Stream.Wire, sys: System, actions: seq<Action>): System
    decreases |actions|
  {
    if actions == [] then sys else After(c, ws, Next(c, ws, sys, actions[0]), actions[1..])
  }

  // ---------- slots ----------

  /** The requests between acquire and release on a backend. */
  function Holders(requests: map<nat, Request>, id: string): set<nat> {
    set r | r in requests && requests[r].phase.Waiting? && InRange(requests[r]) && CurrentOf(requests[r]) == id
  }

  ghost predicate Counted(sys: System) {
    && (forall r :: r in sys.requests ==> InRange(sys.requests[r]))
    && forall id :: InFlight(Ops(sys.log), id) == |Holders(sys.requests, id)| && TakenFirst(Ops(sys.log), id)
  }

  predicate HoldsOn(q: Request, id: string) { q.phase.Waiting? && InRange(q) && CurrentOf(q) == id }

  lemma HoldersPut(requests: map<nat, Request>, r: nat, q: Request, id: string)
    ensures Holders(requests[r := q], id) == Holders(requests, id) - {r} + if HoldsOn(q, id) then {r} else {}
    ensures r in Holders(requests, id) <==> r in requests && HoldsOn(requests[r], id)
  {
  }

  lemma OpsSnoc(log: seq<Entry>, e: Entry)
    ensures Ops(log + [e]) == Ops(log) + [e.op]
  {
  }

  function Change(op: Op, id: string): int { if op.Taken? && op.id == id then 1 else if op.Returned? && op.id == id then -1 else 0 }

  lemma InFlightSnoc(trace: seq<Op>, op: Op, id: string)
    ensures InFlight(trace + [op], id) == InFlight(trace, id) + Change(op, id)
    ensures TakenFirst(trace, id) && InFlight(trace + [op], id) >= 0 ==> TakenFirst(trace + [op], id)
  {
    var more := trace + [op];
    assert more[..|trace|] == trace;
    if TakenFirst(trace, id) && InFlight(more, id) >= 0 {
      forall i | 0 <= i <= |more|
        ensures InFlight(more[..i], id) >= 0
      {
        if i <= |trace| {
          assert more[..i] == trace[..i];
        } else {
          assert more[..i] == more;
        }
      }
    }
  }

  /** One request changes, and one call is logged whose effect on the slots is that change. */
  lemma SlotStep(sys: System, r: nat, q: Request, e: Entry)
    requires Counted(sys) && InRange(q)
    requires forall id :: Change(e.op, id) == (if HoldsOn(q, id) then 1 else 0)
                                               - (if r in sys.requests && HoldsOn(sys.requests[r], id) then 1 else 0)
    ensures Counted(System(sys.requests[r := q], sys.log + [e]))
  {
    OpsSnoc(sys.log, e);
    forall id
      ensures InFlight(Ops(sys.log + [e]), id) == |Holders(sys.requests[r := q], id)|
      ensures TakenFirst(Ops(sys.log + [e]), id)
    {
      HoldersPut(sys.requests, r, q, id);
      InFlightSnoc(Ops(sys.log), e.op, id);
      hide Holders, InFlight, TakenFirst, HoldsOn;
    }
  }

  /** A request changes without touching a slot or the log. */
  lemma SilentStep(sys: System, r: nat, q: Request)
    requires Counted(sys) && InRange(q) && r in sys.requests
    requires forall id :: HoldsOn(q, id) == HoldsOn(sys.requests[r], id)
    ensures Counted(sys.(requests := sys.requests[r := q]))
  {
    forall id
      ensures Holders(sys.requests[r := q], id) == Holders(sys.requests, id)
    {
      HoldersPut(sys.requests, r, q, id);
    }
    hide Holders, InFlight, TakenFirst;
  }

  lemma NextCounted(c: Config, ws: nat -> Stream.Wire, sys: System, a: Action)
    requires Counted(sys)
    ensures Counted(Next(c, ws, sys, a))
  {
    hide Counted, CandidatesFor, Run, StreamTheorems.Ran;
    if a.Health? {
      ProbeStep(sys, Entry(None, Probed(a.id, a.healthy, a.now)));
    } else if a.Arrive? {
      if a.r !in sys.requests {
        var found := CandidatesFor(c, Routed(c, sys), a.model, a.now).1;
        SlotStep(sys, a.r, Request(a.model, found, if found == [] then GivenUp else Ready(0)), Entry(Some(a.r), Asked(a.model, a.now)));
      }
    } else if a.r in sys.requests && InRange(sys.requests[a.r]) {
      var q := sys.requests[a.r];
      match a
      case TakeSlot(r, now) =>
        if q.phase.Ready? {
          SlotStep(sys, r, q.(phase := Waiting(q.phase.next)), Entry(Some(r), Taken(CurrentOf(q), now)));
        }
      case Reply(r, outcome, now) =>
        if q.phase.Waiting? {
          SlotStep(sys, r, q.(phase := Replied(q.phase.next, outcome)), Entry(Some(r), Returned(CurrentOf(q), now)));
        }
      case Settle(r, now) => if q.phase.Replied? { SettledCounted(sys, r, now); }
      case StreamStep(r, e, now) => if q.phase.Streaming? { StreamedCounted(ws(r), sys, r, e, now); }
    }
  }

  lemma ProbeStep(sys: System, e: Entry)
    requires Counted(sys) && forall id :: Change(e.op, id) == 0
    ensures Counted(sys.(log := sys.log + [e]))
  {
    OpsSnoc(sys.log, e);
    forall id
      ensures InFlight(Ops(sys.log + [e]), id) == |Holders(sys.requests, id)| && TakenFirst(Ops(sys.log + [e]), id)
    {
      InFlightSnoc(Ops(sys.log), e.op, id);
      hide Holders, InFlight, TakenFirst;
    }
  }

  lemma SettledCounted(sys: System, r: nat, now: nat)
    requires Counted(sys) && r in sys.requests && InRange(sys.requests[r]) && sys.requests[r].phase.Replied?
    ensures Counted(Settled(sys, r, now))
  {
    hide Counted;
    var q := sys.requests[r];
    var i := q.phase.next;
    match q.phase.outcome
    case Success(deferred) =>
      if deferred {
        SilentStep(sys, r, q.(phase := Streaming(i, [])));
      } else {
        SlotStep(sys, r, q.(phase := Served(i)), Entry(Some(r), Succeeded(CurrentOf(q), now)));
      }
    case ClientError => SilentStep(sys, r, q.(phase := Passed(i)));
    case Retryable =>
      SlotStep(sys, r, q.(phase := if i + 1 < |q.candidates| then Ready(i + 1) else GivenUp), Entry(Some(r), Failed(CurrentOf(q), now)));
  }

  lemma StreamedCounted(w: Stream.Wire, sys: System, r: nat, e: Stream.Event, now: nat)
    requires Counted(sys) && r in sys.requests && InRange(sys.requests[r]) && sys.requests[r].phase.Streaming?
    ensures Counted(Streamed(w, sys, r, e, now))
  {
    hide Counted, StreamTheorems.Ran;
    var q := sys.requests[r];
    var q' := q.(phase := Streaming(q.phase.next, q.phase.events + [e]));
    SilentStep(sys, r, q');
    var after := StreamTheorems.Ran(w, q.phase.events + [e]);
    if after.Some? && after.value.verdicts != [] {
      var op := VerdictOp(CurrentOf(q), after.value.verdicts[|after.value.verdicts| - 1], now);
      SlotStep(sys, r, q', Entry(Some(r), op));
    }
  }

  lemma {:induction false} AlwaysCounted(c: Config, ws: nat -> Stream.Wire, sys: System, actions: seq<Action>)
    requires Counted(sys)
    ensures Counted(After(c, ws, sys, actions))
    decreases |actions|
  {
    hide Counted, Next;
    if actions != [] {
      NextCounted(c, ws, sys, actions[0]);
      AlwaysCounted(c, ws, Next(c, ws, sys, actions[0]), actions[1..]);
    }
  }

  lemma InitialCounted()
    ensures Counted(INITIAL)
  {
    forall id
      ensures Holders(map[], id) == {} && InFlight([], id) == 0 && TakenFirst([], id)
    {
      var none: seq<Op> := [];
      assert none[..0] == [];
    }
    assert Ops([]) == [];
    hide Holders, InFlight, TakenFirst;
  }

  function Reached(c: Config, ws: nat -> Stream.Wire, actions: seq<Action>): System { After(c, ws, INITIAL, actions) }

  /**
   However requests overlap, the count of a backend is the number of requests between acquire and
   release on it, no slot is returned before it is taken, and with no request in flight every count is
   zero.
   */
  lemma CountIsRequestsInFlight(c: Config, ws: nat -> Stream.Wire, actions: seq<Action>, id: string)
    requires id in BackendsOf(c)
    ensures var sys := Reached(c, ws, actions);
      && TakenFirst(Ops(sys.log), id)
      && id in Routed(c, sys).backends
      && Routed(c, sys).backends[id].active == |Holders(sys.requests, id)|
      && ((forall r :: r in sys.requests ==> !sys.requests[r].phase.Waiting?) ==> Routed(c, sys).backends[id].active == 0)
  {
    InitialCounted();
    AlwaysCounted(c, ws, INITIAL, actions);
    hide After, Run, TakenFirst, InFlight;
    ActiveIsInFlight(c, Ops(Reached(c, ws, actions).log), id);
    var sys := Reached(c, ws, actions);
    if forall r :: r in sys.requests ==> !sys.requests[r].phase.Waiting? {
      assert Holders(sys.requests, id) == {};
    }
  }

  // ---------- what one request does ----------

  /** The calls of the router that a request has made, without their times. */
  function Own(log: seq<Entry>, r: nat): seq<Op> {
    if log == [] then []
    else
      var last := log[|log| - 1];
      Own(log[..|log| - 1], r) + if last.caller == Some(r) then [Untimed(last.op)] else []
  }

  function Untimed(op: Op): Op {
    match op
    case Asked(model, _) => Asked(model, 0)
    case Succeeded(id, _) => Succeeded(id, 0)
    case Failed(id, _) => Failed(id, 0)
    case Probed(id, healthy, _) => Probed(id, healthy, 0)
    case Taken(id, _) => Taken(id, 0)
    case Returned(id, _) => Returned(id, 0)
  }

  /** The calls for the first n candidates, each tried once and failed once. */
  function Attempts(candidates: seq<string>, n: nat): seq<Op>
    requires n <= |candidates|
  {
    if n == 0 then []
    else
      var id := candidates[n - 1];
      Attempts(candidates, n - 1) + [Taken(id, 0), Returned(id, 0), Failed(id, 0)]
  }

  function VerdictOps(id: string, verdicts: seq<bool>): seq<Op> {
    if verdicts == [] then []
    else VerdictOps(id, verdicts[..|verdicts| - 1]) + [VerdictOp(id, verdicts[|verdicts| - 1], 0)]
  }

  /** The calls a request has made, by its phase. */
  function Expected(w: Stream.Wire, q: Request): seq<Op>
    requires InRange(q)
  {
    [Asked(q.model, 0)] + if q.phase.GivenUp? then Attempts(q.candidates, |q.candidates|)
    else
      var id := CurrentOf(q);
      Attempts(q.candidates, q.phase.next)
      + match q.phase
        case Ready(_) => []
        case Waiting(_) => [Taken(id, 0)]
        case Replied(_, _) => [Taken(id, 0), Returned(id, 0)]
        case Served(_) => [Taken(id, 0), Returned(id, 0), Succeeded(id, 0)]
        case Passed(_) => [Taken(id, 0), Returned(id, 0)]
        case Streaming(_, es) =>
          [Taken(id, 0), Returned(id, 0)] + if StreamTheorems.Ran(w, es).None? then [] else VerdictOps(id, StreamTheorems.Ran(w, es).value.verdicts)
        case GivenUp => []
  }

  predicate StreamRan(w: Stream.Wire, q: Request) {
    q.phase.Streaming? ==> StreamTheorems.Ran(w, q.phase.events).Some?
  }

  ghost predicate AsExpected(ws: nat -> Stream.Wire, sys: System) {
    && (forall r :: r in sys.requests ==>
                      && InRange(sys.requests[r]) && StreamRan(ws(r), sys.requests[r])
                      && Own(sys.log, r) == Expected(ws(r), sys.requests[r]))
    && forall r: nat :: r !in sys.requests ==> Own(sys.log, r) == []
  }

  lemma OwnSnoc(log: seq<Entry>, e: Entry, r: nat)
    ensures Own(log + [e], r) == Own(log, r) + if e.caller == Some(r) then [Untimed(e.op)] else []
  {
    assert (log + [e])[..|log|] == log;
  }

  /** One request makes one call and moves on as the call says. */
  lemma OwnStep(ws: nat -> Stream.Wire, sys: System, r: nat, q: Request, op: Op)
    requires AsExpected(ws, sys) && InRange(q) && StreamRan(ws(r), q)
    requires Expected(ws(r), q) == Own(sys.log, r) + [Untimed(op)]
    ensures AsExpected(ws, System(sys.requests[r := q], sys.log + [Entry(Some(r), op)]))
  {
    hide Expected, StreamRan, InRange, Untimed;
    var e := Entry(Some(r), op);
    forall k: nat
      ensures Own(sys.log + [e], k) == Own(sys.log, k) + if k == r then [Untimed(op)] else []
    {
      OwnSnoc(sys.log, e, k);
      assert Own(sys.log, k) + [] == Own(sys.log, k);
    }
    hide Own;
  }

  lemma OwnSilent(ws: nat -> Stream.Wire, sys: System, r: nat, q: Request)
    requires AsExpected(ws, sys) && r in sys.requests && InRange(q) && StreamRan(ws(r), q)
    requires Expected(ws(r), q) == Expected(ws(r), sys.requests[r])
    ensures AsExpected(ws, sys.(requests := sys.requests[r := q]))
  {
    hide Expected, StreamRan, InRange, Own;
  }

  lemma NextAsExpected(c: Config, ws: nat -> Stream.Wire, sys: System, a: Action)
    requires AsExpected(ws, sys)
    ensures AsExpected(ws, Next(c, ws, sys, a))
  {
    hide CandidatesFor, Run, StreamTheorems.Ran, AsExpected, Own;
    if a.Health? {
      ProbeExpected(ws, sys, Entry(None, Probed(a.id, a.healthy, a.now)));
    } else if a.Arrive? {
      if a.r !in sys.requests {
        var found := CandidatesFor(c, Routed(c, sys), a.model, a.now).1;
        var q := Request(a.model, found, if found == [] then GivenUp else Ready(0));
        Nothing(ws, sys, a.r);
        FirstCall(ws(a.r), q);
        OwnStep(ws, sys, a.r, q, Asked(a.model, a.now));
      }
    } else if a.r in sys.requests && InRange(sys.requests[a.r]) {
      var q := sys.requests[a.r];
      HasOwn(ws, sys, a.r);
      match a
      case TakeSlot(r, now) =>
        if q.phase.Ready? {
          var q' := q.(phase := Waiting(q.phase.next));
          assert Expected(ws(r), q') == Expected(ws(r), q) + [Taken(CurrentOf(q), 0)];
          OwnStep(ws, sys, r, q', Taken(CurrentOf(q), now));
        }
      case Reply(r, outcome, now) =>
        if q.phase.Waiting? {
          var q' := q.(phase := Replied(q.phase.next, outcome));
          assert Expected(ws(r), q') == Expected(ws(r), q) + [Returned(CurrentOf(q), 0)];
          OwnStep(ws, sys, r, q', Returned(CurrentOf(q), now));
        }
      case Settle(r, now) => if q.phase.Replied? { SettledExpected(ws, sys, r, now); }
      case StreamStep(r, e, now) => if q.phase.Streaming? { StreamedExpected(ws, sys, r, e, now); }
    }
  }

  lemma Nothing(ws: nat -> Stream.Wire, sys: System, r: nat)
    requires AsExpected(ws, sys) && r !in sys.requests
    ensures Own(sys.log, r) == []
  {
  }

  lemma HasOwn(ws: nat -> Stream.Wire, sys: System, r: nat)
    requires AsExpected(ws, sys) && r in sys.requests
    ensures InRange(sys.requests[r]) && StreamRan(ws(r), sys.requests[r]) && Own(sys.log, r) == Expected(ws(r), sys.requests[r])
  {
  }

  lemma FirstCall(w: Stream.Wire, q: Request)
    requires q.phase == if q.candidates == [] then GivenUp else Ready(0)
    ensures InRange(q) && Expected(w, q) == [] + [Asked(q.model, 0)]
  {
  }

  lemma ProbeExpected(ws: nat -> Stream.Wire, sys: System, e: Entry)
    requires AsExpected(ws, sys) && e.caller.None?
    ensures AsExpected(ws, sys.(log := sys.log + [e]))
  {
    hide Expected, StreamRan, InRange;
    forall k: nat
      ensures Own(sys.log + [e], k) == Own(sys.log, k)
    {
      OwnSnoc(sys.log, e, k);
      assert Own(sys.log, k) + [] == Own(sys.log, k);
    }
    hide Own;
  }

  lemma SettledExpected(ws: nat -> Stream.Wire, sys: System, r: nat, now: nat)
    requires AsExpected(ws, sys) && r in sys.requests && InRange(sys.requests[r]) && sys.requests[r].phase.Replied?
    ensures AsExpected(ws, Settled(sys, r, now))
  {
    hide AsExpected, Own;
    var q, w := sys.requests[r], ws(r);
    var i, id := q.phase.next, CurrentOf(q);
    HasOwn(ws, sys, r);
    match q.phase.outcome
    case Success(deferred) =>
      if deferred {
        var q' := q.(phase := Streaming(i, []));
        assert Expected(w, q') == Expected(w, q);
        OwnSilent(ws, sys, r, q');
      } else {
        var q' := q.(phase := Served(i));
        assert Expected(w, q') == Expected(w, q) + [Succeeded(id, 0)];
        OwnStep(ws, sys, r, q', Succeeded(id, now));
      }
    case ClientError => OwnSilent(ws, sys, r, q.(phase := Passed(i)));
    case Retryable =>
      var q' := q.(phase := if i + 1 < |q.candidates| then Ready(i + 1) else GivenUp);
      assert Attempts(q.candidates, i + 1) == Attempts(q.candidates, i) + [Taken(id, 0), Returned(id, 0)] + [Failed(id, 0)];
      assert Expected(w, q') == Expected(w, q) + [Failed(id, 0)];
      OwnStep(ws, sys, r, q', Failed(id, now));
  }

  /** An event of a stream adds one verdict at most. */
  lemma VerdictsGrow(w: Stream.Wire, es: seq<Stream.Event>, e: Stream.Event)
    requires StreamTheorems.Ran(w, es + [e]).Some?
    ensures StreamTheorems.Ran(w, es).Some?
    ensures var before, after := StreamTheorems.Ran(w, es).value.verdicts, StreamTheorems.Ran(w, es + [e]).value.verdicts;
      after == before || (|after| == |before| + 1 && after[..|before|] == before)
  {
    assert (es + [e])[..|es|] == es;
    hide Stream.HandleLines, Stream.HandleResidue, Stream.Flush, Stream.CompleteLines, Stream.Residue;
  }

  lemma StreamedExpected(ws: nat -> Stream.Wire, sys: System, r: nat, e: Stream.Event, now: nat)
    requires AsExpected(ws, sys) && r in sys.requests && InRange(sys.requests[r]) && sys.requests[r].phase.Streaming?
    ensures AsExpected(ws, Streamed(ws(r), sys, r, e, now))
  {
    hide AsExpected, Own, StreamTheorems.Ran;
    var q, w := sys.requests[r], ws(r);
    var es, id := q.phase.events, CurrentOf(q);
    HasOwn(ws, sys, r);
    if StreamTheorems.Ran(w, es + [e]).Some? {
      VerdictsGrow(w, es, e);
      var before, after := StreamTheorems.Ran(w, es).value.verdicts, StreamTheorems.Ran(w, es + [e]).value.verdicts;
      var q' := q.(phase := Streaming(q.phase.next, es + [e]));
      if after == before {
        assert Expected(w, q') == Expected(w, q);
        OwnSilent(ws, sys, r, q');
      } else {
        var v := after[|after| - 1];
        assert VerdictOps(id, after) == VerdictOps(id, before) + [VerdictOp(id, v, 0)];
        assert Expected(w, q') == Expected(w, q) + [VerdictOp(id, v, 0)];
        OwnStep(ws, sys, r, q', VerdictOp(id, v, now));
      }
    }
  }

  lemma {:induction false} AlwaysAsExpected(c: Config, ws: nat -> Stream.Wire, sys: System, actions: seq<Action>)
    requires AsExpected(ws, sys)
    ensures AsExpected(ws, After(c, ws, sys, actions))
    decreases |actions|
  {
    hide AsExpected, Next;
    if actions != [] {
      NextAsExpected(c, ws, sys, actions[0]);
      AlwaysAsExpected(c, ws, Next(c, ws, sys, actions[0]), actions[1..]);
    }
  }

  /**
   Under any overlap with other requests, the calls a request makes are: one question for candidates;
   slot, return and one failure for each candidate it has left behind, in order and each once; and for
   the candidate it is at only what its phase says. A client error records nothing, a plain success one
   success.
   */
  lemma EveryRequestInOrder(c: Config, ws: nat -> Stream.Wire, actions: seq<Action>, r: nat)
    requires r in Reached(c, ws, actions).requests
    ensures var sys := Reached(c, ws, actions);
      InRange(sys.requests[r]) && Own(sys.log, r) == Expected(ws(r), sys.requests[r])
  {
    assert AsExpected(ws, INITIAL);
    hide Expected, Own, After;
    AlwaysAsExpected(c, ws, INITIAL, actions);
  }

  /**
   A request whose stream has ended uncancelled has recorded, whatever other requests did in between,
   exactly its stream's verdict: success if the text finished and failure if not, twice if the text ends
   loose and once otherwise.
   */
  lemma EveryStreamJudged(c: Config, ws: nat -> Stream.Wire, actions: seq<Action>, r: nat)
    requires r in Reached(c, ws, actions).requests && Reached(c, ws, actions).requests[r].phase.Streaming?
    requires var es := Reached(c, ws, actions).requests[r].phase.events;
      StreamTheorems.Ran(ws(r), es).Some? && Stream.Cancel !in es && StreamTheorems.Ran(ws(r), es).value.status.Closed?
    ensures var sys := Reached(c, ws, actions);
      var q, text := sys.requests[r], StreamTheorems.Consumed(sys.requests[r].phase.events);
      && InRange(q)
      && var verdict := VerdictOp(CurrentOf(q), StreamTheorems.Final(ws(r), text).finished, 0);
      Own(sys.log, r)
      == [Asked(q.model, 0)] + Attempts(q.candidates, q.phase.next)
         + [Taken(CurrentOf(q), 0), Returned(CurrentOf(q), 0)]
         + if StreamEnds.EndsLoose(ws(r), text) then [verdict, verdict] else [verdict]
  {
    var sys := Reached(c, ws, actions);
    var q := sys.requests[r];
    var es, w := q.phase.events, ws(r);
    EveryRequestInOrder(c, ws, actions, r);
    StreamEnds.VerdictsCounted(w, es);
    hide StreamTheorems.Ran, StreamTheorems.Final, StreamTheorems.Consumed, StreamEnds.EndsLoose, Own, After;
    var v := StreamTheorems.Final(w, StreamTheorems.Consumed(es)).finished;
    OneOrTwo(CurrentOf(q), v);
    Regrouped([Asked(q.model, 0)], Attempts(q.candidates, q.phase.next), [Taken(CurrentOf(q), 0), Returned(CurrentOf(q), 0)],
              VerdictOps(CurrentOf(q), StreamTheorems.Ran(w, es).value.verdicts));
  }

  lemma OneOrTwo(id: string, v: bool)
    ensures VerdictOps(id, [v]) == [VerdictOp(id, v, 0)] && VerdictOps(id, [v, v]) == [VerdictOp(id, v, 0), VerdictOp(id, v, 0)]
  {
    assert [v][..0] == [] && [v, v][..1] == [v];
  }

  lemma Regrouped(a: seq<Op>, b: seq<Op>, d: seq<Op>, e: seq<Op>)
    ensures a + (b + (d + e)) == a + b + d + e
  {
  }

  /** A success leaves a breaker closed until the next failure of that backend, whoever causes it. */
  lemma {:induction false} SuccessHolds(c: Config, before: seq<Op>, id: string, now: nat, more: seq<Op>, later: nat)
    requires id in BackendsOf(c) && id in Run(c, before).backends && forall i, t :: 0 <= i < |more| ==> more[i] != Failed(id, t)
    ensures var s := Run(c, before + [Succeeded(id, now)] + more);
      id in s.backends && s.backends[id].failures == 0 && s.backends[id].openUntil == 0 && !IsOpen(s.backends[id], later)
    decreases |more|
  {
    var all := before + [Succeeded(id, now)] + more;
    if more == [] {
      assert all[..|all| - 1] == before && all[|all| - 1] == Succeeded(id, now);
    } else {
      var rest, op := more[..|more| - 1], more[|more| - 1];
      assert all[..|all| - 1] == before + [Succeeded(id, now)] + rest && all[|all| - 1] == op;
      SuccessHolds(c, before, id, now, rest, later);
      if op.Asked? {
        ResetAllEffect(Run(c, before + [Succeeded(id, now)] + rest), ListOf(c, op.model), op.now);
      }
      assert op.Failed? ==> op.id != id by { if op.Failed? { assert op == Failed(op.id, op.now); } }
      hide ResetAll, Pool, Rotated, ByActivity;
    }
  }
}
