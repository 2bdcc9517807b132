/**
 The second verdict of a stream that ends loose, among the calls of other requests: handleEnd of
 src/llm-gateway/llm-gateway.ts runs again at the next pull, and that pull may come late.
 */
module LateVerdicts {
  import opened Options
  import opened Router
  import opened RouterTheorems
  import opened Fallback
  import opened Requests
  import Stream
  import StreamTheorems
  import StreamEnds
  import Tracker

  // ---------- what a success leaves of the history ----------

  /** To the breaker a success erases all that came before it. */
  lemma {:induction false} SuccessForgets(before: seq<Op>, id: string, t: nat, more: seq<Op>)
    ensures FailuresSince(before + [Succeeded(id, t)] + more, id) == FailuresSince(more, id)
    ensures LastFailure(before + [Succeeded(id, t)] + more, id) == LastFailure(more, id)
    decreases |more|
  {
    var all := before + [Succeeded(id, t)] + more;
    if more == [] {
      assert all[..|all| - 1] == before && all[|all| - 1] == Succeeded(id, t);
    } else {
      var rest := more[..|more| - 1];
      assert all[..|all| - 1] == before + [Succeeded(id, t)] + rest && all[|all| - 1] == more[|more| - 1];
      SuccessForgets(before, id, t, rest);
    }
  }

  /** A later success closes a breaker exactly when the calls since the earlier one leave it open. */
  lemma SuccessClosesIff(c: Config, before: seq<Op>, id: string, t1: nat, between: seq<Op>, t2: nat, later: nat)
    requires id in BackendsOf(c) && Monotone(before + [Succeeded(id, t1)] + between + [Succeeded(id, t2)])
    ensures var at, after := Run(c, before + [Succeeded(id, t1)] + between),
                             Run(c, before + [Succeeded(id, t1)] + between + [Succeeded(id, t2)]);
      && id in at.backends && id in after.backends
      && (IsOpen(at.backends[id], t2) <==> CircuitOpen(c, between, id, t2))
      && after.backends[id].failures == 0 && !IsOpen(after.backends[id], later)
  {
    var trace := before + [Succeeded(id, t1)] + between;
    var more := trace + [Succeeded(id, t2)];
    forall i, j | 0 <= i < j < |trace|
      ensures trace[i].now <= trace[j].now
    {
      assert more[i] == trace[i] && more[j] == trace[j];
    }
    assert more[|trace| - 1].now <= more[|trace|].now;
    BreakerRefinesHistory(c, trace, id, t2);
    SuccessForgets(before, id, t1, between);
    SuccessHolds(c, trace, id, t2, [], later);
    assert more + [] == more;
    hide Run;
  }

  // ---------- where the calls of a request stand in the log ----------

  /** The last call of a request: what came before it, and nothing of that request after it. */
  lemma {:induction false} LastOwn(log: seq<Entry>, r: nat, a: seq<Op>, x: Op) returns (j: nat)
    requires Own(log, r) == a + [x]
    ensures j < |log| && log[j].caller == Some(r) && Untimed(log[j].op) == x && Own(log[..j], r) == a
    ensures forall k :: j < k < |log| ==> log[k].caller != Some(r)
    decreases |log|
  {
    var rest, last := log[..|log| - 1], log[|log| - 1];
    if last.caller == Some(r) {
      j := |log| - 1;
      assert (a + [x])[..|a|] == a && (Own(rest, r) + [Untimed(last.op)])[..|Own(rest, r)|] == Own(rest, r);
      assert (a + [x])[|a|] == x;
    } else {
      assert Own(rest, r) + [] == Own(rest, r);
      j := LastOwn(rest, r, a, x);
      assert rest[..j] == log[..j];
    }
  }

  // ---------- candidates are backends ----------

  ghost predicate AllBackends(c: Config, sys: System) {
    forall r, i :: r in sys.requests && 0 <= i < |sys.requests[r].candidates| ==> sys.requests[r].candidates[i] in BackendsOf(c)
  }

  lemma CandidateIsListed(c: Config, s: Routing, model: string, now: nat, i: nat)
    requires i < |CandidatesFor(c, s, model, now).1|
    ensures CandidatesFor(c, s, model, now).1[i] in BackendsOf(c)
  {
    hide ResetAll, Closed, Healthy, Ordered;
    var ids, found := ListOf(c, model), CandidatesFor(c, s, model, now).1;
    OrderedPermutes(c, ResetAll(s, ids, now), model, Pool(s, ids, now));
    assert found[i] in multiset(found);
    HealthyCounts(s, Closed(s, ids, now), found[i]);
    ClosedCounts(s, ids, now, found[i]);
    assert found[i] in multiset(ids);
    var k :| 0 <= k < |ids| && ids[k] == found[i];
    ListedIsBackend(c, model, k);
  }

  lemma NextAllBackends(c: Config, ws: nat -> Stream.Wire, sys: System, a: Action)
    requires AllBackends(c, sys)
    ensures AllBackends(c, Next(c, ws, sys, a))
  {
    hide CandidatesFor, Run, BackendsOf, StreamTheorems.Ran;
    if a.Arrive? {
      forall i: nat | i < |CandidatesFor(c, Routed(c, sys), a.model, a.now).1|
        ensures CandidatesFor(c, Routed(c, sys), a.model, a.now).1[i] in BackendsOf(c)
      {
        CandidateIsListed(c, Routed(c, sys), a.model, a.now, i);
      }
    }
  }

  lemma {:induction false} AlwaysAllBackends(c: Config, ws: nat -> Stream.Wire, sys: System, actions: seq<Action>)
    requires AllBackends(c, sys)
    ensures AllBackends(c, After(c, ws, sys, actions))
    decreases |actions|
  {
    hide AllBackends, Next;
    if actions != [] {
      NextAllBackends(c, ws, sys, actions[0]);
      AlwaysAllBackends(c, ws, Next(c, ws, sys, actions[0]), actions[1..]);
    }
  }

  // ---------- the second success ----------

  predicate EndedLooseAndWell(w: Stream.Wire, q: Request) {
    && q.phase.Streaming? && Stream.Cancel !in q.phase.events
    && StreamTheorems.Ran(w, q.phase.events).Some? && StreamTheorems.Ran(w, q.phase.events).value.status.Closed?
    && StreamTheorems.Final(w, StreamTheorems.Consumed(q.phase.events)).finished
    && StreamEnds.EndsLoose(w, StreamTheorems.Consumed(q.phase.events))
  }

  /** Calls i and j of the log are the two last of request r, successes of one backend, and nothing of r stands between or after. */
  predicate TwoSuccesses(log: seq<Entry>, r: nat, id: string, i: nat, j: nat) {
    && i < j < |log| && log[i] == Entry(Some(r), Succeeded(id, log[i].op.now)) && log[j] == Entry(Some(r), Succeeded(id, log[j].op.now))
    && forall k :: i < k < |log| && k != j ==> log[k].caller != Some(r)
  }

  lemma LastTwo(log: seq<Entry>, r: nat, a: seq<Op>, id: string) returns (i: nat, j: nat)
    requires Own(log, r) == a + [Succeeded(id, 0), Succeeded(id, 0)]
    ensures TwoSuccesses(log, r, id, i, j)
  {
    hide Own;
    assert a + [Succeeded(id, 0), Succeeded(id, 0)] == (a + [Succeeded(id, 0)]) + [Succeeded(id, 0)];
    j := LastOwn(log, r, a + [Succeeded(id, 0)], Succeeded(id, 0));
    i := LastOwn(log[..j], r, a, Succeeded(id, 0));
    assert forall k :: 0 <= k < j ==> log[..j][k] == log[k];
  }

  /**
   A finished stream that ends loose records its success twice, and other requests may call the router
   in between. The second success closes a breaker exactly when the calls between the two, all of them
   of others, have opened it: they hold as many failures as the threshold since any success of their
   own, the last less than the cooldown before. Open or not, the breaker is closed afterwards.
   */
  lemma SecondSuccessClosesIff(c: Config, ws: nat -> Stream.Wire, actions: seq<Action>, r: nat, later: nat) returns (i: nat, j: nat)
    requires r in Reached(c, ws, actions).requests && EndedLooseAndWell(ws(r), Reached(c, ws, actions).requests[r])
    requires Monotone(Ops(Reached(c, ws, actions).log))
    ensures var sys := Reached(c, ws, actions);
      && InRange(sys.requests[r])
      && var id, log := CurrentOf(sys.requests[r]), sys.log;
      && TwoSuccesses(log, r, id, i, j)
      && var at, after := Run(c, Ops(log[..j])), Run(c, Ops(log[..j + 1]));
      && id in at.backends && id in after.backends
      && (IsOpen(at.backends[id], log[j].op.now) <==> CircuitOpen(c, Ops(log[i + 1..j]), id, log[j].op.now))
      && after.backends[id].failures == 0 && !IsOpen(after.backends[id], later)
  {
    var sys := Reached(c, ws, actions);
    var q, log := sys.requests[r], sys.log;
    hide Own, After, Run, StreamTheorems.Ran, StreamTheorems.Final, StreamTheorems.Consumed, StreamEnds.EndsLoose, CircuitOpen, BackendsOf, Ops;
    EveryStreamJudged(c, ws, actions, r);
    AlwaysAllBackends(c, ws, INITIAL, actions);
    var id := CurrentOf(q);
    i, j := LastTwo(log, r, [Asked(q.model, 0)] + Attempts(q.candidates, q.phase.next) + [Taken(id, 0), Returned(id, 0)], id);
    LogSplits(log, i, j);
    MonotonePart(Ops(log), j + 1);
    SuccessClosesIff(c, Ops(log[..i]), id, log[i].op.now, Ops(log[i + 1..j]), log[j].op.now, later);
  }

  lemma LogSplits(log: seq<Entry>, i: nat, j: nat)
    requires i < j < |log|
    ensures Ops(log[..j]) == Ops(log[..i]) + [log[i].op] + Ops(log[i + 1..j])
    ensures Ops(log[..j + 1]) == Ops(log[..i]) + [log[i].op] + Ops(log[i + 1..j]) + [log[j].op]
    ensures Ops(log[..j + 1]) == Ops(log)[..j + 1]
  {
  }

  lemma MonotonePart(trace: seq<Op>, n: nat)
    requires Monotone(trace) && n <= |trace|
    ensures Monotone(trace[..n])
  {
  }

  // ---------- it happens ----------

  const ONE := Config(map["m" := ["b"]], Priority, 1, 1000)

  function Handled(line: string): Stream.Lines {
    Stream.NO_LINES.(finished := true, holding := true, flushed := true, out := [line + "\n"])
  }

  lemma DoneIsHandled(w: Stream.Wire, line: string)
    requires StreamEnds.Line(line) && StreamTheorems.KindOf(w, line).DoneLine?
    ensures Stream.HandleResidue(w, Stream.NO_LINES, line) == Handled(line)
  {
    assert Tracker.RepairsOf(Tracker.NO_ENTRIES) == [];
    assert Stream.RepairItems(w, [], Stream.NO_LINES.meta) == [];
    assert [] + [line] == [line] && Stream.Terminated([]) == [] && Stream.Terminated([line]) == [line + "\n"];
    assert [] + [] + [line + "\n"] == [line + "\n"];
    hide Stream.Trim, Stream.DataOf, Tracker.RepairsOf, Stream.RepairItems, Stream.Terminated;
  }

  /** The stream after the first read, after the end is reported, after the pull that follows, and after the end again. */
  function Held(line: string): Stream.State { Stream.INITIAL.(waiting := true, buffer := line) }

  function Judged(line: string): Stream.State {
    Stream.INITIAL.(lines := Handled(line), taken := 1, delivered := [line + "\n"], ended := true, verdicts := [true])
  }

  function Pulled(line: string): Stream.State { Judged(line).(waiting := true) }

  function Ended(line: string): Stream.State { Judged(line).(status := Stream.Closed, verdicts := [true, true]) }

  /** A [DONE] without its newline: judged at the end of the upstream, and again at the pull after it. */
  lemma DoneIsJudgedTwice(w: Stream.Wire, line: string)
    requires StreamEnds.Line(line) && StreamTheorems.KindOf(w, line).DoneLine?
    ensures Stream.Next(w, Stream.INITIAL, Stream.Pull) == Stream.INITIAL.(waiting := true)
    ensures Stream.Next(w, Stream.INITIAL.(waiting := true), Stream.ReadChunk(line)) == Held(line)
    ensures Stream.Sound(Held(line)) && Stream.Next(w, Held(line), Stream.ReadDone) == Judged(line)
    ensures Stream.Sound(Judged(line)) && Stream.Next(w, Judged(line), Stream.Pull) == Pulled(line)
    ensures Stream.Sound(Pulled(line)) && Stream.Next(w, Pulled(line), Stream.ReadDone) == Ended(line)
  {
    hide Stream.Trim, Stream.DataOf, Tracker.RepairsOf, Stream.RepairItems, Stream.Terminated;
    StreamEnds.OneLineText(line);
    StreamEnds.TrimNothing();
    DoneIsHandled(w, line);
    assert "" + line == line;
    assert [] + [line + "\n"] == [line + "\n"];
    assert [true] + [true] == [true, true];
  }

  function Pair(first: Phase, second: Phase, log: seq<Entry>): System {
    System(map[0 := Request("m", ["b"], first), 1 := Request("m", ["b"], second)], log)
  }

  const TRIED: seq<Entry> :=
    [Entry(Some(0), Asked("m", 1)), Entry(Some(1), Asked("m", 1)), Entry(Some(0), Taken("b", 1)), Entry(Some(1), Taken("b", 1)),
     Entry(Some(0), Returned("b", 1)), Entry(Some(1), Returned("b", 1))]

  lemma {:induction false} OneMoreAction(c: Config, ws: nat -> Stream.Wire, sys: System, actions: seq<Action>, a: Action)
    ensures After(c, ws, sys, actions + [a]) == Next(c, ws, After(c, ws, sys, actions), a)
    decreases |actions|
  {
    hide Next;
    if actions == [] {
      assert [] + [a] == [a] && [a][1..] == [];
      assert After(c, ws, sys, [a]) == After(c, ws, Next(c, ws, sys, a), []);
    } else {
      assert (actions + [a])[0] == actions[0] && (actions + [a])[1..] == actions[1..] + [a];
      OneMoreAction(c, ws, Next(c, ws, sys, actions[0]), actions[1..], a);
    }
  }

  lemma Then(ws: nat -> Stream.Wire, actions: seq<Action>, a: Action) returns (more: seq<Action>)
    ensures more == actions + [a] && Reached(ONE, ws, more) == Next(ONE, ws, Reached(ONE, ws, actions), a)
  {
    hide Next;
    more := actions + [a];
    OneMoreAction(ONE, ws, INITIAL, actions, a);
  }

  lemma OneCandidate(s: Routing)
    requires "b" in s.backends && s.backends["b"].openUntil == 0
    ensures CandidatesFor(ONE, s, "m", 1) == (s, ["b"])
  {
    var ids := ListOf(ONE, "m");
    assert ids == ["b"] && ids[..0] == [] && ids[0] == "b";
    assert [] + ["b"] == ["b"];
    assert Closed(s, ids, 1) == ["b"];
    assert Healthy(s, []) == [];
    assert ResetAll(s, [], 1) == s;
    assert ResetAll(s, ids, 1) == s;
  }

  lemma Arrives(ws: nat -> Stream.Wire)
    ensures Next(ONE, ws, INITIAL, Arrive(0, "m", 1))
            == System(map[0 := Request("m", ["b"], Ready(0))], TRIED[..1])
    ensures Next(ONE, ws, Next(ONE, ws, INITIAL, Arrive(0, "m", 1)), Arrive(1, "m", 1)) == Pair(Ready(0), Ready(0), TRIED[..2])
  {
    assert "b" in BackendsOf(ONE) by { ListedIsBackend(ONE, "m", 0); }
    assert Run(ONE, []) == Start(ONE);
    OneCandidate(Start(ONE));
    assert Run(ONE, [Asked("m", 1)]) == Start(ONE);
    assert Ops([]) == [] && Ops(TRIED[..1]) == [Asked("m", 1)];
    assert TRIED[..1] == [] + [TRIED[0]] && TRIED[..2] == TRIED[..1] + [TRIED[1]];
    hide Run, CandidatesFor, Start;
  }

  lemma BothTakeSlots(ws: nat -> Stream.Wire)
    ensures Next(ONE, ws, Pair(Ready(0), Ready(0), TRIED[..2]), TakeSlot(0, 1)) == Pair(Waiting(0), Ready(0), TRIED[..3])
    ensures Next(ONE, ws, Pair(Waiting(0), Ready(0), TRIED[..3]), TakeSlot(1, 1)) == Pair(Waiting(0), Waiting(0), TRIED[..4])
  {
    hide CandidatesFor, Run, Ops, Streamed, Settled;
    assert TRIED[..3] == TRIED[..2] + [TRIED[2]] && TRIED[..4] == TRIED[..3] + [TRIED[3]];
  }

  lemma BothReply(ws: nat -> Stream.Wire)
    ensures Next(ONE, ws, Pair(Waiting(0), Waiting(0), TRIED[..4]), Requests.Action.Reply(0, Success(true), 1))
            == Pair(Replied(0, Success(true)), Waiting(0), TRIED[..5])
    ensures Next(ONE, ws, Pair(Replied(0, Success(true)), Waiting(0), TRIED[..5]), Requests.Action.Reply(1, Retryable, 1))
            == Pair(Replied(0, Success(true)), Replied(0, Retryable), TRIED)
  {
    hide CandidatesFor, Run, Ops, Streamed, Settled;
    assert TRIED[..5] == TRIED[..4] + [TRIED[4]] && TRIED[..5] + [TRIED[5]] == TRIED;
  }

  lemma FirstSettles(ws: nat -> Stream.Wire)
    ensures Next(ONE, ws, Pair(Replied(0, Success(true)), Replied(0, Retryable), TRIED), Settle(0, 1))
            == Pair(Streaming(0, []), Replied(0, Retryable), TRIED)
  {
    hide CandidatesFor, Run, Ops, Streamed;
  }

  lemma StepIsStreamed(ws: nat -> Stream.Wire, es: seq<Stream.Event>, e: Stream.Event, second: Phase, log: seq<Entry>, now: nat)
    ensures Next(ONE, ws, Pair(Streaming(0, es), second, log), StreamStep(0, e, now))
            == Streamed(ws(0), Pair(Streaming(0, es), second, log), 0, e, now)
  {
    hide CandidatesFor, Run, Ops, Settled, Streamed;
  }

  lemma MovedPair(es: seq<Stream.Event>, more: seq<Stream.Event>, second: Phase, log: seq<Entry>)
    ensures Put(Pair(Streaming(0, es), second, log), 0, Streaming(0, more)) == Pair(Streaming(0, more), second, log)
    ensures CurrentOf(Pair(Streaming(0, es), second, log).requests[0]) == "b"
  {
  }

  /** An event of a stream, by the verdict it gives if any. */
  lemma StreamedGives(w: Stream.Wire, sys: System, r: nat, e: Stream.Event, now: nat, more: seq<bool>)
    requires r in sys.requests && InRange(sys.requests[r]) && sys.requests[r].phase.Streaming?
    requires var es := sys.requests[r].phase.events;
      && StreamTheorems.Ran(w, es).Some? && Stream.Enabled(StreamTheorems.Ran(w, es).value, e)
      && Stream.Next(w, StreamTheorems.Ran(w, es).value, e).verdicts == StreamTheorems.Ran(w, es).value.verdicts + more
    requires more == [] || more == [true]
    ensures var q := sys.requests[r];
      var moved := Put(sys, r, Streaming(q.phase.next, q.phase.events + [e]));
      Streamed(w, sys, r, e, now) == if more == [] then moved else Log(moved, r, Succeeded(CurrentOf(q), now))
  {
    hide StreamTheorems.Ran, Stream.Next, Stream.Enabled, Put, CurrentOf;
    var es := sys.requests[r].phase.events;
    StreamEnds.OneMoreEvent(w, es, e);
    var verdicts := StreamTheorems.Ran(w, es).value.verdicts;
    assert verdicts + [] == verdicts && (verdicts + [true])[|verdicts|] == true;
  }

  /** An event of the stream of request 0, whatever the other request is at. */
  lemma StreamMoves(ws: nat -> Stream.Wire, es: seq<Stream.Event>, e: Stream.Event, second: Phase, log: seq<Entry>, now: nat, more: seq<bool>)
    requires StreamTheorems.Ran(ws(0), es).Some? && Stream.Enabled(StreamTheorems.Ran(ws(0), es).value, e)
    requires Stream.Next(ws(0), StreamTheorems.Ran(ws(0), es).value, e).verdicts == StreamTheorems.Ran(ws(0), es).value.verdicts + more
    requires more == [] || more == [true]
    ensures StreamTheorems.Ran(ws(0), es + [e]) == Some(Stream.Next(ws(0), StreamTheorems.Ran(ws(0), es).value, e))
    ensures Next(ONE, ws, Pair(Streaming(0, es), second, log), StreamStep(0, e, now))
            == Pair(Streaming(0, es + [e]), second, log + if more == [] then [] else [Entry(Some(0), Succeeded("b", now))])
  {
    hide StreamTheorems.Ran, Stream.Next, Stream.Enabled, Next, Streamed, Put, CurrentOf;
    StreamEnds.OneMoreEvent(ws(0), es, e);
    assert log + [] == log;
    StepIsStreamed(ws, es, e, second, log, now);
    MovedPair(es, es + [e], second, log);
    StreamedGives(ws(0), Pair(Streaming(0, es), second, log), 0, e, now, more);
  }

  lemma Streams(ws: nat -> Stream.Wire, actions: seq<Action>, es: seq<Stream.Event>, e: Stream.Event, second: Phase, log: seq<Entry>,
                now: nat, more: seq<bool>) returns (moved: seq<Action>)
    requires Reached(ONE, ws, actions) == Pair(Streaming(0, es), second, log)
    requires StreamTheorems.Ran(ws(0), es).Some? && Stream.Enabled(StreamTheorems.Ran(ws(0), es).value, e)
    requires Stream.Next(ws(0), StreamTheorems.Ran(ws(0), es).value, e).verdicts == StreamTheorems.Ran(ws(0), es).value.verdicts + more
    requires more == [] || more == [true]
    ensures StreamTheorems.Ran(ws(0), es + [e]) == Some(Stream.Next(ws(0), StreamTheorems.Ran(ws(0), es).value, e))
    ensures moved == actions + [StreamStep(0, e, now)]
    ensures Reached(ONE, ws, moved)
            == Pair(Streaming(0, es + [e]), second, log + if more == [] then [] else [Entry(Some(0), Succeeded("b", now))])
  {
    hide Next, After, StreamTheorems.Ran, Stream.Next, Stream.Enabled, Pair;
    StreamMoves(ws, es, e, second, log, now, more);
    moved := Then(ws, actions, StreamStep(0, e, now));
  }

  lemma ToTheStream(ws: nat -> Stream.Wire) returns (actions: seq<Action>)
    ensures Reached(ONE, ws, actions) == Pair(Streaming(0, []), Replied(0, Retryable), TRIED)
  {
    hide Next, After, Pair;
    Arrives(ws);
    BothTakeSlots(ws);
    BothReply(ws);
    FirstSettles(ws);
    assert Reached(ONE, ws, []) == INITIAL by { NoActions(ws); }
    actions := Then(ws, [], Arrive(0, "m", 1));
    actions := Then(ws, actions, Arrive(1, "m", 1));
    actions := Then(ws, actions, TakeSlot(0, 1));
    actions := Then(ws, actions, TakeSlot(1, 1));
    actions := Then(ws, actions, Requests.Action.Reply(0, Success(true), 1));
    actions := Then(ws, actions, Requests.Action.Reply(1, Retryable, 1));
    actions := Then(ws, actions, Settle(0, 1));
  }

  lemma NoActions(ws: nat -> Stream.Wire)
    ensures Reached(ONE, ws, []) == INITIAL
  {
  }

  lemma OtherFails(ws: nat -> Stream.Wire, es: seq<Stream.Event>, log: seq<Entry>)
    ensures Next(ONE, ws, Pair(Streaming(0, es), Replied(0, Retryable), log), Settle(1, 2))
            == Pair(Streaming(0, es), GivenUp, log + [Entry(Some(1), Failed("b", 2))])
  {
    hide CandidatesFor, Run, Ops, Streamed;
  }

  const TO_JUDGED: seq<Entry> := TRIED + [Entry(Some(0), Succeeded("b", 1))]
  const TO_FAILED: seq<Entry> := TO_JUDGED + [Entry(Some(1), Failed("b", 2))]
  const TO_CLOSED: seq<Entry> := TO_FAILED + [Entry(Some(0), Succeeded("b", 3))]

  lemma Opened()
    ensures var before, after := Run(ONE, Ops(TO_FAILED)), Run(ONE, Ops(TO_CLOSED));
      && "b" in before.backends && IsOpen(before.backends["b"], 3)
      && "b" in after.backends && !IsOpen(after.backends["b"], 3)
  {
    assert "b" in BackendsOf(ONE) by { ListedIsBackend(ONE, "m", 0); }
    var between := [Failed("b", 2)];
    assert between[..0] == [];
    assert CircuitOpen(ONE, between, "b", 3);
    assert Ops(TO_FAILED) == Ops(TRIED) + [Succeeded("b", 1)] + between;
    assert Ops(TO_CLOSED) == Ops(TRIED) + [Succeeded("b", 1)] + between + [Succeeded("b", 3)];
    SuccessClosesIff(ONE, Ops(TRIED), "b", 1, between, 3, 3);
    hide Run, CircuitOpen, IsOpen;
  }

  /**
   Two requests on one backend, threshold one. The stream of the first has recorded its success and
   waits for the next pull; the second request fails and opens the breaker; the pull comes, finds the
   upstream at its end and closes the breaker.
   */
  lemma SecondSuccessClosesOpened(ws: nat -> Stream.Wire) returns (actions: seq<Action>, last: Action)
    ensures var before, after := Reached(ONE, ws, actions), Reached(ONE, ws, actions + [last]);
      && 0 in after.requests && EndedLooseAndWell(ws(0), after.requests[0])
      && "b" in Routed(ONE, before).backends && IsOpen(Routed(ONE, before).backends["b"], last.now)
      && "b" in Routed(ONE, after).backends && !IsOpen(Routed(ONE, after).backends["b"], last.now)
  {
    hide Next, After, Run, Ops, IsOpen, Stream.Next, StreamTheorems.Ran, StreamTheorems.KindOf, StreamEnds.Line, Handled;
    var w, line := ws(0), "data:[DONE]";
    StreamEnds.LinesOfBothKinds(w);
    DoneIsJudgedTwice(w, line);
    NothingRan(w);
    actions := ToTheStream(ws);
    actions := Streams(ws, actions, [], Stream.Pull, Replied(0, Retryable), TRIED, 1, []);
    var es := [] + [Stream.Pull];
    actions := Streams(ws, actions, es, Stream.ReadChunk(line), Replied(0, Retryable), TRIED, 1, []);
    es := es + [Stream.ReadChunk(line)];
    actions := Streams(ws, actions, es, Stream.ReadDone, Replied(0, Retryable), TRIED, 1, [true]);
    es := es + [Stream.ReadDone];
    OtherFails(ws, es, TO_JUDGED);
    actions := Then(ws, actions, Settle(1, 2));
    actions := Streams(ws, actions, es, Stream.Pull, GivenUp, TO_FAILED, 3, []);
    es := es + [Stream.Pull];
    last := StreamStep(0, Stream.ReadDone, 3);
    ghost var closed := Streams(ws, actions, es, Stream.ReadDone, GivenUp, TO_FAILED, 3, [true]);
    es := es + [Stream.ReadDone];
    Opened();
    LooseAndWell(w, es, line);
  }

  lemma NothingRan(w: Stream.Wire)
    ensures StreamTheorems.Ran(w, []) == Some(Stream.INITIAL)
  {
  }

  lemma LooseAndWell(w: Stream.Wire, es: seq<Stream.Event>, line: string)
    requires StreamTheorems.Ran(w, es) == Some(Ended(line)) && Stream.Cancel !in es
    ensures EndedLooseAndWell(w, Request("m", ["b"], Streaming(0, es)))
  {
    hide StreamTheorems.Ran, StreamTheorems.Final, StreamTheorems.Consumed, StreamEnds.EndsLoose;
    StreamEnds.VerdictsCounted(w, es);
    var verdicts := StreamTheorems.Ran(w, es).value.verdicts;
    assert verdicts[0] == true && |verdicts| == 2;
  }
}
