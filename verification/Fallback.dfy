/**
 The candidate loop of handleChatCompletions and tryBackend in src/llm-gateway/llm-gateway.ts, and the
 verdicts a deferred stream gives its backend later.
 */
module Fallback {
  import opened Options
  import opened Router
  import opened RouterTheorems
  import Stream
  import StreamTheorems
  import StreamEnds

  datatype Outcome = Success(deferred: bool) | ClientError | Retryable

  /** What an upstream answers, and the time at which the gateway reads it. */
  datatype Reply = Reply(outcome: Outcome, now: nat)

  datatype Answer = Answered(id: string) | PassedThrough(id: string) | AllFailed

  /** The position of the first reply that ends the loop, or the number of candidates. */
  function FirstFinal(replies: seq<Reply>): (n: nat)
    ensures n <= |replies|
    ensures forall i :: 0 <= i < n ==> replies[i].outcome.Retryable?
    ensures n < |replies| ==> !replies[n].outcome.Retryable?
  {
    if replies == [] || !replies[0].outcome.Retryable? then 0 else 1 + FirstFinal(replies[1..])
  }

  /** One failure for each of the first n candidates. */
  function Failures(candidates: seq<string>, replies: seq<Reply>, n: nat): (ops: seq<Op>)
    requires n <= |candidates| && n <= |replies|
    ensures |ops| == n && forall i :: 0 <= i < n ==> ops[i] == Failed(candidates[i], replies[i].now)
  {
    seq(n, i requires 0 <= i < n => Failed(candidates[i], replies[i].now))
  }

  /** A finished attempt leaves the in-flight count as it was. */
  lemma AcquireReleaseIsNothing(s: Routing, id: string)
    ensures Release(Acquire(s, id), id) == s
  {
    if id in s.backends {
      var b := s.backends[id];
      assert s.backends[id := b.(active := b.active + 1)][id := b] == s.backends;
    }
  }

  class Gateway {
    const router: ModelRouter

    constructor (router: ModelRouter)
      ensures this.router == router
    {
      this.router := router;
    }

    method TryBackend(id: string, reply: Reply) returns (outcome: Outcome)
      modifies router
      ensures outcome == reply.outcome && router.State() == old(router.State())
    {
      AcquireReleaseIsNothing(router.State(), id);
      router.AcquireSlot(id);
      router.ReleaseSlot(id);
      outcome := reply.outcome;
    }

    /**
     Tries the candidates in order up to the first reply that is not retryable: each tried backend
     once, one recorded failure for every retryable reply, none for a client error, and a success
     recorded at once unless its stream is to decide.
     */
    method HandleCandidates(candidates: seq<string>, replies: seq<Reply>) returns (attempted: seq<string>, answer: Answer)
      requires |replies| == |candidates|
      modifies router
      ensures var n := FirstFinal(replies);
        var failed := Done(router.config, old(router.State()), Failures(candidates, replies, n));
        if n == |candidates| then
          attempted == candidates && answer == AllFailed && router.State() == failed
        else
          && attempted == candidates[..n + 1]
          && answer == (if replies[n].outcome.ClientError? then PassedThrough(candidates[n]) else Answered(candidates[n]))
          && router.State() == if replies[n].outcome == Success(false) then RecordSuccess(failed, candidates[n]) else failed
    {
      hide Done, RecordFailure, RecordSuccess;
      NoFailures(router.config, router.State(), candidates, replies);
      attempted := [];
      ghost var n := FirstFinal(replies);
      var i := 0;
      while i < |candidates|
        invariant 0 <= i <= n && attempted == candidates[..i]
        invariant router.State() == Done(router.config, old(router.State()), Failures(candidates, replies, i))
      {
        var id := candidates[i];
        attempted := attempted + [id];
        var outcome := TryBackend(id, replies[i]);
        if outcome.Success? {
          if !outcome.deferred {
            router.Success(id);
          }
          return attempted, Answered(id);
        }
        if outcome.ClientError? {
          return attempted, PassedThrough(id);
        }
        router.Failure(id, replies[i].now);
        OneMoreFailure(router.config, old(router.State()), candidates, replies, i);
        i := i + 1;
      }
      answer := AllFailed;
    }
  }

  lemma NoFailures(c: Config, s: Routing, candidates: seq<string>, replies: seq<Reply>)
    ensures Done(c, s, Failures(candidates, replies, 0)) == s
  {
  }

  lemma OneMoreFailure(c: Config, s: Routing, candidates: seq<string>, replies: seq<Reply>, i: nat)
    requires i < |candidates| && i < |replies|
    ensures Done(c, s, Failures(candidates, replies, i + 1))
            == RecordFailure(c, Done(c, s, Failures(candidates, replies, i)), candidates[i], replies[i].now)
  {
    assert Failures(candidates, replies, i + 1) == Failures(candidates, replies, i) + [Failed(candidates[i], replies[i].now)];
  }

  /** Recorded failures change no in-flight count, no health verdict, and no backend that was not tried. */
  lemma {:induction false} FailuresOnlyCount(c: Config, s: Routing, candidates: seq<string>, replies: seq<Reply>, n: nat, id: string)
    requires n <= |candidates| && n <= |replies| && id in s.backends
    ensures var s' := Done(c, s, Failures(candidates, replies, n));
      && id in s'.backends && s'.cursors == s.cursors
      && s'.backends[id].active == s.backends[id].active && s'.backends[id].healthy == s.backends[id].healthy
      && s'.backends[id].failures == s.backends[id].failures + multiset(candidates[..n])[id]
    decreases n
  {
    hide Done, Failures;
    if n == 0 {
      NoFailures(c, s, candidates, replies);
    } else {
      FailuresOnlyCount(c, s, candidates, replies, n - 1, id);
      OneMoreFailure(c, s, candidates, replies, n - 1);
      assert candidates[..n] == candidates[..n - 1] + [candidates[n - 1]];
    }
  }

  // ---------- many requests at once ----------

  function InFlight(trace: seq<Op>, id: string): int {
    if trace == [] then 0
    else
      var op := trace[|trace| - 1];
      InFlight(trace[..|trace| - 1], id)
      + if op.Taken? && op.id == id then 1 else if op.Returned? && op.id == id then -1 else 0
  }

  /** Every slot is taken before it is returned. */
  predicate TakenFirst(trace: seq<Op>, id: string) {
    forall i :: 0 <= i <= |trace| ==> InFlight(trace[..i], id) >= 0
  }

  /** However requests overlap, the count of a backend is the number of its requests in flight. */
  lemma {:induction false} ActiveIsInFlight(c: Config, trace: seq<Op>, id: string)
    requires id in BackendsOf(c) && TakenFirst(trace, id)
    ensures id in Run(c, trace).backends && Run(c, trace).backends[id].active == InFlight(trace, id)
    decreases |trace|
  {
    if trace != [] {
      var before, op := trace[..|trace| - 1], trace[|trace| - 1];
      forall i | 0 <= i <= |before|
        ensures InFlight(before[..i], id) >= 0
      {
        assert before[..i] == trace[..i];
      }
      ActiveIsInFlight(c, before, id);
      assert trace[..|trace|] == trace;
      assert InFlight(trace, id) >= 0;
      if op.Asked? {
        ResetAllEffect(Run(c, before), ListOf(c, op.model), op.now);
      }
      hide ResetAll, Pool, Rotated, ByActivity;
    }
  }

  // ---------- the verdicts of a stream ----------

  /** The breaker calls of a stream, at the times they are made. */
  function Judged(c: Config, s: Routing, id: string, verdicts: seq<bool>, times: seq<nat>): Routing
    requires |verdicts| <= |times|
    decreases |verdicts|
  {
    if verdicts == [] then s
    else
      var s' := if verdicts[0] then RecordSuccess(s, id) else RecordFailure(c, s, id, times[0]);
      Judged(c, s', id, verdicts[1..], times[1..])
  }

  /**
   An uncancelled stream that was read to its end leaves the breaker of its backend closed and its
   failure count at zero when it carried a finish chunk or [DONE]; otherwise it counts two failures
   when its last line is not blank and lacks its newline, and one when not.
   */
  lemma EndedStreamSettlesBreaker(
      w: Stream.Wire, es: seq<Stream.Event>, c: Config, s: Routing, id: string, times: seq<nat>, now: nat)
    requires StreamTheorems.Ran(w, es).Some? && Stream.Cancel !in es && StreamTheorems.Ran(w, es).value.status.Closed?
    requires id in s.backends && |times| >= 2
    ensures var verdicts, text := StreamTheorems.Ran(w, es).value.verdicts, StreamTheorems.Consumed(es);
      && |verdicts| <= |times|
      && var b := Judged(c, s, id, verdicts, times).backends;
         id in b
         && if StreamTheorems.Final(w, text).finished then b[id].failures == 0 && !IsOpen(b[id], now)
            else b[id].failures == s.backends[id].failures + if Stream.Trim(Stream.Residue(text)) != "" then 2 else 1
  {
    hide StreamTheorems.Ran, StreamTheorems.Final, StreamTheorems.Consumed, StreamEnds.EndsLoose, Stream.Trim, Stream.Residue;
    StreamEnds.VerdictsCounted(w, es);
    var finished := StreamTheorems.Final(w, StreamTheorems.Consumed(es)).finished;
    JudgedTwice(c, s, id, finished, times);
  }

  lemma JudgedTwice(c: Config, s: Routing, id: string, verdict: bool, times: seq<nat>)
    requires id in s.backends && |times| >= 2
    ensures var once, twice := Judged(c, s, id, [verdict], times), Judged(c, s, id, [verdict, verdict], times);
      && id in once.backends && id in twice.backends
      && if verdict
         then once.backends[id].failures == twice.backends[id].failures == 0
              && once.backends[id].openUntil == twice.backends[id].openUntil == 0
         else once.backends[id].failures == s.backends[id].failures + 1
              && twice.backends[id].failures == s.backends[id].failures + 2
  {
    var s1 := if verdict then RecordSuccess(s, id) else RecordFailure(c, s, id, times[0]);
    assert [verdict, verdict][1..] == [verdict] && [verdict][1..] == [];
    assert Judged(c, s, id, [verdict, verdict], times) == Judged(c, s1, id, [verdict], times[1..]);
    assert Judged(c, s, id, [verdict], times) == s1;
  }
}
