/** What the replies of the upstreams lead to, request by request and under any overlap. */
module Replies {
  import opened Router
  import opened RouterTheorems
  import opened Fallback
  import opened Requests
  import Stream
  import StreamTheorems
  import LateVerdicts

  /** A reply reaches a request that waits for one. */
  predicate Hears(sys: System, a: Action, r: nat) {
    a.Reply? && a.r == r && r in sys.requests && sys.requests[r].phase.Waiting? && InRange(sys.requests[r])
  }

  /** The replies a request has had, in order. */
  function Heard(c: Config, ws: nat -> Stream.Wire, actions: seq<Action>, r: nat): seq<Outcome> {
    if actions == [] then []
    else
      var before, a := actions[..|actions| - 1], actions[|actions| - 1];
      Heard(c, ws, before, r) + if Hears(Reached(c, ws, before), a, r) then [a.outcome] else []
  }

  /** The first n replies were retryable. */
  predicate Retried(replies: seq<Outcome>, n: nat) {
    n <= |replies| && forall i :: 0 <= i < n ==> replies[i] == Retryable
  }

  /** What the replies so far say about where a request is. */
  predicate Fits(q: Request, replies: seq<Outcome>) {
    match q.phase
    case Ready(n) => |replies| == n && Retried(replies, n) && n < |q.candidates|
    case Waiting(n) => |replies| == n && Retried(replies, n) && n < |q.candidates|
    case Replied(n, outcome) => |replies| == n + 1 && Retried(replies, n) && replies[n] == outcome && n < |q.candidates|
    case Streaming(n, _) => |replies| == n + 1 && Retried(replies, n) && replies[n] == Success(true) && n < |q.candidates|
    case Served(n) => |replies| == n + 1 && Retried(replies, n) && replies[n] == Success(false) && n < |q.candidates|
    case Passed(n) => |replies| == n + 1 && Retried(replies, n) && replies[n] == ClientError && n < |q.candidates|
    case GivenUp => |replies| == |q.candidates| && Retried(replies, |replies|)
  }

  lemma StepFits(c: Config, ws: nat -> Stream.Wire, sys: System, a: Action, r: nat, replies: seq<Outcome>)
    requires r in sys.requests && Fits(sys.requests[r], replies)
    ensures var sys' := Next(c, ws, sys, a);
      && r in sys'.requests && sys'.requests[r].candidates == sys.requests[r].candidates
      && Fits(sys'.requests[r], replies + if Hears(sys, a, r) then [a.outcome] else [])
  {
    hide CandidatesFor, Run, StreamTheorems.Ran;
    assert replies + [] == replies;
  }

  /** A request that arrives is ready for its first candidate, or given up when there is none; only arriving makes a request. */
  lemma ArrivalFits(c: Config, ws: nat -> Stream.Wire, sys: System, a: Action, r: nat)
    requires r !in sys.requests
    ensures r in Next(c, ws, sys, a).requests ==>
              && a.Arrive? && a.r == r && Fits(Next(c, ws, sys, a).requests[r], [])
              && Next(c, ws, sys, a).requests[r].candidates == CandidatesFor(c, Routed(c, sys), a.model, a.now).1
  {
    hide CandidatesFor, Run, StreamTheorems.Ran;
  }

  lemma {:induction false} NobodyHears(c: Config, ws: nat -> Stream.Wire, actions: seq<Action>, r: nat)
    requires r !in Reached(c, ws, actions).requests
    ensures Heard(c, ws, actions, r) == []
    decreases |actions|
  {
    hide Next;
    if actions != [] {
      var before, a := actions[..|actions| - 1], actions[|actions| - 1];
      assert actions == before + [a];
      LateVerdicts.OneMoreAction(c, ws, INITIAL, before, a);
      hide After;
      if r in Reached(c, ws, before).requests {
        StaysThere(c, ws, Reached(c, ws, before), a, r);
      }
      NobodyHears(c, ws, before, r);
    }
  }

  lemma StaysThere(c: Config, ws: nat -> Stream.Wire, sys: System, a: Action, r: nat)
    requires r in sys.requests
    ensures r in Next(c, ws, sys, a).requests
  {
    hide CandidatesFor, Run, StreamTheorems.Ran;
  }

  /**
   Under any overlap the replies decide where a request is. It has left behind exactly the candidates that
   gave retryable replies, each after one reply; it is answered by the first success, passed through at the
   first client error, and given up when every candidate's reply was retryable.
   */
  lemma {:induction false} RepliesDecide(c: Config, ws: nat -> Stream.Wire, actions: seq<Action>, r: nat)
    requires r in Reached(c, ws, actions).requests
    ensures Fits(Reached(c, ws, actions).requests[r], Heard(c, ws, actions, r))
    decreases |actions|
  {
    hide Next, Fits, Hears;
    if actions != [] {
      var before, a := actions[..|actions| - 1], actions[|actions| - 1];
      assert actions == before + [a];
      LateVerdicts.OneMoreAction(c, ws, INITIAL, before, a);
      hide After;
      var sys := Reached(c, ws, before);
      if r in sys.requests {
        RepliesDecide(c, ws, before, r);
        StepFits(c, ws, sys, a, r, Heard(c, ws, before, r));
      } else {
        NobodyHears(c, ws, before, r);
        ArrivalFits(c, ws, sys, a, r);
        NotThere(sys, a, r);
        assert Heard(c, ws, actions, r) == [];
      }
    }
  }

  lemma NotThere(sys: System, a: Action, r: nat)
    requires r !in sys.requests
    ensures !Hears(sys, a, r)
  {
  }
}
