/** The round-robin order of the model router is fair. */
module Rotation {
  import opened Router
  import opened RouterTheorems

  // ---------- residues ----------

  lemma {:induction false} AtLeastOnce(n: int, t: int)
    requires n > 0 && t >= 1
    ensures n * t >= n
    decreases t
  {
    if t > 1 {
      AtLeastOnce(n, t - 1);
    }
  }

  lemma Distribute(n: int, a: int, b: int)
    ensures n * (a - b) == n * a - n * b && n * (a + b) == n * a + n * b
  {
  }

  lemma Division(x: int, n: int)
    requires n > 0
    ensures x == n * (x / n) + x % n && 0 <= x % n < n
  {
  }

  /** Two quotients of one number by n are equal. */
  lemma QuotientUnique(n: int, q: int, r: int, q': int, r': int)
    requires n > 0 && n * q + r == n * q' + r' && 0 <= r < n && 0 <= r' < n
    ensures q == q' && r == r'
  {
    Distribute(n, q, q');
    Distribute(n, q', q);
    if q > q' {
      AtLeastOnce(n, q - q');
    } else if q < q' {
      AtLeastOnce(n, q' - q);
    }
  }

  lemma QuotientIs(x: int, n: int, q: int, r: int)
    requires n > 0 && x == n * q + r && 0 <= r < n
    ensures x / n == q && x % n == r
  {
    Division(x, n);
    QuotientUnique(n, q, r, x / n, x % n);
  }

  lemma SameResidue(a: int, b: int, n: int)
    requires n > 0
    ensures a % n == b % n <==> (a - b) % n == 0
  {
    Division(a, n);
    Division(b, n);
    var q, r := a / n - b / n, a % n - b % n;
    Distribute(n, a / n, b / n);
    if r >= 0 {
      QuotientIs(a - b, n, q, r);
    } else {
      Distribute(n, q, 1);
      QuotientIs(a - b, n, q - 1, r + n);
    }
  }

  lemma QuotientStep(m: int, n: int)
    requires n > 0
    ensures (m + 1) / n == m / n + if (m + 1) % n == 0 then 1 else 0
  {
    Division(m, n);
    var q, r := m / n, m % n;
    if r + 1 == n {
      Distribute(n, q, 1);
      QuotientIs(m + 1, n, q + 1, 0);
    } else {
      QuotientIs(m + 1, n, q, r + 1);
    }
  }

  lemma QuotientGrows(a: int, b: int, n: int)
    requires n > 0 && a <= b
    ensures a / n <= b / n
  {
    Division(a, n);
    Division(b, n);
    Distribute(n, a / n, b / n);
    if a / n > b / n {
      AtLeastOnce(n, a / n - b / n);
    }
  }

  // ---------- picks ----------

  /** How often position j comes first in k calls from cursor c on. */
  function Turns(c: nat, k: nat, n: nat, j: nat): nat
    requires n > 0
  {
    if k == 0 then 0 else Turns(c, k - 1, n, j) + if (c + k - 1) % n == j then 1 else 0
  }

  lemma {:induction false} TurnsClosed(c: nat, k: nat, n: nat, j: nat)
    requires j < n
    ensures Turns(c, k, n, j) == (k + n - 1 - (j - c) % n) / n
  {
    var d := (j - c) % n;
    Division(j - c, n);
    if k == 0 {
      QuotientIs(n - 1 - d, n, 0, n - 1 - d);
    } else {
      TurnsClosed(c, k - 1, n, j);
      QuotientStep(k - 1 + n - 1 - d, n);
      TurnTest(c, k - 1, n, j);
    }
  }

  /** Position j comes first in call k exactly when k is congruent to j - c. */
  lemma TurnTest(c: nat, k: nat, n: nat, j: nat)
    requires j < n
    ensures (c + k) % n == j <==> (k + n - (j - c) % n) % n == 0
  {
    var q, d := (j - c) / n, (j - c) % n;
    Division(j - c, n);
    QuotientIs(j, n, 0, j);
    SameResidue(c + k, j, n);
    Distribute(n, q, 1);
    QuotientIs(n * (q + 1), n, q + 1, 0);
    assert (k + n - d) - (c + k - j) == n * (q + 1);
    SameResidue(k + n - d, c + k - j, n);
  }

  lemma TurnsFair(c: nat, k: nat, n: nat, j: nat)
    requires j < n
    ensures k / n <= Turns(c, k, n, j) <= (k + n - 1) / n
  {
    TurnsClosed(c, k, n, j);
    var d := (j - c) % n;
    QuotientGrows(k, k + n - 1 - d, n);
    QuotientGrows(k + n - 1 - d, k + n - 1, n);
  }

  // ---------- calls among other operations ----------

  predicate AsksFor(op: Op, model: string) { op.Asked? && op.model == model }

  /** The first candidate of every call for the model, with any operations in between. */
  function Firsts(c: Config, s: Routing, model: string, ops: seq<Op>): seq<string> {
    if ops == [] then []
    else
      var before, op := Done(c, s, ops[..|ops| - 1]), ops[|ops| - 1];
      Firsts(c, s, model, ops[..|ops| - 1])
      + if !AsksFor(op, model) || CandidatesFor(c, before, model, op.now).1 == [] then []
        else [CandidatesFor(c, before, model, op.now).1[0]]
  }

  /** At every call for the model the router chooses among the same backends. */
  predicate SamePool(c: Config, s: Routing, model: string, ops: seq<Op>, ids: seq<string>) {
    forall i :: 0 <= i < |ops| && AsksFor(ops[i], model) ==>
                  Pool(Done(c, s, ops[..i]), ListOf(c, model), ops[i].now) == ids
  }

  /** How many of the operations ask for the model. */
  function Calls(model: string, ops: seq<Op>): nat {
    if ops == [] then 0 else Calls(model, ops[..|ops| - 1]) + if AsksFor(ops[|ops| - 1], model) then 1 else 0
  }

  /** Only a call for the model itself moves its cursor. */
  lemma OthersLeaveCursor(c: Config, s: Routing, op: Op, model: string)
    requires !AsksFor(op, model)
    ensures CursorOf(Apply(c, s, op), model) == CursorOf(s, model)
  {
    if op.Asked? {
      ResetAllEffect(s, ListOf(c, op.model), op.now);
      hide ResetAll, Pool, Rotated, ByActivity;
    }
  }

  lemma CallMovesCursor(c: Config, s: Routing, model: string, now: nat, ids: seq<string>)
    requires c.strategy.RoundRobin? && |ids| >= 2 && Pool(s, ListOf(c, model), now) == ids
    ensures var r := CandidatesFor(c, s, model, now);
      && CursorOf(r.0, model) == CursorOf(s, model) + 1
      && r.1 != [] && r.1[0] == ids[CursorOf(s, model) % |ids|]
  {
    hide Pool;
    ResetAllEffect(s, ListOf(c, model), now);
    RotatedPermutes(ids, CursorOf(s, model));
    hide ResetAll, Rotated;
  }

  lemma {:induction false} FirstsRotate(c: Config, s: Routing, model: string, ops: seq<Op>, ids: seq<string>)
    requires c.strategy.RoundRobin? && |ids| >= 2 && SamePool(c, s, model, ops, ids)
    ensures |Firsts(c, s, model, ops)| == Calls(model, ops)
    ensures CursorOf(Done(c, s, ops), model) == CursorOf(s, model) + Calls(model, ops)
    ensures forall i :: 0 <= i < Calls(model, ops) ==> Firsts(c, s, model, ops)[i] == ids[(CursorOf(s, model) + i) % |ids|]
    decreases |ops|
  {
    hide Pool, CandidatesFor, Apply, CursorOf;
    if ops != [] {
      var rest, op := ops[..|ops| - 1], ops[|ops| - 1];
      assert SamePool(c, s, model, rest, ids) by {
        assert forall i :: 0 <= i < |rest| ==> rest[..i] == ops[..i] && rest[i] == ops[i];
      }
      FirstsRotate(c, s, model, rest, ids);
      var before := Done(c, s, rest);
      if AsksFor(op, model) {
        CallMovesCursor(c, before, model, op.now, ids);
        AskedMoves(c, before, op);
      } else {
        OthersLeaveCursor(c, before, op, model);
      }
    }
  }

  lemma AskedMoves(c: Config, s: Routing, op: Op)
    requires op.Asked?
    ensures Apply(c, s, op) == CandidatesFor(c, s, op.model, op.now).0
  {
    hide CandidatesFor;
  }

  lemma {:induction false} TurnsCount(ids: seq<string>, picks: seq<string>, c: nat, j: nat)
    requires j < |ids| && forall a, b :: 0 <= a < b < |ids| ==> ids[a] != ids[b]
    requires forall i :: 0 <= i < |picks| ==> picks[i] == ids[(c + i) % |ids|]
    ensures multiset(picks)[ids[j]] == Turns(c, |picks|, |ids|, j)
    decreases |picks|
  {
    if picks != [] {
      var k := |picks| - 1;
      assert picks == picks[..k] + [picks[k]];
      TurnsCount(ids, picks[..k], c, j);
      assert picks[k] == ids[j] <==> (c + k) % |ids| == j;
    }
  }

  /**
   Whatever else the router is asked and told in between, and by however many requests: over the k
   calls for a model that choose among the same n backends, each backend comes first at least
   floor(k/n) and at most ceil(k/n) times, wherever the cursor stood.
   */
  lemma RoundRobinIsFair(c: Config, s: Routing, model: string, ops: seq<Op>, ids: seq<string>, j: nat)
    requires c.strategy.RoundRobin? && |ids| >= 2 && SamePool(c, s, model, ops, ids) && j < |ids|
    requires forall a, b :: 0 <= a < b < |ids| ==> ids[a] != ids[b]
    ensures var k := Calls(model, ops);
      k / |ids| <= multiset(Firsts(c, s, model, ops))[ids[j]] <= (k + |ids| - 1) / |ids|
  {
    hide SamePool, Firsts;
    FirstsRotate(c, s, model, ops, ids);
    TurnsCount(ids, Firsts(c, s, model, ops), CursorOf(s, model), j);
    TurnsFair(CursorOf(s, model), Calls(model, ops), |ids|, j);
  }
}
