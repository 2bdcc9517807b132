/**
 The model router of src/llm-gateway/model-router.ts: a circuit breaker whose field is reset lazily,
 health verdicts, and three orders of candidates. Times are milliseconds of the router's clock.
 */
module Router {
  datatype Backend = Backend(failures: nat, openUntil: nat, active: nat, healthy: bool)

  const FRESH := Backend(0, 0, 0, true)

  datatype Strategy = Priority | RoundRobin | LeastActive

  datatype Config = Config(models: map<string, seq<string>>, strategy: Strategy, threshold: nat, cooldown: nat)

  datatype Routing = Routing(backends: map<string, Backend>, cursors: map<string, nat>)

  function ListOf(c: Config, model: string): seq<string> {
    if model in c.models then c.models[model] else []
  }

  predicate IsOpen(b: Backend, now: nat) { b.openUntil != 0 && now < b.openUntil }

  function ActiveOf(s: Routing, id: string): nat {
    if id in s.backends then s.backends[id].active else 0
  }

  // ---------- candidates ----------

  predicate ClosedAt(s: Routing, id: string, now: nat) { id in s.backends ==> !IsOpen(s.backends[id], now) }

  predicate HealthyIn(s: Routing, id: string) { id in s.backends ==> s.backends[id].healthy }

  function Closed(s: Routing, ids: seq<string>, now: nat): seq<string> {
    if ids == [] then []
    else
      var rest := Closed(s, ids[..|ids| - 1], now);
      if ClosedAt(s, ids[|ids| - 1], now) then rest + [ids[|ids| - 1]] else rest
  }

  function Healthy(s: Routing, ids: seq<string>): seq<string> {
    if ids == [] then []
    else
      var rest := Healthy(s, ids[..|ids| - 1]);
      if HealthyIn(s, ids[|ids| - 1]) then rest + [ids[|ids| - 1]] else rest
  }

  /** A cooled-down breaker is reset when the backend is looked at. */
  function Reset(s: Routing, id: string, now: nat): Routing {
    if id in s.backends && s.backends[id].openUntil != 0 && now >= s.backends[id].openUntil
    then s.(backends := s.backends[id := s.backends[id].(openUntil := 0)]) else s
  }

  function ResetAll(s: Routing, ids: seq<string>, now: nat): Routing {
    if ids == [] then s else Reset(ResetAll(s, ids[..|ids| - 1], now), ids[|ids| - 1], now)
  }

  /** The healthy ones among the closed, or all the closed when none is healthy. */
  function Pool(s: Routing, ids: seq<string>, now: nat): seq<string> {
    var closed := Closed(s, ids, now);
    if Healthy(s, closed) != [] then Healthy(s, closed) else closed
  }

  function Rotated(ids: seq<string>, cursor: nat): seq<string>
    requires |ids| > 0
  {
    ids[cursor % |ids|..] + ids[..cursor % |ids|]
  }

  /** Insert behind every element that is at most as active: the order stays stable. */
  function Insert(s: Routing, sorted: seq<string>, id: string): seq<string> {
    if sorted == [] || ActiveOf(s, sorted[|sorted| - 1]) <= ActiveOf(s, id) then sorted + [id]
    else Insert(s, sorted[..|sorted| - 1], id) + [sorted[|sorted| - 1]]
  }

  function ByActivity(s: Routing, ids: seq<string>): seq<string> {
    if ids == [] then [] else Insert(s, ByActivity(s, ids[..|ids| - 1]), ids[|ids| - 1])
  }

  function CursorOf(s: Routing, model: string): nat { if model in s.cursors then s.cursors[model] else 0 }

  function Ordered(c: Config, s: Routing, model: string, ids: seq<string>): (Routing, seq<string>) {
    if |ids| <= 1 || c.strategy.Priority? then (s, ids)
    else if c.strategy.RoundRobin? then
      (s.(cursors := s.cursors[model := CursorOf(s, model) + 1]), Rotated(ids, CursorOf(s, model)))
    else (s, ByActivity(s, ids))
  }

  function CandidatesFor(c: Config, s: Routing, model: string, now: nat): (Routing, seq<string>) {
    Ordered(c, ResetAll(s, ListOf(c, model), now), model, Pool(s, ListOf(c, model), now))
  }

  // ---------- the other operations ----------

  function Acquire(s: Routing, id: string): Routing {
    if id in s.backends then s.(backends := s.backends[id := s.backends[id].(active := s.backends[id].active + 1)]) else s
  }

  function Release(s: Routing, id: string): Routing {
    if id in s.backends && s.backends[id].active > 0
    then s.(backends := s.backends[id := s.backends[id].(active := s.backends[id].active - 1)]) else s
  }

  function RecordHealthProbe(s: Routing, id: string, healthy: bool): Routing {
    if id in s.backends then s.(backends := s.backends[id := s.backends[id].(healthy := healthy)]) else s
  }

  function RecordSuccess(s: Routing, id: string): Routing {
    if id in s.backends then s.(backends := s.backends[id := s.backends[id].(failures := 0, openUntil := 0)]) else s
  }

  function RecordFailure(c: Config, s: Routing, id: string, now: nat): Routing {
    if id !in s.backends then s
    else
      var b := s.backends[id];
      var failures := b.failures + 1;
      s.(backends := s.backends[id := b.(failures := failures,
                                          openUntil := if failures >= c.threshold then now + c.cooldown else b.openUntil)])
  }

  class ModelRouter {
    const config: Config
    var backends: map<string, Backend>
    var cursors: map<string, nat>

    function State(): Routing
      reads this
    {
      Routing(backends, cursors)
    }

    constructor (config: Config)
      ensures this.config == config
      ensures cursors == map[]
      ensures backends == map id | id in BackendsOf(config) :: FRESH
    {
      this.config := config;
      backends := map id | id in BackendsOf(config) :: FRESH;
      cursors := map[];
    }

    /** One pass over the configured backends: skip the open ones, reset the cooled-down ones, note the healthy ones. */
    method Candidates(model: string, now: nat) returns (ordered: seq<string>)
      modifies this
      ensures (State(), ordered) == CandidatesFor(config, old(State()), model, now)
    {
      var ids := ListOf(config, model);
      var closed, healthy := [], [];
      for i := 0 to |ids|
        invariant State() == ResetAll(old(State()), ids[..i], now)
        invariant closed == Closed(old(State()), ids[..i], now)
        invariant healthy == Healthy(old(State()), closed)
      {
        assert ids[..i + 1][..i] == ids[..i];
        ResetAllEffect(old(State()), ids[..i], now);
        var id := ids[i];
        if id in backends && backends[id].openUntil != 0 {
          if now < backends[id].openUntil {
            continue;
          }
          backends := backends[id := backends[id].(openUntil := 0)];
        }
        assert (closed + [id])[..|closed|] == closed;
        closed := closed + [id];
        if id !in backends || backends[id].healthy {
          healthy := healthy + [id];
        }
      }
      assert ids[..|ids|] == ids;
      ordered := OrderByStrategy(model, if healthy != [] then healthy else closed);
    }

    method OrderByStrategy(model: string, ids: seq<string>) returns (ordered: seq<string>)
      modifies this`cursors
      ensures (State(), ordered) == Ordered(config, old(State()), model, ids)
    {
      if |ids| <= 1 || config.strategy.Priority? {
        return ids;
      }
      if config.strategy.RoundRobin? {
        var cursor := CursorOf(State(), model);
        cursors := cursors[model := cursor + 1];
        var offset := cursor % |ids|;
        return ids[offset..] + ids[..offset];
      }
      ordered := ByActivity(State(), ids);
    }

    method AcquireSlot(id: string)
      modifies this
      ensures State() == Acquire(old(State()), id)
    {
      if id in backends {
        backends := backends[id := backends[id].(active := backends[id].active + 1)];
      }
    }

    method ReleaseSlot(id: string)
      modifies this
      ensures State() == Release(old(State()), id)
    {
      if id in backends && backends[id].active > 0 {
        backends := backends[id := backends[id].(active := backends[id].active - 1)];
      }
    }

    method Probe(id: string, healthy: bool)
      modifies this
      ensures State() == RecordHealthProbe(old(State()), id, healthy)
    {
      if id in backends {
        backends := backends[id := backends[id].(healthy := healthy)];
      }
    }

    method Success(id: string)
      modifies this
      ensures State() == RecordSuccess(old(State()), id)
    {
      if id in backends {
        backends := backends[id := backends[id].(failures := 0, openUntil := 0)];
      }
    }

    method Failure(id: string, now: nat)
      modifies this
      ensures State() == RecordFailure(config, old(State()), id, now)
    {
      if id !in backends {
        return;
      }
      var b := backends[id];
      b := b.(failures := b.failures + 1);
      if b.failures >= config.threshold {
        b := b.(openUntil := now + config.cooldown);
      }
      backends := backends[id := b];
    }
  }

  function BackendsOf(c: Config): set<string> {
    set model, i | model in c.models && 0 <= i < |c.models[model]| :: c.models[model][i]
  }

  /** Resetting closes nothing that is open at that time and changes nothing else. */
  lemma {:induction false} ResetAllEffect(s: Routing, ids: seq<string>, now: nat)
    ensures var s' := ResetAll(s, ids, now);
      && s'.cursors == s.cursors && s'.backends.Keys == s.backends.Keys
      && forall id :: id in s.backends ==>
                        && (s'.backends[id] == s.backends[id]
                            || (s'.backends[id] == s.backends[id].(openUntil := 0) && now >= s.backends[id].openUntil))
  {
    if ids != [] {
      ResetAllEffect(s, ids[..|ids| - 1], now);
    }
  }
}
