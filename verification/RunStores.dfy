/**
 The run table and the event log of src/runs/runstore.ts. Each SQLite transaction is one atomic
 change; a constraint violation leaves the tables as they were.
 */
module RunStores {
  import opened Options
  import opened RunModel

  datatype StoreError = NotFound | WrongRun | BadSequence | AlreadyExists | InvalidTransition | ConstraintViolation

  datatype Outcome<+T> = Ok(value: T) | Failure(error: StoreError)

  datatype StoreState = StoreState(runs: map<string, AgentRun>, logs: map<string, seq<RunEvent>>)

  const EMPTY_STORE := StoreState(map[], map[])

  function LogOf(s: StoreState, id: string): seq<RunEvent> {
    if id in s.logs then s.logs[id] else []
  }

  /** The greatest sequence number of a log, or 0 for an empty one. */
  function MaxSequence(log: seq<RunEvent>): (m: int)
    ensures forall i :: 0 <= i < |log| ==> log[i].sequence <= m
    ensures if log == [] then m == 0 else exists i :: 0 <= i < |log| && log[i].sequence == m
  {
    if log == [] then 0
    else
      var rest, last := MaxSequence(log[..|log| - 1]), log[|log| - 1].sequence;
      assert forall i :: 0 <= i < |log| - 1 ==> log[i] == log[..|log| - 1][i];
      assert log[|log| - 1].sequence == last;
      if |log| == 1 || last > rest then last else rest
  }

  /** COALESCE(MAX(sequence), 0) over the events of a run. */
  function LastSequence(s: StoreState, id: string): int { MaxSequence(LogOf(s, id)) }

  /** Foreign key, CHECK (sequence > 0), UNIQUE (run_id, sequence) and the partial index on dedupe keys. */
  predicate Insertable(s: StoreState, e: RunEvent) {
    && e.runId in s.runs
    && e.sequence > 0
    && (forall i :: 0 <= i < |LogOf(s, e.runId)| ==> LogOf(s, e.runId)[i].sequence != e.sequence)
    && (e.dedupeKey.Some? ==> !HasKey(s, e))
  }

  predicate HasKey(s: StoreState, e: RunEvent) {
    exists i :: 0 <= i < |LogOf(s, e.runId)| && LogOf(s, e.runId)[i].dedupeKey == e.dedupeKey
  }

  function Inserted(s: StoreState, e: RunEvent): StoreState {
    s.(logs := s.logs[e.runId := LogOf(s, e.runId) + [e]])
  }

  function CreateRun(s: StoreState, run: AgentRun, initial: RunEvent): Outcome<StoreState> {
    if initial.runId != run.id then Failure(WrongRun)
    else if initial.sequence != 1 then Failure(BadSequence)
    else if run.id in s.runs then Failure(AlreadyExists)
    else
      var s' := s.(runs := s.runs[run.id := run]);
      if Insertable(s', initial) then Ok(Inserted(s', initial)) else Failure(ConstraintViolation)
  }

  function UpdateRun(s: StoreState, run: AgentRun, e: RunEvent): Outcome<StoreState> {
    if e.runId != run.id then Failure(WrongRun)
    else if run.id !in s.runs then Failure(NotFound)
    else if !CanTransition(s.runs[run.id].status, run.status) then Failure(InvalidTransition)
    else
      var s' := s.(runs := s.runs[run.id := run]);
      if Insertable(s', e) then Ok(Inserted(s', e)) else Failure(ConstraintViolation)
  }

  function AppendEvent(s: StoreState, e: RunEvent): Outcome<StoreState> {
    if Insertable(s, e) then Ok(Inserted(s, e)) else Failure(ConstraintViolation)
  }

  /** Whether a new fact was stored; a repeated key is no error. */
  function AppendIfNew(s: StoreState, e: RunEvent): Outcome<(StoreState, bool)> {
    if Insertable(s, e) then Ok((Inserted(s, e), true))
    else if e.dedupeKey.Some? && HasKey(s, e) then Ok((s, false))
    else Failure(ConstraintViolation)
  }

  class RunStore {
    var runs: map<string, AgentRun>
    var logs: map<string, seq<RunEvent>>

    function State(): StoreState
      reads this
    {
      StoreState(runs, logs)
    }

    constructor ()
      ensures State() == EMPTY_STORE
    {
      runs, logs := map[], map[];
    }

    method Create(run: AgentRun, initial: RunEvent) returns (r: Outcome<()>)
      modifies this
      ensures match CreateRun(old(State()), run, initial)
        case Ok(s) => r == Ok(()) && State() == s
        case Failure(e) => r == Failure(e) && State() == old(State())
    {
      if initial.runId != run.id {
        return Failure(WrongRun);
      }
      if initial.sequence != 1 {
        return Failure(BadSequence);
      }
      if run.id in runs {
        return Failure(AlreadyExists);
      }
      var before := runs;
      runs := runs[run.id := run];
      r := InsertEvent(initial);
      if r.Failure? {
        runs := before;
      }
    }

    method Get(id: string) returns (run: Option<AgentRun>)
      ensures run == if id in runs then Some(runs[id]) else None
    {
      run := if id in runs then Some(runs[id]) else None;
    }

    /** Changes the snapshot and appends the event, both or neither. */
    method Update(run: AgentRun, e: RunEvent) returns (r: Outcome<()>)
      modifies this
      ensures match UpdateRun(old(State()), run, e)
        case Ok(s) => r == Ok(()) && State() == s
        case Failure(x) => r == Failure(x) && State() == old(State())
    {
      if e.runId != run.id {
        return Failure(WrongRun);
      }
      if run.id !in runs {
        return Failure(NotFound);
      }
      if !CanTransition(runs[run.id].status, run.status) {
        return Failure(InvalidTransition);
      }
      var before := runs;
      runs := runs[run.id := run];
      r := InsertEvent(e);
      if r.Failure? {
        runs := before;
      }
    }

    method Append(e: RunEvent) returns (r: Outcome<()>)
      modifies this
      ensures match AppendEvent(old(State()), e)
        case Ok(s) => r == Ok(()) && State() == s
        case Failure(x) => r == Failure(x) && State() == old(State())
    {
      r := InsertEvent(e);
    }

    method AppendEventIfNew(e: RunEvent) returns (r: Outcome<bool>)
      modifies this
      ensures match AppendIfNew(old(State()), e)
        case Ok(p) => r == Ok(p.1) && State() == p.0
        case Failure(x) => r == Failure(x) && State() == old(State())
    {
      var inserted := InsertEvent(e);
      if inserted.Ok? {
        return Ok(true);
      }
      r := if e.dedupeKey.Some? && HasKey(State(), e) then Ok(false) else Failure(inserted.error);
    }

    method GetLastEventSequence(id: string) returns (n: int)
      ensures n == LastSequence(State(), id)
      ensures forall i :: 0 <= i < |LogOf(State(), id)| ==> LogOf(State(), id)[i].sequence <= n
      ensures if LogOf(State(), id) == [] then n == 0
              else exists i :: 0 <= i < |LogOf(State(), id)| && LogOf(State(), id)[i].sequence == n
    {
      n := MaxSequence(LogOf(State(), id));
    }

    method InsertEvent(e: RunEvent) returns (r: Outcome<()>)
      modifies this`logs
      ensures match AppendEvent(old(State()), e)
        case Ok(s) => r == Ok(()) && State() == s
        case Failure(x) => r == Failure(x) && State() == old(State())
    {
      if !Insertable(State(), e) {
        return Failure(ConstraintViolation);
      }
      logs := logs[e.runId := LogOf(State(), e.runId) + [e]];
      r := Ok(());
    }
  }

  // ---------- consistency ----------

  /** Every run agrees with its log, and every log belongs to a run. */
  ghost predicate Consistent(s: StoreState) {
    && s.logs.Keys == s.runs.Keys
    && forall id :: id in s.runs ==> s.runs[id].id == id && Agree(s.runs[id], s.logs[id])
  }

  lemma {:induction false} NumberedLast(id: string, log: seq<RunEvent>)
    requires Numbered(id, log)
    ensures MaxSequence(log) == |log|
  {
    if log != [] {
      NumberedLast(id, log[..|log| - 1]);
    }
  }

  /** The next sequence number is free and continues the numbering. */
  lemma NextSequenceFits(s: StoreState, id: string)
    requires Consistent(s) && id in s.runs
    ensures LastSequence(s, id) == |s.logs[id]|
    ensures forall i :: 0 <= i < |s.logs[id]| ==> s.logs[id][i].sequence != LastSequence(s, id) + 1
  {
    NumberedLast(id, s.logs[id]);
  }

  /** The event a writer appends next for a run. */
  function NextEvent(s: StoreState, id: string, kind: EventType, key: Option<string>): RunEvent {
    RunEvent(id, LastSequence(s, id) + 1, kind, key)
  }

  lemma InsertedConsistent(s: StoreState, run: AgentRun, e: RunEvent)
    requires Consistent(s) && run.id in s.runs && e.runId == run.id
    requires Agree(run, s.logs[run.id] + [e])
    ensures Consistent(Inserted(s.(runs := s.runs[run.id := run]), e))
  {
    hide Agree;
  }

  lemma NextAgrees(s: StoreState, run: AgentRun, e: RunEvent)
    requires Consistent(s) && run.id in s.runs && e.runId == run.id && e.sequence == LastSequence(s, run.id) + 1
    requires Follows(Some(s.runs[run.id].status), e) && (e.dedupeKey.Some? ==> !HasKey(s, e))
    requires run.status == if Announces(e).Some? then Announces(e).value else s.runs[run.id].status
    requires run.finishedAt.Some? <==> Terminal(run.status)
    ensures Insertable(s, e) && Agree(run, s.logs[run.id] + [e])
  {
    NextSequenceFits(s, run.id);
    var log := s.logs[run.id];
    assert e.dedupeKey.Some? ==> forall i :: 0 <= i < |log| ==> log[i].dedupeKey != e.dedupeKey;
    assert Agree(s.runs[run.id], log);
    AgreeSnoc(s.runs[run.id], log, run, e);
    hide Agree, LastSequence, Follows;
  }

  lemma InsertableElsewhere(s: StoreState, run: AgentRun, e: RunEvent)
    requires run.id in s.runs
    ensures Insertable(s.(runs := s.runs[run.id := run]), e) <==> Insertable(s, e)
  {
    var s' := s.(runs := s.runs[run.id := run]);
    assert LogOf(s', e.runId) == LogOf(s, e.runId);
    assert HasKey(s', e) <==> HasKey(s, e);
  }

  /**
   Writing a snapshot together with the event that announces its status succeeds exactly when the
   transition is allowed, however stale the snapshot is, and keeps the store consistent.
   */
  lemma UpdateKeepsConsistency(s: StoreState, run: AgentRun, kind: EventType)
    requires Consistent(s) && run.id in s.runs
    requires Announces(NextEvent(s, run.id, kind, None)) == Some(run.status) && !kind.RunCreated?
    requires run.finishedAt.Some? <==> Terminal(run.status)
    requires kind.RunResumed? ==> s.runs[run.id].status.Queued?
    requires kind.ToolCompleted? ==> s.runs[run.id].status.WaitingTool?
    ensures var r := UpdateRun(s, run, NextEvent(s, run.id, kind, None));
      && (r.Ok? <==> CanTransition(s.runs[run.id].status, run.status))
      && (r.Ok? ==>
            Consistent(r.value) && r.value.runs == s.runs[run.id := run]
            && r.value.logs == s.logs[run.id := s.logs[run.id] + [NextEvent(s, run.id, kind, None)]])
  {
    var e := NextEvent(s, run.id, kind, None);
    InsertableElsewhere(s, run, e);
    if CanTransition(s.runs[run.id].status, run.status) {
      NextAgrees(s, run, e);
      InsertedConsistent(s, run, e);
    }
    hide Agree, LastSequence, Consistent, Insertable, Announces;
  }

  /** Appending an event that announces nothing new keeps every status as it is. */
  lemma AppendKeepsConsistency(s: StoreState, id: string, kind: EventType, key: Option<string>)
    requires Consistent(s) && id in s.runs
    requires Announces(NextEvent(s, id, kind, key)).None?
          || (kind.RunInterrupted? && s.runs[id].status.Interrupted?)
    requires key.Some? ==> !HasKey(s, NextEvent(s, id, kind, key))
    ensures var r := AppendEvent(s, NextEvent(s, id, kind, key));
      && r.Ok? && Consistent(r.value) && r.value.runs == s.runs
      && r.value.logs == s.logs[id := s.logs[id] + [NextEvent(s, id, kind, key)]]
  {
    hide Agree, LastSequence, Consistent, Insertable, LogOf;
    var e := NextEvent(s, id, kind, key);
    RunAgrees(s, id);
    NextAgrees(s, s.runs[id], e);
    InsertedConsistent(s, s.runs[id], e);
    assert s.runs[id := s.runs[id]] == s.runs by { SameTable(s.runs, id); }
    hide NextEvent;
    InsertedIs(s, id, e);
  }

  lemma SameTable(runs: map<string, AgentRun>, id: string)
    requires id in runs
    ensures runs[id := runs[id]] == runs
  {
  }

  lemma InsertedIs(s: StoreState, id: string, e: RunEvent)
    requires id in s.logs && e.runId == id
    ensures Inserted(s, e) == s.(logs := s.logs[id := s.logs[id] + [e]])
  {
  }

  lemma RunAgrees(s: StoreState, id: string)
    requires Consistent(s) && id in s.runs
    ensures s.runs[id].id == id && id in s.logs
    ensures s.runs[id].finishedAt.Some? <==> Terminal(s.runs[id].status)
  {
    hide Fold, Lawful, Numbered, DistinctKeys;
  }

  lemma CreateKeepsConsistency(s: StoreState, run: AgentRun)
    requires Consistent(s) && run.id !in s.runs
    requires run.status.Queued? && run.finishedAt.None?
    ensures var e := RunEvent(run.id, 1, RunCreated, None);
      var r := CreateRun(s, run, e);
      && r.Ok? && Consistent(r.value) && r.value.runs == s.runs[run.id := run] && r.value.logs == s.logs[run.id := [e]]
  {
    var e := RunEvent(run.id, 1, RunCreated, None);
    assert run.id !in s.logs;
    assert [] + [e] == [e];
    assert Fold([e]) == Some(Queued);
    assert [e][..0] == [];
    assert Agree(run, [e]);
  }
}
