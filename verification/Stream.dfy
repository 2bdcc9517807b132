/**
 The server-sent-event wrapper `wrapUpstreamStream` of src/llm-gateway/llm-gateway.ts.

 Text is handled after UTF-8 decoding, as a sequence of characters. The loop of `pull` is cut at
 its await: one event is one uninterrupted stretch of the wrapper's code.
 */
module Stream {
  import opened Options
  import opened Repair
  import opened Tracker

  /**
   What the wrapper takes from outside: JSON.parse and JSON.stringify on chunks, the clock value
   stamped on repair chunks, and whether usage samples are recorded.
   */
  datatype Wire = Wire(decode: string -> Option<Payload>, encode: Payload -> string, now: nat, sampleUsage: bool)

  // ---------- lines ----------

  function TrimStart(s: string): (r: string)
    ensures r != [] ==> !IsJsSpace(r[0])
  {
    if s != [] && IsJsSpace(s[0]) then TrimStart(s[1..]) else s
  }

  function Trim(s: string): string { TrimStart(TrimEnd(s)) }

  function NewlineAt(s: string): (k: int)
    ensures -1 <= k < |s|
    ensures k >= 0 ==> s[k] == '\n'
    ensures forall i :: 0 <= i < (if k >= 0 then k else |s|) ==> s[i] != '\n'
  {
    if s == [] then -1
    else if s[0] == '\n' then 0
    else
      var k := NewlineAt(s[1..]);
      if k == -1 then -1 else k + 1
  }

  /** The newline-terminated lines of a text, without their terminators. */
  function CompleteLines(s: string): seq<string>
    decreases |s|
  {
    var k := NewlineAt(s);
    if k == -1 then [] else [s[..k]] + CompleteLines(s[k + 1..])
  }

  /** What follows the last newline. */
  function Residue(s: string): string
    decreases |s|
  {
    var k := NewlineAt(s);
    if k == -1 then s else Residue(s[k + 1..])
  }

  lemma {:induction false} LinesOfConcat(s: string, t: string)
    ensures CompleteLines(s + t) == CompleteLines(s) + CompleteLines(Residue(s) + t)
    decreases |s|
  {
    hide NewlineAt;
    var k := NewlineAt(s);
    if k != -1 {
      NewlineOfConcat(s, t);
      var rest := s[k + 1..];
      assert (s + t)[..k] == s[..k] && (s + t)[k + 1..] == rest + t;
      LinesOfConcat(rest, t);
      assert Residue(s) == Residue(rest);
      Reassociate([s[..k]], CompleteLines(rest), CompleteLines(Residue(rest) + t));
    }
  }

  lemma Reassociate<T>(a: seq<T>, b: seq<T>, c: seq<T>)
    ensures (a + b) + c == a + (b + c)
  {
  }

  lemma {:induction false} ResidueOfConcat(s: string, t: string)
    ensures Residue(s + t) == Residue(Residue(s) + t)
    decreases |s|
  {
    hide NewlineAt;
    var k := NewlineAt(s);
    if k != -1 {
      NewlineOfConcat(s, t);
      assert (s + t)[k + 1..] == s[k + 1..] + t;
      ResidueOfConcat(s[k + 1..], t);
    }
  }

  lemma NewlineOfConcat(s: string, t: string)
    requires NewlineAt(s) != -1
    ensures NewlineAt(s + t) == NewlineAt(s)
  {
    var k, k' := NewlineAt(s), NewlineAt(s + t);
    assert (s + t)[k] == '\n';
    assert forall i :: 0 <= i < k ==> (s + t)[i] != '\n';
  }

  // ---------- what one line does ----------

  /** Everything `handleLine` and `flushTail` change. `out` lists all items ever put in the outbox. */
  datatype Lines = Lines(out: seq<string>, held: seq<string>, finished: bool, holding: bool, flushed: bool,
                         tracker: Entries, meta: Meta, sampled: bool, samples: nat)

  const NO_META := Meta(None, None, None)

  const NO_LINES := Lines([], [], false, false, false, NO_ENTRIES, NO_META, false, 0)

  function Terminated(lines: seq<string>): seq<string> {
    if lines == [] then [] else [lines[0] + "\n"] + Terminated(lines[1..])
  }

  function RepairItem(w: Wire, note: RepairNote, meta: Meta): string {
    "data: " + w.encode(BuildRepairChunk(note, meta, w.now)) + "\n\n"
  }

  function RepairItems(w: Wire, notes: seq<RepairNote>, meta: Meta): seq<string> {
    if notes == [] then [] else [RepairItem(w, notes[0], meta)] + RepairItems(w, notes[1..], meta)
  }

  predicate Orderly(e: Entries) { forall i :: 0 <= i < |e.order| ==> e.order[i] in e.args }

  function Flush(w: Wire, l: Lines): Lines
    requires Orderly(l.tracker)
  {
    if l.flushed then l
    else
      var repairs := if l.finished then RepairItems(w, RepairsOf(l.tracker), l.meta) else [];
      l.(flushed := true, out := l.out + repairs + Terminated(l.held), held := [])
  }

  function Emit(l: Lines, raw: string): Lines { l.(out := l.out + [raw + "\n"]) }

  function Merge<T>(older: Option<T>, newer: Option<T>): Option<T> { if newer.Some? then newer else older }

  function MergeMeta(m: Meta, p: Payload): Meta
    requires p.Payload?
  {
    Meta(Merge(m.id, p.id), Merge(m.created, p.created), Merge(m.model, p.model))
  }

  function Sample(w: Wire, l: Lines, p: Payload): Lines
    requires p.Payload?
  {
    if l.sampled || p.promptTokens.None? then l
    else l.(sampled := true, samples := l.samples + (if w.sampleUsage then 1 else 0))
  }

  /** A decoded chunk; a TypeError part-way sends the line through unchanged. */
  function HandlePayload(w: Wire, l: Lines, raw: string, p: Payload): Lines {
    if p.NullPayload? then Emit(l, raw)
    else
      var observed := PayloadDeltas(p);
      var l1 := l.(meta := MergeMeta(l.meta, p), tracker := FeedAll(l.tracker, observed.deltas));
      if observed.threw then Emit(l1, raw)
      else
        var l2 := Sample(w, l1, p);
        if p.choices.List? && Finishes(p)
        then l2.(finished := true, holding := true, held := l2.held + [raw])
        else Emit(l2, raw)
  }

  const DATA := "data:"
  const DONE := "[DONE]"

  /** The text after `data:`, when the line is a data line. */
  function DataOf(raw: string): Option<string> {
    var line := Trim(raw);
    if DATA <= line then Some(Trim(line[|DATA|..])) else None
  }

  function HandleLine(w: Wire, l: Lines, raw: string): Lines
    requires Orderly(l.tracker)
  {
    if l.holding then l.(held := l.held + [raw])
    else
      var data := DataOf(raw);
      if l.finished || data.None? then Emit(l, raw)
      else if data.value == DONE then
        Flush(w, l.(finished := true, holding := true, held := l.held + [raw]))
      else if data.value == "" then Emit(l, raw)
      else match w.decode(data.value)
        case None => Emit(l, raw)
        case Some(p) => HandlePayload(w, l, raw, p)
  }

  lemma {:induction false} FeedAllOrderly(e: Entries, ds: seq<Delta>)
    requires Orderly(e)
    ensures Orderly(FeedAll(e, ds))
    decreases ds
  {
    if ds != [] {
      FeedAllOrderly(Feed(e, ds[0]), ds[1..]);
    }
  }

  lemma HandleLineOrderly(w: Wire, l: Lines, raw: string)
    requires Orderly(l.tracker)
    ensures Orderly(HandleLine(w, l, raw).tracker)
  {
    hide DataOf, Orderly, FeedAll, PayloadDeltas, RepairItems, RepairsOf;
    var data := DataOf(raw);
    if data.Some? && w.decode(data.value).Some? {
      FeedAllOrderly(l.tracker, PayloadDeltas(w.decode(data.value).value).deltas);
    }
  }

  function HandleLines(w: Wire, l: Lines, lines: seq<string>): (r: Lines)
    requires Orderly(l.tracker)
    ensures Orderly(r.tracker)
    decreases lines
  {
    if lines == [] then l
    else
      HandleLineOrderly(w, l, lines[0]);
      HandleLines(w, HandleLine(w, l, lines[0]), lines[1..])
  }

  lemma {:induction false} HandleLinesConcat(w: Wire, l: Lines, a: seq<string>, b: seq<string>)
    requires Orderly(l.tracker)
    ensures HandleLines(w, l, a + b) == HandleLines(w, HandleLines(w, l, a), b)
    decreases a
  {
    if a == [] {
      assert a + b == b;
    } else {
      assert (a + b)[0] == a[0] && (a + b)[1..] == a[1..] + b;
      HandleLineOrderly(w, l, a[0]);
      HandleLinesConcat(w, HandleLine(w, l, a[0]), a[1..], b);
    }
  }

  // ---------- events ----------

  datatype Status = Open | Closed | Errored | Cancelled

  /**
   `waiting`: a pull is suspended at its read. `taken`: how many items have left the outbox.
   `delivered`: the items the controller accepted. `verdicts`: the breaker calls made, true for
   recordSuccess.
   */
  datatype State = State(lines: Lines, buffer: string, taken: nat, delivered: seq<string>, status: Status,
                         waiting: bool, ended: bool, verdicts: seq<bool>)

  const INITIAL := State(NO_LINES, "", 0, [], Open, false, false, [])

  datatype Event = Pull | ReadChunk(text: string) | ReadDone | ReadError | Cancel

  predicate Sound(s: State) { Orderly(s.lines.tracker) && s.taken <= |s.lines.out| }

  /**
   When an event can happen: one pull at a time, only while the stream is open; a read answers a
   suspended pull; after the end of the upstream every further read reports the end again.
   */
  predicate Enabled(s: State, e: Event) {
    match e
    case Pull => s.status.Open? && !s.waiting
    case ReadChunk(_) => Reading(s) && !s.ended
    case ReadDone => Reading(s)
    case ReadError => Reading(s) && !s.ended
    case Cancel => s.status.Open?
  }

  predicate Reading(s: State) { s.waiting && (s.status.Open? || s.status.Cancelled?) }

  predicate HasOutput(s: State) { s.taken < |s.lines.out| }

  /** outbox.shift() and enqueue; a cancelled controller refuses the item. Ends the current pull. */
  function Deliver(s: State): State
    requires Sound(s) && HasOutput(s)
  {
    s.(taken := s.taken + 1, waiting := false,
       delivered := if s.status.Cancelled? then s.delivered else s.delivered + [s.lines.out[s.taken]])
  }

  function OnPull(s: State): State
    requires Sound(s)
  {
    if HasOutput(s) then Deliver(s) else s.(waiting := true)
  }

  function OnChunk(w: Wire, s: State, text: string): State
    requires Sound(s)
  {
    var all := s.buffer + text;
    HandleLinesOnlyAppends(w, s.lines, CompleteLines(all));
    var s' := s.(lines := HandleLines(w, s.lines, CompleteLines(all)), buffer := Residue(all));
    if HasOutput(s') then Deliver(s') else s'
  }

  /** The lines after the unterminated last one has been handled. */
  function HandleResidue(w: Wire, l: Lines, buffer: string): (r: Lines)
    requires Orderly(l.tracker)
    ensures Orderly(r.tracker)
  {
    var residual := Trim(buffer);
    if residual == "" then l
    else
      HandleLineOrderly(w, l, residual);
      HandleLine(w, l, residual)
  }

  /** The last line, the held tail and the verdict; a cancelled stream only gets the last line. */
  function AtEnd(w: Wire, s: State): (r: State)
    requires Sound(s)
    ensures Orderly(r.lines.tracker) && r.status == s.status && r.waiting == s.waiting
  {
    var l := HandleResidue(w, s.lines, s.buffer);
    var s1 := s.(lines := l, buffer := "", ended := true);
    if s.status.Cancelled? then s1 else s1.(lines := Flush(w, l), verdicts := s.verdicts + [l.finished])
  }

  /** Hand over one item, or close the stream when there is none. */
  function EndPull(s: State): State
    requires Sound(s)
  {
    if HasOutput(s) then Deliver(s)
    else s.(waiting := false, status := if s.status.Cancelled? then Cancelled else Closed)
  }

  lemma AtEndSound(w: Wire, s: State)
    requires Sound(s)
    ensures Sound(AtEnd(w, s))
  {
    HandleLineOnlyAppends(w, s.lines, Trim(s.buffer));
    hide HandleLine, Orderly, RepairItems, RepairsOf, Trim;
  }

  function OnDone(w: Wire, s: State): State
    requires Sound(s)
  {
    AtEndSound(w, s);
    EndPull(AtEnd(w, s))
  }

  function OnError(s: State): State {
    if s.status.Cancelled? then s.(waiting := false)
    else s.(waiting := false, status := Errored, verdicts := s.verdicts + [false])
  }

  function Next(w: Wire, s: State, e: Event): State
    requires Sound(s)
  {
    match e
    case Pull => OnPull(s)
    case ReadChunk(text) => OnChunk(w, s, text)
    case ReadDone => OnDone(w, s)
    case ReadError => OnError(s)
    case Cancel => s.(status := Cancelled)
  }

  lemma HandleLineOnlyAppends(w: Wire, l: Lines, raw: string)
    requires Orderly(l.tracker)
    ensures l.out <= HandleLine(w, l, raw).out
  {
    hide DataOf, Orderly, FeedAll, PayloadDeltas, RepairItems, RepairsOf;
  }

  lemma {:induction false} HandleLinesOnlyAppends(w: Wire, l: Lines, lines: seq<string>)
    requires Orderly(l.tracker)
    ensures l.out <= HandleLines(w, l, lines).out
    decreases lines
  {
    if lines != [] {
      HandleLineOnlyAppends(w, l, lines[0]);
      HandleLineOrderly(w, l, lines[0]);
      HandleLinesOnlyAppends(w, HandleLine(w, l, lines[0]), lines[1..]);
    }
  }

  lemma NextSound(w: Wire, s: State, e: Event)
    requires Sound(s) && Enabled(s, e)
    ensures Sound(Next(w, s, e))
  {
    hide Orderly, RepairItems, RepairsOf, HandleLine, HandleLines, CompleteLines, Trim, Residue;
    if e.ReadChunk? {
      HandleLinesOnlyAppends(w, s.lines, CompleteLines(s.buffer + e.text));
    } else if e.ReadDone? {
      HandleLineOnlyAppends(w, s.lines, Trim(s.buffer));
    }
  }
}
