/**
 What a downstream client and the circuit breaker see of a wrapped stream, for every way the
 upstream text is cut into chunks and every schedule of pulls.
 */
module StreamTheorems {
  import opened Options
  import opened Tracker
  import opened Stream

  // ---------- runs ----------

  /** The state after a sequence of events, or None when one of them could not happen. */
  function Ran(w: Wire, es: seq<Event>): (r: Option<State>)
    ensures r.Some? ==> Sound(r.value)
  {
    if es == [] then Some(INITIAL)
    else
      var before := Ran(w, es[..|es| - 1]);
      var e := es[|es| - 1];
      if before.None? || !Enabled(before.value, e) then None
      else
        NextSound(w, before.value, e);
        Some(Next(w, before.value, e))
  }

  /** The upstream text read so far. */
  function Consumed(es: seq<Event>): string {
    if es == [] then ""
    else
      Consumed(es[..|es| - 1]) + (if es[|es| - 1].ReadChunk? then es[|es| - 1].text else "")
  }

  /** What the wrapper makes of a whole upstream text, whatever the chunks. */
  function Final(w: Wire, text: string): (r: Lines)
    ensures Orderly(r.tracker)
  {
    Flush(w, HandleResidue(w, HandleLines(w, NO_LINES, CompleteLines(text)), Residue(text)))
  }

  /** Whether the end of the upstream itself puts something into the queue. */
  predicate EndQueues(w: Wire, text: string) {
    |HandleLines(w, NO_LINES, CompleteLines(text)).out| < |Final(w, text).out|
  }

  /** Uncancelled runs: the state is a function of the text consumed and the items handed over. */
  ghost predicate Tracks(w: Wire, s: State, text: string) {
    && !s.status.Cancelled?
    && s.taken <= |s.lines.out|
    && s.delivered == s.lines.out[..s.taken]
    && (s.waiting ==> s.taken == |s.lines.out| && s.status.Open?)
    && (!s.ended ==>
          s.lines == HandleLines(w, NO_LINES, CompleteLines(text)) && s.buffer == Residue(text)
          && !s.status.Closed? && s.verdicts == if s.status.Errored? then [false] else [])
    && (s.ended ==>
          s.lines == Final(w, text) && s.buffer == "" && s.lines.flushed && !s.status.Errored?
          && (s.status.Open? ==> EndQueues(w, text))
          && s.verdicts == if s.status.Closed? && EndQueues(w, text) then [s.lines.finished, s.lines.finished] else [s.lines.finished])
    && (s.status.Closed? ==> s.ended && s.taken == |s.lines.out|)
  }

  lemma FlushAgain(w: Wire, l: Lines)
    requires Orderly(l.tracker) && l.flushed
    ensures HandleResidue(w, l, "") == l && Flush(w, l) == l
  {
  }

  lemma TakeOne(out: seq<string>, out': seq<string>, taken: nat)
    requires out <= out' && taken <= |out|
    ensures out'[..taken] == out[..taken]
    ensures taken < |out'| ==> out'[..taken + 1] == out[..taken] + [out'[taken]]
  {
  }

  lemma ChunkTracks(w: Wire, s: State, before: string, text: string)
    requires Sound(s) && Tracks(w, s, before) && Enabled(s, ReadChunk(text))
    ensures Tracks(w, OnChunk(w, s, text), before + text)
  {
    NothingIsOrderly();
    hide HandleLines, CompleteLines, Residue, Orderly, Final;
    var lines := CompleteLines(s.buffer + text);
    LinesOfConcat(before, text);
    ResidueOfConcat(before, text);
    HandleLinesConcat(w, NO_LINES, CompleteLines(before), lines);
    HandleLinesOnlyAppends(w, s.lines, lines);
    TakeOne(s.lines.out, HandleLines(w, s.lines, lines).out, s.taken);
  }

  lemma DoneTracks(w: Wire, s: State, text: string)
    requires Sound(s) && Tracks(w, s, text) && Enabled(s, ReadDone)
    ensures Tracks(w, OnDone(w, s), text)
  {
    var l := HandleResidue(w, s.lines, s.buffer);
    if s.ended {
      FlushAgain(w, s.lines);
    } else {
      HandleLineOnlyAppends(w, s.lines, Trim(s.buffer));
    }
    FlushOnlyAppends(w, l);
    TakeOne(s.lines.out, Flush(w, l).out, s.taken);
    hide HandleLines, HandleResidue, Orderly, Flush;
  }

  lemma FlushOnlyAppends(w: Wire, l: Lines)
    requires Orderly(l.tracker)
    ensures l.out <= Flush(w, l).out && Flush(w, l).finished == l.finished && Flush(w, l).flushed
  {
  }

  lemma StepTracks(w: Wire, s: State, text: string, e: Event)
    requires Sound(s) && Tracks(w, s, text) && Enabled(s, e) && !e.Cancel?
    ensures Tracks(w, Next(w, s, e), text + (if e.ReadChunk? then e.text else ""))
  {
    hide EndQueues;
    assert text + "" == text;
    match e {
      case ReadChunk(t) => ChunkTracks(w, s, text, t);
      case ReadDone => DoneTracks(w, s, text);
      case Pull => PullTracks(w, s, text);
      case ReadError =>
    }
    hide HandleLines, CompleteLines, Residue, Orderly, Final;
  }

  lemma PullTracks(w: Wire, s: State, text: string)
    requires Sound(s) && Tracks(w, s, text) && Enabled(s, Pull)
    ensures Tracks(w, OnPull(s), text)
  {
    hide HandleLines, CompleteLines, Residue, Orderly, Final, EndQueues;
    var out := s.lines.out;
    assert |out| > s.taken ==> out[..s.taken + 1] == out[..s.taken] + [out[s.taken]];
  }

  lemma {:induction false} RunTracks(w: Wire, es: seq<Event>)
    requires Ran(w, es).Some? && Cancel !in es
    ensures Tracks(w, Ran(w, es).value, Consumed(es))
  {
    if es != [] {
      var prefix, e := es[..|es| - 1], es[|es| - 1];
      RunTracks(w, prefix);
      StepTracks(w, Ran(w, prefix).value, Consumed(prefix), e);
    }
  }

  /**
   Chunking and scheduling do not matter: a closed stream has delivered exactly the output of its
   text, one whose upstream has ended a prefix of it, and what any other has delivered is a prefix of
   the output of every text that continues the one read so far.
   */
  lemma DeliveryIsFunctionOfText(w: Wire, es: seq<Event>, more: string)
    requires Ran(w, es).Some? && Cancel !in es
    ensures var s := Ran(w, es).value;
      && (s.status.Closed? ==> s.delivered == Final(w, Consumed(es)).out)
      && (s.ended ==> s.delivered <= Final(w, Consumed(es)).out)
      && (!s.ended ==> s.delivered <= Final(w, Consumed(es) + more).out)
  {
    RunTracks(w, es);
    var s, text := Ran(w, es).value, Consumed(es);
    assert s.taken == |s.lines.out| ==> s.lines.out[..s.taken] == s.lines.out;
    if !s.ended {
      LinesOfConcat(text, more);
      HandleLinesConcat(w, NO_LINES, CompleteLines(text), CompleteLines(Residue(text) + more));
      HandleLinesOnlyAppends(w, s.lines, CompleteLines(Residue(text) + more));
      var l := HandleLines(w, NO_LINES, CompleteLines(text + more));
      HandleLineOnlyAppends(w, l, Trim(Residue(text + more)));
    }
  }

  /**
   Verdicts agree: an uncancelled stream reports success exactly when it ended after a finish
   chunk or [DONE], and never both; it reports twice exactly when its end put something into the
   queue. A broken one reports one failure, an open one nothing before its upstream has ended.
   */
  lemma VerdictsAgree(w: Wire, es: seq<Event>)
    requires Ran(w, es).Some? && Cancel !in es
    ensures var s := Ran(w, es).value;
      var finished := Final(w, Consumed(es)).finished;
      && (s.status.Closed? ==> s.verdicts == if EndQueues(w, Consumed(es)) then [finished, finished] else [finished])
      && (s.status.Errored? ==> s.verdicts == [false])
      && (s.status.Open? ==> s.verdicts == if s.ended then [finished] else [])
  {
    RunTracks(w, es);
  }

  /** A cancelled stream reports nothing more, and stays cancelled. */
  lemma {:induction false} NoVerdictAfterCancel(w: Wire, es: seq<Event>, fs: seq<Event>)
    requires Ran(w, es + [Cancel] + fs).Some?
    ensures Ran(w, es).Some?
    ensures var s, s' := Ran(w, es).value, Ran(w, es + [Cancel] + fs).value;
      s'.status.Cancelled? && s'.verdicts == s.verdicts && s'.delivered == s.delivered
    decreases fs
  {
    var all := es + [Cancel] + fs;
    if fs == [] {
      assert all[..|all| - 1] == es;
    } else {
      var f := fs[|fs| - 1];
      assert all[..|all| - 1] == es + [Cancel] + fs[..|fs| - 1];
      NoVerdictAfterCancel(w, es, fs[..|fs| - 1]);
    }
  }

  lemma {:induction false} LinesSampleOnce(w: Wire, l: Lines, lines: seq<string>)
    requires Orderly(l.tracker) && l.samples <= (if l.sampled then 1 else 0)
    ensures var r := HandleLines(w, l, lines); r.samples <= (if r.sampled then 1 else 0)
    decreases lines
  {
    if lines != [] {
      LineSamplesOnce(w, l, lines[0]);
      HandleLineOrderly(w, l, lines[0]);
      LinesSampleOnce(w, HandleLine(w, l, lines[0]), lines[1..]);
    }
  }

  lemma LineSamplesOnce(w: Wire, l: Lines, raw: string)
    requires Orderly(l.tracker) && l.samples <= (if l.sampled then 1 else 0)
    ensures var r := HandleLine(w, l, raw); r.samples <= (if r.sampled then 1 else 0)
  {
    hide DataOf, Orderly, FeedAll, PayloadDeltas, RepairItems, RepairsOf;
  }

  /** At most one usage sample per stream, cancelled or not. */
  lemma {:induction false} AtMostOneSample(w: Wire, es: seq<Event>)
    requires Ran(w, es).Some?
    ensures var l := Ran(w, es).value.lines; l.samples <= (if l.sampled then 1 else 0)
  {
    if es != [] {
      var prefix, e := es[..|es| - 1], es[|es| - 1];
      AtMostOneSample(w, prefix);
      var s := Ran(w, prefix).value;
      match e {
        case ReadChunk(t) => LinesSampleOnce(w, s.lines, CompleteLines(s.buffer + t));
        case ReadDone => LineSamplesOnce(w, s.lines, Trim(s.buffer));
        case _ =>
      }
      hide HandleLines, HandleLine, CompleteLines, Residue, Orderly, Trim, RepairItems, RepairsOf, Terminated;
    }
  }

  // ---------- the shape of the output ----------

  datatype Kind = PlainLine | FinishLine | DoneLine

  /** What a line is to a wrapper that has not started holding back the tail. */
  function KindOf(w: Wire, raw: string): Kind {
    var data := DataOf(raw);
    if data.None? || data.value == "" then PlainLine
    else if data.value == DONE then DoneLine
    else
      var p := w.decode(data.value);
      if p.Some? && Finishes(p.value) && !PayloadDeltas(p.value).threw then FinishLine else PlainLine
  }

  /** The argument deltas a reader of the line takes from it. */
  function LineDeltas(w: Wire, raw: string): seq<Delta> {
    var data := DataOf(raw);
    if data.None? || data.value == "" || data.value == DONE then []
    else
      var p := w.decode(data.value);
      if p.None? then [] else PayloadDeltas(p.value).deltas
  }

  function LinesDeltas(w: Wire, lines: seq<string>): seq<Delta> {
    if lines == [] then [] else LineDeltas(w, lines[0]) + LinesDeltas(w, lines[1..])
  }

  /** The lines of an upstream text, the trimmed unterminated last one included. */
  function AllLines(text: string): seq<string> {
    var residual := Trim(Residue(text));
    CompleteLines(text) + (if residual == "" then [] else [residual])
  }

  lemma FinalByLines(w: Wire, text: string)
    ensures Final(w, text) == Flush(w, HandleLines(w, NO_LINES, AllLines(text)))
  {
    var lines, residual := CompleteLines(text), Trim(Residue(text));
    if residual == "" {
      assert lines + [] == lines;
    } else {
      HandleLinesConcat(w, NO_LINES, lines, [residual]);
      OneLine(w, HandleLines(w, NO_LINES, lines), residual);
    }
  }

  lemma OneLine(w: Wire, l: Lines, raw: string)
    requires Orderly(l.tracker)
    ensures HandleLines(w, l, [raw]) == HandleLine(w, l, raw)
  {
    HandleLineOrderly(w, l, raw);
    assert HandleLines(w, HandleLine(w, l, raw), []) == HandleLine(w, l, raw);
  }

  /** Index of the first finish or [DONE] line, or the number of lines. */
  function FirstTail(w: Wire, lines: seq<string>): (f: nat)
    ensures f <= |lines|
    ensures forall i :: 0 <= i < f ==> KindOf(w, lines[i]).PlainLine?
    ensures f < |lines| ==> !KindOf(w, lines[f]).PlainLine?
  {
    hide KindOf;
    if lines == [] || !KindOf(w, lines[0]).PlainLine? then 0 else 1 + FirstTail(w, lines[1..])
  }

  lemma PlainLineStep(w: Wire, l: Lines, raw: string)
    requires Orderly(l.tracker) && !l.finished && !l.holding && KindOf(w, raw).PlainLine?
    ensures var r := HandleLine(w, l, raw);
      && r.out == l.out + [raw + "\n"] && r.held == l.held && r.tracker == FeedAll(l.tracker, LineDeltas(w, raw))
      && !r.finished && !r.holding && r.flushed == l.flushed
  {
    hide DataOf, Orderly, RepairItems, RepairsOf;
    assert FeedAll(l.tracker, []) == l.tracker;
  }

  lemma {:induction false} PlainLinesPass(w: Wire, l: Lines, lines: seq<string>)
    requires Orderly(l.tracker) && !l.finished && !l.holding
    requires forall i :: 0 <= i < |lines| ==> KindOf(w, lines[i]).PlainLine?
    ensures var r := HandleLines(w, l, lines);
      && r.out == l.out + Terminated(lines) && r.held == l.held
      && r.tracker == FeedAll(l.tracker, LinesDeltas(w, lines))
      && !r.finished && !r.holding && r.flushed == l.flushed
    decreases lines
  {
    hide KindOf, LineDeltas, HandleLine, Orderly;
    if lines == [] {
      assert FeedAll(l.tracker, []) == l.tracker;
    } else {
      PlainLineStep(w, l, lines[0]);
      HandleLineOrderly(w, l, lines[0]);
      PlainLinesPass(w, HandleLine(w, l, lines[0]), lines[1..]);
      FeedAllConcat(l.tracker, LineDeltas(w, lines[0]), LinesDeltas(w, lines[1..]));
    }
  }

  lemma {:induction false} HeldLinesStay(w: Wire, l: Lines, lines: seq<string>)
    requires Orderly(l.tracker) && l.holding
    ensures HandleLines(w, l, lines) == l.(held := l.held + lines)
    decreases lines
  {
    if lines == [] {
      assert l.held + [] == l.held;
    } else {
      HeldLinesStay(w, l.(held := l.held + [lines[0]]), lines[1..]);
      assert l.held + [lines[0]] + lines[1..] == l.held + lines;
    }
  }

  lemma FinishLineStep(w: Wire, l: Lines, raw: string)
    requires Orderly(l.tracker) && !l.finished && !l.holding && KindOf(w, raw).FinishLine?
    ensures var r := HandleLine(w, l, raw);
      && r.out == l.out && r.held == l.held + [raw] && r.tracker == FeedAll(l.tracker, LineDeltas(w, raw))
      && r.finished && r.holding && r.flushed == l.flushed
  {
    hide DataOf, Orderly, RepairItems, RepairsOf;
  }

  lemma DoneLineStep(w: Wire, l: Lines, raw: string)
    requires Orderly(l.tracker) && !l.finished && !l.holding && !l.flushed && l.held == []
    requires KindOf(w, raw).DoneLine?
    ensures var r := HandleLine(w, l, raw);
      && r.out == l.out + RepairItems(w, RepairsOf(l.tracker), l.meta) + Terminated([raw])
      && r.held == [] && r.tracker == l.tracker && r.meta == l.meta && r.finished && r.holding && r.flushed
      && LineDeltas(w, raw) == []
  {
    hide DataOf, Orderly, RepairItems, RepairsOf;
    assert l.held + [raw] == [raw];
  }

  /** The tracker of a stream: everything up to and including its first finish or [DONE] line. */
  function Accumulated(w: Wire, lines: seq<string>): (e: Entries)
    ensures WellFormed(e)
  {
    var f := FirstTail(w, lines);
    var ds := LinesDeltas(w, if f < |lines| then lines[..f + 1] else lines);
    FeedAllWellFormed(NO_ENTRIES, ds);
    FeedAll(NO_ENTRIES, ds)
  }

  lemma {:induction false} LinesDeltasConcat(w: Wire, a: seq<string>, b: seq<string>)
    ensures LinesDeltas(w, a + b) == LinesDeltas(w, a) + LinesDeltas(w, b)
  {
    hide LineDeltas;
    if a == [] {
      assert a + b == b;
    } else {
      assert (a + b)[0] == a[0] && (a + b)[1..] == a[1..] + b;
      LinesDeltasConcat(w, a[1..], b);
    }
  }

  /** The repair items a stream inserts. */
  function Inserted(w: Wire, text: string): seq<string> {
    RepairItems(w, RepairsOf(Accumulated(w, AllLines(text))), Final(w, text).meta)
  }

  lemma HandleAround(w: Wire, l: Lines, a: seq<string>, raw: string, b: seq<string>)
    requires Orderly(l.tracker)
    ensures HandleLines(w, l, a + [raw] + b)
         == HandleLines(w, HandleLines(w, HandleLines(w, l, a), [raw]), b)
  {
    HandleLinesConcat(w, l, a + [raw], b);
    HandleLinesConcat(w, l, a, [raw]);
  }

  lemma NothingIsOrderly()
    ensures Orderly(NO_LINES.tracker)
  {
  }

  /** Handling all lines, cut at the first finish or [DONE] line. */
  lemma SplitAtTail(w: Wire, lines: seq<string>) returns (before: Lines, at: Lines)
    requires FirstTail(w, lines) < |lines|
    ensures Orderly(before.tracker) && Orderly(at.tracker)
    ensures var f := FirstTail(w, lines);
      && before == HandleLines(w, NO_LINES, lines[..f]) && at == HandleLine(w, before, lines[f])
      && HandleLines(w, NO_LINES, lines) == HandleLines(w, at, lines[f + 1..])
  {
    hide KindOf, LineDeltas, HandleLine, HandleLines, Orderly, FirstTail;
    NothingIsOrderly();
    var f := FirstTail(w, lines);
    before := HandleLines(w, NO_LINES, lines[..f]);
    at := HandleLine(w, before, lines[f]);
    assert lines == lines[..f] + [lines[f]] + lines[f + 1..];
    HandleAround(w, NO_LINES, lines[..f], lines[f], lines[f + 1..]);
    OneLine(w, before, lines[f]);
    HandleLineOrderly(w, before, lines[f]);
  }

  lemma BeforeTail(w: Wire, lines: seq<string>, before: Lines)
    requires FirstTail(w, lines) < |lines| && before == HandleLines(w, NO_LINES, lines[..FirstTail(w, lines)])
    ensures var f := FirstTail(w, lines);
      && before.out == Terminated(lines[..f]) && before.held == []
      && !before.finished && !before.holding && !before.flushed
      && FeedAll(before.tracker, LineDeltas(w, lines[f])) == Accumulated(w, lines)
  {
    assert Orderly(NO_LINES.tracker);
    hide KindOf, LineDeltas, HandleLine, Orderly;
    var f := FirstTail(w, lines);
    PlainLinesPass(w, NO_LINES, lines[..f]);
    AccumulatedSplit(w, lines);
    hide HandleLines, Accumulated, FirstTail;
    assert [] + Terminated(lines[..f]) == Terminated(lines[..f]);
  }

  lemma AccumulatedSplit(w: Wire, lines: seq<string>)
    requires FirstTail(w, lines) < |lines|
    ensures var f := FirstTail(w, lines);
      Accumulated(w, lines) == FeedAll(FeedAll(NO_ENTRIES, LinesDeltas(w, lines[..f])), LineDeltas(w, lines[f]))
  {
    hide LineDeltas, FirstTail, WellFormed;
    var f := FirstTail(w, lines);
    assert lines[..f + 1] == lines[..f] + [lines[f]];
    LinesDeltasConcat(w, lines[..f], [lines[f]]);
    OneLineDeltas(w, lines[f]);
    FeedAllConcat(NO_ENTRIES, LinesDeltas(w, lines[..f]), LineDeltas(w, lines[f]));
  }

  lemma FinishShape(w: Wire, lines: seq<string>)
    requires FirstTail(w, lines) < |lines| && KindOf(w, lines[FirstTail(w, lines)]).FinishLine?
    ensures var f, r := FirstTail(w, lines), Flush(w, HandleLines(w, NO_LINES, lines));
      r.finished
      && r.out == Terminated(lines[..f]) + RepairItems(w, RepairsOf(Accumulated(w, lines)), r.meta) + Terminated(lines[f..])
  {
    hide KindOf, LineDeltas, HandleLine, HandleLines, Orderly, RepairItems, RepairsOf, FirstTail, Accumulated, Terminated, FeedAll;
    var f := FirstTail(w, lines);
    var before, at := SplitAtTail(w, lines);
    BeforeTail(w, lines, before);
    FinishLineStep(w, before, lines[f]);
    HeldLinesStay(w, at, lines[f + 1..]);
    assert [] + [lines[f]] + lines[f + 1..] == lines[f..];
  }

  lemma DoneShape(w: Wire, lines: seq<string>)
    requires FirstTail(w, lines) < |lines| && KindOf(w, lines[FirstTail(w, lines)]).DoneLine?
    ensures var f, r := FirstTail(w, lines), Flush(w, HandleLines(w, NO_LINES, lines));
      r.finished
      && r.out == Terminated(lines[..f]) + RepairItems(w, RepairsOf(Accumulated(w, lines)), r.meta) + Terminated([lines[f]])
  {
    var f := FirstTail(w, lines);
    hide KindOf, LineDeltas, HandleLine, Orderly, RepairItems, RepairsOf, FirstTail, Accumulated, Terminated;
    var before, at := SplitAtTail(w, lines);
    BeforeTail(w, lines, before);
    DoneLineStep(w, before, lines[f]);
    assert FeedAll(before.tracker, []) == before.tracker;
    HeldLinesStay(w, at, lines[f + 1..]);
  }

  lemma PlainShape(w: Wire, lines: seq<string>)
    requires FirstTail(w, lines) == |lines|
    ensures var r := Flush(w, HandleLines(w, NO_LINES, lines)); !r.finished && r.out == Terminated(lines)
  {
    assert Orderly(NO_LINES.tracker);
    PlainLinesPass(w, NO_LINES, lines);
    hide HandleLines, Orderly, RepairItems, RepairsOf;
  }

  /**
   The output of a text, exactly. With no finish chunk and no [DONE] every line passes and the
   stream is not finished. Otherwise the repairs go in front of the first such line: a finish line
   is followed by all later lines, a [DONE] that came first ends the output.
   */
  lemma OutputShape(w: Wire, text: string)
    ensures var lines := AllLines(text);
      var f := FirstTail(w, lines);
      var r := Final(w, text);
      && r.finished == (f < |lines|)
      && (f == |lines| ==> r.out == Terminated(lines))
      && (f < |lines| && KindOf(w, lines[f]).FinishLine? ==>
            r.out == Terminated(lines[..f]) + Inserted(w, text) + Terminated(lines[f..]))
      && (f < |lines| && KindOf(w, lines[f]).DoneLine? ==>
            r.out == Terminated(lines[..f]) + Inserted(w, text) + Terminated([lines[f]]))
  {
    var lines := AllLines(text);
    var f := FirstTail(w, lines);
    FinalByLines(w, text);
    if f == |lines| {
      PlainShape(w, lines);
    } else if KindOf(w, lines[f]).FinishLine? {
      FinishShape(w, lines);
    } else {
      DoneShape(w, lines);
    }
    hide KindOf, AllLines, FirstTail, Final, HandleLines, Flush, Orderly, RepairItems, RepairsOf, Accumulated, Terminated;
  }

  lemma OneLineDeltas(w: Wire, raw: string)
    ensures LinesDeltas(w, [raw]) == LineDeltas(w, raw)
  {
    assert LinesDeltas(w, []) == [];
    assert LineDeltas(w, raw) + [] == LineDeltas(w, raw);
  }
}
