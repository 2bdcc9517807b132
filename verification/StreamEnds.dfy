/**
 How a stream ends: which texts make its wrapper give its verdict twice, and that every text can be
 read to the end.
 */
module StreamEnds {
  import opened Options
  import opened Repair
  import opened Tracker
  import opened Stream
  import opened StreamTheorems

  // ---------- what is queued before the end ----------

  lemma TailOfPrefix(w: Wire, a: seq<string>, b: seq<string>)
    ensures FirstTail(w, a) < |a| ==> FirstTail(w, a + b) == FirstTail(w, a)
    ensures FirstTail(w, a) == |a| ==> FirstTail(w, a + b) >= |a|
  {
    var f, g := FirstTail(w, a), FirstTail(w, a + b);
    hide FirstTail, KindOf;
    if g < |a| {
      assert (a + b)[g] == a[g];
    }
    if f < |a| {
      assert (a + b)[f] == a[f];
    }
  }

  lemma {:induction false} TerminatedLength(lines: seq<string>)
    ensures |Terminated(lines)| == |lines|
  {
    if lines != [] {
      TerminatedLength(lines[1..]);
    }
  }

  lemma {:induction false} ItemsLength(w: Wire, notes: seq<RepairNote>, meta: Meta)
    ensures |RepairItems(w, notes, meta)| == |notes|
  {
    if notes != [] {
      ItemsLength(w, notes[1..], meta);
    }
  }

  /** The items that a list of lines has put into the queue: a tail begun by a finish line is still held. */
  lemma QueuedByLines(w: Wire, lines: seq<string>)
    ensures var f := FirstTail(w, lines);
      |HandleLines(w, NO_LINES, lines).out|
      == if f == |lines| then f
         else if KindOf(w, lines[f]).FinishLine? then f
         else f + |RepairsOf(Accumulated(w, lines))| + 1
  {
    hide KindOf, LineDeltas, HandleLine, HandleLines, Orderly, RepairItems, RepairsOf, FirstTail, Accumulated, Terminated, FeedAll;
    NothingIsOrderly();
    var f := FirstTail(w, lines);
    TerminatedLength(lines[..f]);
    if f == |lines| {
      assert lines[..f] == lines;
      PlainLinesPass(w, NO_LINES, lines);
      TerminatedLength(lines);
    } else {
      var before, at := SplitAtTail(w, lines);
      BeforeTail(w, lines, before);
      HeldAfter(w, lines, before, at);
    }
  }

  lemma HeldAfter(w: Wire, lines: seq<string>, before: Lines, at: Lines)
    requires FirstTail(w, lines) < |lines| && Orderly(before.tracker) && Orderly(at.tracker)
    requires var f := FirstTail(w, lines);
      && at == HandleLine(w, before, lines[f]) && HandleLines(w, NO_LINES, lines) == HandleLines(w, at, lines[f + 1..])
      && before.out == Terminated(lines[..f]) && before.held == []
      && !before.finished && !before.holding && !before.flushed
      && FeedAll(before.tracker, LineDeltas(w, lines[f])) == Accumulated(w, lines)
    ensures var f := FirstTail(w, lines);
      |HandleLines(w, NO_LINES, lines).out|
      == if KindOf(w, lines[f]).FinishLine? then f else f + |RepairsOf(Accumulated(w, lines))| + 1
  {
    hide KindOf, LineDeltas, HandleLine, HandleLines, Orderly, RepairItems, RepairsOf, FirstTail, Accumulated, Terminated;
    var f := FirstTail(w, lines);
    TerminatedLength(lines[..f]);
    if KindOf(w, lines[f]).FinishLine? {
      FinishLineStep(w, before, lines[f]);
      HeldLinesStay(w, at, lines[f + 1..]);
    } else {
      DoneLineStep(w, before, lines[f]);
      HeldLinesStay(w, at, lines[f + 1..]);
      ItemsLength(w, RepairsOf(before.tracker), before.meta);
      TerminatedLength([lines[f]]);
      assert FeedAll(before.tracker, []) == before.tracker;
    }
  }

  /** The tail of a text is held by a finish line, or begins, if at all, in its unterminated last line. */
  predicate EndsLoose(w: Wire, text: string) {
    var lines := AllLines(text);
    var f := FirstTail(w, lines);
    || (f < |lines| && KindOf(w, lines[f]).FinishLine?)
    || (Trim(Residue(text)) != "" && f >= |CompleteLines(text)|)
  }

  /**
   The end of the upstream queues something exactly when a finish line holds the tail back, or when
   the last line is not blank, has no newline, and no [DONE] has come before it.
   */
  lemma EndQueuesIff(w: Wire, text: string)
    ensures EndQueues(w, text) <==> EndsLoose(w, text)
  {
    var whole, residual := CompleteLines(text), Trim(Residue(text));
    var lines := AllLines(text);
    hide KindOf, LineDeltas, HandleLines, Orderly, RepairItems, RepairsOf, FirstTail, Accumulated, Terminated, Final, CompleteLines, Residue, Trim;
    TailOfPrefix(w, whole, if residual == "" then [] else [residual]);
    assert whole + [] == whole;
    QueuedByLines(w, whole);
    OutputShape(w, text);
    var f := FirstTail(w, lines);
    ItemsLength(w, RepairsOf(Accumulated(w, lines)), Final(w, text).meta);
    TerminatedLength(lines);
    TerminatedLength(lines[..f]);
    TerminatedLength(lines[f..]);
    if f < |lines| {
      TerminatedLength([lines[f]]);
    }
    if FirstTail(w, whole) < |whole| {
      SameTracker(w, whole, lines);
    }
  }

  lemma SameTracker(w: Wire, whole: seq<string>, lines: seq<string>)
    requires whole <= lines && FirstTail(w, whole) < |whole| && FirstTail(w, lines) == FirstTail(w, whole)
    ensures Accumulated(w, lines) == Accumulated(w, whole)
  {
    hide LinesDeltas, FirstTail, FeedAll, Tracker.WellFormed, KindOf;
    SamePrefix(whole, lines, FirstTail(w, whole) + 1);
  }

  lemma SamePrefix<T>(whole: seq<T>, lines: seq<T>, n: nat)
    requires whole <= lines && n <= |whole|
    ensures n <= |lines| && lines[..n] == whole[..n]
  {
  }

  /**
   The number of verdicts, by the text alone: an uncancelled closed stream gives its verdict twice
   exactly when its text ends loose, and once otherwise; one that is not finished fails twice exactly
   when its last line is not blank and lacks its newline.
   */
  lemma VerdictsCounted(w: Wire, es: seq<Event>)
    requires Ran(w, es).Some? && Cancel !in es && Ran(w, es).value.status.Closed?
    ensures var s, text := Ran(w, es).value, Consumed(es);
      && s.verdicts == (if EndsLoose(w, text) then [Final(w, text).finished, Final(w, text).finished] else [Final(w, text).finished])
      && (!Final(w, text).finished ==> (|s.verdicts| == 2 <==> Trim(Residue(text)) != ""))
  {
    var text := Consumed(es);
    hide Ran, KindOf, Final, CompleteLines, Residue, Trim, FirstTail, EndQueues;
    VerdictsAgree(w, es);
    EndQueuesIff(w, text);
    OutputShape(w, text);
  }

  // ---------- every text can be read to its end ----------

  lemma OneMoreEvent(w: Wire, es: seq<Event>, e: Event)
    requires Ran(w, es).Some? && Enabled(Ran(w, es).value, e)
    ensures Ran(w, es + [e]).Some? && Ran(w, es + [e]).value == Next(w, Ran(w, es).value, e)
    ensures Consumed(es + [e]) == Consumed(es) + if e.ReadChunk? then e.text else ""
  {
    assert (es + [e])[..|es|] == es;
    hide Next;
  }

  /** What is left to do: two steps for an item still to be delivered, one for a pull still to come. */
  function Left(w: Wire, s: State, text: string): int {
    2 * (|Final(w, text).out| - s.taken) + if s.waiting then 0 else 1
  }

  lemma MidWithinFinal(w: Wire, text: string)
    ensures |HandleLines(w, NO_LINES, CompleteLines(text)).out| <= |Final(w, text).out|
  {
    var l := HandleLines(w, NO_LINES, CompleteLines(text));
    HandleLineOnlyAppends(w, l, Trim(Residue(text)));
    hide HandleLines, HandleLine, CompleteLines;
  }

  /** An open stream whose upstream sends no more comes to its end by pulls and reads. */
  lemma {:induction false} Drains(w: Wire, es: seq<Event>) returns (all: seq<Event>)
    requires Ran(w, es).Some? && Cancel !in es && Ran(w, es).value.status.Open?
    ensures Ran(w, all).Some? && Cancel !in all && Ran(w, all).value.status.Closed? && Consumed(all) == Consumed(es)
    decreases Left(w, Ran(w, es).value, Consumed(es))
  {
    hide Ran, Final, HandleLines, CompleteLines, Residue, HandleResidue, Flush, EndQueues, Orderly;
    var s, text := Ran(w, es).value, Consumed(es);
    RunTracks(w, es);
    MidWithinFinal(w, text);
    var e := if s.waiting then ReadDone else Pull;
    OneMoreEvent(w, es, e);
    var more := es + [e];
    assert text + "" == text;
    RunTracks(w, more);
    if Ran(w, more).value.status.Closed? {
      all := more;
    } else {
      all := Drains(w, more);
    }
  }

  /** Every text can be read, in one chunk, to a closed stream. */
  lemma EveryTextEnds(w: Wire, text: string) returns (es: seq<Event>)
    ensures Ran(w, es).Some? && Cancel !in es && Ran(w, es).value.status.Closed? && Consumed(es) == text
  {
    var first := [Pull];
    assert first[..0] == [] && Ran(w, []) == Some(INITIAL);
    assert Ran(w, first).Some? && Ran(w, first).value == Next(w, INITIAL, Pull);
    OneMoreEvent(w, first, ReadChunk(text));
    assert Consumed(first) == "";
    assert "" + text == text;
    es := Drains(w, first + [ReadChunk(text)]);
  }

  /** A trimmed line without newline. */
  predicate Line(line: string) { line != "" && Trim(line) == line && forall i :: 0 <= i < |line| ==> line[i] != '\n' }

  lemma OneLineText(line: string)
    requires Line(line)
    ensures CompleteLines(line) == [] && Residue(line) == line && AllLines(line) == [line]
    ensures CompleteLines(line + "\n") == [line] && Residue(line + "\n") == "" && AllLines(line + "\n") == [line]
  {
    hide Trim;
    assert NewlineAt(line) == -1;
    var text := line + "\n";
    assert text[|line|] == '\n' && forall i :: 0 <= i < |line| ==> text[i] == line[i];
    assert NewlineAt(text) == |line|;
    assert text[..|line|] == line && text[|line| + 1..] == "";
    assert NewlineAt("") == -1;
    assert Trim("") == "" by { TrimNothing(); }
    assert [line] + [] == [line];
    assert [] + [line] == [line];
  }

  lemma TrimNothing()
    ensures Trim("") == ""
  {
  }

  lemma OneLineTail(w: Wire, line: string)
    ensures FirstTail(w, [line]) == if KindOf(w, line).PlainLine? then 1 else 0
  {
    hide KindOf;
    assert [line][0] == line;
  }

  /**
   The four endings, each with a run: a stream of one line fails twice without its newline and once
   with it, when the line is plain; a [DONE] succeeds twice without its newline and once with it; a
   finish line succeeds twice either way.
   */
  lemma OneLineEnds(w: Wire, line: string) returns (loose: seq<Event>, clean: seq<Event>)
    requires Line(line)
    ensures Ran(w, loose).Some? && Cancel !in loose && Ran(w, loose).value.status.Closed? && Consumed(loose) == line
    ensures Ran(w, clean).Some? && Cancel !in clean && Ran(w, clean).value.status.Closed? && Consumed(clean) == line + "\n"
    ensures match KindOf(w, line)
      case PlainLine => Ran(w, loose).value.verdicts == [false, false] && Ran(w, clean).value.verdicts == [false]
      case DoneLine => Ran(w, loose).value.verdicts == [true, true] && Ran(w, clean).value.verdicts == [true]
      case FinishLine => Ran(w, loose).value.verdicts == Ran(w, clean).value.verdicts == [true, true]
  {
    hide Ran, Final, FirstTail, KindOf, Trim, CompleteLines, Residue, AllLines;
    loose := EveryTextEnds(w, line);
    clean := EveryTextEnds(w, line + "\n");
    VerdictsCounted(w, loose);
    VerdictsCounted(w, clean);
    OneLineText(line);
    OneLineTail(w, line);
    OutputShape(w, line);
    OutputShape(w, line + "\n");
    TrimNothing();
  }

  /** Such lines exist: a comment line is plain, [DONE] is itself. */
  lemma LinesOfBothKinds(w: Wire)
    ensures Line(":x") && KindOf(w, ":x").PlainLine?
    ensures Line("data:[DONE]") && KindOf(w, "data:[DONE]").DoneLine?
  {
    assert DataOf(":x").None?;
    var line := "data:[DONE]";
    assert TrimEnd(line) == line;
    assert line[5..] == DONE;
    assert TrimEnd(DONE) == DONE;
  }

  // ---------- lines after [DONE] ----------

  /** The output without the repair items, which stand in front of the first tail line. */
  function Erased(w: Wire, text: string): seq<string> {
    var out, f := Final(w, text).out, FirstTail(w, AllLines(text));
    if f == |AllLines(text)| || f + |Inserted(w, text)| > |out| then out else out[..f] + out[f + |Inserted(w, text)|..]
  }

  lemma {:induction false} TerminatedConcat(a: seq<string>, b: seq<string>)
    ensures Terminated(a + b) == Terminated(a) + Terminated(b)
  {
    if a == [] {
      assert a + b == b;
    } else {
      assert (a + b)[0] == a[0] && (a + b)[1..] == a[1..] + b;
      TerminatedConcat(a[1..], b);
    }
  }

  /**
   Erasing the repairs from the output gives the lines of the text back if and only if the first tail
   line is no [DONE], or is the last line: the lines after a [DONE] that came first are never delivered.
   */
  lemma LinesKeptIff(w: Wire, text: string)
    ensures var lines := AllLines(text);
      var f := FirstTail(w, lines);
      Erased(w, text) == Terminated(lines) <==> f == |lines| || !KindOf(w, lines[f]).DoneLine? || f == |lines| - 1
  {
    OutputShape(w, text);
    hide AllLines, KindOf, Final, Inserted, FirstTail, Terminated;
    var lines := AllLines(text);
    var f := FirstTail(w, lines);
    if f < |lines| {
      TerminatedLength(lines[..f]);
      TerminatedLength(lines);
      TerminatedLength([lines[f]]);
      assert lines[..f] + lines[f..] == lines;
      TerminatedConcat(lines[..f], lines[f..]);
      Without(Terminated(lines[..f]), Inserted(w, text), Terminated(if KindOf(w, lines[f]).DoneLine? then [lines[f]] else lines[f..]));
      if f == |lines| - 1 {
        assert lines[f..] == [lines[f]];
      }
    }
  }

  lemma Without<T>(a: seq<T>, b: seq<T>, c: seq<T>)
    ensures (a + b + c)[..|a|] + (a + b + c)[|a| + |b|..] == a + c
  {
    assert (a + b + c)[..|a|] == a && (a + b + c)[|a| + |b|..] == c;
  }

  lemma TwoLinesText(a: string, b: string)
    requires Line(a) && Line(b)
    ensures AllLines(a + "\n" + (b + "\n")) == [a, b]
  {
    hide CompleteLines, Residue, Trim, Line;
    OneLineText(a);
    OneLineText(b);
    LinesOfConcat(a + "\n", b + "\n");
    ResidueOfConcat(a + "\n", b + "\n");
    assert "" + (b + "\n") == b + "\n";
    TrimNothing();
    assert [a] + [b] == [a, b] && [a, b] + [] == [a, b];
  }

  /** A whole run of such a stream: the line after the [DONE] is not delivered. */
  lemma LineAfterDoneIsLost(w: Wire) returns (es: seq<Event>)
    ensures Ran(w, es).Some? && Cancel !in es && Ran(w, es).value.status.Closed?
    ensures Consumed(es) == "data:[DONE]" + "\n" + (":x" + "\n") && AllLines(Consumed(es)) == ["data:[DONE]", ":x"]
    ensures Ran(w, es).value.delivered == ["data:[DONE]" + "\n"]
  {
    hide Ran, Final, KindOf, AllLines, Inserted, FirstTail, Line, Consumed;
    var done, later := "data:[DONE]", ":x";
    es := EveryTextEnds(w, done + "\n" + (later + "\n"));
    LinesOfBothKinds(w);
    TwoLinesText(done, later);
    DoneComesFirst(w, done, later);
    OutputShape(w, Consumed(es));
    NothingInserted(w, Consumed(es), done, later);
    DeliveryIsFunctionOfText(w, es, "");
    assert [done, later][..0] == [] && Terminated([]) == [] && Terminated([done]) == [done + "\n"];
    assert [] + [] + [done + "\n"] == [done + "\n"];
  }

  lemma DoneComesFirst(w: Wire, done: string, later: string)
    requires KindOf(w, done).DoneLine?
    ensures FirstTail(w, [done, later]) == 0
  {
    hide KindOf;
    assert [done, later][0] == done;
  }

  lemma NothingInserted(w: Wire, text: string, done: string, later: string)
    requires AllLines(text) == [done, later] && KindOf(w, done).DoneLine? && FirstTail(w, [done, later]) == 0
    ensures Inserted(w, text) == []
  {
    hide AllLines, Final, FirstTail;
    assert LineDeltas(w, done) == [];
    assert [done, later][..1] == [done];
    OneLineDeltas(w, done);
    assert Accumulated(w, [done, later]) == NO_ENTRIES;
    assert RepairsOf(NO_ENTRIES) == [];
  }
}
