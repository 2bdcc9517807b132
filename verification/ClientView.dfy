/**
 The stream as a client reads it: the delivered text cut into lines again, the argument deltas of
 its data lines merged by index.
 */
module ClientView {
  import opened Options
  import opened JsonText
  import opened Repair
  import opened Tracker
  import opened Stream
  import opened StreamTheorems

  predicate NoNewline(s: string) { forall i :: 0 <= i < |s| ==> s[i] != '\n' }

  predicate Compact(s: string) {
    s != "" && NoNewline(s) && !IsJsSpace(s[0]) && !IsJsSpace(s[|s| - 1])
  }

  /** A chunk is printed as one compact line other than the [DONE] marker, and parses back. */
  predicate Prints(w: Wire, p: Payload) {
    Compact(w.encode(p)) && w.encode(p) != DONE && w.decode(w.encode(p)) == Some(p)
  }

  /** What JSON.stringify and JSON.parse give each other on the repair chunks; JsonWire has such a wire. */
  ghost predicate Faithful(w: Wire) {
    forall note: RepairNote, meta: Meta :: Prints(w, BuildRepairChunk(note, meta, w.now))
  }

  function Join(items: seq<string>): string {
    if items == [] then "" else items[0] + Join(items[1..])
  }

  /** The lines a client cuts the delivered text into. */
  function Received(items: seq<string>): seq<string> { CompleteLines(Join(items)) }

  // ---------- cutting the delivered text ----------

  lemma NewlineFirst(line: string, rest: string)
    requires NoNewline(line)
    ensures CompleteLines(line + "\n" + rest) == [line] + CompleteLines(rest)
  {
    var s := line + "\n" + rest;
    assert s[|line|] == '\n' && forall i :: 0 <= i < |line| ==> s[i] == line[i];
    assert NewlineAt(s) == |line|;
    assert s[..|line|] == line && s[|line| + 1..] == rest;
  }

  lemma {:induction false} JoinConcat(a: seq<string>, b: seq<string>)
    ensures Join(a + b) == Join(a) + Join(b)
    decreases a
  {
    if a == [] {
      assert a + b == b && "" + Join(b) == Join(b);
    } else {
      assert (a + b)[0] == a[0] && (a + b)[1..] == a[1..] + b;
      JoinConcat(a[1..], b);
    }
  }

  lemma {:induction false} TerminatedLinesReturn(lines: seq<string>, rest: string)
    requires forall i :: 0 <= i < |lines| ==> NoNewline(lines[i])
    ensures CompleteLines(Join(Terminated(lines)) + rest) == lines + CompleteLines(rest)
    decreases lines
  {
    hide NewlineAt, NoNewline, CompleteLines;
    if lines == [] {
      assert "" + rest == rest;
    } else {
      var joined, tail := Join(Terminated(lines)), Join(Terminated(lines[1..]));
      TerminatedLinesReturn(lines[1..], rest);
      NewlineFirst(lines[0], tail + rest);
      JoinTerminated(lines);
      assert joined + rest == lines[0] + "\n" + (tail + rest);
      assert [lines[0]] + (lines[1..] + CompleteLines(rest)) == lines + CompleteLines(rest);
    }
  }

  lemma JoinTerminated(lines: seq<string>)
    requires lines != []
    ensures Join(Terminated(lines)) == lines[0] + "\n" + Join(Terminated(lines[1..]))
  {
    assert Terminated(lines)[1..] == Terminated(lines[1..]);
  }

  function RepairText(w: Wire, note: RepairNote, meta: Meta): string {
    w.encode(BuildRepairChunk(note, meta, w.now))
  }

  function RepairLines(w: Wire, notes: seq<RepairNote>, meta: Meta): seq<string> {
    if notes == [] then [] else ["data: " + RepairText(w, notes[0], meta), ""] + RepairLines(w, notes[1..], meta)
  }

  lemma RepairTextCompact(w: Wire, note: RepairNote, meta: Meta)
    requires Faithful(w)
    ensures var x := RepairText(w, note, meta);
      Compact(x) && x != DONE && w.decode(x) == Some(BuildRepairChunk(note, meta, w.now))
  {
    assert Prints(w, BuildRepairChunk(note, meta, w.now));
  }

  lemma BlankLineAfter(line: string, rest: string)
    requires NoNewline(line)
    ensures CompleteLines(line + "\n\n" + rest) == [line, ""] + CompleteLines(rest)
  {
    assert NoNewline("");
    hide CompleteLines, NewlineAt, NoNewline;
    assert line + "\n\n" + rest == line + "\n" + ("" + "\n" + rest);
    NewlineFirst(line, "" + "\n" + rest);
    NewlineFirst("", rest);
    assert [line] + ([""] + CompleteLines(rest)) == [line, ""] + CompleteLines(rest);
  }

  lemma RepairItemReturns(w: Wire, note: RepairNote, meta: Meta, rest: string)
    requires Faithful(w)
    ensures CompleteLines(RepairItem(w, note, meta) + rest)
         == ["data: " + RepairText(w, note, meta), ""] + CompleteLines(rest)
  {
    RepairTextCompact(w, note, meta);
    hide CompleteLines, NewlineAt, Faithful, BuildRepairChunk;
    BlankLineAfter("data: " + RepairText(w, note, meta), rest);
  }

  lemma {:induction false} RepairItemsReturn(w: Wire, notes: seq<RepairNote>, meta: Meta, rest: string)
    requires Faithful(w)
    ensures CompleteLines(Join(RepairItems(w, notes, meta)) + rest) == RepairLines(w, notes, meta) + CompleteLines(rest)
    decreases notes
  {
    hide NewlineAt, Faithful, CompleteLines, RepairItem, RepairText;
    if notes == [] {
      assert "" + rest == rest;
    } else {
      var tail := Join(RepairItems(w, notes[1..], meta));
      RepairItemsReturn(w, notes[1..], meta, rest);
      RepairItemReturns(w, notes[0], meta, tail + rest);
      assert RepairItems(w, notes, meta)[1..] == RepairItems(w, notes[1..], meta);
      assert Join(RepairItems(w, notes, meta)) + rest == RepairItem(w, notes[0], meta) + (tail + rest);
    }
  }

  // ---------- lines of the upstream hold no newline ----------

  lemma {:induction false} CompleteLinesClean(s: string)
    ensures forall i :: 0 <= i < |CompleteLines(s)| ==> NoNewline(CompleteLines(s)[i])
    ensures NoNewline(Residue(s))
    decreases |s|
  {
    var k := NewlineAt(s);
    if k != -1 {
      CompleteLinesClean(s[k + 1..]);
    }
  }

  lemma {:induction false} TrimStartClean(s: string)
    requires NoNewline(s)
    ensures NoNewline(TrimStart(s))
    decreases |s|
  {
    if s != [] && IsJsSpace(s[0]) {
      TrimStartClean(s[1..]);
    }
  }

  lemma AllLinesClean(text: string)
    ensures forall i :: 0 <= i < |AllLines(text)| ==> NoNewline(AllLines(text)[i])
  {
    CompleteLinesClean(text);
    TrimStartClean(TrimEnd(Residue(text)));
  }

  // ---------- deltas of repair lines ----------

  lemma RepairLineData(x: string)
    requires Compact(x)
    ensures DataOf("data: " + x) == Some(x)
  {
    var line := "data: " + x;
    assert line[|line| - 1] == x[|x| - 1] && line[0] == 'd';
    assert Trim(line) == line;
    assert line[|DATA|..] == " " + x;
    assert (" " + x)[1..] == x;
    assert TrimEnd(" " + x) == " " + x;
    assert TrimStart(" " + x) == TrimStart(x) == x;
  }

  lemma RepairLineDeltas(w: Wire, note: RepairNote, meta: Meta)
    requires Faithful(w) && note.suffix != ""
    ensures LineDeltas(w, "data: " + RepairText(w, note, meta)) == [Delta(note.key, note.suffix)]
  {
    RepairTextCompact(w, note, meta);
    RepairLineData(RepairText(w, note, meta));
    ChunkCarriesSuffix(note, meta, w.now);
    hide DataOf, RepairText, BuildRepairChunk, Faithful;
  }

  lemma {:induction false} RepairLinesDeltas(w: Wire, notes: seq<RepairNote>, meta: Meta)
    requires Faithful(w) && forall i :: 0 <= i < |notes| ==> notes[i].suffix != ""
    ensures LinesDeltas(w, RepairLines(w, notes, meta)) == NoteDeltas(notes)
    decreases notes
  {
    assert LineDeltas(w, "") == [];
    hide LineDeltas, Faithful, RepairText;
    if notes != [] {
      var rest := RepairLines(w, notes[1..], meta);
      RepairLinesDeltas(w, notes[1..], meta);
      RepairLineDeltas(w, notes[0], meta);
      TwoLineDeltas(w, "data: " + RepairText(w, notes[0], meta), "", rest);
    }
  }

  lemma TwoLineDeltas(w: Wire, a: string, b: string, rest: seq<string>)
    ensures LinesDeltas(w, [a, b] + rest) == LineDeltas(w, a) + LineDeltas(w, b) + LinesDeltas(w, rest)
  {
    hide LineDeltas;
    OneLineDeltas(w, b);
    LinesDeltasConcat(w, [a, b], rest);
    LinesDeltasConcat(w, [a], [b]);
    OneLineDeltas(w, a);
    assert [a] + [b] == [a, b];
  }

  lemma {:induction false} NotesHaveText(e: Entries, order: seq<Key>)
    requires forall i :: 0 <= i < |order| ==> order[i] in e.args
    ensures forall i :: 0 <= i < |RepairsFrom(e, order)| ==> RepairsFrom(e, order)[i].suffix != ""
    decreases order
  {
    if order != [] {
      NotesHaveText(e, order[1..]);
      SuffixIffFirstRoundClean(e.args[order[0]]);
      hide RepairSuffix, OwedClosing, FirstRoundClean;
    }
  }

  // ---------- the client's view ----------

  /** Lines the client still receives from the first finish or [DONE] line on. */
  function LateLines(w: Wire, text: string): seq<string> {
    var lines := AllLines(text);
    var f := FirstTail(w, lines);
    if f == |lines| then []
    else if KindOf(w, lines[f]).FinishLine? then lines[f..]
    else [lines[f]]
  }

  function EarlyLines(w: Wire, text: string): seq<string> {
    var lines := AllLines(text);
    lines[..FirstTail(w, lines)]
  }

  function Repairs(w: Wire, text: string): seq<RepairNote> {
    if Final(w, text).finished then RepairsOf(Accumulated(w, AllLines(text))) else []
  }

  lemma OutputParts(w: Wire, text: string)
    ensures Final(w, text).out
         == Terminated(EarlyLines(w, text)) + RepairItems(w, Repairs(w, text), Final(w, text).meta)
            + Terminated(LateLines(w, text))
  {
    OutputShape(w, text);
    hide AllLines, KindOf, Final, Accumulated, RepairsOf, FirstTail;
    var lines := AllLines(text);
    var f := FirstTail(w, lines);
    if f == |lines| {
      assert lines[..f] == lines;
    }
  }

  lemma PartsReturn(w: Wire, early: seq<string>, notes: seq<RepairNote>, meta: Meta, late: seq<string>)
    requires Faithful(w)
    requires forall i :: 0 <= i < |early| ==> NoNewline(early[i])
    requires forall i :: 0 <= i < |late| ==> NoNewline(late[i])
    ensures Received(Terminated(early) + RepairItems(w, notes, meta) + Terminated(late))
         == early + RepairLines(w, notes, meta) + late
  {
    assert CompleteLines("") == [];
    hide NoNewline, CompleteLines, Faithful, Terminated, RepairItems, RepairLines, Join;
    var a, b, c := Terminated(early), RepairItems(w, notes, meta), Terminated(late);
    JoinConcat(a + b, c);
    JoinConcat(a, b);
    Regroup(Join(a), Join(b), Join(c));
    TerminatedLinesReturn(early, Join(b) + (Join(c) + ""));
    RepairItemsReturn(w, notes, meta, Join(c) + "");
    TerminatedLinesReturn(late, "");
    Regroup(early, RepairLines(w, notes, meta), late);
  }

  lemma Regroup<T>(a: seq<T>, b: seq<T>, c: seq<T>)
    ensures (a + b) + c == a + (b + (c + []))
  {
    assert c + [] == c;
  }

  /** The client receives the early lines, one data line per repair, and the late lines. */
  lemma ReceivedLines(w: Wire, text: string)
    requires Faithful(w)
    ensures Received(Final(w, text).out)
         == EarlyLines(w, text) + RepairLines(w, Repairs(w, text), Final(w, text).meta) + LateLines(w, text)
  {
    AllLinesClean(text);
    OutputParts(w, text);
    hide AllLines, KindOf, Final, Repairs, RepairItems, RepairLines, NoNewline, Received, Faithful, FirstTail;
    PartsReturn(w, EarlyLines(w, text), Repairs(w, text), Final(w, text).meta, LateLines(w, text));
  }

  /** The argument state of a client that has read `items`. */
  function Client(w: Wire, items: seq<string>): Entries {
    FeedAll(NO_ENTRIES, LinesDeltas(w, Received(items)))
  }

  /**
   Unconditionally, a client's text for a key is: the deltas before the first finish or [DONE]
   line, then the repair suffix, then the deltas it still receives on or after that line.
   */
  lemma ClientDeltas(w: Wire, text: string)
    requires Faithful(w)
    ensures LinesDeltas(w, Received(Final(w, text).out))
         == LinesDeltas(w, EarlyLines(w, text)) + NoteDeltas(Repairs(w, text)) + LinesDeltas(w, LateLines(w, text))
  {
    var notes, meta := Repairs(w, text), Final(w, text).meta;
    var e := Accumulated(w, AllLines(text));
    NotesHaveText(e, e.order);
    ReceivedLines(w, text);
    RepairLinesDeltas(w, notes, meta);
    LinesDeltasConcat(w, EarlyLines(w, text) + RepairLines(w, notes, meta), LateLines(w, text));
    LinesDeltasConcat(w, EarlyLines(w, text), RepairLines(w, notes, meta));
  }

  /**
   When no argument delta arrives on or after the first finish or [DONE] line of a finished
   stream, every key the client holds has its accumulated text completed by the repair: truncated
   arguments arrive as JSON, all others as the upstream sent them.
   */
  lemma ClientGetsCompleteArguments(w: Wire, text: string)
    requires Faithful(w) && Final(w, text).finished && LinesDeltas(w, LateLines(w, text)) == []
    ensures var e := Accumulated(w, AllLines(text));
      var c := Client(w, Final(w, text).out);
      && c.order == e.order && c.args.Keys == e.args.Keys
      && (forall k :: k in e.args ==> c.args[k] == RepairedText(e.args[k]))
      && (forall k :: k in e.args && RepairSuffix(e.args[k]).Some? ==> Valid(c.args[k]))
  {
    var lines := AllLines(text);
    var f := FirstTail(w, lines);
    var e := Accumulated(w, lines);
    OutputShape(w, text);
    ClientDeltas(w, text);
    NoLateDelta(w, text);
    FeedingRepairsBack(e);
    hide AllLines, KindOf, Final, FirstTail, RepairSuffix, Received, Faithful;
    var early, notes := LinesDeltas(w, EarlyLines(w, text)), NoteDeltas(RepairsOf(e));
    assert early + notes + [] == early + notes;
    FeedAllConcat(NO_ENTRIES, early, notes);
  }

  /** Then the tracker holds the deltas of the early lines only. */
  lemma NoLateDelta(w: Wire, text: string)
    requires Final(w, text).finished && LinesDeltas(w, LateLines(w, text)) == []
    ensures Accumulated(w, AllLines(text)) == FeedAll(NO_ENTRIES, LinesDeltas(w, EarlyLines(w, text)))
  {
    OutputShape(w, text);
    hide AllLines, Final, FirstTail, LineDeltas;
    var lines := AllLines(text);
    var f := FirstTail(w, lines);
    AccumulatedSplit(w, lines);
    var late := LateLines(w, text);
    assert late[0] == lines[f];
    assert LineDeltas(w, late[0]) == [];
    assert FeedAll(FeedAll(NO_ENTRIES, LinesDeltas(w, lines[..f])), []) == FeedAll(NO_ENTRIES, LinesDeltas(w, lines[..f]));
  }

  // ---------- one key at a time ----------

  /** What a key gets before the first finish or [DONE] line, on it, and after it. */
  function EarlyText(w: Wire, text: string, k: Key): string { TextFor(LinesDeltas(w, EarlyLines(w, text)), k) }

  function FinishText(w: Wire, text: string, k: Key): string {
    var late := LateLines(w, text);
    if late == [] then "" else TextFor(LineDeltas(w, late[0]), k)
  }

  function LaterText(w: Wire, text: string, k: Key): string {
    var late := LateLines(w, text);
    if late == [] then "" else TextFor(LinesDeltas(w, late[1..]), k)
  }

  function SuffixText(args: string): string { if RepairSuffix(args).Some? then RepairSuffix(args).value else "" }

  lemma {:induction false} TextForConcat(a: seq<Delta>, b: seq<Delta>, k: Key)
    ensures TextFor(a + b, k) == TextFor(a, k) + TextFor(b, k)
  {
    if a == [] {
      assert a + b == b;
    } else {
      assert (a + b)[0] == a[0] && (a + b)[1..] == a[1..] + b;
      TextForConcat(a[1..], b, k);
    }
  }

  lemma NothingToComplete()
    ensures SuffixText("") == ""
  {
    hide Rounds;
  }

  lemma AccumulatedText(w: Wire, text: string, k: Key)
    requires Final(w, text).finished
    ensures TextAt(Accumulated(w, AllLines(text)), k) == EarlyText(w, text, k) + FinishText(w, text, k)
  {
    OutputShape(w, text);
    hide AllLines, Final, FirstTail, LineDeltas, LinesDeltas, FeedAll, TextFor;
    var lines := AllLines(text);
    AccumulatedSplit(w, lines);
    var early, finish := LinesDeltas(w, lines[..FirstTail(w, lines)]), LineDeltas(w, lines[FirstTail(w, lines)]);
    AccumulatesInOrder(NO_ENTRIES, early, k);
    AccumulatesInOrder(FeedAll(NO_ENTRIES, early), finish, k);
    assert "" + TextFor(early, k) == TextFor(early, k);
  }

  lemma NotesText(w: Wire, text: string, k: Key)
    requires Final(w, text).finished
    ensures TextFor(NoteDeltas(Repairs(w, text)), k) == SuffixText(TextAt(Accumulated(w, AllLines(text)), k))
  {
    var e := Accumulated(w, AllLines(text));
    hide AllLines, Final, Accumulated, RepairSuffix;
    RepairDeltasPerKey(e, e.order, k);
    NothingToComplete();
  }

  lemma LateText(w: Wire, text: string, k: Key)
    ensures TextFor(LinesDeltas(w, LateLines(w, text)), k) == FinishText(w, text, k) + LaterText(w, text, k)
  {
    hide LineDeltas, LateLines, TextFor;
    var late := LateLines(w, text);
    if late != [] {
      TextForConcat(LineDeltas(w, late[0]), LinesDeltas(w, late[1..]), k);
    } else {
      assert TextFor([], k) == "" by { NoText(k); }
    }
  }

  lemma NoText(k: Key)
    ensures TextFor([], k) == ""
  {
  }

  /** A text put before or behind another. */
  lemma Overtaking(p: string, s: string, f: string, a: string)
    ensures p + s + f + a == p + f + s <==> a == "" && s + f == f + s
  {
    if p + s + f + a == p + f + s {
      assert |a| == 0;
      assert s + f == (p + s + f + a)[|p|..] == (p + f + s)[|p|..] == f + s;
    }
    if a == "" && s + f == f + s {
      assert p + s + f + a == p + (s + f) == p + (f + s) == p + f + s;
    }
  }

  /**
   What a client holds for one key of a finished stream, whatever happens to the others: the early
   text, the suffix, the text of the finish line and the text after it. The tracker repairs the early
   text with that of the finish line, and the client holds the repaired text if and only if nothing
   comes for the key after the finish line and the suffix and the text of the finish line commute.
   */
  lemma ClientTextExactly(w: Wire, text: string, k: Key)
    requires Faithful(w) && Final(w, text).finished
    ensures var p, f, a := EarlyText(w, text, k), FinishText(w, text, k), LaterText(w, text, k);
      var s, held := SuffixText(p + f), TextAt(Client(w, Final(w, text).out), k);
      && TextAt(Accumulated(w, AllLines(text)), k) == p + f
      && held == p + s + f + a
      && (held == RepairedText(p + f) <==> a == "" && s + f == f + s)
  {
    hide Faithful, Final, AllLines, Received, EarlyLines, LateLines, FinishText, LaterText, Repairs, RepairSuffix, NoteDeltas, LinesDeltas, TextFor, FeedAll, Accumulated;
    var p, f, a := EarlyText(w, text, k), FinishText(w, text, k), LaterText(w, text, k);
    ClientDeltas(w, text);
    AccumulatedText(w, text, k);
    NotesText(w, text, k);
    LateText(w, text, k);
    var early, notes, late := LinesDeltas(w, EarlyLines(w, text)), NoteDeltas(Repairs(w, text)), LinesDeltas(w, LateLines(w, text));
    AccumulatesInOrder(NO_ENTRIES, early + notes + late, k);
    TextForConcat(early + notes, late, k);
    TextForConcat(early, notes, k);
    HeldText(p, SuffixText(p + f), f, a);
  }

  lemma HeldText(p: string, s: string, f: string, a: string)
    ensures "" + ((p + s) + (f + a)) == p + s + f + a
    ensures p + s + f + a == p + f + s <==> a == "" && s + f == f + s
    ensures p + f + "" == p + f
  {
    Overtaking(p, s, f, a);
  }
}
