/**
 Streams in which an argument delta sits on the finish line. The tracker has seen it when it builds
 the repair, and the client gets it after the repair.
 */
module Overtaking {
  import opened Options
  import opened JsonText
  import opened Repair
  import opened Tracker
  import opened Stream
  import opened StreamTheorems
  import opened ClientView
  import opened JsonWire

  const KEY: Key := (0, 0)

  /** A chunk with one argument delta. */
  function DeltaChunk(args: string, finishes: bool): Payload {
    Payload(None, None, None, List([Choice(Some(0), Some([Call(Some(0), Some(args))]), finishes)]), None)
  }

  function DataLine(w: Wire, p: Payload): string { "data: " + w.encode(p) }

  /** An upstream of two chunks, the second one with a finish reason. */
  function TwoChunks(w: Wire, early: string, finish: string): string {
    DataLine(w, DeltaChunk(early, false)) + "\n" + (DataLine(w, DeltaChunk(finish, true)) + "\n")
  }

  lemma ChunkDeltas(args: string, finishes: bool)
    requires args != ""
    ensures PayloadDeltas(DeltaChunk(args, finishes)) == Observed([Delta(KEY, args)], false)
    ensures Finishes(DeltaChunk(args, finishes)) <==> finishes
  {
    var cs := DeltaChunk(args, finishes).choices.items;
    var calls := cs[0].toolCalls.value;
    assert CallDeltas(0, calls[1..]) == Observed([], false);
    assert ChoicesDeltas(cs[1..]) == Observed([], false);
    assert cs[0].finishes == finishes;
  }

  lemma ChunkLine(w: Wire, args: string, finishes: bool)
    requires Prints(w, DeltaChunk(args, finishes)) && args != ""
    ensures var line := DataLine(w, DeltaChunk(args, finishes));
      && NoNewline(line) && LineDeltas(w, line) == [Delta(KEY, args)]
      && KindOf(w, line) == if finishes then FinishLine else PlainLine
  {
    RepairLineData(w.encode(DeltaChunk(args, finishes)));
    ChunkDeltas(args, finishes);
    hide DataOf, PayloadDeltas, DeltaChunk;
  }

  lemma LinesOfTwo(w: Wire, early: string, finish: string)
    requires Prints(w, DeltaChunk(early, false)) && Prints(w, DeltaChunk(finish, true)) && early != "" && finish != ""
    ensures AllLines(TwoChunks(w, early, finish)) == [DataLine(w, DeltaChunk(early, false)), DataLine(w, DeltaChunk(finish, true))]
  {
    hide CompleteLines, Residue, Trim, DataLine, NoNewline, Prints;
    var a, b := DataLine(w, DeltaChunk(early, false)), DataLine(w, DeltaChunk(finish, true));
    ChunkLine(w, early, false);
    ChunkLine(w, finish, true);
    NewlineFirst(a, b + "\n");
    NewlineFirst(b, "");
    assert b + "\n" + "" == b + "\n";
    assert CompleteLines("") == [] && Trim("") == "" by { Nothing(); }
    LastLineEnds(a, b + "\n");
    LastLineEnds(b, "");
    assert [b] + [] == [b] && [a] + [b] == [a, b];
    assert TwoChunks(w, early, finish) == a + "\n" + (b + "\n");
    assert [a, b] + [] == [a, b];
  }

  lemma Nothing()
    ensures CompleteLines("") == [] && Residue("") == "" && Trim("") == ""
  {
  }

  lemma LastLineEnds(line: string, rest: string)
    requires NoNewline(line)
    ensures Residue(line + "\n" + rest) == Residue(rest)
    ensures Residue("") == ""
  {
    var s := line + "\n" + rest;
    assert s[|line|] == '\n' && forall i :: 0 <= i < |line| ==> s[i] == line[i];
    assert NewlineAt(s) == |line|;
    assert s[|line| + 1..] == rest;
  }

  /** What the client holds of such a stream, next to what the tracker repaired. */
  lemma TwoChunkClient(w: Wire, early: string, finish: string)
    requires Faithful(w) && Prints(w, DeltaChunk(early, false)) && Prints(w, DeltaChunk(finish, true))
    requires early != "" && finish != ""
    ensures var text := TwoChunks(w, early, finish);
      var s, held := SuffixText(early + finish), TextAt(Client(w, Final(w, text).out), KEY);
      && Final(w, text).finished && TextAt(Accumulated(w, AllLines(text)), KEY) == early + finish
      && held == early + s + finish
      && (held == RepairedText(early + finish) <==> s + finish == finish + s)
  {
    hide Faithful, Prints, Final, AllLines, KindOf, LineDeltas, RepairSuffix, Client, Accumulated, DataLine, DeltaChunk, TwoChunks;
    var text := TwoChunks(w, early, finish);
    var a, b := DataLine(w, DeltaChunk(early, false)), DataLine(w, DeltaChunk(finish, true));
    ChunkLine(w, early, false);
    ChunkLine(w, finish, true);
    LinesOfTwo(w, early, finish);
    assert FirstTail(w, [a, b]) == 1 by { SecondIsTail(w, a, b); }
    OutputShape(w, text);
    hide FirstTail;
    assert [a, b][..1] == [a] && [a, b][1..] == [b] && [b][1..] == [];
    OneLineDeltas(w, a);
    assert LinesDeltas(w, []) == [];
    OneText(early);
    OneText(finish);
    NoText(KEY);
    ClientTextExactly(w, text, KEY);
    assert early + SuffixText(early + finish) + finish + "" == early + SuffixText(early + finish) + finish;
  }

  lemma SecondIsTail(w: Wire, a: string, b: string)
    requires KindOf(w, a).PlainLine? && !KindOf(w, b).PlainLine?
    ensures FirstTail(w, [a, b]) == 1
  {
    hide KindOf;
    assert [a, b][0] == a && [a, b][1] == b;
  }

  lemma OneText(args: string)
    ensures TextFor([Delta(KEY, args)], KEY) == args
  {
    assert [Delta(KEY, args)][1..] == [];
    assert args + "" == args;
  }

  // ---------- three streams on a wire ----------

  /** One more character of a text. */
  lemma Reads(s: string, ch: char, t: string, c: Config, d: Config)
    requires Run(s) == c && Step(c, ch) == d && t == s + [ch]
    ensures Run(t) == d
  {
    RunSnoc(s, ch);
    hide Step;
  }

  lemma ReadsFirst(t: string, d: Config)
    requires |t| == 1 && Step(START, t[0]) == d
    ensures Run(t) == d
  {
    RunSnoc("", t[0]);
    assert Run("") == START;
    assert t == "" + [t[0]];
    hide Step, RunFrom;
  }

  const ONE := [InArray]
  const TWO := [InArray, InArray]

  /** "[{", with "}" to come: the tracker owes "]". */
  lemma ObjectCut()
    ensures RepairSuffix("[{}") == Some("]") && !Valid("[{]}")
  {
    hide Run, RepairSuffix;
    var inner := [InArray, InObject];
    assert inner[..1] == ONE;
    ReadsFirst("[", Config(ValueOrClose, ONE));
    Reads("[", '{', "[{", Config(ValueOrClose, ONE), Config(KeyOrClose, inner));
    Reads("[{", '}', "[{}", Config(KeyOrClose, inner), Config(After, ONE));
    Reads("[{", ']', "[{]", Config(KeyOrClose, inner), Config(Dead, inner));
    Reads("[{]", '}', "[{]}", Config(Dead, inner), Config(Dead, inner));
    OwesBracket("[{}");
  }

  /** Inside one list, after a value, the tracker owes one bracket. */
  lemma OwesBracket(t: string)
    requires Run(t) == Config(After, ONE) && t != "" && !IsStripped(t[|t| - 1])
    ensures RepairSuffix(t) == Some("]") && Valid(t + "]")
  {
    hide Run, RepairSuffix;
    assert ONE[..0] == [];
    Reads(t, ']', t + "]", Config(After, ONE), Config(After, []));
    RepairSuffixExact(t, "]");
  }

  /** "[[1" and then ",2]": the tracker owes "]", and putting it first gives JSON that says something else. */
  lemma ListCut()
    ensures RepairSuffix("[[1,2]") == Some("]") && Valid("[[1],2]")
  {
    hide Run, RepairSuffix, Step;
    ListOpened();
    ListAsSent();
    ListOvertaken();
  }

  lemma ListOpened()
    ensures Run("[[1") == Config(Mode.Num(Digits), TWO)
  {
    hide Run;
    ReadsFirst("[", Config(ValueOrClose, ONE));
    Reads("[", '[', "[[", Config(ValueOrClose, ONE), Config(ValueOrClose, TWO));
    Reads("[[", '1', "[[1", Config(ValueOrClose, TWO), Config(Mode.Num(Digits), TWO));
  }

  lemma ListAsSent()
    requires Run("[[1") == Config(Mode.Num(Digits), TWO)
    ensures RepairSuffix("[[1,2]") == Some("]")
  {
    hide Run, RepairSuffix;
    assert TWO[..1] == ONE;
    Reads("[[1", ',', "[[1,", Config(Mode.Num(Digits), TWO), Config(Value, TWO));
    Reads("[[1,", '2', "[[1,2", Config(Value, TWO), Config(Mode.Num(Digits), TWO));
    Reads("[[1,2", ']', "[[1,2]", Config(Mode.Num(Digits), TWO), Config(After, ONE));
    OwesBracket("[[1,2]");
  }

  lemma ListOvertaken()
    requires Run("[[1") == Config(Mode.Num(Digits), TWO)
    ensures Valid("[[1],2]")
  {
    hide Run;
    assert TWO[..1] == ONE && ONE[..0] == [];
    Reads("[[1", ']', "[[1]", Config(Mode.Num(Digits), TWO), Config(After, ONE));
    Reads("[[1]", ',', "[[1],", Config(After, ONE), Config(Value, ONE));
    Reads("[[1],", '2', "[[1],2", Config(Value, ONE), Config(Mode.Num(Digits), ONE));
    Reads("[[1],2", ']', "[[1],2]", Config(Mode.Num(Digits), ONE), Config(After, []));
  }

  /** "[[" and then "]": the tracker owes "]", and the two brackets may change places. */
  lemma BracketsCut()
    ensures RepairSuffix("[[]") == Some("]")
  {
    hide Run, RepairSuffix;
    assert TWO[..1] == ONE;
    ReadsFirst("[", Config(ValueOrClose, ONE));
    Reads("[", '[', "[[", Config(ValueOrClose, ONE), Config(ValueOrClose, TWO));
    Reads("[[", ']', "[[]", Config(ValueOrClose, TWO), Config(After, ONE));
    OwesBracket("[[]");
  }

  /** The repair of a tracked text, written out. */
  lemma RepairedIs(t: string, w: string)
    requires RepairSuffix(t) == Some(w)
    ensures SuffixText(t) == w && RepairedText(t) == t + w
  {
    hide RepairSuffix;
  }

  /**
   Three streams on the wire of JsonWire, each with a delta on its finish line. In the first the client
   is left with "[{]}", which is no JSON, where the tracker repaired "[{}]". In the second it is left with
   "[[1],2]" for "[[1,2]]": JSON, and wrong. In the third the suffix and the delta commute, and the client
   holds the repaired "[[]]".
   */
  lemma SuffixOvertakesLateDelta(now: nat)
    ensures var w := JsonWireAt(now);
      && Faithful(w)
      && TextAt(Client(w, Final(w, TwoChunks(w, "[{", "}")).out), KEY) == "[{]}" && !Valid("[{]}")
      && RepairedText("[{}") == "[{}]"
      && TextAt(Client(w, Final(w, TwoChunks(w, "[[1", ",2]")).out), KEY) == "[[1],2]" && Valid("[[1],2]")
      && RepairedText("[[1,2]") == "[[1,2]]"
      && TextAt(Client(w, Final(w, TwoChunks(w, "[[", "]")).out), KEY) == "[[]]" == RepairedText("[[]")
  {
    hide Faithful, Prints, Final, AllLines, RepairSuffix, Client, Accumulated, TwoChunks, Valid, RepairedText, DeltaChunk, JsonWireAt;
    var w := JsonWireAt(now);
    WireFaithful(now);
    Printed(now, "[{", "}");
    Printed(now, "[[1", ",2]");
    Printed(now, "[[", "]");
    TwoChunkClient(w, "[{", "}");
    TwoChunkClient(w, "[[1", ",2]");
    TwoChunkClient(w, "[[", "]");
    ObjectCut();
    ListCut();
    BracketsCut();
    Written();
    RepairedIs("[{}", "]");
    RepairedIs("[[1,2]", "]");
    RepairedIs("[[]", "]");
  }

  lemma Written()
    ensures "[{" + "}" == "[{}" && "[{" + "]" + "}" == "[{]}" && "[{}" + "]" == "[{}]"
    ensures "[[1" + ",2]" == "[[1,2]" && "[[1" + "]" + ",2]" == "[[1],2]" && "[[1,2]" + "]" == "[[1,2]]"
    ensures "[[" + "]" == "[[]" && "[[" + "]" + "]" == "[[]]" && "[[]" + "]" == "[[]]"
  {
  }

  lemma Printed(now: nat, early: string, finish: string)
    ensures Prints(JsonWireAt(now), DeltaChunk(early, false)) && Prints(JsonWireAt(now), DeltaChunk(finish, true))
  {
    hide Prints, JsonWireAt;
    WirePrints(now, DeltaChunk(early, false));
    WirePrints(now, DeltaChunk(finish, true));
  }
}
