/**
 The truncated-JSON repair of src/llm-gateway/tool-call-argument-repair.ts: the lexical scan,
 the backtracking closer, and what exactly the append-only filter of `repairs()` lets through.
 */
module Repair {
  import opened Options
  import opened JsonText

  // ---------- the lexical scan ----------

  /** `stack` holds the closing brackets that are still owed, innermost last. */
  datatype ScanState = ScanState(inString: bool, escape: bool, stack: seq<char>)

  const SCAN_START := ScanState(false, false, [])

  function ScanStep(s: ScanState, ch: char): ScanState {
    if s.escape then s.(escape := false)
    else if s.inString then
      if ch == '\\' then s.(escape := true)
      else if ch == '"' then s.(inString := false)
      else s
    else if ch == '"' then s.(inString := true)
    else if ch == '{' then s.(stack := s.stack + ['}'])
    else if ch == '[' then s.(stack := s.stack + [']'])
    else if ch == '}' || ch == ']' then
      s.(stack := if s.stack == [] then [] else s.stack[..|s.stack| - 1])
    else s
  }

  function Scan(text: string): ScanState {
    if text == [] then SCAN_START
    else ScanStep(Scan(text[..|text| - 1]), text[|text| - 1])
  }

  lemma ScanSnoc(text: string, ch: char)
    ensures Scan(text + [ch]) == ScanStep(Scan(text), ch)
  {
    assert (text + [ch])[..|text|] == text;
  }

  method ScanJsonState(text: string) returns (state: ScanState)
    ensures state == Scan(text)
  {
    var inString, escape := false, false;
    var stack: seq<char> := [];
    for i := 0 to |text|
      invariant ScanState(inString, escape, stack) == Scan(text[..i])
    {
      ScanSnoc(text[..i], text[i]);
      assert text[..i + 1] == text[..i] + [text[i]];
      var ch := text[i];
      if escape {
        escape := false;
        continue;
      }
      if inString {
        if ch == '\\' {
          escape := true;
        } else if ch == '"' {
          inString := false;
        }
        continue;
      }
      if ch == '"' {
        inString := true;
      } else if ch == '{' || ch == '[' {
        stack := stack + [if ch == '{' then '}' else ']'];
      } else if ch == '}' || ch == ']' {
        if |stack| > 0 {
          stack := stack[..|stack| - 1];
        }
      }
    }
    assert text[..|text|] == text;
    state := ScanState(inString, escape, stack);
  }

  // ---------- the scan abstracts the recogniser ----------

  function Closers(stack: seq<Frame>): (r: seq<char>)
    ensures |r| == |stack|
    ensures forall i :: 0 <= i < |r| ==> r[i] == Closer(stack[i])
  {
    seq(|stack|, i requires 0 <= i < |stack| => Closer(stack[i]))
  }

  function Abstract(c: Config): ScanState {
    ScanState(c.mode.Str? || c.mode.Esc? || c.mode.Hex?, c.mode.Esc?, Closers(c.stack))
  }

  /** What is left of a literal name contains only letters. */
  predicate Sane(c: Config) {
    c.mode.Word? ==> forall i :: 0 <= i < |c.mode.rest| ==> 'a' <= c.mode.rest[i] <= 'z'
  }

  lemma AbstractStartValue(stack: seq<Frame>, ch: char)
    requires !StartValue(stack, ch).mode.Dead?
    ensures Sane(StartValue(stack, ch))
    ensures Abstract(StartValue(stack, ch)) == ScanStep(ScanState(false, false, Closers(stack)), ch)
  {
    CloserPushed(stack, InObject);
    CloserPushed(stack, InArray);
    hide Closers;
  }

  lemma AbstractClose(stack: seq<Frame>, ch: char)
    requires !Close(stack, ch).mode.Dead?
    ensures !Close(stack, ch).mode.Word?
    ensures Abstract(Close(stack, ch)) == ScanStep(ScanState(false, false, Closers(stack)), ch)
  {
    var rest, top := stack[..|stack| - 1], stack[|stack| - 1];
    assert rest + [top] == stack;
    CloserPushed(rest, top);
    hide Closers;
  }

  lemma AbstractAfterValue(stack: seq<Frame>, ch: char)
    requires !AfterValue(stack, ch).mode.Dead?
    ensures !AfterValue(stack, ch).mode.Word?
    ensures Abstract(AfterValue(stack, ch)) == ScanStep(ScanState(false, false, Closers(stack)), ch)
  {
    hide Closers;
    if IsCloser(ch) {
      AbstractClose(stack, ch);
    }
  }

  lemma AbstractStep(c: Config, ch: char)
    requires Sane(c) && !Step(c, ch).mode.Dead?
    ensures Sane(Step(c, ch))
    ensures Abstract(Step(c, ch)) == ScanStep(Abstract(c), ch)
  {
    hide Closers, StartValue, Close, AfterValue;
    match c.mode {
      case Value => if !IsWs(ch) { AbstractStartValue(c.stack, ch); }
      case ValueOrClose =>
        if ch == ']' { AbstractClose(c.stack, ch); } else if !IsWs(ch) { AbstractStartValue(c.stack, ch); }
      case KeyOrClose => if ch == '}' { AbstractClose(c.stack, ch); }
      case After => AbstractAfterValue(c.stack, ch);
      case Num(n) => if !NumberNext(n, ch).0 { AbstractAfterValue(c.stack, ch); }
      case Word(rest) => assert 'a' <= rest[0] <= 'z';
      case _ =>
    }
  }

  lemma CloserPushed(stack: seq<Frame>, f: Frame)
    ensures Closers(stack + [f]) == Closers(stack) + [Closer(f)]
  {
  }

  /** The scan is the recogniser with everything but nesting and string quoting forgotten. */
  lemma {:induction false} ScanAbstractsRun(text: string)
    requires !Run(text).mode.Dead?
    ensures Sane(Run(text)) && Scan(text) == Abstract(Run(text))
  {
    if text != [] {
      var prefix, ch := text[..|text| - 1], text[|text| - 1];
      assert text == prefix + [ch];
      RunSnoc(prefix, ch);
      ScanAbstractsRun(prefix);
      AbstractStep(Run(prefix), ch);
    }
  }

  // ---------- closing texts ----------

  /** An optional quote followed by closing brackets: all the repair may ever append. */
  predicate IsClosing(w: string) {
    forall i :: 0 <= i < |w| ==> IsCloser(w[i]) || (i == 0 && w[i] == '"')
  }

  function Reversed(s: string): (r: string)
    ensures |r| == |s|
    ensures forall i :: 0 <= i < |r| ==> r[i] == s[|s| - 1 - i]
  {
    seq(|s|, i requires 0 <= i < |s| => s[|s| - 1 - i])
  }

  /** The closing text read off the scan: a quote if inside a string, then the owed brackets. */
  function OwedClosing(text: string): string {
    var s := Scan(text);
    (if s.inString then "\"" else "") + Reversed(s.stack)
  }

  /** Inside a string without a quote ahead, closing brackets never lead out. */
  lemma {:induction false} BracketsInString(c: Config, w: string)
    requires c.mode.Str? || c.mode.Esc? || c.mode.Hex?
    requires forall i :: 0 <= i < |w| ==> IsCloser(w[i])
    ensures !Accepting(RunFrom(c, w))
    decreases w
  {
    if w != [] {
      var d := Step(c, w[0]);
      if d.mode.Dead? {
        DeadStaysDead(d, w[1..]);
      } else {
        BracketsInString(d, w[1..]);
      }
    }
  }

  predicate Closable(m: Mode) {
    m.After? || (m.Num? && Complete(m.state)) || m.ValueOrClose? || m.KeyOrClose?
  }

  /** A bracket that does not kill the text pops the frame it closes. */
  lemma BracketStep(c: Config, ch: char)
    requires Sane(c) && !(c.mode.Str? || c.mode.Esc? || c.mode.Hex?) && IsCloser(ch)
    requires !Step(c, ch).mode.Dead?
    ensures Closable(c.mode) && |c.stack| > 0 && ch == Closer(c.stack[|c.stack| - 1])
    ensures Step(c, ch).mode.After? && Step(c, ch).stack + [c.stack[|c.stack| - 1]] == c.stack
  {
  }

  /** Closing brackets that complete a text are exactly the owed ones, innermost first. */
  lemma {:induction false} BracketsClose(c: Config, w: string)
    requires Sane(c) && !(c.mode.Str? || c.mode.Esc? || c.mode.Hex?)
    requires forall i :: 0 <= i < |w| ==> IsCloser(w[i])
    requires Accepting(RunFrom(c, w))
    ensures w == Reversed(Closers(c.stack))
    ensures w != [] ==> Closable(c.mode)
    decreases w
  {
    hide Step, Closers;
    if w == [] {
      assert Reversed(Closers(c.stack)) == [];
    } else {
      var d := Step(c, w[0]);
      if d.mode.Dead? {
        DeadStaysDead(d, w[1..]);
        assert false;
      } else {
        BracketStep(c, w[0]);
        BracketsClose(d, w[1..]);
        var top := c.stack[|d.stack|];
        CloserPushed(d.stack, top);
        assert Reversed(Closers(d.stack) + [Closer(top)]) == [Closer(top)] + Reversed(Closers(d.stack));
        assert w == [w[0]] + w[1..];
      }
    }
  }

  /** A closing text that starts with a quote can only complete a text that stops inside a string. */
  lemma QuoteThenBrackets(c: Config, w: string)
    requires Sane(c) && w != [] && w[0] == '"' && forall i :: 1 <= i < |w| ==> IsCloser(w[i])
    requires Accepting(RunFrom(c, w))
    ensures c.mode == Str(false) && w[1..] == Reversed(Closers(c.stack))
  {
    var d := Step(c, w[0]);
    if d.mode.Dead? {
      DeadStaysDead(d, w[1..]);
      assert false;
    } else if d.mode.Str? || d.mode.Esc? || d.mode.Hex? {
      BracketsInString(d, w[1..]);
      assert false;
    } else {
      assert d.stack == c.stack && !d.mode.Num? && !d.mode.Word?;
      BracketsClose(d, w[1..]);
    }
  }

  predicate InString(m: Mode) { m.Str? || m.Esc? || m.Hex? }

  lemma ClosingCases(c: Config, w: string)
    requires Sane(c) && w != [] && IsClosing(w) && Accepting(RunFrom(c, w))
    ensures InString(c.mode) ==> c.mode == Str(false) && w == "\"" + Reversed(Closers(c.stack))
    ensures !InString(c.mode) ==> Closable(c.mode) && w == Reversed(Closers(c.stack))
  {
    hide Reversed, Closers;
    if w[0] == '"' {
      var rest := w[1..];
      QuoteThenBrackets(c, w);
      assert w == "\"" + rest;
    } else if InString(c.mode) {
      BracketsInString(c, w);
      assert false;
    } else {
      BracketsClose(c, w);
    }
  }

  /**
   A closing text that makes an incomplete text valid is unique: it is the one the scan owes,
   and the text neither stops at a backslash nor at a structural colon.
   */
  lemma ClosingIsOwed(t: string, w: string)
    requires !Valid(t) && Valid(t + w) && IsClosing(w)
    ensures w == OwedClosing(t) && w != [] && t != []
    ensures !Scan(t).escape
    ensures !Scan(t).inString ==> Closable(Run(t).mode)
  {
    hide IsClosing, Reversed, Closers, Scan;
    var c := Run(t);
    RunFromConcat(START, t, w);
    assert t + [] == t;
    if c.mode.Dead? {
      DeadStaysDead(c, w);
      assert false;
    } else {
      ScanAbstractsRun(t);
      ClosingCases(c, w);
      assert "" + Reversed(Closers(c.stack)) == Reversed(Closers(c.stack));
    }
  }

  // ---------- the backtracking closer ----------

  /** The characters of \s in an ECMAScript regular expression, which trim() removes as well. */
  predicate IsJsSpace(ch: char) {
    ch == ' ' || '\t' <= ch <= '\r' || ch == '\U{00a0}' || ch == '\U{1680}'
    || '\U{2000}' <= ch <= '\U{200a}' || ch == '\U{2028}' || ch == '\U{2029}'
    || ch == '\U{202f}' || ch == '\U{205f}' || ch == '\U{3000}' || ch == '\U{feff}'
  }

  function TrimEnd(s: string): (r: string)
    ensures r <= s && (r != [] ==> !IsJsSpace(r[|r| - 1]))
  {
    if s != [] && IsJsSpace(s[|s| - 1]) then TrimEnd(s[..|s| - 1]) else s
  }

  predicate Blank(s: string) { TrimEnd(s) == [] }

  predicate IsStripped(ch: char) { IsJsSpace(ch) || ch == ',' }

  /** s.replace(/[\s,]+$/, "") */
  function StripTail(s: string): (r: string)
    ensures r <= s && (r != [] ==> !IsStripped(r[|r| - 1]))
    ensures forall i :: |r| <= i < |s| ==> IsStripped(s[i])
  {
    if s != [] && IsStripped(s[|s| - 1]) then StripTail(s[..|s| - 1]) else s
  }

  predicate EndsStripped(s: string) { s != [] && IsStripped(s[|s| - 1]) }

  /** /:\s*$/.test(s) */
  predicate DanglingColon(s: string) {
    var r := TrimEnd(s);
    r != [] && r[|r| - 1] == ':'
  }

  function LastComma(s: string): (k: int)
    ensures -1 <= k < |s|
    ensures k >= 0 ==> s[k] == ','
    ensures forall i :: k < i < |s| ==> s[i] != ','
  {
    if s == [] then -1
    else if s[|s| - 1] == ',' then |s| - 1
    else LastComma(s[..|s| - 1])
  }

  lemma EscapeNeedsText(s: string)
    requires Scan(s).escape
    ensures s != [] && s[|s| - 1] == '\\'
  {
  }

  /** What one round keeps of its candidate: the tail stripped, a lone backslash dropped. */
  function Kept(candidate: string): (r: string)
    ensures r <= candidate
  {
    var stripped := StripTail(candidate);
    if Scan(stripped).escape then
      EscapeNeedsText(stripped);
      stripped[..|stripped| - 1]
    else stripped
  }

  function Quoted(kept: string): string {
    if Scan(kept).inString then kept + "\"" else kept
  }

  datatype RoundResult = Repaired(text: string) | Retry(candidate: string) | GiveUp

  function BackUp(working: string): RoundResult {
    var k := LastComma(working);
    if k == -1 then GiveUp else Retry(working[..k])
  }

  function Round(candidate: string): RoundResult {
    var working := Quoted(Kept(candidate));
    if DanglingColon(working) then BackUp(working)
    else
      var repaired := working + Reversed(Scan(working).stack);
      if Valid(repaired) then Repaired(repaired) else BackUp(working)
  }

  function Rounds(candidate: string, n: nat): Option<string>
    decreases n, candidate
  {
    if n == 0 then None
    else match Round(candidate)
      case Repaired(text) => Some(text)
      case Retry(next) => Rounds(next, n - 1)
      case GiveUp => None
  }

  const MAX_ROUNDS := 5

  function RepairTruncated(text: string): Option<string> {
    if Blank(text) || Valid(text) then None else Rounds(text, MAX_ROUNDS)
  }

  /** One pass of the loop body: strip, drop a lone backslash, quote, close, and back up on failure. */
  method TryRound(candidate: string) returns (result: RoundResult)
    ensures result == Round(candidate)
    ensures result.Repaired? ==> Valid(result.text)
  {
    var working := StripTail(candidate);
    var state := ScanJsonState(working);
    if state.escape {
      EscapeNeedsText(working);
      working := working[..|working| - 1];
      state := ScanJsonState(working);
    }
    if state.inString {
      working := working + "\"";
      state := ScanJsonState(working);
    }
    var lastComma := LastComma(working);
    if !DanglingColon(working) {
      var repaired := working + Reversed(state.stack);
      if Valid(repaired) {
        return Repaired(repaired);
      }
    }
    result := if lastComma == -1 then GiveUp else Retry(working[..lastComma]);
  }

  method RepairTruncatedJson(text: string) returns (r: Option<string>)
    ensures r == RepairTruncated(text)
    ensures r.Some? ==> !Valid(text) && Valid(r.value)
  {
    hide Valid, Round, Rounds, TrimEnd;
    if |TrimEnd(text)| == 0 {
      return None;
    }
    if Valid(text) {
      return None;
    }
    var candidate := text;
    for attempt := 0 to MAX_ROUNDS
      invariant RepairTruncated(text) == Rounds(candidate, MAX_ROUNDS - attempt)
    {
      var result := TryRound(candidate);
      RoundsStep(candidate, MAX_ROUNDS - attempt);
      match result {
        case Repaired(repaired) => return Some(repaired);
        case Retry(next) => candidate := next;
        case GiveUp => return None;
      }
    }
    assert Rounds(candidate, 0) == None by { RoundsStep(candidate, 0); }
    r := None;
  }

  lemma RoundsStep(candidate: string, n: nat)
    ensures Rounds(candidate, n) ==
      if n == 0 then None
      else match Round(candidate)
        case Repaired(text) => Some(text)
        case Retry(next) => Rounds(next, n - 1)
        case GiveUp => None
  {
    hide Round;
  }

  // ---------- the append-only filter of repairs() ----------

  /** The suffix `repairs()` reports for one accumulated argument text, if any. */
  function RepairSuffix(args: string): Option<string> {
    match RepairTruncated(args)
    case None => None
    case Some(repaired) =>
      if repaired == args || !(args <= repaired) || |repaired| == |args| then None
      else Some(repaired[|args|..])
  }

  lemma {:induction false} StackHoldsClosers(s: string)
    ensures forall i :: 0 <= i < |Scan(s).stack| ==> IsCloser(Scan(s).stack[i])
  {
    if s != [] {
      StackHoldsClosers(s[..|s| - 1]);
    }
  }

  /** A repaired text is the kept part of its candidate followed by quote and brackets only. */
  lemma RepairedShape(candidate: string, r: string)
    requires Round(candidate) == Repaired(r)
    ensures Kept(candidate) <= r
    ensures forall i :: |Kept(candidate)| <= i < |r| ==> r[i] == '"' || IsCloser(r[i])
  {
    StackHoldsClosers(Quoted(Kept(candidate)));
  }

  /** Backing up cuts the candidate just before one of its commas. */
  lemma RetryShape(candidate: string, next: string)
    requires Round(candidate) == Retry(next)
    ensures CutBeforeComma(candidate, next)
  {
    var working := Quoted(Kept(candidate));
    assert next == working[..|next|] && working[|next|] == ',';
    assert |next| < |Kept(candidate)|;
  }

  /** Once a round has backed up over a comma of the text, no later round can extend the text. */
  lemma {:induction false} BackedUpNeverExtends(text: string, candidate: string, n: nat)
    requires CutBeforeComma(text, candidate)
    requires Rounds(candidate, n).Some?
    ensures !(text <= Rounds(candidate, n).value)
    decreases n
  {
    hide Valid, Scan, Kept, Quoted, BackUp, Round;
    match Round(candidate) {
      case Repaired(r) =>
        RepairedShape(candidate, r);
        assert |candidate| < |r| ==> r[|candidate|] != ',';
      case Retry(next) =>
        RetryShape(candidate, next);
        BackedUpNeverExtends(text, next, n - 1);
    }
  }

  predicate CutBeforeComma(text: string, candidate: string) {
    |candidate| < |text| && candidate == text[..|candidate|] && text[|candidate|] == ','
  }

  /** A first round that keeps everything: nothing stripped, no lone backslash, no dangling colon. */
  predicate FirstRoundClean(t: string) {
    !EndsStripped(t) && !Scan(t).escape && !DanglingColon(Quoted(t)) && Valid(t + OwedClosing(t))
  }

  lemma QuotedOwes(t: string)
    requires !Scan(t).escape
    ensures Quoted(t) + Reversed(Scan(Quoted(t)).stack) == t + OwedClosing(t)
  {
    if Scan(t).inString {
      ScanSnoc(t, '"');
    }
  }

  lemma OwedIsClosing(t: string)
    ensures IsClosing(OwedClosing(t))
  {
    StackHoldsClosers(t);
  }

  /** A suffix is reported exactly when the first round already succeeds on the untouched text. */
  lemma SuffixIffFirstRoundClean(t: string)
    ensures RepairSuffix(t).Some? <==> !Valid(t) && !Blank(t) && FirstRoundClean(t)
    ensures RepairSuffix(t).Some? ==> RepairSuffix(t).value == OwedClosing(t) != []
  {
    if !Valid(t) && !Blank(t) && FirstRoundClean(t) {
      assert StripTail(t) == t && Kept(t) == t;
      QuotedOwes(t);
      assert Round(t) == Repaired(t + OwedClosing(t));
      assert t + [] == t;
    }
    if RepairSuffix(t).Some? {
      var r := Rounds(t, MAX_ROUNDS).value;
      match Round(t) {
        case Repaired(_) =>
          RepairedShape(t, r);
          if Kept(t) != t {
            assert r[|Kept(t)|] == t[|Kept(t)|];
            KeptDrops(t);
            assert false;
          }
          QuotedOwes(t);
        case Retry(next) =>
          RetryShape(t, next);
          BackedUpNeverExtends(t, next, MAX_ROUNDS - 1);
      }
    }
  }

  /** What a round drops first is whitespace, a comma or a backslash, never a closing character. */
  lemma KeptDrops(t: string)
    requires Kept(t) != t
    ensures t[|Kept(t)|] != '"' && !IsCloser(t[|Kept(t)|])
  {
    if Scan(StripTail(t)).escape {
      EscapeNeedsText(StripTail(t));
    }
  }

  lemma ClosableHasNoDanglingColon(t: string)
    requires t != [] && !EndsStripped(t) && !Run(t).mode.Dead? && Closable(Run(t).mode)
    ensures !DanglingColon(t)
  {
    assert TrimEnd(t) == t;
    var prefix, ch := t[..|t| - 1], t[|t| - 1];
    assert t == prefix + [ch];
    RunSnoc(prefix, ch);
    ScanAbstractsRun(prefix);
  }

  /**
   The append-only filter, exactly: a suffix is reported for an accumulated text if and only if
   the text is no JSON yet, does not end in whitespace or a comma, and that suffix, an optional
   quote followed by closing brackets, makes it JSON.
   */
  lemma RepairSuffixExact(t: string, w: string)
    ensures RepairSuffix(t) == Some(w)
       <==> !Valid(t) && !EndsStripped(t) && IsClosing(w) && Valid(t + w)
  {
    SuffixIffFirstRoundClean(t);
    OwedIsClosing(t);
    if !Valid(t) && !EndsStripped(t) && IsClosing(w) && Valid(t + w) {
      ClosingIsOwed(t, w);
      if Scan(t).inString {
        assert TrimEnd(Quoted(t)) == Quoted(t);
      } else {
        RunFromConcat(START, t, w);
        if Run(t).mode.Dead? { DeadStaysDead(Run(t), w); }
        ClosableHasNoDanglingColon(t);
      }
    }
  }

  lemma SuffixExtends(t: string, w: string)
    requires RepairSuffix(t) == Some(w)
    ensures RepairTruncated(t) == Some(t + w)
  {
    hide RepairTruncated;
    var r := RepairTruncated(t).value;
    assert t <= r && w == r[|t|..];
    assert r[..|t|] == t && r == r[..|t|] + r[|t|..];
  }

  /**
   Upstream losing a closing text at the end of a complete document is undone exactly, unless the cut
   comes right after white space or a comma: then nothing is offered at all.
   */
  lemma TruncationIsUndone(document: string, cut: nat)
    requires Valid(document) && cut <= |document|
    requires !Valid(document[..cut]) && IsClosing(document[cut..])
    ensures RepairSuffix(document[..cut]) == Some(document[cut..]) <==> !EndsStripped(document[..cut])
    ensures RepairSuffix(document[..cut]).None? <==> EndsStripped(document[..cut])
    ensures !EndsStripped(document[..cut]) ==> RepairTruncated(document[..cut]) == Some(document)
  {
    hide RepairSuffix, RepairTruncated, EndsStripped;
    var t, w := document[..cut], document[cut..];
    assert t + w == document;
    RepairSuffixExact(t, w);
    if RepairSuffix(t).Some? {
      RepairSuffixExact(t, RepairSuffix(t).value);
    }
    if !EndsStripped(t) {
      SuffixExtends(t, w);
    }
  }
}
