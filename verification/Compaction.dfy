/** Context compaction by whole turns: src/llm-gateway/context-budget.ts. */
module Compaction {
  import opened Options

  datatype Part = Text(text: string) | Rendered(json: string)

  /** JSON that is neither absent, text nor a list of parts is carried as it is printed. */
  datatype Content = Absent | Plain(text: string) | Parts(parts: seq<Part>) | Printed(json: string)

  datatype Message = Message(role: string, content: Content, toolCalls: Option<string>, name: Option<string>)

  // ---------- token estimates ----------

  predicate IsCjk(c: char) {
    var cp := c as int;
    (0x2e80 <= cp <= 0x9fff) || (0xf900 <= cp <= 0xfaff) || (0xff00 <= cp <= 0xffef)
  }

  /** UTF-16 code units, in which the program measures length. */
  function Units(c: char): nat { if c as int > 0xffff then 2 else 1 }

  function Length(s: string): nat { if s == "" then 0 else Length(s[..|s| - 1]) + Units(s[|s| - 1]) }

  function CjkCount(s: string): (n: nat)
    ensures n <= Length(s)
  {
    if s == "" then 0 else CjkCount(s[..|s| - 1]) + if IsCjk(s[|s| - 1]) then 1 else 0
  }

  function TextTokens(s: string): nat { CjkCount(s) + (Length(s) - CjkCount(s) + 3) / 4 }

  method EstimateTextTokens(text: string) returns (n: nat)
    ensures n == TextTokens(text)
  {
    var cjk, length := 0, 0;
    for i := 0 to |text|
      invariant cjk == CjkCount(text[..i]) && length == Length(text[..i])
    {
      assert text[..i + 1][..i] == text[..i];
      length := length + Units(text[i]);
      if IsCjk(text[i]) {
        cjk := cjk + 1;
      }
    }
    assert text[..|text|] == text;
    n := cjk + (length - cjk + 3) / 4;
  }

  lemma {:induction false} CountsConcat(a: string, b: string)
    ensures Length(a + b) == Length(a) + Length(b) && CjkCount(a + b) == CjkCount(a) + CjkCount(b)
    decreases |b|
  {
    if b == "" {
      assert a + b == a;
    } else {
      assert (a + b)[..|a + b| - 1] == a + b[..|b| - 1];
      CountsConcat(a, b[..|b| - 1]);
    }
  }

  /** Estimating in pieces never gives less than estimating the whole, and at most one token more per cut. */
  lemma EstimateInPieces(a: string, b: string)
    ensures TextTokens(a + b) <= TextTokens(a) + TextTokens(b) <= TextTokens(a + b) + 1
  {
    CountsConcat(a, b);
  }

  function PartText(p: Part): string {
    match p
    case Text(t) => t
    case Rendered(j) => j
  }

  function Joined(parts: seq<Part>): string {
    if parts == [] then ""
    else if |parts| == 1 then PartText(parts[0])
    else PartText(parts[0]) + "\n" + Joined(parts[1..])
  }

  function ContentText(c: Content): string {
    match c
    case Absent => ""
    case Plain(t) => t
    case Parts(parts) => Joined(parts)
    case Printed(j) => j
  }

  function MessageTokens(m: Message): (n: nat)
    ensures n >= 4
  {
    4 + TextTokens(ContentText(m.content))
    + (if m.toolCalls.Some? then TextTokens(m.toolCalls.value) else 0)
    + (if m.name.Some? then TextTokens(m.name.value) else 0)
  }

  function Tokens(ms: seq<Message>): nat {
    if ms == [] then 0 else Tokens(ms[..|ms| - 1]) + MessageTokens(ms[|ms| - 1])
  }

  method EstimateMessagesTokens(ms: seq<Message>) returns (n: nat)
    ensures n == Tokens(ms)
  {
    n := 0;
    for i := 0 to |ms|
      invariant n == Tokens(ms[..i])
    {
      assert ms[..i + 1][..i] == ms[..i];
      n := n + MessageTokens(ms[i]);
    }
    assert ms[..|ms|] == ms;
  }

  lemma {:induction false} TokensConcat(a: seq<Message>, b: seq<Message>)
    ensures Tokens(a + b) == Tokens(a) + Tokens(b)
    decreases |b|
  {
    if b == [] {
      assert a + b == a;
    } else {
      assert (a + b)[..|a + b| - 1] == a + b[..|b| - 1];
      TokensConcat(a, b[..|b| - 1]);
    }
  }

  // ---------- turns ----------

  type Turn = seq<Message>

  function Flatten(turns: seq<Turn>): seq<Message> {
    if turns == [] then [] else Flatten(turns[..|turns| - 1]) + turns[|turns| - 1]
  }

  /** Add a message to the last turn, or begin a turn with it. */
  function AddToTurns(turns: seq<Turn>, m: Message): seq<Turn> {
    if m.role == "user" || turns == [] then turns + [[m]]
    else turns[..|turns| - 1] + [turns[|turns| - 1] + [m]]
  }

  function TurnsOf(ms: seq<Message>): seq<Turn> {
    if ms == [] then [] else AddToTurns(TurnsOf(ms[..|ms| - 1]), ms[|ms| - 1])
  }

  method SplitTurns(ms: seq<Message>) returns (turns: seq<Turn>)
    ensures turns == TurnsOf(ms)
  {
    turns := [];
    for i := 0 to |ms|
      invariant turns == TurnsOf(ms[..i])
    {
      assert ms[..i + 1][..i] == ms[..i];
      if ms[i].role == "user" || |turns| == 0 {
        turns := turns + [[ms[i]]];
      } else {
        var last := |turns| - 1;
        turns := turns[..last] + [turns[last] + [ms[i]]];
      }
    }
    assert ms[..|ms|] == ms;
  }

  /** A turn has no user message but, possibly, its first. */
  predicate OneUser(t: Turn) {
    t != [] && forall i :: 0 < i < |t| ==> t[i].role != "user"
  }

  /** Turns in a row: every one after the first starts with its only user message. */
  ghost predicate InTurns(turns: seq<Turn>) {
    forall k :: 0 <= k < |turns| ==> OneUser(turns[k]) && (k > 0 ==> turns[k][0].role == "user")
  }

  lemma FlattenSnoc(turns: seq<Turn>, t: Turn)
    ensures Flatten(turns + [t]) == Flatten(turns) + t
  {
    assert (turns + [t])[..|turns|] == turns;
  }

  lemma AddToTurnsFlattens(turns: seq<Turn>, m: Message)
    ensures Flatten(AddToTurns(turns, m)) == Flatten(turns) + [m]
  {
    if m.role == "user" || turns == [] {
      FlattenSnoc(turns, [m]);
    } else {
      var rest, last := turns[..|turns| - 1], turns[|turns| - 1];
      assert turns == rest + [last];
      FlattenSnoc(rest, last);
      FlattenSnoc(rest, last + [m]);
    }
  }

  /** Turns concatenate back to the conversation, and each after the first starts with its only user message. */
  lemma {:induction false} TurnsPartition(ms: seq<Message>)
    ensures Flatten(TurnsOf(ms)) == ms && InTurns(TurnsOf(ms)) && (TurnsOf(ms) == [] <==> ms == [])
    decreases |ms|
  {
    hide Flatten, AddToTurns;
    if ms == [] {
      assert Flatten([]) == [] by { NothingFlat(); }
    } else {
      var rest, m := ms[..|ms| - 1], ms[|ms| - 1];
      assert ms == rest + [m];
      TurnsPartition(rest);
      AddToTurnsFlattens(TurnsOf(rest), m);
      AddToTurnsInTurns(TurnsOf(rest), m);
    }
  }

  lemma NothingFlat()
    ensures Flatten([]) == []
  {
  }

  lemma AddToTurnsInTurns(turns: seq<Turn>, m: Message)
    requires InTurns(turns)
    ensures InTurns(AddToTurns(turns, m)) && AddToTurns(turns, m) != []
  {
  }

  lemma {:induction false} FlattenConcat(a: seq<Turn>, b: seq<Turn>)
    ensures Flatten(a + b) == Flatten(a) + Flatten(b)
    decreases |b|
  {
    if b == [] {
      assert a + b == a;
    } else {
      assert (a + b)[..|a + b| - 1] == a + b[..|b| - 1];
      FlattenConcat(a, b[..|b| - 1]);
    }
  }

  lemma TurnsSnoc(ms: seq<Message>, m: Message)
    ensures TurnsOf(ms + [m]) == AddToTurns(TurnsOf(ms), m)
  {
    assert (ms + [m])[..|ms|] == ms;
  }

  lemma AddToLast(turns: seq<Turn>, t: Turn, m: Message)
    requires m.role != "user"
    ensures AddToTurns(turns + [t], m) == turns + [t + [m]]
  {
    assert (turns + [t])[..|turns|] == turns;
  }

  lemma {:induction false} AppendTurn(turns: seq<Turn>, ms: seq<Message>, t: Turn, n: nat)
    requires TurnsOf(ms) == turns && 0 < n <= |t| && OneUser(t) && (turns != [] ==> t[0].role == "user")
    ensures TurnsOf(ms + t[..n]) == turns + [t[..n]]
    decreases n
  {
    hide TurnsOf, AddToTurns;
    TakeOne(ms, t, n);
    TurnsSnoc(ms + t[..n - 1], t[n - 1]);
    if n == 1 {
      FirstOfTurn(turns, t[0]);
      assert ms + t[..0] == ms;
      assert t[..1] == [t[0]];
    } else {
      AppendTurn(turns, ms, t, n - 1);
      AddToLast(turns, t[..n - 1], t[n - 1]);
      assert t[..n] == t[..n - 1] + [t[n - 1]];
    }
  }

  lemma FirstOfTurn(turns: seq<Turn>, m: Message)
    requires turns != [] ==> m.role == "user"
    ensures AddToTurns(turns, m) == turns + [[m]]
  {
  }

  lemma TakeOne(ms: seq<Message>, t: seq<Message>, n: nat)
    requires 0 < n <= |t|
    ensures ms + t[..n] == (ms + t[..n - 1]) + [t[n - 1]]
  {
  }

  /** The division into turns is the only one of its kind. */
  lemma {:induction false} TurnsUnique(turns: seq<Turn>)
    requires InTurns(turns)
    ensures TurnsOf(Flatten(turns)) == turns
    decreases |turns|
  {
    hide TurnsOf, OneUser;
    if turns == [] {
      assert TurnsOf([]) == [] by { NoTurns(); }
    } else {
      var rest, t := turns[..|turns| - 1], turns[|turns| - 1];
      TurnsUnique(rest);
      assert |t| > 0 by { NotEmpty(t); }
      AppendTurn(rest, Flatten(rest), t, |t|);
      assert t[..|t|] == t;
      assert turns == rest + [t];
    }
  }

  lemma NoTurns()
    ensures TurnsOf([]) == []
  {
  }

  lemma NotEmpty(t: Turn)
    requires OneUser(t)
    ensures |t| > 0
  {
  }

  lemma FlattenOne(t: Turn)
    ensures Flatten([t]) == t
  {
    FlattenSnoc([], t);
    assert [] + [t] == [t];
  }

  // ---------- compaction ----------

  function DropLeadingTools(ms: seq<Message>): seq<Message> {
    if ms != [] && ms[0].role == "tool" then DropLeadingTools(ms[1..]) else ms
  }

  method DropLeadingOrphanToolMessages(ms: seq<Message>) returns (r: seq<Message>)
    ensures r == DropLeadingTools(ms)
  {
    var index := 0;
    while index < |ms| && ms[index].role == "tool"
      invariant 0 <= index <= |ms| && DropLeadingTools(ms[index..]) == DropLeadingTools(ms)
    {
      index := index + 1;
    }
    r := ms[index..];
  }

  function WithRole(ms: seq<Message>, system: bool): (r: seq<Message>)
    ensures |r| <= |ms|
    ensures forall i :: 0 <= i < |r| ==> (r[i].role == "system") == system
  {
    if ms == [] then []
    else
      var rest := WithRole(ms[..|ms| - 1], system);
      if (ms[|ms| - 1].role == "system") == system then rest + [ms[|ms| - 1]] else rest
  }

  /** The tokens of the last k turns. */
  function SuffixTokens(turns: seq<Turn>, k: nat): nat
    requires k <= |turns|
  {
    Tokens(Flatten(turns[|turns| - k..]))
  }

  predicate Fits(turns: seq<Turn>, k: nat, fixed: int, budget: int)
    requires k <= |turns|
  {
    fixed + SuffixTokens(turns, k) <= budget
  }

  datatype Outcome = Outcome(messages: seq<Message>, compacted: bool, droppedMessages: nat, droppedTurns: nat, before: int, after: int)

  function NoticeMessage(notice: string): Message { Message("system", Plain(notice), None, None) }

  /** System messages, tool definitions and the notice are charged before any turn. */
  function FixedTokens(ms: seq<Message>, toolsTokens: int, notice: string): int {
    Tokens(WithRole(ms, true)) + toolsTokens + MessageTokens(NoticeMessage(notice))
  }

  function Unchanged(ms: seq<Message>, toolsTokens: int): Outcome {
    var before := Tokens(ms) + toolsTokens;
    Outcome(ms, false, 0, 0, before, before)
  }

  /** What compaction with `keep` turns makes of a conversation. */
  function Compacted(ms: seq<Message>, toolsTokens: int, notice: string, keep: nat): Outcome
    requires keep <= |TurnsOf(WithRole(ms, false))|
  {
    var turns := TurnsOf(WithRole(ms, false));
    var cut := |turns| - keep;
    var next := WithRole(ms, true) + [NoticeMessage(notice)] + Flatten(turns[cut..]);
    Outcome(next, true, |Flatten(turns[..cut])|, cut, Tokens(ms) + toolsTokens, Tokens(next) + toolsTokens)
  }

  lemma SuffixGrows(turns: seq<Turn>, k: nat)
    requires k < |turns|
    ensures SuffixTokens(turns, k + 1) == Tokens(turns[|turns| - (k + 1)]) + SuffixTokens(turns, k)
  {
    hide Tokens, Flatten;
    var cut := |turns| - (k + 1);
    assert turns[cut..] == [turns[cut]] + turns[cut + 1..];
    FlattenConcat([turns[cut]], turns[cut + 1..]);
    FlattenOne(turns[cut]);
    TokensConcat(turns[cut], Flatten(turns[cut + 1..]));
  }

  lemma {:induction false} LongerCostsMore(turns: seq<Turn>, j: nat, k: nat)
    requires j <= k <= |turns|
    ensures SuffixTokens(turns, j) <= SuffixTokens(turns, k)
    decreases k
  {
    if j < k {
      LongerCostsMore(turns, j, k - 1);
      SuffixGrows(turns, k - 1);
    }
  }

  /** The greedy choice: the longest run of last turns that fits with what is charged already, or one turn. */
  ghost predicate LongestFitting(turns: seq<Turn>, keep: nat, fixed: int, budget: int) {
    && 1 <= keep <= |turns|
    && (keep > 1 ==> Fits(turns, keep, fixed, budget))
    && forall k :: keep < k <= |turns| ==> !Fits(turns, k, fixed, budget)
  }

  method ChooseTurns(turns: seq<Turn>, fixed: int, budget: int) returns (keep: nat)
    requires |turns| > 0
    ensures LongestFitting(turns, keep, fixed, budget)
  {
    keep := 1;
    var kept := EstimateMessagesTokens(turns[|turns| - 1]);
    assert kept == SuffixTokens(turns, 1) by {
      SuffixGrows(turns, 0);
    }
    var k := 2;
    while k <= |turns|
      invariant 2 <= k <= |turns| + 1 && keep == k - 1 && kept == SuffixTokens(turns, keep)
      invariant keep > 1 ==> Fits(turns, keep, fixed, budget)
    {
      var turn := EstimateMessagesTokens(turns[|turns| - k]);
      SuffixGrows(turns, keep);
      if fixed + kept + turn > budget {
        forall j | keep < j <= |turns|
          ensures !Fits(turns, j, fixed, budget)
        {
          LongerCostsMore(turns, keep + 1, j);
        }
        return;
      }
      kept := kept + turn;
      keep := k;
      k := k + 1;
    }
  }

  /** There is only one longest run that fits. */
  lemma LongestIsUnique(turns: seq<Turn>, a: nat, b: nat, fixed: int, budget: int)
    requires LongestFitting(turns, a, fixed, budget) && LongestFitting(turns, b, fixed, budget)
    ensures a == b
  {
  }

  /** The longest run of at most k last turns that fits, or one turn. */
  function LongestUpTo(turns: seq<Turn>, k: nat, fixed: int, budget: int): nat
    requires 1 <= k <= |turns|
  {
    if k == 1 || Fits(turns, k, fixed, budget) then k else LongestUpTo(turns, k - 1, fixed, budget)
  }

  lemma {:induction false} LongestUpToFits(turns: seq<Turn>, k: nat, fixed: int, budget: int)
    requires 1 <= k <= |turns|
    ensures var keep := LongestUpTo(turns, k, fixed, budget);
      && 1 <= keep <= k && (keep > 1 ==> Fits(turns, keep, fixed, budget))
      && forall j :: keep < j <= k ==> !Fits(turns, j, fixed, budget)
  {
    hide Fits;
    if k > 1 && !Fits(turns, k, fixed, budget) {
      LongestUpToFits(turns, k - 1, fixed, budget);
    }
  }

  /** How many turns of a conversation are kept. */
  function KeptTurns(ms: seq<Message>, toolsTokens: int, budget: int, notice: string): nat {
    var turns := TurnsOf(WithRole(ms, false));
    if turns == [] then 0 else LongestUpTo(turns, |turns|, FixedTokens(ms, toolsTokens, notice), budget)
  }

  /** `r` is a compaction of the conversation that keeps `keep` turns, if there is anything to compact. */
  ghost predicate Compacts(ms: seq<Message>, toolsTokens: int, budget: int, notice: string, keep: nat, r: Outcome) {
    var turns := TurnsOf(WithRole(ms, false));
    if budget <= 0 || turns == [] then r == Unchanged(ms, toolsTokens)
    else
      && LongestFitting(turns, keep, FixedTokens(ms, toolsTokens, notice), budget)
      && r == if keep == |turns| then Unchanged(ms, toolsTokens) else Compacted(ms, toolsTokens, notice, keep)
  }

  method CompactConversation(ms: seq<Message>, toolsTokens: int, budget: int, notice: string) returns (r: Outcome)
    ensures Compacts(ms, toolsTokens, budget, notice, KeptTurns(ms, toolsTokens, budget, notice), r)
  {
    hide TurnsOf, Tokens, WithRole, Flatten, LongestFitting, MessageTokens;
    var tokens := EstimateMessagesTokens(ms);
    var asIs := Outcome(ms, false, 0, 0, tokens + toolsTokens, tokens + toolsTokens);
    var conversational := WithRole(ms, false);
    TurnsPartition(conversational);
    if budget <= 0 || |ms| == 0 || |conversational| == 0 {
      return asIs;
    }
    var turns := SplitTurns(conversational);
    var systemTokens := EstimateMessagesTokens(WithRole(ms, true));
    var fixed := systemTokens + toolsTokens + MessageTokens(NoticeMessage(notice));
    var chosen := ChooseTurns(turns, fixed, budget);
    LongestIsSome(turns, chosen, fixed, budget);
    ChosenIsKept(ms, toolsTokens, budget, notice, chosen);
    if chosen >= |turns| {
      return asIs;
    }
    r := BuildCompacted(ms, toolsTokens, notice, chosen, tokens, turns);
  }

  lemma ChosenIsKept(ms: seq<Message>, toolsTokens: int, budget: int, notice: string, chosen: nat)
    requires TurnsOf(WithRole(ms, false)) != []
    requires LongestFitting(TurnsOf(WithRole(ms, false)), chosen, FixedTokens(ms, toolsTokens, notice), budget)
    ensures chosen == KeptTurns(ms, toolsTokens, budget, notice)
  {
    hide TurnsOf, WithRole, FixedTokens, Fits;
    var turns := TurnsOf(WithRole(ms, false));
    LongestUpToFits(turns, |turns|, FixedTokens(ms, toolsTokens, notice), budget);
    LongestIsUnique(turns, chosen, KeptTurns(ms, toolsTokens, budget, notice), FixedTokens(ms, toolsTokens, notice), budget);
  }

  lemma LongestIsSome(turns: seq<Turn>, keep: nat, fixed: int, budget: int)
    requires LongestFitting(turns, keep, fixed, budget)
    ensures 1 <= keep <= |turns|
  {
  }

  method BuildCompacted(ms: seq<Message>, toolsTokens: int, notice: string, keep: nat, tokens: nat, turns: seq<Turn>) returns (r: Outcome)
    requires turns == TurnsOf(WithRole(ms, false)) && 1 <= keep < |turns| && tokens == Tokens(ms)
    ensures r == Compacted(ms, toolsTokens, notice, keep)
  {
    hide TurnsOf, Tokens, WithRole, Flatten, MessageTokens, DropLeadingTools;
    var cut := |turns| - keep;
    TurnsPartition(WithRole(ms, false));
    KeptStartsWithUser(turns, cut);
    var kept := DropLeadingOrphanToolMessages(Flatten(turns[cut..]));
    var next := WithRole(ms, true) + [NoticeMessage(notice)] + kept;
    var after := EstimateMessagesTokens(next);
    r := Outcome(next, true, |Flatten(turns[..cut])|, cut, tokens + toolsTokens, after + toolsTokens);
  }

  /** What is kept begins with a user message, so there is no orphan tool result to drop. */
  lemma KeptStartsWithUser(turns: seq<Turn>, cut: nat)
    requires InTurns(turns) && 0 < cut < |turns|
    ensures Flatten(turns[cut..]) != [] && Flatten(turns[cut..])[0].role == "user"
    ensures DropLeadingTools(Flatten(turns[cut..])) == Flatten(turns[cut..])
  {
    assert turns[cut..] == [turns[cut]] + turns[cut + 1..];
    FlattenConcat([turns[cut]], turns[cut + 1..]);
    FlattenOne(turns[cut]);
  }
}
