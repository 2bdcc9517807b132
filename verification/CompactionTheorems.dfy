/** What compaction promises: optimality, structure, counts, and how it composes with the prefix order. */
module CompactionTheorems {
  import opened Options
  import opened Compaction
  import CanonicalJson
  import Prefix

  type Json = CanonicalJson.Json

  // ---------- counting ----------

  lemma {:induction false} RolesShare(ms: seq<Message>)
    ensures Tokens(WithRole(ms, true)) + Tokens(WithRole(ms, false)) == Tokens(ms)
    ensures |WithRole(ms, true)| + |WithRole(ms, false)| == |ms|
    decreases |ms|
  {
    hide MessageTokens;
    if ms != [] {
      var rest, m := ms[..|ms| - 1], ms[|ms| - 1];
      RolesShare(rest);
      TokensSnoc(WithRole(rest, m.role == "system"), m);
    }
  }

  lemma TokensSnoc(ms: seq<Message>, m: Message)
    ensures Tokens(ms + [m]) == Tokens(ms) + MessageTokens(m)
  {
    hide MessageTokens;
    assert (ms + [m])[..|ms|] == ms;
  }

  lemma AllTurns(ms: seq<Message>)
    ensures var turns := TurnsOf(WithRole(ms, false));
      SuffixTokens(turns, |turns|) == Tokens(WithRole(ms, false))
  {
    hide Tokens, WithRole, TurnsOf, Flatten;
    var turns := TurnsOf(WithRole(ms, false));
    TurnsPartition(WithRole(ms, false));
    assert turns[0..] == turns;
  }

  // ---------- when, and down to what ----------

  /**
   A conversation is compacted exactly when compaction is on, there are two turns or more, and the
   estimate together with the notice exceeds the budget. So one whose estimate plus notice fits comes
   back unchanged, while one that just fits without the notice is compacted.
   */
  lemma CompactedIff(ms: seq<Message>, toolsTokens: int, budget: int, notice: string, keep: nat, r: Outcome)
    requires Compacts(ms, toolsTokens, budget, notice, keep, r)
    ensures r.compacted <==>
            && budget > 0 && |TurnsOf(WithRole(ms, false))| >= 2
            && Tokens(ms) + toolsTokens + MessageTokens(NoticeMessage(notice)) > budget
    ensures !r.compacted ==> r.messages == ms
  {
    hide TurnsOf, Tokens, WithRole, SuffixTokens, MessageTokens;
    RolesShare(ms);
    AllTurns(ms);
    var turns := TurnsOf(WithRole(ms, false));
    if budget > 0 && turns != [] {
      assert Fits(turns, |turns|, FixedTokens(ms, toolsTokens, notice), budget)
             <==> Tokens(ms) + toolsTokens + MessageTokens(NoticeMessage(notice)) <= budget;
    }
  }

  lemma CompactedTokens(ms: seq<Message>, toolsTokens: int, notice: string, keep: nat)
    requires keep <= |TurnsOf(WithRole(ms, false))|
    ensures Compacted(ms, toolsTokens, notice, keep).after
            == FixedTokens(ms, toolsTokens, notice) + SuffixTokens(TurnsOf(WithRole(ms, false)), keep)
  {
    hide TurnsOf, Tokens, WithRole, Flatten, MessageTokens;
    var turns := TurnsOf(WithRole(ms, false));
    var kept := Flatten(turns[|turns| - keep..]);
    TokensConcat(WithRole(ms, true) + [NoticeMessage(notice)], kept);
    TokensSnoc(WithRole(ms, true), NoticeMessage(notice));
  }

  /**
   What is kept is the longest run of last turns that fits beside system messages, tools and notice,
   or one turn; the reported estimate is exact, and within the budget once two turns are kept.
   */
  lemma CompactionIsOptimal(ms: seq<Message>, toolsTokens: int, budget: int, notice: string, keep: nat, r: Outcome)
    requires Compacts(ms, toolsTokens, budget, notice, keep, r) && r.compacted
    ensures var turns := TurnsOf(WithRole(ms, false));
      var fixed := FixedTokens(ms, toolsTokens, notice);
      && 1 <= keep < |turns| && r.droppedTurns == |turns| - keep
      && r.messages == WithRole(ms, true) + [NoticeMessage(notice)] + Flatten(turns[|turns| - keep..])
      && (forall k :: keep < k <= |turns| ==> fixed + SuffixTokens(turns, k) > budget)
      && r.after == fixed + SuffixTokens(turns, keep)
      && (keep >= 2 ==> r.after <= budget)
  {
    hide TurnsOf, Tokens, WithRole, Flatten, SuffixTokens, FixedTokens;
    CompactedTokens(ms, toolsTokens, notice, keep);
    var turns, fixed := TurnsOf(WithRole(ms, false)), FixedTokens(ms, toolsTokens, notice);
    forall k | keep < k <= |turns|
      ensures fixed + SuffixTokens(turns, k) > budget
    {
      assert !Fits(turns, k, fixed, budget);
    }
  }

  /** Nothing is lost or counted twice: system messages, dropped messages and kept messages make up the input. */
  lemma CompactionConserves(ms: seq<Message>, toolsTokens: int, budget: int, notice: string, keep: nat, r: Outcome)
    requires Compacts(ms, toolsTokens, budget, notice, keep, r) && r.compacted
    ensures |WithRole(ms, true)| + 1 <= |r.messages|
    ensures r.messages[..|WithRole(ms, true)|] == WithRole(ms, true)
    ensures r.messages[|WithRole(ms, true)|] == NoticeMessage(notice)
    ensures var kept := r.messages[|WithRole(ms, true)| + 1..];
      && kept != [] && kept[0].role == "user"
      && r.droppedMessages + |kept| == |WithRole(ms, false)|
      && kept == WithRole(ms, false)[r.droppedMessages..]
      && |WithRole(ms, true)| + r.droppedMessages + |kept| == |ms|
  {
    hide TurnsOf, Tokens, WithRole, Flatten, LongestFitting;
    CompactionIsOptimal(ms, toolsTokens, budget, notice, keep, r);
    RolesShare(ms);
    var turns := TurnsOf(WithRole(ms, false));
    var cut := |turns| - keep;
    TurnsPartition(WithRole(ms, false));
    KeptStartsWithUser(turns, cut);
    FlattenConcat(turns[..cut], turns[cut..]);
    assert turns == turns[..cut] + turns[cut..];
    var kept := r.messages[|WithRole(ms, true)| + 1..];
    assert kept == Flatten(turns[cut..]);
  }

  // ---------- tool results stay with their calls ----------

  /** What is kept begins, in the conversation, with a user message. */
  lemma CutStartsTurn(turns: seq<Turn>, cut: nat)
    requires InTurns(turns) && 0 < cut < |turns|
    ensures var d := |Flatten(turns[..cut])|;
      d < |Flatten(turns)| && Flatten(turns)[d].role == "user"
  {
    FlattenConcat(turns[..cut], turns[cut..]);
    assert turns == turns[..cut] + turns[cut..];
    KeptStartsWithUser(turns, cut);
  }

  /**
   A message and a later one with no user message between them, such as a tool call and its result,
   are both dropped or both kept.
   */
  lemma CallsKeepTheirResults(
      ms: seq<Message>, toolsTokens: int, budget: int, notice: string, keep: nat, r: Outcome, call: nat, result: nat)
    requires Compacts(ms, toolsTokens, budget, notice, keep, r) && r.compacted
    requires call < result < |WithRole(ms, false)|
    requires forall i :: call < i <= result ==> WithRole(ms, false)[i].role != "user"
    ensures call < r.droppedMessages <==> result < r.droppedMessages
  {
    hide TurnsOf, Tokens, WithRole, LongestFitting, Flatten;
    CompactionIsOptimal(ms, toolsTokens, budget, notice, keep, r);
    var turns := TurnsOf(WithRole(ms, false));
    TurnsPartition(WithRole(ms, false));
    CutStartsTurn(turns, |turns| - keep);
  }

  // ---------- with the prefix order ----------

  lemma {:induction false} AllOfRole(ms: seq<Message>, system: bool)
    requires forall i :: 0 <= i < |ms| ==> (ms[i].role == "system") == system
    ensures WithRole(ms, system) == ms && WithRole(ms, !system) == []
    decreases |ms|
  {
    if ms != [] {
      AllOfRole(ms[..|ms| - 1], system);
    }
  }

  lemma {:induction false} WithRoleConcat(a: seq<Message>, b: seq<Message>, system: bool)
    ensures WithRole(a + b, system) == WithRole(a, system) + WithRole(b, system)
    decreases |b|
  {
    if b == [] {
      assert a + b == a;
    } else {
      assert (a + b)[..|a + b| - 1] == a + b[..|b| - 1];
      WithRoleConcat(a, b[..|b| - 1], system);
    }
  }

  lemma SplitByRole(system: seq<Message>, rest: seq<Message>)
    requires forall i :: 0 <= i < |system| ==> system[i].role == "system"
    requires forall i :: 0 <= i < |rest| ==> rest[i].role != "system"
    ensures WithRole(system + rest, true) == system && WithRole(system + rest, false) == rest
  {
    hide WithRole;
    WithRoleConcat(system, rest, true);
    WithRoleConcat(system, rest, false);
    AllOfRole(system, true);
    AllOfRole(rest, false);
  }

  /** The messages as the JSON values of the request body. */
  function Bodies(json: Message -> Json, ms: seq<Message>): (r: seq<Json>)
    ensures |r| == |ms| && forall i :: 0 <= i < |r| ==> r[i] == json(ms[i])
  {
    seq(|ms|, i requires 0 <= i < |ms| => json(ms[i]))
  }

  /** The JSON of a message says its role. */
  ghost predicate SaysRole(json: Message -> Json) {
    forall m :: Prefix.IsSystem(json(m)) <==> m.role == "system"
  }

  lemma {:induction false} BodiesByRole(json: Message -> Json, ms: seq<Message>, system: bool)
    requires SaysRole(json)
    ensures Prefix.Messages(Bodies(json, ms), system) == Bodies(json, WithRole(ms, system))
    decreases |ms|
  {
    hide Prefix.IsSystem;
    if ms == [] {
      assert Bodies(json, ms) == [] && Bodies(json, WithRole(ms, system)) == [];
    } else {
      var rest, m := ms[..|ms| - 1], ms[|ms| - 1];
      BodiesByRole(json, rest, system);
      assert Bodies(json, ms)[..|ms| - 1] == Bodies(json, rest);
      assert Bodies(json, WithRole(rest, system) + [m]) == Bodies(json, WithRole(rest, system)) + [json(m)];
    }
  }

  /** Prefix normalisation leaves a compacted message list as it is: the notice stays behind the system messages. */
  lemma NormalisingKeepsCompacted(
      ms: seq<Message>, toolsTokens: int, budget: int, notice: string, keep: nat, r: Outcome,
      json: Message -> Json, tools: Option<seq<Json>>)
    requires Compacts(ms, toolsTokens, budget, notice, keep, r) && r.compacted
    requires SaysRole(json) && Prefix.Sound(Prefix.Body(Some(Bodies(json, r.messages)), tools))
    ensures Prefix.NormalizePrompt(Prefix.Body(Some(Bodies(json, r.messages)), tools)).messages == Some(Bodies(json, r.messages))
  {
    hide TurnsOf, Tokens, WithRole, LongestFitting, Flatten, Prefix.Messages, Prefix.NormalTools, SaysRole, Compacts;
    SystemLeads(ms, toolsTokens, budget, notice, keep, r);
    BodiesByRole(json, r.messages, true);
    BodiesByRole(json, r.messages, false);
    BodiesConcat(json, WithRole(r.messages, true), WithRole(r.messages, false));
    hide CanonicalJson.WellFormed;
  }

  lemma BodiesConcat(json: Message -> Json, a: seq<Message>, b: seq<Message>)
    ensures Bodies(json, a) + Bodies(json, b) == Bodies(json, a + b)
  {
  }

  /** A compacted list has its system messages, the notice among them, in front. */
  lemma SystemLeads(ms: seq<Message>, toolsTokens: int, budget: int, notice: string, keep: nat, r: Outcome)
    requires Compacts(ms, toolsTokens, budget, notice, keep, r) && r.compacted
    ensures WithRole(r.messages, true) + WithRole(r.messages, false) == r.messages
  {
    hide TurnsOf, Tokens, WithRole, LongestFitting, Flatten;
    CompactionConserves(ms, toolsTokens, budget, notice, keep, r);
    var n := |WithRole(ms, true)|;
    var kept := r.messages[n + 1..];
    assert r.messages == (WithRole(ms, true) + [NoticeMessage(notice)]) + kept;
    SplitByRole(WithRole(ms, true) + [NoticeMessage(notice)], kept);
  }

  /** Such JSON there is: a role and a text. */
  function MessageJson(m: Message): Json {
    CanonicalJson.Obj([("role", CanonicalJson.Str(m.role)), ("content", CanonicalJson.Str(ContentText(m.content)))])
  }

  lemma MessageJsonSaysRole()
    ensures SaysRole(MessageJson) && forall m :: CanonicalJson.WellFormed(MessageJson(m))
  {
    assert |"role"| != |"content"|;
    hide ContentText;
  }

  lemma BodiesWellFormed(json: Message -> Json, ms: seq<Message>)
    requires forall m :: CanonicalJson.WellFormed(json(m))
    ensures CanonicalJson.WellFormed(CanonicalJson.Arr(Bodies(json, ms)))
  {
  }

  /** So for messages of a role and a text, whatever was compacted, normalisation changes nothing. */
  lemma RoleAndTextKept(ms: seq<Message>, toolsTokens: int, budget: int, notice: string, keep: nat, r: Outcome)
    requires Compacts(ms, toolsTokens, budget, notice, keep, r) && r.compacted
    ensures var body := Prefix.Body(Some(Bodies(MessageJson, r.messages)), None);
      Prefix.Sound(body) && Prefix.NormalizePrompt(body).messages == Some(Bodies(MessageJson, r.messages))
  {
    MessageJsonSaysRole();
    hide SaysRole, Compacts, CanonicalJson.WellFormed, MessageJson, Prefix.NormalizePrompt;
    BodiesWellFormed(MessageJson, r.messages);
    NormalisingKeepsCompacted(ms, toolsTokens, budget, notice, keep, r, MessageJson, None);
  }

  // ---------- compacting again ----------

  /**
   Compaction is not idempotent. Compacting a compacted conversation again, with the same tools,
   budget and notice, drops more exactly when two turns or more were kept and the budget has no room
   for a second notice.
   */
  lemma CompactingAgain(
      ms: seq<Message>, toolsTokens: int, budget: int, notice: string, keep: nat, r: Outcome, keep': nat, r': Outcome)
    requires Compacts(ms, toolsTokens, budget, notice, keep, r) && r.compacted
    requires Compacts(r.messages, toolsTokens, budget, notice, keep', r')
    ensures r'.compacted <==> keep >= 2 && r.after + MessageTokens(NoticeMessage(notice)) > budget
    ensures !r'.compacted ==> r'.messages == r.messages
  {
    hide Tokens, WithRole, LongestFitting, Flatten, TurnsOf, MessageTokens, FixedTokens, SuffixTokens;
    CompactionIsOptimal(ms, toolsTokens, budget, notice, keep, r);
    CompactedIff(ms, toolsTokens, budget, notice, keep, r);
    CompactedIff(r.messages, toolsTokens, budget, notice, keep', r');
    TurnsOfCompacted(ms, notice, keep, r.messages);
  }

  lemma TurnsOfCompacted(ms: seq<Message>, notice: string, keep: nat, messages: seq<Message>)
    requires 1 <= keep < |TurnsOf(WithRole(ms, false))|
    requires var turns := TurnsOf(WithRole(ms, false));
      messages == WithRole(ms, true) + [NoticeMessage(notice)] + Flatten(turns[|turns| - keep..])
    ensures |TurnsOf(WithRole(messages, false))| == keep
  {
    hide Tokens, WithRole, Flatten, TurnsOf;
    var turns := TurnsOf(WithRole(ms, false));
    var cut := |turns| - keep;
    TurnsPartition(WithRole(ms, false));
    FlattenConcat(turns[..cut], turns[cut..]);
    assert turns == turns[..cut] + turns[cut..];
    var kept := Flatten(turns[cut..]);
    assert forall i :: 0 <= i < |kept| ==> kept[i] == WithRole(ms, false)[|Flatten(turns[..cut])| + i];
    SplitByRole(WithRole(ms, true) + [NoticeMessage(notice)], kept);
    assert InTurns(turns[cut..]);
    TurnsUnique(turns[cut..]);
  }

  // ---------- two conversations ----------

  function Say(role: string): Message { Message(role, Plain(""), None, None) }

  lemma SayTokens(role: string)
    ensures MessageTokens(Say(role)) == 4 && MessageTokens(NoticeMessage("")) == 4
  {
  }

  /** Three turns of one message each, and no system message. */
  const TALK := [Say("user"), Say("user"), Say("user")]

  lemma ThreeTokens(m: Message)
    ensures Tokens([m, m, m]) == 3 * MessageTokens(m)
  {
    hide MessageTokens;
    TokensSnoc([], m);
    TokensSnoc([m], m);
    TokensSnoc([m, m], m);
    assert [] + [m] == [m] && [m] + [m] == [m, m] && [m, m] + [m] == [m, m, m];
    assert Tokens([]) == 0;
    hide Tokens;
  }

  lemma TalkParts()
    ensures WithRole(TALK, true) == [] && WithRole(TALK, false) == TALK
    ensures TurnsOf(TALK) == [[Say("user")], [Say("user")], [Say("user")]]
    ensures Tokens(TALK) == 12
  {
    hide MessageTokens, Tokens, TurnsOf, WithRole;
    AllOfRole(TALK, false);
    SayTokens("user");
    ThreeTokens(Say("user"));
    var turns := [[Say("user")], [Say("user")], [Say("user")]];
    assert Flatten(turns) == TALK by { FlattenThree(Say("user")); }
    assert InTurns(turns);
    TurnsUnique(turns);
  }

  lemma FlattenThree(m: Message)
    ensures Flatten([[m], [m], [m]]) == [m, m, m]
  {
    FlattenOne([m]);
    FlattenSnoc([[m]], [m]);
    FlattenSnoc([[m], [m]], [m]);
    assert [[m]] + [[m]] == [[m], [m]] && [[m], [m]] + [[m]] == [[m], [m], [m]];
  }

  lemma TalkKeepsTwo(keep: nat, r: Outcome)
    requires Compacts(TALK, 0, 12, "", keep, r)
    ensures r.compacted && keep == 2
  {
    hide MessageTokens, Tokens, TurnsOf, Flatten, LongestFitting, SuffixTokens, FixedTokens;
    TalkParts();
    SayTokens("user");
    CompactedIff(TALK, 0, 12, "", keep, r);
    CompactionIsOptimal(TALK, 0, 12, "", keep, r);
    TalkTokens();
  }

  lemma NoTokens()
    ensures Tokens([]) == 0 && Flatten([]) == []
  {
  }

  lemma OneToken()
    ensures Tokens([Say("user")]) == 4
  {
    assert Tokens([]) == 0;
    SayTokens("user");
    TokensSnoc([], Say("user"));
    assert [] + [Say("user")] == [Say("user")];
    hide Tokens, MessageTokens;
  }

  /**
   A conversation of twelve tokens under a budget of twelve, with an empty notice: it fits and is
   compacted all the same, to two turns and twelve tokens, and compacting the result takes another turn.
   */
  lemma JustFitsTwice(keep: nat, r: Outcome, keep': nat, r': Outcome)
    requires Compacts(TALK, 0, 12, "", keep, r) && Compacts(r.messages, 0, 12, "", keep', r')
    ensures r.before == 12 && r.compacted && r.droppedTurns == 1 && r.after == 12
    ensures r'.compacted && r'.droppedTurns >= 1
  {
    hide MessageTokens, Tokens, TurnsOf, Flatten, LongestFitting, WithRole;
    TalkParts();
    SayTokens("user");
    TalkKeepsTwo(keep, r);
    CompactionIsOptimal(TALK, 0, 12, "", keep, r);
    TalkTokens();
    CompactingAgain(TALK, 0, 12, "", keep, r, keep', r');
    CompactionIsOptimal(r.messages, 0, 12, "", keep', r');
  }

  lemma TalkTokens()
    ensures FixedTokens(TALK, 0, "") == 4 && |TurnsOf(TALK)| == 3 && SuffixTokens(TurnsOf(TALK), 2) == 8
  {
    hide MessageTokens, Tokens, TurnsOf, Flatten;
    TalkParts();
    SayTokens("user");
    var turns := TurnsOf(TALK);
    NoTokens();
    OneToken();
    SuffixGrows(turns, 0);
    SuffixGrows(turns, 1);
    assert turns[3..] == [];
  }
}
