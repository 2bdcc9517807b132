/** What a compaction comes to, in the messages and the positions at which users speak. */
module CompactionMeaning {
  import opened Options
  import opened Compaction
  import opened CompactionTheorems
  import opened Places

  const SYSTEM: Message -> bool := (m: Message) => m.role == "system"
  const OTHERS: Message -> bool := (m: Message) => m.role != "system"

  lemma {:induction false} RolesAreSifted(ms: seq<Message>)
    ensures Sifted(ms, SYSTEM, WithRole(ms, true)) && Sifted(ms, OTHERS, WithRole(ms, false))
    decreases |ms|
  {
    hide Sifted;
    if ms == [] {
      NothingSifted(SYSTEM);
      NothingSifted(OTHERS);
    } else {
      var rest, m := ms[..|ms| - 1], ms[|ms| - 1];
      assert ms == rest + [m];
      RolesAreSifted(rest);
      SiftedSnoc(rest, m, SYSTEM, WithRole(rest, true));
      SiftedSnoc(rest, m, OTHERS, WithRole(rest, false));
    }
  }

  function Cost(ms: seq<Message>): int { if ms == [] then 0 else MessageTokens(ms[0]) + Cost(ms[1..]) }

  lemma {:induction false} CostIsTokens(ms: seq<Message>)
    ensures Cost(ms) == Tokens(ms)
    decreases |ms|
  {
    hide MessageTokens;
    if ms != [] {
      CostIsTokens(ms[1..]);
      assert ms == [ms[0]] + ms[1..];
      TokensConcat([ms[0]], ms[1..]);
      TokensSnoc([], ms[0]);
      assert [] + [ms[0]] == [ms[0]];
      assert Tokens([]) == 0;
      hide Tokens;
    }
  }

  /** A turn begins at the first message and at every message of the user. */
  predicate Begins(conversation: seq<Message>, p: nat) {
    p < |conversation| && (p == 0 || conversation[p].role == "user")
  }

  function BeginningsBefore(conversation: seq<Message>, d: nat): set<nat> { set p: nat | p < d && Begins(conversation, p) }

  // ---------- turns and their beginnings ----------

  lemma {:induction false} CutBegins(turns: seq<Turn>, cut: nat)
    requires InTurns(turns) && cut < |turns|
    ensures Begins(Flatten(turns), |Flatten(turns[..cut])|)
  {
    FlattenConcat(turns[..cut], turns[cut..]);
    assert turns == turns[..cut] + turns[cut..];
    assert turns[cut..] == [turns[cut]] + turns[cut + 1..];
    FlattenConcat([turns[cut]], turns[cut + 1..]);
    FlattenOne(turns[cut]);
    if cut == 0 {
      assert turns[..0] == [] && Flatten([]) == [];
    }
  }

  /** The beginnings of a conversation in turns are the ends of its first turns. */
  lemma {:induction false} BeginningsOfTurns(turns: seq<Turn>, p: nat) returns (cut: nat)
    requires InTurns(turns) && Begins(Flatten(turns), p)
    ensures cut < |turns| && p == |Flatten(turns[..cut])|
    decreases |turns|
  {
    assert Flatten([]) == [];
    var rest, t := turns[..|turns| - 1], turns[|turns| - 1];
    assert turns == rest + [t];
    FlattenSnoc(rest, t);
    var before := |Flatten(rest)|;
    if p < before {
      assert Flatten(turns)[p] == Flatten(rest)[p];
      cut := BeginningsOfTurns(rest, p);
      assert rest[..cut] == turns[..cut];
    } else {
      cut := |rest|;
      assert OneUser(t);
      assert forall q :: before < q < |Flatten(turns)| ==> Flatten(turns)[q].role != "user";
    }
  }

  lemma {:induction false} EndsAscend(turns: seq<Turn>, a: nat, b: nat)
    requires InTurns(turns) && a < b <= |turns|
    ensures |Flatten(turns[..a])| < |Flatten(turns[..b])|
    decreases b
  {
    var t := turns[b - 1];
    assert turns[..b] == turns[..b - 1] + [t];
    FlattenSnoc(turns[..b - 1], t);
    assert OneUser(t);
    hide Flatten;
    if a < b - 1 {
      EndsAscend(turns, a, b - 1);
    }
  }

  /** Before the end of the first k turns there are k beginnings. */
  lemma {:induction false} BeginningsCounted(turns: seq<Turn>, k: nat)
    requires InTurns(turns) && k <= |turns|
    ensures |BeginningsBefore(Flatten(turns), |Flatten(turns[..k])|)| == k
    decreases k
  {
    hide Flatten, InTurns;
    var all := Flatten(turns);
    if k == 0 {
      assert turns[..0] == [] && Flatten([]) == [] by { NoTurnsFlat(); }
      assert BeginningsBefore(all, 0) == {};
    } else {
      BeginningsCounted(turns, k - 1);
      var d, e: nat := |Flatten(turns[..k - 1])|, |Flatten(turns[..k])|;
      EndsAscend(turns, k - 1, k);
      CutBegins(turns, k - 1);
      forall p: nat
        ensures p in BeginningsBefore(all, e) <==> p in BeginningsBefore(all, d) || p == d
      {
        if p < e && Begins(all, p) {
          var cut := BeginningsOfTurns(turns, p);
          if cut >= k {
            EndNotBefore(turns, k, cut);
          } else if cut < k - 1 {
            EndsAscend(turns, cut, k - 1);
          }
        }
      }
      assert BeginningsBefore(all, e) == BeginningsBefore(all, d) + {d};
    }
  }

  lemma EndNotBefore(turns: seq<Turn>, k: nat, cut: nat)
    requires InTurns(turns) && k <= cut <= |turns|
    ensures |Flatten(turns[..k])| <= |Flatten(turns[..cut])|
  {
    if k < cut {
      EndsAscend(turns, k, cut);
    }
  }

  lemma NoTurnsFlat()
    ensures Flatten([]) == []
  {
  }

  lemma RestOfTurns(turns: seq<Turn>, cut: nat)
    requires cut <= |turns|
    ensures |Flatten(turns[..cut])| <= |Flatten(turns)| && Flatten(turns[cut..]) == Flatten(turns)[|Flatten(turns[..cut])|..]
  {
    FlattenConcat(turns[..cut], turns[cut..]);
    assert turns == turns[..cut] + turns[cut..];
  }

  // ---------- the whole ----------

  /** The system messages, the notice, and the conversation from position d on. */
  function Kept(system: seq<Message>, notice: string, conversation: seq<Message>, d: nat): seq<Message>
    requires d <= |conversation|
  {
    system + [Message("system", Plain(notice), None, None)] + conversation[d..]
  }

  /** Whether there is something to drop, and it has to be dropped. */
  ghost predicate MustDrop(ms: seq<Message>, conversation: seq<Message>, toolsTokens: int, budget: int, notice: string) {
    && budget > 0 && (exists p: nat :: p > 0 && Begins(conversation, p))
    && Cost(ms) + MessageTokens(Message("system", Plain(notice), None, None)) + toolsTokens > budget
  }

  lemma TwoTurnsIff(turns: seq<Turn>)
    requires InTurns(turns)
    ensures |turns| >= 2 <==> exists p: nat :: p > 0 && Begins(Flatten(turns), p)
  {
    hide Flatten, Begins, InTurns;
    NoTurnsFlat();
    assert turns[..0] == [];
    if |turns| >= 2 {
      CutBegins(turns, 1);
      EndsAscend(turns, 0, 1);
      var second: nat := |Flatten(turns[..1])|;
      assert second > 0 && Begins(Flatten(turns), second);
    }
    if p: nat :| p > 0 && Begins(Flatten(turns), p) {
      var cut := BeginningsOfTurns(turns, p);
      assert cut > 0;
    }
  }

  lemma CostOfKept(ms: seq<Message>, notice: string, turns: seq<Turn>, k: nat)
    requires k <= |turns|
    ensures Cost(WithRole(ms, true) + [NoticeMessage(notice)] + Flatten(turns[|turns| - k..]))
            == Tokens(WithRole(ms, true)) + MessageTokens(NoticeMessage(notice)) + SuffixTokens(turns, k)
  {
    hide Tokens, WithRole, Flatten, MessageTokens, Cost;
    var system, kept := WithRole(ms, true), Flatten(turns[|turns| - k..]);
    CostIsTokens(system + [NoticeMessage(notice)] + kept);
    TokensConcat(system + [NoticeMessage(notice)], kept);
    TokensSnoc(system, NoticeMessage(notice));
  }

  /**
   Compaction in full. It happens exactly when the budget is on, the user speaks again after the first
   message of the conversation, and the estimate with the notice exceeds the budget. Then everything before
   one beginning of a turn is dropped, and the notice stands in its place behind the system messages. It is
   the earliest beginning from which the rest fits, or the last one; the reported numbers are exact.
   */
  lemma CompactionExactly(
      ms: seq<Message>, system: seq<Message>, conversation: seq<Message>, toolsTokens: int, budget: int, notice: string, keep: nat, r: Outcome)
    requires Sifted(ms, SYSTEM, system) && Sifted(ms, OTHERS, conversation)
    requires Compacts(ms, toolsTokens, budget, notice, keep, r)
    ensures r.compacted <==> MustDrop(ms, conversation, toolsTokens, budget, notice)
    ensures r.before == Cost(ms) + toolsTokens && r.after == Cost(r.messages) + toolsTokens
    ensures !r.compacted ==> r.messages == ms && r.droppedMessages == 0 && r.droppedTurns == 0
    ensures r.compacted ==>
              var d := r.droppedMessages;
              && d > 0 && Begins(conversation, d) && r.droppedTurns == |BeginningsBefore(conversation, d)|
              && r.messages == Kept(system, notice, conversation, d)
              && (forall p: nat :: p < d && Begins(conversation, p) ==> Cost(Kept(system, notice, conversation, p)) + toolsTokens > budget)
              && (r.after <= budget || forall p: nat :: p > d ==> !Begins(conversation, p))
  {
    hide Sifted, TurnsOf, Tokens, WithRole, Flatten, LongestFitting, MessageTokens, Cost, SuffixTokens, InTurns, Begins, BeginningsBefore;
    RolesAreSifted(ms);
    SiftedUnique(ms, SYSTEM, system, WithRole(ms, true));
    SiftedUnique(ms, OTHERS, conversation, WithRole(ms, false));
    TurnsPartition(conversation);
    TwoTurnsIff(TurnsOf(conversation));
    CompactedIff(ms, toolsTokens, budget, notice, keep, r);
    CostIsTokens(ms);
    CostIsTokens(r.messages);
    if r.compacted {
      CutAt(ms, toolsTokens, budget, notice, keep, r);
    }
  }

  lemma CutAt(ms: seq<Message>, toolsTokens: int, budget: int, notice: string, keep: nat, r: Outcome)
    requires Compacts(ms, toolsTokens, budget, notice, keep, r) && r.compacted
    ensures var d, conversation, system := r.droppedMessages, WithRole(ms, false), WithRole(ms, true);
      && d > 0 && d <= |conversation| && Begins(conversation, d) && r.droppedTurns == |BeginningsBefore(conversation, d)|
      && r.messages == Kept(system, notice, conversation, d)
      && (forall p: nat :: p < d && Begins(conversation, p) && p <= |conversation| ==>
                             Cost(Kept(system, notice, conversation, p)) + toolsTokens > budget)
      && (r.after <= budget || forall p: nat :: p > d ==> !Begins(conversation, p))
  {
    hide TurnsOf, Tokens, WithRole, Flatten, LongestFitting, MessageTokens, Cost, SuffixTokens, InTurns, Begins, BeginningsBefore;
    var conversation := WithRole(ms, false);
    var turns := TurnsOf(conversation);
    var cut := |turns| - keep;
    TurnsPartition(conversation);
    CompactionIsOptimal(ms, toolsTokens, budget, notice, keep, r);
    DroppedAre(ms, toolsTokens, budget, notice, keep, r);
    var d := r.droppedMessages;
    CutBegins(turns, cut);
    BeginningsCounted(turns, cut);
    RestOfTurns(turns, cut);
    NoTurnsFlat();
    EndsAscend(turns, 0, cut);
    assert turns[..0] == [];
    forall p: nat | p < d && Begins(conversation, p) && p <= |conversation|
      ensures Cost(Kept(WithRole(ms, true), notice, conversation, p)) + toolsTokens > budget
    {
      var at := BeginningsOfTurns(turns, p);
      if at >= cut {
        EndNotBefore(turns, cut, at);
      }
      RestOfTurns(turns, at);
      CostOfKept(ms, notice, turns, |turns| - at);
    }
    if keep == 1 {
      forall p: nat | p > d
        ensures !Begins(conversation, p)
      {
        if Begins(conversation, p) {
          var at := BeginningsOfTurns(turns, p);
          EndNotBefore(turns, at, cut);
        }
      }
    }
  }

  lemma DroppedAre(ms: seq<Message>, toolsTokens: int, budget: int, notice: string, keep: nat, r: Outcome)
    requires Compacts(ms, toolsTokens, budget, notice, keep, r) && r.compacted
    ensures var turns := TurnsOf(WithRole(ms, false));
      keep <= |turns| && r.droppedMessages == |Flatten(turns[..|turns| - keep])|
  {
    hide TurnsOf, Tokens, WithRole, Flatten, MessageTokens;
  }
}
