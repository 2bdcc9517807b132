/**
 The tool-call argument tracker of src/llm-gateway/tool-call-argument-repair.ts: what a chunk
 contributes, how the deltas accumulate per key, and what feeding the repairs back yields.
 */
module Tracker {
  import opened Options
  import opened JsonText
  import opened Repair

  // ---------- a parsed chunk, as far as the gateway looks at it ----------

  /** An element of `delta.tool_calls`; `args` is set when `function.arguments` is a string. */
  datatype ToolCall = NullCall | Call(index: Option<int>, args: Option<string>)

  /** `finishes`: finish_reason is neither null nor absent. */
  datatype Choice = NullChoice | Choice(index: Option<int>, toolCalls: Option<seq<ToolCall>>, finishes: bool)

  /** `Missing` stands for null or absent. */
  datatype Choices = Missing | NotAList | List(items: seq<Choice>)

  datatype Payload =
    | NullPayload
    | Payload(id: Option<string>, created: Option<int>, model: Option<string>,
              choices: Choices, promptTokens: Option<int>)

  /** Choice index and tool-call index: the two halves of the tracker's string key. */
  type Key = (int, int)

  datatype Delta = Delta(key: Key, text: string)

  function IndexOr0(index: Option<int>): int {
    if index.Some? then index.value else 0
  }

  /** The deltas one chunk carries up to the first null element, which makes `observe` throw. */
  datatype Observed = Observed(deltas: seq<Delta>, threw: bool)

  function CallDelta(choiceIndex: int, call: ToolCall): seq<Delta>
    requires call.Call?
  {
    if call.args.None? || call.args.value == "" then []
    else [Delta((choiceIndex, IndexOr0(call.index)), call.args.value)]
  }

  function CallDeltas(choiceIndex: int, calls: seq<ToolCall>): Observed {
    if calls == [] then Observed([], false)
    else if calls[0].NullCall? then Observed([], true)
    else
      var rest := CallDeltas(choiceIndex, calls[1..]);
      Observed(CallDelta(choiceIndex, calls[0]) + rest.deltas, rest.threw)
  }

  function ChoiceDeltas(c: Choice): Observed {
    if c.NullChoice? then Observed([], true)
    else if c.toolCalls.None? then Observed([], false)
    else CallDeltas(IndexOr0(c.index), c.toolCalls.value)
  }

  function ChoicesDeltas(cs: seq<Choice>): Observed {
    if cs == [] then Observed([], false)
    else
      var here := ChoiceDeltas(cs[0]);
      if here.threw then here
      else
        var rest := ChoicesDeltas(cs[1..]);
        Observed(here.deltas + rest.deltas, rest.threw)
  }

  function PayloadDeltas(p: Payload): Observed {
    if p.NullPayload? || !p.choices.List? then Observed([], false) else ChoicesDeltas(p.choices.items)
  }

  // ---------- accumulation ----------

  /** The tracker's Map: keys in insertion order and the text accumulated for each. */
  datatype Entries = Entries(order: seq<Key>, args: map<Key, string>)

  const NO_ENTRIES := Entries([], map[])

  ghost predicate WellFormed(e: Entries) {
    && (forall i :: 0 <= i < |e.order| ==> e.order[i] in e.args)
    && (forall k :: k in e.args ==> k in e.order)
    && (forall i, j :: 0 <= i < j < |e.order| ==> e.order[i] != e.order[j])
  }

  function Feed(e: Entries, d: Delta): Entries {
    if d.key in e.args then e.(args := e.args[d.key := e.args[d.key] + d.text])
    else Entries(e.order + [d.key], e.args[d.key := d.text])
  }

  function FeedAll(e: Entries, ds: seq<Delta>): Entries
    decreases ds
  {
    if ds == [] then e else FeedAll(Feed(e, ds[0]), ds[1..])
  }

  lemma {:induction false} FeedAllConcat(e: Entries, ds: seq<Delta>, es: seq<Delta>)
    ensures FeedAll(e, ds + es) == FeedAll(FeedAll(e, ds), es)
    decreases ds
  {
    if ds == [] {
      assert ds + es == es;
    } else {
      assert (ds + es)[0] == ds[0] && (ds + es)[1..] == ds[1..] + es;
      FeedAllConcat(Feed(e, ds[0]), ds[1..], es);
    }
  }

  lemma {:induction false} FeedAllWellFormed(e: Entries, ds: seq<Delta>)
    requires WellFormed(e)
    ensures WellFormed(FeedAll(e, ds))
    decreases ds
  {
    if ds != [] {
      FeedAllWellFormed(Feed(e, ds[0]), ds[1..]);
    }
  }

  /** What a client that appends deltas by key holds for `k`. */
  function TextAt(e: Entries, k: Key): string {
    if k in e.args then e.args[k] else ""
  }

  function TextFor(ds: seq<Delta>, k: Key): string {
    if ds == [] then "" else (if ds[0].key == k then ds[0].text else "") + TextFor(ds[1..], k)
  }

  /** Every key holds the concatenation of its deltas, in the order they came. */
  lemma {:induction false} AccumulatesInOrder(e: Entries, ds: seq<Delta>, k: Key)
    ensures TextAt(FeedAll(e, ds), k) == TextAt(e, k) + TextFor(ds, k)
    ensures k in FeedAll(e, ds).args <==> k in e.args || exists i :: 0 <= i < |ds| && ds[i].key == k
    decreases ds
  {
    if ds != [] {
      AccumulatesInOrder(Feed(e, ds[0]), ds[1..], k);
      assert TextAt(Feed(e, ds[0]), k) == TextAt(e, k) + (if ds[0].key == k then ds[0].text else "");
      assert forall i :: 1 <= i < |ds| ==> ds[i] == ds[1..][i - 1];
    } else {
      assert TextAt(e, k) + "" == TextAt(e, k);
    }
  }

  // ---------- repairs ----------

  datatype RepairNote = RepairNote(key: Key, suffix: string)

  function RepairAt(e: Entries, k: Key): seq<RepairNote>
    requires k in e.args
  {
    var s := RepairSuffix(e.args[k]);
    if s.Some? then [RepairNote(k, s.value)] else []
  }

  function RepairsFrom(e: Entries, order: seq<Key>): seq<RepairNote>
    requires forall i :: 0 <= i < |order| ==> order[i] in e.args
  {
    if order == [] then [] else RepairAt(e, order[0]) + RepairsFrom(e, order[1..])
  }

  /** The result of `repairs()`: the reported suffixes in insertion order of their keys. */
  function RepairsOf(e: Entries): seq<RepairNote>
    requires forall i :: 0 <= i < |e.order| ==> e.order[i] in e.args
  {
    RepairsFrom(e, e.order)
  }

  lemma FeedAllCall(e: Entries, choiceIndex: int, call: ToolCall)
    requires !call.NullCall?
    ensures FeedAll(e, CallDelta(choiceIndex, call))
         == if call.args.Some? && call.args.value != ""
            then Feed(e, Delta((choiceIndex, IndexOr0(call.index)), call.args.value)) else e
  {
    hide Feed;
  }

  lemma FeedNothing(e: Entries)
    ensures FeedAll(e, []) == e
  {
  }

  class ToolCallArgumentTracker {
    var order: seq<Key>
    var args: map<Key, string>

    ghost predicate Valid()
      reads this
    {
      WellFormed(State())
    }

    function State(): Entries
      reads this
    {
      Entries(order, args)
    }

    constructor ()
      ensures Valid() && State() == NO_ENTRIES
    {
      order, args := [], map[];
    }

    method Append(d: Delta)
      requires Valid()
      modifies this
      ensures Valid() && State() == Feed(old(State()), d)
    {
      if d.key !in args {
        order := order + [d.key];
        args := args[d.key := d.text];
      } else {
        args := args[d.key := args[d.key] + d.text];
      }
    }

    method ObserveCalls(choiceIndex: int, calls: seq<ToolCall>) returns (threw: bool)
      requires Valid()
      modifies this
      ensures Valid()
      ensures State() == FeedAll(old(State()), CallDeltas(choiceIndex, calls).deltas)
      ensures threw == CallDeltas(choiceIndex, calls).threw
    {
      hide FeedAll, Feed;
      threw := false;
      ghost var all := CallDeltas(choiceIndex, calls);
      var i := 0;
      while i < |calls|
        invariant 0 <= i <= |calls| && Valid() && !threw
        invariant all.threw == CallDeltas(choiceIndex, calls[i..]).threw
        invariant FeedAll(old(State()), all.deltas)
               == FeedAll(State(), CallDeltas(choiceIndex, calls[i..]).deltas)
      {
        assert calls[i..][1..] == calls[i + 1..];
        var call := calls[i];
        if call.NullCall? {
          FeedNothing(State());
          return true;
        }
        ghost var rest := CallDeltas(choiceIndex, calls[i + 1..]).deltas;
        FeedAllConcat(State(), CallDelta(choiceIndex, call), rest);
        FeedAllCall(State(), choiceIndex, call);
        if call.args.Some? && call.args.value != "" {
          Append(Delta((choiceIndex, IndexOr0(call.index)), call.args.value));
        }
        i := i + 1;
      }
      FeedNothing(State());
    }

    /** `threw`: a null choice or tool call raised a TypeError after the deltas before it. */
    method Observe(payload: Payload) returns (threw: bool)
      requires Valid()
      modifies this
      ensures Valid()
      ensures State() == FeedAll(old(State()), PayloadDeltas(payload).deltas)
      ensures threw == PayloadDeltas(payload).threw
    {
      hide CallDeltas;
      threw := false;
      if payload.NullPayload? || !payload.choices.List? {
        return;
      }
      var cs := payload.choices.items;
      ghost var all := ChoicesDeltas(cs);
      var i := 0;
      while i < |cs|
        invariant 0 <= i <= |cs| && Valid() && !threw
        invariant all.threw == ChoicesDeltas(cs[i..]).threw
        invariant FeedAll(old(State()), all.deltas) == FeedAll(State(), ChoicesDeltas(cs[i..]).deltas)
      {
        assert cs[i..][1..] == cs[i + 1..];
        FeedAllConcat(State(), ChoiceDeltas(cs[i]).deltas, ChoicesDeltas(cs[i + 1..]).deltas);
        if cs[i].NullChoice? {
          return true;
        }
        if cs[i].toolCalls.Some? {
          threw := ObserveCalls(IndexOr0(cs[i].index), cs[i].toolCalls.value);
          if threw {
            return;
          }
        }
        i := i + 1;
      }
    }

    /** The append-only filter on one accumulated text. */
    static method SuffixFor(entry: string) returns (suffix: Option<string>)
      ensures suffix == RepairSuffix(entry)
    {
      var repaired := RepairTruncatedJson(entry);
      if repaired.None? || repaired.value == entry {
        return None;
      }
      if !(entry <= repaired.value) {
        return None;
      }
      var rest := repaired.value[|entry|..];
      suffix := if |rest| == 0 then None else Some(rest);
    }

    method Repairs() returns (notes: seq<RepairNote>)
      requires Valid()
      ensures notes == RepairsOf(State())
    {
      hide RepairSuffix;
      notes := [];
      var i := 0;
      while i < |order|
        invariant 0 <= i <= |order|
        invariant notes + RepairsFrom(State(), order[i..]) == RepairsOf(State())
      {
        assert order[i..][1..] == order[i + 1..];
        var suffix := SuffixFor(args[order[i]]);
        if suffix.Some? {
          notes := notes + [RepairNote(order[i], suffix.value)];
        }
        i := i + 1;
      }
    }
  }

  // ---------- what a client gets after the repairs ----------

  function NoteDeltas(notes: seq<RepairNote>): seq<Delta> {
    if notes == [] then [] else [Delta(notes[0].key, notes[0].suffix)] + NoteDeltas(notes[1..])
  }

  /** The deltas of the repairs for the keys of `order`. */
  function RepairDeltas(e: Entries, order: seq<Key>): seq<Delta>
    requires forall i :: 0 <= i < |order| ==> order[i] in e.args
  {
    NoteDeltas(RepairsFrom(e, order))
  }

  /** The text a key should end up with. */
  function RepairedText(args: string): string {
    var s := RepairSuffix(args);
    if s.Some? then args + s.value else args
  }

  lemma RepairDeltasStep(e: Entries, order: seq<Key>)
    requires order != [] && forall i :: 0 <= i < |order| ==> order[i] in e.args
    ensures var s := RepairSuffix(e.args[order[0]]);
      RepairDeltas(e, order)
      == (if s.Some? then [Delta(order[0], s.value)] else []) + RepairDeltas(e, order[1..])
  {
    hide RepairSuffix;
    if RepairSuffix(e.args[order[0]]).Some? {
      assert RepairsFrom(e, order)[1..] == RepairsFrom(e, order[1..]);
    } else {
      assert RepairsFrom(e, order) == RepairsFrom(e, order[1..]);
    }
  }

  lemma TextForOne(d: Delta, ds: seq<Delta>, k: Key)
    ensures TextFor([d] + ds, k) == (if d.key == k then d.text else "") + TextFor(ds, k)
  {
    assert ([d] + ds)[1..] == ds;
  }

  lemma {:induction false} RepairDeltasPerKey(e: Entries, order: seq<Key>, k: Key)
    requires forall i :: 0 <= i < |order| ==> order[i] in e.args
    requires forall i, j :: 0 <= i < j < |order| ==> order[i] != order[j]
    ensures TextFor(RepairDeltas(e, order), k)
         == if k in order && RepairSuffix(e.args[k]).Some? then RepairSuffix(e.args[k]).value else ""
    ensures forall i :: 0 <= i < |RepairDeltas(e, order)| ==> RepairDeltas(e, order)[i].key in order
    decreases order
  {
    hide RepairSuffix;
    if order != [] {
      var first, rest := order[0], RepairDeltas(e, order[1..]);
      RepairDeltasPerKey(e, order[1..], k);
      RepairDeltasStep(e, order);
      hide RepairDeltas, TextFor, RepairedText;
      assert order == [first] + order[1..];
      assert k in order <==> k == first || k in order[1..];
      assert first !in order[1..];
      var s := RepairSuffix(e.args[first]);
      if s.Some? {
        TextForOne(Delta(first, s.value), rest, k);
        assert s.value + "" == s.value;
      } else {
        assert [] + rest == rest;
      }
    }
  }

  /** A repaired text is JSON and needs no further repair; any other text is left alone. */
  lemma RepairedTextSettles(args: string)
    ensures RepairSuffix(args).Some? ==> Valid(RepairedText(args))
    ensures RepairSuffix(RepairedText(args)).None?
  {
    hide Rounds;
    var s := RepairSuffix(args);
    if s.Some? {
      RepairSuffixExact(args, s.value);
    }
  }

  /**
   Client view: after every repair delta has been fed back, each key holds its accumulated text
   completed by its suffix; the completed ones are JSON, the others are as they were, no key has
   been added, and asking for repairs again yields none.
   */
  lemma FeedingRepairsBack(e: Entries)
    requires WellFormed(e)
    ensures var e' := FeedAll(e, NoteDeltas(RepairsOf(e)));
      && e'.args.Keys == e.args.Keys && e'.order == e.order
      && (forall k :: k in e.args ==> e'.args[k] == RepairedText(e.args[k]))
      && (forall k :: k in e.args && RepairSuffix(e.args[k]).Some? ==> Valid(e'.args[k]))
      && RepairsOf(e') == []
  {
    var ds := RepairDeltas(e, e.order);
    var e' := FeedAll(e, ds);
    FeedAllKnownKeys(e, ds) by {
      forall i | 0 <= i < |ds| ensures ds[i].key in e.args {
        RepairDeltasPerKey(e, e.order, ds[i].key);
      }
    }
    forall k | k in e.args
      ensures e'.args[k] == RepairedText(e.args[k])
      ensures RepairSuffix(e.args[k]).Some? ==> Valid(e'.args[k])
      ensures RepairSuffix(e'.args[k]).None?
    {
      AccumulatesInOrder(e, ds, k);
      RepairDeltasPerKey(e, e.order, k);
      RepairedTextSettles(e.args[k]);
      assert e.args[k] + "" == e.args[k];
    }
    NothingToRepair(e', e'.order);
  }

  /** Deltas for known keys only change texts. */
  lemma {:induction false} FeedAllKnownKeys(e: Entries, ds: seq<Delta>)
    requires forall i :: 0 <= i < |ds| ==> ds[i].key in e.args
    ensures FeedAll(e, ds).order == e.order && FeedAll(e, ds).args.Keys == e.args.Keys
    decreases ds
  {
    if ds != [] {
      FeedAllKnownKeys(Feed(e, ds[0]), ds[1..]);
    }
  }

  lemma {:induction false} NothingToRepair(e: Entries, order: seq<Key>)
    requires forall i :: 0 <= i < |order| ==> order[i] in e.args
    requires forall i :: 0 <= i < |order| ==> RepairSuffix(e.args[order[i]]).None?
    ensures RepairsFrom(e, order) == []
    decreases order
  {
    if order != [] {
      NothingToRepair(e, order[1..]);
    }
  }

  // ---------- the repair chunk ----------

  /** `id`, `created` and `model` of the chunks seen so far. */
  datatype Meta = Meta(id: Option<string>, created: Option<int>, model: Option<string>)

  function Decimal(n: nat): string {
    (if n < 10 then "" else Decimal(n / 10)) + [['0', '1', '2', '3', '4', '5', '6', '7', '8', '9'][n % 10]]
  }

  function BuildRepairChunk(note: RepairNote, meta: Meta, now: nat): Payload {
    Payload(
      Some(if meta.id.Some? then meta.id.value else "harness-n27-repair-" + Decimal(now)),
      Some(if meta.created.Some? then meta.created.value else now / 1000),
      Some(if meta.model.Some? then meta.model.value else ""),
      List([Choice(Some(note.key.0), Some([Call(Some(note.key.1), Some(note.suffix))]), false)]),
      None)
  }

  predicate Finishes(p: Payload) {
    p.Payload? && p.choices.List?
    && exists i :: 0 <= i < |p.choices.items| && p.choices.items[i].Choice? && p.choices.items[i].finishes
  }

  /** The chunk adds its suffix to its own key, nothing else, and does not end the stream. */
  lemma ChunkCarriesSuffix(note: RepairNote, meta: Meta, now: nat)
    requires note.suffix != ""
    ensures PayloadDeltas(BuildRepairChunk(note, meta, now)) == Observed([Delta(note.key, note.suffix)], false)
    ensures !Finishes(BuildRepairChunk(note, meta, now))
  {
    var cs := BuildRepairChunk(note, meta, now).choices.items;
    var calls := cs[0].toolCalls.value;
    assert CallDeltas(note.key.0, calls[1..]) == Observed([], false);
    assert ChoicesDeltas(cs[1..]) == Observed([], false);
  }
}
