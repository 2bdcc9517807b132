/**
 A wire made of the printer and the reader of CanonicalJson: chunks are printed as canonical JSON and
 read back field by field. It keeps the law the client's view asks for.
 */
module JsonWire {
  import opened Options
  import opened JsonText
  import opened Tracker
  import opened Stream
  import CanonicalJson
  import CanonicalTheorems
  import ClientView

  type Json = CanonicalJson.Json

  // ---------- integers as JSON numbers ----------

  function IntText(n: int): string { if n < 0 then "-" + Decimal(-n) else Decimal(n) }

  function DigitValue(c: char): int { c as int - '0' as int }

  function NatOf(s: string): int { if s == "" then 0 else 10 * NatOf(s[..|s| - 1]) + DigitValue(s[|s| - 1]) }

  function IntOf(s: string): int { if s != "" && s[0] == '-' then -NatOf(s[1..]) else NatOf(s) }

  lemma {:induction false} DecimalDigits(n: nat)
    ensures Decimal(n) != "" && forall i :: 0 <= i < |Decimal(n)| ==> IsDigit(Decimal(n)[i])
    ensures NatOf(Decimal(n)) == n
    decreases n
  {
    if n >= 10 {
      DecimalDigits(n / 10);
      assert Decimal(n)[..|Decimal(n)| - 1] == Decimal(n / 10);
    } else {
      assert Decimal(n)[..0] == "";
      assert "" + [Decimal(n)[0]] == Decimal(n);
    }
  }

  /** Digits are a complete number to the recogniser, after a minus sign or without one. */
  lemma {:induction false} DecimalRuns(m: Mode, n: nat)
    requires m.Value? || m == Mode.Num(Minus)
    ensures RunFrom(Config(m, []), Decimal(n)) == Config(Mode.Num(if n == 0 then Zero else Digits), [])
    decreases n
  {
    var c := Config(m, []);
    if n >= 10 {
      DecimalRuns(m, n / 10);
      var d := Decimal(n)[|Decimal(n)| - 1];
      assert Decimal(n) == Decimal(n / 10) + [d];
      RunFromConcat(c, Decimal(n / 10), [d]);
      OneStep(RunFrom(c, Decimal(n / 10)), d);
    } else {
      OneStep(c, Decimal(n)[0]);
      assert Decimal(n) == [Decimal(n)[0]];
    }
  }

  lemma OneStep(c: Config, ch: char)
    ensures RunFrom(c, [ch]) == Step(c, ch)
  {
    assert [ch][1..] == "";
    assert RunFrom(Step(c, ch), "") == Step(c, ch);
    hide Step;
  }

  lemma IntIsNumber(n: int)
    ensures CanonicalJson.NumberText(IntText(n)) && IntOf(IntText(n)) == n
  {
    hide RunFrom, Decimal, NatOf;
    if n < 0 {
      NegativeRuns(-n);
      DecimalDigits(-n);
      assert IntText(n)[1..] == Decimal(-n);
    } else {
      DecimalDigits(n);
      DecimalRuns(Value, n);
    }
  }

  lemma NegativeRuns(n: nat)
    requires n > 0
    ensures Valid("-" + Decimal(n))
  {
    hide Decimal;
    DecimalRuns(Mode.Num(Minus), n);
    RunFromConcat(START, "-", Decimal(n));
    OneStep(START, '-');
    hide RunFrom;
  }

  // ---------- chunks as JSON values ----------

  function IntJson(n: Option<int>): Json { if n.Some? then CanonicalJson.Num(IntText(n.value)) else CanonicalJson.Null }

  function StrJson(s: Option<string>): Json { if s.Some? then CanonicalJson.Str(s.value) else CanonicalJson.Null }

  function CallJson(c: ToolCall): Json {
    match c
    case NullCall => CanonicalJson.Null
    case Call(index, args) =>
      CanonicalJson.Obj([("function", CanonicalJson.Obj([("arguments", StrJson(args))])), ("index", IntJson(index))])
  }

  function CallsJson(calls: Option<seq<ToolCall>>): Json {
    if calls.None? then CanonicalJson.Null
    else CanonicalJson.Arr(seq(|calls.value|, i requires 0 <= i < |calls.value| => CallJson(calls.value[i])))
  }

  function ChoiceJson(c: Choice): Json {
    match c
    case NullChoice => CanonicalJson.Null
    case Choice(index, calls, finishes) =>
      CanonicalJson.Obj([("delta", CanonicalJson.Obj([("tool_calls", CallsJson(calls))])),
                         ("finish_reason", if finishes then CanonicalJson.Str("stop") else CanonicalJson.Null),
                         ("index", IntJson(index))])
  }

  function ChoicesJson(cs: Choices): Json {
    match cs
    case Missing => CanonicalJson.Null
    case NotAList => CanonicalJson.Bool(true)
    case List(items) => CanonicalJson.Arr(seq(|items|, i requires 0 <= i < |items| => ChoiceJson(items[i])))
  }

  function PayloadJson(p: Payload): Json {
    match p
    case NullPayload => CanonicalJson.Null
    case Payload(id, created, model, choices, tokens) =>
      CanonicalJson.Obj([("choices", ChoicesJson(choices)), ("created", IntJson(created)), ("id", StrJson(id)),
                         ("model", StrJson(model)), ("usage", CanonicalJson.Obj([("prompt_tokens", IntJson(tokens))]))])
  }

  // ---------- and back ----------

  function Field(v: Json, key: string): Json {
    if v.Obj? then Lookup(v.entries, key) else CanonicalJson.Null
  }

  function Lookup(es: seq<(string, Json)>, key: string): Json {
    if es == [] then CanonicalJson.Null else if es[0].0 == key then es[0].1 else Lookup(es[1..], key)
  }

  function JsonInt(v: Json): Option<int> { if v.Num? then Some(IntOf(v.text)) else None }

  function JsonStr(v: Json): Option<string> { if v.Str? then Some(v.s) else None }

  function JsonCall(v: Json): ToolCall {
    if v.Null? then NullCall else Call(JsonInt(Field(v, "index")), JsonStr(Field(Field(v, "function"), "arguments")))
  }

  function JsonCalls(v: Json): Option<seq<ToolCall>> {
    if v.Arr? then Some(seq(|v.items|, i requires 0 <= i < |v.items| => JsonCall(v.items[i]))) else None
  }

  function JsonChoice(v: Json): Choice {
    if v.Null? then NullChoice
    else
      Choice(JsonInt(Field(v, "index")), JsonCalls(Field(Field(v, "delta"), "tool_calls")), !Field(v, "finish_reason").Null?)
  }

  function JsonChoices(v: Json): Choices {
    if v.Null? then Missing
    else if v.Arr? then List(seq(|v.items|, i requires 0 <= i < |v.items| => JsonChoice(v.items[i])))
    else NotAList
  }

  function JsonPayload(v: Json): Payload {
    if v.Null? then NullPayload
    else
      Payload(JsonStr(Field(v, "id")), JsonInt(Field(v, "created")), JsonStr(Field(v, "model")), JsonChoices(Field(v, "choices")),
              JsonInt(Field(Field(v, "usage"), "prompt_tokens")))
  }

  function ReadChunk(s: string): Option<Payload> {
    var v := CanonicalJson.Read(s);
    if v.None? then None else Some(JsonPayload(v.value))
  }

  /** The wire at a given time. */
  function JsonWireAt(now: nat): Wire {
    Wire(ReadChunk, p => CanonicalJson.StableStringify(PayloadJson(p)), now, false)
  }

  // ---------- canonical values ----------

  lemma {:induction false} EarlierLetter(same: string, c: char, a: string, d: char, b: string)
    requires CanonicalJson.Rank(c) < CanonicalJson.Rank(d)
    ensures CanonicalJson.Below(same + [c] + a, same + [d] + b)
  {
    if same == "" {
      assert same + [c] + a == [c] + a && same + [d] + b == [d] + b;
    } else {
      EarlierLetter(same[1..], c, a, d, b);
      assert (same + [c] + a)[1..] == same[1..] + [c] + a && (same + [d] + b)[1..] == same[1..] + [d] + b;
    }
  }

  lemma KeysAscend()
    ensures CanonicalJson.Below("choices", "created") && CanonicalJson.Below("created", "id")
    ensures CanonicalJson.Below("id", "model") && CanonicalJson.Below("model", "usage")
    ensures CanonicalJson.Below("delta", "finish_reason") && CanonicalJson.Below("finish_reason", "index")
    ensures CanonicalJson.Below("function", "index")
  {
    EarlierLetter("c", 'h', "oices", 'r', "eated");
    assert "choices" == "c" + ['h'] + "oices" && "created" == "c" + ['r'] + "eated";
  }

  lemma KeysDiffer()
    ensures "choices" != "created" && "choices" != "id" && "choices" != "model" && "choices" != "usage"
    ensures "created" != "id" && "created" != "model" && "created" != "usage"
    ensures "id" != "model" && "id" != "usage" && "model" != "usage"
    ensures "delta" != "finish_reason" && "delta" != "index" && "finish_reason" != "index" && "function" != "index"
  {
    assert |"choices"| == 7 && |"created"| == 7 && |"id"| == 2 && |"model"| == 5 && |"usage"| == 5;
    assert |"delta"| == 5 && |"finish_reason"| == 13 && |"index"| == 5 && |"function"| == 8;
    assert "choices"[1] != "created"[1] && "model"[0] != "usage"[0] && "delta"[0] != "index"[0];
  }

  /** Well-formed, and the keys of every object in order. */
  predicate Canonical(v: Json) {
    match v
    case Num(text) => CanonicalJson.NumberText(text)
    case Arr(items) => forall i :: 0 <= i < |items| ==> Canonical(items[i])
    case Obj(es) => CanonicalJson.Ascending(es) && forall i :: 0 <= i < |es| ==> Canonical(es[i].1)
    case _ => true
  }

  lemma {:induction false} CanonicalIsNormal(v: Json)
    requires Canonical(v)
    ensures CanonicalJson.WellFormed(v) && CanonicalJson.Normal(v) == v
    decreases v
  {
    match v
    case Arr(items) =>
      forall i | 0 <= i < |items|
        ensures CanonicalJson.WellFormed(items[i]) && CanonicalJson.Normal(items[i]) == items[i]
      {
        CanonicalIsNormal(items[i]);
      }
      CanonicalTheorems.PrintArray(items);
      assert CanonicalTheorems.Normals(items) == items;
    case Obj(es) => CanonicalObject(es, v);
    case _ =>
  }

  lemma {:induction false} CanonicalObject(es: seq<(string, Json)>, v: Json)
    requires v == CanonicalJson.Obj(es) && Canonical(v)
    ensures CanonicalJson.WellFormed(v) && CanonicalJson.Normal(v) == v
    decreases v, 0
  {
    hide CanonicalJson.Normal, CanonicalJson.SortByKey, CanonicalJson.StableStringify, CanonicalJson.Ascending;
    CanonicalTheorems.PrintObject(es);
    CanonicalJson.SortedStays(es);
    CanonicalTheorems.AscendingDistinct(es);
    forall i | 0 <= i < |es|
      ensures CanonicalJson.WellFormed(es[i].1) && CanonicalJson.Normal(es[i].1) == es[i].1
    {
      assert es[i].1 < v;
      CanonicalIsNormal(es[i].1);
    }
    assert CanonicalJson.Mapped(es, CanonicalJson.Normal) == es;
  }

  lemma {:induction false} AscendingChain(es: seq<(string, Json)>)
    requires forall i :: 0 <= i < |es| - 1 ==> CanonicalJson.Below(es[i].0, es[i + 1].0)
    ensures CanonicalJson.Ascending(es)
    decreases |es|
  {
    hide CanonicalJson.Below;
    if |es| > 1 {
      var rest, last := es[..|es| - 1], es[|es| - 1];
      AscendingChain(rest);
      forall i | 0 <= i < |rest|
        ensures CanonicalJson.Below(rest[i].0, last.0)
      {
        if i < |rest| - 1 {
          CanonicalJson.BelowTransitive(rest[i].0, rest[|rest| - 1].0, last.0);
        }
      }
      CanonicalJson.AscendingSnoc(rest, last);
      assert es == rest + [last];
    }
  }

  lemma IntCanonical(n: Option<int>)
    ensures Canonical(IntJson(n)) && JsonInt(IntJson(n)) == n
  {
    if n.Some? {
      IntIsNumber(n.value);
    }
    hide IntText, IntOf, CanonicalJson.NumberText;
  }

  lemma {:induction false} LookupAt(es: seq<(string, Json)>, i: nat, key: string)
    requires i < |es| && es[i].0 == key && forall j :: 0 <= j < i ==> es[j].0 != key
    ensures Lookup(es, key) == es[i].1
  {
    if i > 0 {
      LookupAt(es[1..], i - 1, key);
    }
  }

  lemma CallFields(c: ToolCall)
    requires c.Call?
    ensures var v := CallJson(c);
      !v.Null? && Field(v, "index") == IntJson(c.index) && Field(Field(v, "function"), "arguments") == StrJson(c.args)
  {
    hide IntJson, StrJson;
    KeysDiffer();
    var es := CallJson(c).entries;
    LookupAt(es, 0, "function");
    LookupAt(es, 1, "index");
    LookupAt([("arguments", StrJson(c.args))], 0, "arguments");
  }

  lemma CallCanonical(c: ToolCall)
    requires c.Call?
    ensures Canonical(CallJson(c))
  {
    hide IntJson, CanonicalJson.Below, CanonicalJson.Ascending;
    IntCanonical(c.index);
    KeysAscend();
    ArgumentsCanonical(c.args);
    var es := CallJson(c).entries;
    assert es[0].0 == "function" && es[1].0 == "index";
    AscendingChain(es);
    assert Canonical(es[0].1) && Canonical(es[1].1);
  }

  lemma ArgumentsCanonical(args: Option<string>)
    ensures Canonical(CanonicalJson.Obj([("arguments", StrJson(args))]))
  {
    var es := [("arguments", StrJson(args))];
    AscendingChain(es);
    assert Canonical(es[0].1);
    hide CanonicalJson.Below, CanonicalJson.Ascending;
  }

  lemma CallReadsBack(c: ToolCall)
    ensures Canonical(CallJson(c)) && JsonCall(CallJson(c)) == c
  {
    hide IntJson, JsonInt, Field;
    if c.Call? {
      IntCanonical(c.index);
      CallCanonical(c);
      CallFields(c);
      hide CallJson;
    }
  }

  lemma CallsReadBack(calls: Option<seq<ToolCall>>)
    ensures Canonical(CallsJson(calls)) && JsonCalls(CallsJson(calls)) == calls
  {
    hide CallJson, JsonCall;
    if calls.Some? {
      forall i | 0 <= i < |calls.value|
        ensures Canonical(CallJson(calls.value[i])) && JsonCall(CallJson(calls.value[i])) == calls.value[i]
      {
        CallReadsBack(calls.value[i]);
      }
      assert JsonCalls(CallsJson(calls)).value == calls.value;
    }
  }

  lemma ChoiceReadsBack(c: Choice)
    ensures Canonical(ChoiceJson(c)) && JsonChoice(ChoiceJson(c)) == c
  {
    hide IntJson, JsonInt, CallsJson, JsonCalls, CanonicalJson.Below;
    if c.Choice? {
      IntCanonical(c.index);
      CallsReadBack(c.toolCalls);
      KeysAscend();
      KeysDiffer();
      AscendingChain(ChoiceJson(c).entries);
      AscendingChain([("tool_calls", CallsJson(c.toolCalls))]);
      var v := ChoiceJson(c);
      LookupAt(v.entries, 0, "delta");
      LookupAt(v.entries, 1, "finish_reason");
      LookupAt(v.entries, 2, "index");
      assert Field(Field(v, "delta"), "tool_calls") == CallsJson(c.toolCalls);
    }
  }

  lemma ChoicesReadBack(cs: Choices)
    ensures Canonical(ChoicesJson(cs)) && JsonChoices(ChoicesJson(cs)) == cs
  {
    hide ChoiceJson, JsonChoice;
    if cs.List? {
      forall i | 0 <= i < |cs.items|
        ensures Canonical(ChoiceJson(cs.items[i])) && JsonChoice(ChoiceJson(cs.items[i])) == cs.items[i]
      {
        ChoiceReadsBack(cs.items[i]);
      }
    }
  }

  lemma PayloadFields(p: Payload)
    requires p.Payload?
    ensures var v := PayloadJson(p);
      && Field(v, "choices") == ChoicesJson(p.choices) && Field(v, "created") == IntJson(p.created)
      && Field(v, "id") == StrJson(p.id) && Field(v, "model") == StrJson(p.model)
      && Field(Field(v, "usage"), "prompt_tokens") == IntJson(p.promptTokens)
  {
    hide IntJson, StrJson, ChoicesJson;
    KeysDiffer();
    var es := PayloadJson(p).entries;
    LookupAt(es, 0, "choices");
    LookupAt(es, 1, "created");
    LookupAt(es, 2, "id");
    LookupAt(es, 3, "model");
    LookupAt(es, 4, "usage");
  }

  lemma PayloadReadsBack(p: Payload)
    ensures Canonical(PayloadJson(p)) && JsonPayload(PayloadJson(p)) == p
  {
    hide IntJson, JsonInt, ChoicesJson, JsonChoices, Field, CanonicalJson.Below;
    if p.Payload? {
      IntCanonical(p.created);
      IntCanonical(p.promptTokens);
      ChoicesReadBack(p.choices);
      KeysAscend();
      KeysDiffer();
      AscendingChain(PayloadJson(p).entries);
      AscendingChain([("prompt_tokens", IntJson(p.promptTokens))]);
      PayloadFields(p);
    }
  }

  // ---------- the printed text is one line ----------

  lemma {:induction false} EscapedClean(s: string)
    ensures ClientView.NoNewline(CanonicalJson.EscapedAll(s))
  {
    if s != "" {
      EscapedClean(s[1..]);
    }
  }

  lemma {:induction false} JoinedClean(parts: seq<string>)
    requires forall i :: 0 <= i < |parts| ==> ClientView.NoNewline(parts[i])
    ensures ClientView.NoNewline(CanonicalJson.Joined(parts))
    decreases |parts|
  {
    if |parts| > 1 {
      JoinedClean(parts[1..]);
    }
  }

  lemma {:induction false} PrintedClean(v: Json)
    requires CanonicalJson.WellFormed(v)
    ensures ClientView.NoNewline(CanonicalJson.StableStringify(v))
    decreases v
  {
    match v
    case Str(s) => EscapedClean(s);
    case Arr(items) =>
      CanonicalTheorems.PrintArray(items);
      forall i | 0 <= i < |items|
        ensures ClientView.NoNewline(CanonicalTheorems.ItemTexts(items)[i])
      {
        PrintedClean(items[i]);
      }
      JoinedClean(CanonicalTheorems.ItemTexts(items));
    case Obj(es) => ObjectClean(es, v);
    case _ =>
  }

  lemma {:induction false} ObjectClean(es: seq<(string, Json)>, v: Json)
    requires v == CanonicalJson.Obj(es) && CanonicalJson.WellFormed(v)
    ensures ClientView.NoNewline(CanonicalJson.StableStringify(v))
    decreases v, 0
  {
    hide CanonicalJson.StableStringify, CanonicalJson.SortByKey, CanonicalJson.Joined, CanonicalJson.Normal, CanonicalJson.Ascending;
    CanonicalTheorems.PrintObject(es);
    CanonicalTheorems.SortedEntries(es);
    var sorted := CanonicalJson.SortByKey(es);
    var parts := CanonicalTheorems.MemberTexts(sorted);
    forall i | 0 <= i < |parts|
      ensures ClientView.NoNewline(parts[i])
    {
      CanonicalTheorems.EntrySmaller(v, sorted[i]);
      PrintedClean(sorted[i].1);
      EscapedClean(sorted[i].0);
    }
    JoinedClean(parts);
  }

  /** Every chunk is printed as one line that reads back, so the wire keeps the law the client asks for. */
  lemma WirePrints(now: nat, p: Payload)
    requires p.Payload?
    ensures ClientView.Prints(JsonWireAt(now), p)
  {
    hide CanonicalJson.StableStringify, CanonicalJson.Read, CanonicalJson.WellFormed, JsonPayload, Canonical, CanonicalJson.Normal;
    var v := PayloadJson(p);
    PayloadReadsBack(p);
    CanonicalIsNormal(v);
    CanonicalTheorems.StringifyReadsBack(v);
    PrintedClean(v);
    hide PayloadJson;
    ObjectBraces(v.entries);
  }

  lemma ObjectBraces(es: seq<(string, Json)>)
    ensures var text := CanonicalJson.StableStringify(CanonicalJson.Obj(es));
      |text| >= 2 && text[0] == '{' && text[|text| - 1] == '}'
  {
    hide CanonicalJson.StableStringify, CanonicalJson.Joined;
    CanonicalTheorems.PrintObject(es);
  }

  lemma WireFaithful(now: nat)
    ensures ClientView.Faithful(JsonWireAt(now))
  {
    forall note: RepairNote, meta: Meta
      ensures ClientView.Prints(JsonWireAt(now), BuildRepairChunk(note, meta, now))
    {
      WirePrints(now, BuildRepairChunk(note, meta, now));
    }
  }
}
