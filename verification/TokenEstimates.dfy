/** What a token estimate comes to, in the characters of a text and the parts of a message. */
module TokenEstimates {
  import opened Options
  import opened Compaction

  /** The blocks of wide characters: radicals, kana and ideographs; their compatibility forms; full width forms. */
  predicate Wide(c: char) {
    '\U{2e80}' <= c <= '\U{9fff}' || '\U{f900}' <= c <= '\U{faff}' || '\U{ff00}' <= c <= '\U{ffef}'
  }

  /** Characters that take two code units. */
  predicate Astral(c: char) { c >= '\U{10000}' }

  function WidePlaces(s: string): set<nat> { set i: nat | i < |s| && Wide(s[i]) }

  function AstralPlaces(s: string): set<nat> { set i: nat | i < |s| && Astral(s[i]) }

  /** A token for every wide character, and one for every four code units begun of the rest. */
  predicate Costs(s: string, n: int) {
    var wide := |WidePlaces(s)|;
    var rest := |s| + |AstralPlaces(s)| - wide;
    rest <= 4 * (n - wide) < rest + 4
  }

  lemma PlacesSnoc(s: string, c: char)
    ensures WidePlaces(s + [c]) == WidePlaces(s) + if Wide(c) then {|s|} else {}
    ensures AstralPlaces(s + [c]) == AstralPlaces(s) + if Astral(c) then {|s|} else {}
  {
  }

  lemma {:induction false} CountsPlaces(s: string)
    ensures CjkCount(s) == |WidePlaces(s)| && Length(s) == |s| + |AstralPlaces(s)|
  {
    if s != "" {
      var rest, c := s[..|s| - 1], s[|s| - 1];
      assert s == rest + [c];
      CountsPlaces(rest);
      PlacesSnoc(rest, c);
    } else {
      assert WidePlaces(s) == {} && AstralPlaces(s) == {};
    }
  }

  /** The estimate of a text is its cost. */
  lemma EstimateExactly(s: string, n: int)
    ensures TextTokens(s) == n <==> Costs(s, n)
  {
    CountsPlaces(s);
  }

  lemma {:induction false} AllWide(s: string)
    requires forall i :: 0 <= i < |s| ==> Wide(s[i])
    ensures |WidePlaces(s)| == |s|
  {
    if s != "" {
      var rest, c := s[..|s| - 1], s[|s| - 1];
      assert s == rest + [c];
      AllWide(rest);
      PlacesSnoc(rest, c);
    }
  }

  /** A wholly wide text costs a token a character, an ASCII text a token for every four begun. */
  lemma PureTexts(s: string)
    ensures (forall i :: 0 <= i < |s| ==> Wide(s[i])) ==> TextTokens(s) == |s|
    ensures (forall i :: 0 <= i < |s| ==> s[i] < '\U{80}') ==> |s| <= 4 * TextTokens(s) < |s| + 4
  {
    EstimateExactly(s, TextTokens(s));
    hide TextTokens;
    if forall i :: 0 <= i < |s| ==> Wide(s[i]) {
      AllWide(s);
      assert AstralPlaces(s) == {};
    }
    if forall i :: 0 <= i < |s| ==> s[i] < '\U{80}' {
      assert WidePlaces(s) == {} && AstralPlaces(s) == {};
    }
  }

  // ---------- messages ----------

  /** The text is that of the parts, in order, with a newline between any two. */
  predicate JoinsTo(parts: seq<Part>, text: string)
    decreases |parts|
  {
    if |parts| == 0 then text == ""
    else
      var last := match parts[|parts| - 1] case Text(t) => t case Rendered(j) => j;
      if |parts| == 1 then text == last
      else
        |text| > |last|
        && text[|text| - |last|..] == last && text[|text| - |last| - 1] == '\n'
        && JoinsTo(parts[..|parts| - 1], text[..|text| - |last| - 1])
  }

  lemma {:induction false} JoinedSnoc(parts: seq<Part>, p: Part)
    requires parts != []
    ensures Joined(parts + [p]) == Joined(parts) + "\n" + PartText(p)
    decreases |parts|
  {
    var all := parts + [p];
    assert all[1..] == parts[1..] + [p];
    if |parts| == 1 {
      assert all[1..] == [p];
    } else {
      JoinedSnoc(parts[1..], p);
      assert PartText(parts[0]) + "\n" + (Joined(parts[1..]) + "\n" + PartText(p)) == PartText(parts[0]) + "\n" + Joined(parts[1..]) + "\n" + PartText(p);
    }
  }

  lemma CutLast(text: string, before: string, last: string)
    ensures text == before + "\n" + last
            <==> |text| > |last| && text[|text| - |last|..] == last && text[|text| - |last| - 1] == '\n' && text[..|text| - |last| - 1] == before
  {
    if |text| > |last| {
      assert text == text[..|text| - |last| - 1] + [text[|text| - |last| - 1]] + text[|text| - |last|..];
    }
  }

  lemma JoinsSnoc(parts: seq<Part>, p: Part, text: string)
    requires parts != []
    ensures JoinsTo(parts + [p], text) <==>
            && |text| > |PartText(p)| && text[|text| - |PartText(p)|..] == PartText(p) && text[|text| - |PartText(p)| - 1] == '\n'
            && JoinsTo(parts, text[..|text| - |PartText(p)| - 1])
  {
    var all := parts + [p];
    assert all[|all| - 1] == p && all[..|all| - 1] == parts;
  }

  lemma JoinsFew(parts: seq<Part>, text: string)
    requires |parts| <= 1
    ensures JoinsTo(parts, text) <==> text == Joined(parts)
  {
  }

  lemma {:induction false} JoinsExactly(parts: seq<Part>, text: string)
    ensures JoinsTo(parts, text) <==> text == Joined(parts)
    decreases |parts|
  {
    hide JoinsTo, Joined, PartText;
    if |parts| > 1 {
      var rest, p := parts[..|parts| - 1], parts[|parts| - 1];
      assert parts == rest + [p];
      JoinedSnoc(rest, p);
      JoinsSnoc(rest, p, text);
      CutLast(text, Joined(rest), PartText(p));
      if |text| > |PartText(p)| {
        JoinsExactly(rest, text[..|text| - |PartText(p)| - 1]);
      }
    } else {
      JoinsFew(parts, text);
    }
  }

  /** The text of a message, by the form of its content. */
  predicate Reads(c: Content, text: string) {
    match c
    case Absent => text == ""
    case Plain(t) => text == t
    case Parts(parts) => JoinsTo(parts, text)
    case Printed(json) => text == json
  }

  predicate CostsIfThere(text: Option<string>, n: int) {
    match text
    case None => n == 0
    case Some(s) => Costs(s, n)
  }

  /** Four tokens for the message, and what its text, its tool calls and its name cost. */
  ghost predicate MessageCosts(m: Message, n: int) {
    exists text, a, b, c ::
      Reads(m.content, text) && Costs(text, a) && CostsIfThere(m.toolCalls, b) && CostsIfThere(m.name, c) && n == 4 + a + b + c
  }

  lemma CostsOfOption(text: Option<string>, n: int)
    ensures CostsIfThere(text, n) <==> n == if text.Some? then TextTokens(text.value) else 0
  {
    if text.Some? {
      EstimateExactly(text.value, n);
    }
    hide TextTokens, Costs;
  }

  lemma ReadsExactly(c: Content, text: string)
    ensures Reads(c, text) <==> text == ContentText(c)
  {
    if c.Parts? {
      JoinsExactly(c.parts, text);
    }
    hide JoinsTo, Joined;
  }

  lemma MessageExactly(m: Message, n: int)
    ensures MessageTokens(m) == n <==> MessageCosts(m, n)
  {
    hide TextTokens, Costs, CostsIfThere, Reads, ContentText;
    var text := ContentText(m.content);
    var a := TextTokens(text);
    var b := if m.toolCalls.Some? then TextTokens(m.toolCalls.value) else 0;
    var c := if m.name.Some? then TextTokens(m.name.value) else 0;
    ReadsExactly(m.content, text);
    EstimateExactly(text, a);
    CostsOfOption(m.toolCalls, b);
    CostsOfOption(m.name, c);
    assert Reads(m.content, text) && Costs(text, a) && CostsIfThere(m.toolCalls, b) && CostsIfThere(m.name, c);
    if t, x, y, z :| Reads(m.content, t) && Costs(t, x) && CostsIfThere(m.toolCalls, y) && CostsIfThere(m.name, z) && n == 4 + x + y + z {
      ReadsExactly(m.content, t);
      EstimateExactly(t, x);
      CostsOfOption(m.toolCalls, y);
      CostsOfOption(m.name, z);
    }
  }
}
