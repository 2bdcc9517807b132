/**
 What the lines of an upstream stream mean, written over the characters of the line and the fields of
 the decoded chunk: which line ends a stream, which deltas, names and samples are taken from a line,
 and what that makes of a whole text.
 */
module LineMeaning {
  import opened Options
  import opened Repair
  import opened Tracker
  import opened Stream
  import opened StreamTheorems
  import opened Places

  // ---------- white space and data lines ----------

  predicate Spaces(s: string) { forall i :: 0 <= i < |s| ==> IsJsSpace(s[i]) }

  predicate Bare(s: string) { s != "" ==> !IsJsSpace(s[0]) && !IsJsSpace(s[|s| - 1]) }

  /** White space, `data:`, white space, the data, white space. */
  ghost predicate DataLine(raw: string, data: string) {
    Bare(data) && exists a, b, c :: Spaces(a) && Spaces(b) && Spaces(c) && raw == a + ("data:" + (b + (data + c)))
  }

  lemma {:induction false} TrimEndSplits(s: string)
    ensures s == TrimEnd(s) + s[|TrimEnd(s)|..] && Spaces(s[|TrimEnd(s)|..])
  {
    if s != [] && IsJsSpace(s[|s| - 1]) {
      TrimEndSplits(s[..|s| - 1]);
    }
  }

  lemma {:induction false} TrimStartSplits(s: string) returns (a: string)
    ensures s == a + TrimStart(s) && Spaces(a)
  {
    a := "";
    if s != [] && IsJsSpace(s[0]) {
      a := TrimStartSplits(s[1..]);
      assert s == [s[0]] + s[1..];
      a := [s[0]] + a;
    }
  }

  lemma TrimSplits(s: string) returns (a: string, b: string)
    ensures s == a + (Trim(s) + b) && Spaces(a) && Spaces(b) && Bare(Trim(s))
  {
    TrimEndSplits(s);
    b := s[|TrimEnd(s)|..];
    a := TrimStartSplits(TrimEnd(s));
    assert TrimEnd(s) == a + Trim(s);
    if Trim(s) != "" {
      assert Trim(s)[|Trim(s)| - 1] == TrimEnd(s)[|TrimEnd(s)| - 1];
    }
  }

  lemma {:induction false} TrimEndOf(t: string, b: string)
    requires Spaces(b) && Bare(t)
    ensures TrimEnd(t + b) == t
    decreases |b|
  {
    if b == "" {
      assert t + b == t;
    } else {
      assert (t + b)[..|t + b| - 1] == t + b[..|b| - 1];
      TrimEndOf(t, b[..|b| - 1]);
    }
  }

  lemma {:induction false} TrimStartOf(a: string, t: string)
    requires Spaces(a) && Bare(t)
    ensures TrimStart(a + t) == t
    decreases |a|
  {
    if a == "" {
      assert a + t == t;
    } else {
      assert (a + t)[0] == a[0] && (a + t)[1..] == a[1..] + t;
      TrimStartOf(a[1..], t);
    }
  }

  lemma {:induction false} SpacesTrimAway(s: string)
    requires Spaces(s)
    ensures TrimEnd(s) == ""
  {
    if s != "" {
      SpacesTrimAway(s[..|s| - 1]);
    }
  }

  /** trim() takes away white space at both ends, and nothing else. */
  lemma TrimOf(a: string, t: string, b: string)
    requires Spaces(a) && Spaces(b) && Bare(t)
    ensures Trim(a + (t + b)) == t
  {
    assert a + (t + b) == (a + t) + b;
    if t == "" {
      assert Spaces((a + t) + b);
      SpacesTrimAway((a + t) + b);
    } else if a == "" {
      assert a + t == t;
      TrimEndOf(t, b);
      TrimStartOf(a, t);
    } else {
      EndsLike(a, t, b);
      TrimStartOf(a, t);
    }
  }

  lemma {:induction false} EndsLike(a: string, t: string, b: string)
    requires Spaces(b) && t != "" && Bare(t)
    ensures TrimEnd((a + t) + b) == a + t
    decreases |b|
  {
    if b == "" {
      assert (a + t) + b == a + t && (a + t)[|a + t| - 1] == t[|t| - 1];
    } else {
      var s := (a + t) + b;
      assert s[|s| - 1] == b[|b| - 1] && s[..|s| - 1] == (a + t) + b[..|b| - 1];
      EndsLike(a, t, b[..|b| - 1]);
    }
  }

  lemma DataOfLine(raw: string, a: string, b: string, data: string, c: string)
    requires Spaces(a) && Spaces(b) && Spaces(c) && Bare(data) && raw == a + ("data:" + (b + (data + c)))
    ensures DataOf(raw) == Some(data)
  {
    hide Trim;
    if data == "" {
      assert raw == a + ("data:" + (b + c));
      TrimOf(a, "data:", b + c);
      assert "data:"[5..] == "" && "" + ("" + "") == "";
      TrimOf("", "", "");
    } else {
      var line := "data:" + (b + data);
      assert line[0] == 'd' && line[|line| - 1] == data[|data| - 1];
      assert raw == a + (line + c);
      TrimOf(a, line, c);
      assert line[5..] == b + data && b + (data + "") == b + data;
      TrimOf(b, data, "");
    }
  }

  /** The data of a line is what stands behind `data:`, white space apart. */
  lemma DataIff(raw: string, data: string)
    ensures DataOf(raw) == Some(data) <==> DataLine(raw, data)
  {
    hide Trim;
    if DataOf(raw) == Some(data) {
      var a, z := TrimSplits(raw);
      var b, c := TrimSplits(Trim(raw)[5..]);
      assert Trim(raw) == "data:" + Trim(raw)[5..];
      assert raw == a + ("data:" + (b + (data + (c + z))));
      assert Spaces(c + z);
    }
    if DataLine(raw, data) {
      var a, b, c :| Spaces(a) && Spaces(b) && Spaces(c) && raw == a + ("data:" + (b + (data + c)));
      DataOfLine(raw, a, b, data, c);
    }
  }

  // ---------- chunks ----------

  predicate WholeChoice(c: Choice) {
    c.Choice? && (c.toolCalls.Some? ==> forall j :: 0 <= j < |c.toolCalls.value| ==> c.toolCalls.value[j].Call?)
  }

  /** No null element in the list of choices, nor in any list of tool calls. */
  predicate Whole(cs: seq<Choice>) { forall i :: 0 <= i < |cs| ==> WholeChoice(cs[i]) }

  lemma {:induction false} CallsThrewIff(index: int, calls: seq<ToolCall>)
    ensures CallDeltas(index, calls).threw <==> exists j :: 0 <= j < |calls| && calls[j].NullCall?
  {
    if calls != [] {
      CallsThrewIff(index, calls[1..]);
      assert forall j :: 1 <= j < |calls| ==> calls[j] == calls[1..][j - 1];
    }
  }

  lemma {:induction false} ThrewIff(cs: seq<Choice>)
    ensures ChoicesDeltas(cs).threw <==> !Whole(cs)
  {
    if cs != [] {
      if cs[0].Choice? && cs[0].toolCalls.Some? {
        CallsThrewIff(IndexOr0(cs[0].index), cs[0].toolCalls.value);
      }
      ThrewIff(cs[1..]);
      hide CallDeltas, WholeChoice;
      assert cs == [cs[0]] + cs[1..];
      assert Whole(cs) <==> WholeChoice(cs[0]) && Whole(cs[1..]);
    }
  }

  /** Some choice has a finish reason, and no null element makes the wrapper throw before it looks. */
  predicate Finishing(cs: seq<Choice>) { Whole(cs) && exists i :: 0 <= i < |cs| && cs[i].finishes }

  /** The line carries a chunk: an object, whatever its fields. */
  ghost predicate Carries(w: Wire, raw: string, p: Payload) {
    p.Payload? && exists d :: DataLine(raw, d) && d != "" && d != "[DONE]" && w.decode(d) == Some(p)
  }

  /** The line ends the stream as a finish chunk, for every id, created, model and number of tokens. */
  ghost predicate IsFinish(w: Wire, raw: string) {
    exists id: Option<string>, created: Option<int>, model: Option<string>, cs: seq<Choice>, tokens: Option<int> ::
      Carries(w, raw, Payload(id, created, model, List(cs), tokens)) && Finishing(cs)
  }

  function PayloadOf(w: Wire, raw: string): Option<Payload> {
    var data := DataOf(raw);
    if data.None? || data.value == "" || data.value == DONE then None
    else if w.decode(data.value).Some? && w.decode(data.value).value.Payload? then w.decode(data.value) else None
  }

  lemma CarriesIff(w: Wire, raw: string, p: Payload)
    ensures Carries(w, raw, p) <==> PayloadOf(w, raw) == Some(p)
  {
    hide DataOf, DataLine;
    if Carries(w, raw, p) {
      var d :| DataLine(raw, d) && d != "" && d != "[DONE]" && w.decode(d) == Some(p);
      DataIff(raw, d);
    }
    if PayloadOf(w, raw) == Some(p) {
      DataIff(raw, DataOf(raw).value);
    }
  }

  ghost predicate EndsStream(w: Wire, raw: string) { IsFinish(w, raw) || DataLine(raw, "[DONE]") }

  lemma FinishesIff(p: Payload)
    ensures p.Payload? && p.choices.List? ==>
              (Finishes(p) && !PayloadDeltas(p).threw
               <==> Finishing(p.choices.items))
    ensures Finishes(p) ==> p.Payload? && p.choices.List?
  {
    if p.Payload? && p.choices.List? {
      ThrewIff(p.choices.items);
    }
  }

  /**
   A line ends the stream as a finish chunk if and only if, apart from white space, it is `data:` and the
   text of a chunk without null elements in which some choice has a finish reason; as [DONE] if and only
   if that text is [DONE].
   */
  lemma KindIff(w: Wire, raw: string)
    ensures KindOf(w, raw).FinishLine? <==> IsFinish(w, raw)
    ensures KindOf(w, raw).DoneLine? <==> DataLine(raw, "[DONE]")
    ensures KindOf(w, raw).PlainLine? <==> !EndsStream(w, raw)
  {
    DataIff(raw, "[DONE]");
    hide DataOf, DataLine, Finishing, Finishes, PayloadDeltas;
    if KindOf(w, raw).FinishLine? {
      var p := w.decode(DataOf(raw).value).value;
      FinishesIff(p);
      CarriesIff(w, raw, p);
      hide Carries, PayloadOf;
      assert Carries(w, raw, Payload(p.id, p.created, p.model, List(p.choices.items), p.promptTokens));
    }
    if IsFinish(w, raw) {
      var id: Option<string>, created: Option<int>, model: Option<string>, cs: seq<Choice>, tokens: Option<int> :|
        Carries(w, raw, Payload(id, created, model, List(cs), tokens)) && Finishing(cs);
      var p := Payload(id, created, model, List(cs), tokens);
      CarriesIff(w, raw, p);
      FinishesIff(p);
    }
  }

  // ---------- the deltas of a chunk ----------

  type Place = (nat, nat)

  predicate Before(a: Place, b: Place) { a.0 < b.0 || (a.0 == b.0 && a.1 < b.1) }

  /** Argument text stands at the place. */
  predicate Speaks(cs: seq<Choice>, at: Place) {
    && at.0 < |cs| && cs[at.0].Choice? && cs[at.0].toolCalls.Some? && at.1 < |cs[at.0].toolCalls.value|
    && var call := cs[at.0].toolCalls.value[at.1];
    call.Call? && call.args.Some? && call.args.value != ""
  }

  predicate IsNull(cs: seq<Choice>, at: Place) {
    at.0 < |cs|
    && (cs[at.0].NullChoice?
        || (cs[at.0].toolCalls.Some? && at.1 < |cs[at.0].toolCalls.value| && cs[at.0].toolCalls.value[at.1].NullCall?))
  }

  /** Text at or after `from`, with no null element from there up to it. */
  ghost predicate Heard(cs: seq<Choice>, from: Place, at: Place) {
    !Before(at, from) && Speaks(cs, at) && forall p: Place :: !Before(p, from) && Before(p, at) ==> !IsNull(cs, p)
  }

  /** The delta of a place: its text under the two indices, a missing index counting as 0. */
  predicate DeltaAt(cs: seq<Choice>, at: Place, d: Delta)
    requires Speaks(cs, at)
  {
    var choice, call := cs[at.0], cs[at.0].toolCalls.value[at.1];
    && d.key.0 == (match choice.index case None => 0 case Some(n) => n)
    && d.key.1 == (match call.index case None => 0 case Some(n) => n)
    && call.args == Some(d.text)
  }

  /** The places heard from `from` on, in order, up to choice `last`, and their deltas. */
  ghost predicate Listing(cs: seq<Choice>, from: Place, last: nat, ps: seq<Place>, ds: seq<Delta>) {
    && |ps| == |ds|
    && (forall i, j :: 0 <= i < j < |ps| ==> Before(ps[i], ps[j]))
    && (forall i :: 0 <= i < |ps| ==> Heard(cs, from, ps[i]) && ps[i].0 <= last && DeltaAt(cs, ps[i], ds[i]))
    && forall at: Place :: Heard(cs, from, at) && at.0 <= last ==> at in ps
  }

  /** Going on from the next place changes what is heard only at this one, if no null element is there. */
  lemma HeardNext(cs: seq<Choice>, from: Place, next: Place, at: Place)
    requires from.0 < |cs| && !IsNull(cs, from) && cs[from.0].Choice?
    requires next == (from.0, from.1 + 1)
             || (next == (from.0 + 1, 0) && (cs[from.0].toolCalls.None? || from.1 >= |cs[from.0].toolCalls.value|))
    ensures Heard(cs, from, at) <==> (at == from && Speaks(cs, from)) || Heard(cs, next, at)
  {
    if Heard(cs, from, at) && at != from {
      forall p: Place | !Before(p, next) && Before(p, at)
        ensures !IsNull(cs, p)
      {
        assert !Before(p, from);
      }
    }
    if Heard(cs, next, at) {
      forall p: Place | !Before(p, from) && Before(p, at)
        ensures !IsNull(cs, p)
      {
      }
    }
  }

  lemma NothingHeard(cs: seq<Choice>, c: nat, k: nat)
    requires c < |cs| && cs[c].Choice? && cs[c].toolCalls.Some? && k <= |cs[c].toolCalls.value|
    requires k == |cs[c].toolCalls.value| || cs[c].toolCalls.value[k].NullCall?
    ensures forall at: Place :: Heard(cs, (c, k), at) ==> at.0 > c
  {
    var from: Place := (c, k);
    assert k < |cs[c].toolCalls.value| ==> IsNull(cs, from) && !Before(from, from);
    forall at: Place | Heard(cs, from, at)
      ensures at.0 > c
    {
      assert !Before(from, at) || !IsNull(cs, from);
    }
  }

  lemma {:induction false} CallsListed(cs: seq<Choice>, c: nat, k: nat) returns (ps: seq<Place>)
    requires c < |cs| && cs[c].Choice? && cs[c].toolCalls.Some? && k <= |cs[c].toolCalls.value|
    ensures Listing(cs, (c, k), c, ps, CallDeltas(IndexOr0(cs[c].index), cs[c].toolCalls.value[k..]).deltas)
    decreases |cs[c].toolCalls.value| - k
  {
    var calls, index := cs[c].toolCalls.value, IndexOr0(cs[c].index);
    var from: Place := (c, k);
    if k == |calls| || calls[k].NullCall? {
      ps := [];
      NothingHeard(cs, c, k);
    } else {
      assert calls[k..][1..] == calls[k + 1..];
      var rest := CallsListed(cs, c, k + 1);
      forall at: Place
        ensures Heard(cs, from, at) <==> (at == from && Speaks(cs, from)) || Heard(cs, (c, k + 1), at)
      {
        HeardNext(cs, from, (c, k + 1), at);
      }
      assert CallDeltas(index, calls[k..]).deltas == CallDelta(index, calls[k]) + CallDeltas(index, calls[k + 1..]).deltas;
      if Speaks(cs, from) {
        ps := [from] + rest;
        ListingGrows(cs, from, (c, k + 1), c, rest, CallDeltas(index, calls[k + 1..]).deltas, CallDelta(index, calls[k])[0]);
      } else {
        ps := rest;
        ListingStays(cs, from, (c, k + 1), c, rest, CallDeltas(index, calls[k + 1..]).deltas);
        assert [] + CallDeltas(index, calls[k + 1..]).deltas == CallDeltas(index, calls[k + 1..]).deltas;
      }
      hide CallDeltas, Listing, Heard;
    }
  }

  /** A place without text adds nothing. */
  lemma ListingStays(cs: seq<Choice>, from: Place, next: Place, last: nat, ps: seq<Place>, ds: seq<Delta>)
    requires Listing(cs, next, last, ps, ds)
    requires forall at: Place :: Heard(cs, from, at) <==> Heard(cs, next, at)
    ensures Listing(cs, from, last, ps, ds)
  {
    hide Heard, Before;
  }

  /** One place more in front. */
  lemma ListingGrows(cs: seq<Choice>, from: Place, next: Place, last: nat, ps: seq<Place>, ds: seq<Delta>, d: Delta)
    requires Before(from, next) && from.0 <= last && Listing(cs, next, last, ps, ds)
    requires forall at: Place :: Heard(cs, from, at) <==> at == from || Heard(cs, next, at)
    requires Speaks(cs, from) && DeltaAt(cs, from, d)
    ensures Listing(cs, from, last, [from] + ps, [d] + ds)
  {
    forall i | 0 <= i < |ps|
      ensures Before(from, ps[i])
    {
      NotBefore(cs, next, ps[i]);
    }
    hide Heard, DeltaAt, Before;
    InFront(cs, from, last, ps, ds, d);
  }

  lemma NotBefore(cs: seq<Choice>, from: Place, at: Place)
    requires Heard(cs, from, at)
    ensures !Before(at, from)
  {
  }

  lemma InFront(cs: seq<Choice>, from: Place, last: nat, ps: seq<Place>, ds: seq<Delta>, d: Delta)
    requires |ps| == |ds| && from.0 <= last && Heard(cs, from, from) && DeltaAt(cs, from, d)
    requires forall i, j :: 0 <= i < j < |ps| ==> Before(ps[i], ps[j])
    requires forall i :: 0 <= i < |ps| ==> Before(from, ps[i])
    requires forall i :: 0 <= i < |ps| ==> Heard(cs, from, ps[i]) && ps[i].0 <= last && DeltaAt(cs, ps[i], ds[i])
    requires forall at: Place :: Heard(cs, from, at) && at.0 <= last ==> at == from || at in ps
    ensures Listing(cs, from, last, [from] + ps, [d] + ds)
  {
    var all, deltas := [from] + ps, [d] + ds;
    forall i | 0 <= i < |all|
      ensures Heard(cs, from, all[i]) && all[i].0 <= last && DeltaAt(cs, all[i], deltas[i])
    {
      assert i > 0 ==> all[i] == ps[i - 1] && deltas[i] == ds[i - 1];
    }
    hide Heard, DeltaAt, Before;
  }

  /** With a null element in choice c nothing of a later choice is heard. */
  lemma ThrewEndsHearing(cs: seq<Choice>, c: nat, last: nat, ps: seq<Place>, ds: seq<Delta>)
    requires c < |cs| <= last && ChoiceDeltas(cs[c]).threw && cs[c].Choice? && Listing(cs, (c, 0), c, ps, ds)
    ensures Listing(cs, (c, 0), last, ps, ds)
  {
    CallsThrewIff(IndexOr0(cs[c].index), cs[c].toolCalls.value);
    var j :| 0 <= j < |cs[c].toolCalls.value| && cs[c].toolCalls.value[j].NullCall?;
    var hole: Place := (c, j);
    assert IsNull(cs, hole) && !Before(hole, (c, 0));
    forall at: Place | Heard(cs, (c, 0), at)
      ensures at.0 <= c
    {
      assert !Before(hole, at);
    }
    hide Heard;
  }

  /** Without one, what is heard from choice c on is what is heard in it, and from the next one on. */
  lemma HeardBeyond(cs: seq<Choice>, c: nat, at: Place)
    requires c < |cs| && cs[c].Choice? && !ChoiceDeltas(cs[c]).threw
    ensures Heard(cs, (c, 0), at) <==> (at.0 <= c && Heard(cs, (c, 0), at)) || Heard(cs, (c + 1, 0), at)
  {
    if cs[c].toolCalls.Some? {
      CallsThrewIff(IndexOr0(cs[c].index), cs[c].toolCalls.value);
    }
    assert forall p: Place :: p.0 == c ==> !IsNull(cs, p);
    if Heard(cs, (c, 0), at) && at.0 > c {
      forall p: Place | !Before(p, (c + 1, 0)) && Before(p, at)
        ensures !IsNull(cs, p)
      {
        assert !Before(p, (c, 0));
      }
    }
    if Heard(cs, (c + 1, 0), at) {
      forall p: Place | !Before(p, (c, 0)) && Before(p, at)
        ensures !IsNull(cs, p)
      {
        if p.0 > c {
          assert !Before(p, (c + 1, 0));
        }
      }
    }
    hide IsNull, Speaks;
  }

  lemma NotSooner(cs: seq<Choice>, c: nat, at: Place)
    requires Heard(cs, (c, 0), at)
    ensures at.0 >= c && at.0 < |cs|
  {
  }

  lemma ListingsJoin(cs: seq<Choice>, c: nat, last: nat, ps: seq<Place>, ds: seq<Delta>, qs: seq<Place>, es: seq<Delta>)
    requires c < last && Listing(cs, (c, 0), c, ps, ds) && Listing(cs, (c + 1, 0), last, qs, es)
    requires forall at: Place :: Heard(cs, (c, 0), at) <==> (at.0 <= c && Heard(cs, (c, 0), at)) || Heard(cs, (c + 1, 0), at)
    ensures Listing(cs, (c, 0), last, ps + qs, ds + es)
  {
    forall j | 0 <= j < |qs|
      ensures qs[j].0 > c
    {
      NotSooner(cs, c + 1, qs[j]);
    }
    hide Heard, DeltaAt;
    var all, deltas := ps + qs, ds + es;
    forall i | 0 <= i < |all|
      ensures Heard(cs, (c, 0), all[i]) && all[i].0 <= last && DeltaAt(cs, all[i], deltas[i])
    {
      if i >= |ps| {
        assert all[i] == qs[i - |ps|] && deltas[i] == es[i - |ps|];
      }
    }
    forall at: Place | Heard(cs, (c, 0), at) && at.0 <= last
      ensures at in all
    {
      assert at.0 <= c ==> at in ps;
    }
    forall i, j | 0 <= i < j < |all|
      ensures Before(all[i], all[j])
    {
      if i >= |ps| {
        assert Before(qs[i - |ps|], qs[j - |ps|]);
      } else if j >= |ps| {
        assert all[i] == ps[i] && all[j] == qs[j - |ps|];
      }
    }
  }

  lemma NothingFrom(cs: seq<Choice>, c: nat, last: nat)
    requires c == |cs| || (c < |cs| && cs[c].NullChoice?)
    ensures Listing(cs, (c, 0), last, [], [])
  {
    forall at: Place
      ensures !Heard(cs, (c, 0), at)
    {
      if c < |cs| {
        assert IsNull(cs, (c, 0)) && !Before((c, 0), (c, 0));
      }
    }
    hide Heard;
  }

  /** A choice without tool calls says nothing. */
  lemma SilentChoice(cs: seq<Choice>, c: nat)
    requires c < |cs| && cs[c].Choice? && cs[c].toolCalls.None?
    ensures Listing(cs, (c, 0), c, [], [])
  {
    forall at: Place
      ensures !(Heard(cs, (c, 0), at) && at.0 <= c)
    {
    }
    hide Heard;
  }

  /**
   The deltas that are read from a chunk are exactly its argument texts, in the order of choices and
   calls, each under its two indices, up to the first null element.
   */
  lemma {:induction false} ChoicesListed(cs: seq<Choice>, c: nat) returns (ps: seq<Place>)
    requires c <= |cs|
    ensures Listing(cs, (c, 0), |cs|, ps, ChoicesDeltas(cs[c..]).deltas)
    decreases |cs| - c
  {
    hide CallDeltas, Listing, Heard;
    if c == |cs| || cs[c].NullChoice? {
      ps := [];
      NothingFrom(cs, c, |cs|);
    } else {
      assert cs[c..][1..] == cs[c + 1..];
      var ds, es := ChoiceDeltas(cs[c]).deltas, ChoicesDeltas(cs[c + 1..]).deltas;
      var here: seq<Place> := [];
      if cs[c].toolCalls.Some? {
        assert cs[c].toolCalls.value[0..] == cs[c].toolCalls.value;
        here := CallsListed(cs, c, 0);
      } else {
        SilentChoice(cs, c);
      }
      if ChoiceDeltas(cs[c]).threw {
        ps := here;
        ThrewEndsHearing(cs, c, |cs|, here, ds);
      } else {
        var rest := ChoicesListed(cs, c + 1);
        forall at: Place
          ensures Heard(cs, (c, 0), at) <==> (at.0 <= c && Heard(cs, (c, 0), at)) || Heard(cs, (c + 1, 0), at)
        {
          HeardBeyond(cs, c, at);
        }
        ListingsJoin(cs, c, |cs|, here, ds, rest, es);
        ps := here + rest;
      }
    }
  }

  /** What a line contributes: the deltas of its chunk, or nothing. */
  ghost predicate Contributes(w: Wire, raw: string, ds: seq<Delta>) {
    if exists p :: Carries(w, raw, p) && p.choices.List?
    then exists p, ps :: Carries(w, raw, p) && p.choices.List? && Listing(p.choices.items, (0, 0), |p.choices.items|, ps, ds)
    else ds == []
  }

  lemma LineContributes(w: Wire, raw: string)
    ensures Contributes(w, raw, LineDeltas(w, raw))
  {
    forall p
      ensures Carries(w, raw, p) <==> PayloadOf(w, raw) == Some(p)
    {
      CarriesIff(w, raw, p);
    }
    hide DataOf, DataLine, Carries, Listing;
    if PayloadOf(w, raw).Some? && PayloadOf(w, raw).value.choices.List? {
      var p := PayloadOf(w, raw).value;
      assert p.choices.items[0..] == p.choices.items;
      var ps := ChoicesListed(p.choices.items, 0);
      assert Carries(w, raw, p);
      hide ChoicesDeltas;
    }
  }

  // ---------- names and samples ----------

  /** The line carries a chunk that gives a value for a field. */
  ghost predicate Sends<T(!new)>(w: Wire, raw: string, field: Payload -> Option<T>, x: T) {
    exists p :: Carries(w, raw, p) && field(p) == Some(x)
  }

  ghost predicate Silent<T(!new)>(w: Wire, lines: seq<string>, from: nat, field: Payload -> Option<T>) {
    forall i, x :: from <= i < |lines| ==> !Sends(w, lines[i], field, x)
  }

  /** The value last sent on the lines, or none when none sends one. */
  ghost predicate LastSent<T(!new)>(w: Wire, lines: seq<string>, field: Payload -> Option<T>, m: Option<T>) {
    || (m.None? && Silent(w, lines, 0, field))
    || (m.Some? && exists i :: 0 <= i < |lines| && Sends(w, lines[i], field, m.value) && Silent(w, lines, i + 1, field))
  }

  const ID: Payload -> Option<string> := (p: Payload) => if p.Payload? then p.id else None
  const CREATED: Payload -> Option<int> := (p: Payload) => if p.Payload? then p.created else None
  const MODEL: Payload -> Option<string> := (p: Payload) => if p.Payload? then p.model else None

  /** The line carries a usage, in a chunk without null elements. */
  ghost predicate SendsUsage(w: Wire, raw: string) {
    exists p :: Carries(w, raw, p) && p.promptTokens.Some? && (p.choices.List? ==> Whole(p.choices.items))
  }

  /** The field as the wrapper reads it from one line. */
  function FieldOf<T>(w: Wire, raw: string, field: Payload -> Option<T>): Option<T> {
    if PayloadOf(w, raw).Some? then field(PayloadOf(w, raw).value) else None
  }

  lemma SendsIff<T(!new)>(w: Wire, raw: string, field: Payload -> Option<T>, x: T)
    ensures Sends(w, raw, field, x) <==> FieldOf(w, raw, field) == Some(x)
  {
    hide Carries, PayloadOf;
    forall p
      ensures Carries(w, raw, p) <==> PayloadOf(w, raw) == Some(p)
    {
      CarriesIff(w, raw, p);
    }
  }

  /** One line more. */
  lemma LastSentSnoc<T(!new)>(w: Wire, lines: seq<string>, raw: string, field: Payload -> Option<T>, m: Option<T>)
    requires LastSent(w, lines, field, m)
    ensures LastSent(w, lines + [raw], field, Merge(m, FieldOf(w, raw, field)))
  {
    hide Sends, FieldOf;
    var all, n := lines + [raw], |lines|;
    forall x
      ensures Sends(w, raw, field, x) <==> FieldOf(w, raw, field) == Some(x)
    {
      SendsIff(w, raw, field, x);
    }
    assert all[n] == raw && forall i :: 0 <= i < n ==> all[i] == lines[i];
    if FieldOf(w, raw, field).Some? {
      assert Sends(w, all[n], field, FieldOf(w, raw, field).value) && Silent(w, all, n + 1, field);
    } else if m.Some? {
      var i :| 0 <= i < n && Sends(w, lines[i], field, m.value) && Silent(w, lines, i + 1, field);
      assert Sends(w, all[i], field, m.value) && Silent(w, all, i + 1, field);
    }
  }

  lemma LineKeepsNames(w: Wire, l: Lines, raw: string)
    requires Orderly(l.tracker) && !l.finished && !l.holding
    ensures HandleLine(w, l, raw).meta
            == Meta(Merge(l.meta.id, FieldOf(w, raw, ID)), Merge(l.meta.created, FieldOf(w, raw, CREATED)), Merge(l.meta.model, FieldOf(w, raw, MODEL)))
  {
    hide DataOf, Orderly, RepairItems, RepairsOf, FeedAll, PayloadDeltas, Finishes;
  }

  function UsageOf(w: Wire, raw: string): bool {
    PayloadOf(w, raw).Some? && PayloadOf(w, raw).value.promptTokens.Some? && !PayloadDeltas(PayloadOf(w, raw).value).threw
  }

  lemma UsageIff(w: Wire, raw: string)
    ensures UsageOf(w, raw) <==> SendsUsage(w, raw)
  {
    forall p
      ensures Carries(w, raw, p) <==> PayloadOf(w, raw) == Some(p)
    {
      CarriesIff(w, raw, p);
    }
    if PayloadOf(w, raw).Some? && PayloadOf(w, raw).value.choices.List? {
      ThrewIff(PayloadOf(w, raw).value.choices.items);
    }
    hide Carries, DataOf, ChoicesDeltas, Whole;
  }

  lemma LineKeepsSamples(w: Wire, l: Lines, raw: string)
    requires Orderly(l.tracker) && !l.finished && !l.holding && l.samples == (if l.sampled && w.sampleUsage then 1 else 0)
    ensures var r := HandleLine(w, l, raw);
      && (r.sampled <==> l.sampled || SendsUsage(w, raw))
      && r.samples == if r.sampled && w.sampleUsage then 1 else 0
  {
    UsageIff(w, raw);
    hide SendsUsage, DataOf, Orderly, RepairItems, RepairsOf, FeedAll, PayloadDeltas, Finishes;
  }

  /** The names and samples of a state are those sent on the lines. */
  ghost predicate Books(w: Wire, lines: seq<string>, l: Lines) {
    && LastSent(w, lines, ID, l.meta.id) && LastSent(w, lines, CREATED, l.meta.created) && LastSent(w, lines, MODEL, l.meta.model)
    && (l.sampled <==> exists i :: 0 <= i < |lines| && SendsUsage(w, lines[i]))
    && l.samples == if l.sampled && w.sampleUsage then 1 else 0
  }

  lemma BooksSnoc(w: Wire, lines: seq<string>, l: Lines, raw: string)
    requires Orderly(l.tracker) && !l.finished && !l.holding && Books(w, lines, l)
    ensures Books(w, lines + [raw], HandleLine(w, l, raw))
  {
    LineKeepsNames(w, l, raw);
    LineKeepsSamples(w, l, raw);
    LastSentSnoc(w, lines, raw, ID, l.meta.id);
    LastSentSnoc(w, lines, raw, CREATED, l.meta.created);
    LastSentSnoc(w, lines, raw, MODEL, l.meta.model);
    hide HandleLine, Orderly, LastSent, SendsUsage, FieldOf;
    var all := lines + [raw];
    assert all[|lines|] == raw && forall i :: 0 <= i < |lines| ==> all[i] == lines[i];
  }

  lemma {:induction false} PlainBooks(w: Wire, lines: seq<string>)
    requires forall i :: 0 <= i < |lines| ==> KindOf(w, lines[i]).PlainLine?
    ensures Orderly(NO_LINES.tracker)
    ensures var r := HandleLines(w, NO_LINES, lines); !r.finished && !r.holding && Books(w, lines, r)
    decreases |lines|
  {
    NothingIsOrderly();
    hide KindOf, HandleLine, Orderly, Books;
    if lines == [] {
      NoBooks(w);
    } else {
      var rest, raw := lines[..|lines| - 1], lines[|lines| - 1];
      PlainBooks(w, rest);
      assert lines == rest + [raw];
      HandleLinesConcat(w, NO_LINES, rest, [raw]);
      OneLine(w, HandleLines(w, NO_LINES, rest), raw);
      BooksSnoc(w, rest, HandleLines(w, NO_LINES, rest), raw);
      PlainLinesPass(w, NO_LINES, lines);
      hide HandleLines;
    }
  }

  lemma NoBooks(w: Wire)
    ensures Books(w, [], NO_LINES)
  {
  }

  // ---------- a whole text ----------

  /** The first line that ends the stream, or the number of lines. */
  ghost predicate TailAt(w: Wire, lines: seq<string>, f: nat) {
    && f <= |lines| && (forall i :: 0 <= i < f ==> !EndsStream(w, lines[i]))
    && (f < |lines| ==> EndsStream(w, lines[f]))
  }

  lemma TailIff(w: Wire, lines: seq<string>, f: nat)
    ensures TailAt(w, lines, f) <==> f == FirstTail(w, lines)
  {
    forall i | 0 <= i < |lines|
      ensures KindOf(w, lines[i]).PlainLine? <==> !EndsStream(w, lines[i])
    {
      KindIff(w, lines[i]);
    }
    hide KindOf, EndsStream;
  }

  /** The lines a text was read up to: the first one that ends the stream, or all. */
  function UpTo(lines: seq<string>, f: nat): seq<string>
    requires f <= |lines|
  {
    if f < |lines| then lines[..f + 1] else lines
  }

  lemma FinalBooks(w: Wire, text: string)
    ensures var lines := AllLines(text);
      Books(w, UpTo(lines, FirstTail(w, lines)), Final(w, text))
  {
    hide KindOf, HandleLine, HandleLines, Orderly, Books, FirstTail, AllLines, RepairItems, RepairsOf, Terminated;
    var lines := AllLines(text);
    var f := FirstTail(w, lines);
    FinalByLines(w, text);
    NothingIsOrderly();
    if f == |lines| {
      PlainBooks(w, lines);
      FlushKeepsBooks(w, lines, HandleLines(w, NO_LINES, lines));
    } else {
      var before, at := SplitAtTail(w, lines);
      PlainBooks(w, lines[..f]);
      BooksSnoc(w, lines[..f], before, lines[f]);
      assert lines[..f] + [lines[f]] == lines[..f + 1];
      TailHolds(w, before, lines[f]);
      HeldLinesStay(w, at, lines[f + 1..]);
      HoldKeepsBooks(w, lines[..f + 1], at, lines[f + 1..]);
      FlushKeepsBooks(w, lines[..f + 1], at.(held := at.held + lines[f + 1..]));
    }
  }

  lemma TailHolds(w: Wire, l: Lines, raw: string)
    requires Orderly(l.tracker) && !l.finished && !l.holding && !KindOf(w, raw).PlainLine?
    ensures HandleLine(w, l, raw).holding
  {
    hide DataOf, Orderly, FeedAll, PayloadDeltas, RepairItems, RepairsOf;
  }

  lemma HoldKeepsBooks(w: Wire, lines: seq<string>, l: Lines, more: seq<string>)
    requires Books(w, lines, l)
    ensures Books(w, lines, l.(held := l.held + more))
  {
    hide LastSent, SendsUsage;
  }

  lemma FlushKeepsBooks(w: Wire, lines: seq<string>, l: Lines)
    requires Books(w, lines, l) && Orderly(l.tracker)
    ensures Books(w, lines, Flush(w, l))
  {
    hide LastSent, SendsUsage, Orderly;
  }

  // ---------- the repairs ----------

  /**
   The chunk that completes one text: its only content is the missing suffix, under the two indices of the
   text and with no finish reason, and it carries the names sent last, or makeshift ones when none was sent.
   */
  predicate Completes(p: Payload, key: Key, suffix: string, meta: Meta, now: nat) {
    && p.Payload?
    && p.choices == List([Choice(Some(key.0), Some([Call(Some(key.1), Some(suffix))]), false)])
    && p.promptTokens == None
    && p.id == Some(match meta.id case Some(x) => x case None => "harness-n27-repair-" + Decimal(now))
    && p.created == Some(match meta.created case Some(x) => x case None => now / 1000)
    && p.model == Some(match meta.model case Some(x) => x case None => "")
  }

  ghost predicate CompletesText(w: Wire, e: Entries, key: Key, meta: Meta, item: string) {
    key in e.args && exists suffix, p ::
      RepairSuffix(e.args[key]) == Some(suffix) && Completes(p, key, suffix, meta, w.now) && item == "data: " + w.encode(p) + "\n\n"
  }

  /** The texts that have a missing suffix. */
  function Lacks(e: Entries): Key -> bool { k => k in e.args && RepairSuffix(e.args[k]).Some? }

  /** One event of its own for every text that has to be completed, in the order of their first deltas. */
  ghost predicate CompletedBy(w: Wire, e: Entries, meta: Meta, items: seq<string>) {
    exists keys ::
      Sifted(e.order, Lacks(e), keys) && |keys| == |items| && forall i :: 0 <= i < |keys| ==> CompletesText(w, e, keys[i], meta, items[i])
  }

  lemma NoteCompletes(w: Wire, e: Entries, note: RepairNote, meta: Meta)
    requires note.key in e.args && RepairSuffix(e.args[note.key]) == Some(note.suffix)
    ensures CompletesText(w, e, note.key, meta, RepairItem(w, note, meta))
  {
    hide RepairSuffix;
    assert Completes(BuildRepairChunk(note, meta, w.now), note.key, note.suffix, meta, w.now);
  }

  function KeysOf(notes: seq<RepairNote>): (r: seq<Key>)
    ensures |r| == |notes| && forall i :: 0 <= i < |r| ==> r[i] == notes[i].key
  {
    seq(|notes|, i requires 0 <= i < |notes| => notes[i].key)
  }

  lemma {:induction false} RepairsSnoc(e: Entries, order: seq<Key>, k: Key)
    requires k in e.args && forall i :: 0 <= i < |order| ==> order[i] in e.args
    ensures RepairsFrom(e, order + [k]) == RepairsFrom(e, order) + RepairAt(e, k)
    decreases |order|
  {
    hide RepairAt;
    var all := order + [k];
    if order == [] {
      assert all[1..] == [];
      assert RepairsFrom(e, all) == RepairAt(e, k) + RepairsFrom(e, []);
      assert RepairAt(e, k) + [] == RepairAt(e, k) && [] + RepairAt(e, k) == RepairAt(e, k);
    } else {
      assert all[0] == order[0] && all[1..] == order[1..] + [k];
      RepairsSnoc(e, order[1..], k);
      assert RepairAt(e, order[0]) + (RepairsFrom(e, order[1..]) + RepairAt(e, k))
             == RepairAt(e, order[0]) + RepairsFrom(e, order[1..]) + RepairAt(e, k);
    }
  }

  /** The repairs are those of the texts that lack something, in order. */
  lemma {:induction false} NotesSifted(e: Entries, order: seq<Key>)
    requires forall i :: 0 <= i < |order| ==> order[i] in e.args
    ensures Sifted(order, Lacks(e), KeysOf(RepairsFrom(e, order)))
    ensures forall i :: 0 <= i < |RepairsFrom(e, order)| ==>
                          var note := RepairsFrom(e, order)[i];
                          note.key in e.args && RepairSuffix(e.args[note.key]) == Some(note.suffix)
    decreases |order|
  {
    hide Sifted, RepairSuffix;
    if order == [] {
      NothingSifted(Lacks(e));
      assert KeysOf([]) == [];
    } else {
      var rest, k := order[..|order| - 1], order[|order| - 1];
      assert order == rest + [k];
      NotesSifted(e, rest);
      RepairsSnoc(e, rest, k);
      SiftedSnoc(rest, k, Lacks(e), KeysOf(RepairsFrom(e, rest)));
      var notes := RepairsFrom(e, rest);
      assert KeysOf(notes + RepairAt(e, k)) == if Lacks(e)(k) then KeysOf(notes) + [k] else KeysOf(notes);
    }
  }

  lemma {:induction false} ItemAt(w: Wire, notes: seq<RepairNote>, meta: Meta, i: nat)
    requires i < |notes|
    ensures |RepairItems(w, notes, meta)| == |notes| && RepairItems(w, notes, meta)[i] == RepairItem(w, notes[i], meta)
    decreases notes
  {
    hide RepairItem;
    if i > 0 {
      ItemAt(w, notes[1..], meta, i - 1);
    } else if |notes| > 1 {
      ItemAt(w, notes[1..], meta, 0);
    } else {
      assert RepairItems(w, notes[1..], meta) == [];
    }
  }

  lemma RepairsComplete(w: Wire, e: Entries, meta: Meta)
    requires Orderly(e)
    ensures CompletedBy(w, e, meta, RepairItems(w, RepairsOf(e), meta))
  {
    hide Sifted, RepairSuffix, CompletesText, RepairItem, RepairsFrom;
    var notes := RepairsOf(e);
    NotesSifted(e, e.order);
    assert notes == [] ==> RepairItems(w, notes, meta) == [];
    if notes != [] {
      ItemAt(w, notes, meta, 0);
    }
    hide RepairItems;
    forall i: nat | i < |notes|
      ensures CompletesText(w, e, notes[i].key, meta, RepairItems(w, notes, meta)[i])
    {
      ItemAt(w, notes, meta, i);
      NoteCompletes(w, e, notes[i], meta);
    }
    assert |KeysOf(notes)| == |RepairItems(w, notes, meta)|;
  }

  /**
   What a whole stream comes to. It succeeded exactly when some line of its text is a finish chunk or
   [DONE]. Then it has delivered the lines before the first such line, the completions of the texts that
   the lines up to it put together, under the names they sent last, and from a finish chunk on all lines,
   from a [DONE] only itself. A usage is sampled exactly when one of those lines sends one.
   */
  lemma StreamMeaning(w: Wire, es: seq<Event>) returns (f: nat, meta: Meta, completions: seq<string>)
    requires Ran(w, es).Some? && Cancel !in es && Ran(w, es).value.status.Closed?
    ensures var s, lines := Ran(w, es).value, AllLines(Consumed(es));
      && TailAt(w, lines, f)
      && s.verdicts != [] && (forall i :: 0 <= i < |s.verdicts| ==> s.verdicts[i] == (f < |lines|))
      && var read := UpTo(lines, f);
      && LastSent(w, read, ID, meta.id) && LastSent(w, read, CREATED, meta.created) && LastSent(w, read, MODEL, meta.model)
      && s.lines.samples == (if w.sampleUsage && exists i :: 0 <= i < |read| && SendsUsage(w, read[i]) then 1 else 0)
      && CompletedBy(w, FeedAll(NO_ENTRIES, LinesDeltas(w, read)), meta, completions)
      && s.delivered
         == if f == |lines| then Terminated(lines)
            else Terminated(lines[..f]) + completions + Terminated(if DataLine(lines[f], "[DONE]") then [lines[f]] else lines[f..])
  {
    hide Ran, Final, AllLines, Consumed, EndQueues, HandleLines, KindOf, FirstTail, LinesDeltas, LastSent, SendsUsage,
      RepairItems, RepairsOf, Terminated, FeedAll, Orderly, CompleteLines, Residue, CompletedBy;
    var text := Consumed(es);
    var lines := AllLines(text);
    f := FirstTail(w, lines);
    meta := Final(w, text).meta;
    TailIff(w, lines, f);
    RunTracks(w, es);
    VerdictsAgree(w, es);
    DeliveryIsFunctionOfText(w, es, "");
    OutputShape(w, text);
    FinalBooks(w, text);
    if f < |lines| {
      KindIff(w, lines[f]);
    }
    AccumulatedUpTo(w, lines);
    RepairsComplete(w, Accumulated(w, lines), meta);
    completions := RepairItems(w, RepairsOf(Accumulated(w, lines)), meta);
  }

  lemma AccumulatedUpTo(w: Wire, lines: seq<string>)
    ensures Accumulated(w, lines) == FeedAll(NO_ENTRIES, LinesDeltas(w, UpTo(lines, FirstTail(w, lines))))
    ensures Orderly(Accumulated(w, lines))
  {
    hide FirstTail, LinesDeltas, FeedAll;
  }

  // ---------- the lines of a text ----------

  function Joined(lines: seq<string>): string { if lines == [] then "" else lines[0] + "\n" + Joined(lines[1..]) }

  predicate OneLiner(s: string) { forall i :: 0 <= i < |s| ==> s[i] != '\n' }

  lemma OneLineMore(line: string, lines: seq<string>)
    ensures Joined([line] + lines) == line + "\n" + Joined(lines)
  {
  }

  lemma {:induction false} LinesJoin(text: string)
    ensures text == Joined(CompleteLines(text)) + Residue(text) && OneLiner(Residue(text))
    ensures forall i :: 0 <= i < |CompleteLines(text)| ==> OneLiner(CompleteLines(text)[i])
    decreases |text|
  {
    hide Joined, NewlineAt;
    var k := NewlineAt(text);
    if k == -1 {
      NoLines(text);
    } else {
      var line, more := text[..k], text[k + 1..];
      LinesJoin(more);
      OneLineMore(line, CompleteLines(more));
      PutBack(text, k, Joined(CompleteLines(more)), Residue(more));
    }
  }

  lemma PutBack(text: string, k: nat, lines: string, rest: string)
    requires NewlineAt(text) == k && text[k + 1..] == lines + rest
    ensures text == text[..k] + "\n" + lines + rest && OneLiner(text[..k])
  {
    assert text == text[..k] + [text[k]] + text[k + 1..];
  }

  lemma NoLines(text: string)
    requires NewlineAt(text) == -1
    ensures Joined([]) + text == text && OneLiner(text)
  {
  }

  lemma CutFirst(line: string, more: string)
    requires OneLiner(line)
    ensures CompleteLines(line + "\n" + more) == [line] + CompleteLines(more)
    ensures Residue(line + "\n" + more) == Residue(more)
  {
    var text := line + "\n" + more;
    FirstNewline(line, more);
    assert text[..|line|] == line && text[|line| + 1..] == more;
    hide NewlineAt, OneLiner;
  }

  lemma CutNothing(rest: string)
    requires OneLiner(rest)
    ensures Joined([]) + rest == rest && CompleteLines(rest) == [] && Residue(rest) == rest
  {
    assert NewlineAt(rest) == -1;
  }

  lemma {:induction false} CutJoined(lines: seq<string>, rest: string)
    requires OneLiner(rest) && forall i :: 0 <= i < |lines| ==> OneLiner(lines[i])
    ensures CompleteLines(Joined(lines) + rest) == lines && Residue(Joined(lines) + rest) == rest
    decreases |lines|
  {
    hide Joined, OneLiner, CompleteLines, Residue;
    if lines == [] {
      CutNothing(rest);
    } else {
      var line, more := lines[0], Joined(lines[1..]) + rest;
      assert lines == [line] + lines[1..];
      OneLineMore(line, lines[1..]);
      assert Joined(lines) + rest == line + "\n" + more;
      CutJoined(lines[1..], rest);
      CutFirst(line, more);
    }
  }

  lemma FirstNewline(line: string, more: string)
    requires OneLiner(line)
    ensures NewlineAt(line + "\n" + more) == |line|
  {
    var text := line + "\n" + more;
    assert text[|line|] == '\n' && forall i :: 0 <= i < |line| ==> text[i] == line[i];
  }

  /** The lines and the rest are the only way to cut a text at its newlines. */
  lemma LinesExactly(text: string, lines: seq<string>, rest: string)
    ensures CompleteLines(text) == lines && Residue(text) == rest
            <==> text == Joined(lines) + rest && OneLiner(rest) && forall i :: 0 <= i < |lines| ==> OneLiner(lines[i])
  {
    hide CompleteLines, Residue, Joined, OneLiner;
    LinesJoin(text);
    if text == Joined(lines) + rest && OneLiner(rest) && forall i :: 0 <= i < |lines| ==> OneLiner(lines[i]) {
      CutJoined(lines, rest);
    }
  }
}
