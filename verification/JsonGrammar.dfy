/**
 The grammar of RFC 8259 as a descent over its rules, section by section, and the proof that the
 recogniser of JsonText accepts exactly the texts of the grammar. Every function takes away the
 longest text of its rule and returns what follows, or None when there is no such text.
 */
module JsonGrammar {
  import opened Options
  import opened JsonText

  // ---------- section 2: white space ----------

  function SkipWs(s: string): (r: string)
    ensures |r| <= |s| && (r == "" || !IsWs(r[0]))
  {
    if s != "" && IsWs(s[0]) then SkipWs(s[1..]) else s
  }

  // ---------- section 7: strings ----------

  predicate HexFour(s: string) {
    |s| >= 4 && IsHexDigit(s[0]) && IsHexDigit(s[1]) && IsHexDigit(s[2]) && IsHexDigit(s[3])
  }

  /** After the opening quote. */
  function SkipString(s: string): (r: Option<string>)
    ensures r.Some? ==> |r.value| < |s|
  {
    if s == "" || s[0] < ' ' then None
    else if s[0] == '"' then Some(s[1..])
    else if s[0] != '\\' then SkipString(s[1..])
    else if |s| >= 2 && IsEscapable(s[1]) then SkipString(s[2..])
    else if |s| >= 6 && s[1] == 'u' && HexFour(s[2..]) then SkipString(s[6..])
    else None
  }

  // ---------- section 6: numbers ----------

  function SkipDigits(s: string): (r: string)
    ensures |r| <= |s|
  {
    if s != "" && IsDigit(s[0]) then SkipDigits(s[1..]) else s
  }

  /** One digit at least. */
  function SkipSomeDigits(s: string): (r: Option<string>)
    ensures r.Some? ==> |r.value| < |s|
  {
    if s != "" && IsDigit(s[0]) then Some(SkipDigits(s[1..])) else None
  }

  function SkipInt(s: string): (r: Option<string>)
    ensures r.Some? ==> |r.value| < |s|
  {
    if s != "" && s[0] == '0' then Some(s[1..]) else SkipSomeDigits(s)
  }

  function SkipFraction(s: string): (r: Option<string>)
    ensures r.Some? ==> |r.value| <= |s|
  {
    if s != "" && s[0] == '.' then SkipSomeDigits(s[1..]) else Some(s)
  }

  function SkipExponent(s: string): (r: Option<string>)
    ensures r.Some? ==> |r.value| <= |s|
  {
    if s == "" || (s[0] != 'e' && s[0] != 'E') then Some(s)
    else if |s| >= 2 && (s[1] == '+' || s[1] == '-') then SkipSomeDigits(s[2..])
    else SkipSomeDigits(s[1..])
  }

  function SkipNumber(s: string): (r: Option<string>)
    ensures r.Some? ==> |r.value| < |s|
  {
    var i := SkipInt(if s != "" && s[0] == '-' then s[1..] else s);
    if i.None? then None
    else
      var f := SkipFraction(i.value);
      if f.None? then None else SkipExponent(f.value)
  }

  // ---------- sections 3 to 5: values, objects, arrays ----------

  function SkipWord(s: string, word: string): (r: Option<string>)
    ensures r.Some? ==> |r.value| + |word| == |s|
  {
    if word <= s then Some(s[|word|..]) else None
  }

  /** A value with no white space before it. */
  function SkipValue(s: string): (r: Option<string>)
    ensures r.Some? ==> |r.value| < |s|
    decreases |s|, 0
  {
    if s == "" then None
    else if s[0] == '"' then SkipString(s[1..])
    else if s[0] == '[' then
      var t := SkipWs(s[1..]);
      if t != "" && t[0] == ']' then Some(t[1..]) else SkipItems(t)
    else if s[0] == '{' then
      var t := SkipWs(s[1..]);
      if t != "" && t[0] == '}' then Some(t[1..]) else SkipMembers(t)
    else if s[0] == 't' then SkipWord(s, "true")
    else if s[0] == 'f' then SkipWord(s, "false")
    else if s[0] == 'n' then SkipWord(s, "null")
    else SkipNumber(s)
  }

  /** value *( value-separator value ) end-array */
  function SkipItems(s: string): (r: Option<string>)
    ensures r.Some? ==> |r.value| < |s|
    decreases |s|, 1
  {
    var v := SkipValue(s);
    if v.None? then None
    else
      var t := SkipWs(v.value);
      if t == "" then None
      else if t[0] == ']' then Some(t[1..])
      else if t[0] == ',' then SkipItems(SkipWs(t[1..]))
      else None
  }

  /** member *( value-separator member ) end-object, where a member is string name-separator value */
  function SkipMembers(s: string): (r: Option<string>)
    ensures r.Some? ==> |r.value| < |s|
    decreases |s|, 1
  {
    if s == "" || s[0] != '"' || SkipString(s[1..]).None? then None
    else
      var t := SkipWs(SkipString(s[1..]).value);
      if t == "" || t[0] != ':' then None
      else
        var v := SkipValue(SkipWs(t[1..]));
        if v.None? then None
        else
          var u := SkipWs(v.value);
          if u == "" then None
          else if u[0] == '}' then Some(u[1..])
          else if u[0] == ',' then SkipMembers(SkipWs(u[1..]))
          else None
  }

  /** JSON-text = ws value ws */
  predicate IsText(s: string) {
    var v := SkipValue(SkipWs(s));
    v.Some? && SkipWs(v.value) == ""
  }

  // ---------- the recogniser follows the grammar ----------

  predicate Ended(m: Mode) { m.After? || (m.Num? && Complete(m.state)) }

  /** A configuration that has not come to the end of a value begun on `stack`. */
  predicate Stuck(c: Config, stack: seq<Frame>) {
    c.mode.Dead? || |c.stack| > |stack| || (c.stack == stack && !Ended(c.mode))
  }

  /** A configuration as if a value begun on `stack` had just ended before the text `rest`. */
  predicate Returned(c: Config, stack: seq<Frame>, rest: string) {
    if rest == "" then c.stack == stack && Ended(c.mode) else c == RunFrom(Config(After, stack), rest)
  }

  predicate SkipsWs(m: Mode) { m.Value? || m.ValueOrClose? || m.KeyOrClose? || m.Key? || m.Colon? || m.After? }

  lemma {:induction false} WsIsSkipped(m: Mode, stack: seq<Frame>, s: string)
    requires SkipsWs(m)
    ensures RunFrom(Config(m, stack), s) == RunFrom(Config(m, stack), SkipWs(s))
  {
    if s != "" && IsWs(s[0]) {
      WsIsSkipped(m, stack, s[1..]);
    }
  }

  lemma Stepped(c: Config, s: string)
    requires s != ""
    ensures RunFrom(c, s) == RunFrom(Step(c, s[0]), s[1..])
  {
  }

  lemma {:induction false} StringRuns(k: bool, stack: seq<Frame>, s: string)
    ensures var f := RunFrom(Config(Str(k), stack), s);
      match SkipString(s)
      case Some(r) => f == RunFrom(Config(if k then Colon else After, stack), r)
      case None => f.mode.Dead? || (f.stack == stack && (f.mode.Str? || f.mode.Esc? || f.mode.Hex?))
    decreases |s|
  {
    if s == "" {
    } else if s[0] == '\\' {
      EscapeRuns(k, stack, s);
      if |s| >= 2 && IsEscapable(s[1]) {
        StringRuns(k, stack, s[2..]);
      } else if |s| >= 6 && s[1] == 'u' && HexFour(s[2..]) {
        StringRuns(k, stack, s[6..]);
      }
    } else if s[0] < ' ' {
      DeadStaysDead(Config(Dead, stack), s[1..]);
    } else if s[0] != '"' {
      StringRuns(k, stack, s[1..]);
    }
  }

  lemma EscapeRuns(k: bool, stack: seq<Frame>, s: string)
    requires s != "" && s[0] == '\\'
    ensures var f := RunFrom(Config(Str(k), stack), s);
      if |s| >= 2 && IsEscapable(s[1]) then f == RunFrom(Config(Str(k), stack), s[2..])
      else if |s| >= 6 && s[1] == 'u' && HexFour(s[2..]) then
        f == RunFrom(Config(Str(k), stack), s[6..])
      else f.mode.Dead? || (f.stack == stack && (f.mode.Esc? || f.mode.Hex?))
  {
    hide HexFour, IsHexDigit, IsEscapable, RunFrom;
    Stepped(Config(Str(k), stack), s);
    if |s| >= 2 {
      Stepped(Config(Esc(k), stack), s[1..]);
      assert s[1..][1..] == s[2..];
      if !IsEscapable(s[1]) && s[1] == 'u' {
        HexRuns(k, stack, s[2..]);
        HexFourLength(s[2..]);
        assert |s| >= 6 ==> s[2..][4..] == s[6..];
      } else if !IsEscapable(s[1]) {
        DeadStaysDead(Config(Dead, stack), s[2..]);
      }
    } else {
      assert s[1..] == "";
      NothingRead(Config(Esc(k), stack));
    }
  }

  lemma HexFourLength(s: string)
    ensures HexFour(s) ==> |s| >= 4
  {
  }

  /** The four hexadecimal digits of an escape. */
  lemma HexRuns(k: bool, stack: seq<Frame>, s: string)
    ensures var f := RunFrom(Config(Hex(k, 4), stack), s);
      if HexFour(s) then f == RunFrom(Config(Str(k), stack), s[4..])
      else f.mode.Dead? || (f.stack == stack && f.mode.Hex?)
  {
    hide IsHexDigit;
    HexStep(k, stack, 4, s);
    if s != "" && IsHexDigit(s[0]) {
      HexStep(k, stack, 3, s[1..]);
      if |s| >= 2 && IsHexDigit(s[1]) {
        assert s[1..][1..] == s[2..];
        HexStep(k, stack, 2, s[2..]);
        if |s| >= 3 && IsHexDigit(s[2]) {
          assert s[2..][1..] == s[3..];
          HexStep(k, stack, 1, s[3..]);
          assert |s| >= 4 ==> s[3..][1..] == s[4..];
        }
      }
    }
    hide RunFrom;
  }

  lemma HexStep(k: bool, stack: seq<Frame>, left: nat, s: string)
    requires left >= 1
    ensures var f := RunFrom(Config(Hex(k, left), stack), s);
      if s != "" && IsHexDigit(s[0]) then f == RunFrom(Config(if left == 1 then Str(k) else Hex(k, left - 1), stack), s[1..])
      else f.mode.Dead? || (f.stack == stack && f.mode.Hex?)
  {
    if s != "" {
      Stepped(Config(Hex(k, left), stack), s);
      if !IsHexDigit(s[0]) {
        DeadStaysDead(Config(Dead, stack), s[1..]);
      }
      hide RunFrom;
    }
  }

  lemma {:induction false} WordRuns(stack: seq<Frame>, word: string, s: string)
    requires word != ""
    ensures var f := RunFrom(Config(Word(word), stack), s);
      if word <= s then f == RunFrom(Config(After, stack), s[|word|..])
      else f.mode.Dead? || (f.stack == stack && f.mode.Word?)
    decreases |word|
  {
    if s != "" {
      Stepped(Config(Word(word), stack), s);
      if s[0] != word[0] {
        DeadStaysDead(Config(Dead, stack), s[1..]);
      } else if |word| > 1 {
        WordRuns(stack, word[1..], s[1..]);
        assert word <= s <==> word[1..] <= s[1..] by {
          assert word == [word[0]] + word[1..] && s == [s[0]] + s[1..];
        }
        assert word <= s ==> s[1..][|word| - 1..] == s[|word|..];
      }
    }
  }

  // ---------- numbers ----------

  /** In a complete number state, anything the state does not take ends the number. */
  lemma NumberEnds(n: NumberState, stack: seq<Frame>, s: string)
    requires Complete(n) && (s == "" || !NumberNext(n, s[0]).0)
    ensures Returned(RunFrom(Config(Num(n), stack), s), stack, s)
  {
    if s != "" {
      Stepped(Config(Num(n), stack), s);
      Stepped(Config(After, stack), s);
      hide RunFrom;
    }
  }

  /** In an incomplete number state, only what the state takes goes on. */
  lemma NumberFails(n: NumberState, stack: seq<Frame>, s: string)
    requires !Complete(n) && (s == "" || !NumberNext(n, s[0]).0)
    ensures Stuck(RunFrom(Config(Num(n), stack), s), stack)
  {
    if s != "" {
      Stepped(Config(Num(n), stack), s);
      DeadStaysDead(Config(Dead, stack), s[1..]);
      hide RunFrom;
    }
  }

  lemma {:induction false} ExponentDigitsRun(stack: seq<Frame>, s: string)
    ensures Returned(RunFrom(Config(Num(ExponentDigits), stack), s), stack, SkipDigits(s))
  {
    if s != "" && IsDigit(s[0]) {
      ExponentDigitsRun(stack, s[1..]);
    } else {
      NumberEnds(ExponentDigits, stack, s);
    }
  }

  /** What a run comes to, given what the grammar says is left. */
  predicate Agrees(c: Config, stack: seq<Frame>, r: Option<string>) {
    if r.Some? then Returned(c, stack, r.value) else Stuck(c, stack)
  }

  lemma ExponentRuns(n: NumberState, stack: seq<Frame>, s: string)
    requires n.Exponent? || n.ExponentSign?
    ensures n.ExponentSign? || s == "" || (s[0] != '+' && s[0] != '-') ==>
              Agrees(RunFrom(Config(Num(n), stack), s), stack, SkipSomeDigits(s))
  {
    if s != "" && IsDigit(s[0]) {
      Stepped(Config(Num(n), stack), s);
      ExponentDigitsRun(stack, s[1..]);
    } else if n.ExponentSign? || s == "" || (s[0] != '+' && s[0] != '-') {
      NumberFails(n, stack, s);
    }
  }

  /** After the digits of an integer or a fraction: an exponent or the end. */
  lemma ExponentPart(n: NumberState, stack: seq<Frame>, s: string)
    requires n.Zero? || n.Digits? || n.Fraction?
    requires s == "" || (s[0] != '.' && (!IsDigit(s[0]) || n.Zero?)) || (n.Fraction? && !IsDigit(s[0]))
    ensures Agrees(RunFrom(Config(Num(n), stack), s), stack, SkipExponent(s))
  {
    if s != "" && (s[0] == 'e' || s[0] == 'E') {
      Stepped(Config(Num(n), stack), s);
      if |s| >= 2 && (s[1] == '+' || s[1] == '-') {
        Stepped(Config(Num(Exponent), stack), s[1..]);
        assert s[1..][1..] == s[2..];
        ExponentRuns(ExponentSign, stack, s[2..]);
      } else {
        ExponentRuns(Exponent, stack, s[1..]);
      }
      hide RunFrom;
    } else {
      NumberEnds(n, stack, s);
    }
  }

  lemma {:induction false} FractionDigitsRun(stack: seq<Frame>, s: string)
    ensures Agrees(RunFrom(Config(Num(Fraction), stack), s), stack, SkipExponent(SkipDigits(s)))
  {
    if s != "" && IsDigit(s[0]) {
      FractionDigitsRun(stack, s[1..]);
    } else {
      ExponentPart(Fraction, stack, s);
    }
  }

  function Tail(s: string): Option<string> {
    var f := SkipFraction(s);
    if f.None? then None else SkipExponent(f.value)
  }

  /** After the integer part: a fraction, an exponent or the end. */
  lemma FractionPart(n: NumberState, stack: seq<Frame>, s: string)
    requires n.Zero? || n.Digits?
    requires n.Digits? ==> s == "" || !IsDigit(s[0])
    ensures Agrees(RunFrom(Config(Num(n), stack), s), stack, Tail(s))
  {
    if s != "" && s[0] == '.' {
      Stepped(Config(Num(n), stack), s);
      if |s| >= 2 && IsDigit(s[1]) {
        Stepped(Config(Num(Point), stack), s[1..]);
        FractionDigitsRun(stack, s[1..][1..]);
      } else {
        NumberFails(Point, stack, s[1..]);
      }
      hide RunFrom;
    } else {
      ExponentPart(n, stack, s);
    }
  }

  lemma {:induction false} IntDigitsRun(stack: seq<Frame>, s: string)
    ensures Agrees(RunFrom(Config(Num(Digits), stack), s), stack, Tail(SkipDigits(s)))
  {
    if s != "" && IsDigit(s[0]) {
      IntDigitsRun(stack, s[1..]);
    } else {
      FractionPart(Digits, stack, s);
    }
  }

  /** From `m`, the integer part and what may come behind it. */
  lemma IntRuns(m: Mode, stack: seq<Frame>, s: string)
    requires m.Value? || m == Num(Minus)
    requires m.Value? ==> s != "" && IsDigit(s[0])
    ensures var i := SkipInt(s);
      Agrees(RunFrom(Config(m, stack), s), stack, if i.None? then None else Tail(i.value))
  {
    hide Tail;
    if s != "" && IsDigit(s[0]) {
      Stepped(Config(m, stack), s);
      if s[0] == '0' {
        FractionPart(Zero, stack, s[1..]);
      } else {
        IntDigitsRun(stack, s[1..]);
      }
      hide RunFrom;
    } else {
      NumberFails(Minus, stack, s);
    }
  }

  lemma NumberRuns(stack: seq<Frame>, s: string)
    requires s != "" && !IsWs(s[0]) && s[0] != '"' && s[0] != '[' && s[0] != '{' && s[0] != 't' && s[0] != 'f' && s[0] != 'n'
    ensures Agrees(RunFrom(Config(Value, stack), s), stack, SkipNumber(s))
  {
    if s[0] == '-' {
      Stepped(Config(Value, stack), s);
      IntRuns(Num(Minus), stack, s[1..]);
    } else if IsDigit(s[0]) {
      IntRuns(Value, stack, s);
    } else {
      Stepped(Config(Value, stack), s);
      DeadStaysDead(Config(Dead, stack), s[1..]);
    }
    hide RunFrom;
  }

  // ---------- values ----------

  lemma StuckBelow(c: Config, stack: seq<Frame>, f: Frame)
    requires Stuck(c, stack + [f])
    ensures Stuck(c, stack)
  {
  }

  /** Inside a container, a value that ended the text leaves the container open. */
  lemma EndedInside(c: Config, stack: seq<Frame>, f: Frame)
    requires c.stack == stack + [f]
    ensures Stuck(c, stack)
  {
  }

  lemma {:induction false} ValueRuns(stack: seq<Frame>, s: string)
    requires s == "" || !IsWs(s[0])
    ensures Agrees(RunFrom(Config(Value, stack), s), stack, SkipValue(s))
    decreases |s|, 0
  {
    hide SkipNumber;
    if s != "" {
      var c := Config(Value, stack);
      if s[0] == '"' {
        Stepped(c, s);
        StringRuns(false, stack, s[1..]);
      } else if s[0] == '[' {
        ArrayRuns(stack, s);
      } else if s[0] == '{' {
        ObjectRuns(stack, s);
      } else if s[0] == 't' || s[0] == 'f' || s[0] == 'n' {
        LiteralRuns(stack, s);
      } else {
        NumberRuns(stack, s);
      }
    }
  }

  lemma LiteralRuns(stack: seq<Frame>, s: string)
    requires s != "" && (s[0] == 't' || s[0] == 'f' || s[0] == 'n')
    ensures Agrees(RunFrom(Config(Value, stack), s), stack, SkipValue(s))
  {
    Stepped(Config(Value, stack), s);
    hide RunFrom;
    if s[0] == 't' {
      WordTail("true", "rue", stack, s);
    } else if s[0] == 'f' {
      WordTail("false", "alse", stack, s);
    } else {
      WordTail("null", "ull", stack, s);
    }
  }

  lemma WordTail(word: string, rest: string, stack: seq<Frame>, s: string)
    requires s != "" && rest != "" && word == [s[0]] + rest
    ensures Agrees(RunFrom(Config(Word(rest), stack), s[1..]), stack, SkipWord(s, word))
  {
    hide RunFrom;
    WordRuns(stack, rest, s[1..]);
    assert s == [s[0]] + s[1..];
    assert word <= s <==> rest <= s[1..];
    if word <= s {
      assert s[1..][|rest|..] == s[|word|..];
      AfterClose(stack, s[|word|..]);
    }
  }

  lemma ArrayRuns(stack: seq<Frame>, s: string)
    requires s != "" && s[0] == '['
    ensures Agrees(RunFrom(Config(Value, stack), s), stack, SkipValue(s))
    decreases |s|, 0, 0
  {
    var inner := stack + [InArray];
    Stepped(Config(Value, stack), s);
    WsIsSkipped(ValueOrClose, inner, s[1..]);
    var t := SkipWs(s[1..]);
    if t == "" {
      EndedInside(RunFrom(Config(ValueOrClose, inner), t), stack, InArray);
    } else {
      Stepped(Config(ValueOrClose, inner), t);
      if t[0] == ']' {
        assert inner[..|inner| - 1] == stack;
      } else {
        Stepped(Config(Value, inner), t);
        ItemsRun(stack, t);
      }
    }
    hide RunFrom;
  }

  lemma {:induction false} ItemsRun(stack: seq<Frame>, s: string)
    requires s == "" || !IsWs(s[0])
    ensures Agrees(RunFrom(Config(Value, stack + [InArray]), s), stack, SkipItems(s))
    decreases |s|, 1
  {
    hide SkipValue, RunFrom;
    var inner := stack + [InArray];
    ValueRuns(inner, s);
    var v := SkipValue(s);
    if v.None? {
      StuckBelow(RunFrom(Config(Value, inner), s), stack, InArray);
    } else {
      WsIsSkipped(After, inner, v.value);
      var t := SkipWs(v.value);
      if t == "" {
        assert RunFrom(Config(After, inner), "") == Config(After, inner) by { NothingRead(Config(After, inner)); }
        EndedInside(RunFrom(Config(Value, inner), s), stack, InArray);
      } else {
        Stepped(Config(After, inner), t);
        assert inner[..|inner| - 1] == stack;
        if t[0] == ',' {
          WsIsSkipped(Value, inner, t[1..]);
          ItemsRun(stack, SkipWs(t[1..]));
        } else if t[0] != ']' {
          DeadStaysDead(Config(Dead, inner), t[1..]);
        } else {
          AfterClose(stack, t[1..]);
        }
      }
    }
  }

  lemma NothingRead(c: Config)
    ensures RunFrom(c, "") == c
  {
  }

  lemma AfterClose(stack: seq<Frame>, r: string)
    ensures Returned(RunFrom(Config(After, stack), r), stack, r)
  {
  }

  lemma ObjectRuns(stack: seq<Frame>, s: string)
    requires s != "" && s[0] == '{'
    ensures Agrees(RunFrom(Config(Value, stack), s), stack, SkipValue(s))
    decreases |s|, 0, 0
  {
    var inner := stack + [InObject];
    Stepped(Config(Value, stack), s);
    WsIsSkipped(KeyOrClose, inner, s[1..]);
    var t := SkipWs(s[1..]);
    if t == "" {
      EndedInside(RunFrom(Config(KeyOrClose, inner), t), stack, InObject);
    } else {
      Stepped(Config(KeyOrClose, inner), t);
      if t[0] == '}' {
        assert inner[..|inner| - 1] == stack;
      } else if t[0] == '"' {
        Stepped(Config(Key, inner), t);
        MembersRun(stack, t);
      } else {
        DeadStaysDead(Config(Dead, inner), t[1..]);
      }
    }
    hide RunFrom;
  }

  lemma {:induction false} MembersRun(stack: seq<Frame>, s: string)
    requires s == "" || !IsWs(s[0])
    ensures Agrees(RunFrom(Config(Key, stack + [InObject]), s), stack, SkipMembers(s))
    decreases |s|, 1
  {
    hide SkipString, SkipValue, RunFrom;
    var inner := stack + [InObject];
    if s == "" {
      NothingRead(Config(Key, inner));
    } else if s[0] != '"' {
      Stepped(Config(Key, inner), s);
      DeadStaysDead(Config(Dead, inner), s[1..]);
    } else {
      Stepped(Config(Key, inner), s);
      StringRuns(true, inner, s[1..]);
      if SkipString(s[1..]).Some? {
        var t := SkipWs(SkipString(s[1..]).value);
        WsIsSkipped(Colon, inner, SkipString(s[1..]).value);
        if t == "" {
          NothingRead(Config(Colon, inner));
        } else {
          Stepped(Config(Colon, inner), t);
          if t[0] != ':' {
            DeadStaysDead(Config(Dead, inner), t[1..]);
          } else {
            WsIsSkipped(Value, inner, t[1..]);
            MemberValueRuns(stack, SkipWs(t[1..]), s);
          }
        }
      }
    }
  }

  /** The value of a member, and what follows it. */
  function AfterMember(s: string): (r: Option<string>) {
    var v := SkipValue(s);
    if v.None? then None
    else
      var u := SkipWs(v.value);
      if u == "" then None
      else if u[0] == '}' then Some(u[1..])
      else if u[0] == ',' then SkipMembers(SkipWs(u[1..]))
      else None
  }

  lemma {:induction false} MemberValueRuns(stack: seq<Frame>, s: string, whole: string)
    requires (s == "" || !IsWs(s[0])) && |s| < |whole|
    ensures Agrees(RunFrom(Config(Value, stack + [InObject]), s), stack, AfterMember(s))
    decreases |whole|, 0, 1
  {
    hide SkipValue, RunFrom, SkipMembers;
    var inner := stack + [InObject];
    ValueRuns(inner, s);
    var v := SkipValue(s);
    if v.None? {
      StuckBelow(RunFrom(Config(Value, inner), s), stack, InObject);
    } else {
      WsIsSkipped(After, inner, v.value);
      var u := SkipWs(v.value);
      if u == "" {
        NothingRead(Config(After, inner));
        EndedInside(RunFrom(Config(Value, inner), s), stack, InObject);
      } else {
        Stepped(Config(After, inner), u);
        assert inner[..|inner| - 1] == stack;
        if u[0] == ',' {
          WsIsSkipped(Key, inner, u[1..]);
          MembersRun(stack, SkipWs(u[1..]));
        } else if u[0] != '}' {
          DeadStaysDead(Config(Dead, inner), u[1..]);
        } else {
          AfterClose(stack, u[1..]);
        }
      }
    }
  }

  /** The recogniser accepts exactly the JSON texts of RFC 8259. */
  lemma RecogniserIsGrammar(s: string)
    ensures Valid(s) <==> IsText(s)
  {
    hide SkipValue, RunFrom;
    var t := SkipWs(s);
    WsIsSkipped(Value, [], s);
    ValueRuns([], t);
    var v := SkipValue(t);
    if v.Some? {
      WsIsSkipped(After, [], v.value);
      var u := SkipWs(v.value);
      if u == "" {
        NothingRead(Config(After, []));
      } else {
        Stepped(Config(After, []), u);
        DeadStaysDead(Config(Dead, []), u[1..]);
      }
    }
  }
}
