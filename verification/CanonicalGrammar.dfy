/** The reader of CanonicalJson reads JSON texts only, and what stableStringify prints is one. */
module CanonicalGrammar {
  import opened Options
  import opened JsonText
  import opened JsonGrammar
  import CanonicalJson
  import CanonicalTheorems

  // ---------- strings ----------

  lemma {:induction false} ReadStringIsString(s: string)
    ensures CanonicalJson.ReadString(s).Some? ==> SkipString(s) == Some(CanonicalJson.ReadString(s).value.1)
    decreases |s|
  {
    hide CanonicalJson.HexChar, HexFour;
    if s != "" && s[0] >= ' ' && s[0] != '"' {
      if s[0] != '\\' {
        ReadStringIsString(s[1..]);
      } else if |s| >= 6 && s[1] == 'u' {
        ReadStringIsString(s[6..]);
        HexReads(s[2..6]);
        assert s[2..][..4] == s[2..6];
        HexFourOf(s[2..]);
      } else if |s| >= 2 {
        ReadStringIsString(s[2..]);
      }
    }
  }

  lemma HexReads(s: string)
    requires |s| == 4
    ensures CanonicalJson.HexChar(s).Some? ==> HexFour(s)
  {
  }

  lemma HexFourOf(s: string)
    requires |s| >= 4
    ensures HexFour(s[..4]) <==> HexFour(s)
  {
  }

  // ---------- numbers ----------

  lemma {:induction false} DigitsExtend(a: string, rest: string)
    requires CanonicalTheorems.Stops(rest)
    ensures SkipDigits(a + rest) == SkipDigits(a) + rest
  {
    if a == "" {
      assert a + rest == rest && "" + rest == rest;
    } else if IsDigit(a[0]) {
      assert (a + rest)[1..] == a[1..] + rest;
      DigitsExtend(a[1..], rest);
    }
  }

  function Extended(r: Option<string>, rest: string): Option<string> { if r.None? then None else Some(r.value + rest) }

  lemma SomeDigitsExtend(a: string, rest: string)
    requires CanonicalTheorems.Stops(rest)
    ensures SkipSomeDigits(a + rest) == Extended(SkipSomeDigits(a), rest)
  {
    if a == "" {
      assert a + rest == rest;
    } else {
      assert (a + rest)[1..] == a[1..] + rest;
      DigitsExtend(a[1..], rest);
    }
  }

  lemma IntExtends(a: string, rest: string)
    requires CanonicalTheorems.Stops(rest)
    ensures SkipInt(a + rest) == Extended(SkipInt(a), rest)
  {
    SomeDigitsExtend(a, rest);
    if a == "" {
      assert a + rest == rest;
    } else {
      assert (a + rest)[1..] == a[1..] + rest;
    }
  }

  lemma FractionExtends(a: string, rest: string)
    requires CanonicalTheorems.Stops(rest)
    ensures SkipFraction(a + rest) == Extended(SkipFraction(a), rest)
  {
    if a == "" {
      assert a + rest == rest;
    } else {
      assert (a + rest)[1..] == a[1..] + rest;
      SomeDigitsExtend(a[1..], rest);
    }
  }

  lemma ExponentExtends(a: string, rest: string)
    requires CanonicalTheorems.Stops(rest)
    ensures SkipExponent(a + rest) == Extended(SkipExponent(a), rest)
  {
    hide SkipSomeDigits;
    if a == "" {
      assert a + rest == rest;
    } else {
      assert (a + rest)[1..] == a[1..] + rest;
      SomeDigitsExtend(a[1..], rest);
      if |a| >= 2 {
        assert (a + rest)[2..] == a[2..] + rest;
        SomeDigitsExtend(a[2..], rest);
      } else if rest != "" {
        assert (a + rest)[1] == rest[0];
      }
    }
  }

  lemma NumberExtends(a: string, rest: string)
    requires CanonicalTheorems.Stops(rest) && a != ""
    ensures SkipNumber(a + rest) == Extended(SkipNumber(a), rest)
  {
    hide SkipInt, SkipFraction, SkipExponent;
    assert (a + rest)[1..] == a[1..] + rest;
    var b := if a[0] == '-' then a[1..] else a;
    IntExtends(b, rest);
    if SkipInt(b).Some? {
      FractionExtends(SkipInt(b).value, rest);
      if SkipFraction(SkipInt(b).value).Some? {
        ExponentExtends(SkipFraction(SkipInt(b).value).value, rest);
      }
    }
  }

  /** What is left is the end of the text. */
  predicate EndOf(r: string, s: string) { |r| <= |s| && s[|s| - |r|..] == r }

  lemma EndOfEnd(a: string, b: string, c: string)
    requires EndOf(a, b) && EndOf(b, c)
    ensures EndOf(a, c)
  {
  }

  lemma {:induction false} DigitsEnd(s: string)
    ensures EndOf(SkipDigits(s), s)
  {
    if s != "" && IsDigit(s[0]) {
      DigitsEnd(s[1..]);
      EndOfEnd(SkipDigits(s), s[1..], s);
    }
  }

  lemma SomeDigitsEnd(s: string)
    ensures SkipSomeDigits(s).Some? ==> EndOf(SkipSomeDigits(s).value, s)
  {
    if s != "" {
      DigitsEnd(s[1..]);
      EndOfEnd(SkipDigits(s[1..]), s[1..], s);
    }
  }

  lemma FractionEnds(s: string)
    ensures SkipFraction(s).Some? ==> EndOf(SkipFraction(s).value, s)
  {
    hide SkipSomeDigits;
    if s != "" {
      SomeDigitsEnd(s[1..]);
    }
  }

  lemma ExponentEnds(s: string)
    ensures SkipExponent(s).Some? ==> EndOf(SkipExponent(s).value, s)
  {
    hide SkipSomeDigits;
    if s != "" {
      SomeDigitsEnd(s[1..]);
    }
    if |s| >= 2 {
      SomeDigitsEnd(s[2..]);
    }
  }

  lemma NumberEnd(s: string)
    ensures SkipNumber(s).Some? ==> EndOf(SkipNumber(s).value, s)
  {
    hide SkipSomeDigits, SkipFraction, SkipExponent;
    if SkipNumber(s).Some? {
      var b := if s != "" && s[0] == '-' then s[1..] else s;
      SomeDigitsEnd(b);
      var i := SkipInt(b).value;
      assert EndOf(i, b) && EndOf(b, s);
      hide EndOf;
      FractionEnds(i);
      var f := SkipFraction(i).value;
      ExponentEnds(f);
      var e := SkipExponent(f).value;
      EndOfEnd(e, f, i);
      EndOfEnd(e, i, b);
      EndOfEnd(e, b, s);
    }
  }

  lemma NumberIsWhole(text: string)
    requires CanonicalJson.NumberText(text)
    ensures SkipNumber(text) == Some("")
  {
    hide SkipNumber;
    RecogniserIsGrammar(text);
    assert CanonicalJson.NumberChar(text[0]);
    assert SkipWs(text) == text;
    assert SkipValue(text) == SkipNumber(text);
    NumberEnd(text);
    var r := SkipNumber(text).value;
    assert r == "";
  }

  lemma ReadNumberIsNumber(s: string)
    requires CanonicalJson.NumberText(s[..CanonicalJson.NumberLength(s)])
    ensures SkipNumber(s) == Some(s[CanonicalJson.NumberLength(s)..])
  {
    var n := CanonicalJson.NumberLength(s);
    var text, rest := s[..n], s[n..];
    assert s == text + rest;
    NumberIsWhole(text);
    NumberExtends(text, rest);
    assert "" + rest == rest;
    hide CanonicalJson.NumberText, SkipNumber;
  }

  // ---------- values ----------

  lemma NoWs(s: string)
    requires s == "" || !IsWs(s[0])
    ensures SkipWs(s) == s
  {
  }

  lemma ValueBegins(s: string)
    requires SkipValue(s).Some?
    ensures s != "" && !IsWs(s[0]) && s[0] != ']' && s[0] != '}' && s[0] != ','
  {
  }

  lemma {:induction false} ReadValueIsValue(s: string)
    ensures CanonicalJson.ReadValue(s).Some? ==> SkipValue(s) == Some(CanonicalJson.ReadValue(s).value.1)
    decreases |s|, 0
  {
    hide CanonicalJson.NumberText, SkipNumber, SkipString, CanonicalJson.ReadString, CanonicalJson.ReadItems, CanonicalJson.ReadMembers, SkipItems, SkipMembers;
    if CanonicalJson.ReadValue(s).Some? {
      if s[0] == '"' {
        ReadStringIsString(s[1..]);
      } else if s[0] == '[' {
        NextBegins(s);
        if !(|s| >= 2 && s[1] == ']') {
          ReadItemsIsItems(s[1..], []);
        }
      } else if s[0] == '{' {
        NextBegins(s);
        if !(|s| >= 2 && s[1] == '}') {
          ReadMembersIsMembers(s[1..], []);
        }
      } else if "null" <= s || "true" <= s || "false" <= s {
        assert "null"[0] == 'n' && "true"[0] == 't' && "false"[0] == 'f';
      } else {
        ReadNumberIsNumber(s);
        NumberBegins(s);
      }
    }
  }

  /** The text after an opening bracket, when something starts there that the reader takes. */
  lemma NextBegins(s: string)
    requires |s| >= 1
    ensures |s| >= 2 ==> s[1..][0] == s[1] && s[1..][1..] == s[2..]
    ensures |s| >= 2 && !IsWs(s[1]) ==> SkipWs(s[1..]) == s[1..]
  {
  }

  lemma NumberBegins(s: string)
    requires SkipNumber(s).Some?
    ensures s != "" && (s[0] == '-' || IsDigit(s[0]))
  {
  }

  lemma {:induction false} ReadItemsIsItems(s: string, before: seq<CanonicalJson.Json>)
    ensures CanonicalJson.ReadItems(s, before).Some? ==>
              && SkipItems(s) == Some(CanonicalJson.ReadItems(s, before).value.1)
              && SkipWs(s) == s && s != "" && s[0] != ']'
    decreases |s|, 1
  {
    hide CanonicalJson.ReadValue, SkipValue;
    if CanonicalJson.ReadItems(s, before).Some? {
      ReadValueIsValue(s);
      ValueBegins(s);
      var item := CanonicalJson.ReadValue(s).value;
      NoWs(item.1);
      NoWs(s);
      if item.1[0] == ',' {
        ReadItemsIsItems(item.1[1..], before + [item.0]);
      }
    }
  }

  lemma {:induction false} ReadMembersIsMembers(s: string, before: seq<(string, CanonicalJson.Json)>)
    ensures CanonicalJson.ReadMembers(s, before).Some? ==>
              && SkipMembers(s) == Some(CanonicalJson.ReadMembers(s, before).value.1)
              && SkipWs(s) == s && s != "" && s[0] == '"'
    decreases |s|, 1
  {
    hide CanonicalJson.ReadValue, SkipValue, CanonicalJson.ReadString, SkipString, CanonicalJson.Put;
    if CanonicalJson.ReadMembers(s, before).Some? {
      ReadStringIsString(s[1..]);
      var key := CanonicalJson.ReadString(s[1..]).value;
      NoWs(s);
      NoWs(key.1);
      var rest := key.1[1..];
      ReadValueIsValue(rest);
      ValueBegins(rest);
      NoWs(rest);
      var v := CanonicalJson.ReadValue(rest).value;
      NoWs(v.1);
      if v.1[0] == ',' {
        ReadMembersIsMembers(v.1[1..], CanonicalJson.Put(before, key.0, v.0));
      }
    }
  }

  /** Whatever the reader reads is a JSON text of RFC 8259. */
  lemma ReaderIsSound(s: string)
    requires CanonicalJson.Read(s).Some?
    ensures Valid(s)
  {
    hide CanonicalJson.ReadValue, SkipValue;
    ReadValueIsValue(s);
    ValueBegins(s);
    NoWs(s);
    NoWs("");
    RecogniserIsGrammar(s);
    hide Valid;
  }

  /** What stableStringify prints is a JSON text of RFC 8259. */
  lemma PrintedIsValid(v: CanonicalJson.Json)
    requires CanonicalJson.WellFormed(v)
    ensures Valid(CanonicalJson.StableStringify(v))
  {
    hide CanonicalJson.StableStringify, CanonicalJson.Read, CanonicalJson.Normal, Valid, CanonicalJson.WellFormed;
    CanonicalTheorems.StringifyReadsBack(v);
    ReaderIsSound(CanonicalJson.StableStringify(v));
  }
}
