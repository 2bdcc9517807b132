/**
 JSON texts in the sense of RFC 8259, as a deterministic pushdown recogniser.

 `Valid(s)` stands for "JSON.parse(s) does not throw". The recogniser follows section 2
 (structural characters, whitespace, values), section 6 (numbers) and section 7 (strings);
 module JsonGrammar proves that it accepts exactly the texts those sections derive.
 */
module JsonText {

  /** What an unfinished container on the stack is. The top of the stack is the last element. */
  datatype Frame = InObject | InArray

  datatype NumberState = Minus | Zero | Digits | Point | Fraction | Exponent | ExponentSign | ExponentDigits

  datatype Mode =
    | Value                              // a value must start here
    | ValueOrClose                       // just after '['
    | KeyOrClose                         // just after '{'
    | Key                                // after ',' inside an object
    | Colon                              // after a member name
    | After                              // a value has just ended
    | Str(isKey: bool)                   // inside a string
    | Esc(isKey: bool)                   // after a backslash
    | Hex(isKey: bool, left: nat)        // inside \uXXXX
    | Num(state: NumberState)
    | Word(rest: string)                 // inside true, false or null
    | Dead

  datatype Config = Config(mode: Mode, stack: seq<Frame>)

  const START := Config(Value, [])

  predicate IsWs(ch: char) { ch == ' ' || ch == '\t' || ch == '\n' || ch == '\r' }

  predicate IsDigit(ch: char) { '0' <= ch <= '9' }

  predicate IsHexDigit(ch: char) { IsDigit(ch) || 'a' <= ch <= 'f' || 'A' <= ch <= 'F' }

  predicate IsEscapable(ch: char) { ch in "\"\\/bfnrt" }

  function Closer(f: Frame): char { if f.InObject? then '}' else ']' }

  predicate IsCloser(ch: char) { ch == '}' || ch == ']' }

  function Push(stack: seq<Frame>, f: Frame): seq<Frame> { stack + [f] }

  /** A closing bracket after a complete value or an empty container. */
  function Close(stack: seq<Frame>, ch: char): Config {
    if |stack| > 0 && ch == Closer(stack[|stack| - 1])
    then Config(After, stack[..|stack| - 1])
    else Config(Dead, stack)
  }

  function StartValue(stack: seq<Frame>, ch: char): Config {
    if ch == '"' then Config(Str(false), stack)
    else if ch == '{' then Config(KeyOrClose, Push(stack, InObject))
    else if ch == '[' then Config(ValueOrClose, Push(stack, InArray))
    else if ch == 't' then Config(Word("rue"), stack)
    else if ch == 'f' then Config(Word("alse"), stack)
    else if ch == 'n' then Config(Word("ull"), stack)
    else if ch == '-' then Config(Num(Minus), stack)
    else if ch == '0' then Config(Num(Zero), stack)
    else if IsDigit(ch) then Config(Num(Digits), stack)
    else Config(Dead, stack)
  }

  function AfterValue(stack: seq<Frame>, ch: char): Config {
    if IsWs(ch) then Config(After, stack)
    else if ch == ',' && |stack| > 0 then
      Config(if stack[|stack| - 1].InObject? then Key else Value, stack)
    else if IsCloser(ch) then Close(stack, ch)
    else Config(Dead, stack)
  }

  /** The number states in which the digits read so far are a complete number. */
  predicate Complete(n: NumberState) {
    n.Zero? || n.Digits? || n.Fraction? || n.ExponentDigits?
  }

  function NumberNext(n: NumberState, ch: char): (r: (bool, NumberState)) {
    match n
    case Minus => if ch == '0' then (true, Zero) else (IsDigit(ch), Digits)
    case Zero => if ch == '.' then (true, Point) else (ch == 'e' || ch == 'E', Exponent)
    case Digits =>
      if IsDigit(ch) then (true, Digits) else if ch == '.' then (true, Point) else (ch == 'e' || ch == 'E', Exponent)
    case Point => (IsDigit(ch), Fraction)
    case Fraction => if IsDigit(ch) then (true, Fraction) else (ch == 'e' || ch == 'E', Exponent)
    case Exponent => if ch == '+' || ch == '-' then (true, ExponentSign) else (IsDigit(ch), ExponentDigits)
    case ExponentSign => (IsDigit(ch), ExponentDigits)
    case ExponentDigits => (IsDigit(ch), ExponentDigits)
  }

  function Step(c: Config, ch: char): Config {
    match c.mode
    case Value => if IsWs(ch) then c else StartValue(c.stack, ch)
    case ValueOrClose =>
      if IsWs(ch) then c else if ch == ']' then Close(c.stack, ch) else StartValue(c.stack, ch)
    case KeyOrClose =>
      if IsWs(ch) then c
      else if ch == '"' then Config(Str(true), c.stack)
      else if ch == '}' then Close(c.stack, ch)
      else Config(Dead, c.stack)
    case Key =>
      if IsWs(ch) then c else if ch == '"' then Config(Str(true), c.stack) else Config(Dead, c.stack)
    case Colon =>
      if IsWs(ch) then c else if ch == ':' then Config(Value, c.stack) else Config(Dead, c.stack)
    case After => AfterValue(c.stack, ch)
    case Str(k) =>
      if ch == '"' then Config(if k then Colon else After, c.stack)
      else if ch == '\\' then Config(Esc(k), c.stack)
      else if ch < ' ' then Config(Dead, c.stack)
      else c
    case Esc(k) =>
      if IsEscapable(ch) then Config(Str(k), c.stack)
      else if ch == 'u' then Config(Hex(k, 4), c.stack)
      else Config(Dead, c.stack)
    case Hex(k, left) =>
      if IsHexDigit(ch) then Config(if left <= 1 then Str(k) else Hex(k, left - 1), c.stack)
      else Config(Dead, c.stack)
    case Num(n) =>
      var (more, n') := NumberNext(n, ch);
      if more then Config(Num(n'), c.stack)
      else if Complete(n) then AfterValue(c.stack, ch)
      else Config(Dead, c.stack)
    case Word(rest) =>
      if |rest| > 0 && ch == rest[0]
      then Config(if |rest| == 1 then After else Word(rest[1..]), c.stack)
      else Config(Dead, c.stack)
    case Dead => c
  }

  function RunFrom(c: Config, s: string): Config
    decreases s
  {
    if s == [] then c else RunFrom(Step(c, s[0]), s[1..])
  }

  function Run(s: string): Config { RunFrom(START, s) }

  predicate Accepting(c: Config) {
    c.stack == [] && (c.mode.After? || (c.mode.Num? && Complete(c.mode.state)))
  }

  /** JSON.parse(s) succeeds. */
  predicate Valid(s: string) { Accepting(Run(s)) }

  lemma {:induction false} RunFromConcat(c: Config, s: string, t: string)
    ensures RunFrom(c, s + t) == RunFrom(RunFrom(c, s), t)
    decreases s
  {
    if s == [] {
      assert s + t == t;
    } else {
      assert (s + t)[0] == s[0] && (s + t)[1..] == s[1..] + t;
      RunFromConcat(Step(c, s[0]), s[1..], t);
    }
  }

  lemma RunSnoc(s: string, ch: char)
    ensures Run(s + [ch]) == Step(Run(s), ch)
  {
    RunFromConcat(START, s, [ch]);
    assert RunFrom(Run(s), [ch]) == RunFrom(Step(Run(s), ch), []);
  }

  /** A text that is refused stays refused whatever follows. */
  lemma {:induction false} DeadStaysDead(c: Config, s: string)
    requires c.mode.Dead?
    ensures RunFrom(c, s) == c
    decreases s
  {
    if s != [] {
      DeadStaysDead(c, s[1..]);
    }
  }
}
