/** One step of the JSON parser (src/json/json.c) as a function of its state and a byte. */
module JsonMachine {
  import opened JsonTables

  datatype Kind =
    | NONE | ARRAY_BEGIN | OBJECT_BEGIN | ARRAY_END | OBJECT_END | INT | FLOAT | STRING | KEY | TRUE | FALSE | NULL

  /** What the callback is given. */
  datatype Event = Event(kind: Kind, data: seq<Byte>)

  datatype Mode = MODE_ARRAY | MODE_OBJECT

  datatype Config = Config(maxNesting: nat, maxData: nat, allowC: bool, allowYaml: bool)

  datatype Error =
    | BAD_CHAR | POP_EMPTY | POP_UNEXPECTED_MODE | NESTING_LIMIT | DATA_LIMIT | COMMENT_NOT_ALLOWED | UNEXPECTED_CHAR
    | MISSING_LOW_SURROGATE | UNEXPECTED_LOW_SURROGATE | COMMA_OUT_OF_STRUCTURE | UTF8

  /** The parser: `left` counts the UTF-8 continuation bytes still expected, `multi` holds a
      pending high surrogate, `events` what has been passed to the callback so far. */
  datatype Parser = Parser(
    state: State, saved: State, expectingKey: bool, left: nat, multi: nat, kind: Kind,
    stack: seq<Mode>, buf: seq<Byte>, events: seq<Event>)

  datatype Outcome = Run(p: Parser) | Stop(p: Parser, error: Error)

  const INIT := Parser(GO, GO, false, 0, 0, NONE, [], [], [])

  /** buffer_push: one slot stays free for a terminator, so a limit leaves room for one byte less. */
  function Push(cfg: Config, p: Parser, ch: Byte): Outcome {
    if cfg.maxData > 0 && |p.buf| + 1 >= cfg.maxData then Stop(p, DATA_LIMIT) else Run(p.(buf := p.buf + [ch]))
  }

  function Emit(p: Parser, kind: Kind): Parser {
    p.(events := p.events + [Event(kind, [])])
  }

  function EmitBuffer(p: Parser, kind: Kind): Parser {
    p.(events := p.events + [Event(kind, p.buf)])
  }

  predicate HasValue(kind: Kind) {
    kind == KEY || kind == STRING || kind == FLOAT || kind == INT || kind == NULL || kind == TRUE || kind == FALSE
  }

  /** do_buffer: a value that was recognised earlier is emitted now. */
  function Flush(p: Parser): Parser {
    (if HasValue(p.kind) then EmitBuffer(p, p.kind) else p).(buf := [])
  }

  function PushMode(cfg: Config, p: Parser, mode: Mode): Outcome {
    if cfg.maxNesting > 0 && |p.stack| >= cfg.maxNesting then Stop(p, NESTING_LIMIT)
        else Run(p.(stack := p.stack + [mode]))
  }

  function PopMode(p: Parser, mode: Mode): Outcome {
    if p.stack == [] then Stop(p, POP_EMPTY)
    else
      var q := p.(stack := p.stack[..|p.stack| - 1]);
      if p.stack[|p.stack| - 1] != mode then Stop(q, POP_UNEXPECTED_MODE) else Run(q)
  }

  predicate IsHighSurrogate(u: nat) { 0xd800 <= u < 0xdc00 }

  predicate IsLowSurrogate(u: nat) { 0xdc00 <= u < 0xe000 }

  /** The value of the last four bytes of the buffer as hexadecimal digits. */
  function LastHex(buf: seq<Byte>): (u: nat)
    requires |buf| >= 4
    ensures u < 0x10000
  {
    var n := |buf|;
    HexValue(buf[n - 4]) * 4096 + HexValue(buf[n - 3]) * 256 + HexValue(buf[n - 2]) * 16 + HexValue(buf[n - 1])
  }

  /** decode_unicode_char after the digits have been removed, with shifts and masks written as
      divisions and remainders. */
  function Encode(q: Parser, uval: nat): Outcome
    requires uval < 0x10000 && q.multi < 0x10000
  {
    if q.multi == 0 && uval < 0x80 then Run(q.(buf := q.buf + [uval]))
    else if q.multi != 0 then
      if !IsLowSurrogate(uval) then Stop(q, MISSING_LOW_SURROGATE)
      else
        var u := 0x10000 + (q.multi % 0x400) * 0x400 + uval % 0x400;
        Run(q.(multi := 0, buf := q.buf + [0xf0 + u / 0x40000, 0x80 + (u / 0x1000) % 0x40, 0x80 + (u / 0x40) % 0x40,
            0x80 + u % 0x40]))
    else if IsLowSurrogate(uval) then Stop(q, UNEXPECTED_LOW_SURROGATE)
    else if IsHighSurrogate(uval) then Run(q.(multi := uval))
    else if uval < 0x800 then Run(q.(buf := q.buf + [0xc0 + uval / 0x40, 0x80 + uval % 0x40]))
    else Run(q.(buf := q.buf + [0xe0 + uval / 0x1000, 0x80 + (uval / 0x40) % 0x40, 0x80 + uval % 0x40]))
  }

  /** decode_unicode_char. */
  function DecodeUnicode(p: Parser): Outcome
    requires |p.buf| >= 4 && p.multi < 0x10000
  {
    Encode(p.(buf := p.buf[..|p.buf| - 4]), LastHex(p.buf))
  }

  /** do_action: the optional flush, the action itself, the next state, the new pending kind. */
  function Act(cfg: Config, p: Parser, a: Action): Outcome
    requires a == UC ==> |p.buf| >= 4 && p.multi < 0x10000
  {
    if a == KS then Run(p.(state := V_, kind := NONE))
    else if a == SP then
      (var q := Flush(p);
      if q.stack == [] then Stop(q, COMMA_OUT_OF_STRUCTURE)
      else if q.stack[|q.stack| - 1] == MODE_OBJECT then Run(q.(expectingKey := true, state := K_, kind := NONE))
      else Run(q.(state := V_, kind := NONE)))
    else if a == AB then
      (match PushMode(cfg, Emit(p, ARRAY_BEGIN), MODE_ARRAY)
       case Stop(q, e) => Stop(q, e)
       case Run(q) => Run(q.(state := A_, kind := NONE)))
    else if a == AE then
      (match PopMode(Flush(p), MODE_ARRAY)
       case Stop(q, e) => Stop(q, e)
       case Run(q) => Run(Emit(q, ARRAY_END).(state := OK, kind := NONE)))
    else if a == OB then
      (match PushMode(cfg, Emit(p, OBJECT_BEGIN), MODE_OBJECT)
       case Stop(q, e) => Stop(q, e)
       case Run(q) => Run(q.(expectingKey := true, state := O_, kind := NONE)))
    else if a == OE then
      (match PopMode(Flush(p), MODE_OBJECT)
       case Stop(q, e) => Stop(q, e)
       case Run(q) => Run(Emit(q, OBJECT_END).(expectingKey := false, state := OK, kind := NONE)))
    else if a == CB then
      (var q := Flush(p);
      if !cfg.allowC then Stop(q, COMMENT_NOT_ALLOWED) else Run(q.(saved := q.state, state := C1, kind := NONE)))
    else if a == YB then
      (var q := Flush(p);
      if !cfg.allowYaml then Stop(q, COMMENT_NOT_ALLOWED) else Run(q.(saved := q.state, state := Y1, kind := NONE)))
    else if a == CE then Run(p.(state := if IsPosition(p.saved) then p.saved else OK, kind := NONE))
    else if a == FA then Run(p.(state := OK, kind := FALSE))
    else if a == TR then Run(p.(state := OK, kind := TRUE))
    else if a == NU then Run(p.(state := OK, kind := NULL))
    else if a == DE then Run(p.(state := X1, kind := FLOAT))
    else if a == DF then Run(p.(state := R1, kind := FLOAT))
    else if a == SE then
      (var q := EmitBuffer(p, if p.expectingKey then KEY else STRING);
      Run(q.(buf := [], state := if p.expectingKey then CO else OK, expectingKey := false, kind := NONE)))
    else if a == MX then Run(p.(state := M0, kind := INT))
    else if a == ZX then Run(p.(state := Z0, kind := INT))
    else if a == IX then Run(p.(state := I0, kind := INT))
    else
      (match DecodeUnicode(p)
       case Stop(q, e) => Stop(q, e)
       case Run(q) => Run(q.(state := if q.multi != 0 then D1 else S_, kind := NONE)))
  }

  /** In the middle of an escape the digits read so far end the buffer. */
  ghost predicate EscapeReady(p: Parser) {
    && p.multi < 0x10000
    && |p.buf| >= Digits(p.state)
  }

  /** The class of a byte, and the parser with its count of continuation bytes updated. */
  function Classify(p: Parser, ch: Byte): (Parser, Class, bool) {
    if p.left > 0 then
      if !IsContinuation(ch) then (p, C_OTHER, false) else (p.(left := p.left - 1), C_OTHER, true)
    else if Utf8Header(ch) < 0 then (p.(left := 0xff), C_OTHER, false)
    else if Utf8Header(ch) > 0 then (p.(left := Utf8Header(ch)), C_OTHER, true)
    else (p, CharacterClass(ch), true)
  }

  function Buffer(cfg: Config, p: Parser, c: Class, ch: Byte): Outcome {
    match BufferPolicy(p.state, c)
    case Ignore => Run(p)
    case Append => Push(cfg, p, ch)
    case Escape => Push(cfg, p, Unescape(ch))
  }

  /** The transition for a byte `ch` of class `c`. */
  function Move(cfg: Config, q: Parser, c: Class, ch: Byte): Outcome
    requires EscapeReady(q) && c != C_ERROR
  {
    match Transition(q.state, c)
    case Reject => Stop(q, UNEXPECTED_CHAR)
    case Goto(s) =>
      (match Buffer(cfg, q, c, ch)
       case Stop(r, e) => Stop(r, e)
       case Run(r) => Run(r.(state := s)))
    case Do(a) =>
      (match Buffer(cfg, q, c, ch)
       case Stop(r, e) => Stop(r, e)
       case Run(r) => DigitsReady(cfg, q, c, ch); Act(cfg, r, a))
  }

  /** The body of the loop of json_parser_string. */
  function Step(cfg: Config, p: Parser, ch: Byte): Outcome
    requires EscapeReady(p)
  {
    var (q, c, valid) := Classify(p, ch);
    if !valid then Stop(q, UTF8)
    else if c == C_ERROR then Stop(q, BAD_CHAR)
    else Move(cfg, q, c, ch)
  }

  lemma DigitsReady(cfg: Config, q: Parser, c: Class, ch: Byte)
    requires EscapeReady(q) && c != C_ERROR && Buffer(cfg, q, c, ch).Run?
    ensures Transition(q.state, c) == Do(UC) ==>
            |Buffer(cfg, q, c, ch).p.buf| >= 4
            && Buffer(cfg, q, c, ch).p.multi < 0x10000
  {
    hide Transition, IsHex;
    DecodesAfterFour(q.state, c);
  }

  lemma DecodesAfterFour(s: State, c: Class)
    requires c != C_ERROR
    ensures Transition(s, c) == Do(UC) ==> s == U4 && IsHex(c)
  {
    hide PositionRow, StringRow, NumberRow, LiteralRow, CommentRow, IsHex;
  }

  lemma DigitStates(s: State, c: Class)
    requires c != C_ERROR && Transition(s, c).Goto? && Digits(Transition(s, c).state) > 0
    ensures s == U1 || s == U2 || s == U3
    ensures Digits(Transition(s, c).state) <= Digits(s) + (if IsHex(c) then 1 else 0)
  {
    hide PositionRow, StringRow, NumberRow, LiteralRow, CommentRow, IsHex;
  }

  lemma StepReady(cfg: Config, p: Parser, ch: Byte)
    requires EscapeReady(p)
    ensures Step(cfg, p, ch).Run? ==> EscapeReady(Step(cfg, p, ch).p)
  {
    hide Transition, IsHex, Act, DecodeUnicode;
    var (q, c, valid) := Classify(p, ch);
    if valid && c != C_ERROR {
      if Transition(q.state, c).Goto? && Digits(Transition(q.state, c).state) > 0 {
        DigitStates(q.state, c);
      }
      if Transition(q.state, c).Do? && Buffer(cfg, q, c, ch).Run? {
        DigitsReady(cfg, q, c, ch);
        ActReady(cfg, Buffer(cfg, q, c, ch).p, Transition(q.state, c).action);
      }
    }
  }

  lemma ActReady(cfg: Config, p: Parser, a: Action)
    requires p.multi < 0x10000 && (a == UC ==> |p.buf| >= 4)
    ensures Act(cfg, p, a).Run? ==> EscapeReady(Act(cfg, p, a).p)
  {
    hide DecodeUnicode, LastHex;
    if a == UC {
      DecodeReady(p);
    }
  }

  lemma DecodeReady(p: Parser)
    requires |p.buf| >= 4 && p.multi < 0x10000
    ensures DecodeUnicode(p).p.multi < 0x10000
  {
    hide HexValue;
  }

  /** json_parser_string on a whole chunk: stop at the first error. */
  function Feed(cfg: Config, p: Parser, bytes: seq<Byte>): (o: Outcome)
    requires EscapeReady(p)
    ensures o.Run? ==> EscapeReady(o.p)
    decreases |bytes|
  {
    hide Step, EscapeReady;
    if bytes == [] then Run(p) else
      StepReady(cfg, p, bytes[0]);
      match Step(cfg, p, bytes[0])
      case Stop(q, e) => Stop(q, e)
      case Run(q) => Feed(cfg, q, bytes[1..])
  }

  /** How the input is cut into chunks does not matter. */
  lemma {:induction false} FeedSplit(cfg: Config, p: Parser, a: seq<Byte>, b: seq<Byte>)
    requires EscapeReady(p)
    ensures Feed(cfg, p, a + b) == if Feed(cfg, p, a).Run? then Feed(cfg, Feed(cfg, p, a).p, b) else Feed(cfg, p, a)
    decreases |a|
  {
    hide Step, EscapeReady;
    if a == [] {
      assert a + b == b;
    } else {
      assert (a + b)[0] == a[0] && (a + b)[1..] == a[1..] + b;
      if Step(cfg, p, a[0]).Run? {
        StepReady(cfg, p, a[0]);
        FeedSplit(cfg, Step(cfg, p, a[0]).p, a[1..], b);
      }
    }
  }

  lemma FeedOne(cfg: Config, p: Parser, ch: Byte)
    requires EscapeReady(p)
    ensures Feed(cfg, p, [ch]) == Step(cfg, p, ch)
  {
    hide Step;
    if Step(cfg, p, ch).Run? {
      StepReady(cfg, p, ch);
      assert Feed(cfg, Step(cfg, p, ch).p, []) == Run(Step(cfg, p, ch).p);
    }
  }

  lemma FeedThen(cfg: Config, p: Parser, a: seq<Byte>, q: Parser, b: seq<Byte>)
    requires EscapeReady(p) && Feed(cfg, p, a) == Run(q)
    ensures EscapeReady(q) && Feed(cfg, p, a + b) == Feed(cfg, q, b)
  {
    hide Feed, EscapeReady;
    FeedSplit(cfg, p, a, b);
  }

  lemma StepThen(cfg: Config, p: Parser, ch: Byte, q: Parser, b: seq<Byte>)
    requires EscapeReady(p) && Step(cfg, p, ch) == Run(q)
    ensures EscapeReady(q) && Feed(cfg, p, [ch] + b) == Feed(cfg, q, b)
  {
    hide Feed, EscapeReady, Step;
    FeedOne(cfg, p, ch);
    FeedThen(cfg, p, [ch], q, b);
  }

  lemma FeedNothing(cfg: Config, p: Parser)
    requires EscapeReady(p)
    ensures Feed(cfg, p, []) == Run(p)
  {
  }
}
