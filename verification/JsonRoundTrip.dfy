/** Parsing what the printer prints gives the same events back. */
module JsonRoundTrip {
  import opened JsonTables
  import opened JsonLexemes
  import opened JsonMachine
  import opened JsonGrammar
  import opened JsonUnicode
  import opened JsonInvariant
  import opened JsonPrinting
  import opened JsonParsing

  // ----- Stepping -----

  /** Nothing is buffered and no character is incomplete. */
  predicate Idle(p: Parser) { p.kind == NONE && p.buf == [] && p.left == 0 && p.multi == 0 }

  /** Space, tab, line feed and carriage return. */
  predicate IsBlank(ch: Byte) { ch == 32 || ch == 9 || ch == 10 || ch == 13 }

  /** The states between tokens, in which blanks change nothing. */
  predicate Skips(s: State) { s == GO || s == V_ || s == A_ || s == O_ || s == K_ || s == CO || s == OK }

  lemma BlankStep(cfg: Config, p: Parser, ch: Byte)
    requires IsBlank(ch) && p.left == 0 && p.multi == 0
    ensures EscapeReady(p) || Digits(p.state) > 0
    ensures Skips(p.state) ==> Step(cfg, p, ch) == Run(p)
    ensures IsWhole(p.state) ==> Step(cfg, p, ch) == Run(p.(state := OK))
  {
    assert IsWhite(CharacterClass(ch));
    hide CharacterClass, OrComment, BeginValue;
  }

  lemma {:induction false} BlanksStep(cfg: Config, p: Parser, s: seq<Byte>)
    requires Skips(p.state) && p.left == 0 && p.multi == 0
    requires forall i :: 0 <= i < |s| ==> IsBlank(s[i])
    ensures EscapeReady(p) && Feed(cfg, p, s) == Run(p)
    decreases |s|
  {
    hide Step, IsBlank;
    if s != [] {
      BlankStep(cfg, p, s[0]);
      BlanksStep(cfg, p, s[1..]);
    }
  }

  /** The parser once a value has ended and been emitted. */
  function Settle(p: Parser): Parser { Flush(p).(state := OK, kind := NONE) }

  /** Parser `q` has read a value to its end, and emitting it gives `r`. */
  predicate Ended(q: Parser, r: Parser) {
    && (q.state == OK || IsWhole(q.state)) && q.left == 0 && q.multi == 0
    && Settle(q) == r
  }

  lemma IdleEnded(p: Parser)
    requires Idle(p) && p.state == OK
    ensures Ended(p, p)
  {
  }

  lemma BreakIsBlank(level: int, pretty: bool)
    ensures forall i :: 0 <= i < |Break(level, pretty)| ==> IsBlank(Break(level, pretty)[i])
    ensures pretty ==> Break(level, pretty) == [NEWLINE] + Tabs(level)
  {
  }

  lemma SkipBreak(cfg: Config, p: Parser, level: int, pretty: bool)
    requires Skips(p.state) && p.left == 0 && p.multi == 0
    ensures EscapeReady(p) && Feed(cfg, p, Break(level, pretty)) == Run(p)
  {
    hide Break, Feed, IsBlank;
    BreakIsBlank(level, pretty);
    BlanksStep(cfg, p, Break(level, pretty));
  }

  lemma EndedReady(q: Parser, r: Parser)
    requires Ended(q, r)
    ensures EscapeReady(q) && EscapeReady(r)
  {
  }

  lemma EndedBreak(cfg: Config, q: Parser, r: Parser, level: int, pretty: bool)
    requires Ended(q, r)
    ensures EscapeReady(q) && Feed(cfg, q, Break(level, pretty)).Run? && Ended(Feed(cfg, q, Break(level, pretty)).p, r)
  {
    hide Feed, Step, EscapeReady;
    EndedReady(q, r);
    if !pretty {
      assert Break(level, pretty) == [];
      FeedNothing(cfg, q);
    } else {
      assert Break(level, pretty) == [NEWLINE] + Tabs(level);
      BlankStep(cfg, q, NEWLINE);
      var q1 := q.(state := OK);
      StepThen(cfg, q, NEWLINE, q1, Tabs(level));
      BlanksStep(cfg, q1, Tabs(level));
    }
  }

  /** A comma after a value. */
  lemma EndedComma(cfg: Config, q: Parser, r: Parser)
    requires Ended(q, r) && r.stack != []
    ensures EscapeReady(q)
    ensures Step(cfg, q, COMMA)
         == Run(if r.stack[|r.stack| - 1] == MODE_OBJECT then r.(expectingKey := true, state := K_)
             else r.(state := V_))
  {
    hide HasValue, EmitBuffer;
    EndedReady(q, r);
    assert Transition(q.state, C_COMMA) == Do(SP) && BufferPolicy(q.state, C_COMMA) == Ignore;
  }

  lemma EndedClose(cfg: Config, q: Parser, r: Parser)
    requires Ended(q, r) && r.stack != []
    ensures EscapeReady(q)
    ensures r.stack[|r.stack| - 1] == MODE_ARRAY ==>
              Step(cfg, q, 93) == Run(r.(stack := r.stack[..|r.stack| - 1],
                  events := r.events + [Event(ARRAY_END, [])]))
    ensures r.stack[|r.stack| - 1] == MODE_OBJECT ==>
              Step(cfg, q, 125) == Run(r.(stack := r.stack[..|r.stack| - 1],
                  events := r.events + [Event(OBJECT_END, [])], expectingKey := false))
  {
    hide HasValue, EmitBuffer;
    EndedReady(q, r);
    assert Transition(q.state, C_RSQRB) == Do(AE) && BufferPolicy(q.state, C_RSQRB) == Ignore;
    assert Transition(q.state, C_RCURB) == Do(OE) && BufferPolicy(q.state, C_RCURB) == Ignore;
  }

  // ----- Strings -----

  /** The room that the escape of a byte needs in the buffer before it is decoded. */
  function Space(c: Byte): nat { if ShortEscape(c) == 0 && c < 32 then 4 else 1 }

  predicate FitsString(cfg: Config, s: seq<Byte>) {
    forall i :: 0 <= i < |s| ==> RoomFor(cfg, i + Space(s[i]))
  }

  /** A byte of a string, as the printer escapes it, appends itself to the buffer. */
  lemma FeedByte(cfg: Config, p: Parser, c: Byte)
    requires p.state == S_ && p.multi == 0 && p.kind == NONE && RoomFor(cfg, |p.buf| + Space(c))
    requires if p.left > 0 then IsContinuation(c) else Utf8Header(c) >= 0
    ensures EscapeReady(p)
    ensures Feed(cfg, p, EscapeOf(c))
         == Run(p.(buf := p.buf + [c], left := if p.left > 0 then p.left - 1 else Utf8Header(c)))
  {
    hide Step, Feed, EscapeOf, ShortEscape, Space, Utf8Header, IsContinuation, RoomFor;
    ByteForms(c);
    if ShortEscape(c) != 0 {
      FeedShort(cfg, p, c);
    } else if c < 32 {
      FeedControl(cfg, p, c);
    } else {
      RawStep(cfg, p, c);
      FeedOne(cfg, p, c);
    }
  }

  lemma ByteForms(c: Byte)
    ensures ShortEscape(c) != 0 ==> EscapeOf(c) == [BACKSLASH] + [ShortEscape(c)] && c < 128 && Space(c) == 1
    ensures ShortEscape(c) == 0 && c < 32 ==>
            EscapeOf(c) == ESCAPE + [48, 48, HexDigit(c / 16), HexDigit(c % 16)]
            && Space(c) == 4
    ensures ShortEscape(c) == 0 && c >= 32 ==> EscapeOf(c) == [c] && Space(c) == 1 && c != QUOTE && c != BACKSLASH
    ensures IsContinuation(c) ==> c >= 128
    ensures c < 128 ==> Utf8Header(c) == 0
  {
  }

  lemma RawStep(cfg: Config, p: Parser, c: Byte)
    requires p.state == S_ && p.multi == 0 && RoomFor(cfg, |p.buf| + 1)
    requires if p.left > 0 then IsContinuation(c) else Utf8Header(c) >= 0
    requires c >= 32 && c != QUOTE && c != BACKSLASH
    ensures EscapeReady(p)
    ensures Step(cfg, p, c) == Run(p.(buf := p.buf + [c], left := if p.left > 0 then p.left - 1 else Utf8Header(c)))
  {
    hide CharacterClass, Utf8Header, IsContinuation;
    AsciiHeader(c);
    if c < 128 {
      PlainClass(c);
    }
  }

  lemma PlainClass(c: Byte)
    requires 32 <= c < 128 && c != QUOTE && c != BACKSLASH
    ensures var k := CharacterClass(c); k != C_ERROR && k != C_NL && k != C_WHITE && k != C_QUOTE && k != C_BACKS
  {
  }

  lemma FeedShort(cfg: Config, p: Parser, c: Byte)
    requires p.state == S_ && p.multi == 0 && p.left == 0 && RoomFor(cfg, |p.buf| + 1)
    requires ShortEscape(c) != 0
    ensures EscapeReady(p)
    ensures Feed(cfg, p, [BACKSLASH] + [ShortEscape(c)]) == Run(p.(buf := p.buf + [c]))
  {
    hide Feed;
    var p1 := p.(state := E0);
    assert Step(cfg, p, BACKSLASH) == Run(p1);
    StepThen(cfg, p, BACKSLASH, p1, [ShortEscape(c)]);
    FeedOne(cfg, p1, ShortEscape(c));
    ShortStep(cfg, p1, c);
  }

  lemma ShortStep(cfg: Config, p: Parser, c: Byte)
    requires p.state == E0 && p.multi == 0 && p.left == 0 && RoomFor(cfg, |p.buf| + 1) && ShortEscape(c) != 0
    ensures EscapeReady(p) && Step(cfg, p, ShortEscape(c)) == Run(p.(state := S_, buf := p.buf + [c]))
  {
    assert Unescape(ShortEscape(c)) == c;
    assert BufferPolicy(E0, CharacterClass(ShortEscape(c))) == Escape;
    hide CharacterClass, Unescape, ShortEscape;
  }

  lemma FeedControl(cfg: Config, p: Parser, c: Byte)
    requires p.state == S_ && p.multi == 0 && p.left == 0 && p.kind == NONE && RoomFor(cfg, |p.buf| + 4)
    requires c < 32
    ensures EscapeReady(p)
    ensures Feed(cfg, p, ESCAPE + [48, 48, HexDigit(c / 16), HexDigit(c % 16)]) == Run(p.(buf := p.buf + [c]))
  {
    hide Feed, LastHex, CodePoint, Utf8, ESCAPE, IsHexByte;
    var h: seq<Byte> := [48, 48, HexDigit(c / 16), HexDigit(c % 16)];
    ControlDigits(c);
    EscapeDecodes(cfg, p, h);
  }

  lemma ControlDigits(c: Byte)
    requires c < 32
    ensures var h: seq<Byte> := [48, 48, HexDigit(c / 16), HexDigit(c % 16)];
            AllHex(h) && LastHex(h) == c && Utf8(CodePoint(0, c)) == [c]
  {
    HexBack(c / 16);
    HexBack(c % 16);
    assert IsHexByte(48);
    hide HexValue, HexDigit, IsHexByte;
    assert HexValue(48) == 0 by { Hex48(); }
  }

  lemma Hex48()
    ensures HexValue(48) == 0
  {
  }

  lemma HexBack(v: nat)
    requires v < 16
    ensures HexValue(HexDigit(v)) == v && IsHexByte(HexDigit(v))
  {
  }

  /** Prefixes of a valid string are valid but for missing continuation bytes. */
  lemma {:induction false} PrefixesContinue(s: seq<Byte>, n: nat)
    requires n <= |s| && Missing(s) >= 0
    ensures Missing(s[..n]) >= 0
    ensures n < |s| ==> if Missing(s[..n]) > 0 then IsContinuation(s[n]) else Utf8Header(s[n]) >= 0
    decreases |s| - n
  {
    hide Missing, Utf8Header, IsContinuation;
    if n == |s| {
      assert s[..n] == s;
    } else {
      PrefixesContinue(s, n + 1);
      assert s[..n + 1] == s[..n] + [s[n]];
      MissingSnoc(s[..n], s[n]);
    }
  }

  lemma {:induction false} FeedBody(cfg: Config, p: Parser, s: seq<Byte>, n: nat)
    requires p.state == S_ && p.buf == [] && p.left == 0 && p.multi == 0 && p.kind == NONE
    requires ValidString(s) && FitsString(cfg, s) && n <= |s|
    ensures EscapeReady(p) && Missing(s[..n]) >= 0
    ensures Feed(cfg, p, Escaped(s[..n])) == Run(p.(buf := s[..n], left := Missing(s[..n])))
    decreases n
  {
    hide Feed, Missing, EscapeOf, Utf8Header, IsContinuation, Space, RoomFor;
    PrefixesContinue(s, n);
    if n == 0 {
      FeedNothing(cfg, p);
      MissingNothing();
    } else {
      FeedBody(cfg, p, s, n - 1);
      PrefixesContinue(s, n - 1);
      var q := p.(buf := s[..n - 1], left := Missing(s[..n - 1]));
      assert s[..n][..n - 1] == s[..n - 1] && s[..n] == s[..n - 1] + [s[n - 1]];
      FeedThen(cfg, p, Escaped(s[..n - 1]), q, EscapeOf(s[n - 1]));
      FeedByte(cfg, q, s[n - 1]);
      MissingSnoc(s[..n - 1], s[n - 1]);
    }
  }

  lemma MissingNothing()
    ensures Missing([]) == 0
  {
  }

  /** A string in quotes, as a key or as a value. */
  lemma ParsesString(cfg: Config, p: Parser, s: seq<Byte>)
    requires Idle(p) && (if p.expectingKey then p.state == O_ || p.state == K_ else p.state == V_ || p.state == A_)
    requires ValidString(s) && FitsString(cfg, s)
    ensures EscapeReady(p)
    ensures Feed(cfg, p, Quoted(s))
         == Run(p.(events := p.events + [Event(if p.expectingKey then KEY else STRING, s)],
                   state := if p.expectingKey then CO else OK, expectingKey := false))
  {
    hide Feed, Step, Escaped, FitsString, Missing;
    var p1 := p.(state := S_);
    QuoteOpens(cfg, p);
    StepThen(cfg, p, QUOTE, p1, Escaped(s) + [QUOTE]);
    FeedBody(cfg, p1, s, |s|);
    assert s[..|s|] == s;
    var p2 := p1.(buf := s);
    FeedThen(cfg, p1, Escaped(s), p2, [QUOTE]);
    FeedOne(cfg, p2, QUOTE);
    QuoteCloses(cfg, p2);
    assert Quoted(s) == [QUOTE] + (Escaped(s) + [QUOTE]);
  }

  lemma QuoteOpens(cfg: Config, p: Parser)
    requires Idle(p) && (p.state == O_ || p.state == K_ || p.state == V_ || p.state == A_)
    ensures EscapeReady(p) && Step(cfg, p, QUOTE) == Run(p.(state := S_))
  {
  }

  lemma QuoteCloses(cfg: Config, p: Parser)
    requires p.state == S_ && p.left == 0 && p.multi == 0
    ensures EscapeReady(p) && Step(cfg, p, QUOTE) == Act(cfg, p, SE)
  {
    hide Act;
  }

  // ----- Numbers -----

  lemma NumberStepTo(cfg: Config, q: Parser, ch: Byte)
    requires InNumber(q.state) && q.left == 0 && q.multi == 0 && ch < 128 && CharacterClass(ch) != C_ERROR
    requires RoomFor(cfg, |q.buf| + 1)
    ensures EscapeReady(q)
    ensures var n := NumberRow(q.state, CharacterClass(ch));
            && (n.Goto? && n.state != OK ==> Step(cfg, q, ch) == Run(q.(state := n.state, buf := q.buf + [ch])))
            && (n == Do(DE) ==> Step(cfg, q, ch) == Run(q.(state := X1, kind := FLOAT, buf := q.buf + [ch])))
            && (n == Do(DF) ==> Step(cfg, q, ch) == Run(q.(state := R1, kind := FLOAT, buf := q.buf + [ch])))
  {
    hide CharacterClass, NumberRow, PositionRow, StringRow, LiteralRow, CommentRow, BufferPolicy;
  }

  /** Where a digit leads inside a number. */
  function AfterDigit(s: State): State {
    if s == I0 then I0 else if s == R1 || s == R2 then R2 else X3
  }

  predicate TakesDigits(s: State) { s == I0 || s == R1 || s == R2 || s == X1 || s == X2 || s == X3 }

  lemma DigitClass(ch: Byte)
    requires IsDecimal(ch)
    ensures IsDigit(CharacterClass(ch)) && CharacterClass(ch) != C_ERROR
    ensures ch == ZERO <==> CharacterClass(ch) == C_ZERO
  {
  }

  lemma DigitStepTo(cfg: Config, q: Parser, ch: Byte)
    requires TakesDigits(q.state) && q.left == 0 && q.multi == 0 && IsDecimal(ch) && RoomFor(cfg, |q.buf| + 1)
    ensures EscapeReady(q) && Step(cfg, q, ch) == Run(q.(state := AfterDigit(q.state), buf := q.buf + [ch]))
  {
    hide Step, CharacterClass, RoomFor;
    DigitClass(ch);
    NumberStepTo(cfg, q, ch);
  }

  lemma {:induction false} DigitsFrom(cfg: Config, q: Parser, ds: seq<Byte>)
    requires TakesDigits(q.state) && q.left == 0 && q.multi == 0 && AllDigits(ds) && RoomFor(cfg, |q.buf| + |ds|)
    ensures EscapeReady(q) && Feed(cfg, q, ds) == Run(q.(state := AfterDigit(q.state), buf := q.buf + ds))
    decreases |ds|
  {
    hide Step, Feed, IsDecimal;
    var q1 := q.(state := AfterDigit(q.state), buf := q.buf + [ds[0]]);
    DigitStepTo(cfg, q, ds[0]);
    assert ds == [ds[0]] + ds[1..];
    StepThen(cfg, q, ds[0], q1, ds[1..]);
    if |ds| == 1 {
      assert ds[1..] == [];
      FeedNothing(cfg, q1);
    } else {
      DigitsFrom(cfg, q1, ds[1..]);
      assert q1.buf + ds[1..] == q.buf + ds;
    }
  }

  predicate BeforeValue(p: Parser) { Idle(p) && (p.state == V_ || p.state == A_) && !p.expectingKey }

  lemma NumberFirst(cfg: Config, p: Parser, ch: Byte)
    requires BeforeValue(p) && RoomFor(cfg, 1)
    ensures EscapeReady(p)
    ensures ch == MINUS ==> Step(cfg, p, ch) == Run(p.(state := M0, kind := INT, buf := [ch]))
    ensures ch == ZERO ==> Step(cfg, p, ch) == Run(p.(state := Z0, kind := INT, buf := [ch]))
    ensures 49 <= ch <= 57 ==> Step(cfg, p, ch) == Run(p.(state := I0, kind := INT, buf := [ch]))
  {
    if ch == MINUS || ch == ZERO || 49 <= ch <= 57 {
      assert ch < 128 && CharacterClass(ch) == if ch == MINUS then C_MINUS else if ch == ZERO then C_ZERO else C_DIGIT;
      hide CharacterClass;
    }
  }

  lemma AfterMinusStep(cfg: Config, q: Parser, ch: Byte)
    requires q.state == M0 && q.left == 0 && q.multi == 0 && IsDecimal(ch) && RoomFor(cfg, |q.buf| + 1)
    ensures EscapeReady(q)
    ensures Step(cfg, q, ch) == Run(q.(state := if ch == ZERO then Z0 else I0, buf := q.buf + [ch]))
  {
    hide Step, CharacterClass, RoomFor;
    DigitClass(ch);
    NumberStepTo(cfg, q, ch);
  }

  function IntState(l: seq<Byte>): State { if IsZero(l) then Z0 else I0 }

  /** The first digit of an integer without sign has been read; the others follow. */
  lemma RestOfInt(cfg: Config, q: Parser, u: seq<Byte>)
    requires (u == [ZERO] && q.state == Z0) || (AllDigits(u) && u[0] != ZERO && q.state == I0)
    requires q.left == 0 && q.multi == 0 && RoomFor(cfg, |q.buf| + |u| - 1)
    ensures EscapeReady(q) && Feed(cfg, q, u[1..]) == Run(q.(buf := q.buf + u[1..]))
  {
    hide Feed, IsDecimal;
    if |u| == 1 {
      assert u[1..] == [];
      FeedNothing(cfg, q);
    } else {
      DigitsFrom(cfg, q, u[1..]);
    }
  }

  lemma ParsesInt(cfg: Config, p: Parser, l: seq<Byte>)
    requires BeforeValue(p) && IsInt(l) && RoomFor(cfg, |l|)
    ensures EscapeReady(p) && Feed(cfg, p, l) == Run(p.(state := IntState(l), kind := INT, buf := l))
  {
    hide Feed, Step;
    var q0 := p.(kind := INT, buf := [l[0]]);
    NumberFirst(cfg, p, l[0]);
    assert l == [l[0]] + l[1..];
    if l[0] == MINUS {
      var u := l[1..];
      assert u == Unsigned(l) && u != [];
      var q := q0.(state := M0);
      StepThen(cfg, p, l[0], q, u);
      AfterMinusStep(cfg, q, u[0]);
      var q1 := q.(state := if u[0] == ZERO then Z0 else I0, buf := q.buf + [u[0]]);
      assert u == [u[0]] + u[1..];
      StepThen(cfg, q, u[0], q1, u[1..]);
      RestOfInt(cfg, q1, u);
      assert q1.buf + u[1..] == l;
    } else {
      var q := q0.(state := if l[0] == ZERO then Z0 else I0);
      assert IsDecimal(l[0]);
      StepThen(cfg, p, l[0], q, l[1..]);
      RestOfInt(cfg, q, l);
      assert q.buf + l[1..] == l;
    }
  }

  /** A prefix that leads to `q`, and one more byte. */
  lemma FeedLast(cfg: Config, p: Parser, l: seq<Byte>, q: Parser)
    requires EscapeReady(p) && l != [] && Feed(cfg, p, l[..|l| - 1]) == Run(q)
    ensures EscapeReady(q) && Feed(cfg, p, l) == Step(cfg, q, l[|l| - 1])
  {
    hide Feed, Step, EscapeReady;
    assert l == l[..|l| - 1] + [l[|l| - 1]];
    FeedThen(cfg, p, l[..|l| - 1], q, [l[|l| - 1]]);
    FeedOne(cfg, q, l[|l| - 1]);
  }

  lemma ParsesPointed(cfg: Config, p: Parser, l: seq<Byte>)
    requires BeforeValue(p) && IsPointed(l) && RoomFor(cfg, |l|)
    ensures EscapeReady(p) && Feed(cfg, p, l) == Run(p.(state := R1, kind := FLOAT, buf := l))
  {
    hide Feed, Step, IsInt, IsZero;
    var k := |l| - 1;
    ParsesInt(cfg, p, l[..k]);
    var q := p.(state := IntState(l[..k]), kind := INT, buf := l[..k]);
    FeedLast(cfg, p, l, q);
    NumberStepTo(cfg, q, DOT);
    assert l == l[..k] + [DOT];
  }

  lemma ParsesFraction(cfg: Config, p: Parser, l: seq<Byte>)
    requires BeforeValue(p) && IsFraction(l) && RoomFor(cfg, |l|)
    ensures EscapeReady(p) && Feed(cfg, p, l) == Run(p.(state := R2, kind := FLOAT, buf := l))
  {
    hide Feed, IsPointed, AllDigits;
    var i :| 0 < i < |l| && IsPointed(l[..i]) && AllDigits(l[i..]);
    ParsesPointed(cfg, p, l[..i]);
    var q := p.(state := R1, kind := FLOAT, buf := l[..i]);
    assert l == l[..i] + l[i..];
    FeedThen(cfg, p, l[..i], q, l[i..]);
    DigitsFrom(cfg, q, l[i..]);
  }

  lemma ParsesE(cfg: Config, p: Parser, l: seq<Byte>)
    requires BeforeValue(p) && EndsInE(l) && RoomFor(cfg, |l|)
    ensures EscapeReady(p) && Feed(cfg, p, l) == Run(p.(state := X1, kind := FLOAT, buf := l))
  {
    hide Feed, Step, IsFraction, IsNonZero, IsZero, CharacterClass;
    var k := |l| - 1;
    var m := l[..k];
    var q: Parser;
    if IsFraction(m) {
      ParsesFraction(cfg, p, m);
      q := p.(state := R2, kind := FLOAT, buf := m);
    } else {
      ParsesInt(cfg, p, m);
      NotBoth(m);
      q := p.(state := I0, kind := INT, buf := m);
    }
    FeedLast(cfg, p, l, q);
    EClass(l[k]);
    NumberStepTo(cfg, q, l[k]);
    assert l == m + [l[k]];
  }

  lemma NotBoth(l: seq<Byte>)
    ensures !(IsNonZero(l) && IsZero(l))
  {
  }

  lemma EClass(ch: Byte)
    ensures ch == 101 ==> CharacterClass(ch) == C_e
    ensures ch == 69 ==> CharacterClass(ch) == C_E
    ensures ch == PLUS ==> CharacterClass(ch) == C_PLUS
    ensures ch == MINUS ==> CharacterClass(ch) == C_MINUS
  {
  }

  lemma ParsesSign(cfg: Config, p: Parser, l: seq<Byte>)
    requires BeforeValue(p) && EndsInSign(l) && RoomFor(cfg, |l|)
    ensures EscapeReady(p) && Feed(cfg, p, l) == Run(p.(state := X2, kind := FLOAT, buf := l))
  {
    hide Feed, Step, EndsInE, CharacterClass;
    var k := |l| - 1;
    ParsesE(cfg, p, l[..k]);
    var q := p.(state := X1, kind := FLOAT, buf := l[..k]);
    FeedLast(cfg, p, l, q);
    EClass(l[k]);
    NumberStepTo(cfg, q, l[k]);
    assert l == l[..k] + [l[k]];
  }

  lemma ParsesExponential(cfg: Config, p: Parser, l: seq<Byte>)
    requires BeforeValue(p) && IsExponential(l) && RoomFor(cfg, |l|)
    ensures EscapeReady(p) && Feed(cfg, p, l) == Run(p.(state := X3, kind := FLOAT, buf := l))
  {
    hide Feed, EndsInE, EndsInSign, AllDigits;
    var i :| 0 < i < |l| && (EndsInE(l[..i]) || EndsInSign(l[..i])) && AllDigits(l[i..]);
    var q: Parser;
    if EndsInE(l[..i]) {
      ParsesE(cfg, p, l[..i]);
      q := p.(state := X1, kind := FLOAT, buf := l[..i]);
    } else {
      ParsesSign(cfg, p, l[..i]);
      q := p.(state := X2, kind := FLOAT, buf := l[..i]);
    }
    assert l == l[..i] + l[i..];
    FeedThen(cfg, p, l[..i], q, l[i..]);
    DigitsFrom(cfg, q, l[i..]);
  }

  // ----- Values -----

  /** The parser after value `v` has been emitted. */
  function After(p: Parser, v: Value): Parser {
    p.(state := OK, events := p.events + Linear(v))
  }

  predicate MayNest(cfg: Config, depth: nat) { cfg.maxNesting == 0 || depth < cfg.maxNesting }

  /** A value at a nesting depth stays within the configured limits. */
  predicate Fits(cfg: Config, depth: nat, v: Value)
    decreases v
  {
    match v
    case Int(l) => RoomFor(cfg, |l|)
    case Float(l) => RoomFor(cfg, |l|)
    case Str(s) => FitsString(cfg, s)
    case Array(items) => MayNest(cfg, depth) && forall i :: 0 <= i < |items| ==> Fits(cfg, depth + 1, items[i])
    case Object(members) =>
      MayNest(cfg, depth)
      && forall i :: 0 <= i < |members| ==> FitsString(cfg, members[i].key) && Fits(cfg, depth + 1, members[i].value)
    case _ => true
  }

  /** Parsing `text` from `p` reads a value to its end and gives `r`. */
  ghost predicate Reads(cfg: Config, p: Parser, text: seq<Byte>, r: Parser) {
    EscapeReady(p) && Feed(cfg, p, text).Run? && Ended(Feed(cfg, p, text).p, r)
  }

  lemma LiteralSteps(cfg: Config, p: Parser)
    requires BeforeValue(p)
    ensures Reads(cfg, p, TRUE_TEXT, After(p, True))
    ensures Reads(cfg, p, FALSE_TEXT, After(p, False))
    ensures Reads(cfg, p, NULL_TEXT, After(p, Null))
  {
    hide Feed, Step;
    TrueSteps(cfg, p);
    FalseSteps(cfg, p);
    NullSteps(cfg, p);
  }

  /** A letter of a literal that is not its last. */
  lemma LetterStep(cfg: Config, p: Parser, ch: Byte, s: State)
    requires p.left == 0 && p.multi == 0 && ch < 128 && CharacterClass(ch) != C_ERROR
    requires InLiteral(p.state) && LiteralRow(p.state, CharacterClass(ch)) == Goto(s)
    ensures EscapeReady(p) && Step(cfg, p, ch) == Run(p.(state := s))
  {
    hide CharacterClass, LiteralRow;
  }

  lemma LastLetterStep(cfg: Config, p: Parser, ch: Byte, a: Action)
    requires p.left == 0 && p.multi == 0 && ch < 128 && CharacterClass(ch) != C_ERROR
    requires InLiteral(p.state) && LiteralRow(p.state, CharacterClass(ch)) == Do(a)
    ensures EscapeReady(p) && Step(cfg, p, ch) == Run(p.(state := OK, kind := if a == TR then TRUE
            else if a == FA then FALSE else NULL))
  {
    hide CharacterClass, LiteralRow;
  }

  lemma FirstLetterStep(cfg: Config, p: Parser, ch: Byte, s: State)
    requires BeforeValue(p) && ((ch == 116 && s == T1) || (ch == 102 && s == F1) || (ch == 110 && s == N1))
    ensures EscapeReady(p) && Step(cfg, p, ch) == Run(p.(state := s))
  {
  }

  lemma TrueSteps(cfg: Config, p: Parser)
    requires BeforeValue(p)
    ensures EscapeReady(p) && Feed(cfg, p, TRUE_TEXT) == Run(p.(state := OK, kind := TRUE))
  {
    hide Feed, Step;
    FirstLetterStep(cfg, p, 116, T1);
    LetterStep(cfg, p.(state := T1), 114, T2);
    LetterStep(cfg, p.(state := T2), 117, T3);
    LastLetterStep(cfg, p.(state := T3), 101, TR);
    assert TRUE_TEXT == [116] + ([114] + ([117] + [101]));
    StepThen(cfg, p, 116, p.(state := T1), [114] + ([117] + [101]));
    StepThen(cfg, p.(state := T1), 114, p.(state := T2), [117] + [101]);
    StepThen(cfg, p.(state := T2), 117, p.(state := T3), [101]);
    FeedOne(cfg, p.(state := T3), 101);
  }

  lemma FalseSteps(cfg: Config, p: Parser)
    requires BeforeValue(p)
    ensures EscapeReady(p) && Feed(cfg, p, FALSE_TEXT) == Run(p.(state := OK, kind := FALSE))
  {
    hide Feed, Step;
    FirstLetterStep(cfg, p, 102, F1);
    LetterStep(cfg, p.(state := F1), 97, F2);
    LetterStep(cfg, p.(state := F2), 108, F3);
    LetterStep(cfg, p.(state := F3), 115, F4);
    LastLetterStep(cfg, p.(state := F4), 101, FA);
    assert FALSE_TEXT == [102] + ([97] + ([108] + ([115] + [101])));
    StepThen(cfg, p, 102, p.(state := F1), [97] + ([108] + ([115] + [101])));
    StepThen(cfg, p.(state := F1), 97, p.(state := F2), [108] + ([115] + [101]));
    StepThen(cfg, p.(state := F2), 108, p.(state := F3), [115] + [101]);
    StepThen(cfg, p.(state := F3), 115, p.(state := F4), [101]);
    FeedOne(cfg, p.(state := F4), 101);
  }

  lemma NullSteps(cfg: Config, p: Parser)
    requires BeforeValue(p)
    ensures EscapeReady(p) && Feed(cfg, p, NULL_TEXT) == Run(p.(state := OK, kind := NULL))
  {
    hide Feed, Step;
    FirstLetterStep(cfg, p, 110, N1);
    LetterStep(cfg, p.(state := N1), 117, N2);
    LetterStep(cfg, p.(state := N2), 108, N3);
    LastLetterStep(cfg, p.(state := N3), 108, NU);
    assert NULL_TEXT == [110] + ([117] + ([108] + [108]));
    StepThen(cfg, p, 110, p.(state := N1), [117] + ([108] + [108]));
    StepThen(cfg, p.(state := N1), 117, p.(state := N2), [108] + [108]);
    StepThen(cfg, p.(state := N2), 108, p.(state := N3), [108]);
    FeedOne(cfg, p.(state := N3), 108);
  }

  lemma ParsesScalar(cfg: Config, p: Parser, v: Value, level: int, pretty: bool)
    requires BeforeValue(p) && !IsContainer(v) && Valid(v) && Fits(cfg, |p.stack|, v)
    ensures Reads(cfg, p, Text(v, level, pretty), After(p, v))
  {
    hide Feed, IsInt, IsFraction, IsExponential, ValidString, FitsString, RoomFor, Quoted, TRUE_TEXT,
         FALSE_TEXT, NULL_TEXT, IsZero, Reads;
    match v
    case Int(l) =>
      ParsesInt(cfg, p, l);
      NumberReads(cfg, p, v, IntState(l), INT, l);
    case Float(l) =>
      if IsFraction(l) {
        ParsesFraction(cfg, p, l);
        NumberReads(cfg, p, v, R2, FLOAT, l);
      } else {
        ParsesExponential(cfg, p, l);
        NumberReads(cfg, p, v, X3, FLOAT, l);
      }
    case Str(s) =>
      ParsesString(cfg, p, s);
      StringReads(cfg, p, s);
    case _ => LiteralSteps(cfg, p);
  }

  lemma NumberReads(cfg: Config, p: Parser, v: Value, s: State, kind: Kind, l: seq<Byte>)
    requires BeforeValue(p) && IsWhole(s) && (kind == INT || kind == FLOAT) && Linear(v) == [Event(kind, l)]
    requires EscapeReady(p) && Feed(cfg, p, l) == Run(p.(state := s, kind := kind, buf := l))
    ensures Reads(cfg, p, l, After(p, v))
  {
    hide Feed;
  }

  lemma StringReads(cfg: Config, p: Parser, s: seq<Byte>)
    requires BeforeValue(p) && EscapeReady(p)
    requires Feed(cfg, p, Quoted(s)) == Run(p.(events := p.events + [Event(STRING, s)], state := OK,
             expectingKey := false))
    ensures Reads(cfg, p, Quoted(s), After(p, Str(s)))
  {
    hide Feed, Quoted;
  }

  // ----- Arrays and objects -----

  /** Reading can be continued after `a`. */
  lemma ReadsThen(cfg: Config, p: Parser, a: seq<Byte>, q: Parser, b: seq<Byte>, r: Parser)
    requires EscapeReady(p) && Feed(cfg, p, a) == Run(q) && Reads(cfg, q, b, r)
    ensures Reads(cfg, p, a + b, r)
  {
    hide Feed, EscapeReady;
    FeedThen(cfg, p, a, q, b);
  }

  /** A position where an array or object may begin. */
  predicate BeforeContainer(p: Parser) { Idle(p) && (p.state == GO || p.state == V_ || p.state == A_)
                          && !p.expectingKey }

  function Opened(p: Parser, square: bool): Parser {
    if square then p.(events := p.events + [Event(ARRAY_BEGIN, [])], stack := p.stack + [MODE_ARRAY], state := A_)
    else p.(events := p.events + [Event(OBJECT_BEGIN, [])], stack := p.stack + [MODE_OBJECT], state := O_,
        expectingKey := true)
  }

  lemma OpenStep(cfg: Config, p: Parser, square: bool)
    requires BeforeContainer(p) && MayNest(cfg, |p.stack|)
    ensures EscapeReady(p) && Step(cfg, p, if square then 91 else 123) == Run(Opened(p, square))
  {
  }

  /** The bracket that closes an empty array or object. */
  lemma CloseEmpty(cfg: Config, p: Parser, square: bool)
    requires Idle(p) && p.state == (if square then A_ else O_) && p.stack != []
    requires p.stack[|p.stack| - 1] == if square then MODE_ARRAY else MODE_OBJECT
    ensures EscapeReady(p)
    ensures Step(cfg, p, if square then 93 else 125)
         == Run(p.(stack := p.stack[..|p.stack| - 1], state := OK, expectingKey := if square then p.expectingKey
             else false,
                   events := p.events + [Event(if square then ARRAY_END else OBJECT_END, [])]))
  {
  }

  lemma {:induction false} ParsesText(cfg: Config, p: Parser, v: Value, level: int, pretty: bool)
    requires if IsContainer(v) then BeforeContainer(p) else BeforeValue(p)
    requires Valid(v) && Fits(cfg, |p.stack|, v)
    ensures Reads(cfg, p, Text(v, level, pretty), After(p, v))
    decreases v, 1
  {
    hide Text, Reads, Valid, Fits, After;
    match v
    case Array(items) => ParsesArray(cfg, p, items, level, pretty);
    case Object(members) => ParsesObject(cfg, p, members, level, pretty);
    case _ => ParsesScalar(cfg, p, v, level, pretty);
  }

  /** The text between the brackets, read to its end, and the closing bracket. */
  lemma Enclosed(cfg: Config, p: Parser, r: Parser, square: bool, empty: bool, inner: seq<Byte>, brk: seq<Byte>,
                 level: int, pretty: bool)
    requires BeforeContainer(p) && MayNest(cfg, |p.stack|)
    requires var o := Opened(p, square);
             if empty then inner == [] && brk == [] && r == o.(state := OK, expectingKey := false)
             else brk == Break(level, pretty) && Reads(cfg, o, inner, r)
    requires r.state == OK && !r.expectingKey && r.stack == Opened(p, square).stack && Idle(r)
    ensures Reads(cfg, p, [if square then 91 else 123] + inner + brk + [if square then 93 else 125],
                  r.(stack := p.stack, events := r.events + [Event(if square then ARRAY_END else OBJECT_END, [])]))
  {
    hide Feed, Step, Break, EscapeReady, Ended;
    var o, first, last: Byte := Opened(p, square), if square then 91 else 123, if square then 93 else 125;
    var done := r.(stack := p.stack, events := r.events + [Event(if square then ARRAY_END else OBJECT_END, [])]);
    OpenStep(cfg, p, square);
    StepThen(cfg, p, first, o, inner + brk + [last]);
    assert [first] + inner + brk + [last] == [first] + (inner + brk + [last]);
    assert r.stack[..|r.stack| - 1] == p.stack;
    if empty {
      assert inner + brk + [last] == [last];
      CloseEmpty(cfg, o, square);
      FeedOne(cfg, o, last);
    } else {
      var q := Feed(cfg, o, inner).p;
      FeedThen(cfg, o, inner, q, brk + [last]);
      assert inner + brk + [last] == inner + (brk + [last]);
      EndedBreak(cfg, q, r, level, pretty);
      var q1 := Feed(cfg, q, brk).p;
      FeedThen(cfg, q, brk, q1, [last]);
      FeedOne(cfg, q1, last);
      EndedClose(cfg, q1, r);
    }
    IdleEnded(done);
  }

  lemma {:induction false} ParsesArray(cfg: Config, p: Parser, items: seq<Value>, level: int, pretty: bool)
    requires BeforeContainer(p) && Valid(Array(items)) && Fits(cfg, |p.stack|, Array(items))
    ensures Reads(cfg, p, Text(Array(items), level, pretty), After(p, Array(items)))
    decreases Array(items), 0
  {
    hide Break, Reads, LinearItems, TextItems, Text, Linear, Valid, Fits, InItems, Opened;
    ArrayOpens(cfg, p, items);
    ArrayText(items, level, pretty);
    var o := Opened(p, true);
    var r := o.(state := OK, events := o.events + LinearItems(items));
    assert items[..|items|] == items;
    if items == [] {
      NothingListed(level + 1, pretty);
      assert r.events == o.events;
    } else {
      ParsesItems(cfg, o, items, |items|, level + 1, pretty);
    }
    var brk := if items == [] then [] else Break(level, pretty);
    Enclosed(cfg, p, r, true, items == [], TextItems(items, level + 1, pretty), brk, level, pretty);
    assert r.events + [Event(ARRAY_END, [])] == p.events + Linear(Array(items));
  }

  lemma ArrayOpens(cfg: Config, p: Parser, items: seq<Value>)
    requires BeforeContainer(p) && Valid(Array(items)) && Fits(cfg, |p.stack|, Array(items))
    ensures MayNest(cfg, |p.stack|) && InItems(cfg, Opened(p, true), items) && Idle(Opened(p, true))
    ensures Opened(p, true).events == p.events + [Event(ARRAY_BEGIN, [])] && !Opened(p, true).expectingKey
    ensures Opened(p, true) == p.(state := Opened(p, true).state, stack := Opened(p, true).stack,
            events := Opened(p, true).events,
                                  expectingKey := Opened(p, true).expectingKey)
  {
    hide FitsString, ValidString;
  }

  lemma ArrayText(items: seq<Value>, level: int, pretty: bool)
    ensures Text(Array(items), level, pretty)
         == [91] + TextItems(items, level + 1, pretty) + (if items == [] then [] else Break(level, pretty)) + [93]
    ensures Linear(Array(items))
         == [Event(ARRAY_BEGIN, [])] + LinearItems(items) + [Event(ARRAY_END, [])]
  {
    hide Break, TextItems, LinearItems;
  }

  /** An array whose brackets are open and whose items begin at `p`. */
  predicate InItems(cfg: Config, p: Parser, items: seq<Value>) {
    && Idle(p) && p.state == A_ && !p.expectingKey && p.stack != [] && p.stack[|p.stack| - 1] == MODE_ARRAY
    && ValidItems(items) && forall i :: 0 <= i < |items| ==> Fits(cfg, |p.stack|, items[i])
  }

  lemma {:induction false} ParsesItems(cfg: Config, p: Parser, items: seq<Value>, n: nat, level: int, pretty: bool)
    requires InItems(cfg, p, items) && 0 < n <= |items|
    ensures Reads(cfg, p, TextItems(items[..n], level, pretty),
            p.(state := OK, events := p.events + LinearItems(items[..n])))
    decreases items, n
  {
    hide Text, Linear, Break, Valid, Fits, Reads, TextItems, LinearItems;
    var v, init := items[n - 1], items[..n - 1];
    assert items[..n] == init + [v];
    ItemsSnoc(init, v);
    ItemsTextSnoc(init, v, level, pretty);
    var q := p.(state := if n == 1 then A_ else V_, events := p.events + LinearItems(init));
    ParsesText(cfg, q, v, level, pretty);
    ReadsBreak(cfg, q, Text(v, level, pretty), After(q, v), level, pretty);
    assert After(q, v) == p.(state := OK, events := p.events + LinearItems(items[..n]));
    var text := Break(level, pretty) + Text(v, level, pretty);
    if n == 1 {
      NothingListed(level, pretty);
      assert q == p && [] + text == text;
    } else {
      ParsesItems(cfg, p, items, n - 1, level, pretty);
      ReadsComma(cfg, p, TextItems(init, level, pretty), p.(state := OK, events := p.events + LinearItems(init)), q,
          text, After(q, v));
    }
  }

  lemma ReadsBreak(cfg: Config, q: Parser, text: seq<Byte>, r: Parser, level: int, pretty: bool)
    requires Skips(q.state) && q.left == 0 && q.multi == 0 && Reads(cfg, q, text, r)
    ensures Reads(cfg, q, Break(level, pretty) + text, r)
  {
    hide Feed, Break, Reads, EscapeReady;
    SkipBreak(cfg, q, level, pretty);
    ReadsThen(cfg, q, Break(level, pretty), q, text, r);
  }

  /** A comma after an item or a member, and then the next one. */
  lemma ReadsComma(cfg: Config, p: Parser, a: seq<Byte>, r: Parser, q: Parser, text: seq<Byte>, r2: Parser)
    requires Reads(cfg, p, a, r) && r.stack != [] && Reads(cfg, q, text, r2)
    requires q == if r.stack[|r.stack| - 1] == MODE_OBJECT then r.(expectingKey := true, state := K_)
             else r.(state := V_)
    ensures Reads(cfg, p, a + [COMMA] + text, r2)
  {
    hide Feed, Step, EscapeReady, Ended;
    var e := Feed(cfg, p, a).p;
    FeedThen(cfg, p, a, e, [COMMA]);
    EndedComma(cfg, e, r);
    FeedOne(cfg, e, COMMA);
    ReadsThen(cfg, p, a + [COMMA], q, text, r2);
  }

  lemma ItemsTextSnoc(items: seq<Value>, v: Value, level: int, pretty: bool)
    ensures TextItems(items + [v], level, pretty)
         == (if items == [] then [] else TextItems(items, level, pretty) + [COMMA])
             + (Break(level, pretty) + Text(v, level, pretty))
  {
    hide Break, Text;
    assert (items + [v])[..|items|] == items;
  }

  lemma {:induction false} ParsesObject(cfg: Config, p: Parser, members: seq<Member>, level: int, pretty: bool)
    requires BeforeContainer(p) && Valid(Object(members)) && Fits(cfg, |p.stack|, Object(members))
    ensures Reads(cfg, p, Text(Object(members), level, pretty), After(p, Object(members)))
    decreases Object(members), 0
  {
    hide Break, Reads, LinearMembers, TextMembers, Text, Linear, Valid, Fits, InMembers, Opened;
    ObjectOpens(cfg, p, members);
    ObjectText(members, level, pretty);
    var o := Opened(p, false);
    var r := o.(state := OK, expectingKey := false, events := o.events + LinearMembers(members));
    assert members[..|members|] == members;
    if members == [] {
      NoMembers(level + 1, pretty);
      assert r.events == o.events;
    } else {
      ParsesMembers(cfg, o, members, |members|, level + 1, pretty);
    }
    var brk := if members == [] then [] else Break(level, pretty);
    Enclosed(cfg, p, r, false, members == [], TextMembers(members, level + 1, pretty), brk, level, pretty);
    assert r.events + [Event(OBJECT_END, [])] == p.events + Linear(Object(members));
  }

  lemma ObjectOpens(cfg: Config, p: Parser, members: seq<Member>)
    requires BeforeContainer(p) && Valid(Object(members)) && Fits(cfg, |p.stack|, Object(members))
    ensures MayNest(cfg, |p.stack|) && InMembers(cfg, Opened(p, false), members) && Idle(Opened(p, false))
    ensures Opened(p, false).events == p.events + [Event(OBJECT_BEGIN, [])]
    ensures Opened(p, false) == p.(state := Opened(p, false).state, stack := Opened(p, false).stack,
            events := Opened(p, false).events,
                                  expectingKey := Opened(p, false).expectingKey)
  {
    hide FitsString, ValidString;
  }

  lemma ObjectText(members: seq<Member>, level: int, pretty: bool)
    ensures Text(Object(members), level, pretty)
         == [123] + TextMembers(members, level + 1, pretty) + (if members == [] then [] else Break(level, pretty))
             + [125]
    ensures Linear(Object(members))
         == [Event(OBJECT_BEGIN, [])] + LinearMembers(members) + [Event(OBJECT_END, [])]
  {
    hide Break, TextMembers, LinearMembers;
  }

  /** An object whose brackets are open and whose members begin at `p`. */
  predicate InMembers(cfg: Config, p: Parser, members: seq<Member>) {
    && Idle(p) && p.state == O_ && p.expectingKey && p.stack != [] && p.stack[|p.stack| - 1] == MODE_OBJECT
    && ValidMembers(members)
    && forall i :: 0 <= i < |members| ==> FitsString(cfg, members[i].key) && Fits(cfg, |p.stack|, members[i].value)
  }

  lemma {:induction false} ParsesMembers(cfg: Config, p: Parser, members: seq<Member>, n: nat, level: int, pretty: bool)
    requires InMembers(cfg, p, members) && 0 < n <= |members|
    ensures Reads(cfg, p, TextMembers(members[..n], level, pretty),
                  p.(state := OK, expectingKey := false, events := p.events + LinearMembers(members[..n])))
    decreases members, n
  {
    hide Text, Linear, Break, Valid, Fits, Reads, TextMembers, LinearMembers, ValidString, FitsString, Quoted, Colon;
    var m, init := members[n - 1], members[..n - 1];
    assert members[..n] == init + [m];
    MembersSnoc(init, m);
    MembersTextSnoc(init, m, level, pretty);
    var q := p.(state := if n == 1 then O_ else K_, events := p.events + LinearMembers(init));
    var q1 := q.(state := V_, expectingKey := false, events := q.events + [Event(KEY, m.key)]);
    var body := Quoted(m.key) + Colon(pretty) + Text(m.value, level, pretty);
    var r := p.(state := OK, expectingKey := false, events := p.events + LinearMembers(members[..n]));
    ParsesText(cfg, q1, m.value, level, pretty);
    assert After(q1, m.value) == r;
    ReadsKey(cfg, q, m.key, pretty, Text(m.value, level, pretty), r);
    ReadsBreak(cfg, q, body, r, level, pretty);
    var text := Break(level, pretty) + body;
    if n == 1 {
      NoMembers(level, pretty);
      assert q == p && [] + text == text;
    } else {
      ParsesMembers(cfg, p, members, n - 1, level, pretty);
      ReadsComma(cfg, p, TextMembers(init, level, pretty),
                 p.(state := OK, expectingKey := false, events := p.events + LinearMembers(init)), q, text, r);
    }
  }

  /** A key, its colon, and the value that follows. */
  lemma ReadsKey(cfg: Config, q: Parser, key: seq<Byte>, pretty: bool, text: seq<Byte>, r: Parser)
    requires Idle(q) && q.expectingKey && (q.state == O_ || q.state == K_) && ValidString(key) && FitsString(cfg, key)
    requires Reads(cfg, q.(state := V_, expectingKey := false, events := q.events + [Event(KEY, key)]), text, r)
    ensures Reads(cfg, q, Quoted(key) + Colon(pretty) + text, r)
  {
    hide Feed, Quoted, Colon, Reads, ValidString, FitsString;
    ParsesString(cfg, q, key);
    var c := q.(state := CO, expectingKey := false, events := q.events + [Event(KEY, key)]);
    var v := c.(state := V_);
    FeedThen(cfg, q, Quoted(key), c, Colon(pretty));
    ColonReads(cfg, c, pretty);
    ReadsThen(cfg, q, Quoted(key) + Colon(pretty), v, text, r);
  }

  lemma ColonReads(cfg: Config, p: Parser, pretty: bool)
    requires Idle(p) && p.state == CO
    ensures EscapeReady(p) && Feed(cfg, p, Colon(pretty)) == Run(p.(state := V_))
  {
    hide Feed;
    var v := p.(state := V_);
    assert Step(cfg, p, COLON) == Run(v);
    if pretty {
      BlankStep(cfg, v, SPACE);
      assert Colon(pretty) == [COLON] + [SPACE];
      StepThen(cfg, p, COLON, v, [SPACE]);
      FeedOne(cfg, v, SPACE);
    } else {
      FeedOne(cfg, p, COLON);
    }
  }

  lemma MembersTextSnoc(members: seq<Member>, m: Member, level: int, pretty: bool)
    ensures TextMembers(members + [m], level, pretty)
         == (if members == [] then [] else TextMembers(members, level, pretty) + [COMMA])
            + (Break(level, pretty) + (Quoted(m.key) + Colon(pretty) + Text(m.value, level, pretty)))
  {
    hide Break, Text, Quoted, Colon;
    assert (members + [m])[..|members|] == members;
  }

  // ----- The round trip -----

  /** When no bracket is open nothing waits to be emitted. */
  lemma OutsideIsSettled(q: Parser, r: Parser, d: Document)
    requires Agrees(q, d) && Ended(q, r) && r.stack == []
    ensures q == r
  {
    hide Sound, DocumentEvents;
    assert !d.Open? by {
      if d.Open? {
        TopMode(d);
      }
    }
  }

  /** Printing the events of a value, raw or pretty, and parsing the bytes in any chunks gives
      exactly those events, and a parser that is done. */
  lemma RoundTrip(cfg: Config, v: Value, pretty: bool, chunks: seq<seq<Byte>>)
    requires IsContainer(v) && Valid(v) && Fits(cfg, 0, v)
    requires Concat(chunks) == PrintAll(FRESH, Linear(v), pretty).out
    ensures EscapeReady(INIT)
    ensures FeedAll(cfg, INIT, chunks) == Run(After(INIT, v)) && After(INIT, v).events == Linear(v)
            && IsDone(After(INIT, v))
  {
    hide Feed, FeedAll, Text, Linear, Valid, Fits, PrintAll, Concat, EscapeReady, Ended;
    PrintsText(FRESH, v, pretty);
    var text := Text(v, 0, pretty);
    assert Concat(chunks) == text;
    ParsesText(cfg, INIT, v, 0, pretty);
    ChunksDoNotMatter(cfg, INIT, chunks);
    InitAgrees();
    var d := FeedAgrees(cfg, INIT, text, Empty);
    OutsideIsSettled(Feed(cfg, INIT, text).p, After(INIT, v), d);
    assert [] + Linear(v) == Linear(v);
  }

  lemma {:induction false} Unlimited(cfg: Config, depth: nat, v: Value)
    requires cfg.maxNesting == 0 && cfg.maxData == 0
    ensures Fits(cfg, depth, v)
    decreases v
  {
    match v
    case Array(items) =>
      forall i | 0 <= i < |items| ensures Fits(cfg, depth + 1, items[i]) {
        Unlimited(cfg, depth + 1, items[i]);
      }
    case Object(members) =>
      forall i | 0 <= i < |members| ensures FitsString(cfg, members[i].key) && Fits(cfg, depth + 1, members[i].value) {
        Unlimited(cfg, depth + 1, members[i].value);
      }
    case _ =>
  }

  /** Whatever was accepted as a whole document, with any spacing, escapes and comments, can be
      printed from its events and parsed again to the same events. */
  lemma Reprint(cfg: Config, chunks: seq<seq<Byte>>, free: Config, pretty: bool)
    requires EscapeReady(INIT) && FeedAll(cfg, INIT, chunks).Run?
    requires var p := FeedAll(cfg, INIT, chunks).p; IsDone(p) && !InLeadingComment(p)
    requires free.maxNesting == 0 && free.maxData == 0
    ensures var es := FeedAll(cfg, INIT, chunks).p.events;
            var o := Feed(free, INIT, PrintAll(FRESH, es, pretty).out);
            o.Run? && o.p.events == es && IsDone(o.p)
  {
    hide Feed, Linear, Valid, Fits, PrintAll, EscapeReady, INIT, IsContainer, IsDone, InLeadingComment;
    DoneIff(cfg, chunks);
    var es := FeedAll(cfg, INIT, chunks).p.events;
    var v :| Valid(v) && IsContainer(v) && es == Linear(v);
    Unlimited(free, 0, v);
    var text := PrintAll(FRESH, es, pretty).out;
    OneChunk(text);
    ChunksDoNotMatter(free, INIT, [text]);
    RoundTrip(free, v, pretty, [text]);
  }

  lemma OneChunk(text: seq<Byte>)
    ensures Concat([text]) == text
  {
    assert Concat([text][1..]) == [];
  }

  /** The printer object and the parser object one after the other: the events of a value are printed,
      and the bytes are parsed in chunks of the sizes `cuts`, the rest in one.  No chunk is refused, the
      parser emits the same events again, and it is done. */
  method PrintAndParse(cfg: Config, bufferInitialSize: nat, es: seq<Event>, pretty: bool, cuts: seq<nat>,
                       ghost v: Value)
    returns (printed: seq<Byte>, parsed: seq<Event>, failed: bool, done: bool)
    requires IsContainer(v) && Valid(v) && Fits(cfg, 0, v) && es == Linear(v)
    ensures printed == Text(v, 0, pretty) && parsed == es && !failed && done
  {
    hide *;
    var printer := new JsonPrinter();
    PrintNone(FRESH, pretty);
    assert es[..0] == [];
    for k := 0 to |es|
      invariant fresh(printer) && printer.View() == PrintAll(FRESH, es[..k], pretty)
    {
      PrintNext(es, k, pretty);
      printer.PrintMode(es[k], pretty);
    }
    assert es[..|es|] == es;
    printed := printer.out;
    OutIs(printer);
    WholeTrip(cfg, v, pretty, printed);
    var parser := new JsonParser(cfg, bufferInitialSize);
    var pos, k := 0, 0;
    failed := false;
    FeedNothing(cfg, INIT);
    while pos < |printed|
      invariant pos <= |printed| && k <= |cuts| && !failed
      invariant fresh(parser) && fresh(parser.stack) && fresh(parser.buffer) && parser.Room() && parser.cfg == cfg
      invariant EscapeReady(INIT) && EscapeReady(parser.View())
      invariant Feed(cfg, INIT, printed[..pos]) == Run(parser.View())
      decreases |printed| - pos, |cuts| - k
    {
      var n := if k < |cuts| && pos + cuts[k] < |printed| then cuts[k] else |printed| - pos;
      NextChunk(cfg, printed, pos, n, parser.View());
      var status, processed := parser.ParseString(printed[pos..pos + n]);
      RunSucceeds(Feed(cfg, INIT, printed[..pos + n]));
      failed := status.Failure?;
      pos := pos + n;
      k := if k < |cuts| then k + 1 else k;
    }
    assert printed[..|printed|] == printed;
    done := parser.IsFinished();
    parsed := parser.events;
    EventsOf(parser);
  }

  lemma PrintNext(es: seq<Event>, k: nat, pretty: bool)
    requires k < |es|
    ensures PrintAll(FRESH, es[..k + 1], pretty) == Print(PrintAll(FRESH, es[..k], pretty), es[k], pretty)
  {
    hide Print;
    assert es[..k + 1][..k] == es[..k];
  }

  lemma RunSucceeds(o: Outcome)
    ensures o.Run? ==> StatusOf(o) == Success
  {
  }

  lemma OutIs(printer: JsonPrinter)
    ensures printer.out == printer.View().out
  {
  }

  lemma EventsOf(parser: JsonParser)
    requires parser.Room()
    ensures parser.events == parser.View().events
  {
  }

  /** The whole text in one chunk. */
  lemma WholeTrip(cfg: Config, v: Value, pretty: bool, text: seq<Byte>)
    requires IsContainer(v) && Valid(v) && Fits(cfg, 0, v) && text == PrintAll(FRESH, Linear(v), pretty).out
    ensures text == Text(v, 0, pretty) && EscapeReady(INIT)
    ensures Feed(cfg, INIT, text).Run? && Feed(cfg, INIT, text).p.events == Linear(v)
            && IsDone(Feed(cfg, INIT, text).p)
  {
    hide Feed, FeedAll, Text, Linear, Valid, Fits, PrintAll, EscapeReady, IsDone, After, IsContainer;
    PrintsText(FRESH, v, pretty);
    OneChunk(text);
    RoundTrip(cfg, v, pretty, [text]);
    ChunksDoNotMatter(cfg, INIT, [text]);
  }

  /** A chunk of a text that is accepted as a whole is accepted. */
  lemma NextChunk(cfg: Config, text: seq<Byte>, pos: nat, n: nat, p: Parser)
    requires EscapeReady(INIT) && EscapeReady(p) && pos + n <= |text|
    requires Feed(cfg, INIT, text).Run? && Feed(cfg, INIT, text[..pos]) == Run(p)
    ensures Feed(cfg, p, text[pos..pos + n]).Run?
    ensures Feed(cfg, INIT, text[..pos + n]) == Feed(cfg, p, text[pos..pos + n])
  {
    hide Feed, EscapeReady;
    assert text[..pos + n] == text[..pos] + text[pos..pos + n];
    assert text == text[..pos + n] + text[pos + n..];
    FeedSplit(cfg, INIT, text[..pos], text[pos..pos + n]);
    FeedSplit(cfg, INIT, text[..pos + n], text[pos + n..]);
  }
}
