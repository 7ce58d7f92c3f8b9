/** What the JSON parser has emitted, at every moment, is the beginning of one JSON value. */
module JsonInvariant {
  import opened JsonTables
  import opened JsonLexemes
  import opened JsonMachine
  import opened JsonUnicode
  import opened JsonGrammar

  /** The bytes buffered inside a number, by state. */
  predicate Spelled(s: State, kind: Kind, buf: seq<Byte>)
    requires InNumber(s)
  {
    if s == M0 then kind == INT && buf == [MINUS]
    else if s == Z0 then kind == INT && IsZero(buf)
    else if s == I0 then kind == INT && IsNonZero(buf)
    else if s == R1 then kind == FLOAT && IsPointed(buf)
    else if s == R2 then kind == FLOAT && IsFraction(buf)
    else if s == X1 then kind == FLOAT && EndsInE(buf)
    else if s == X2 then kind == FLOAT && EndsInSign(buf)
    else kind == FLOAT && IsExponential(buf)
  }

  /** The bytes buffered inside a string: whole characters except for `left` continuation
      bytes, and the digits of an escape. */
  predicate Texted(s: State, buf: seq<Byte>, left: nat, multi: nat) {
    && Missing(buf) == left
    && (left > 0 ==> s == S_)
    && |buf| >= Digits(s)
    && (forall i :: |buf| - Digits(s) <= i < |buf| ==> IsHexByte(buf[i]))
    && (multi != 0 ==> IsHighSurrogate(multi) && s != S_ && s != E0)
    && (s == D1 || s == D2 ==> multi != 0)
  }

  /** A value that has been recognised and not yet emitted. */
  predicate Recognised(kind: Kind, buf: seq<Byte>) {
    match kind
    case INT => IsInt(buf)
    case FLOAT => IsFloat(buf)
    case TRUE => buf == []
    case FALSE => buf == []
    case NULL => buf == []
    case NONE => buf == []
    case _ => false
  }

  function Held(kind: Kind, buf: seq<Byte>): Value
    requires Recognised(kind, buf) && kind != NONE
  {
    match kind
    case INT => Int(buf)
    case FLOAT => Float(buf)
    case TRUE => True
    case FALSE => False
    case NULL => Null
  }

  predicate Lexical(p: Parser) {
    match SectionOf(p.state)
    case BETWEEN => p.left == 0 && p.multi == 0 && Recognised(p.kind, p.buf) && (p.state != OK ==> p.kind == NONE)
    case STRINGS => p.kind == NONE && Texted(p.state, p.buf, p.left, p.multi)
    case NUMBERS => p.left == 0 && p.multi == 0 && Spelled(p.state, p.kind, p.buf)
    case LITERALS => p.left == 0 && p.multi == 0 && p.kind == NONE && p.buf == []
    case COMMENTS => p.multi == 0 && p.kind == NONE && p.buf == [] && (p.left > 0 ==> p.state == C2 || p.state == Y1)
  }

  /** Where a comment returns to. */
  function Effective(s: State, saved: State): State {
    if InComment(s) then (if IsPosition(saved) then saved else OK) else s
  }

  /** State `s` fits what has been read of the document. */
  predicate Stands(d: Document, s: State, key: bool, kind: Kind)
    requires Sound(d)
  {
    match d
    case Empty => s == GO && !key
    case Complete(_) => s == OK && !key && kind == NONE
    case Open(_) =>
      var f := Top(d);
      if s == OK then !key && if kind == NONE then Rested(f) else WantsValue(f)
      else if s == O_ || s == K_ then key && f.InObject? && Rested(f)
      else if s == CO then !key && f.InObject? && f.key.Key?
      else if s == V_ || InNumber(s) || InLiteral(s) then !key && WantsValue(f)
      else if s == A_ then !key && f.InArray?
      else InString(s) && if key then f.InObject? && Rested(f) else WantsValue(f)
  }

  /** The parser has emitted exactly the events of `d`, and its stack is its open brackets. */
  predicate Told(p: Parser, d: Document) {
    Sound(d) && p.events == DocumentEvents(d) && p.stack == OpenModes(d)
  }

  predicate Agrees(p: Parser, d: Document) {
    && Told(p, d)
    && Stands(d, Effective(p.state, p.saved), p.expectingKey, p.kind)
    && Lexical(p)
  }

  // ----- Flushing a recognised value -----

  /** The state a value ends in, wherever its end is noticed. */
  function Settled(s: State): State { if IsPosition(s) then s else OK }

  function Flushed(p: Parser, d: Document): Document
    requires Sound(d) && Recognised(p.kind, p.buf) && (p.kind != NONE ==> d.Open? && WantsValue(Top(d)))
  {
    if p.kind == NONE then d else Replace(d, Put(Top(d), Held(p.kind, p.buf)))
  }

  lemma HeldEvents(kind: Kind, buf: seq<Byte>)
    requires Recognised(kind, buf) && kind != NONE
    ensures HasValue(kind) && Linear(Held(kind, buf)) == [Event(kind, buf)] && Valid(Held(kind, buf))
  {
    hide IsInt, IsFloat;
  }

  lemma WholeIsRecognised(p: Parser)
    requires IsWhole(p.state) && Lexical(p)
    ensures Recognised(p.kind, p.buf) && p.kind != NONE && p.left == 0 && p.multi == 0
  {
    hide IsFraction, IsExponential, IsZero, IsNonZero;
  }

  /** Between tokens, or where a number may end. */
  predicate Flushable(p: Parser, d: Document) {
    && Told(p, d) && p.left == 0 && p.multi == 0
    && Recognised(p.kind, p.buf) && (IsPosition(p.state) || IsWhole(p.state))
    && (p.kind == NONE || p.state == OK || IsWhole(p.state))
    && (IsWhole(p.state) ==> p.kind != NONE)
    && Stands(d, p.state, p.expectingKey, p.kind)
  }

  lemma AgreesFlushable(p: Parser, d: Document)
    requires Agrees(p, d) && (IsPosition(p.state) || IsWhole(p.state))
    ensures Flushable(p, d)
  {
    hide Told, Stands, Spelled, Recognised, Texted;
    if IsWhole(p.state) {
      WholeIsRecognised(p);
    }
  }

  lemma FlushAgrees(p: Parser, d: Document)
    requires Flushable(p, d)
    ensures p.kind != NONE ==> d.Open? && WantsValue(Top(d))
    ensures Told(Flush(p), Flushed(p, d))
    ensures Stands(Flushed(p, d), Settled(p.state), p.expectingKey, NONE)
    ensures Flush(p).buf == []
  {
    hide Put, Recognised, Held, DocumentEvents, OpenModes, Linear, Sound, Top, Valid;
    if p.kind != NONE {
      HeldEvents(p.kind, p.buf);
      PutTop(d, Held(p.kind, p.buf));
    } else {
      assert !HasValue(p.kind);
      NoneHoldsNothing(p.buf);
      assert Flush(p).events == p.events;
    }
  }

  lemma NoneHoldsNothing(buf: seq<Byte>)
    ensures Recognised(NONE, buf) <==> buf == []
  {
  }

  // ----- Actions -----

  /** After a step the invariant holds; after an error what was emitted is still a document. */
  predicate Continues(o: Outcome, d: Document) {
    match o
    case Run(p) => Agrees(p, d)
    case Stop(p, _) => Sound(d) && p.events == DocumentEvents(d)
  }

  lemma IdleAgrees(p: Parser, d: Document)
    requires Told(p, d) && Stands(d, Effective(p.state, p.saved), p.expectingKey, NONE)
    requires p.kind == NONE && p.buf == [] && p.left == 0 && p.multi == 0 && (IsPosition(p.state) || InComment(p.state))
    ensures Agrees(p, d)
  {
    hide Told, Stands;
  }

  lemma TopMode(d: Document)
    requires d.Open? && Sound(d)
    ensures OpenModes(d) != [] && OpenModes(d)[|OpenModes(d)| - 1] == ModeOf(Top(d))
  {
    hide Nested, ValidFrames;
  }

  lemma CommaAgrees(cfg: Config, p: Parser, d: Document) returns (e: Document)
    requires Flushable(p, d) && (p.state == OK || IsWhole(p.state))
    ensures Continues(Act(cfg, p, SP), e)
  {
    hide Sound, DocumentEvents, OpenModes, Recognised, Flushed, Lexical, Agrees, Top;
    FlushAgrees(p, d);
    e := Flushed(p, d);
    if e.Open? {
      TopMode(e);
      IdleAgrees(Act(cfg, p, SP).p, e);
    } else {
      assert Flush(p).stack == [] by { NoModes(e); }
    }
  }

  lemma NoModes(d: Document)
    ensures !d.Open? ==> OpenModes(d) == []
  {
  }

  lemma BeginAgrees(cfg: Config, p: Parser, d: Document, a: Action) returns (e: Document)
    requires a == AB || a == OB
    requires Told(p, d) && p.left == 0 && p.multi == 0 && p.buf == []
    requires p.state == GO || p.state == V_ || p.state == A_
    requires Stands(d, p.state, p.expectingKey, p.kind)
    ensures Continues(Act(cfg, p, a), e)
  {
    hide Sound, DocumentEvents, OpenModes, Recognised, Lexical, Agrees, Top, FrameEvents;
    var f := if a == AB then InArray([]) else InObject([], NoKey);
    FreshFrame(f);
    assert Wants(d);
    BeginFrame(d, f);
    e := Begin(d, f);
    assert e.Open?;
    if Act(cfg, p, a).Run? {
      IdleAgrees(Act(cfg, p, a).p, e);
    }
  }

  lemma FreshFrame(f: Frame)
    requires f == InArray([]) || f == InObject([], NoKey)
    ensures ValidFrame(f)
    ensures FrameEvents(f) == [Event(if f.InArray? then ARRAY_BEGIN else OBJECT_BEGIN, [])]
  {
  }

  lemma EndAgrees(cfg: Config, p: Parser, d: Document, a: Action) returns (e: Document)
    requires a == AE || a == OE
    requires Flushable(p, d)
    requires p.state == OK || IsWhole(p.state) || p.state == if a == AE then A_ else O_
    ensures Continues(Act(cfg, p, a), e)
  {
    hide Sound, DocumentEvents, OpenModes, Recognised, Lexical, Agrees, Top, FrameEvents, Flushed, End;
    FlushAgrees(p, d);
    e := Flushed(p, d);
    if Act(cfg, p, a).Run? {
      NoModes(e);
      TopMode(e);
      EndFrame(e);
      EndStands(e);
      e := End(e);
      IdleAgrees(Act(cfg, p, a).p, e);
    }
  }

  lemma EndStands(d: Document)
    requires Sound(d) && d.Open? && Rested(Top(d))
    ensures Sound(End(d)) && Stands(End(d), OK, false, NONE)
  {
    hide Sound, Rested, Top, DocumentEvents, OpenModes, Close, Put;
    EndFrame(d);
  }

  lemma CommentAgrees(cfg: Config, p: Parser, d: Document, a: Action) returns (e: Document)
    requires a == CB || a == YB
    requires Flushable(p, d)
    ensures Continues(Act(cfg, p, a), e)
  {
    hide Sound, DocumentEvents, OpenModes, Recognised, Lexical, Agrees, Top, FrameEvents, Flushed, Stands;
    FlushAgrees(p, d);
    e := Flushed(p, d);
    if Act(cfg, p, a).Run? {
      IdleAgrees(Act(cfg, p, a).p, e);
    }
  }

  lemma StringAgrees(cfg: Config, p: Parser, d: Document) returns (e: Document)
    requires Agrees(p, d) && p.state == S_ && p.left == 0
    ensures Continues(Act(cfg, p, SE), e)
  {
    hide Sound, DocumentEvents, OpenModes, Recognised, Agrees, Linear, Missing, Put, Top;
    assert Told(p, d) && ValidString(p.buf) && p.multi == 0
           && Stands(d, S_, p.expectingKey, NONE) by { StringFacts(p, d); }
    if p.expectingKey {
      PutKey(d, p.buf);
      e := Replace(d, Top(d).(key := Key(p.buf)));
    } else {
      StringValue(p.buf);
      PutTop(d, Str(p.buf));
      e := Replace(d, Put(Top(d), Str(p.buf)));
    }
    IdleAgrees(Act(cfg, p, SE).p, e);
  }

  lemma StringValue(s: seq<Byte>)
    requires ValidString(s)
    ensures Valid(Str(s)) && Linear(Str(s)) == [Event(STRING, s)]
  {
  }

  lemma StringFacts(p: Parser, d: Document)
    requires Agrees(p, d) && p.state == S_ && p.left == 0
    ensures Told(p, d) && ValidString(p.buf) && p.multi == 0 && Stands(d, S_, p.expectingKey, NONE)
  {
    hide Told, Stands, Missing;
  }

  // ----- Steps -----

  /** The byte `ch` has class `c`, and `q` is the parser that has noted its UTF-8 header. */
  predicate Noted(p: Parser, q: Parser, c: Class, ch: Byte) {
    && q == p.(left := q.left)
    && c != C_ERROR
    && (if ch < 128 then c == CharacterClass(ch) && p.left == 0 && q.left == 0
        else c == C_OTHER && q.left == if p.left > 0 then p.left - 1 else Utf8Header(ch))
    && (p.left > 0 ==> IsContinuation(ch))
    && (p.left == 0 ==> Utf8Header(ch) >= 0)
  }

  lemma ClassifyNotes(p: Parser, ch: Byte)
    ensures var (q, c, valid) := Classify(p, ch); valid && c != C_ERROR ==> Noted(p, q, c, ch)
    ensures var (q, c, valid) := Classify(p, ch); q.events == p.events && (valid ==> q == p.(left := q.left))
  {
    hide CharacterClass;
  }

  lemma GotoPosition(p: Parser, s: State, d: Document)
    requires Agrees(p, d) && IsPosition(p.state)
    requires s == p.state || (s == S_ && (p.state == O_ || p.state == K_ || p.state == V_ || p.state == A_))
             || ((s == F1 || s == N1 || s == T1) && (p.state == V_ || p.state == A_))
    ensures Agrees(p.(state := s), d)
  {
    hide Sound, DocumentEvents, OpenModes, IsInt, IsFloat, IsHexByte, Rested;
    NoneHoldsNothing(p.buf);
  }

  lemma NumberBegins(cfg: Config, p: Parser, ch: Byte, a: Action, d: Document)
    requires Agrees(p, d) && (p.state == V_ || p.state == A_)
    requires (a == MX && ch == MINUS) || (a == ZX && ch == ZERO) || (a == IX && 49 <= ch <= 57)
    ensures Continues(Act(cfg, p.(buf := p.buf + [ch]), a), d)
  {
    hide Sound, DocumentEvents, OpenModes, IsInt, IsFloat, IsHexByte, Rested, Recognised;
    NoneHoldsNothing(p.buf);
    assert p.buf + [ch] == [ch];
  }

  lemma ClassBytes(ch: Byte)
    requires ch < 128
    ensures CharacterClass(ch) == C_MINUS ==> ch == MINUS
    ensures CharacterClass(ch) == C_PLUS ==> ch == PLUS
    ensures CharacterClass(ch) == C_DOT ==> ch == DOT
    ensures CharacterClass(ch) == C_ZERO ==> ch == ZERO
    ensures CharacterClass(ch) == C_DIGIT ==> 49 <= ch <= 57
    ensures CharacterClass(ch) == C_e ==> ch == 101
    ensures CharacterClass(ch) == C_E ==> ch == 69
  {
  }

  lemma PositionAct(cfg: Config, p: Parser, a: Action, d: Document) returns (e: Document)
    requires Agrees(p, d) && IsPosition(p.state)
    requires (a == KS && p.state == CO)
             || (a == SP && p.state == OK)
             || (a == AE && (p.state == OK || p.state == A_))
             || (a == OE && (p.state == OK || p.state == O_))
             || ((a == AB || a == OB) && (p.state == GO || p.state == V_ || p.state == A_))
             || a == CB || a == YB
    ensures Continues(Act(cfg, p, a), e)
  {
    hide Sound, DocumentEvents, OpenModes, Recognised, Top, Rested, Told, Continues, Flush, PushMode, PopMode, Stands;
    AgreesFlushable(p, d);
    if a == KS {
      e := d;
      ColonAgrees(cfg, p, d);
    } else if a == SP {
      e := CommaAgrees(cfg, p, d);
    } else if a == AB || a == OB {
      NoneHoldsNothing(p.buf);
      e := BeginAgrees(cfg, p, d, a);
    } else if a == AE || a == OE {
      e := EndAgrees(cfg, p, d, a);
    } else {
      e := CommentAgrees(cfg, p, d, a);
    }
  }

  lemma ColonAgrees(cfg: Config, p: Parser, d: Document)
    requires Agrees(p, d) && p.state == CO
    ensures Continues(Act(cfg, p, KS), d)
  {
    hide Sound, DocumentEvents, OpenModes, Recognised, Top;
  }

  lemma PositionStep(cfg: Config, p: Parser, q: Parser, c: Class, ch: Byte, d: Document) returns (e: Document)
    requires Agrees(p, d) && Noted(p, q, c, ch) && IsPosition(p.state) && EscapeReady(q)
    ensures Continues(Move(cfg, q, c, ch), e)
  {
    hide PositionRow, StringRow, NumberRow, LiteralRow, CommentRow, BufferPolicy, CharacterClass, Sound,
         DocumentEvents, OpenModes, Lexical, Stands, Act, Utf8Header, Effective;
    e := d;
    var n := PositionRow(p.state, c);
    if n != Reject {
      assert q == p;
      ClassBytes(ch);
      match n
      case Goto(s) => GotoPosition(p, s, d);
      case Do(a) =>
        if a == MX || a == ZX || a == IX {
          NumberBegins(cfg, p, ch, a, d);
        } else {
          e := PositionAct(cfg, p, a, d);
        }
    }
  }

  lemma LiteralStep(cfg: Config, p: Parser, q: Parser, c: Class, ch: Byte, d: Document)
    requires Agrees(p, d) && Noted(p, q, c, ch) && InLiteral(p.state) && EscapeReady(q)
    ensures Continues(Move(cfg, q, c, ch), d)
  {
    hide LiteralRow, BufferPolicy, CharacterClass, Sound, DocumentEvents, OpenModes, Utf8Header, Top,
         WantsValue, Texted, Spelled;
  }

  lemma CommentStep(cfg: Config, p: Parser, q: Parser, c: Class, ch: Byte, d: Document)
    requires Agrees(p, d) && Noted(p, q, c, ch) && InComment(p.state) && EscapeReady(q)
    ensures Continues(Move(cfg, q, c, ch), d)
  {
    hide CommentRow, BufferPolicy, CharacterClass, Sound, DocumentEvents, OpenModes, Utf8Header, Top,
         WantsValue, Texted, Spelled, Stands;
    NoneHoldsNothing(p.buf);
  }

  /** A byte that continues a number spells a longer one. */
  lemma NumberGrows(s: State, kind: Kind, buf: seq<Byte>, c: Class, ch: Byte)
    requires InNumber(s) && Spelled(s, kind, buf) && ch < 128 && c == CharacterClass(ch)
    ensures var n := NumberRow(s, c);
            && (n.Goto? && n.state != OK ==> Spelled(n.state, kind, buf + [ch]))
            && (n == Do(DE) ==> Spelled(X1, FLOAT, buf + [ch]))
            && (n == Do(DF) ==> Spelled(R1, FLOAT, buf + [ch]))
  {
    hide CharacterClass, IsZero, IsNonZero, IsPointed, IsFraction, EndsInE, EndsInSign, IsExponential,
         BufferPolicy, AllDigits;
    ClassBytes(ch);
    assert IsDigit(c) ==> IsDecimal(ch);
    if s == M0 {
      AfterMinus(ch);
    } else if s == Z0 || s == I0 {
      IntGrows(buf, ch);
    } else if s == R1 || s == R2 {
      if IsDigit(c) { FractionSnoc(buf, ch); } else { MantissaGrows(buf, ch); }
    } else if IsDigit(c) {
      ExponentSnoc(buf, ch);
    } else {
      SignGrows(buf, ch);
    }
  }

  lemma AfterMinus(ch: Byte)
    ensures ch == ZERO ==> IsZero([MINUS] + [ch])
    ensures 49 <= ch <= 57 ==> IsNonZero([MINUS] + [ch])
  {
    assert Unsigned([MINUS] + [ch]) == [ch];
  }

  lemma IntGrows(buf: seq<Byte>, ch: Byte)
    requires IsZero(buf) || IsNonZero(buf)
    ensures IsNonZero(buf) && IsDecimal(ch) ==> IsNonZero(buf + [ch])
    ensures ch == DOT ==> IsPointed(buf + [ch])
    ensures IsNonZero(buf) && (ch == 101 || ch == 69) ==> EndsInE(buf + [ch])
  {
    hide IsZero, IsNonZero, IsFraction;
    assert (buf + [ch])[..|buf|] == buf;
    if IsNonZero(buf) && IsDecimal(ch) {
      NonZeroSnoc(buf, ch);
    }
  }

  lemma MantissaGrows(buf: seq<Byte>, ch: Byte)
    ensures IsFraction(buf) && (ch == 101 || ch == 69) ==> EndsInE(buf + [ch])
  {
    hide IsZero, IsNonZero, IsFraction;
    assert (buf + [ch])[..|buf|] == buf;
  }

  lemma SignGrows(buf: seq<Byte>, ch: Byte)
    ensures EndsInE(buf) && (ch == PLUS || ch == MINUS) ==> EndsInSign(buf + [ch])
  {
    hide IsMantissa;
    assert (buf + [ch])[..|buf|] == buf;
  }

  lemma NumberStep(cfg: Config, p: Parser, q: Parser, c: Class, ch: Byte, d: Document) returns (e: Document)
    requires Agrees(p, d) && Noted(p, q, c, ch) && InNumber(p.state) && EscapeReady(q)
    ensures Continues(Move(cfg, q, c, ch), e)
  {
    hide PositionRow, StringRow, NumberRow, LiteralRow, CommentRow, BufferPolicy, CharacterClass, Sound,
         DocumentEvents, OpenModes, Stands, Act, Utf8Header, Effective, Spelled, Recognised, Texted;
    e := d;
    var n := NumberRow(p.state, c);
    if n != Reject {
      assert q == p;
      if IsWhole(p.state) {
        AgreesFlushable(p, d);
      }
      match n
      case Goto(s) =>
        if s == OK {
          NumberEnds(p, d);
        } else {
          NumberGrows(p.state, p.kind, p.buf, c, ch);
          StillNumber(p, s, p.kind, ch, d);
        }
      case Do(a) =>
        if a == DE || a == DF {
          NumberGrows(p.state, p.kind, p.buf, c, ch);
          BecomesFloat(cfg, p, a, ch, d);
        } else if a == SP {
          e := CommaAgrees(cfg, p, d);
        } else if a == AE || a == OE {
          e := EndAgrees(cfg, p, d, a);
        } else {
          e := CommentAgrees(cfg, p, d, a);
        }
    }
  }

  lemma NumberEnds(p: Parser, d: Document)
    requires Flushable(p, d) && IsWhole(p.state)
    ensures Agrees(p.(state := OK), d)
  {
    hide Sound, DocumentEvents, OpenModes, Recognised;
    assert d.Open?;
  }

  lemma StillNumber(p: Parser, s: State, kind: Kind, ch: Byte, d: Document)
    requires Agrees(p, d) && InNumber(p.state) && InNumber(s) && Spelled(s, kind, p.buf + [ch])
    ensures Agrees(p.(state := s, kind := kind, buf := p.buf + [ch]), d)
  {
    hide Sound, DocumentEvents, OpenModes, Spelled;
    assert d.Open?;
  }

  lemma BecomesFloat(cfg: Config, p: Parser, a: Action, ch: Byte, d: Document)
    requires Agrees(p, d) && InNumber(p.state) && (a == DE || a == DF)
    requires Spelled(if a == DE then X1 else R1, FLOAT, p.buf + [ch])
    ensures Continues(Act(cfg, p.(buf := p.buf + [ch]), a), d)
  {
    hide Agrees, Spelled;
    StillNumber(p, if a == DE then X1 else R1, FLOAT, ch, d);
  }

  /** A byte inside a string keeps what is buffered a text. */
  lemma TextGrows(cfg: Config, p: Parser, q: Parser, c: Class, ch: Byte)
    requires Noted(p, q, c, ch) && InString(p.state) && Texted(p.state, p.buf, p.left, p.multi)
    requires StringRow(p.state, c).Goto? && Buffer(cfg, q, c, ch).Run?
    ensures Texted(StringRow(p.state, c).state, Buffer(cfg, q, c, ch).p.buf, q.left, p.multi)
  {
    hide Missing, IsHex, CharacterClass, IsContinuation, Texted;
    if p.state == S_ {
      PlainByte(cfg, p, q, c, ch);
    } else if p.state == E0 || p.state == D1 || p.state == D2 {
      EscapedByte(cfg, p, q, c, ch);
    } else {
      HexGrows(p, q, c, ch);
    }
  }

  lemma PlainByte(cfg: Config, p: Parser, q: Parser, c: Class, ch: Byte)
    requires Noted(p, q, c, ch) && p.state == S_ && Texted(S_, p.buf, p.left, p.multi)
    requires StringRow(S_, c).Goto? && Buffer(cfg, q, c, ch).Run?
    ensures Texted(StringRow(S_, c).state, Buffer(cfg, q, c, ch).p.buf, q.left, p.multi)
  {
    hide Missing, IsHexByte, CharacterClass, IsContinuation, Utf8Header;
    AsciiHeader(ch);
    MissingSnoc(p.buf, ch);
  }

  lemma AsciiHeader(ch: Byte)
    ensures ch < 128 <==> Utf8Header(ch) == 0
  {
  }

  lemma EscapedByte(cfg: Config, p: Parser, q: Parser, c: Class, ch: Byte)
    requires Noted(p, q, c, ch) && (p.state == E0 || p.state == D1 || p.state == D2)
             && Texted(p.state, p.buf, p.left, p.multi)
    requires StringRow(p.state, c).Goto? && Buffer(cfg, q, c, ch).Run?
    ensures Texted(StringRow(p.state, c).state, Buffer(cfg, q, c, ch).p.buf, q.left, p.multi)
  {
    hide Missing, IsHexByte, CharacterClass, IsContinuation, Utf8Header;
    AsciiHeader(Unescape(ch));
    MissingSnoc(p.buf, Unescape(ch));
  }

  lemma HexIsAscii(p: Parser, q: Parser, c: Class, ch: Byte)
    requires Noted(p, q, c, ch) && IsHex(c)
    ensures IsHexByte(ch) && q.left == 0 && Utf8Header(ch) == 0
  {
    hide CharacterClass;
  }

  lemma HexGrows(p: Parser, q: Parser, c: Class, ch: Byte)
    requires Noted(p, q, c, ch) && Texted(p.state, p.buf, p.left, p.multi)
    requires IsHex(c) && (p.state == U1 || p.state == U2 || p.state == U3)
    ensures q.left == 0 && Texted(p.state + 1, p.buf + [ch], 0, p.multi)
  {
    hide Missing, IsHexByte, CharacterClass, IsContinuation, Utf8Header, IsHex;
    HexIsAscii(p, q, c, ch);
    MissingSnoc(p.buf, ch);
  }

  lemma {:induction false} DropHex(s: seq<Byte>, k: nat)
    requires k <= |s| && Missing(s) == 0 && forall i :: |s| - k <= i < |s| ==> IsHexByte(s[i])
    ensures Missing(s[..|s| - k]) == 0
    decreases k
  {
    hide Missing, IsHex;
    if k == 0 {
      assert s[..|s|] == s;
    } else {
      var t := s[..|s| - 1];
      assert s == t + [s[|s| - 1]];
      MissingSnoc(t, s[|s| - 1]);
      DropHex(t, k - 1);
      assert t[..|t| - (k - 1)] == s[..|s| - k];
    }
  }

  /** The fourth digit of an escape. */
  lemma DecodeAgrees(cfg: Config, p: Parser, ch: Byte, d: Document)
    requires Agrees(p, d) && p.state == U4 && p.left == 0 && IsHexByte(ch)
    ensures |p.buf| >= 3 && p.multi < 0x10000
    ensures Continues(Act(cfg, p.(buf := p.buf + [ch]), UC), d)
  {
    hide Sound, DocumentEvents, OpenModes, Missing, IsHexByte, DecodeUnicode, LastHex, Utf8, CodePoint,
         Rested, WantsValue, Top;
    var q := p.(buf := p.buf + [ch]);
    AsciiHeader(ch);
    assert Missing(q.buf) == 0 by {
      MissingSnoc(p.buf, ch);
      HexHeader(ch);
    }
    DropHex(q.buf, 4);
    DecodesToUtf8(q);
    var base, u := q.buf[..|q.buf| - 4], LastHex(q.buf);
    if p.multi == 0 || IsLowSurrogate(u) {
      Utf8KeepsWhole(base, CodePoint(p.multi, u));
    }
  }

  lemma HexHeader(ch: Byte)
    requires IsHexByte(ch)
    ensures Utf8Header(ch) == 0
  {
    hide IsHex, CharacterClass;
  }

  lemma StillString(p: Parser, s: State, buf: seq<Byte>, left: nat, d: Document)
    requires Agrees(p, d) && InString(p.state) && InString(s) && Texted(s, buf, left, p.multi)
    ensures Agrees(p.(state := s, buf := buf, left := left), d)
  {
    hide Sound, DocumentEvents, OpenModes, Texted, Rested, WantsValue, Top;
    assert d.Open?;
  }

  lemma StringStep(cfg: Config, p: Parser, q: Parser, c: Class, ch: Byte, d: Document) returns (e: Document)
    requires Agrees(p, d) && Noted(p, q, c, ch) && InString(p.state) && EscapeReady(q)
    ensures Continues(Move(cfg, q, c, ch), e)
  {
    hide PositionRow, StringRow, NumberRow, LiteralRow, CommentRow, BufferPolicy, CharacterClass, Sound,
         DocumentEvents, OpenModes, Stands, Act, Utf8Header, Effective, Texted, IsHex;
    e := d;
    var n := StringRow(p.state, c);
    if n != Reject && Buffer(cfg, q, c, ch).Run? {
      match n
      case Goto(s) =>
        TextGrows(cfg, p, q, c, ch);
        StillString(p, s, Buffer(cfg, q, c, ch).p.buf, q.left, d);
      case Do(a) =>
        AsciiHeader(ch);
        NotOther();
        assert q == p;
        if a == SE {
          e := StringAgrees(cfg, p, d);
        } else {
          HexIsAscii(p, q, c, ch);
          HexIsAppended(c);
          DecodeAgrees(cfg, p, ch, d);
        }
    }
  }

  lemma NotOther()
    ensures !IsHex(C_OTHER) && C_OTHER != C_QUOTE
  {
  }

  lemma HexIsAppended(c: Class)
    requires IsHex(c)
    ensures BufferPolicy(U4, c) == Append
  {
    hide IsHex;
  }

  /** One byte keeps the invariant. */
  lemma StepAgrees(cfg: Config, p: Parser, ch: Byte, d: Document) returns (e: Document)
    requires Agrees(p, d) && EscapeReady(p)
    ensures Continues(Step(cfg, p, ch), e)
  {
    hide Agrees, CharacterClass, Move, Utf8Header, IsContinuation, Noted, Sound, DocumentEvents;
    ClassifyNotes(p, ch);
    var (q, c, valid) := Classify(p, ch);
    e := d;
    if valid && c != C_ERROR {
      assert EscapeReady(q);
      match SectionOf(p.state)
      case BETWEEN => e := PositionStep(cfg, p, q, c, ch, d);
      case STRINGS => e := StringStep(cfg, p, q, c, ch, d);
      case NUMBERS => e := NumberStep(cfg, p, q, c, ch, d);
      case LITERALS => LiteralStep(cfg, p, q, c, ch, d);
      case COMMENTS => CommentStep(cfg, p, q, c, ch, d);
    } else {
      AgreesTold(p, d);
    }
  }

  lemma AgreesTold(p: Parser, d: Document)
    requires Agrees(p, d)
    ensures Sound(d) && p.events == DocumentEvents(d)
  {
  }

  lemma {:induction false} FeedAgrees(cfg: Config, p: Parser, bytes: seq<Byte>, d: Document) returns (e: Document)
    requires Agrees(p, d) && EscapeReady(p)
    ensures Continues(Feed(cfg, p, bytes), e)
    decreases |bytes|
  {
    hide Agrees, Step, EscapeReady, Sound, DocumentEvents;
    e := d;
    if bytes != [] {
      e := StepAgrees(cfg, p, bytes[0], d);
      StepReady(cfg, p, bytes[0]);
      if Step(cfg, p, bytes[0]).Run? {
        e := FeedAgrees(cfg, Step(cfg, p, bytes[0]).p, bytes[1..], e);
      }
    }
  }

  lemma InitAgrees()
    ensures Agrees(INIT, Empty) && EscapeReady(INIT)
  {
  }

  /** json_parser_string over a list of chunks. */
  function FeedAll(cfg: Config, p: Parser, chunks: seq<seq<Byte>>): (o: Outcome)
    requires EscapeReady(p)
    ensures o.Run? ==> EscapeReady(o.p)
    decreases |chunks|
  {
    hide Feed, EscapeReady;
    if chunks == [] then Run(p) else
      match Feed(cfg, p, chunks[0])
      case Stop(q, e) => Stop(q, e)
      case Run(q) => FeedAll(cfg, q, chunks[1..])
  }

  function Concat(chunks: seq<seq<Byte>>): seq<Byte> {
    if chunks == [] then [] else chunks[0] + Concat(chunks[1..])
  }

  /** Only the bytes matter, not how they were cut. */
  lemma {:induction false} ChunksDoNotMatter(cfg: Config, p: Parser, chunks: seq<seq<Byte>>)
    requires EscapeReady(p)
    ensures FeedAll(cfg, p, chunks) == Feed(cfg, p, Concat(chunks))
    decreases |chunks|
  {
    hide Step, EscapeReady;
    if chunks != [] {
      FeedSplit(cfg, p, chunks[0], Concat(chunks[1..]));
      if Feed(cfg, p, chunks[0]).Run? {
        ChunksDoNotMatter(cfg, Feed(cfg, p, chunks[0]).p, chunks[1..]);
      }
    }
  }

  /** For any bytes in any chunks, with or without an error at the end: the events are a prefix
      of those of one well-spelled array or object. */
  lemma EventsArePrefix(cfg: Config, chunks: seq<seq<Byte>>)
    ensures EscapeReady(INIT)
    ensures exists v :: Valid(v) && IsContainer(v) && Prefix(FeedAll(cfg, INIT, chunks).p.events, Linear(v))
  {
    hide Feed, FeedAll, EscapeReady, Valid, Linear, IsContainer, Prefix, DocumentEvents, Sound, INIT, Agrees, Concat;
    InitAgrees();
    ChunksDoNotMatter(cfg, INIT, chunks);
    var d := FeedAgrees(cfg, INIT, Concat(chunks), Empty);
    var o := Feed(cfg, INIT, Concat(chunks));
    if o.Run? {
      AgreesTold(o.p, d);
    }
    SoundIsPrefix(d);
  }

  /** Every array or object that was opened and not closed, innermost last, is on the stack. */
  lemma StackIsOpenBrackets(cfg: Config, chunks: seq<seq<Byte>>)
    requires EscapeReady(INIT) && FeedAll(cfg, INIT, chunks).Run?
    ensures exists d :: Agrees(FeedAll(cfg, INIT, chunks).p, d)
  {
    hide Feed, FeedAll, EscapeReady, INIT, Agrees, Concat;
    InitAgrees();
    ChunksDoNotMatter(cfg, INIT, chunks);
    var d := FeedAgrees(cfg, INIT, Concat(chunks), Empty);
  }

  /** json_parser_is_done. */
  predicate IsDone(p: Parser) { p.stack == [] && p.state != GO }

  ghost predicate IsWholeDocument(events: seq<Event>) {
    exists v :: Valid(v) && IsContainer(v) && events == Linear(v)
  }

  /** A comment before the document. */
  predicate InLeadingComment(p: Parser) { InComment(p.state) && p.saved == GO }

  /** One complete value has been emitted exactly when the parser says that it is done and is not
      inside a comment that precedes the document. */
  lemma DoneIff(cfg: Config, chunks: seq<seq<Byte>>)
    requires EscapeReady(INIT) && FeedAll(cfg, INIT, chunks).Run?
    ensures var p := FeedAll(cfg, INIT, chunks).p;
            IsWholeDocument(p.events) <==> IsDone(p) && !InLeadingComment(p)
  {
    hide Feed, FeedAll, EscapeReady, INIT, Agrees, Concat, IsWholeDocument, IsDone, InLeadingComment;
    StackIsOpenBrackets(cfg, chunks);
    var p := FeedAll(cfg, INIT, chunks).p;
    var d :| Agrees(p, d);
    DoneDocument(p, d);
  }

  lemma DoneDocument(p: Parser, d: Document)
    requires Agrees(p, d)
    ensures IsWholeDocument(p.events) <==> IsDone(p) && !InLeadingComment(p)
  {
    hide Linear, Lexical, Valid, IsContainer, FramesEvents, Depth;
    match d
    case Complete(v) => assert Valid(v) && IsContainer(v) && p.events == Linear(v);
    case Empty =>
      if IsWholeDocument(p.events) {
        var v :| Valid(v) && IsContainer(v) && p.events == Linear(v);
        LinearNotEmpty(v);
      }
    case Open(fs) =>
      FramesDepth(fs);
      if IsWholeDocument(p.events) {
        var v :| Valid(v) && IsContainer(v) && p.events == Linear(v);
        LinearDepth(v);
      }
  }

  lemma LinearNotEmpty(v: Value)
    ensures Linear(v) != []
  {
  }

  /** How many brackets are open after some events. */
  function Depth(events: seq<Event>): int {
    if events == [] then 0 else
      var kind := events[|events| - 1].kind;
      Depth(events[..|events| - 1])
      + (if kind == ARRAY_BEGIN || kind == OBJECT_BEGIN then 1 else if kind == ARRAY_END
          || kind == OBJECT_END then -1 else 0)
  }

  lemma {:induction false} DepthSum(a: seq<Event>, b: seq<Event>)
    ensures Depth(a + b) == Depth(a) + Depth(b)
    decreases |b|
  {
    if b == [] {
      assert a + b == a;
    } else {
      DepthSum(a, b[..|b| - 1]);
      assert (a + b)[..|a + b| - 1] == a + b[..|b| - 1];
    }
  }

  lemma DepthOne(e: Event)
    ensures Depth([e]) == if e.kind == ARRAY_BEGIN || e.kind == OBJECT_BEGIN then 1
                          else if e.kind == ARRAY_END || e.kind == OBJECT_END then -1 else 0
  {
    assert [e][..0] == [];
  }

  lemma {:induction false} LinearDepth(v: Value)
    ensures Depth(Linear(v)) == 0
  {
    hide Depth, LinearItems, LinearMembers;
    match v
    case Array(items) =>
      ItemsDepth(items);
      Brackets(Event(ARRAY_BEGIN, []), LinearItems(items), Event(ARRAY_END, []));
    case Object(members) =>
      MembersDepth(members);
      Brackets(Event(OBJECT_BEGIN, []), LinearMembers(members), Event(OBJECT_END, []));
    case _ => DepthOne(Linear(v)[0]);
  }

  lemma Brackets(a: Event, inner: seq<Event>, b: Event)
    ensures Depth([a] + inner + [b]) == Depth([a]) + Depth(inner) + Depth([b])
    ensures Depth([a]) == if a.kind == ARRAY_BEGIN || a.kind == OBJECT_BEGIN then 1
                          else if a.kind == ARRAY_END || a.kind == OBJECT_END then -1 else 0
    ensures Depth([b]) == if b.kind == ARRAY_BEGIN || b.kind == OBJECT_BEGIN then 1
                          else if b.kind == ARRAY_END || b.kind == OBJECT_END then -1 else 0
  {
    hide Depth;
    DepthSum([a], inner);
    DepthSum([a] + inner, [b]);
    DepthOne(a);
    DepthOne(b);
  }

  lemma {:induction false} ItemsDepth(items: seq<Value>)
    ensures Depth(LinearItems(items)) == 0
  {
    hide Linear;
    if items != [] {
      var n := |items| - 1;
      ItemsDepth(items[..n]);
      LinearDepth(items[n]);
      DepthSum(LinearItems(items[..n]), Linear(items[n]));
    }
  }

  lemma {:induction false} MembersDepth(members: seq<Member>)
    ensures Depth(LinearMembers(members)) == 0
  {
    hide Linear;
    if members != [] {
      var m, rest := members[|members| - 1], members[..|members| - 1];
      MembersDepth(rest);
      LinearDepth(m.value);
      DepthOne(Event(KEY, m.key));
      DepthSum(LinearMembers(rest), [Event(KEY, m.key)]);
      DepthSum(LinearMembers(rest) + [Event(KEY, m.key)], Linear(m.value));
    }
  }

  lemma FrameDepth(f: Frame)
    ensures Depth(FrameEvents(f)) == 1
  {
    hide Depth, LinearItems, LinearMembers;
    match f
    case InArray(items) =>
      ItemsDepth(items);
      DepthOne(Event(ARRAY_BEGIN, []));
      DepthSum([Event(ARRAY_BEGIN, [])], LinearItems(items));
    case InObject(members, key) =>
      MembersDepth(members);
      DepthOne(Event(OBJECT_BEGIN, []));
      DepthSum([Event(OBJECT_BEGIN, [])], LinearMembers(members));
      if key.Key? {
        DepthOne(Event(KEY, key.bytes));
        DepthSum([Event(OBJECT_BEGIN, [])] + LinearMembers(members), [Event(KEY, key.bytes)]);
      } else {
        assert FrameEvents(f) == [Event(OBJECT_BEGIN, [])] + LinearMembers(members);
      }
  }

  /** As many brackets are open as there are frames. */
  lemma {:induction false} FramesDepth(fs: seq<Frame>)
    ensures Depth(FramesEvents(fs)) == |fs|
  {
    hide FrameEvents;
    if fs != [] {
      var n := |fs| - 1;
      FramesDepth(fs[..n]);
      FrameDepth(fs[n]);
      DepthSum(FramesEvents(fs[..n]), FrameEvents(fs[n]));
    }
  }
}
