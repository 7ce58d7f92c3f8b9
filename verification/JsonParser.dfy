/** The JSON parser of src/json/json.c: a stack and a buffer that grow, and one byte at a time. */
module JsonParsing {
  import opened JsonTables
  import opened JsonMachine
  import opened JsonInvariant

  const DEFAULT_STACK_SIZE: nat := 256
  const DEFAULT_BUFFER_SIZE: nat := 4096

  datatype Status = Success | Failure(error: Error)

  function StatusOf(o: Outcome): Status {
    if o.Run? then Success else Failure(o.error)
  }

  lemma PushModeError(cfg: Config, p: Parser, mode: Mode)
    ensures PushMode(cfg, p, mode).Stop? ==> PushMode(cfg, p, mode).error == NESTING_LIMIT
  {
  }

  lemma BufferError(cfg: Config, p: Parser, c: Class, ch: Byte)
    ensures Buffer(cfg, p, c, ch).Stop? ==> Buffer(cfg, p, c, ch) == Stop(p, DATA_LIMIT)
    ensures Buffer(cfg, p, c, ch).Run? ==> Buffer(cfg, p, c, ch).p == p.(buf := Buffer(cfg, p, c, ch).p.buf)
  {
    hide BufferPolicy, Unescape;
  }

  lemma ClassifyReady(p: Parser, ch: Byte)
    requires EscapeReady(p)
    ensures EscapeReady(Classify(p, ch).0)
  {
    hide CharacterClass, Utf8Header;
  }

  class JsonParser {
    const cfg: Config
    var state: State
    var saved: State
    var expectingKey: bool
    var left: nat
    var multi: nat
    var kind: Kind
    var stack: array<Mode>
    var stackOffset: nat
    var buffer: array<Byte>
    var bufferOffset: nat
    var events: seq<Event>

    /** The offsets are inside their arrays, with one slot of the buffer kept for a terminator,
        and the arrays respect the configured limits. */
    ghost predicate Room()
      reads this
    {
      && stackOffset <= stack.Length && 0 < stack.Length
      && (cfg.maxNesting > 0 ==> stack.Length == cfg.maxNesting)
      && bufferOffset < buffer.Length
      && (cfg.maxData > 0 ==> buffer.Length <= cfg.maxData)
    }

    ghost function View(): Parser
      reads this, stack, buffer
      requires Room()
    {
      Parser(state, saved, expectingKey, left, multi, kind, stack[..stackOffset], buffer[..bufferOffset], events)
    }

    constructor (config: Config, bufferInitialSize: nat)
      ensures cfg == config && Room() && View() == INIT && fresh(stack) && fresh(buffer)
    {
      cfg := config;
      state, saved, expectingKey, left, multi, kind, events := GO, GO, false, 0, 0, NONE, [];
      stackOffset, bufferOffset := 0, 0;
      var stackSize := if config.maxNesting > 0 then config.maxNesting else DEFAULT_STACK_SIZE;
      stack := new Mode[stackSize](_ => MODE_ARRAY);
      var size := if bufferInitialSize > 0 then bufferInitialSize else DEFAULT_BUFFER_SIZE;
      if config.maxData > 0 && size > config.maxData {
        size := config.maxData;
      }
      buffer := new Byte[size](_ => 0);
    }

    /** buffer_grow: double, but not beyond the limit. */
    method BufferGrow() returns (ok: bool)
      requires Room()
      modifies this`buffer
      ensures Room() && View() == old(View())
      ensures ok <==> !(cfg.maxData > 0 && old(buffer.Length) == cfg.maxData)
      ensures buffer == old(buffer) || fresh(buffer)
      ensures ok ==> buffer.Length > old(buffer.Length)
    {
      if cfg.maxData > 0 && buffer.Length == cfg.maxData {
        return false;
      }
      var newSize := buffer.Length * 2;
      if cfg.maxData > 0 && newSize > cfg.maxData {
        newSize := cfg.maxData;
      }
      ghost var was := buffer[..bufferOffset];
      var oldBuffer, n := buffer, buffer.Length;
      var grown := new Byte[newSize](i => 0);
      for i := 0 to n
        invariant buffer == oldBuffer && oldBuffer.Length == n && n <= grown.Length
        invariant forall k :: 0 <= k < i ==> grown[k] == oldBuffer[k]
        invariant fresh(grown) && unchanged(oldBuffer)
      {
        grown[i] := oldBuffer[i];
      }
      buffer := grown;
      assert buffer[..bufferOffset] == was;
      ok := true;
    }

    /** buffer_push: the byte is appended unless the limit is reached, and a slot stays free. */
    method BufferPush(ch: Byte) returns (ok: bool)
      requires Room()
      modifies this`buffer, this`bufferOffset, buffer
      ensures Room()
      ensures ok == Push(cfg, old(View()), ch).Run? && View() == Push(cfg, old(View()), ch).p
      ensures buffer == old(buffer) || fresh(buffer)
    {
      ok := true;
      if bufferOffset + 1 >= buffer.Length {
        ok := BufferGrow();
      }
      if ok {
        ghost var was := buffer[..bufferOffset];
        buffer[bufferOffset] := ch;
        bufferOffset := bufferOffset + 1;
        assert buffer[..bufferOffset] == was + [ch];
      }
    }

    /** state_push, with state_grow. */
    method StatePush(mode: Mode) returns (ok: bool)
      requires Room()
      modifies this`stack, this`stackOffset, stack
      ensures Room()
      ensures ok == PushMode(cfg, old(View()), mode).Run? && View() == PushMode(cfg, old(View()), mode).p
      ensures stack == old(stack) || fresh(stack)
    {
      ok := true;
      if stackOffset >= stack.Length {
        if cfg.maxNesting != 0 {
          return false;
        }
        var n, oldStack := stack.Length, stack;
        ghost var was := stack[..stackOffset];
        var grown := new Mode[n * 2](i => MODE_ARRAY);
        for i := 0 to n
          invariant stack == oldStack && oldStack.Length == n && n <= grown.Length
          invariant forall k :: 0 <= k < i ==> grown[k] == oldStack[k]
          invariant fresh(grown) && unchanged(oldStack) && unchanged(this)
        {
          grown[i] := oldStack[i];
        }
        stack := grown;
        assert stack[..stackOffset] == was;
      }
      ghost var was := stack[..stackOffset];
      stack[stackOffset] := mode;
      stackOffset := stackOffset + 1;
      assert stack[..stackOffset] == was + [mode];
    }

    /** state_pop. */
    method StatePop(mode: Mode) returns (status: Status)
      requires Room()
      modifies this`stackOffset
      ensures Room() && View() == PopMode(old(View()), mode).p && status == StatusOf(PopMode(old(View()), mode))
    {
      if stackOffset == 0 {
        return Failure(POP_EMPTY);
      }
      stackOffset := stackOffset - 1;
      assert old(stack[..stackOffset])[..stackOffset] == stack[..stackOffset];
      status := if stack[stackOffset] != mode then Failure(POP_UNEXPECTED_MODE) else Success;
    }

    /** do_callback. */
    method Callback(k: Kind)
      requires Room()
      modifies this`events
      ensures Room() && View() == Emit(old(View()), k)
    {
      events := events + [Event(k, [])];
    }

    /** do_callback_withbuf: the buffer is terminated in its free slot first. */
    method CallbackWithBuffer(k: Kind)
      requires Room()
      modifies this`events, buffer
      ensures Room() && View() == EmitBuffer(old(View()), k)
      ensures buffer[bufferOffset] == 0
    {
      buffer[bufferOffset] := 0;
      assert buffer[..bufferOffset] == old(buffer[..bufferOffset]);
      events := events + [Event(k, buffer[..bufferOffset])];
    }

    /** do_buffer. */
    method DoBuffer()
      requires Room()
      modifies this`events, this`bufferOffset, buffer
      ensures Room() && View() == Flush(old(View()))
    {
      if HasValue(kind) {
        CallbackWithBuffer(kind);
      }
      bufferOffset := 0;
    }

    /** Writes bytes, one after the other, into the space that the digits of an escape had. */
    method Put(bytes: seq<Byte>, ghost limit: nat)
      requires Room() && bufferOffset + |bytes| <= limit < buffer.Length
      modifies this`bufferOffset, buffer
      ensures Room() && View() == old(View()).(buf := old(View()).buf + bytes)
      ensures forall i :: limit <= i < buffer.Length ==> buffer[i] == old(buffer[i])
    {
      ghost var start := bufferOffset;
      for i := 0 to |bytes|
        invariant bufferOffset == start + i && start + |bytes| <= limit < buffer.Length
        invariant buffer[..start] == old(buffer[..bufferOffset])
        invariant buffer[start..start + i] == bytes[..i]
        invariant forall k :: limit <= k < buffer.Length ==> buffer[k] == old(buffer[k])
      {
        buffer[bufferOffset] := bytes[i];
        bufferOffset := bufferOffset + 1;
        assert buffer[start..start + i + 1] == bytes[..i] + [bytes[i]];
      }
      assert bytes[..|bytes|] == bytes;
      assert buffer[..bufferOffset] == buffer[..start] + buffer[start..bufferOffset];
    }

    /** The second half of decode_unicode_char: nothing is written beyond the four digits. */
    method PlaceCharacter(uval: nat, ghost limit: nat) returns (status: Status)
      requires Room() && bufferOffset + 4 == limit < buffer.Length && multi < 0x10000 && uval < 0x10000
      modifies this`bufferOffset, this`multi, buffer
      ensures Room() && View() == Encode(old(View()), uval).p && status == StatusOf(Encode(old(View()), uval))
      ensures forall i :: limit <= i < buffer.Length ==> buffer[i] == old(buffer[i])
    {
      status := Success;
      if multi == 0 && uval < 0x80 {
        Put([uval], limit);
      } else if multi != 0 {
        if !IsLowSurrogate(uval) {
          return Failure(MISSING_LOW_SURROGATE);
        }
        var u := 0x10000 + (multi % 0x400) * 0x400 + uval % 0x400;
        Put([0xf0 + u / 0x40000, 0x80 + (u / 0x1000) % 0x40, 0x80 + (u / 0x40) % 0x40, 0x80 + u % 0x40], limit);
        multi := 0;
      } else if IsLowSurrogate(uval) {
        return Failure(UNEXPECTED_LOW_SURROGATE);
      } else if IsHighSurrogate(uval) {
        multi := uval;
      } else if uval < 0x800 {
        Put([0xc0 + uval / 0x40, 0x80 + uval % 0x40], limit);
      } else {
        Put([0xe0 + uval / 0x1000, 0x80 + (uval / 0x40) % 0x40, 0x80 + uval % 0x40], limit);
      }
    }

    /** decode_unicode_char. */
    method DecodeUnicodeChar() returns (status: Status)
      requires Room() && bufferOffset >= 4 && multi < 0x10000
      modifies this`bufferOffset, this`multi, buffer
      ensures Room() && View() == DecodeUnicode(old(View())).p && status == StatusOf(DecodeUnicode(old(View())))
      ensures forall i :: old(bufferOffset) <= i < buffer.Length ==> buffer[i] == old(buffer[i])
    {
      hide HexValue, Encode;
      ghost var was := View();
      var n := bufferOffset;
      var uval: nat := HexValue(buffer[n - 4]) * 4096 + HexValue(buffer[n - 3]) * 256 + HexValue(buffer[n - 2]) * 16
          + HexValue(buffer[n - 1]);
      assert uval == LastHex(was.buf);
      bufferOffset := bufferOffset - 4;
      assert View().buf == was.buf[..n - 4];
      status := PlaceCharacter(uval, n);
    }

    /** Moves to the next state with the pending kind that the action leaves. */
    method Enter(s: State, k: Kind)
      requires Room()
      modifies this`state, this`kind
      ensures Room() && View() == old(View()).(state := s, kind := k)
    {
      state, kind := s, k;
    }

    /** act_sp. */
    method Separate() returns (status: Status)
      requires Room()
      modifies this, stack, buffer
      ensures (stack == old(stack) || fresh(stack)) && (buffer == old(buffer) || fresh(buffer))
      ensures Room() && View() == Act(cfg, old(View()), SP).p && status == StatusOf(Act(cfg, old(View()), SP))
    {
      hide Flush;
      DoBuffer();
      if stackOffset == 0 {
        return Failure(COMMA_OUT_OF_STRUCTURE);
      }
      assert View().stack[|View().stack| - 1] == stack[stackOffset - 1];
      if stack[stackOffset - 1] == MODE_OBJECT {
        expectingKey := true;
        Enter(K_, NONE);
      } else {
        Enter(V_, NONE);
      }
      status := Success;
    }

    /** act_ab and act_ob. */
    method Begin(a: Action) returns (status: Status)
      requires Room() && (a == AB || a == OB)
      modifies this, stack, buffer
      ensures (stack == old(stack) || fresh(stack)) && (buffer == old(buffer) || fresh(buffer))
      ensures Room() && View() == Act(cfg, old(View()), a).p && status == StatusOf(Act(cfg, old(View()), a))
    {
      hide PushMode;
      Callback(if a == AB then ARRAY_BEGIN else OBJECT_BEGIN);
      ghost var before := View();
      var ok := StatePush(if a == AB then MODE_ARRAY else MODE_OBJECT);
      PushModeError(cfg, before, if a == AB then MODE_ARRAY else MODE_OBJECT);
      if !ok {
        return Failure(NESTING_LIMIT);
      }
      if a == OB {
        expectingKey := true;
      }
      Enter(if a == AB then A_ else O_, NONE);
      status := Success;
    }

    /** act_ae and act_oe. */
    method End(a: Action) returns (status: Status)
      requires Room() && (a == AE || a == OE)
      modifies this, stack, buffer
      ensures (stack == old(stack) || fresh(stack)) && (buffer == old(buffer) || fresh(buffer))
      ensures Room() && View() == Act(cfg, old(View()), a).p && status == StatusOf(Act(cfg, old(View()), a))
    {
      hide Flush, PopMode;
      DoBuffer();
      status := StatePop(if a == AE then MODE_ARRAY else MODE_OBJECT);
      if status.Failure? {
        return;
      }
      Callback(if a == AE then ARRAY_END else OBJECT_END);
      if a == OE {
        expectingKey := false;
      }
      Enter(OK, NONE);
    }

    /** act_cb and act_yb. */
    method Comment(a: Action) returns (status: Status)
      requires Room() && (a == CB || a == YB)
      modifies this, stack, buffer
      ensures (stack == old(stack) || fresh(stack)) && (buffer == old(buffer) || fresh(buffer))
      ensures Room() && View() == Act(cfg, old(View()), a).p && status == StatusOf(Act(cfg, old(View()), a))
    {
      hide Flush;
      DoBuffer();
      if !(if a == CB then cfg.allowC else cfg.allowYaml) {
        return Failure(COMMENT_NOT_ALLOWED);
      }
      saved := state;
      Enter(if a == CB then C1 else Y1, NONE);
      status := Success;
    }

    /** act_se. */
    method StringEnd() returns (status: Status)
      requires Room()
      modifies this, stack, buffer
      ensures (stack == old(stack) || fresh(stack)) && (buffer == old(buffer) || fresh(buffer))
      ensures Room() && View() == Act(cfg, old(View()), SE).p && status == StatusOf(Act(cfg, old(View()), SE))
    {
      CallbackWithBuffer(if expectingKey then KEY else STRING);
      bufferOffset := 0;
      Enter(if expectingKey then CO else OK, NONE);
      expectingKey := false;
      status := Success;
    }

    /** act_uc. */
    method Unicode() returns (status: Status)
      requires Room() && bufferOffset >= 4 && multi < 0x10000
      modifies this, stack, buffer
      ensures (stack == old(stack) || fresh(stack)) && (buffer == old(buffer) || fresh(buffer))
      ensures Room() && View() == Act(cfg, old(View()), UC).p && status == StatusOf(Act(cfg, old(View()), UC))
    {
      hide DecodeUnicode;
      status := DecodeUnicodeChar();
      if status.Failure? {
        return;
      }
      Enter(if multi != 0 then D1 else S_, NONE);
    }

    /** do_action. */
    method DoAction(a: Action) returns (status: Status)
      requires Room() && (a == UC ==> bufferOffset >= 4 && multi < 0x10000)
      modifies this, stack, buffer
      ensures (stack == old(stack) || fresh(stack)) && (buffer == old(buffer) || fresh(buffer))
      ensures Room() && View() == Act(cfg, old(View()), a).p && status == StatusOf(Act(cfg, old(View()), a))
    {
      hide Flush, PushMode, PopMode, DecodeUnicode, EmitBuffer, Emit;
      status := Success;
      if a == SP {
        status := Separate();
      } else if a == AB || a == OB {
        status := Begin(a);
      } else if a == AE || a == OE {
        status := End(a);
      } else if a == CB || a == YB {
        status := Comment(a);
      } else if a == SE {
        status := StringEnd();
      } else if a == UC {
        status := Unicode();
      } else if a == CE {
        Enter(if IsPosition(saved) then saved else OK, NONE);
      } else if a == KS {
        Enter(V_, NONE);
      } else if a == FA || a == TR || a == NU {
        Enter(OK, if a == FA then FALSE else if a == TR then TRUE else NULL);
      } else if a == DE || a == DF {
        Enter(if a == DE then X1 else R1, FLOAT);
      } else {
        Enter(if a == MX then M0 else if a == ZX then Z0 else I0, INT);
      }
    }

    /** The part of the loop body that looks a byte up. */
    method NextClass(ch: Byte) returns (c: Class, status: Status)
      requires Room()
      modifies this`left
      ensures Room()
      ensures var (q, k, valid) := Classify(old(View()), ch);
              View() == q && c == k && status == if !valid then Failure(UTF8)
                  else if k == C_ERROR then Failure(BAD_CHAR) else Success
    {
      hide CharacterClass;
      c := C_OTHER;
      if left > 0 {
        if !IsContinuation(ch) {
          return c, Failure(UTF8);
        }
        left := left - 1;
      } else {
        if Utf8Header(ch) < 0 {
          left := 0xff;
          return c, Failure(UTF8);
        }
        left := Utf8Header(ch);
        if left == 0 {
          c := CharacterClass(ch);
          if c == C_ERROR {
            return c, Failure(BAD_CHAR);
          }
        }
      }
      status := Success;
    }

    /** The part of the loop body that buffers a byte. */
    method BufferByte(c: Class, ch: Byte) returns (ok: bool)
      requires Room()
      modifies this`buffer, this`bufferOffset, buffer
      ensures Room() && View() == Buffer(cfg, old(View()), c, ch).p && ok == Buffer(cfg, old(View()), c, ch).Run?
      ensures buffer == old(buffer) || fresh(buffer)
    {
      hide Push, BufferPolicy, Unescape;
      ok := true;
      match BufferPolicy(state, c)
      case Ignore =>
      case Append => ok := BufferPush(ch);
      case Escape => ok := BufferPush(Unescape(ch));
    }

    /** The body of the loop. */
    method Next(ch: Byte) returns (status: Status)
      requires Room() && EscapeReady(View())
      modifies this, stack, buffer
      ensures (stack == old(stack) || fresh(stack)) && (buffer == old(buffer) || fresh(buffer))
      ensures Room() && View() == Step(cfg, old(View()), ch).p && status == StatusOf(Step(cfg, old(View()), ch))
    {
      hide Classify, Act, Push, BufferPolicy, Unescape, Buffer, Transition, EscapeReady;
      ghost var p := View();
      var c: Class;
      c, status := NextClass(ch);
      if status.Failure? {
        return;
      }
      ghost var q := View();
      ClassifyReady(p, ch);
      var next := Transition(state, c);
      if next == Reject {
        return Failure(UNEXPECTED_CHAR);
      }
      var ok := BufferByte(c, ch);
      BufferError(cfg, q, c, ch);
      if !ok {
        return Failure(DATA_LIMIT);
      }
      if next.Do? {
        DigitsReady(cfg, q, c, ch);
        status := DoAction(next.action);
      } else {
        state := next.state;
      }
    }

    /** json_parser_string: the chunk is fed byte by byte until the first error. */
    method ParseString(s: seq<Byte>) returns (status: Status, processed: nat)
      requires Room() && EscapeReady(View())
      modifies this, stack, buffer
      ensures (stack == old(stack) || fresh(stack)) && (buffer == old(buffer) || fresh(buffer))
      ensures Room() && View() == Feed(cfg, old(View()), s).p && status == StatusOf(Feed(cfg, old(View()), s))
      ensures processed <= |s| && (status.Success? <==> processed == |s|)
      ensures status.Success? ==> EscapeReady(View())
      ensures Feed(cfg, old(View()), s[..processed]).Run?
    {
      hide Step, EscapeReady;
      ghost var p := View();
      processed := 0;
      assert s[..0] == [];
      while processed < |s|
        invariant processed <= |s| && Room()
        invariant (stack == old(stack) || fresh(stack)) && (buffer == old(buffer) || fresh(buffer))
        invariant EscapeReady(View()) && Feed(cfg, p, s[..processed]) == Run(View())
      {
        ghost var q := View();
        ghost var done, rest := s[..processed], s[processed..];
        assert s == done + rest && rest[0] == s[processed] && s[..processed + 1] == done + [s[processed]];
        FeedSplit(cfg, p, done, rest);
        FeedSplit(cfg, p, done, [s[processed]]);
        FeedOne(cfg, q, s[processed]);
        StepReady(cfg, q, s[processed]);
        status := Next(s[processed]);
        if status.Failure? {
          return;
        }
        processed := processed + 1;
      }
      assert s[..processed] == s;
      status := Success;
    }

    /** json_parser_is_done. */
    method IsFinished() returns (done: bool)
      requires Room()
      ensures done == IsDone(View())
    {
      done := stackOffset == 0 && state != GO;
    }
  }

  /** A slash alone: the parser claims to be done although nothing has been emitted. */
  lemma DoneTooEarly()
    ensures EscapeReady(INIT)
    ensures var o := Feed(Config(0, 0, true, false), INIT, [47]);
            o.Run? && IsDone(o.p) && o.p.events == [] && InLeadingComment(o.p)
  {
    FeedOne(Config(0, 0, true, false), INIT, 47);
  }
}
