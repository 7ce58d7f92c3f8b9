/** What a Unicode escape leaves in the buffer (section 7 of RFC 8259, section 3 of RFC 3629). */
module JsonUnicode {
  import opened JsonTables
  import opened JsonLexemes
  import opened JsonMachine

  /** The UTF-8 encoding of a code point. */
  function Utf8(cp: nat): (s: seq<Byte>)
    requires cp < 0x110000
    ensures 1 <= |s| <= 4
  {
    if cp < 0x80 then [cp]
    else if cp < 0x800 then [0xc0 + cp / 0x40, 0x80 + cp % 0x40]
    else if cp < 0x10000 then [0xe0 + cp / 0x1000, 0x80 + (cp / 0x40) % 0x40, 0x80 + cp % 0x40]
    else [0xf0 + cp / 0x40000, 0x80 + (cp / 0x1000) % 0x40, 0x80 + (cp / 0x40) % 0x40, 0x80 + cp % 0x40]
  }

  function HeaderBits(h: Byte): int {
    var v: int := h;
    if v < 0x80 then v else if v < 0xe0 then v - 0xc0 else if v < 0xf0 then v - 0xe0 else v - 0xf0
  }

  /** The payload bits of a character: those of the header, then six for each continuation byte. */
  function Payload(s: seq<Byte>): int {
    if |s| == 0 then 0
    else if |s| == 1 then HeaderBits(s[0])
    else Payload(s[..|s| - 1]) * 0x40 + s[|s| - 1] - 0x80
  }

  /** The least code point that needs n bytes. */
  function Least(n: nat): nat {
    if n <= 1 then 0 else if n == 2 then 0x80 else if n == 3 then 0x800 else 0x10000
  }

  /** `s` is one character: a header that announces exactly its continuation bytes. */
  predicate IsCharacter(s: seq<Byte>) {
    s != [] && Utf8Header(s[0]) == |s| - 1 && forall i :: 1 <= i < |s| ==> IsContinuation(s[i])
  }

  lemma Sixes(cp: nat)
    ensures cp == (cp / 0x40) * 0x40 + cp % 0x40
    ensures (cp / 0x40) / 0x40 == cp / 0x1000
    ensures (cp / 0x1000) / 0x40 == cp / 0x40000
  {
  }

  lemma PayloadSnoc(s: seq<Byte>, ch: Byte)
    ensures s != [] ==> Payload(s + [ch]) == Payload(s) * 0x40 + ch - 0x80
    ensures Payload([ch]) == HeaderBits(ch)
  {
    assert (s + [ch])[..|s|] == s;
  }

  lemma Payload2(a: Byte, b: Byte)
    ensures Payload([a, b]) == HeaderBits(a) * 0x40 + b - 0x80
  {
    hide Payload, HeaderBits;
    PayloadSnoc([], a);
    PayloadSnoc([a], b);
    assert [a] + [b] == [a, b];
  }

  lemma Payload3(a: Byte, b: Byte, c: Byte)
    ensures Payload([a, b, c]) == (HeaderBits(a) * 0x40 + b - 0x80) * 0x40 + c - 0x80
  {
    hide Payload, HeaderBits;
    Payload2(a, b);
    PayloadSnoc([a, b], c);
    assert [a, b] + [c] == [a, b, c];
  }

  lemma Payload4(a: Byte, b: Byte, c: Byte, d: Byte)
    ensures Payload([a, b, c, d]) == ((HeaderBits(a) * 0x40 + b - 0x80) * 0x40 + c - 0x80) * 0x40 + d - 0x80
  {
    hide Payload, HeaderBits;
    Payload3(a, b, c);
    PayloadSnoc([a, b, c], d);
    assert [a, b, c] + [d] == [a, b, c, d];
  }

  /** The encoding carries the code point. */
  lemma Utf8Carries(cp: nat)
    requires cp < 0x110000
    ensures Payload(Utf8(cp)) == cp
  {
    hide Payload;
    Sixes(cp);
    Sixes(cp / 0x40);
    Sixes(cp / 0x1000);
    if cp < 0x80 {
      PayloadSnoc([], cp);
    } else if cp < 0x800 {
      Payload2(0xc0 + cp / 0x40, 0x80 + cp % 0x40);
    } else if cp < 0x10000 {
      Payload3(0xe0 + cp / 0x1000, 0x80 + (cp / 0x40) % 0x40, 0x80 + cp % 0x40);
    } else {
      Payload4(0xf0 + cp / 0x40000, 0x80 + (cp / 0x1000) % 0x40, 0x80 + (cp / 0x40) % 0x40, 0x80 + cp % 0x40);
    }
  }

  /** The encoding is one character, carries the code point and is as short as possible. */
  lemma Utf8Encodes(cp: nat)
    requires cp < 0x110000
    ensures IsCharacter(Utf8(cp)) && Payload(Utf8(cp)) == cp && Least(|Utf8(cp)|) <= cp
  {
    hide Payload;
    Utf8Carries(cp);
  }

  /** The code point of an escape `u`, after the high surrogate `multi` if that is not zero. */
  function CodePoint(multi: nat, u: nat): (cp: nat)
    requires u < 0x10000 && (multi != 0 ==> IsHighSurrogate(multi) && IsLowSurrogate(u))
    ensures cp < 0x110000
  {
    if multi == 0 then u else 0x10000 + (multi - 0xd800) * 0x400 + (u - 0xdc00)
  }

  /** The four digits are replaced by the encoding of the code point; a lone surrogate is refused. */
  lemma DecodesToUtf8(p: Parser)
    requires |p.buf| >= 4 && (p.multi == 0 || IsHighSurrogate(p.multi))
    ensures var u, q, o := LastHex(p.buf), p.(buf := p.buf[..|p.buf| - 4]), DecodeUnicode(p);
            if p.multi != 0 && !IsLowSurrogate(u) then o == Stop(q, MISSING_LOW_SURROGATE)
            else if p.multi == 0 && IsLowSurrogate(u) then o == Stop(q, UNEXPECTED_LOW_SURROGATE)
            else if p.multi == 0 && IsHighSurrogate(u) then o == Run(q.(multi := u))
            else o == Run(q.(multi := 0, buf := q.buf + Utf8(CodePoint(p.multi, u))))
  {
    hide HexValue, LastHex;
    if p.multi != 0 {
      HighBits(p.multi);
      if IsLowSurrogate(LastHex(p.buf)) {
        LowBits(LastHex(p.buf));
      }
    }
  }

  lemma HighBits(m: nat)
    requires IsHighSurrogate(m)
    ensures m % 0x400 == m - 0xd800
  {
  }

  lemma LowBits(m: nat)
    requires IsLowSurrogate(m)
    ensures m % 0x400 == m - 0xdc00
  {
  }

  lemma {:induction false} CharacterKeepsWhole(s: seq<Byte>, t: seq<Byte>, k: nat)
    requires Missing(s) == 0 && IsCharacter(t) && 1 <= k <= |t|
    ensures Missing(s + t[..k]) == |t| - k
  {
    hide Missing, Utf8Header, IsContinuation;
    if k == 1 {
      MissingSnoc(s, t[0]);
      assert t[..1] == [t[0]];
    } else {
      CharacterKeepsWhole(s, t, k - 1);
      assert s + t[..k] == (s + t[..k - 1]) + [t[k - 1]];
      MissingSnoc(s + t[..k - 1], t[k - 1]);
    }
  }

  lemma Utf8KeepsWhole(s: seq<Byte>, cp: nat)
    requires Missing(s) == 0 && cp < 0x110000
    ensures Missing(s + Utf8(cp)) == 0
  {
    hide Missing, Utf8, IsCharacter;
    Utf8Encodes(cp);
    CharacterKeepsWhole(s, Utf8(cp), |Utf8(cp)|);
    assert Utf8(cp)[..|Utf8(cp)|] == Utf8(cp);
  }

  // ----- Whole escapes -----

  predicate IsHexByte(ch: Byte) { ch < 128 && IsHex(CharacterClass(ch)) }

  predicate AllHex(h: seq<Byte>) { |h| == 4 && forall i :: 0 <= i < 4 ==> IsHexByte(h[i]) }

  /** The buffer may hold n bytes. */
  predicate RoomFor(cfg: Config, n: nat) { cfg.maxData == 0 || n < cfg.maxData }

  predicate IsHexDigit(ch: Byte) { 48 <= ch <= 57 || 65 <= ch <= 70 || 97 <= ch <= 102 }

  /** The value of a hexadecimal digit in either case. */
  function HexDigitValue(ch: Byte): (d: nat)
    requires IsHexDigit(ch)
    ensures d < 16
  {
    if ch <= 57 then ch - 48 else if ch <= 70 then 10 + (ch - 65) else 10 + (ch - 97)
  }

  predicate FourDigits(h: seq<Byte>) {
    |h| == 4 && IsHexDigit(h[0]) && IsHexDigit(h[1]) && IsHexDigit(h[2]) && IsHexDigit(h[3])
  }

  /** Four digits read as a number in base 16. */
  function Base16(h: seq<Byte>): (u: nat)
    requires FourDigits(h)
    ensures u < 0x10000
  {
    var high := HexDigitValue(h[0]) * 16 + HexDigitValue(h[1]);
    var low := HexDigitValue(h[2]) * 16 + HexDigitValue(h[3]);
    assert high < 256 && low < 256;
    high * 256 + low
  }

  /** The digits that the parser takes are the hexadecimal ones in either case, and it reads them in base 16. */
  lemma HexIsBase16(h: seq<Byte>)
    requires |h| == 4
    ensures AllHex(h) <==> FourDigits(h)
    ensures FourDigits(h) ==> LastHex(h) == Base16(h)
  {
    forall ch: Byte ensures IsHexByte(ch) <==> IsHexDigit(ch) {
      OneHexDigit(ch);
    }
    hide IsHexByte, IsHexDigit, HexValue, HexDigitValue;
    if FourDigits(h) {
      HexValueIs(h[0]);
      HexValueIs(h[1]);
      HexValueIs(h[2]);
      HexValueIs(h[3]);
    }
  }

  lemma OneHexDigit(ch: Byte)
    ensures IsHexByte(ch) <==> IsHexDigit(ch)
  {
  }

  lemma HexValueIs(ch: Byte)
    requires IsHexDigit(ch)
    ensures HexValue(ch) == HexDigitValue(ch)
  {
  }

  lemma HexStep(cfg: Config, p: Parser, ch: Byte)
    requires EscapeReady(p) && p.left == 0 && IsHexByte(ch) && RoomFor(cfg, |p.buf| + 1)
    ensures p.state == U1 || p.state == U2 || p.state == U3 ==>
            Step(cfg, p, ch) == Run(p.(state := p.state + 1, buf := p.buf + [ch]))
    ensures p.state == U4 ==> Step(cfg, p, ch) == Act(cfg, p.(buf := p.buf + [ch]), UC)
  {
    hide IsHex, CharacterClass, Act;
    HexIsNoError(ch);
  }

  lemma HexIsNoError(ch: Byte)
    requires IsHexByte(ch)
    ensures CharacterClass(ch) != C_ERROR && Utf8Header(ch) == 0
  {
    hide CharacterClass;
  }

  /** The digits of an escape, the last of which decodes it. */
  lemma FeedDigits(cfg: Config, p: Parser, h: seq<Byte>)
    requires p.state == U1 && p.left == 0 && p.multi < 0x10000 && AllHex(h) && RoomFor(cfg, |p.buf| + 4)
    ensures EscapeReady(p) && Feed(cfg, p, h) == Act(cfg, p.(state := U4, buf := p.buf + h), UC)
  {
    hide Step, Act, Feed, IsHexByte;
    var p1 := p.(state := U2, buf := p.buf + [h[0]]);
    var p2 := p1.(state := U3, buf := p1.buf + [h[1]]);
    var p3 := p2.(state := U4, buf := p2.buf + [h[2]]);
    HexStep(cfg, p, h[0]);
    HexStep(cfg, p1, h[1]);
    HexStep(cfg, p2, h[2]);
    HexStep(cfg, p3, h[3]);
    assert h == [h[0]] + ([h[1]] + ([h[2]] + [h[3]]));
    StepThen(cfg, p, h[0], p1, [h[1]] + ([h[2]] + [h[3]]));
    StepThen(cfg, p1, h[1], p2, [h[2]] + [h[3]]);
    StepThen(cfg, p2, h[2], p3, [h[3]]);
    FeedOne(cfg, p3, h[3]);
    assert p3.buf + [h[3]] == p.buf + h;
  }

  const ESCAPE: seq<Byte> := [92, 117]

  /** A backslash and a `u`, in a string or after a high surrogate. */
  lemma FeedEscape(cfg: Config, p: Parser)
    requires (p.state == S_ || p.state == D1) && p.left == 0 && p.multi < 0x10000
    ensures EscapeReady(p) && Feed(cfg, p, ESCAPE) == Run(p.(state := U1))
  {
    hide Feed;
    var p1 := p.(state := if p.state == S_ then E0 else D2);
    assert Step(cfg, p, 92) == Run(p1);
    assert Step(cfg, p1, 117) == Run(p.(state := U1));
    assert ESCAPE == [92] + [117];
    StepThen(cfg, p, 92, p1, [117]);
    FeedOne(cfg, p1, 117);
  }

  /** One escape: the encoding of its code point is appended; a low surrogate is refused and a
      high one is kept until its partner comes. */
  lemma EscapeDecodes(cfg: Config, p: Parser, h: seq<Byte>)
    requires (p.state == S_ && p.multi == 0) || (p.state == D1 && IsHighSurrogate(p.multi))
    requires p.left == 0 && p.kind == NONE && AllHex(h) && RoomFor(cfg, |p.buf| + 4)
    ensures EscapeReady(p)
    ensures var u, o := LastHex(h), Feed(cfg, p, ESCAPE + h);
            if p.multi != 0 && !IsLowSurrogate(u) then o.Stop? && o.error == MISSING_LOW_SURROGATE
            else if p.multi == 0 && IsLowSurrogate(u) then o.Stop? && o.error == UNEXPECTED_LOW_SURROGATE
            else if p.multi == 0 && IsHighSurrogate(u) then o == Run(p.(state := D1, multi := u))
            else o == Run(p.(state := S_, multi := 0, buf := p.buf + Utf8(CodePoint(p.multi, u))))
  {
    hide Step, Feed, LastHex, Utf8, ESCAPE, IsHexByte, DecodeUnicode, CodePoint;
    FeedEscape(cfg, p);
    FeedThen(cfg, p, ESCAPE, p.(state := U1), h);
    FeedDigits(cfg, p.(state := U1), h);
    var q := p.(state := U4, buf := p.buf + h);
    DecodesToUtf8(q);
    LastHexOf(p.buf, h);
    assert q.buf[..|q.buf| - 4] == p.buf;
  }

  lemma LastHexOf(buf: seq<Byte>, h: seq<Byte>)
    requires |h| == 4
    ensures LastHex(buf + h) == LastHex(h)
  {
    hide HexValue;
  }

  /** A surrogate pair appends the encoding of one code point beyond the basic plane. */
  lemma PairDecodes(cfg: Config, p: Parser, high: seq<Byte>, low: seq<Byte>)
    requires p.state == S_ && p.multi == 0 && p.left == 0 && p.kind == NONE && RoomFor(cfg, |p.buf| + 4)
    requires AllHex(high) && AllHex(low) && IsHighSurrogate(LastHex(high)) && IsLowSurrogate(LastHex(low))
    ensures EscapeReady(p)
    ensures Feed(cfg, p, ESCAPE + high + (ESCAPE + low))
         == Run(p.(buf := p.buf + Utf8(CodePoint(LastHex(high), LastHex(low)))))
  {
    hide Feed, LastHex, Utf8, ESCAPE, CodePoint, IsHexByte;
    EscapeDecodes(cfg, p, high);
    var q := p.(state := D1, multi := LastHex(high));
    FeedThen(cfg, p, ESCAPE + high, q, ESCAPE + low);
    EscapeDecodes(cfg, q, low);
  }

  /** After a high surrogate nothing but the escape of a low one is accepted. */
  lemma OnlyLowSurrogateFollows(cfg: Config, p: Parser, bytes: seq<Byte>)
    requires p.state == D1 && IsHighSurrogate(p.multi) && p.left == 0 && p.kind == NONE && |bytes| == 6
    ensures EscapeReady(p)
    ensures Feed(cfg, p, bytes).Run? ==>
            bytes[..2] == ESCAPE && AllHex(bytes[2..])
            && IsLowSurrogate(LastHex(bytes[2..]))
  {
    hide Step, Feed, LastHex, Utf8, CodePoint;
    OnlyEscapeFollows(cfg, p, bytes);
    if Feed(cfg, p, bytes).Run? {
      assert bytes == ESCAPE + bytes[2..];
      EscapeDecodes(cfg, p, bytes[2..]);
    }
  }

  lemma RunsFirst(cfg: Config, p: Parser, bytes: seq<Byte>)
    requires EscapeReady(p) && bytes != [] && Feed(cfg, p, bytes).Run?
    ensures Step(cfg, p, bytes[0]).Run?
    ensures EscapeReady(Step(cfg, p, bytes[0]).p) && Feed(cfg, Step(cfg, p, bytes[0]).p, bytes[1..])
            == Feed(cfg, p, bytes)
  {
    hide Step, EscapeReady;
    StepReady(cfg, p, bytes[0]);
  }

  lemma OnlyEscapeFollows(cfg: Config, p: Parser, bytes: seq<Byte>)
    requires p.state == D1 && IsHighSurrogate(p.multi) && p.left == 0 && |bytes| == 6
    ensures EscapeReady(p)
    ensures Feed(cfg, p, bytes).Run? ==> bytes[..2] == ESCAPE && AllHex(bytes[2..]) && RoomFor(cfg, |p.buf| + 4)
  {
    hide Step, Feed, IsHexByte;
    if Feed(cfg, p, bytes).Run? {
      RunsFirst(cfg, p, bytes);
      PairStep(cfg, p, bytes[0]);
      var p1 := p.(state := D2);
      RunsFirst(cfg, p1, bytes[1..]);
      PairStep(cfg, p1, bytes[1]);
      DigitsFollow(cfg, p.(state := U1), bytes[2..]);
      assert bytes[..2] == ESCAPE;
      assert bytes[1..][1..] == bytes[2..];
    }
  }

  lemma PairStep(cfg: Config, p: Parser, ch: Byte)
    requires p.left == 0 && EscapeReady(p)
    ensures p.state == D1 && Step(cfg, p, ch).Run? ==> ch == 92 && Step(cfg, p, ch) == Run(p.(state := D2))
    ensures p.state == D2 && Step(cfg, p, ch).Run? ==> ch == 117 && Step(cfg, p, ch) == Run(p.(state := U1))
  {
  }

  lemma DigitStep(cfg: Config, p: Parser, ch: Byte)
    requires p.left == 0 && EscapeReady(p) && (p.state == U1 || p.state == U2 || p.state == U3 || p.state == U4)
    ensures Step(cfg, p, ch).Run? ==> IsHexByte(ch) && RoomFor(cfg, |p.buf| + 1)
  {
    hide CharacterClass, Act, IsHex;
    NoHexOther();
  }

  lemma NoHexOther()
    ensures !IsHex(C_OTHER)
  {
  }

  lemma DigitsFollow(cfg: Config, p: Parser, h: seq<Byte>)
    requires p.state == U1 && p.left == 0 && p.multi < 0x10000 && |h| == 4
    ensures EscapeReady(p)
    ensures Feed(cfg, p, h).Run? ==> AllHex(h) && RoomFor(cfg, |p.buf| + 4)
  {
    hide Step, Feed, IsHexByte;
    if Feed(cfg, p, h).Run? {
      RunsFirst(cfg, p, h);
      DigitStep(cfg, p, h[0]);
      HexStep(cfg, p, h[0]);
      var p1 := p.(state := U2, buf := p.buf + [h[0]]);
      RunsFirst(cfg, p1, h[1..]);
      DigitStep(cfg, p1, h[1]);
      HexStep(cfg, p1, h[1]);
      var p2 := p1.(state := U3, buf := p1.buf + [h[1]]);
      RunsFirst(cfg, p2, h[1..][1..]);
      DigitStep(cfg, p2, h[2]);
      HexStep(cfg, p2, h[2]);
      var p3 := p2.(state := U4, buf := p2.buf + [h[2]]);
      RunsFirst(cfg, p3, h[1..][1..][1..]);
      DigitStep(cfg, p3, h[3]);
    }
  }
}
