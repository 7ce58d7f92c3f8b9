/** Every way to write an array or object is accepted: any blanks around tokens, every escape, any case
    of hexadecimal digits.  What a text means is told here without the tables of the parser. */
module JsonAcceptance {
  import opened JsonTables
  import opened JsonLexemes
  import opened JsonMachine
  import opened JsonGrammar
  import opened JsonUnicode
  import opened JsonInvariant
  import opened JsonPrinting
  import opened JsonRoundTrip

  // ----- Characters of a string -----

  /** How a character is written: as its own bytes, with a short escape, with its number, or with the
      numbers of a surrogate pair. */
  datatype Char =
    | Raw(bytes: seq<Byte>)
    | Short(letter: Byte)
    | Number(h: seq<Byte>)
    | Pair(high: seq<Byte>, low: seq<Byte>)

  predicate IsTrail(ch: Byte) { 0x80 <= ch < 0xc0 }

  /** One printable character other than the quote and the backslash, or a sequence of two to four bytes as
      UTF-8 has them. */
  predicate IsRaw(s: seq<Byte>) {
    || (|s| == 1 && 32 <= s[0] < 128 && s[0] != 34 && s[0] != 92)
    || (|s| == 2 && 0xc0 <= s[0] < 0xe0 && IsTrail(s[1]))
    || (|s| == 3 && 0xe0 <= s[0] < 0xf0 && IsTrail(s[1]) && IsTrail(s[2]))
    || (|s| == 4 && 0xf0 <= s[0] < 0xf8 && IsTrail(s[1]) && IsTrail(s[2]) && IsTrail(s[3]))
  }

  /** The letters of short escapes: quote, backslash, slash, and those for backspace, form feed, line feed,
      carriage return and tab. */
  predicate IsShort(l: Byte) {
    l == 34 || l == 92 || l == 47 || l == 98 || l == 102 || l == 110 || l == 114 || l == 116
  }

  function ShortMeans(l: Byte): Byte {
    if l == 98 then 8 else if l == 102 then 12 else if l == 110 then 10 else if l == 114 then 13
    else if l == 116 then 9 else l
  }

  predicate IsChar(c: Char) {
    match c
    case Raw(s) => IsRaw(s)
    case Short(l) => IsShort(l)
    case Number(h) => FourDigits(h) && !(0xd800 <= Base16(h) < 0xe000)
    case Pair(a, b) => FourDigits(a) && FourDigits(b) && 0xd800 <= Base16(a) < 0xdc00 && 0xdc00 <= Base16(b) < 0xe000
  }

  function CharText(c: Char): seq<Byte> {
    match c
    case Raw(s) => s
    case Short(l) => [92] + [l]
    case Number(h) => [92, 117] + h
    case Pair(a, b) => [92, 117] + a + ([92, 117] + b)
  }

  function CharMeans(c: Char): seq<Byte>
    requires IsChar(c)
  {
    match c
    case Raw(s) => s
    case Short(l) => [ShortMeans(l)]
    case Number(h) => Utf8(Base16(h))
    case Pair(a, b) => Utf8(0x10000 + (Base16(a) - 0xd800) * 0x400 + (Base16(b) - 0xdc00))
  }

  /** The room that a character needs while it is read. */
  function Room(c: Char): nat {
    match c
    case Raw(s) => |s|
    case Short(_) => 1
    case Number(_) => 4
    case Pair(_, _) => 4
  }

  predicate AreChars(cs: seq<Char>) { forall i :: 0 <= i < |cs| ==> IsChar(cs[i]) }

  function CharsText(cs: seq<Char>): seq<Byte> {
    if cs == [] then [] else CharsText(cs[..|cs| - 1]) + CharText(cs[|cs| - 1])
  }

  function CharsMean(cs: seq<Char>): seq<Byte>
    requires AreChars(cs)
  {
    if cs == [] then [] else CharsMean(cs[..|cs| - 1]) + CharMeans(cs[|cs| - 1])
  }

  predicate CharsFit(cfg: Config, cs: seq<Char>)
    requires AreChars(cs)
  {
    cs == [] || (CharsFit(cfg, cs[..|cs| - 1])
                 && RoomFor(cfg, |CharsMean(cs[..|cs| - 1])| + Room(cs[|cs| - 1])))
  }

  predicate InsideString(p: Parser) { p.state == S_ && p.multi == 0 && p.left == 0 && p.kind == NONE }

  lemma FeedChar(cfg: Config, p: Parser, c: Char)
    requires InsideString(p) && IsChar(c) && RoomFor(cfg, |p.buf| + Room(c))
    ensures EscapeReady(p) && Feed(cfg, p, CharText(c)) == Run(p.(buf := p.buf + CharMeans(c)))
  {
    hide Feed, Step, RoomFor, Utf8, IsRaw, IsShort, FourDigits, Base16;
    match c
    case Raw(s) =>
      RawShape(s);
      FeedRaw(cfg, p, s, |s|);
      assert s[..|s|] == s;
    case Short(l) => FeedLetter(cfg, p, l);
    case Number(h) => FeedNumber(cfg, p, h);
    case Pair(a, b) => FeedPair(cfg, p, a, b);
  }

  lemma FeedNumber(cfg: Config, p: Parser, h: seq<Byte>)
    requires InsideString(p) && FourDigits(h) && !(0xd800 <= Base16(h) < 0xe000) && RoomFor(cfg, |p.buf| + 4)
    ensures EscapeReady(p) && Feed(cfg, p, [92, 117] + h) == Run(p.(buf := p.buf + Utf8(Base16(h))))
  {
    hide Feed, RoomFor, Utf8, FourDigits, Base16, AllHex, LastHex;
    HexLength(h);
    HexIsBase16(h);
    EscapeDecodes(cfg, p, h);
  }

  lemma HexLength(h: seq<Byte>)
    requires FourDigits(h)
    ensures |h| == 4
  {
  }

  lemma FeedPair(cfg: Config, p: Parser, a: seq<Byte>, b: seq<Byte>)
    requires InsideString(p) && FourDigits(a) && FourDigits(b) && RoomFor(cfg, |p.buf| + 4)
    requires 0xd800 <= Base16(a) < 0xdc00 && 0xdc00 <= Base16(b) < 0xe000
    ensures EscapeReady(p)
    ensures Feed(cfg, p, [92, 117] + a + ([92, 117] + b))
            == Run(p.(buf := p.buf + Utf8(0x10000 + (Base16(a) - 0xd800) * 0x400 + (Base16(b) - 0xdc00))))
  {
    hide Feed, RoomFor, Utf8, FourDigits, Base16, AllHex, LastHex;
    HexLength(a);
    HexLength(b);
    HexIsBase16(a);
    HexIsBase16(b);
    PairDecodes(cfg, p, a, b);
  }

  lemma RawShape(s: seq<Byte>)
    requires IsRaw(s)
    ensures s != [] && Utf8Header(s[0]) == |s| - 1 && s[0] >= 32 && s[0] != QUOTE && s[0] != BACKSLASH
    ensures forall i :: 1 <= i < |s| ==> IsContinuation(s[i]) && s[i] >= 128
  {
  }

  lemma {:induction false} FeedRaw(cfg: Config, p: Parser, s: seq<Byte>, k: nat)
    requires InsideString(p) && 1 <= k <= |s| && RoomFor(cfg, |p.buf| + |s|)
    requires Utf8Header(s[0]) == |s| - 1 && s[0] >= 32 && s[0] != QUOTE && s[0] != BACKSLASH
    requires forall i :: 1 <= i < |s| ==> IsContinuation(s[i]) && s[i] >= 128
    ensures EscapeReady(p) && Feed(cfg, p, s[..k]) == Run(p.(buf := p.buf + s[..k], left := |s| - k))
    decreases k
  {
    hide Feed, Step, Utf8Header, IsContinuation;
    if k == 1 {
      assert s[..1] == [s[0]];
      RawStep(cfg, p, s[0]);
      FeedOne(cfg, p, s[0]);
    } else {
      FeedRaw(cfg, p, s, k - 1);
      var q := p.(buf := p.buf + s[..k - 1], left := |s| - (k - 1));
      assert s[..k] == s[..k - 1] + [s[k - 1]];
      RawStep(cfg, q, s[k - 1]);
      FeedThen(cfg, p, s[..k - 1], q, [s[k - 1]]);
      FeedOne(cfg, q, s[k - 1]);
      assert q.buf + [s[k - 1]] == p.buf + s[..k];
    }
  }

  lemma FeedLetter(cfg: Config, p: Parser, l: Byte)
    requires InsideString(p) && IsShort(l) && RoomFor(cfg, |p.buf| + 1)
    ensures EscapeReady(p) && Feed(cfg, p, [92] + [l]) == Run(p.(buf := p.buf + [ShortMeans(l)]))
  {
    hide Feed;
    var q := p.(state := E0);
    assert Step(cfg, p, 92) == Run(q);
    LetterReads(cfg, q, l);
    StepThen(cfg, p, 92, q, [l]);
    FeedOne(cfg, q, l);
  }

  lemma LetterReads(cfg: Config, q: Parser, l: Byte)
    requires q.state == E0 && q.multi == 0 && q.left == 0 && IsShort(l) && RoomFor(cfg, |q.buf| + 1)
    ensures EscapeReady(q) && Step(cfg, q, l) == Run(q.(state := S_, buf := q.buf + [ShortMeans(l)]))
  {
    assert l < 128 && BufferPolicy(E0, CharacterClass(l)) == Escape && Unescape(l) == ShortMeans(l);
    assert Transition(E0, CharacterClass(l)) == Goto(S_) && CharacterClass(l) != C_ERROR;
    hide CharacterClass, Unescape, ShortMeans, Transition, BufferPolicy;
  }

  lemma {:induction false} FeedChars(cfg: Config, p: Parser, cs: seq<Char>)
    requires InsideString(p) && p.buf == [] && AreChars(cs) && CharsFit(cfg, cs)
    ensures EscapeReady(p) && Feed(cfg, p, CharsText(cs)) == Run(p.(buf := CharsMean(cs)))
    decreases |cs|
  {
    hide Feed, IsChar, CharText, CharMeans, RoomFor, Room;
    if cs == [] {
      FeedNothing(cfg, p);
    } else {
      var init, c := cs[..|cs| - 1], cs[|cs| - 1];
      FeedChars(cfg, p, init);
      var q := p.(buf := CharsMean(init));
      FeedThen(cfg, p, CharsText(init), q, CharText(c));
      FeedChar(cfg, q, c);
    }
  }

  function QuotedChars(cs: seq<Char>): seq<Byte> { [QUOTE] + (CharsText(cs) + [QUOTE]) }

  /** A string in quotes, as a key or as a value. */
  lemma ParsesChars(cfg: Config, p: Parser, cs: seq<Char>)
    requires Idle(p) && (if p.expectingKey then p.state == O_ || p.state == K_ else p.state == V_ || p.state == A_)
    requires AreChars(cs) && CharsFit(cfg, cs)
    ensures EscapeReady(p)
    ensures Feed(cfg, p, QuotedChars(cs))
         == Run(p.(events := p.events + [Event(if p.expectingKey then KEY else STRING, CharsMean(cs))],
                   state := if p.expectingKey then CO else OK, expectingKey := false))
  {
    hide Feed, Step, CharsText, CharsMean, AreChars, CharsFit;
    var p1 := p.(state := S_);
    QuoteOpens(cfg, p);
    StepThen(cfg, p, QUOTE, p1, CharsText(cs) + [QUOTE]);
    FeedChars(cfg, p1, cs);
    var p2 := p1.(buf := CharsMean(cs));
    FeedThen(cfg, p1, CharsText(cs), p2, [QUOTE]);
    FeedOne(cfg, p2, QUOTE);
    QuoteCloses(cfg, p2);
  }

  // ----- Values -----

  predicate AreBlanks(s: seq<Byte>) {
    forall i :: 0 <= i < |s| ==> s[i] == 32 || s[i] == 9 || s[i] == 10 || s[i] == 13
  }

  /** A number: a sign, digits, digits behind a point, an exponent. */
  datatype Numeral = Numeral(minus: bool, whole: seq<Byte>, fraction: seq<Byte>, exponent: Exponent)

  datatype Exponent = NoExponent | Exponent(upper: bool, sign: seq<Byte>, digits: seq<Byte>)

  predicate AreDigits(s: seq<Byte>) { s != [] && forall i :: 0 <= i < |s| ==> 48 <= s[i] <= 57 }

  /** The numbers of section 6 of RFC 8259. */
  predicate IsJsonNumber(n: Numeral) {
    && AreDigits(n.whole) && (n.whole[0] == 48 ==> |n.whole| == 1)
    && (n.fraction == [] || AreDigits(n.fraction))
    && (n.exponent.Exponent? ==>
          && (n.exponent.sign == [] || n.exponent.sign == [43] || n.exponent.sign == [45])
          && AreDigits(n.exponent.digits))
  }

  predicate IsZeroWithExponent(n: Numeral) { n.whole == [48] && n.fraction == [] && n.exponent.Exponent? }

  /** The numbers of JSON, but for a lone zero with an exponent, which the parser refuses. */
  predicate IsNumeral(n: Numeral) { IsJsonNumber(n) && !IsZeroWithExponent(n) }

  function NumeralText(n: Numeral): seq<Byte> {
    (if n.minus then [45] else []) + n.whole + (if n.fraction == [] then [] else [46] + n.fraction)
    + (if n.exponent.NoExponent? then []
       else [if n.exponent.upper then 69 else 101] + n.exponent.sign + n.exponent.digits)
  }

  predicate IsInteger(n: Numeral) { n.fraction == [] && n.exponent.NoExponent? }

  /** How a value is written. */
  datatype Written =
    | WNumber(n: Numeral) | WString(cs: seq<Char>) | WTrue | WFalse | WNull
    | WArray(space: seq<Byte>, items: seq<WItem>) | WObject(space: seq<Byte>, members: seq<WMember>)

  /** An item with the blanks around it, a member with the blanks around its parts; an empty array or object
      may have blanks inside. */
  datatype WItem = WItem(before: seq<Byte>, value: Written, after: seq<Byte>)

  datatype WMember = WMember(before: seq<Byte>, key: seq<Char>, colon: seq<Byte>, space: seq<Byte>, value: Written,
                             after: seq<Byte>)

  predicate IsWritten(w: Written)
    decreases w
  {
    match w
    case WNumber(n) => IsNumeral(n)
    case WString(cs) => AreChars(cs)
    case WArray(space, items) =>
      AreBlanks(space) && forall i :: 0 <= i < |items| ==>
        AreBlanks(items[i].before) && IsWritten(items[i].value) && AreBlanks(items[i].after)
    case WObject(space, members) =>
      AreBlanks(space) && forall i :: 0 <= i < |members| ==>
        && AreBlanks(members[i].before) && AreChars(members[i].key) && AreBlanks(members[i].colon)
        && AreBlanks(members[i].space) && IsWritten(members[i].value) && AreBlanks(members[i].after)
    case _ => true
  }

  function TextOf(w: Written): seq<Byte>
    decreases w, 0
  {
    match w
    case WNumber(n) => NumeralText(n)
    case WString(cs) => QuotedChars(cs)
    case WTrue => [116, 114, 117, 101]
    case WFalse => [102, 97, 108, 115, 101]
    case WNull => [110, 117, 108, 108]
    case WArray(space, items) => [91] + (if items == [] then space else ItemsOf(items, |items|)) + [93]
    case WObject(space, members) => [123] + (if members == [] then space else MembersOf(members, |members|)) + [125]
  }

  /** The first `n` items, with commas between them. */
  function ItemsOf(items: seq<WItem>, n: nat): seq<Byte>
    requires n <= |items|
    decreases items, n
  {
    if n == 0 then []
    else (if n == 1 then [] else ItemsOf(items, n - 1) + [COMMA])
         + (items[n - 1].before + (TextOf(items[n - 1].value) + items[n - 1].after))
  }

  function MembersOf(members: seq<WMember>, n: nat): seq<Byte>
    requires n <= |members|
    decreases members, n
  {
    if n == 0 then []
    else (if n == 1 then [] else MembersOf(members, n - 1) + [COMMA]) + MemberText(members, n - 1)
  }

  function MemberText(members: seq<WMember>, i: nat): seq<Byte>
    requires i < |members|
    decreases members, i, 0
  {
    var m := members[i];
    m.before + (QuotedChars(m.key) + (m.colon + ([COLON] + (m.space + (TextOf(m.value) + m.after)))))
  }

  /** The events of a written value. */
  function EventsOf(w: Written): seq<Event>
    requires IsWritten(w)
    decreases w, 1, 0
  {
    match w
    case WNumber(n) => [Event(if IsInteger(n) then INT else FLOAT, NumeralText(n))]
    case WString(cs) => [Event(STRING, CharsMean(cs))]
    case WTrue => [Event(TRUE, [])]
    case WFalse => [Event(FALSE, [])]
    case WNull => [Event(NULL, [])]
    case WArray(_, items) => [Event(ARRAY_BEGIN, [])] + ItemEvents(w, |items|) + [Event(ARRAY_END, [])]
    case WObject(_, members) => [Event(OBJECT_BEGIN, [])] + MemberEvents(w, |members|) + [Event(OBJECT_END, [])]
  }

  function ItemEvents(w: Written, n: nat): seq<Event>
    requires w.WArray? && IsWritten(w) && n <= |w.items|
    decreases w, 0, n
  {
    if n == 0 then [] else ItemEvents(w, n - 1) + EventsOf(w.items[n - 1].value)
  }

  function MemberEvents(w: Written, n: nat): seq<Event>
    requires w.WObject? && IsWritten(w) && n <= |w.members|
    decreases w, 0, n
  {
    if n == 0 then []
    else MemberEvents(w, n - 1) + ([Event(KEY, CharsMean(w.members[n - 1].key))] + EventsOf(w.members[n - 1].value))
  }

  /** The value that is written. */
  function ValueOf(w: Written): Value
    requires IsWritten(w)
    decreases w, 1, 0
  {
    match w
    case WNumber(n) => if IsInteger(n) then Int(NumeralText(n)) else Float(NumeralText(n))
    case WString(cs) => Str(CharsMean(cs))
    case WTrue => True
    case WFalse => False
    case WNull => Null
    case WArray(_, items) => Array(ItemValues(w, |items|))
    case WObject(_, members) => Object(MemberValues(w, |members|))
  }

  function ItemValues(w: Written, n: nat): seq<Value>
    requires w.WArray? && IsWritten(w) && n <= |w.items|
    decreases w, 0, n
  {
    if n == 0 then [] else ItemValues(w, n - 1) + [ValueOf(w.items[n - 1].value)]
  }

  function MemberValues(w: Written, n: nat): seq<Member>
    requires w.WObject? && IsWritten(w) && n <= |w.members|
    decreases w, 0, n
  {
    if n == 0 then []
    else MemberValues(w, n - 1) + [Member(CharsMean(w.members[n - 1].key), ValueOf(w.members[n - 1].value))]
  }

  lemma {:induction false} EventsAreOfValue(w: Written)
    requires IsWritten(w)
    ensures EventsOf(w) == Linear(ValueOf(w))
    decreases w, 1, 0
  {
    hide CharsMean, AreChars, AreBlanks;
    match w
    case WArray(_, items) => ItemEventsAre(w, |items|);
    case WObject(_, members) => MemberEventsAre(w, |members|);
    case _ =>
  }

  lemma {:induction false} ItemEventsAre(w: Written, n: nat)
    requires w.WArray? && IsWritten(w) && n <= |w.items|
    ensures ItemEvents(w, n) == LinearItems(ItemValues(w, n))
    decreases w, 0, n
  {
    hide EventsOf, ValueOf, AreBlanks, Linear;
    if n > 0 {
      ItemEventsAre(w, n - 1);
      EventsAreOfValue(w.items[n - 1].value);
      ItemsSnoc(ItemValues(w, n - 1), ValueOf(w.items[n - 1].value));
    }
  }

  lemma {:induction false} MemberEventsAre(w: Written, n: nat)
    requires w.WObject? && IsWritten(w) && n <= |w.members|
    ensures MemberEvents(w, n) == LinearMembers(MemberValues(w, n))
    decreases w, 0, n
  {
    hide EventsOf, ValueOf, AreBlanks, Linear, CharsMean, AreChars;
    if n > 0 {
      MemberEventsAre(w, n - 1);
      EventsAreOfValue(w.members[n - 1].value);
      MembersSnoc(MemberValues(w, n - 1), Member(CharsMean(w.members[n - 1].key), ValueOf(w.members[n - 1].value)));
    }
  }

  /** A written value at a nesting depth stays within the configured limits. */
  predicate FitsIn(cfg: Config, depth: nat, w: Written)
    requires IsWritten(w)
    decreases w
  {
    match w
    case WNumber(n) => RoomFor(cfg, |NumeralText(n)|)
    case WString(cs) => CharsFit(cfg, cs)
    case WArray(_, items) =>
      MayNest(cfg, depth) && forall i :: 0 <= i < |items| ==> FitsIn(cfg, depth + 1, items[i].value)
    case WObject(_, members) =>
      MayNest(cfg, depth)
      && forall i :: 0 <= i < |members| ==> CharsFit(cfg, members[i].key) && FitsIn(cfg, depth + 1, members[i].value)
    case _ => true
  }

  predicate IsBracketed(w: Written) { w.WArray? || w.WObject? }

  /** The parser after these events. */
  function Emitted(p: Parser, es: seq<Event>): Parser { p.(state := OK, events := p.events + es) }

  // ----- Blanks -----

  lemma SkipBlanks(cfg: Config, p: Parser, s: seq<Byte>)
    requires Skips(p.state) && p.left == 0 && p.multi == 0 && AreBlanks(s)
    ensures EscapeReady(p) && Feed(cfg, p, s) == Run(p)
  {
    BlanksStep(cfg, p, s);
  }

  lemma EndedBlanks(cfg: Config, q: Parser, r: Parser, s: seq<Byte>)
    requires Ended(q, r) && AreBlanks(s)
    ensures EscapeReady(q) && Feed(cfg, q, s).Run? && Ended(Feed(cfg, q, s).p, r)
  {
    hide Feed, Step, EscapeReady, AreBlanks;
    EndedReady(q, r);
    if s == [] {
      FeedNothing(cfg, q);
    } else {
      BlanksParts(s);
      BlankStep(cfg, q, s[0]);
      var q1 := q.(state := OK);
      assert s == [s[0]] + s[1..];
      StepThen(cfg, q, s[0], q1, s[1..]);
      SkipBlanks(cfg, q1, s[1..]);
    }
  }

  lemma BlanksParts(s: seq<Byte>)
    requires AreBlanks(s) && s != []
    ensures IsBlank(s[0]) && AreBlanks(s[1..])
  {
  }

  lemma ReadsBlanks(cfg: Config, q: Parser, before: seq<Byte>, text: seq<Byte>, after: seq<Byte>, r: Parser)
    requires Skips(q.state) && q.left == 0 && q.multi == 0 && Reads(cfg, q, text, r)
    requires AreBlanks(before) && AreBlanks(after)
    ensures Reads(cfg, q, before + (text + after), r)
  {
    hide Feed, EscapeReady, AreBlanks, Ended;
    var e := Feed(cfg, q, text).p;
    EndedBlanks(cfg, e, r, after);
    FeedThen(cfg, q, text, e, after);
    SkipBlanks(cfg, q, before);
    FeedThen(cfg, q, before, q, text + after);
  }

  // ----- Acceptance -----

  lemma {:induction false} ParsesWritten(cfg: Config, p: Parser, w: Written)
    requires IsWritten(w) && (if IsBracketed(w) then BeforeContainer(p) else BeforeValue(p))
    requires FitsIn(cfg, |p.stack|, w)
    ensures Reads(cfg, p, TextOf(w), Emitted(p, EventsOf(w)))
    decreases w, 1
  {
    match w
    case WArray(space, items) =>
      hide *;
      ParsesItemsOf(cfg, p, w);
    case WObject(space, members) =>
      hide *;
      ParsesMembersOf(cfg, p, w);
    case _ => ParsesPlain(cfg, p, w);
  }

  lemma ParsesPlain(cfg: Config, p: Parser, w: Written)
    requires IsWritten(w) && !IsBracketed(w) && BeforeValue(p) && FitsIn(cfg, |p.stack|, w)
    ensures Reads(cfg, p, TextOf(w), Emitted(p, EventsOf(w)))
  {
    hide Feed, IsInt, IsFraction, IsExponential, AreChars, CharsFit, CharsMean, RoomFor, QuotedChars, IsZero, Reads,
         NumeralText, IsNumeral;
    match w
    case WNumber(n) =>
      var l := NumeralText(n);
      NumeralIs(n);
      if IsInteger(n) {
        ParsesInt(cfg, p, l);
        NumberReads(cfg, p, Int(l), IntState(l), INT, l);
      } else if IsFraction(l) {
        ParsesFraction(cfg, p, l);
        NumberReads(cfg, p, Float(l), R2, FLOAT, l);
      } else {
        ParsesExponential(cfg, p, l);
        NumberReads(cfg, p, Float(l), X3, FLOAT, l);
      }
    case WString(cs) =>
      ParsesChars(cfg, p, cs);
      CharsRead(cfg, p, cs);
    case _ => LiteralSteps(cfg, p);
  }

  /** The spellings that the parser knows are these numbers. */
  lemma NumeralIs(n: Numeral)
    requires IsNumeral(n)
    ensures IsInteger(n) ==> IsInt(NumeralText(n))
    ensures !IsInteger(n) ==> IsFraction(NumeralText(n)) || IsExponential(NumeralText(n))
  {
    hide IsInt, IsFraction, IsExponential, AreDigits;
    var sign: seq<Byte> := if n.minus then [45] else [];
    var a := sign + n.whole;
    WholeIs(n.minus, n.whole);
    var b := a + (if n.fraction == [] then [] else [46] + n.fraction);
    if n.fraction == [] {
      assert b == a;
    } else {
      FractionIs(a, n.fraction);
      assert b == a + [46] + n.fraction;
    }
    if n.exponent.NoExponent? {
      assert NumeralText(n) == b;
    } else {
      var e: Byte := if n.exponent.upper then 69 else 101;
      ExponentIs(b, e, n.exponent.sign, n.exponent.digits);
      assert NumeralText(n) == b + [e] + n.exponent.sign + n.exponent.digits;
    }
  }

  lemma WholeIs(minus: bool, whole: seq<Byte>)
    requires AreDigits(whole) && (whole[0] == 48 ==> |whole| == 1)
    ensures IsInt((if minus then [45] else []) + whole)
    ensures whole != [48] ==> IsNonZero((if minus then [45] else []) + whole)
  {
    var l := (if minus then [45] else []) + whole;
    assert minus ==> l[1..] == whole;
    assert !minus ==> l == whole;
  }

  lemma FractionIs(a: seq<Byte>, fraction: seq<Byte>)
    requires IsInt(a) && AreDigits(fraction)
    ensures IsFraction(a + [46] + fraction)
  {
    var l, i := a + [46] + fraction, |a| + 1;
    assert l[..i] == a + [46] && l[i..] == fraction && (a + [46])[..|a|] == a;
    assert IsPointed(l[..i]) && AllDigits(l[i..]);
  }

  lemma ExponentIs(b: seq<Byte>, e: Byte, sign: seq<Byte>, digits: seq<Byte>)
    requires (IsFraction(b) || IsNonZero(b)) && (e == 69 || e == 101) && AreDigits(digits)
    requires sign == [] || sign == [43] || sign == [45]
    ensures IsExponential(b + [e] + sign + digits)
  {
    hide IsFraction, IsNonZero;
    var head := b + [e];
    assert head[..|b|] == b && head[|b|] == e;
    assert EndsInE(head);
    var l, i := head + sign + digits, |head| + |sign|;
    assert l[..i] == head + sign && l[i..] == digits && AllDigits(l[i..]);
    if sign == [] {
      assert head + sign == head;
    } else {
      assert (head + sign)[..|head|] == head;
      assert EndsInSign(head + sign);
    }
  }

  lemma CharsRead(cfg: Config, p: Parser, cs: seq<Char>)
    requires BeforeValue(p) && EscapeReady(p) && AreChars(cs)
    requires Feed(cfg, p, QuotedChars(cs))
             == Run(p.(events := p.events + [Event(STRING, CharsMean(cs))], state := OK, expectingKey := false))
    ensures Reads(cfg, p, QuotedChars(cs), Emitted(p, [Event(STRING, CharsMean(cs))]))
  {
    hide Feed, QuotedChars, CharsMean;
  }

  /** Brackets with nothing but blanks inside. */
  lemma ReadsEmpty(cfg: Config, p: Parser, square: bool, space: seq<Byte>)
    requires BeforeContainer(p) && MayNest(cfg, |p.stack|) && AreBlanks(space)
    ensures Reads(cfg, p, [if square then 91 else 123] + space + [if square then 93 else 125],
                  Emitted(p, [Event(if square then ARRAY_BEGIN else OBJECT_BEGIN, []),
                              Event(if square then ARRAY_END else OBJECT_END, [])]))
  {
    hide Feed, Step, EscapeReady, AreBlanks;
    var o, first, last: Byte := Opened(p, square), if square then 91 else 123, if square then 93 else 125;
    OpenStep(cfg, p, square);
    assert [first] + space + [last] == [first] + (space + [last]);
    StepThen(cfg, p, first, o, space + [last]);
    SkipBlanks(cfg, o, space);
    FeedThen(cfg, o, space, o, [last]);
    CloseEmpty(cfg, o, square);
    FeedOne(cfg, o, last);
    var done := Emitted(p, [Event(if square then ARRAY_BEGIN else OBJECT_BEGIN, []),
                            Event(if square then ARRAY_END else OBJECT_END, [])]);
    assert o.stack[..|o.stack| - 1] == p.stack;
    assert o.events + [Event(if square then ARRAY_END else OBJECT_END, [])] == done.events;
    IdleEnded(done);
  }

  /** Brackets around items or members that have been read to their end. */
  lemma ReadsFull(cfg: Config, p: Parser, square: bool, inner: seq<Byte>, es: seq<Event>)
    requires BeforeContainer(p) && MayNest(cfg, |p.stack|)
    requires var o := Opened(p, square);
             Reads(cfg, o, inner, o.(state := OK, expectingKey := false, events := o.events + es))
    ensures Reads(cfg, p, [if square then 91 else 123] + inner + [if square then 93 else 125],
                  Emitted(p, [Event(if square then ARRAY_BEGIN else OBJECT_BEGIN, [])] + es
                             + [Event(if square then ARRAY_END else OBJECT_END, [])]))
  {
    hide Reads;
    var o := Opened(p, square);
    var r := o.(state := OK, expectingKey := false, events := o.events + es);
    Enclosed(cfg, p, r, square, false, inner, [], 0, false);
    var first, last: Byte := if square then 91 else 123, if square then 93 else 125;
    assert [first] + inner + [] + [last] == [first] + inner + [last];
    assert r.events + [Event(if square then ARRAY_END else OBJECT_END, [])]
           == p.events + ([Event(if square then ARRAY_BEGIN else OBJECT_BEGIN, [])] + es
                          + [Event(if square then ARRAY_END else OBJECT_END, [])]);
  }

  lemma {:induction false} ParsesItemsOf(cfg: Config, p: Parser, w: Written)
    requires w.WArray? && IsWritten(w) && BeforeContainer(p) && FitsIn(cfg, |p.stack|, w)
    ensures Reads(cfg, p, TextOf(w), Emitted(p, EventsOf(w)))
    decreases w, 0
  {
    hide *;
    ArrayParts(cfg, p, w);
    if w.items == [] {
      ReadsEmpty(cfg, p, true, w.space);
    } else {
      ItemsRead(cfg, Opened(p, true), w, |w.items|);
      ReadsFull(cfg, p, true, ItemsOf(w.items, |w.items|), ItemEvents(w, |w.items|));
    }
  }

  lemma ArrayParts(cfg: Config, p: Parser, w: Written)
    requires w.WArray? && IsWritten(w) && BeforeContainer(p) && FitsIn(cfg, |p.stack|, w)
    ensures MayNest(cfg, |p.stack|) && AreBlanks(w.space) && InArray(Opened(p, true))
    ensures |Opened(p, true).stack| == |p.stack| + 1
    ensures forall i :: 0 <= i < |w.items| ==> FitsIn(cfg, |p.stack| + 1, w.items[i].value)
    ensures TextOf(w) == [91] + (if w.items == [] then w.space else ItemsOf(w.items, |w.items|)) + [93]
    ensures EventsOf(w) == [Event(ARRAY_BEGIN, [])] + ItemEvents(w, |w.items|) + [Event(ARRAY_END, [])]
    ensures w.items == [] ==> EventsOf(w) == [Event(ARRAY_BEGIN, []), Event(ARRAY_END, [])]
    ensures Opened(p, true).(expectingKey := false) == Opened(p, true)
  {
    hide CharsFit, AreChars, ItemsOf;
    if w.items == [] {
      assert [Event(ARRAY_BEGIN, [])] + [] + [Event(ARRAY_END, [])] == [Event(ARRAY_BEGIN, []), Event(ARRAY_END, [])];
    }
  }

  predicate InArray(p: Parser) {
    Idle(p) && p.state == A_ && !p.expectingKey && p.stack != [] && p.stack[|p.stack| - 1] == MODE_ARRAY
  }

  lemma {:induction false} ItemsRead(cfg: Config, p: Parser, w: Written, n: nat)
    requires w.WArray? && IsWritten(w) && InArray(p) && 0 < n <= |w.items|
    requires forall i :: 0 <= i < |w.items| ==> FitsIn(cfg, |p.stack|, w.items[i].value)
    ensures Reads(cfg, p, ItemsOf(w.items, n),
                  p.(state := OK, expectingKey := false, events := p.events + ItemEvents(w, n)))
    decreases w, 0, n
  {
    hide *;
    var x := w.items[n - 1];
    var before := ItemEvents(w, n - 1);
    var q := p.(state := if n == 1 then A_ else V_, events := p.events + before);
    ItemParts(w, n, p, q);
    ParsesWritten(cfg, q, x.value);
    ReadsBlanks(cfg, q, x.before, TextOf(x.value), x.after, Emitted(q, EventsOf(x.value)));
    var text := x.before + (TextOf(x.value) + x.after);
    var r := p.(state := OK, expectingKey := false, events := p.events + ItemEvents(w, n));
    EmittedItems(p, q, w, n);
    if n == 1 {
      assert [] + text == text;
    } else {
      ItemsRead(cfg, p, w, n - 1);
      ReadsComma(cfg, p, ItemsOf(w.items, n - 1), p.(state := OK, expectingKey := false, events := p.events + before),
                 q, text, r);
    }
  }

  lemma ItemParts(w: Written, n: nat, p: Parser, q: Parser)
    requires w.WArray? && IsWritten(w) && InArray(p) && 0 < n <= |w.items|
    requires q == p.(state := if n == 1 then A_ else V_, events := p.events + ItemEvents(w, n - 1))
    ensures var x := w.items[n - 1];
            && AreBlanks(x.before) && AreBlanks(x.after) && IsWritten(x.value)
            && ItemsOf(w.items, n) == (if n == 1 then [] else ItemsOf(w.items, n - 1) + [COMMA])
                                      + (x.before + (TextOf(x.value) + x.after))
            && (x.value < w)
    ensures BeforeValue(q) && BeforeContainer(q) && Skips(q.state) && q.left == 0 && q.multi == 0
    ensures n == 1 ==> q == p
    ensures p.stack != [] && p.stack[|p.stack| - 1] == MODE_ARRAY && !p.expectingKey
  {
    hide AreBlanks, TextOf, EventsOf;
    assert w.items[n - 1] in w.items;
    if n == 1 {
      assert p.events + [] == p.events;
    }
  }

  lemma EmittedItems(p: Parser, q: Parser, w: Written, n: nat)
    requires w.WArray? && IsWritten(w) && 0 < n <= |w.items| && IsWritten(w.items[n - 1].value) && !p.expectingKey
    requires q == p.(state := if n == 1 then A_ else V_, events := p.events + ItemEvents(w, n - 1))
    ensures Emitted(q, EventsOf(w.items[n - 1].value))
            == p.(state := OK, expectingKey := false, events := p.events + ItemEvents(w, n))
  {
    hide EventsOf, IsWritten;
  }

  lemma {:induction false} ParsesMembersOf(cfg: Config, p: Parser, w: Written)
    requires w.WObject? && IsWritten(w) && BeforeContainer(p) && FitsIn(cfg, |p.stack|, w)
    ensures Reads(cfg, p, TextOf(w), Emitted(p, EventsOf(w)))
    decreases w, 0
  {
    hide *;
    ObjectParts(cfg, p, w);
    if w.members == [] {
      ReadsEmpty(cfg, p, false, w.space);
    } else {
      MembersRead(cfg, Opened(p, false), w, |w.members|);
      ReadsFull(cfg, p, false, MembersOf(w.members, |w.members|), MemberEvents(w, |w.members|));
    }
  }

  lemma ObjectParts(cfg: Config, p: Parser, w: Written)
    requires w.WObject? && IsWritten(w) && BeforeContainer(p) && FitsIn(cfg, |p.stack|, w)
    ensures MayNest(cfg, |p.stack|) && AreBlanks(w.space) && InObject(Opened(p, false))
    ensures |Opened(p, false).stack| == |p.stack| + 1
    ensures forall i :: 0 <= i < |w.members| ==> MemberFits(cfg, |p.stack| + 1, w.members[i])
    ensures TextOf(w) == [123] + (if w.members == [] then w.space else MembersOf(w.members, |w.members|)) + [125]
    ensures EventsOf(w) == [Event(OBJECT_BEGIN, [])] + MemberEvents(w, |w.members|) + [Event(OBJECT_END, [])]
    ensures w.members == [] ==> EventsOf(w) == [Event(OBJECT_BEGIN, []), Event(OBJECT_END, [])]
  {
    hide CharsFit, AreChars, MembersOf;
    if w.members == [] {
      assert [Event(OBJECT_BEGIN, [])] + [] + [Event(OBJECT_END, [])]
          == [Event(OBJECT_BEGIN, []), Event(OBJECT_END, [])];
    }
  }

  predicate InObject(p: Parser) {
    Idle(p) && p.state == O_ && p.expectingKey && p.stack != [] && p.stack[|p.stack| - 1] == MODE_OBJECT
  }

  predicate MemberFits(cfg: Config, depth: nat, m: WMember) {
    AreChars(m.key) && CharsFit(cfg, m.key) && IsWritten(m.value) && FitsIn(cfg, depth, m.value)
  }

  lemma {:induction false} MembersRead(cfg: Config, p: Parser, w: Written, n: nat)
    requires w.WObject? && IsWritten(w) && InObject(p) && 0 < n <= |w.members|
    requires forall i :: 0 <= i < |w.members| ==> MemberFits(cfg, |p.stack|, w.members[i])
    ensures Reads(cfg, p, MembersOf(w.members, n),
                  p.(state := OK, expectingKey := false, events := p.events + MemberEvents(w, n)))
    decreases w, 0, n
  {
    hide *;
    var m := w.members[n - 1];
    var before := MemberEvents(w, n - 1);
    var q := p.(state := if n == 1 then O_ else K_, events := p.events + before);
    MemberParts(cfg, w, n, p, q);
    var v := q.(state := V_, expectingKey := false, events := q.events + [Event(KEY, CharsMean(m.key))]);
    ParsesWritten(cfg, v, m.value);
    var r := p.(state := OK, expectingKey := false, events := p.events + MemberEvents(w, n));
    EmittedMembers(p, v, w, n);
    MemberReads(cfg, q, m, r);
    if n == 1 {
      assert [] + MemberText(w.members, n - 1) == MemberText(w.members, n - 1);
    } else {
      MembersRead(cfg, p, w, n - 1);
      ReadsComma(cfg, p, MembersOf(w.members, n - 1),
                 p.(state := OK, expectingKey := false, events := p.events + before),
                 q, MemberText(w.members, n - 1), r);
    }
  }

  lemma MemberParts(cfg: Config, w: Written, n: nat, p: Parser, q: Parser)
    requires w.WObject? && IsWritten(w) && InObject(p) && 0 < n <= |w.members|
    requires MemberFits(cfg, |p.stack|, w.members[n - 1])
    requires q == p.(state := if n == 1 then O_ else K_, events := p.events + MemberEvents(w, n - 1))
    ensures var m := w.members[n - 1];
            && AreBlanks(m.before) && AreBlanks(m.colon) && AreBlanks(m.space) && AreBlanks(m.after)
            && AreChars(m.key) && CharsFit(cfg, m.key) && IsWritten(m.value) && FitsIn(cfg, |p.stack|, m.value)
            && MembersOf(w.members, n)
               == (if n == 1 then [] else MembersOf(w.members, n - 1) + [COMMA]) + MemberText(w.members, n - 1)
            && MemberText(w.members, n - 1)
               == m.before + (QuotedChars(m.key) + (m.colon + ([COLON] + (m.space + (TextOf(m.value) + m.after)))))
            && m.value < w
            && var v := q.(state := V_, expectingKey := false, events := q.events + [Event(KEY, CharsMean(m.key))]);
               BeforeValue(v) && BeforeContainer(v) && v.stack == p.stack
    ensures Idle(q) && q.expectingKey && (q.state == O_ || q.state == K_)
    ensures n == 1 ==> q == p
    ensures p.stack != [] && p.stack[|p.stack| - 1] == MODE_OBJECT && p.expectingKey
  {
    hide AreBlanks, TextOf, EventsOf, CharsMean, AreChars, CharsFit, QuotedChars, FitsIn;
    assert w.members[n - 1] in w.members;
    if n == 1 {
      assert p.events + [] == p.events;
    }
  }

  lemma EmittedMembers(p: Parser, v: Parser, w: Written, n: nat)
    requires w.WObject? && IsWritten(w) && 0 < n <= |w.members|
    requires AreChars(w.members[n - 1].key) && IsWritten(w.members[n - 1].value)
    requires v == p.(state := V_, expectingKey := false,
                     events := p.events + MemberEvents(w, n - 1) + [Event(KEY, CharsMean(w.members[n - 1].key))])
    ensures Emitted(v, EventsOf(w.members[n - 1].value))
            == p.(state := OK, expectingKey := false, events := p.events + MemberEvents(w, n))
  {
    hide EventsOf, CharsMean, IsWritten, AreChars;
  }

  /** A key, its colon and its value, with blanks anywhere between them. */
  lemma MemberReads(cfg: Config, q: Parser, m: WMember, r: Parser)
    requires Idle(q) && q.expectingKey && (q.state == O_ || q.state == K_) && AreChars(m.key) && CharsFit(cfg, m.key)
    requires AreBlanks(m.before) && AreBlanks(m.colon) && AreBlanks(m.space) && AreBlanks(m.after)
    requires Reads(cfg, q.(state := V_, expectingKey := false, events := q.events + [Event(KEY, CharsMean(m.key))]),
                   TextOf(m.value), r)
    ensures Reads(cfg, q,
                  m.before + (QuotedChars(m.key) + (m.colon + ([COLON] + (m.space + (TextOf(m.value) + m.after))))), r)
  {
    hide Feed, QuotedChars, Reads, AreChars, CharsFit, CharsMean, AreBlanks, TextOf, EscapeReady, Step;
    var c := q.(state := CO, expectingKey := false, events := q.events + [Event(KEY, CharsMean(m.key))]);
    var v := c.(state := V_);
    var value := m.space + (TextOf(m.value) + m.after);
    ReadsBlanks(cfg, v, m.space, TextOf(m.value), m.after, r);
    ColonStep(cfg, c);
    FeedOne(cfg, c, COLON);
    ReadsThen(cfg, c, [COLON], v, value, r);
    SkipBlanks(cfg, c, m.colon);
    ReadsThen(cfg, c, m.colon, c, [COLON] + value, r);
    ParsesChars(cfg, q, m.key);
    ReadsThen(cfg, q, QuotedChars(m.key), c, m.colon + ([COLON] + value), r);
    SkipBlanks(cfg, q, m.before);
    ReadsThen(cfg, q, m.before, q, QuotedChars(m.key) + (m.colon + ([COLON] + value)), r);
  }

  lemma ColonStep(cfg: Config, c: Parser)
    requires Idle(c) && c.state == CO
    ensures EscapeReady(c) && Step(cfg, c, COLON) == Run(c.(state := V_))
  {
  }

  /** Every array or object, written in any way and with any blanks around it, is accepted in any chunks
      within the configured limits; exactly its events are emitted, and the parser is done. */
  lemma Accepts(cfg: Config, lead: seq<Byte>, w: Written, tail: seq<Byte>, chunks: seq<seq<Byte>>)
    requires IsBracketed(w) && IsWritten(w) && FitsIn(cfg, 0, w) && AreBlanks(lead) && AreBlanks(tail)
    requires Concat(chunks) == lead + (TextOf(w) + tail)
    ensures EscapeReady(INIT) && FeedAll(cfg, INIT, chunks).Run?
    ensures FeedAll(cfg, INIT, chunks).p.events == Linear(ValueOf(w)) && IsDone(FeedAll(cfg, INIT, chunks).p)
  {
    hide Feed, FeedAll, TextOf, EventsOf, IsWritten, FitsIn, Concat, EscapeReady, Ended, AreBlanks, Reads, Linear,
         ValueOf;
    InitAgrees();
    EventsAreOfValue(w);
    ParsesWritten(cfg, INIT, w);
    ReadsBlanks(cfg, INIT, lead, TextOf(w), tail, Emitted(INIT, EventsOf(w)));
    ChunksDoNotMatter(cfg, INIT, chunks);
    Whole(cfg, lead + (TextOf(w) + tail), Emitted(INIT, EventsOf(w)));
    assert [] + EventsOf(w) == EventsOf(w);
  }

  lemma Whole(cfg: Config, text: seq<Byte>, r: Parser)
    requires Reads(cfg, INIT, text, r) && r.stack == []
    ensures EscapeReady(INIT) && Feed(cfg, INIT, text) == Run(r)
  {
    hide Feed, Ended, EscapeReady;
    InitAgrees();
    var d := FeedAgrees(cfg, INIT, text, Empty);
    OutsideIsSettled(Feed(cfg, INIT, text).p, r, d);
  }

  // ----- Comments -----

  // ----- Comments -----

  /** A character of a comment: a printable one, a tab, a line feed or a carriage return. */
  predicate IsCommentChar(u: seq<Byte>) {
    IsRaw(u) || u == [QUOTE] || u == [BACKSLASH] || u == [9] || u == [10] || u == [13]
  }

  predicate AreCommentChars(us: seq<seq<Byte>>) { forall u :: u in us ==> IsCommentChar(u) }

  /** No star is followed by a slash. */
  predicate StaysOpen(us: seq<seq<Byte>>) { forall i :: 0 <= i < |us| - 1 && us[i] == [42] ==> us[i + 1] != [47] }

  /** Between tokens a comment between slashes and stars changes nothing, if such comments are allowed, and
      is refused otherwise. */
  lemma SkipsComment(cfg: Config, p: Parser, us: seq<seq<Byte>>)
    requires Skips(p.state) && Idle(p) && AreCommentChars(us) && StaysOpen(us)
    ensures EscapeReady(p)
    ensures cfg.allowC ==> Feed(cfg, p, [47] + ([42] + (Concat(us) + ([42] + [47])))) == Run(p.(saved := p.state))
    ensures !cfg.allowC ==> Feed(cfg, p, [47] + ([42] + (Concat(us) + ([42] + [47])))).Stop?
  {
    hide Feed, Step, AreCommentChars, StaysOpen, Concat;
    var c := p.(saved := p.state, state := C1);
    var rest := Concat(us) + ([42] + [47]);
    CommentOpens(cfg, p);
    if cfg.allowC {
      var c2, c3 := c.(state := C2), c.(state := C3);
      var e := c.(state := CommentState(C2, us));
      StepThen(cfg, p, 47, c, [42] + rest);
      StepThen(cfg, c, 42, c2, rest);
      CommentSkipped(cfg, c2, us);
      FeedThen(cfg, c2, Concat(us), e, [42] + [47]);
      StepThen(cfg, e, 42, c3, [47]);
      FeedOne(cfg, c3, 47);
    } else {
      StopsAtOnce(cfg, p, 47, [42] + rest);
    }
  }

  /** Between tokens a hash sign and what follows on its line changes nothing, if such comments are allowed,
      and is refused otherwise. */
  lemma SkipsLine(cfg: Config, p: Parser, us: seq<seq<Byte>>)
    requires Skips(p.state) && Idle(p) && AreCommentChars(us) && [10] !in us
    ensures EscapeReady(p)
    ensures cfg.allowYaml ==> Feed(cfg, p, [35] + (Concat(us) + [10])) == Run(p.(saved := p.state))
    ensures !cfg.allowYaml ==> Feed(cfg, p, [35] + (Concat(us) + [10])).Stop?
  {
    hide Feed, Step, AreCommentChars, Concat;
    var c := p.(saved := p.state, state := Y1);
    LineOpens(cfg, p);
    if cfg.allowYaml {
      StepThen(cfg, p, 35, c, Concat(us) + [10]);
      CommentSkipped(cfg, c, us);
      FeedThen(cfg, c, Concat(us), c, [10]);
      FeedOne(cfg, c, 10);
    } else {
      StopsAtOnce(cfg, p, 35, Concat(us) + [10]);
    }
  }

  lemma CommentOpens(cfg: Config, p: Parser)
    requires Skips(p.state) && Idle(p)
    ensures EscapeReady(p) && (!cfg.allowC ==> Step(cfg, p, 47).Stop?)
    ensures var c := p.(saved := p.state, state := C1);
            && (cfg.allowC ==> Step(cfg, p, 47) == Run(c)) && Step(cfg, c, 42) == Run(c.(state := C2))
            && Step(cfg, c.(state := C2), 42) == Step(cfg, c.(state := C3), 42) == Run(c.(state := C3))
            && Step(cfg, c.(state := C3), 47) == Run(p.(saved := p.state))
  {
    assert CharacterClass(47) == C_SLASH && CharacterClass(42) == C_STAR;
    hide CharacterClass, BeginValue, HasValue, EmitBuffer;
    assert Transition(p.state, C_SLASH) == Do(CB) && BufferPolicy(p.state, C_SLASH) == Ignore;
  }

  lemma LineOpens(cfg: Config, p: Parser)
    requires Skips(p.state) && Idle(p)
    ensures EscapeReady(p) && (!cfg.allowYaml ==> Step(cfg, p, 35).Stop?)
    ensures var c := p.(saved := p.state, state := Y1);
            (cfg.allowYaml ==> Step(cfg, p, 35) == Run(c)) && Step(cfg, c, 10) == Run(p.(saved := p.state))
  {
    assert CharacterClass(35) == C_HASH && CharacterClass(10) == C_NL;
    hide CharacterClass, BeginValue, HasValue, EmitBuffer;
    assert Transition(p.state, C_HASH) == Do(YB) && BufferPolicy(p.state, C_HASH) == Ignore;
  }

  lemma StopsAtOnce(cfg: Config, p: Parser, ch: Byte, rest: seq<Byte>)
    requires EscapeReady(p) && Step(cfg, p, ch).Stop?
    ensures Feed(cfg, p, [ch] + rest).Stop?
  {
    hide Step, EscapeReady;
    assert ([ch] + rest)[0] == ch;
  }

  /** The state inside a comment tells whether the last character was a star. */
  function CommentState(s: State, us: seq<seq<Byte>>): State {
    if s == Y1 || us == [] then s else if us[|us| - 1] == [42] then C3 else C2
  }

  /** The character does not end the comment. */
  predicate GoesOn(s: State, u: seq<Byte>) {
    s == C2 || (s == C3 && u != [47]) || (s == Y1 && u != [10])
  }

  lemma {:induction false} CommentSkipped(cfg: Config, c: Parser, us: seq<seq<Byte>>)
    requires (c.state == C2 || c.state == C3 || c.state == Y1) && c.left == 0 && c.multi == 0 && AreCommentChars(us)
    requires if c.state == Y1 then [10] !in us else StaysOpen(us) && (us == [] || GoesOn(c.state, us[0]))
    ensures EscapeReady(c) && Feed(cfg, c, Concat(us)) == Run(c.(state := CommentState(c.state, us)))
    decreases |us|
  {
    hide Feed, Step, IsCommentChar;
    if us == [] {
      FeedNothing(cfg, c);
    } else {
      var u, more := us[0], us[1..];
      var q := c.(state := CommentState(c.state, [u]));
      assert AreCommentChars(more) && (c.state != Y1 ==> StaysOpen(more));
      assert more != [] ==> more[|more| - 1] == us[|us| - 1] && more[0] == us[1];
      CommentChar(cfg, c, u);
      FeedThen(cfg, c, u, q, Concat(more));
      CommentSkipped(cfg, q, more);
    }
  }

  lemma CommentChar(cfg: Config, c: Parser, u: seq<Byte>)
    requires (c.state == C2 || c.state == C3 || c.state == Y1) && c.left == 0 && c.multi == 0
    requires IsCommentChar(u) && GoesOn(c.state, u)
    ensures EscapeReady(c) && Feed(cfg, c, u) == Run(c.(state := CommentState(c.state, [u])))
  {
    hide Feed, Step;
    var q := c.(state := CommentState(c.state, [u]));
    CommentByte(cfg, c, u[0]);
    FeedOne(cfg, c, u[0]);
    assert u == [u[0]] + u[1..];
    if |u| == 1 {
      assert u == [u[0]];
    } else {
      hide GoesOn;
      CommentTrail(cfg, q.(left := |u| - 1), u[1..]);
      FeedThen(cfg, c, [u[0]], q.(left := |u| - 1), u[1..]);
    }
  }

  lemma CommentByte(cfg: Config, c: Parser, ch: Byte)
    requires (c.state == C2 || c.state == C3 || c.state == Y1) && c.left == 0 && c.multi == 0 && GoesOn(c.state, [ch])
    requires 32 <= ch < 128 || ch == 9 || ch == 10 || ch == 13 || 0xc0 <= ch < 0xf8
    ensures EscapeReady(c)
    ensures var left := if ch < 0xc0 then 0 else if ch < 0xe0 then 1 else if ch < 0xf0 then 2 else 3;
            Step(cfg, c, ch) == Run(c.(state := CommentState(c.state, [[ch]]), left := left))
  {
    if ch < 128 {
      assert CharacterClass(ch) != C_ERROR && (CharacterClass(ch) == C_STAR <==> ch == 42)
             && (CharacterClass(ch) == C_SLASH <==> ch == 47) && (CharacterClass(ch) == C_NL <==> ch == 10);
    }
    hide CharacterClass;
  }

  /** The further bytes of a character. */
  lemma {:induction false} CommentTrail(cfg: Config, q: Parser, s: seq<Byte>)
    requires (q.state == C2 || q.state == Y1) && q.multi == 0 && q.left == |s|
    requires forall i :: 0 <= i < |s| ==> IsTrail(s[i])
    ensures EscapeReady(q) && Feed(cfg, q, s) == Run(q.(left := 0))
    decreases |s|
  {
    hide Feed, Step;
    if s == [] {
      FeedNothing(cfg, q);
    } else {
      TrailByte(cfg, q, s[0]);
      assert s == [s[0]] + s[1..];
      StepThen(cfg, q, s[0], q.(left := q.left - 1), s[1..]);
      CommentTrail(cfg, q.(left := q.left - 1), s[1..]);
    }
  }

  lemma TrailByte(cfg: Config, q: Parser, ch: Byte)
    requires (q.state == C2 || q.state == Y1) && q.multi == 0 && q.left > 0 && IsTrail(ch)
    ensures EscapeReady(q) && Step(cfg, q, ch) == Run(q.(left := q.left - 1))
  {
    hide CharacterClass;
  }

  /** Behind a lone zero an exponent is refused. */
  lemma NoExponentAfterZero(cfg: Config, q: Parser, e: Byte)
    requires q.state == Z0 && q.left == 0 && q.multi == 0 && (e == 69 || e == 101)
    ensures EscapeReady(q) && Step(cfg, q, e).Stop?
  {
    assert CharacterClass(e) == if e == 69 then C_E else C_e;
    hide CharacterClass;
  }

  /** Of the numbers of JSON the parser takes exactly those that are not a lone zero with an exponent. */
  lemma NumberAcceptedIff(cfg: Config, p: Parser, n: Numeral)
    requires BeforeValue(p) && IsJsonNumber(n) && RoomFor(cfg, |NumeralText(n)|)
    ensures EscapeReady(p) && (Feed(cfg, p, NumeralText(n)).Run? <==> !IsZeroWithExponent(n))
  {
    hide Feed, Step, IsJsonNumber, NumeralText;
    if !IsZeroWithExponent(n) {
      ParsesWritten(cfg, p, WNumber(n));
    } else {
      var a: seq<Byte> := if n.minus then [MINUS] else [];
      var e: Byte := if n.exponent.upper then 69 else 101;
      var rest := n.exponent.sign + n.exponent.digits;
      ZeroText(n, a, e, rest);
      var l := a + [ZERO];
      assert IsZero(l);
      ParsesInt(cfg, p, l);
      var q := p.(state := Z0, kind := INT, buf := l);
      FeedThen(cfg, p, l, q, [e] + rest);
      NoExponentAfterZero(cfg, q, e);
      FeedOne(cfg, q, e);
      FeedSplit(cfg, q, [e], rest);
    }
  }

  lemma ZeroText(n: Numeral, a: seq<Byte>, e: Byte, rest: seq<Byte>)
    requires IsZeroWithExponent(n) && a == (if n.minus then [MINUS] else [])
    requires e == (if n.exponent.upper then 69 else 101) && rest == n.exponent.sign + n.exponent.digits
    ensures NumeralText(n) == a + [ZERO] + ([e] + rest)
  {
    assert a + n.whole + [] == a + [ZERO];
    assert [e] + n.exponent.sign + n.exponent.digits == [e] + rest;
  }

  /** An exponent behind a lone zero, which the JSON grammar allows, is refused. */
  lemma ZeroExponent(cfg: Config, p: Parser)
    requires BeforeValue(p) && RoomFor(cfg, 3)
    ensures var n := Numeral(false, [48], [], Exponent(false, [], [49]));
            IsJsonNumber(n) && NumeralText(n) == [48, 101, 49] && EscapeReady(p) && Feed(cfg, p, [48, 101, 49]).Stop?
  {
    hide Feed;
    NumberAcceptedIff(cfg, p, Numeral(false, [48], [], Exponent(false, [], [49])));
  }
}
