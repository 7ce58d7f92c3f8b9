/** The tables that drive the JSON parser (src/json/json.c). */
module JsonTables {

  type Byte = b: int | 0 <= b < 256

  /** Character classes, numbered as in the source. */
  type Class = c: int | 0 <= c < 256

  const C_SPACE: Class := 0
  const C_NL: Class := 1
  const C_WHITE: Class := 2
  const C_LCURB: Class := 3
  const C_RCURB: Class := 4
  const C_LSQRB: Class := 5
  const C_RSQRB: Class := 6
  const C_COLON: Class := 7
  const C_COMMA: Class := 8
  const C_QUOTE: Class := 9
  const C_BACKS: Class := 10
  const C_SLASH: Class := 11
  const C_PLUS: Class := 12
  const C_MINUS: Class := 13
  const C_DOT: Class := 14
  const C_ZERO: Class := 15
  const C_DIGIT: Class := 16
  const C_a: Class := 17
  const C_b: Class := 18
  const C_c: Class := 19
  const C_d: Class := 20
  const C_e: Class := 21
  const C_f: Class := 22
  const C_l: Class := 23
  const C_n: Class := 24
  const C_r: Class := 25
  const C_s: Class := 26
  const C_t: Class := 27
  const C_u: Class := 28
  const C_ABCDF: Class := 29
  const C_E: Class := 30
  const C_OTHER: Class := 31
  const C_STAR: Class := 32
  const C_HASH: Class := 33
  const C_ERROR: Class := 0xfe

  /** The class of a byte below 128; C_ERROR for control characters other than tab, newline and
      carriage return. */
  function CharacterClass(ch: Byte): Class
    requires ch < 128
  {
    if ch < 32 then (if ch == 9 || ch == 13 then C_WHITE else if ch == 10 then C_NL else C_ERROR)
    else if ch == 32 then C_SPACE
    else if ch == 34 then C_QUOTE
    else if ch == 35 then C_HASH
    else if ch == 42 then C_STAR
    else if ch == 43 then C_PLUS
    else if ch == 44 then C_COMMA
    else if ch == 45 then C_MINUS
    else if ch == 46 then C_DOT
    else if ch == 47 then C_SLASH
    else if ch == 48 then C_ZERO
    else if 49 <= ch <= 57 then C_DIGIT
    else if ch == 58 then C_COLON
    else if ch == 69 then C_E
    else if 65 <= ch <= 70 then C_ABCDF
    else if ch == 91 then C_LSQRB
    else if ch == 92 then C_BACKS
    else if ch == 93 then C_RSQRB
    else if ch == 97 then C_a
    else if ch == 98 then C_b
    else if ch == 99 then C_c
    else if ch == 100 then C_d
    else if ch == 101 then C_e
    else if ch == 102 then C_f
    else if ch == 108 then C_l
    else if ch == 110 then C_n
    else if ch == 114 then C_r
    else if ch == 115 then C_s
    else if ch == 116 then C_t
    else if ch == 117 then C_u
    else if ch == 123 then C_LCURB
    else if ch == 125 then C_RCURB
    else C_OTHER
  }

  /** Parser states, numbered as in the source. */
  type State = s: int | 0 <= s < 37

  const GO: State := 0
  const OK: State := 1
  const O_: State := 2
  const K_: State := 3
  const CO: State := 4
  const V_: State := 5
  const A_: State := 6
  const S_: State := 7
  const E0: State := 8
  const U1: State := 9
  const U2: State := 10
  const U3: State := 11
  const U4: State := 12
  const M0: State := 13
  const Z0: State := 14
  const I0: State := 15
  const R1: State := 16
  const R2: State := 17
  const X1: State := 18
  const X2: State := 19
  const X3: State := 20
  const T1: State := 21
  const T2: State := 22
  const T3: State := 23
  const F1: State := 24
  const F2: State := 25
  const F3: State := 26
  const F4: State := 27
  const N1: State := 28
  const N2: State := 29
  const N3: State := 30
  const C1: State := 31
  const C2: State := 32
  const C3: State := 33
  const Y1: State := 34
  const D1: State := 35
  const D2: State := 36

  /** Actions, numbered from 0x80 as in the source. */
  type Action = a: int | 0x80 <= a < 0x93 witness 0x80

  const KS: Action := 128
  const SP: Action := 129
  const AB: Action := 130
  const AE: Action := 131
  const OB: Action := 132
  const OE: Action := 133
  const CB: Action := 134
  const YB: Action := 135
  const CE: Action := 136
  const FA: Action := 137
  const TR: Action := 138
  const NU: Action := 139
  const DE: Action := 140
  const DF: Action := 141
  const SE: Action := 142
  const MX: Action := 143
  const ZX: Action := 144
  const IX: Action := 145
  const UC: Action := 146

  datatype Next = Reject | Goto(state: State) | Do(action: Action)

  predicate IsWhite(c: Class) { c == C_SPACE || c == C_NL || c == C_WHITE }

  predicate IsDigit(c: Class) { c == C_ZERO || c == C_DIGIT }

  predicate IsHex(c: Class) {
    IsDigit(c) || c == C_a || c == C_b || c == C_c || c == C_d || c == C_e || c == C_f || c == C_ABCDF || c == C_E
  }

  /** Comments can begin here. */
  function OrComment(c: Class): (n: Next)
    ensures n == Reject || n == Do(CB) || n == Do(YB)
  {
    if c == C_SLASH then Do(CB) else if c == C_HASH then Do(YB) else Reject
  }

  /** The rows of states in which a value is complete. */
  function AfterValue(c: Class): (n: Next)
    ensures n == Reject || n == Goto(OK) || n == Do(OE) || n == Do(AE) || n == Do(SP)
  {
    if IsWhite(c) then Goto(OK)
    else if c == C_RCURB then Do(OE)
    else if c == C_RSQRB then Do(AE)
    else if c == C_COMMA then Do(SP)
    else Reject
  }

  function OrElse(a: Next, b: Next): Next {
    if a == Reject then b else a
  }

  /** The rows of states in which a value may begin. */
  function BeginValue(c: Class): (n: Next)
    ensures n.Goto? ==> n.state == S_ || n.state == F1 || n.state == N1 || n.state == T1
    ensures n.Do? ==> n.action == OB || n.action == AB || n.action == MX || n.action == ZX || n.action == IX
                      || n.action == CB || n.action == YB
  {
    if c == C_LCURB then Do(OB)
    else if c == C_LSQRB then Do(AB)
    else if c == C_QUOTE then Goto(S_)
    else if c == C_MINUS then Do(MX)
    else if c == C_ZERO then Do(ZX)
    else if c == C_DIGIT then Do(IX)
    else if c == C_f then Goto(F1)
    else if c == C_n then Goto(N1)
    else if c == C_t then Goto(T1)
    else OrComment(c)
  }

  function On(hit: bool, next: Next): Next {
    if hit then next else Reject
  }

  datatype Section = BETWEEN | STRINGS | NUMBERS | LITERALS | COMMENTS

  function SectionOf(s: State): Section {
    if s <= A_ then BETWEEN
    else if s <= U4 || s >= D1 then STRINGS
    else if s <= X3 then NUMBERS
    else if s <= N3 then LITERALS
    else COMMENTS
  }

  /** The states between tokens. */
  predicate IsPosition(s: State) { SectionOf(s) == BETWEEN }

  predicate InString(s: State) { SectionOf(s) == STRINGS }

  predicate InNumber(s: State) { SectionOf(s) == NUMBERS }

  /** A number may end here. */
  predicate IsWhole(s: State) { s == Z0 || s == I0 || s == R2 || s == X3 }

  predicate InLiteral(s: State) { SectionOf(s) == LITERALS }

  predicate InComment(s: State) { SectionOf(s) == COMMENTS }

  /** How many hexadecimal digits of an escape have been read. */
  function Digits(s: State): nat {
    if s == U2 then 1 else if s == U3 then 2 else if s == U4 then 3 else 0
  }

  function PositionRow(s: State, c: Class): (n: Next)
    requires IsPosition(s)
    ensures n.Goto? && n.state != s ==> (n.state == S_ && (s == O_ || s == K_ || s == V_ || s == A_))
                                        || ((n.state == F1 || n.state == N1 || n.state == T1) && (s == V_ || s == A_))
    ensures n.Do? ==>
              (n.action == KS && (s == CO))
              || (n.action == SP && (s == OK))
              || (n.action == AE && (s == OK || s == A_))
              || (n.action == OE && (s == OK || s == O_))
              || ((n.action == AB || n.action == OB) && (s == GO || s == V_ || s == A_))
              || ((n.action == MX || n.action == ZX || n.action == IX) && (s == V_ || s == A_))
              || (n.action == CB || n.action == YB)
    ensures n != Reject ==> BufferPolicy(s, c) == if n == Do(MX) || n == Do(ZX) || n == Do(IX) then Append else Ignore
    ensures (n == Do(MX) ==> c == C_MINUS) && (n == Do(ZX) ==> c == C_ZERO) && (n == Do(IX) ==> c == C_DIGIT)
    ensures c == C_OTHER ==> n == Reject
  {
    if s == GO then (if IsWhite(c) then Goto(GO) else if c == C_LCURB then Do(OB) else if c == C_LSQRB then Do(AB)
        else OrComment(c))
    else if s == OK then OrElse(AfterValue(c), OrComment(c))
    else if s == O_ then (if IsWhite(c) then Goto(O_) else if c == C_RCURB then Do(OE)
        else if c == C_QUOTE then Goto(S_) else OrComment(c))
    else if s == K_ then (if IsWhite(c) then Goto(K_) else if c == C_QUOTE then Goto(S_) else OrComment(c))
    else if s == CO then (if IsWhite(c) then Goto(CO) else if c == C_COLON then Do(KS) else OrComment(c))
    else if s == V_ then (if IsWhite(c) then Goto(V_) else BeginValue(c))
    else if IsWhite(c) then Goto(A_) else if c == C_RSQRB then Do(AE) else BeginValue(c)
  }

  function StringRow(s: State, c: Class): (n: Next)
    requires InString(s)
    ensures n.Goto? ==> InString(n.state) && Digits(n.state) <= Digits(s) + (if IsHex(c) then 1 else 0)
    ensures n.Goto? && Digits(n.state) > 0 ==> s == U1 || s == U2 || s == U3
    ensures n.Do? ==> (n.action == SE && s == S_ && c == C_QUOTE) || (n.action == UC && s == U4 && IsHex(c))
    ensures n == Do(SE) ==> BufferPolicy(s, c) == Ignore
  {
    if s == S_ then (if c == C_NL || c == C_WHITE then Reject else if c == C_QUOTE then Do(SE)
        else if c == C_BACKS then Goto(E0) else Goto(S_))
    else if s == E0 then (if c == C_QUOTE || c == C_BACKS || c == C_SLASH || c == C_b || c == C_f || c == C_n
        || c == C_r || c == C_t then Goto(S_)
        else On(c == C_u, Goto(U1)))
    else if s == U1 then On(IsHex(c), Goto(U2))
    else if s == U2 then On(IsHex(c), Goto(U3))
    else if s == U3 then On(IsHex(c), Goto(U4))
    else if s == U4 then On(IsHex(c), Do(UC))
    else if s == D1 then On(c == C_BACKS, Goto(D2))
    else On(c == C_u, Goto(U1))
  }

  function NumberRow(s: State, c: Class): (n: Next)
    requires InNumber(s)
    ensures n.Goto? ==> InNumber(n.state) || (n.state == OK && IsWhole(s) && IsWhite(c))
    ensures n.Do? ==>
              (n.action == DE && (s == I0))
              || (n.action == DF && (s == Z0 || s == I0))
              || ((n.action == SP || n.action == AE || n.action == OE || n.action == CB || n.action == YB)
                  && (IsWhole(s)))
    ensures n == Goto(OK) || (n.Do? && n.action != DE && n.action != DF) ==> BufferPolicy(s, c) == Ignore
    ensures (n.Goto? && n.state != OK) || n == Do(DE) || n == Do(DF) ==> BufferPolicy(s, c) == Append
    ensures c == C_OTHER ==> n == Reject
  {
    if s == M0 then (if c == C_ZERO then Goto(Z0) else On(c == C_DIGIT, Goto(I0)))
    else if s == Z0 then (if c == C_DOT then Do(DF) else OrElse(AfterValue(c), OrComment(c)))
    else if s == I0 then (if c == C_DOT then Do(DF) else if IsDigit(c) then Goto(I0) else if c == C_e
        || c == C_E then Do(DE)
        else OrElse(AfterValue(c), OrComment(c)))
    else if s == R1 then On(IsDigit(c), Goto(R2))
    else if s == R2 then (if IsDigit(c) then Goto(R2) else if c == C_e
        || c == C_E then Goto(X1) else OrElse(AfterValue(c), OrComment(c)))
    else if s == X1 then (if c == C_PLUS || c == C_MINUS then Goto(X2) else On(IsDigit(c), Goto(X3)))
    else if s == X2 then On(IsDigit(c), Goto(X3))
    else if IsDigit(c) then Goto(X3) else AfterValue(c)
  }

  function LiteralRow(s: State, c: Class): (n: Next)
    requires InLiteral(s)
    ensures n.Goto? ==> InLiteral(n.state)
    ensures n.Do? ==> n.action == TR || n.action == FA || n.action == NU
    ensures c == C_OTHER ==> n == Reject
    ensures BufferPolicy(s, c) == Ignore
  {
    if s == T1 then On(c == C_r, Goto(T2))
    else if s == T2 then On(c == C_u, Goto(T3))
    else if s == T3 then On(c == C_e, Do(TR))
    else if s == F1 then On(c == C_a, Goto(F2))
    else if s == F2 then On(c == C_l, Goto(F3))
    else if s == F3 then On(c == C_s, Goto(F4))
    else if s == F4 then On(c == C_e, Do(FA))
    else if s == N1 then On(c == C_u, Goto(N2))
    else if s == N2 then On(c == C_l, Goto(N3))
    else On(c == C_l, Do(NU))
  }

  function CommentRow(s: State, c: Class): (n: Next)
    requires InComment(s)
    ensures n.Goto? ==> InComment(n.state)
    ensures n.Do? ==> n.action == CE && c != C_OTHER
    ensures c == C_OTHER && n.Goto? ==> n.state == C2 || n.state == Y1
    ensures BufferPolicy(s, c) == Ignore
  {
    if s == C1 then On(c == C_STAR, Goto(C2))
    else if s == C2 then (if c == C_STAR then Goto(C3) else Goto(C2))
    else if s == C3 then (if c == C_SLASH then Do(CE) else if c == C_STAR then Goto(C3) else Goto(C2))
    else if c == C_NL then Do(CE) else Goto(Y1)
  }

  /** state_transition_table. */
  function Transition(s: State, c: Class): Next
    requires c != C_ERROR
  {
    match SectionOf(s)
    case BETWEEN => PositionRow(s, c)
    case STRINGS => StringRow(s, c)
    case NUMBERS => NumberRow(s, c)
    case LITERALS => LiteralRow(s, c)
    case COMMENTS => CommentRow(s, c)
  }

  datatype Policy = Ignore | Append | Escape

  /** buffer_policy_table. */
  function BufferPolicy(s: State, c: Class): Policy {
    if s == V_ || s == A_ then (if c == C_MINUS || IsDigit(c) then Append else Ignore)
    else if s == S_ then (if c == C_NL || c == C_WHITE || c == C_QUOTE || c == C_BACKS then Ignore else Append)
    else if s == E0 then (if c == C_QUOTE || c == C_BACKS || c == C_SLASH || c == C_b || c == C_f || c == C_n
        || c == C_r || c == C_t then Escape
        else Ignore)
    else if s == U1 || s == U2 || s == U3 || s == U4 then (if IsHex(c) then Append else Ignore)
    else if s == M0 || s == R1 || s == X2 || s == X3 then (if IsDigit(c) then Append else Ignore)
    else if s == Z0 then (if c == C_DOT then Append else Ignore)
    else if s == I0 then (if c == C_DOT || IsDigit(c) || c == C_e || c == C_E then Append else Ignore)
    else if s == R2 then (if IsDigit(c) || c == C_e || c == C_E then Append else Ignore)
    else if s == X1 then (if c == C_PLUS || c == C_MINUS || IsDigit(c) then Append else Ignore)
    else Ignore
  }

  /** utf8_header_table: how many continuation bytes follow, or -1. */
  function Utf8Header(ch: Byte): int {
    if ch < 0x80 then 0
    else if ch < 0xc0 then -1
    else if ch < 0xe0 then 1
    else if ch < 0xf0 then 2
    else if ch < 0xf8 then 3
    else if ch < 0xfc then 4
    else if ch < 0xfe then 5
    else -1
  }

  /** utf8_continuation_table. */
  predicate IsContinuation(ch: Byte) { 0x80 <= ch < 0xc0 }

  /** hextable, for the bytes whose class is a hexadecimal digit. */
  function HexValue(ch: Byte): (v: int)
    ensures 0 <= v < 16
  {
    if 48 <= ch <= 57 then ch - 48 else if 65 <= ch <= 70 then ch - 55 else if 97 <= ch <= 102 then ch - 87 else 0
  }

  /** buffer_push_escape. */
  function Unescape(ch: Byte): Byte {
    if ch == 98 then 8 else if ch == 102 then 12 else if ch == 110 then 10 else if ch == 114 then 13
    else if ch == 116 then 9 else if ch == 34 || ch == 47 || ch == 92 then ch else 0
  }
}
