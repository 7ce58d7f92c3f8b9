/** The spelling of JSON numbers and strings, independent of the parser's tables. */
module JsonLexemes {
  import opened JsonTables

  const MINUS: Byte := 45
  const PLUS: Byte := 43
  const DOT: Byte := 46
  const ZERO: Byte := 48

  predicate IsDecimal(ch: Byte) { 48 <= ch <= 57 }

  predicate AllDigits(l: seq<Byte>) { l != [] && forall i :: 0 <= i < |l| ==> IsDecimal(l[i]) }

  function Unsigned(l: seq<Byte>): seq<Byte> {
    if l != [] && l[0] == MINUS then l[1..] else l
  }

  predicate IsZero(l: seq<Byte>) { Unsigned(l) == [ZERO] }

  /** Digits that do not begin with a zero. */
  predicate IsNonZero(l: seq<Byte>) { AllDigits(Unsigned(l)) && Unsigned(l)[0] != ZERO }

  predicate IsInt(l: seq<Byte>) { IsZero(l) || IsNonZero(l) }

  /** An integer and a point. */
  predicate IsPointed(l: seq<Byte>) { l != [] && l[|l| - 1] == DOT && IsInt(l[..|l| - 1]) }

  /** An integer, a point and digits. */
  predicate IsFraction(l: seq<Byte>) {
    exists i :: 0 < i < |l| && IsPointed(l[..i]) && AllDigits(l[i..])
  }

  /** What may stand before an exponent: the tables refuse one directly after a zero. */
  predicate IsMantissa(l: seq<Byte>) { IsNonZero(l) || IsFraction(l) }

  predicate EndsInE(l: seq<Byte>) {
    l != [] && (l[|l| - 1] == 101 || l[|l| - 1] == 69) && IsMantissa(l[..|l| - 1])
  }

  predicate EndsInSign(l: seq<Byte>) {
    l != [] && (l[|l| - 1] == PLUS || l[|l| - 1] == MINUS) && EndsInE(l[..|l| - 1])
  }

  predicate IsExponential(l: seq<Byte>) {
    exists i :: 0 < i < |l| && (EndsInE(l[..i]) || EndsInSign(l[..i])) && AllDigits(l[i..])
  }

  predicate IsFloat(l: seq<Byte>) { IsFraction(l) || IsExponential(l) }

  /** How many continuation bytes are missing after `s`, or -1 if `s` cannot be continued. */
  function Missing(s: seq<Byte>): (n: int)
    ensures -1 <= n <= 5
  {
    if s == [] then 0 else
      var n, ch := Missing(s[..|s| - 1]), s[|s| - 1];
      if n < 0 then -1 else if n == 0 then Utf8Header(ch) else if IsContinuation(ch) then n - 1 else -1
  }

  predicate ValidString(s: seq<Byte>) { Missing(s) == 0 }

  lemma MissingSnoc(s: seq<Byte>, ch: Byte)
    ensures Missing(s) == 0 ==> Missing(s + [ch]) == Utf8Header(ch)
    ensures Missing(s) > 0 && IsContinuation(ch) ==> Missing(s + [ch]) == Missing(s) - 1
    ensures ch < 128 && Missing(s + [ch]) == 0 ==> Missing(s) == 0
    ensures Missing(s) > 0 && !IsContinuation(ch) ==> Missing(s + [ch]) == -1
    ensures Missing(s) < 0 ==> Missing(s + [ch]) == -1
  {
    assert (s + [ch])[..|s|] == s;
  }

  lemma DigitsSnoc(l: seq<Byte>, ch: Byte)
    requires IsDecimal(ch)
    ensures l == [] || AllDigits(l) ==> AllDigits(l + [ch])
  {
  }

  lemma UnsignedSnoc(l: seq<Byte>, ch: Byte)
    requires l != []
    ensures Unsigned(l + [ch]) == Unsigned(l) + [ch]
  {
  }

  lemma NonZeroSnoc(l: seq<Byte>, ch: Byte)
    requires IsNonZero(l) && IsDecimal(ch)
    ensures IsNonZero(l + [ch])
  {
    UnsignedSnoc(l, ch);
    DigitsSnoc(Unsigned(l), ch);
  }

  lemma FractionSnoc(l: seq<Byte>, ch: Byte)
    requires (IsPointed(l) || IsFraction(l)) && IsDecimal(ch)
    ensures IsFraction(l + [ch])
  {
    hide IsPointed;
    var i := if IsFraction(l) then var k :| 0 < k < |l| && IsPointed(l[..k]) && AllDigits(l[k..]); k else |l|;
    assert (l + [ch])[..i] == l[..i] && (l + [ch])[i..] == l[i..] + [ch];
    if i == |l| {
      assert l[..i] == l;
      PointedNotEmpty(l);
    }
    DigitsSnoc(l[i..], ch);
    assert IsPointed((l + [ch])[..i]) && AllDigits((l + [ch])[i..]);
  }

  lemma PointedNotEmpty(l: seq<Byte>)
    ensures IsPointed(l) ==> l != []
  {
  }

  lemma ExponentSnoc(l: seq<Byte>, ch: Byte)
    requires (EndsInE(l) || EndsInSign(l) || IsExponential(l)) && IsDecimal(ch)
    ensures IsExponential(l + [ch])
  {
    hide IsMantissa;
    var i := if IsExponential(l) then var k :| 0 < k < |l| && (EndsInE(l[..k]) || EndsInSign(l[..k]))
        && AllDigits(l[k..]); k else |l|;
    assert (l + [ch])[..i] == l[..i] && (l + [ch])[i..] == l[i..] + [ch];
    if i == |l| {
      assert l[..i] == l;
    }
    DigitsSnoc(l[i..], ch);
    assert (EndsInE((l + [ch])[..i]) || EndsInSign((l + [ch])[..i])) && AllDigits((l + [ch])[i..]);
  }
}
