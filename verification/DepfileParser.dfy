/** The in-place depfile parser (src/depfile_parser.cpp) and the tokenizer that it refines. */
module DepfileParsing {

  const NUL: char := 0 as char

  /** What a depfile lists: the target it is about and the files that target depends on. */
  datatype Parsed = ParseError | Deps(output: string, ins: seq<string>)

  /** The characters that need no escape, the colon among them, as the scanner's table of 256 entries
      marks them.  The scanner indexes it with a plain character, so where that type is signed the
      program leaves its table for bytes above 127. */
  predicate IsPlain(c: char) {
    c == '!' || '(' <= c <= ')' || '+' <= c <= ':' || c == '=' || '@' <= c <= 'Z' || c == '_' || 'a' <= c <= 'z'
        || c == '~'
  }

  /** The characters that a backslash escapes. */
  predicate IsEscapable(c: char) {
    c == ' ' || c == '#' || c == '*' || c == '[' || c == '\\' || c == '|'
  }

  // ----- The tokenizer -----

  /** A piece of a name and where it ends, or the end of the name. */
  datatype Piece = Text(text: string, next: nat) | End(next: nat)

  /** A buffer that ends in a terminator. */
  predicate Terminated(s: string) { s != "" && s[|s| - 1] == NUL }

  function Scan(s: string, i: nat): (p: Piece)
    requires Terminated(s) && i < |s|
    ensures i < p.next <= |s|
    ensures p.Text? ==> p.next < |s| && 0 < |p.text| <= p.next - i
  {
    var c := s[i];
    if c == '\\' then
      var d := s[i + 1];
      if d == NUL || d == '\n' then End(i + 1) else if IsEscapable(d) then Text([d], i + 2) else Text(['\\', d], i + 2)
    else if c == '$' then (if s[i + 1] == '$' then Text("$", i + 2) else End(i + 1))
    else if IsPlain(c) then Text([c], i + 1)
    else End(i + 1)
  }

  /** A name and where the input goes on after it. */
  datatype Name = Name(text: string, next: nat)

  function NameFrom(s: string, i: nat): (n: Name)
    requires Terminated(s) && i < |s|
    ensures i < n.next <= |s| && |n.text| <= n.next - i
    decreases |s| - i
  {
    match Scan(s, i)
    case End(next) => Name("", next)
    case Text(text, next) => var n := NameFrom(s, next); Name(text + n.text, n.next)
  }

  /** A name that ends in a colon is the last target. */
  predicate EndsTargets(name: string) { name != "" && name[|name| - 1] == ':' }

  function Stripped(name: string): string {
    if EndsTargets(name) then name[..|name| - 1] else name
  }

  /** What has been read so far: whether targets are still being read, the target, the inputs. */
  datatype Reading = Reading(targets: bool, found: bool, output: string, ins: seq<string>)

  function Note(p: Reading, name: string): Reading {
    var text := Stripped(name);
    var q := p.(targets := p.targets && !EndsTargets(name));
    if text == "" then q
    else if !p.targets then q.(ins := p.ins + [text])
    else if !p.found then q.(found := true, output := text)
    else q
  }

  /** A second, different target. */
  predicate Clashes(p: Reading, name: string) {
    Stripped(name) != "" && p.targets && p.found && p.output != Stripped(name)
  }

  function Tokens(s: string, i: nat, p: Reading): Parsed
    requires Terminated(s)
    decreases |s| - i
  {
    if i >= |s| - 1 then Deps(p.output, p.ins) else
      var n := NameFrom(s, i);
      if Clashes(p, n.text) then ParseError else Tokens(s, n.next, Note(p, n.text))
  }

  const START := Reading(true, false, "", [])

  /** The contents of a depfile, a buffer that ends in a terminator. */
  function Tokenize(s: string): Parsed
    requires Terminated(s)
  {
    Tokens(s, 0, START)
  }

  /** A run of plain characters is a piece of the name as it is. */
  lemma {:induction false} PlainRun(s: string, i: nat, e: nat)
    requires Terminated(s) && i <= e < |s| && forall k :: i <= k < e ==> IsPlain(s[k])
    ensures i < |s| && NameFrom(s, i) == Name(s[i..e] + NameFrom(s, e).text, NameFrom(s, e).next)
    decreases e - i
  {
    hide IsPlain;
    if i < e {
      PlainIsText(s, i);
      PlainRun(s, i + 1, e);
      assert s[i..e] == [s[i]] + s[i + 1..e];
    } else {
      assert s[i..e] == "";
    }
  }

  lemma PlainIsText(s: string, i: nat)
    requires Terminated(s) && i < |s| && IsPlain(s[i])
    ensures i + 1 < |s| && Scan(s, i) == Text([s[i]], i + 1)
  {
  }

  // ----- The parser -----

  /** A part of the buffer. */
  datatype Slice = Slice(start: nat, len: nat)

  predicate Inside(x: Slice, bound: nat) { x.start + x.len <= bound }

  function At(s: string, x: Slice): string
    requires Inside(x, |s|)
  {
    s[x.start..x.start + x.len]
  }

  /** memmove to a lower address. */
  method Shift(content: array<char>, out: nat, start: nat, len: nat)
    requires out <= start && start + len <= content.Length
    modifies content
    ensures content[..out] == old(content[..out])
    ensures content[out..out + len] == old(content[start..start + len])
    ensures content[start + len..] == old(content[start + len..])
  {
    ghost var was := content[..];
    var k := 0;
    while k < len
      invariant k <= len
      invariant forall j :: 0 <= j < out ==> content[j] == was[j]
      invariant forall j :: out <= j < out + k ==> content[j] == was[j - out + start]
      invariant forall j :: start + k <= j < content.Length ==> content[j] == was[j]
    {
      content[out + k] := content[start + k];
      k := k + 1;
    }
    assert content[out..out + len] == was[start..start + len];
  }

  /** A run of plain characters goes to `to`. */
  method ReadPlain(content: array<char>, at: nat, to: nat, ghost original: string) returns (next: nat, out: nat)
    requires Terminated(original) && |original| == content.Length && to <= at < content.Length
    requires content[at..] == original[at..] && IsPlain(content[at])
    modifies content
    ensures to <= out <= next < content.Length && at < next
    ensures content[..to] == old(content[..to]) && content[next..] == original[next..]
    ensures NameFrom(original, at) == Name(content[to..out] + NameFrom(original, next).text,
            NameFrom(original, next).next)
  {
    hide IsPlain, NameFrom;
    Unread(original, content[..], at);
    NulIsNotPlain();
    next := at + 1;
    while IsPlain(content[next])
      invariant at < next < content.Length && content[..] == old(content[..])
      invariant forall k :: at <= k < next ==> IsPlain(original[k])
      decreases content.Length - next
    {
      next := next + 1;
    }
    PlainRun(original, at, next);
    out := to + (next - at);
    assert content[at..next] == original[at..next] && content[next..] == original[next..];
    if to < at {
      Shift(content, to, at, next - at);
    }
  }

  /** Puts one or two characters at `to`. */
  method Put(content: array<char>, to: nat, text: string)
    requires 0 < |text| <= 2 && to + |text| <= content.Length
    modifies content
    ensures content[..to] == old(content[..to]) && content[to..to + |text|] == text
    ensures content[to + |text|..] == old(content[to + |text|..])
  {
    content[to] := text[0];
    if |text| == 2 {
      content[to + 1] := text[1];
    }
  }

  /** One round of the inner loop: the next piece of a name goes to `to`, and the output position
      never passes the input.  `original` is the buffer as it was before any name was read. */
  method ReadPiece(content: array<char>, at: nat, to: nat, ghost original: string) returns (done: bool, next: nat,
                   out: nat)
    requires Terminated(original) && |original| == content.Length && to <= at < content.Length
    requires content[at..] == original[at..]
    modifies content
    ensures to <= out <= next <= content.Length && at < next && (!done ==> next < content.Length)
    ensures content[..to] == old(content[..to]) && content[next..] == original[next..]
    ensures NameFrom(original, at).next == if done then next else NameFrom(original, next).next
    ensures NameFrom(original, at).text == content[to..out] + if done then "" else NameFrom(original, next).text
  {
    hide IsPlain, IsEscapable, NameFrom, Scan;
    Unread(original, content[..], at);
    PieceAt(original, at);
    var c := content[at];
    next, out, done := at + 1, to, true;
    if c == '\\' {
      var d := content[next];
      if d == NUL || d == '\n' {
        Rest(content[..], content[..], original, at, out, next);
        return;
      }
      next, done := next + 1, false;
      if IsEscapable(d) {
        Put(content, out, [d]);
        out := out + 1;
      } else {
        Put(content, out, ['\\', d]);
        out := out + 2;
      }
      Rest(old(content[..]), content[..], original, at, out, next);
    } else if c == '$' && content[next] == '$' {
      next, done := next + 1, false;
      Put(content, out, "$");
      out := out + 1;
      Rest(old(content[..]), content[..], original, at, out, next);
    } else if IsPlain(c) {
      next, out := ReadPlain(content, at, to, original);
      done := false;
    } else {
      Rest(content[..], content[..], original, at, out, next);
    }
  }

  /** What stands at a position, and how the name goes on. */
  lemma PieceAt(s: string, i: nat)
    requires Terminated(s) && i < |s|
    ensures s[i] == '\\' || s[i] == '$' ==> i + 1 < |s|
    ensures s[i] == '\\' && (s[i + 1] == NUL || s[i + 1] == '\n') ==> NameFrom(s, i) == Name("", i + 1)
    ensures (s[i] == '\\' && s[i + 1] != NUL && s[i + 1] != '\n') || (s[i] == '$' && s[i + 1] == '$') ==>
              && i + 2 < |s|
              && NameFrom(s, i) == Name((if s[i] == '$' then "$" else if IsEscapable(s[i + 1]) then [s[i + 1]]
                  else ['\\', s[i + 1]])
                                        + NameFrom(s, i + 2).text, NameFrom(s, i + 2).next)
    ensures s[i] != '\\' && !(s[i] == '$' && s[i + 1] == '$') && !IsPlain(s[i]) ==> NameFrom(s, i) == Name("", i + 1)
    ensures !IsPlain('\\') && !IsPlain('$')
  {
    hide NameFrom, IsEscapable;
    OnePiece(s, i);
  }

  lemma OnePiece(s: string, i: nat)
    requires Terminated(s) && i < |s|
    ensures Scan(s, i).End? ==> NameFrom(s, i) == Name("", Scan(s, i).next)
    ensures Scan(s, i).Text? ==>
              NameFrom(s, i) == Name(Scan(s, i).text + NameFrom(s, Scan(s, i).next).text,
                  NameFrom(s, Scan(s, i).next).next)
  {
    hide Scan;
  }

  lemma Rest(before: string, now: string, original: string, at: nat, out: nat, next: nat)
    requires |before| == |now| == |original| && at <= next <= |now| && out <= next
    requires before[at..] == original[at..] && now[out..] == before[out..]
    ensures now[next..] == original[next..]
  {
    assert now[next..] == now[out..][next - out..];
    assert before[next..] == before[out..][next - out..] == before[at..][next - at..];
  }

  lemma NulIsNotPlain()
    ensures !IsPlain(NUL)
  {
  }

  /** What has not been read yet is as it was. */
  lemma Unread(original: string, now: string, at: nat)
    requires |original| == |now| && at <= |now| && now[at..] == original[at..]
    ensures forall k :: at <= k < |now| ==> now[k] == original[k]
  {
    forall k | at <= k < |now| ensures now[k] == original[k] {
      assert now[at..][k - at] == original[at..][k - at];
    }
  }

  /** The inner loop: reads one name at `start` and leaves it, without its escapes, at `start`.
      `original` is the buffer as it was before any name was read. */
  method ReadName(content: array<char>, start: nat, ghost original: string) returns (next: nat, out: nat)
    requires Terminated(original) && |original| == content.Length && start < content.Length
    requires content[start..] == original[start..]
    modifies content
    ensures next == NameFrom(original, start).next && start <= out <= next
    ensures content[start..out] == NameFrom(original, start).text
    ensures content[..start] == old(content[..start])
    ensures content[next..] == original[next..]
  {
    hide NameFrom;
    next, out := start, start;
    ghost var name := NameFrom(original, start);
    assert content[start..out] == "";
    while true
      invariant start <= out <= next < content.Length
      invariant content[..start] == old(content[..start]) && content[next..] == original[next..]
      invariant content[start..out] + NameFrom(original, next).text == name.text
                && NameFrom(original, next).next == name.next
      decreases content.Length - next
    {
      ghost var before, to := content[..], out;
      var done;
      done, next, out := ReadPiece(content, next, out, original);
      Longer(before, content[..], start, to, out);
      if done {
        return;
      }
    }
  }

  lemma Longer(before: string, now: string, start: nat, to: nat, out: nat)
    requires |before| == |now| && start <= to <= out <= |now| && before[..to] == now[..to]
    ensures now[start..out] == before[start..to] + now[to..out] && now[..start] == before[..start]
  {
    assert now[start..to] == now[..to][start..] == before[start..to];
  }

  /** The slices of the buffer that have been recorded. */
  function Texts(s: string, xs: seq<Slice>): (ts: seq<string>)
    requires forall i :: 0 <= i < |xs| ==> Inside(xs[i], |s|)
    ensures |ts| == |xs| && forall i :: 0 <= i < |xs| ==> ts[i] == At(s, xs[i])
  {
    seq(|xs|, i requires 0 <= i < |xs| => At(s, xs[i]))
  }

  class DepfileParser {
    var found: bool
    var out: Slice
    var ins: seq<Slice>

    constructor ()
      ensures !found && ins == [] && out == Slice(0, 0)
    {
      found, out, ins := false, Slice(0, 0), [];
    }

    /** Everything recorded lies before position `bound`. */
    ghost predicate Before(bound: nat)
      reads this
    {
      Inside(out, bound) && forall i :: 0 <= i < |ins| ==> Inside(ins[i], bound)
    }

    /** What the recorded slices of buffer `s` say. */
    ghost function View(s: string, targets: bool): Reading
      reads this
      requires Before(|s|)
    {
      Reading(targets, found, At(s, out), Texts(s, ins))
    }

    /** Records a name; a second target that differs is an error. */
    method Record(content: array<char>, start: nat, end: nat, targets: bool) returns (ok: bool, parsingTargets: bool)
      requires start <= end <= content.Length && Before(content.Length) && Before(end)
      modifies this
      ensures Before(content.Length) && Before(end)
      ensures var (p, name) := (old(View(content[..], targets)), content[start..end]);
              ok == !Clashes(p, name) && (ok ==> View(content[..], parsingTargets) == Note(p, name))
    {
      ghost var s := content[..];
      var len := end - start;
      ok, parsingTargets := true, targets;
      assert content[start..end] == s[start..end];
      if len > 0 && content[start + len - 1] == ':' {
        len := len - 1;
        parsingTargets := false;
      }
      assert Stripped(s[start..end]) == At(s, Slice(start, len));
      if len == 0 {
        return;
      }
      if !targets {
        ins := ins + [Slice(start, len)];
      } else if !found {
        found, out := true, Slice(start, len);
      } else {
        ok := content[out.start..out.start + out.len] == content[start..start + len];
      }
    }

    /** DepfileParser::Parse: what has been recorded at the end is what the tokenizer finds in the
        original contents. */
    method Parse(content: array<char>) returns (ok: bool)
      requires content.Length > 0 && content[content.Length - 1] == NUL
      requires !found && ins == [] && out == Slice(0, 0)
      modifies this, content
      ensures ok <==> Tokenize(old(content[..])).Deps?
      ensures ok ==> Before(content.Length)
                     && Tokenize(old(content[..])) == Deps(At(content[..], out), Texts(content[..], ins))
    {
      hide Tokens, NameFrom, Clashes, Note;
      ghost var original := content[..];
      var pos, targets := 0, true;
      assert View(content[..], true) == START;
      while pos < content.Length - 1
        invariant pos <= content.Length == |original|
        invariant content[pos..] == original[pos..]
        invariant Before(pos)
        invariant Tokens(original, pos, View(content[..], targets)) == Tokenize(original)
        decreases content.Length - pos
      {
        ghost var before, seen := content[..], View(content[..], targets);
        var next, end := ReadName(content, pos, original);
        SlicesKept(before, content[..], pos, out, ins);
        assert View(content[..], targets) == seen;
        NextName(original, pos, seen);
        ok, targets := Record(content, pos, end, targets);
        if !ok {
          return;
        }
        pos := next;
      }
      NoMore(original, pos, View(content[..], targets));
      ok := true;
    }
  }

  /** Writing behind a position does not touch the slices recorded before it. */
  lemma SlicesKept(before: string, now: string, pos: nat, out: Slice, ins: seq<Slice>)
    requires pos <= |before| == |now| && before[..pos] == now[..pos] && Inside(out, pos)
    requires forall i :: 0 <= i < |ins| ==> Inside(ins[i], pos) && Inside(ins[i], |now|)
    ensures At(before, out) == At(now, out) && Texts(before, ins) == Texts(now, ins)
  {
    KeptOne(before, now, pos, out);
    forall i | 0 <= i < |ins| ensures At(before, ins[i]) == At(now, ins[i]) {
      KeptOne(before, now, pos, ins[i]);
    }
  }

  lemma KeptOne(before: string, now: string, pos: nat, x: Slice)
    requires pos <= |before| == |now| && before[..pos] == now[..pos] && Inside(x, pos)
    ensures At(before, x) == At(now, x)
  {
    assert At(before, x) == before[..pos][x.start..x.start + x.len];
    assert At(now, x) == now[..pos][x.start..x.start + x.len];
  }

  lemma NextName(s: string, i: nat, p: Reading)
    requires Terminated(s) && i < |s| - 1
    ensures var n := NameFrom(s, i);
            Tokens(s, i, p) == if Clashes(p, n.text) then ParseError else Tokens(s, n.next, Note(p, n.text))
  {
    hide NameFrom, Clashes, Note;
  }

  lemma NoMore(s: string, i: nat, p: Reading)
    requires Terminated(s) && i >= |s| - 1
    ensures Tokens(s, i, p) == Deps(p.output, p.ins)
  {
  }

  // ----- The language of depfiles -----

  /** The characters that stand for themselves. */
  predicate IsItself(c: char) {
    || 'A' <= c <= 'Z' || 'a' <= c <= 'z' || '0' <= c <= '9'
    || c == '!' || c == '(' || c == ')' || c == '+' || c == ',' || c == '-' || c == '.' || c == '/' || c == ':'
    || c == '=' || c == '@' || c == '_' || c == '~'
  }

  /** The characters that a backslash makes part of a name. */
  predicate TakesBackslash(c: char) {
    c == ' ' || c == '#' || c == '*' || c == '[' || c == '\\' || c == '|'
  }

  /** One element of a spelled name. */
  datatype Letter = Plain(c: char) | Escaped(c: char) | Dollar | Verbatim(c: char)

  /** A backslash stays in the name before anything but the escaped characters, a line end and the
      terminator. */
  predicate IsLetter(l: Letter) {
    match l
    case Plain(c) => IsItself(c)
    case Escaped(c) => TakesBackslash(c)
    case Dollar => true
    case Verbatim(c) => !TakesBackslash(c) && c != '\n' && c != NUL
  }

  function Spelled(l: Letter): string {
    match l
    case Plain(c) => [c]
    case Escaped(c) => ['\\', c]
    case Dollar => "$$"
    case Verbatim(c) => ['\\', c]
  }

  function Meant(l: Letter): string {
    match l
    case Plain(c) => [c]
    case Escaped(c) => [c]
    case Dollar => "$"
    case Verbatim(c) => ['\\', c]
  }

  function SpellName(ls: seq<Letter>): string {
    if ls == [] then "" else Spelled(ls[0]) + SpellName(ls[1..])
  }

  function MeanName(ls: seq<Letter>): string {
    if ls == [] then "" else Meant(ls[0]) + MeanName(ls[1..])
  }

  /** What stands between names: any other character, or a continued line. */
  datatype Sep = Break(c: char) | Continued

  predicate IsSep(x: Sep) {
    x.Break? ==> !IsItself(x.c) && x.c != '\\' && x.c != '$'
  }

  function SepText(x: Sep): string {
    if x.Break? then [x.c] else "\\\n"
  }

  function SepsText(xs: seq<Sep>): string {
    if xs == [] then "" else SepText(xs[0]) + SepsText(xs[1..])
  }

  /** An input and what stands before it. */
  datatype Item = Item(seps: seq<Sep>, letters: seq<Letter>)

  predicate IsItem(x: Item) {
    x.seps != [] && (forall y :: y in x.seps ==> IsSep(y)) && IsSpelling(x.letters)
  }

  /** A name that is neither empty nor taken for the last target. */
  predicate IsSpelling(ls: seq<Letter>) {
    && (forall l :: l in ls ==> IsLetter(l))
    && MeanName(ls) != "" && MeanName(ls)[|MeanName(ls)| - 1] != ':'
  }

  function ItemsText(xs: seq<Item>): string {
    if xs == [] then "" else SepsText(xs[0].seps) + (SpellName(xs[0].letters) + ItemsText(xs[1..]))
  }

  function Meanings(xs: seq<Item>): seq<string> {
    seq(|xs|, k requires 0 <= k < |xs| => MeanName(xs[k].letters))
  }

  /** A depfile: a target, possibly some space, a colon, and the inputs. */
  datatype DepfileText = DepfileText(lead: seq<Sep>, target: seq<Letter>, gap: seq<Sep>, inputs: seq<Item>,
                                     tail: seq<Sep>)

  predicate IsDepfile(d: DepfileText) {
    && (forall x :: x in d.lead ==> IsSep(x)) && (forall x :: x in d.gap ==> IsSep(x))
    && (forall x :: x in d.tail ==> IsSep(x)) && (forall x :: x in d.inputs ==> IsItem(x)) && IsSpelling(d.target)
  }

  function TextOf(d: DepfileText): string {
    SepsText(d.lead) + (SpellName(d.target) + (SepsText(d.gap) + (":" + (ItemsText(d.inputs) + Ending(d.tail)))))
  }

  function Ending(tail: seq<Sep>): string { SepsText(tail) + [NUL] }

  /** The tables of the scanner hold exactly these characters. */
  lemma TablesAre(c: char)
    ensures IsPlain(c) <==> IsItself(c)
    ensures IsEscapable(c) <==> TakesBackslash(c)
  {
  }

  /** A name goes on exactly at a plain character, at a doubled dollar, and at a backslash that is not
      followed by a line end or the terminator. */
  lemma NameEndsIff(s: string, i: nat)
    requires Terminated(s) && i < |s|
    ensures Scan(s, i).Text? <==>
              || IsItself(s[i])
              || (s[i] == '$' && i + 1 < |s| && s[i + 1] == '$')
              || (s[i] == '\\' && i + 1 < |s| && s[i + 1] != '\n' && s[i + 1] != NUL)
    ensures Scan(s, i).End? ==> Scan(s, i).next == i + 1
  {
    hide IsPlain, IsEscapable, IsItself;
    TablesAre(s[i]);
    SpecialNotPlain();
  }

  lemma SpecialNotPlain()
    ensures !IsItself('\\') && !IsItself('$') && !IsItself(NUL) && !IsItself('\n') && IsItself(':')
    ensures !IsPlain('\\') && !IsPlain('$') && !IsPlain(NUL)
  {
  }

  /** One spelled letter is read back. */
  lemma LetterReadsBack(s: string, i: nat, l: Letter)
    requires Terminated(s) && IsLetter(l) && i + |Spelled(l)| < |s| && s[i..i + |Spelled(l)|] == Spelled(l)
    ensures i < |s| && Scan(s, i) == Text(Meant(l), i + |Spelled(l)|)
  {
    hide IsPlain, IsEscapable, IsItself, TakesBackslash;
    var t := s[i..i + |Spelled(l)|];
    assert t[0] == s[i];
    if |t| == 2 {
      assert t[1] == s[i + 1];
      TablesAre(s[i + 1]);
    }
    TablesAre(s[i]);
    SpecialNotPlain();
    EscapedAre();
  }

  lemma EscapedAre()
    ensures !TakesBackslash(NUL) && !TakesBackslash('\n') && TakesBackslash('\\')
  {
  }

  lemma Drop(s: string, i: nat, a: string, b: string)
    requires i <= |s| && s[i..] == a + b
    ensures i + |a| <= |s| && s[i + |a|..] == b && s[i..i + |a|] == a && i + |a| + |b| == |s|
  {
    assert s[i + |a|..] == s[i..][|a|..];
    assert s[i..i + |a|] == s[i..][..|a|];
  }

  /** A spelled name is read back, and what stands behind it continues the name. */
  lemma {:induction false} NameReadsBack(s: string, i: nat, ls: seq<Letter>, rest: string)
    requires Terminated(s) && i <= |s| && s[i..] == SpellName(ls) + rest && rest != ""
    requires forall l :: l in ls ==> IsLetter(l)
    ensures i < |s|
    ensures var e := i + |SpellName(ls)|;
            e < |s| && NameFrom(s, i) == Name(MeanName(ls) + NameFrom(s, e).text, NameFrom(s, e).next)
    decreases |ls|
  {
    hide NameFrom, Scan, IsLetter, Spelled, Meant, Terminated, IsItself, TakesBackslash;
    Drop(s, i, SpellName(ls), rest);
    if ls == [] {
      assert MeanName(ls) + NameFrom(s, i).text == NameFrom(s, i).text;
    } else {
      var l, more := ls[0], ls[1..];
      assert s[i..] == Spelled(l) + (SpellName(more) + rest);
      Drop(s, i, Spelled(l), SpellName(more) + rest);
      LetterReadsBack(s, i, l);
      OnePiece(s, i);
      NameReadsBack(s, i + |Spelled(l)|, more, rest);
      MeansMore(ls, NameFrom(s, i + |SpellName(ls)|).text);
    }
  }

  lemma MeansMore(ls: seq<Letter>, text: string)
    requires ls != []
    ensures Meant(ls[0]) + (MeanName(ls[1..]) + text) == MeanName(ls) + text
  {
    hide Meant;
  }

  /** At position `i` a name is over. */
  predicate AtBreak(s: string, i: nat) {
    i < |s| && ((!IsItself(s[i]) && s[i] != '\\' && s[i] != '$') || (i + 1 < |s| && s[i] == '\\' && s[i + 1] == '\n'))
  }

  lemma BreakEnds(s: string, i: nat)
    requires Terminated(s) && AtBreak(s, i)
    ensures NameFrom(s, i) == Name("", i + 1)
  {
    hide IsItself, IsPlain;
    SpecialNotPlain();
    NameEndsIff(s, i);
  }

  /** A name that is over is read as a whole. */
  lemma WholeName(s: string, i: nat, ls: seq<Letter>, rest: string)
    requires Terminated(s) && i <= |s| && s[i..] == SpellName(ls) + rest && (forall l :: l in ls ==> IsLetter(l))
    requires AtBreak(s, i + |SpellName(ls)|)
    ensures i < |s| && NameFrom(s, i) == Name(MeanName(ls), i + |SpellName(ls)| + 1)
  {
    hide NameFrom, IsLetter, SpellName, MeanName, IsItself;
    Drop(s, i, SpellName(ls), rest);
    NameReadsBack(s, i, ls, rest);
    BreakEnds(s, i + |SpellName(ls)|);
    assert MeanName(ls) + "" == MeanName(ls);
  }

  /** Reading such a name goes one character beyond it. */
  lemma ReadOne(s: string, i: nat, ls: seq<Letter>, rest: string, p: Reading)
    requires Terminated(s) && i <= |s| && s[i..] == SpellName(ls) + rest && (forall l :: l in ls ==> IsLetter(l))
    requires AtBreak(s, i + |SpellName(ls)|) && MeanName(ls) != ""
    ensures Clashes(p, MeanName(ls)) ==> Tokens(s, i, p) == ParseError
    ensures !Clashes(p, MeanName(ls)) ==> Tokens(s, i, p) == Tokens(s, i + |SpellName(ls)| + 1, Note(p, MeanName(ls)))
  {
    hide NameFrom, IsLetter, MeanName, IsItself, Clashes, Note, Tokens, SpellName;
    SpellsSomething(ls);
    WholeName(s, i, ls, rest);
    BreakInside(s, i + |SpellName(ls)|);
    NextName(s, i, p);
  }

  lemma SpellsSomething(ls: seq<Letter>)
    requires MeanName(ls) != ""
    ensures |SpellName(ls)| > 0
  {
  }

  /** Nothing is noted at a separator. */
  lemma SkipBreak(s: string, i: nat, p: Reading)
    requires Terminated(s) && AtBreak(s, i) && i < |s| - 1
    ensures Tokens(s, i, p) == Tokens(s, i + 1, p)
  {
    hide NameFrom, IsItself;
    BreakEnds(s, i);
    NextName(s, i, p);
  }

  /** Separators between names are skipped. */
  lemma {:induction false} SkipSeps(s: string, i: nat, xs: seq<Sep>, rest: string, p: Reading)
    requires Terminated(s) && i <= |s| && s[i..] == SepsText(xs) + rest && rest != ""
    requires forall x :: x in xs ==> IsSep(x)
    ensures Tokens(s, i, p) == Tokens(s, i + |SepsText(xs)|, p)
    ensures xs != [] ==> AtBreak(s, i)
    decreases |xs|
  {
    hide Tokens, AtBreak, Terminated, IsItself, IsSep;
    if xs != [] {
      var x, more := xs[0], xs[1..];
      assert s[i..] == SepText(x) + (SepsText(more) + rest);
      Drop(s, i, SepText(x), SepsText(more) + rest);
      SkipSep(s, i, x, p);
      SkipSeps(s, i + |SepText(x)|, more, rest, p);
    }
  }

  lemma SkipSep(s: string, i: nat, x: Sep, p: Reading)
    requires Terminated(s) && IsSep(x) && i + |SepText(x)| < |s| && s[i..i + |SepText(x)|] == SepText(x)
    ensures Tokens(s, i, p) == Tokens(s, i + |SepText(x)|, p) && AtBreak(s, i)
  {
    hide Tokens, IsItself;
    var t := s[i..i + |SepText(x)|];
    assert t[0] == s[i];
    SpecialNotPlain();
    SkipBreak(s, i, p);
    if x.Continued? {
      assert t[1] == s[i + 1];
      SkipBreak(s, i + 1, p);
    }
  }

  /** The separators behind a name, of which reading the name has taken the first character. */
  lemma AfterName(s: string, e: nat, xs: seq<Sep>, rest: string, p: Reading)
    requires Terminated(s) && e <= |s| && s[e..] == SepsText(xs) + rest && rest != "" && xs != []
    requires forall x :: x in xs ==> IsSep(x)
    ensures AtBreak(s, e) && Tokens(s, e + 1, p) == Tokens(s, e + |SepsText(xs)|, p)
  {
    hide Tokens, IsItself;
    SkipSeps(s, e, xs, rest, p);
    Drop(s, e, SepsText(xs), rest);
    assert SepsText(xs) != "";
    SkipBreak(s, e, p);
  }

  /** The end of the inputs. */
  lemma AtEnd(s: string, e: nat, tail: seq<Sep>, p: Reading)
    requires Terminated(s) && e <= |s| && s[e..] == Ending(tail) && (forall x :: x in tail ==> IsSep(x))
    ensures AtBreak(s, e) && Tokens(s, e, p) == Deps(p.output, p.ins)
    ensures Tokens(s, e + 1, p) == Deps(p.output, p.ins)
  {
    hide Tokens, IsItself;
    SpecialNotPlain();
    SkipSeps(s, e, tail, [NUL], p);
    Drop(s, e, SepsText(tail), [NUL]);
    NoMore(s, |s| - 1, p);
    if tail == [] {
      assert s[e] == s[e..][0] == NUL;
      NoMore(s, e + 1, p);
    } else {
      AfterName(s, e, tail, [NUL], p);
    }
  }

  /** The inputs are read back in order, wherever they are separated and however they are spelled. */
  lemma {:induction false} InputsReadBack(s: string, e: nat, xs: seq<Item>, tail: seq<Sep>, p: Reading)
    requires Terminated(s) && e <= |s| && s[e..] == ItemsText(xs) + Ending(tail) && !p.targets
    requires (forall x :: x in xs ==> IsItem(x)) && (forall x :: x in tail ==> IsSep(x))
    ensures AtBreak(s, e) && Tokens(s, e + 1, p) == Deps(p.output, p.ins + Meanings(xs))
    decreases |xs|
  {
    hide Tokens, IsItself, AtBreak, Terminated, NameFrom, IsSep, Ending, SepsText, SpellName, MeanName, IsLetter;
    if xs == [] {
      assert ItemsText(xs) + Ending(tail) == Ending(tail);
      AtEnd(s, e, tail, p);
      assert p.ins + Meanings(xs) == p.ins;
    } else {
      var x, more := xs[0], xs[1..];
      var rest := ItemsText(more) + Ending(tail);
      assert IsItem(x);
      assert s[e..] == SepsText(x.seps) + (SpellName(x.letters) + rest);
      EndsSomewhere(tail);
      AfterName(s, e, x.seps, SpellName(x.letters) + rest, p);
      Drop(s, e, SepsText(x.seps), SpellName(x.letters) + rest);
      var i := e + |SepsText(x.seps)|;
      Drop(s, i, SpellName(x.letters), rest);
      var q := p.(ins := p.ins + [MeanName(x.letters)]);
      InputsReadBack(s, i + |SpellName(x.letters)|, more, tail, q);
      ReadOne(s, i, x.letters, rest, p);
      NoteInput(p, MeanName(x.letters));
      assert Meanings(xs) == [MeanName(x.letters)] + Meanings(more);
      assert q.ins + Meanings(more) == p.ins + Meanings(xs);
    }
  }

  lemma EndsSomewhere(tail: seq<Sep>)
    ensures Ending(tail) != ""
  {
  }

  lemma NoteInput(p: Reading, name: string)
    requires !p.targets && name != "" && name[|name| - 1] != ':'
    ensures !Clashes(p, name) && Note(p, name) == p.(ins := p.ins + [name])
  {
  }

  /** A depfile is read exactly: the target before the colon, and the inputs in order, whatever
      characters and continued lines separate them and however their names are spelled. */
  lemma WriteReadsBack(d: DepfileText)
    requires IsDepfile(d)
    ensures Terminated(TextOf(d)) && Tokenize(TextOf(d)) == Deps(MeanName(d.target), Meanings(d.inputs))
  {
    hide Tokens, IsItself, AtBreak, NameFrom, IsSep, SepsText, SpellName, MeanName, IsLetter, ItemsText;
    var s := TextOf(d);
    var ends := ItemsText(d.inputs) + Ending(d.tail);
    var colon := SepsText(d.gap) + (":" + ends);
    assert s[|s| - 1] == NUL;
    assert s[0..] == s == SepsText(d.lead) + (SpellName(d.target) + colon);
    SkipSeps(s, 0, d.lead, SpellName(d.target) + colon, START);
    Drop(s, 0, SepsText(d.lead), SpellName(d.target) + colon);
    TargetReadsBack(s, |SepsText(d.lead)|, d);
  }

  /** The target and the colon, with or without space between them. */
  lemma TargetReadsBack(s: string, i: nat, d: DepfileText)
    requires Terminated(s) && IsDepfile(d) && i <= |s|
    requires s[i..] == SpellName(d.target) + (SepsText(d.gap) + (":" + (ItemsText(d.inputs) + Ending(d.tail))))
    ensures Tokens(s, i, START) == Deps(MeanName(d.target), Meanings(d.inputs))
  {
    hide *;
    var name, ends := MeanName(d.target), ItemsText(d.inputs) + Ending(d.tail);
    var q := Reading(false, true, name, []);
    DepfileParts(d);
    Drop(s, i, SpellName(d.target), SepsText(d.gap) + (":" + ends));
    var g := i + |SpellName(d.target)|;
    Drop(s, g, SepsText(d.gap), ":" + ends);
    var c := g + |SepsText(d.gap)|;
    Drop(s, c, ":", ends);
    InputsReadBack(s, c + 1, d.inputs, d.tail, q);
    assert [] + Meanings(d.inputs) == Meanings(d.inputs);
    NoteTarget(name);
    if d.gap == [] {
      NoSeps();
      TightColon(s, i, d.target, ends);
    } else {
      var p := Reading(true, true, name, []);
      AfterName(s, g, d.gap, ":" + ends, p);
      ReadOne(s, i, d.target, SepsText(d.gap) + (":" + ends), START);
      LoneColon(s, c, ends, p);
    }
  }

  lemma DepfileParts(d: DepfileText)
    requires IsDepfile(d)
    ensures (forall x :: x in d.gap ==> IsSep(x)) && (forall x :: x in d.tail ==> IsSep(x))
    ensures (forall x :: x in d.inputs ==> IsItem(x)) && (forall l :: l in d.target ==> IsLetter(l))
    ensures MeanName(d.target) != "" && MeanName(d.target)[|MeanName(d.target)| - 1] != ':'
  {
    hide IsItem, IsSep, IsLetter, MeanName;
  }

  /** A target with the colon right behind it. */
  lemma TightColon(s: string, i: nat, target: seq<Letter>, rest: string)
    requires Terminated(s) && i <= |s| && s[i..] == SpellName(target) + (":" + rest) && MeanName(target) != ""
    requires MeanName(target)[|MeanName(target)| - 1] != ':'
    requires (forall l :: l in target ==> IsLetter(l)) && AtBreak(s, i + |SpellName(target)| + 1)
    ensures Tokens(s, i, START)
            == Tokens(s, i + |SpellName(target)| + 2, Reading(false, true, MeanName(target), []))
  {
    hide *;
    var ls := target + [Plain(':')];
    SpellColon(target);
    ColonIsLetter(target);
    assert s[i..] == SpellName(ls) + rest;
    ReadOne(s, i, ls, rest, START);
    NoteTarget(MeanName(target));
  }

  lemma NoSeps()
    ensures SepsText([]) == ""
  {
  }

  lemma {:induction false} SpellColon(ls: seq<Letter>)
    ensures SpellName(ls + [Plain(':')]) == SpellName(ls) + ":"
    ensures MeanName(ls + [Plain(':')]) == MeanName(ls) + ":"
  {
    var more := ls + [Plain(':')];
    if ls == [] {
      assert more[1..] == [];
    } else {
      assert more[1..] == ls[1..] + [Plain(':')];
      SpellColon(ls[1..]);
    }
  }

  lemma ColonIsLetter(ls: seq<Letter>)
    requires forall l :: l in ls ==> IsLetter(l)
    ensures forall l :: l in ls + [Plain(':')] ==> IsLetter(l)
  {
    SpecialNotPlain();
  }

  lemma NoteTarget(name: string)
    requires name != "" && name[|name| - 1] != ':'
    ensures !Clashes(START, name + ":") && Note(START, name + ":") == Reading(false, true, name, [])
    ensures !Clashes(START, name) && Note(START, name) == Reading(true, true, name, [])
    ensures var p := Reading(true, true, name, []); !Clashes(p, ":") && Note(p, ":") == Reading(false, true, name, [])
  {
    assert (name + ":")[..|name|] == name;
  }

  lemma LoneColon(s: string, c: nat, rest: string, p: Reading)
    requires Terminated(s) && c <= |s| && s[c..] == ":" + rest && AtBreak(s, c + 1) && !Clashes(p, ":")
    ensures Tokens(s, c, p) == Tokens(s, c + 2, Note(p, ":"))
  {
    hide IsItself, NameFrom, Tokens, Note, Clashes;
    SpecialNotPlain();
    var ls := [Plain(':')];
    assert ls[1..] == [] && SpellName(ls) == ":" && MeanName(ls) == ":";
    ReadOne(s, c, ls, rest, p);
  }

  /** Two different targets are refused, whatever follows. */
  lemma TargetsClash(s: string, first: seq<Letter>, seps: seq<Sep>, second: seq<Letter>, rest: string)
    requires Terminated(s) && s == SpellName(first) + (SepsText(seps) + (SpellName(second) + rest))
    requires IsSpelling(first) && IsSpelling(second) && MeanName(first) != MeanName(second) && seps != []
    requires (forall x :: x in seps ==> IsSep(x)) && AtBreak(s, |s| - |rest|)
    ensures Tokenize(s) == ParseError
  {
    hide *;
    var name := MeanName(first);
    var p := Reading(true, true, name, []);
    SpellingParts(first);
    SpellingParts(second);
    assert s[0..] == s;
    Drop(s, 0, SpellName(first), SepsText(seps) + (SpellName(second) + rest));
    var g := |SpellName(first)|;
    Drop(s, g, SepsText(seps), SpellName(second) + rest);
    var c := g + |SepsText(seps)|;
    Drop(s, c, SpellName(second), rest);
    BreakInside(s, |s| - |rest|);
    AfterName(s, g, seps, SpellName(second) + rest, p);
    NoteTarget(name);
    ReadOne(s, 0, first, SepsText(seps) + (SpellName(second) + rest), START);
    Differs(p, MeanName(second));
    ReadOne(s, c, second, rest, p);
    TokenizeIs(s);
  }

  lemma SpellingParts(ls: seq<Letter>)
    requires IsSpelling(ls)
    ensures (forall l :: l in ls ==> IsLetter(l)) && MeanName(ls) != "" && MeanName(ls)[|MeanName(ls)| - 1] != ':'
  {
    hide IsLetter, MeanName;
  }

  lemma TokenizeIs(s: string)
    requires Terminated(s)
    ensures Tokenize(s) == Tokens(s, 0, START)
  {
  }

  lemma Differs(p: Reading, name: string)
    requires p.targets && p.found && p.output != name && name != "" && name[|name| - 1] != ':'
    ensures Clashes(p, name)
  {
  }

  lemma BreakInside(s: string, i: nat)
    requires AtBreak(s, i)
    ensures i < |s|
  {
  }

  /** A spelling of a name over the characters that can be spelled. */
  function Letters(name: string): seq<Letter> {
    if name == "" then []
    else [if name[0] == '$' then Dollar else if TakesBackslash(name[0]) then Escaped(name[0]) else Plain(name[0])]
         + Letters(name[1..])
  }

  lemma {:induction false} LettersMean(name: string)
    requires forall k :: 0 <= k < |name| ==> IsItself(name[k]) || TakesBackslash(name[k]) || name[k] == '$'
    ensures MeanName(Letters(name)) == name && forall l :: l in Letters(name) ==> IsLetter(l)
  {
    hide IsItself, TakesBackslash;
    if name != "" {
      LettersMean(name[1..]);
      var ls := Letters(name);
      assert ls[1..] == Letters(name[1..]);
    }
  }
}
