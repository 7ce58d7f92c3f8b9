/** The JSON printer of src/json/json.c and the text that it prints for a value. */
module JsonPrinting {
  import opened JsonTables
  import opened JsonMachine
  import opened JsonGrammar

  const QUOTE: Byte := 34
  const BACKSLASH: Byte := 92
  const COMMA: Byte := 44
  const COLON: Byte := 58
  const NEWLINE: Byte := 10
  const TAB: Byte := 9
  const SPACE: Byte := 32

  const TRUE_TEXT: seq<Byte> := [116, 114, 117, 101]
  const FALSE_TEXT: seq<Byte> := [102, 97, 108, 115, 101]
  const NULL_TEXT: seq<Byte> := [110, 117, 108, 108]

  /** A lower-case hexadecimal digit. */
  function HexDigit(v: nat): Byte
    requires v < 16
  {
    if v < 10 then 48 + v else 87 + v
  }

  /** The letter of a two-character escape, or 0. */
  function ShortEscape(c: Byte): Byte {
    if c == 8 then 98 else if c == 9 then 116 else if c == 10 then 110 else if c == 12 then 102
    else if c == 13 then 114 else if c == QUOTE then QUOTE else if c == BACKSLASH then BACKSLASH else 0
  }

  /** The bytes printed for one byte of a string: character_escape below 36, and the backslash. */
  function EscapeOf(c: Byte): seq<Byte> {
    if ShortEscape(c) != 0 then [BACKSLASH, ShortEscape(c)]
    else if c < 32 then [BACKSLASH, 117, 48, 48, HexDigit(c / 16), HexDigit(c % 16)]
    else [c]
  }

  function Escaped(s: seq<Byte>): seq<Byte> {
    if s == [] then [] else Escaped(s[..|s| - 1]) + EscapeOf(s[|s| - 1])
  }

  function Quoted(s: seq<Byte>): seq<Byte> { [QUOTE] + Escaped(s) + [QUOTE] }

  function Tabs(n: int): (t: seq<Byte>)
    ensures |t| == if n <= 0 then 0 else n
    ensures forall i :: 0 <= i < |t| ==> t[i] == TAB
    decreases n
  {
    if n <= 0 then [] else Tabs(n - 1) + [TAB]
  }

  /** A line break and the indentation of the next line. */
  function Indent(n: int): seq<Byte> { [NEWLINE] + Tabs(n) }

  /** The fields of the printer, with all that has been passed to its callback. */
  datatype Printer = Printer(out: seq<Byte>, indent: int, enter: bool, first: bool, afterKey: bool)

  const FRESH := Printer([], 0, true, true, false)

  predicate IsEnd(k: Kind) { k == ARRAY_END || k == OBJECT_END }

  /** What separates an event from those before it. */
  function Lead(p: Printer, k: Kind, pretty: bool): seq<Byte> {
    if IsEnd(k) then []
    else if !p.enter && !p.afterKey then [COMMA] + (if pretty then Indent(p.indent) else [])
    else if pretty && p.enter && !p.first then Indent(p.indent)
    else []
  }

  /** The text of an event that is not a bracket. */
  function Plain(e: Event, pretty: bool): seq<Byte> {
    match e.kind
    case INT => e.data
    case FLOAT => e.data
    case NULL => NULL_TEXT
    case TRUE => TRUE_TEXT
    case FALSE => FALSE_TEXT
    case KEY => Quoted(e.data) + (if pretty then [COLON, SPACE] else [COLON])
    case STRING => Quoted(e.data)
    case _ => []
  }

  /** json_print_mode. */
  function Print(p: Printer, e: Event, pretty: bool): Printer {
    var out := p.out + Lead(p, e.kind, pretty);
    match e.kind
    case ARRAY_BEGIN => Printer(out + [91], p.indent + 1, true, false, false)
    case OBJECT_BEGIN => Printer(out + [123], p.indent + 1, true, false, false)
    case ARRAY_END => Printer(out + (if pretty && !p.enter then Indent(p.indent - 1) else []) + [93], p.indent - 1,
        false, false, false)
    case OBJECT_END => Printer(out + (if pretty && !p.enter then Indent(p.indent - 1) else []) + [125], p.indent - 1,
        false, false, false)
    case _ => Printer(out + Plain(e, pretty), p.indent, false, false, e.kind == KEY)
  }

  function PrintAll(p: Printer, es: seq<Event>, pretty: bool): Printer {
    if es == [] then p else Print(PrintAll(p, es[..|es| - 1], pretty), es[|es| - 1], pretty)
  }

  /** From 36 on only the backslash is escaped. */
  lemma HighEscapes(c: Byte)
    ensures c >= 36 ==> EscapeOf(c) == if c == BACKSLASH then [BACKSLASH, BACKSLASH] else [c]
  {
  }

  class JsonPrinter {
    var out: seq<Byte>
    var indentLevel: int
    var enterObject: bool
    var first: bool
    var afterKey: bool

    ghost function View(): Printer
      reads this
    {
      Printer(out, indentLevel, enterObject, first, afterKey)
    }

    /** json_print_init. */
    constructor ()
      ensures View() == FRESH
    {
      out, indentLevel, enterObject, first, afterKey := [], 0, true, true, false;
    }

    /** print_string. */
    method PrintString(data: seq<Byte>)
      modifies this`out
      ensures out == old(out) + Quoted(data)
    {
      hide EscapeOf;
      out := out + [QUOTE];
      for i := 0 to |data|
        invariant out == old(out) + [QUOTE] + Escaped(data[..i])
      {
        var c := data[i];
        HighEscapes(c);
        if c < 36 {
          out := out + EscapeOf(c);
        } else if c == BACKSLASH {
          out := out + [BACKSLASH, BACKSLASH];
        } else {
          out := out + [c];
        }
        assert data[..i + 1][..i] == data[..i];
      }
      assert data[..|data|] == data;
      out := out + [QUOTE];
    }

    /** print_indent. */
    method PrintIndent()
      modifies this`out
      ensures out == old(out) + Indent(indentLevel)
      ensures |out| == |old(out)| + 1 + (if indentLevel > 0 then indentLevel else 0) && out[..|old(out)|] == old(out)
      ensures out[|old(out)|] == 10 && forall i :: |old(out)| < i < |out| ==> out[i] == 9
    {
      out := out + [NEWLINE];
      var i := 0;
      while i < indentLevel
        invariant 0 <= i && (0 <= indentLevel ==> i <= indentLevel) && (indentLevel < 0 ==> i == 0)
        invariant out == old(out) + [NEWLINE] + Tabs(i)
      {
        out := out + [TAB];
        i := i + 1;
      }
    }

    /** The separator that json_print_mode prints first. */
    method PrintLead(kind: Kind, pretty: bool)
      modifies this`out
      ensures out == old(out) + Lead(old(View()), kind, pretty)
    {
      hide Indent;
      if !enterObject && !afterKey && !IsEnd(kind) {
        out := out + [COMMA];
        if pretty { PrintIndent(); }
      }
      if pretty && enterObject && !first && !IsEnd(kind) {
        PrintIndent();
      }
    }

    /** The cases of json_print_mode that are not brackets. */
    method PrintPlain(e: Event, pretty: bool)
      modifies this`out, this`afterKey
      ensures out == old(out) + Plain(e, pretty)
      ensures afterKey == (old(afterKey) || e.kind == KEY)
    {
      hide Quoted;
      match e.kind
      case INT => out := out + e.data;
      case FLOAT => out := out + e.data;
      case NULL => out := out + NULL_TEXT;
      case TRUE => out := out + TRUE_TEXT;
      case FALSE => out := out + FALSE_TEXT;
      case KEY =>
        PrintString(e.data);
        out := out + (if pretty then [COLON, SPACE] else [COLON]);
        afterKey := true;
      case STRING => PrintString(e.data);
      case _ =>
    }

    /** json_print_mode. */
    method PrintMode(e: Event, pretty: bool)
      modifies this
      ensures View() == Print(old(View()), e, pretty)
    {
      hide Indent, Lead, Plain;
      var entered := enterObject;
      PrintLead(e.kind, pretty);
      first, enterObject, afterKey := false, false, false;
      match e.kind
      case ARRAY_BEGIN =>
        out := out + [91];
        indentLevel, enterObject := indentLevel + 1, true;
      case OBJECT_BEGIN =>
        out := out + [123];
        indentLevel, enterObject := indentLevel + 1, true;
      case ARRAY_END =>
        indentLevel := indentLevel - 1;
        if pretty && !entered { PrintIndent(); }
        out := out + [93];
      case OBJECT_END =>
        indentLevel := indentLevel - 1;
        if pretty && !entered { PrintIndent(); }
        out := out + [125];
      case _ => PrintPlain(e, pretty);
    }
  }

  // ----- The text of a value -----

  function Break(level: int, pretty: bool): seq<Byte> {
    if pretty then Indent(level) else []
  }

  function Colon(pretty: bool): seq<Byte> {
    if pretty then [COLON, SPACE] else [COLON]
  }

  /** The text of a value at an indentation level. */
  function Text(v: Value, level: int, pretty: bool): seq<Byte> {
    match v
    case Int(l) => l
    case Float(l) => l
    case Str(s) => Quoted(s)
    case True => TRUE_TEXT
    case False => FALSE_TEXT
    case Null => NULL_TEXT
    case Array(items) => [91] + TextItems(items, level + 1, pretty)
        + (if items == [] then [] else Break(level, pretty)) + [93]
    case Object(members) =>
        [123] + TextMembers(members, level + 1, pretty)
        + (if members == [] then [] else Break(level, pretty)) + [125]
  }

  function TextItems(items: seq<Value>, level: int, pretty: bool): seq<Byte> {
    if items == [] then [] else
      var n := |items| - 1;
      TextItems(items[..n], level, pretty) + (if n == 0 then [] else [COMMA]) + Break(level, pretty)
          + Text(items[n], level, pretty)
  }

  function TextMembers(members: seq<Member>, level: int, pretty: bool): seq<Byte> {
    if members == [] then [] else
      var n, m := |members| - 1, members[|members| - 1];
      TextMembers(members[..n], level, pretty) + (if n == 0 then [] else [COMMA]) + Break(level, pretty)
      + Quoted(m.key) + Colon(pretty) + Text(m.value, level, pretty)
  }

  lemma {:induction false} PrintSplit(p: Printer, a: seq<Event>, b: seq<Event>, pretty: bool)
    ensures PrintAll(p, a + b, pretty) == PrintAll(PrintAll(p, a, pretty), b, pretty)
    decreases |b|
  {
    hide Print;
    if b == [] {
      assert a + b == a;
    } else {
      PrintSplit(p, a, b[..|b| - 1], pretty);
      assert (a + b)[..|a + b| - 1] == a + b[..|b| - 1];
    }
  }

  lemma PrintOne(p: Printer, e: Event, pretty: bool)
    ensures PrintAll(p, [e], pretty) == Print(p, e, pretty)
  {
    hide Print;
    assert [e][..0] == [];
  }

  /** Printing the events of a value prints its text once, after a separator if one is due. */
  lemma {:induction false} PrintsText(p: Printer, v: Value, pretty: bool)
    ensures PrintAll(p, Linear(v), pretty)
         == Printer(p.out + Lead(p, INT, pretty) + Text(v, p.indent, pretty), p.indent, false, false, false)
    decreases v, 1
  {
    hide PrintAll, Lead, Indent, Plain, Quoted, Break, LinearItems, LinearMembers, TextItems, TextMembers,
         TRUE_TEXT, FALSE_TEXT, NULL_TEXT;
    SameLead(p, Linear(v)[0].kind, pretty);
    match v
    case Array(items) => PrintsArray(p, items, pretty);
    case Object(members) => PrintsObject(p, members, pretty);
    case _ =>
      PrintOne(p, Linear(v)[0], pretty);
      PlainText(v, p.indent, pretty);
  }

  lemma SameLead(p: Printer, k: Kind, pretty: bool)
    ensures !IsEnd(k) ==> Lead(p, k, pretty) == Lead(p, INT, pretty)
  {
    hide Indent;
  }

  lemma PlainText(v: Value, level: int, pretty: bool)
    requires !IsContainer(v)
    ensures Plain(Linear(v)[0], pretty) == Text(v, level, pretty)
  {
    hide Quoted;
  }

  lemma {:induction false} PrintsArray(p: Printer, items: seq<Value>, pretty: bool)
    ensures PrintAll(p, Linear(Array(items)), pretty)
         == Printer(p.out + Lead(p, INT, pretty) + Text(Array(items), p.indent, pretty), p.indent, false, false, false)
    decreases Array(items), 0
  {
    hide PrintAll, Lead, Indent, Plain, LinearItems, TextItems;
    SameLead(p, ARRAY_BEGIN, pretty);
    var open, inner, close := [Event(ARRAY_BEGIN, [])], LinearItems(items), [Event(ARRAY_END, [])];
    PrintSplit(p, open + inner, close, pretty);
    PrintSplit(p, open, inner, pretty);
    PrintOne(p, open[0], pretty);
    var q := Print(p, open[0], pretty);
    PrintsItems(q, items, |items|, pretty);
    assert items[..|items|] == items;
    var r := PrintAll(q, inner, pretty);
    PrintOne(r, close[0], pretty);
    NoLead(r, ARRAY_END, pretty);
    var brk := if items == [] then [] else Break(p.indent, pretty);
    assert (if pretty && !r.enter then Indent(r.indent - 1) else []) == brk;
    FiveParts(p.out + Lead(p, INT, pretty), [91], TextItems(items, p.indent + 1, pretty), brk, [93]);
  }

  lemma FiveParts(a: seq<Byte>, b: seq<Byte>, c: seq<Byte>, d: seq<Byte>, e: seq<Byte>)
    ensures a + b + c + [] + d + e == a + (b + c + d + e)
  {
  }

  lemma NoLead(p: Printer, k: Kind, pretty: bool)
    ensures IsEnd(k) || (p.afterKey && !p.enter) ==> Lead(p, k, pretty) == []
  {
  }

  lemma {:induction false} PrintsItems(p: Printer, items: seq<Value>, n: nat, pretty: bool)
    requires p.enter && !p.first && !p.afterKey && n <= |items|
    ensures PrintAll(p, LinearItems(items[..n]), pretty)
         == Printer(p.out + TextItems(items[..n], p.indent, pretty), p.indent, n == 0, false, false)
    decreases items, n
  {
    hide PrintAll, Linear, Text, Indent, Print, Lead, TextItems, LinearItems, Break;
    if n == 0 {
      PrintNone(p, pretty);
      NothingListed(p.indent, pretty);
    } else {
      PrintsItems(p, items, n - 1, pretty);
      var v := items[n - 1];
      assert items[..n] == items[..n - 1] + [v];
      ItemsSnoc(items[..n - 1], v);
      var q := PrintAll(p, LinearItems(items[..n - 1]), pretty);
      PrintSplit(p, LinearItems(items[..n - 1]), Linear(v), pretty);
      PrintsText(q, v, pretty);
      LeadText(q, n == 1, pretty);
      TextItemsSnoc(p.out, items[..n - 1], v, p.indent, pretty);
    }
  }

  lemma NothingListed(level: int, pretty: bool)
    ensures TextItems([], level, pretty) == [] && LinearItems([]) == []
  {
  }

  lemma TextItemsSnoc(out: seq<Byte>, items: seq<Value>, v: Value, level: int, pretty: bool)
    ensures out + TextItems(items + [v], level, pretty)
         == out + TextItems(items, level, pretty) + ((if items == [] then [] else [COMMA]) + Break(level, pretty))
             + Text(v, level, pretty)
  {
    hide Text, Break;
    assert (items + [v])[..|items|] == items;
  }

  lemma {:induction false} PrintsObject(p: Printer, members: seq<Member>, pretty: bool)
    ensures PrintAll(p, Linear(Object(members)), pretty)
         == Printer(p.out + Lead(p, INT, pretty) + Text(Object(members), p.indent, pretty), p.indent, false, false,
             false)
    decreases Object(members), 0
  {
    hide PrintAll, Lead, Indent, Plain, LinearMembers, TextMembers;
    SameLead(p, OBJECT_BEGIN, pretty);
    var open, inner, close := [Event(OBJECT_BEGIN, [])], LinearMembers(members), [Event(OBJECT_END, [])];
    PrintSplit(p, open + inner, close, pretty);
    PrintSplit(p, open, inner, pretty);
    PrintOne(p, open[0], pretty);
    var q := Print(p, open[0], pretty);
    PrintsMembers(q, members, |members|, pretty);
    assert members[..|members|] == members;
    var r := PrintAll(q, inner, pretty);
    PrintOne(r, close[0], pretty);
    NoLead(r, OBJECT_END, pretty);
    var brk := if members == [] then [] else Break(p.indent, pretty);
    assert (if pretty && !r.enter then Indent(r.indent - 1) else []) == brk;
    FiveParts(p.out + Lead(p, INT, pretty), [123], TextMembers(members, p.indent + 1, pretty), brk, [125]);
  }

  lemma {:induction false} PrintsMembers(p: Printer, members: seq<Member>, n: nat, pretty: bool)
    requires p.enter && !p.first && !p.afterKey && n <= |members|
    ensures PrintAll(p, LinearMembers(members[..n]), pretty)
         == Printer(p.out + TextMembers(members[..n], p.indent, pretty), p.indent, n == 0, false, false)
    decreases members, n
  {
    hide PrintAll, Linear, Text, Indent, Print, Quoted, Lead, TextMembers, Break, Colon;
    if n == 0 {
      PrintNone(p, pretty);
      NoMembers(p.indent, pretty);
    } else {
      PrintsMembers(p, members, n - 1, pretty);
      var m := members[n - 1];
      assert members[..n] == members[..n - 1] + [m];
      MembersSnoc(members[..n - 1], m);
      var init := LinearMembers(members[..n - 1]);
      var q := PrintAll(p, init, pretty);
      PrintSplit(p, init, [Event(KEY, m.key)], pretty);
      PrintSplit(p, init + [Event(KEY, m.key)], Linear(m.value), pretty);
      PrintOne(q, Event(KEY, m.key), pretty);
      PrintsKey(q, m.key, pretty);
      var r := Print(q, Event(KEY, m.key), pretty);
      PrintsText(r, m.value, pretty);
      NoLead(r, INT, pretty);
      LeadText(q, n == 1, pretty);
      TextSnoc(p.out, members[..n - 1], m, p.indent, pretty);
    }
  }

  lemma NoMembers(level: int, pretty: bool)
    ensures TextMembers([], level, pretty) == [] && LinearMembers([]) == []
  {
  }

  lemma TextSnoc(out: seq<Byte>, members: seq<Member>, m: Member, level: int, pretty: bool)
    ensures out + TextMembers(members + [m], level, pretty)
         == out + TextMembers(members, level, pretty) + ((if members == [] then [] else [COMMA]) + Break(level, pretty))
            + (Quoted(m.key) + Colon(pretty)) + [] + Text(m.value, level, pretty)
  {
    hide Text, Quoted, Break, Colon;
    assert (members + [m])[..|members|] == members;
  }

  lemma PrintsKey(p: Printer, key: seq<Byte>, pretty: bool)
    ensures Print(p, Event(KEY, key), pretty)
         == Printer(p.out + Lead(p, INT, pretty) + (Quoted(key) + Colon(pretty)), p.indent, false, false, true)
  {
    hide Quoted, Indent;
    SameLead(p, KEY, pretty);
  }

  lemma LeadText(p: Printer, enter: bool, pretty: bool)
    requires p.enter == enter && !p.first && !p.afterKey
    ensures Lead(p, INT, pretty) == (if enter then [] else [COMMA]) + Break(p.indent, pretty)
  {
    hide Indent;
  }

  lemma PrintNone(p: Printer, pretty: bool)
    ensures PrintAll(p, [], pretty) == p
  {
  }
}
