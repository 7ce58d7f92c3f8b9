/** JSON values, the events that describe them, and documents that are still being read. */
module JsonGrammar {
  import opened JsonTables
  import opened JsonMachine
  import opened JsonLexemes

  datatype Value =
    | Int(lexeme: seq<Byte>) | Float(lexeme: seq<Byte>) | Str(bytes: seq<Byte>) | True | False | Null
    | Array(items: seq<Value>)
    | Object(members: seq<Member>)

  datatype Member = Member(key: seq<Byte>, value: Value)

  /** The events of a value: what a reader should be told, once and in order. */
  function Linear(v: Value): seq<Event> {
    match v
    case Int(l) => [Event(INT, l)]
    case Float(l) => [Event(FLOAT, l)]
    case Str(s) => [Event(STRING, s)]
    case True => [Event(TRUE, [])]
    case False => [Event(FALSE, [])]
    case Null => [Event(NULL, [])]
    case Array(items) => [Event(ARRAY_BEGIN, [])] + LinearItems(items) + [Event(ARRAY_END, [])]
    case Object(members) => [Event(OBJECT_BEGIN, [])] + LinearMembers(members) + [Event(OBJECT_END, [])]
  }

  function LinearItems(items: seq<Value>): seq<Event> {
    if items == [] then [] else LinearItems(items[..|items| - 1]) + Linear(items[|items| - 1])
  }

  function LinearMembers(members: seq<Member>): seq<Event> {
    if members == [] then [] else
      var m := members[|members| - 1];
      LinearMembers(members[..|members| - 1]) + [Event(KEY, m.key)] + Linear(m.value)
  }

  /** An array or object that has been opened and not closed yet; `key` is a key that still
      waits for its value. */
  datatype Frame = InArray(items: seq<Value>) | InObject(members: seq<Member>, key: Pending)

  datatype Pending = NoKey | Key(bytes: seq<Byte>)

  datatype Document = Empty | Open(frames: seq<Frame>) | Complete(value: Value)

  function FrameEvents(f: Frame): seq<Event> {
    match f
    case InArray(items) => [Event(ARRAY_BEGIN, [])] + LinearItems(items)
    case InObject(members, key) =>
      [Event(OBJECT_BEGIN, [])] + LinearMembers(members) + (if key.Key? then [Event(KEY, key.bytes)] else [])
  }

  function FramesEvents(fs: seq<Frame>): seq<Event> {
    if fs == [] then [] else FramesEvents(fs[..|fs| - 1]) + FrameEvents(fs[|fs| - 1])
  }

  function DocumentEvents(d: Document): seq<Event> {
    match d
    case Empty => []
    case Open(fs) => FramesEvents(fs)
    case Complete(v) => Linear(v)
  }

  function ModeOf(f: Frame): Mode {
    if f.InArray? then MODE_ARRAY else MODE_OBJECT
  }

  function Modes(fs: seq<Frame>): (ms: seq<Mode>)
    ensures |ms| == |fs| && forall i :: 0 <= i < |fs| ==> ms[i] == ModeOf(fs[i])
  {
    if fs == [] then [] else Modes(fs[..|fs| - 1]) + [ModeOf(fs[|fs| - 1])]
  }

  /** A value may come next in frame `f`. */
  predicate WantsValue(f: Frame) { f.InArray? || f.key.Key? }

  function Put(f: Frame, v: Value): Frame
    requires WantsValue(f)
  {
    if f.InArray? then InArray(f.items + [v]) else InObject(f.members + [Member(f.key.bytes, v)], NoKey)
  }

  /** No key waits for its value. */
  predicate Rested(f: Frame) { f.InObject? ==> f.key.NoKey? }

  /** The value that closing frame `f` completes. */
  function Close(f: Frame): Value
    requires Rested(f)
  {
    if f.InArray? then Array(f.items) else Object(f.members)
  }

  /** The outer frames of a document being read are all waiting for the inner value. */
  predicate Nested(fs: seq<Frame>) {
    forall i :: 0 <= i < |fs| - 1 ==> WantsValue(fs[i])
  }

  /** Closing a frame, after a key that waits for a value has been given null. */
  function Completed(f: Frame): Value {
    Close(if Rested(f) then f else Put(f, Null))
  }

  /** The document that closing all frames gives. */
  function Finish(fs: seq<Frame>): Value
    requires fs != [] && Nested(fs)
    decreases |fs|
  {
    var n, v := |fs| - 1, Completed(fs[|fs| - 1]);
    if n == 0 then v else Finish(fs[..n - 1] + [Put(fs[n - 1], v)])
  }

  lemma ItemsSnoc(items: seq<Value>, v: Value)
    ensures LinearItems(items + [v]) == LinearItems(items) + Linear(v)
  {
    assert (items + [v])[..|items|] == items;
  }

  lemma MembersSnoc(members: seq<Member>, m: Member)
    ensures LinearMembers(members + [m]) == LinearMembers(members) + [Event(KEY, m.key)] + Linear(m.value)
  {
    assert (members + [m])[..|members|] == members;
  }

  /** Adding a value to a frame adds exactly its events. */
  lemma PutEvents(f: Frame, v: Value)
    requires WantsValue(f)
    ensures FrameEvents(Put(f, v)) == FrameEvents(f) + Linear(v)
    ensures ModeOf(Put(f, v)) == ModeOf(f)
  {
    hide Linear;
    if f.InArray? {
      ItemsSnoc(f.items, v);
    } else {
      MembersSnoc(f.members, Member(f.key.bytes, v));
    }
  }

  lemma CloseEvents(f: Frame)
    requires Rested(f)
    ensures Linear(Close(f)) == FrameEvents(f) + [Event(if f.InArray? then ARRAY_END else OBJECT_END, [])]
  {
  }

  lemma FramesSnoc(fs: seq<Frame>, f: Frame)
    ensures FramesEvents(fs + [f]) == FramesEvents(fs) + FrameEvents(f)
    ensures Modes(fs + [f]) == Modes(fs) + [ModeOf(f)]
  {
    assert (fs + [f])[..|fs|] == fs;
  }

  predicate Prefix(a: seq<Event>, b: seq<Event>) {
    |a| <= |b| && b[..|a|] == a
  }

  /** Numbers and strings are spelled as JSON demands, at every depth. */
  predicate Valid(v: Value) {
    match v
    case Int(l) => IsInt(l)
    case Float(l) => IsFloat(l)
    case Str(s) => ValidString(s)
    case Array(items) => ValidItems(items)
    case Object(members) => ValidMembers(members)
    case _ => true
  }

  predicate ValidItems(items: seq<Value>) {
    forall i :: 0 <= i < |items| ==> Valid(items[i])
  }

  predicate ValidMembers(members: seq<Member>) {
    forall i :: 0 <= i < |members| ==> ValidString(members[i].key) && Valid(members[i].value)
  }

  predicate ValidFrame(f: Frame) {
    match f
    case InArray(items) => ValidItems(items)
    case InObject(members, key) => ValidMembers(members) && (key.Key? ==> ValidString(key.bytes))
  }

  predicate ValidFrames(fs: seq<Frame>) {
    forall i :: 0 <= i < |fs| ==> ValidFrame(fs[i])
  }

  predicate IsContainer(v: Value) { v.Array? || v.Object? }

  lemma PutValid(f: Frame, v: Value)
    requires WantsValue(f) && ValidFrame(f) && Valid(v)
    ensures ValidFrame(Put(f, v)) && Rested(Put(f, v))
  {
    hide Valid, ValidString;
  }

  lemma CloseValid(f: Frame)
    requires Rested(f) && ValidFrame(f)
    ensures Valid(Close(f)) && IsContainer(Close(f))
  {
  }

  lemma PrefixThrough(a: seq<Event>, b: seq<Event>, c: seq<Event>, d: seq<Event>)
    requires Prefix(b, c) && Prefix(a + c, d)
    ensures Prefix(a + b, d)
  {
    assert a + b == (a + c)[..|a| + |b|];
  }

  lemma PrefixItself(a: seq<Event>, b: seq<Event>)
    ensures Prefix(a, a + b)
  {
  }

  lemma CompletedExtends(f: Frame)
    ensures Prefix(FrameEvents(f), Linear(Completed(f)))
    ensures IsContainer(Completed(f))
    ensures ValidFrame(f) ==> Valid(Completed(f))
  {
    hide Linear, FrameEvents, ValidFrame, ValidString;
    if Rested(f) {
      CloseEvents(f);
      if ValidFrame(f) { CloseValid(f); }
    } else {
      PutEvents(f, Null);
      CloseEvents(Put(f, Null));
      if ValidFrame(f) {
        PutValid(f, Null);
        CloseValid(Put(f, Null));
      }
    }
  }

  /** A document that is still being read is a prefix of a whole one. */
  lemma {:induction false} FinishExtends(fs: seq<Frame>)
    requires fs != [] && Nested(fs) && ValidFrames(fs)
    ensures Prefix(FramesEvents(fs), Linear(Finish(fs)))
    ensures Valid(Finish(fs)) && IsContainer(Finish(fs))
    decreases |fs|
  {
    hide Linear, FrameEvents, FramesEvents, Valid, ValidFrame, Prefix, Completed, Put, WantsValue, IsContainer, Modes;
    var n := |fs| - 1;
    var f := fs[n];
    var v := Completed(f);
    CompletedExtends(f);
    assert fs == fs[..n] + [f];
    FramesSnoc(fs[..n], f);
    if n == 0 {
      assert fs[..n] == [];
      NoFrames();
      assert FramesEvents(fs) == FrameEvents(f);
    } else {
      var g := fs[n - 1];
      assert fs[..n] == fs[..n - 1] + [g];
      FramesSnoc(fs[..n - 1], g);
      var inner := fs[..n - 1] + [Put(g, v)];
      FramesSnoc(fs[..n - 1], Put(g, v));
      PutEvents(g, v);
      PutValid(g, v);
      FinishExtends(inner);
      assert FramesEvents(inner) == FramesEvents(fs[..n]) + Linear(v);
      PrefixThrough(FramesEvents(fs[..n]), FrameEvents(f), Linear(v), Linear(Finish(fs)));
    }
  }

  lemma NoFrames()
    ensures FramesEvents([]) == [] && Modes([]) == []
  {
  }

  /** Every outer frame waits for the value inside it, and the data is well spelled. */
  predicate Sound(d: Document) {
    match d
    case Empty => true
    case Open(fs) => fs != [] && Nested(fs) && ValidFrames(fs)
    case Complete(v) => IsContainer(v) && Valid(v)
  }

  function OpenModes(d: Document): seq<Mode> {
    if d.Open? then Modes(d.frames) else []
  }

  function Top(d: Document): Frame
    requires d.Open? && Sound(d)
  {
    d.frames[|d.frames| - 1]
  }

  /** A value may come next in document `d`. */
  predicate Wants(d: Document)
    requires Sound(d)
  {
    d.Empty? || (d.Open? && WantsValue(Top(d)))
  }

  /** Reads the opening bracket of `f`. */
  function Begin(d: Document, f: Frame): (e: Document)
    requires Sound(d)
  {
    if d.Open? then Open(d.frames + [f]) else Open([f])
  }

  function Replace(d: Document, f: Frame): Document
    requires d.Open? && Sound(d)
  {
    Open(d.frames[..|d.frames| - 1] + [f])
  }

  /** Reads the closing bracket of the top frame. */
  function End(d: Document): Document
    requires d.Open? && Sound(d) && Rested(Top(d))
  {
    var n := |d.frames| - 1;
    if n == 0 then Complete(Close(Top(d)))
    else Open(d.frames[..n - 1] + [Put(d.frames[n - 1], Close(Top(d)))])
  }

  lemma BeginFrame(d: Document, f: Frame)
    requires Sound(d) && Wants(d) && ValidFrame(f)
    ensures Sound(Begin(d, f)) && Top(Begin(d, f)) == f
    ensures DocumentEvents(Begin(d, f)) == DocumentEvents(d) + FrameEvents(f)
    ensures OpenModes(Begin(d, f)) == OpenModes(d) + [ModeOf(f)]
  {
    hide FrameEvents, ValidFrame, FramesEvents, Modes;
    var fs := if d.Open? then d.frames else [];
    assert Begin(d, f) == Open(fs + [f]);
    FramesSnoc(fs, f);
    NoFrames();
  }

  lemma ReplaceTop(d: Document, f: Frame, more: seq<Event>)
    requires d.Open? && Sound(d) && ValidFrame(f) && ModeOf(f) == ModeOf(Top(d))
    requires FrameEvents(f) == FrameEvents(Top(d)) + more
    ensures Sound(Replace(d, f)) && Top(Replace(d, f)) == f
    ensures DocumentEvents(Replace(d, f)) == DocumentEvents(d) + more
    ensures OpenModes(Replace(d, f)) == OpenModes(d)
  {
    hide FrameEvents, ValidFrame, FramesEvents, WantsValue;
    var outer := d.frames[..|d.frames| - 1];
    assert d.frames == outer + [Top(d)];
    FramesSnoc(outer, Top(d));
    FramesSnoc(outer, f);
  }

  /** Reads a value inside the top frame. */
  lemma PutTop(d: Document, v: Value)
    requires d.Open? && Sound(d) && WantsValue(Top(d)) && Valid(v)
    ensures var e := Replace(d, Put(Top(d), v));
            Sound(e) && Top(e) == Put(Top(d), v) && Rested(Top(e)) && OpenModes(e) == OpenModes(d)
            && DocumentEvents(e) == DocumentEvents(d) + Linear(v)
  {
    hide FrameEvents, ValidFrame, Linear, DocumentEvents, OpenModes, Replace, Valid;
    PutEvents(Top(d), v);
    PutValid(Top(d), v);
    ReplaceTop(d, Put(Top(d), v), Linear(v));
  }

  /** Reads a key inside the top frame. */
  lemma PutKey(d: Document, key: seq<Byte>)
    requires d.Open? && Sound(d) && Top(d).InObject? && Rested(Top(d)) && ValidString(key)
    ensures var e := Replace(d, Top(d).(key := Key(key)));
            Sound(e) && Top(e) == Top(d).(key := Key(key)) && OpenModes(e) == OpenModes(d)
            && DocumentEvents(e) == DocumentEvents(d) + [Event(KEY, key)]
  {
    hide DocumentEvents, OpenModes, Replace, Valid, LinearMembers, ValidString, ValidMembers;
    ReplaceTop(d, Top(d).(key := Key(key)), [Event(KEY, key)]);
  }

  function EndKind(m: Mode): Kind { if m == MODE_ARRAY then ARRAY_END else OBJECT_END }

  lemma EndFrame(d: Document)
    requires d.Open? && Sound(d) && Rested(Top(d))
    ensures Sound(End(d)) && (End(d).Open? ==> Rested(Top(End(d))))
    ensures DocumentEvents(End(d)) == DocumentEvents(d) + [Event(EndKind(ModeOf(Top(d))), [])]
    ensures OpenModes(d) != [] && OpenModes(End(d)) == OpenModes(d)[..|OpenModes(d)| - 1]
  {
    hide FrameEvents, ValidFrame, FramesEvents, Linear, Valid, Close, Put, WantsValue, Rested, IsContainer, Modes;
    var fs, n := d.frames, |d.frames| - 1;
    var v := Close(Top(d));
    CloseEvents(Top(d));
    CloseValid(Top(d));
    assert fs == fs[..n] + [Top(d)];
    FramesSnoc(fs[..n], Top(d));
    if n == 0 {
      assert fs[..n] == [];
      NoFrames();
      assert FramesEvents(fs) == FrameEvents(Top(d));
    } else {
      var g := fs[n - 1];
      assert fs[..n] == fs[..n - 1] + [g];
      FramesSnoc(fs[..n - 1], g);
      FramesSnoc(fs[..n - 1], Put(g, v));
      PutEvents(g, v);
      PutValid(g, v);
      assert OpenModes(End(d)) == Modes(fs[..n - 1]) + [ModeOf(g)] == Modes(fs[..n]);
    }
  }

  /** The events of any document are a prefix of those of one value, an array or an object. */
  lemma SoundIsPrefix(d: Document)
    requires Sound(d)
    ensures exists v :: Valid(v) && IsContainer(v) && Prefix(DocumentEvents(d), Linear(v))
  {
    hide Valid, FramesEvents, ValidFrame, Linear;
    match d
    case Empty =>
      assert Valid(Array([])) by { EmptyArrayValid(); }
      assert Prefix(DocumentEvents(d), Linear(Array([])));
    case Open(fs) => FinishExtends(fs);
    case Complete(v) => PrefixItself(Linear(v), []);
  }

  lemma EmptyArrayValid()
    ensures Valid(Array([]))
  {
  }
}
