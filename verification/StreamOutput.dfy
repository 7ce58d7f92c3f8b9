/** What the clients of the stream server read: which build, and what its output says.  Both are told by
    the steps of a run alone. */
module StreamedOutput {
  import opened Topology
  import opened Streaming

  // ----- The output of a build -----

  function Header(id: string): string { "{\n  \"id\": " + id + ",\n  \"cmds\": [\n" }

  function Footer(result: string): string { "\n  ],\n  \"result\": \"" + result + "\"\n}\n" }

  /** The step writes a record. */
  predicate IsRecord(s: Step) { s.CommandBegins? || s.CommandFinishes? || s.CommandWrites? || s.CacheHit? }

  function Record(s: Step): string
    requires IsRecord(s)
  {
    match s
    case CommandBegins(id, cmd) => "    { \"id\": " + id + ", \"cmd\": \"" + EscapeJson(cmd) + "\" }"
    case CommandFinishes(id, status) => "    { \"id\": " + id + ", \"status\": \"" + status + "\" }"
    case CommandWrites(id, data, isStdout) =>
      "    { \"id\": " + id + (if isStdout then ", \"stdout\": \"" else ", \"stderr\": \"") + EscapeJson(data) + "\" }"
    case CacheHit(path) => "    { \"cache\": \"" + path + "\" }"
  }

  /** The build that began with step `j` goes on before step `k`. */
  ghost predicate Current(steps: seq<Step>, j: nat, k: nat) {
    forall m :: j < m < k && m < |steps| ==> !steps[m].BuildBegins? && !steps[m].BuildFinishes?
  }

  /** A command, its output or something from the cache has been recorded before step `k`. */
  ghost predicate Opened(steps: seq<Step>, j: nat, k: nat) {
    exists m :: j < m < k && m < |steps| && (steps[m].CommandBegins? || steps[m].CommandWrites? || steps[m].CacheHit?)
  }

  /** What the steps before `k` have written for the build that began with step `j`. */
  ghost function TextAt(steps: seq<Step>, j: nat, k: nat): string
    requires j < k <= |steps| && steps[j].BuildBegins?
    decreases k
  {
    if k == j + 1 then Header(steps[j].id)
    else if !Current(steps, j, k - 1) then TextAt(steps, j, k - 1)
    else TextAt(steps, j, k - 1) + Addition(steps, j, k - 1)
  }

  /** What step `k` adds to a build that goes on: nothing, its result, or a record after a comma, unless it
      is the first. */
  ghost function Addition(steps: seq<Step>, j: nat, k: nat): string
    requires k < |steps|
  {
    var s := steps[k];
    if s.BuildFinishes? then Footer(s.result)
    else if !IsRecord(s) then ""
    else if (s.CommandBegins? || s.CacheHit?) && !Opened(steps, j, k) then Record(s)
    else ",\n" + Record(s)
  }

  /** The records of a build in order. */
  ghost function Records(steps: seq<Step>, j: nat, k: nat): seq<string>
    requires j < k <= |steps|
    decreases k
  {
    if k == j + 1 then []
    else Records(steps, j, k - 1) + if IsRecord(steps[k - 1]) then [Record(steps[k - 1])] else []
  }

  function Joined(records: seq<string>): string {
    if records == [] then "" else if |records| == 1 then records[0]
    else Joined(records[..|records| - 1]) + ",\n" + records[|records| - 1]
  }

  /** While no command writes or finishes before it has begun, the output of a build that goes on is its
      header and its records, with commas between them. */
  lemma {:induction false} TextIsJoined(steps: seq<Step>, j: nat, k: nat)
    requires j < k <= |steps| && steps[j].BuildBegins? && Current(steps, j, k)
    requires forall m :: j < m < k && (steps[m].CommandFinishes? || steps[m].CommandWrites?) ==> Opened(steps, j, m)
    ensures TextAt(steps, j, k) == Header(steps[j].id) + Joined(Records(steps, j, k))
    ensures Records(steps, j, k) != [] <==> Opened(steps, j, k)
    decreases k
  {
    hide *;
    if k == j + 1 {
      JustBegun(steps, j);
      NoRecords(steps, j);
      assert Header(steps[j].id) + "" == Header(steps[j].id);
    } else {
      CurrentNext(steps, j, k - 1);
      TextIsJoined(steps, j, k - 1);
      OpenedNext(steps, j, k - 1);
      TextMore(steps, j, k - 1);
      JoinMore(Header(steps[j].id), Records(steps, j, k - 1), Addition(steps, j, k - 1), Records(steps, j, k));
    }
  }

  lemma NoRecords(steps: seq<Step>, j: nat)
    requires j < |steps|
    ensures Records(steps, j, j + 1) == [] && Joined([]) == ""
  {
  }

  /** What one more step adds to the text and to the records. */
  lemma TextMore(steps: seq<Step>, j: nat, k: nat)
    requires j < k < |steps| && steps[j].BuildBegins? && Current(steps, j, k) && !steps[k].BuildFinishes?
    requires Opened(steps, j, k) <==> Records(steps, j, k) != []
    requires steps[k].CommandFinishes? ==> Opened(steps, j, k)
    requires Opened(steps, j, k + 1) <==>
               Opened(steps, j, k) || steps[k].CommandBegins? || steps[k].CommandWrites? || steps[k].CacheHit?
    requires steps[k].CommandWrites? ==> Opened(steps, j, k)
    ensures TextAt(steps, j, k + 1) == TextAt(steps, j, k) + Addition(steps, j, k)
    ensures Records(steps, j, k + 1) != [] <==> Opened(steps, j, k + 1)
    ensures || (Addition(steps, j, k) == "" && Records(steps, j, k + 1) == Records(steps, j, k))
            || exists r :: Records(steps, j, k + 1) == Records(steps, j, k) + [r]
                           && Addition(steps, j, k) == (if Records(steps, j, k) == [] then "" else ",\n") + r
  {
    hide Header, Record, Opened, Current, TextAt;
    TextUnfold(steps, j, k);
    if IsRecord(steps[k]) {
      var r := Record(steps[k]);
      assert Records(steps, j, k + 1) == Records(steps, j, k) + [r];
      assert "" + r == r;
    } else {
      assert Records(steps, j, k) + [] == Records(steps, j, k);
    }
  }

  lemma TextUnfold(steps: seq<Step>, j: nat, k: nat)
    requires j < k < |steps| && steps[j].BuildBegins? && Current(steps, j, k)
    ensures TextAt(steps, j, k + 1) == TextAt(steps, j, k) + Addition(steps, j, k)
  {
    hide Current, Addition;
  }

  lemma JoinMore(header: string, rs: seq<string>, add: string, more: seq<string>)
    requires || (add == "" && more == rs) || exists r :: more == rs + [r] && add == (if rs == [] then "" else ",\n") + r
    ensures header + Joined(rs) + add == header + Joined(more)
  {
    if add == "" && more == rs {
      assert header + Joined(rs) + "" == header + Joined(rs);
    } else {
      var r :| more == rs + [r] && add == (if rs == [] then "" else ",\n") + r;
      assert more[..|rs|] == rs && more[|rs|] == r;
      if rs == [] {
        assert "" + r == r && header + "" + r == header + r;
      } else {
        assert header + Joined(rs) + (",\n" + r) == header + (Joined(rs) + ",\n" + r);
      }
    }
  }

  lemma OpenedNext(steps: seq<Step>, j: nat, k: nat)
    requires j < k < |steps|
    ensures Opened(steps, j, k + 1) <==>
              Opened(steps, j, k) || steps[k].CommandBegins? || steps[k].CommandWrites? || steps[k].CacheHit?
  {
  }

  lemma CurrentNext(steps: seq<Step>, j: nat, k: nat)
    requires j < k < |steps|
    ensures Current(steps, j, k + 1) <==>
              Current(steps, j, k) && !steps[k].BuildBegins? && !steps[k].BuildFinishes?
  {
  }

  lemma JustBegun(steps: seq<Step>, j: nat)
    requires j < |steps| && steps[j].BuildBegins?
    ensures Current(steps, j, j + 1) && !Opened(steps, j, j + 1) && TextAt(steps, j, j + 1) == Header(steps[j].id)
  {
  }

  /** The steps before `k` with which builds began, in order: the number of a build is its place here. */
  function Begins(steps: seq<Step>, k: nat): (bs: seq<nat>)
    requires k <= |steps|
    ensures forall h :: 0 <= h < |bs| ==> bs[h] < k && steps[bs[h]].BuildBegins?
  {
    if k == 0 then [] else Begins(steps, k - 1) + if steps[k - 1].BuildBegins? then [k - 1] else []
  }

  // ----- Builds over a run -----

  /** The builds that the server keeps are those of the steps, with their output; the newest is in front. */
  ghost predicate BuildsTold(steps: seq<Step>, a: Snapshot, k: nat)
    requires k <= |steps|
  {
    var bs := Begins(steps, k);
    && a.next == |bs| && (a.order == [] <==> bs == []) && (a.order != [] ==> a.order[0] == |bs| - 1)
    && forall h :: h in a.info ==> h < |bs| && BuildTold(steps, a.info[h], bs[h], k)
  }

  ghost predicate BuildTold(steps: seq<Step>, b: Build, j: nat, k: nat)
    requires j < k <= |steps| && steps[j].BuildBegins?
  {
    && b.buf == TextAt(steps, j, k) && (b.completed <==> !Current(steps, j, k))
    && (Current(steps, j, k) ==> (b.firstChunk <==> !Opened(steps, j, k)))
  }

  /** Whether a command has been announced in the running build before step `k`. */
  function AnnouncedAt(steps: seq<Step>, k: nat): bool
    requires k <= |steps|
  {
    if k == 0 then false else Announced(steps[k - 1], AnnouncedAt(steps, k - 1))
  }

  /** The protocol holds at every step of a run. */
  lemma {:induction false} ProtocolAt(steps: seq<Step>, trace: seq<Snapshot>, k: nat)
    requires Protocol(steps, false, false) && IsRun(steps, trace) && k <= |steps|
    ensures Protocol(steps[k..], IsBuilding(trace[k]), AnnouncedAt(steps, k))
    ensures Introduced(trace[k], AnnouncedAt(steps, k))
    ensures k < |steps| ==> Fits(steps[k], IsBuilding(trace[k]), AnnouncedAt(steps, k))
  {
    hide Good, Apply, IsBuilding, Introduced, Protocol, Fits;
    if k == 0 {
      assert steps[0..] == steps;
      RunBegins(steps);
      NothingIntroduced();
    } else {
      ProtocolAt(steps, trace, k - 1);
      assert steps[k - 1..][0] == steps[k - 1] && steps[k - 1..][1..] == steps[k..];
      ProtocolStep(steps[k - 1..], IsBuilding(trace[k - 1]), AnnouncedAt(steps, k - 1));
      assert trace[k] == Apply(trace[k - 1], steps[k - 1]) && Good(trace[k - 1]);
      AfterStep(trace[k - 1], steps[k - 1], AnnouncedAt(steps, k - 1));
    }
    if k < |steps| {
      assert steps[k..][0] == steps[k];
      ProtocolStep(steps[k..], IsBuilding(trace[k]), AnnouncedAt(steps, k));
    }
  }

  lemma NothingIntroduced()
    ensures Introduced(NEW, false)
  {
  }

  /** The server keeps exactly what the steps have written. */
  lemma {:induction false} BuildsAre(steps: seq<Step>, trace: seq<Snapshot>, k: nat)
    requires Protocol(steps, false, false) && IsRun(steps, trace) && k <= |steps|
    ensures BuildsTold(steps, trace[k], k)
  {
    hide Good, Apply, BuildsTold, Protocol, IsBuilding;
    if k == 0 {
      NothingTold(steps);
    } else {
      BuildsAre(steps, trace, k - 1);
      ProtocolAt(steps, trace, k - 1);
      assert trace[k] == Apply(trace[k - 1], steps[k - 1]) && Good(trace[k - 1]);
      BuildsStep(steps, trace[k - 1], k - 1);
    }
  }

  lemma NothingTold(steps: seq<Step>)
    ensures BuildsTold(steps, NEW, 0)
  {
  }

  lemma BuildsStep(steps: seq<Step>, a: Snapshot, k: nat)
    requires k < |steps| && Good(a) && BuildsTold(steps, a, k)
    requires Fits(steps[k], IsBuilding(a), AnnouncedAt(steps, k)) && Introduced(a, AnnouncedAt(steps, k))
    ensures BuildsTold(steps, Apply(a, steps[k]), k + 1)
  {
    hide *;
    AfterStep(a, steps[k], AnnouncedAt(steps, k));
    FitsMeans(steps[k], IsBuilding(a), AnnouncedAt(steps, k));
    match steps[k]
    case BuildBegins(id) => BeginsStep(steps, a, k);
    case Connection(fd) => ConnectsStep(steps, a, k);
    case Writable(fd, net) => ProcessStep(steps, a, k);
    case _ => WritesStep(steps, a, k);
  }

  lemma FitsMeans(s: Step, building: bool, announced: bool)
    requires Fits(s, building, announced)
    ensures s.BuildBegins? ==> !building
    ensures !s.BuildBegins? && !s.Connection? && !s.Writable? ==> building && (IsRecord(s) || s.BuildFinishes?)
  {
  }

  /** A step that writes nothing leaves every build as the steps tell it. */
  lemma BuildStays(steps: seq<Step>, b: Build, j: nat, k: nat)
    requires j < k < |steps| && steps[j].BuildBegins? && BuildTold(steps, b, j, k)
    requires !Current(steps, j, k) || (!IsRecord(steps[k]) && !steps[k].BuildFinishes? && !steps[k].BuildBegins?)
    ensures BuildTold(steps, b, j, k + 1)
  {
    hide Header, Record, IsRecord, Opened, Current;
    CurrentNext(steps, j, k);
    OpenedNext(steps, j, k);
    KindsDiffer(steps[k]);
    assert TextAt(steps, j, k) + "" == TextAt(steps, j, k);
  }

  lemma KindsDiffer(s: Step)
    ensures !IsRecord(s) ==> !s.CommandBegins? && !s.CommandWrites? && !s.CacheHit? && !s.CommandFinishes?
  {
  }

  lemma BeginsNext(steps: seq<Step>, k: nat)
    requires k < |steps|
    ensures Begins(steps, k + 1) == Begins(steps, k) + if steps[k].BuildBegins? then [k] else []
    ensures forall h :: 0 <= h < |Begins(steps, k)| ==> Begins(steps, k + 1)[h] == Begins(steps, k)[h]
  {
  }

  lemma ConnectsStep(steps: seq<Step>, a: Snapshot, k: nat)
    requires k < |steps| && BuildsTold(steps, a, k) && steps[k].Connection?
    ensures BuildsTold(steps, Apply(a, steps[k]), k + 1)
  {
    hide BuildTold, Begins;
    var b := Apply(a, steps[k]);
    BeginsNext(steps, k);
    forall h | h in b.info ensures h < |Begins(steps, k)| && BuildTold(steps, b.info[h], Begins(steps, k)[h], k + 1) {
      BuildStaysButCount(steps, a.info[h], b.info[h], Begins(steps, k)[h], k);
    }
  }

  lemma BuildStaysButCount(steps: seq<Step>, b: Build, c: Build, j: nat, k: nat)
    requires j < k < |steps| && steps[j].BuildBegins? && BuildTold(steps, b, j, k) && c == b.(refcount := c.refcount)
    requires !Current(steps, j, k) || (!IsRecord(steps[k]) && !steps[k].BuildFinishes? && !steps[k].BuildBegins?)
    ensures BuildTold(steps, c, j, k + 1)
  {
    hide TextAt, Opened, Current, IsRecord;
    BuildStays(steps, b, j, k);
  }

  lemma ProcessStep(steps: seq<Step>, a: Snapshot, k: nat)
    requires k < |steps| && Good(a) && BuildsTold(steps, a, k) && steps[k].Writable?
    ensures BuildsTold(steps, Apply(a, steps[k]), k + 1)
  {
    hide BuildTold, Begins, Transmit, Pieces, Consistent, Delivered, ReceivedAll, Erase;
    var b := Apply(a, steps[k]);
    BeginsNext(steps, k);
    if steps[k].fd in a.fds && CanRead(a, steps[k].fd) {
      SomeFront(a.order, a.info, a.next, a.fds, a.waiting, a.clients, a.clients[steps[k].fd].at.build);
      FrontKept(a.order, a.info, a.clients[steps[k].fd].at.build);
    }
    forall h | h in b.info ensures h < |Begins(steps, k)| && BuildTold(steps, b.info[h], Begins(steps, k)[h], k + 1) {
      BuildStaysButCount(steps, a.info[h], b.info[h], Begins(steps, k)[h], k);
    }
  }

  lemma BeginsStep(steps: seq<Step>, a: Snapshot, k: nat)
    requires k < |steps| && Good(a) && BuildsTold(steps, a, k) && steps[k].BuildBegins? && !IsBuilding(a)
    ensures BuildsTold(steps, Apply(a, steps[k]), k + 1)
  {
    hide BuildTold, Begins, Consistent, Delivered, ReceivedAll, Flushed, BUILD, CMDS, Current;
    var b := Apply(a, steps[k]);
    var u := Unflushed(a, steps[k].id);
    FrontOfConsistent(a.order, a.info, a.next, a.fds, a.waiting, a.clients);
    BeginsNext(steps, k);
    FlushKeeps(u);
    FlushOthers(u);
    forall h | h in b.info
      ensures h < |Begins(steps, k + 1)| && BuildTold(steps, b.info[h], Begins(steps, k + 1)[h], k + 1)
    {
      if h == a.next {
        NewIsTold(steps, b.info[h], k);
      } else {
        AllCompleted(a, h);
        ToldCompleted(steps, a.info[h], Begins(steps, k)[h], k);
        BuildStaysButCount(steps, a.info[h], b.info[h], Begins(steps, k)[h], k);
      }
    }
  }

  lemma ToldCompleted(steps: seq<Step>, b: Build, j: nat, k: nat)
    requires j < k <= |steps| && steps[j].BuildBegins? && BuildTold(steps, b, j, k)
    ensures b.completed <==> !Current(steps, j, k)
  {
    hide TextAt, Current, Opened;
  }

  /** While no build runs all are complete, and otherwise all but the newest. */
  lemma AllCompleted(a: Snapshot, h: nat)
    requires Good(a) && h in a.info
    ensures a.order != [] && (h == a.order[0] || a.info[h].completed)
    ensures !IsBuilding(a) ==> a.info[h].completed
  {
    hide Delivered, ReceivedAll, Partition, Counted, Positioned, NoDuplicates;
  }

  lemma FlushOthers(a: Snapshot)
    requires HasFront(a)
    ensures Flushed(a).info.Keys == a.info.Keys
    ensures forall h :: h in a.info ==> Flushed(a).info[h] == a.info[h].(refcount := Flushed(a).info[h].refcount)
  {
  }

  lemma NewIsTold(steps: seq<Step>, b: Build, k: nat)
    requires k < |steps| && steps[k].BuildBegins?
    requires b == Build(BUILD + steps[k].id + CMDS, b.refcount, false, true)
    ensures BuildTold(steps, b, k, k + 1)
  {
    hide Current, Opened;
    JustBegun(steps, k);
  }

  lemma WritesStep(steps: seq<Step>, a: Snapshot, k: nat)
    requires k < |steps| && Good(a) && BuildsTold(steps, a, k) && (IsRecord(steps[k]) || steps[k].BuildFinishes?)
    requires IsBuilding(a) && (steps[k].CommandWrites? ==> !a.info[a.order[0]].firstChunk)
    ensures BuildsTold(steps, Apply(a, steps[k]), k + 1)
  {
    hide *;
    BuildingMeans(a);
    var b, front := Apply(a, steps[k]), a.order[0];
    BuildsToldMean(steps, a, k);
    BeginsNext(steps, k);
    WrittenIs(a, steps[k]);
    forall h | h in b.info
      ensures h < |Begins(steps, k + 1)| && BuildTold(steps, b.info[h], Begins(steps, k + 1)[h], k + 1)
    {
      AllCompleted(a, h);
      ToldCompleted(steps, a.info[h], Begins(steps, k)[h], k);
      if h == front {
        FrontGrows(steps, a.info[h], b.info[h], Begins(steps, k)[h], k);
      } else {
        BuildStaysButCount(steps, a.info[h], b.info[h], Begins(steps, k)[h], k);
      }
    }
    RecordBeginsNothing(steps[k]);
    assert Begins(steps, k) + [] == Begins(steps, k);
    BuildsToldFrom(steps, b, k + 1);
  }

  lemma RecordBeginsNothing(s: Step)
    requires IsRecord(s) || s.BuildFinishes?
    ensures !s.BuildBegins?
  {
  }

  lemma BuildingMeans(a: Snapshot)
    requires IsBuilding(a)
    ensures HasFront(a) && a.order != [] && a.order[0] in a.info && !a.info[a.order[0]].completed
  {
  }

  lemma BuildsToldMean(steps: seq<Step>, a: Snapshot, k: nat)
    requires k <= |steps| && BuildsTold(steps, a, k)
    ensures var bs := Begins(steps, k);
            && a.next == |bs| && (a.order == [] <==> bs == []) && (a.order != [] ==> a.order[0] == |bs| - 1)
            && forall h :: h in a.info ==> h < |bs| && BuildTold(steps, a.info[h], bs[h], k)
  {
    hide BuildTold, Begins;
  }

  lemma BuildsToldFrom(steps: seq<Step>, a: Snapshot, k: nat)
    requires k <= |steps|
    requires var bs := Begins(steps, k);
             && a.next == |bs| && (a.order == [] <==> bs == []) && (a.order != [] ==> a.order[0] == |bs| - 1)
             && forall h :: h in a.info ==> h < |bs| && BuildTold(steps, a.info[h], bs[h], k)
    ensures BuildsTold(steps, a, k)
  {
    hide BuildTold, Begins;
  }

  /** What a step of the builder does to the builds. */
  lemma WrittenIs(a: Snapshot, s: Step)
    requires HasFront(a) && (IsRecord(s) || s.BuildFinishes?)
    ensures var (b, front) := (Apply(a, s), a.order[0]);
            && b.order == a.order && b.next == a.next && b.info.Keys == a.info.Keys
            && (forall h :: h in a.info && h != front ==> b.info[h] == a.info[h].(refcount := b.info[h].refcount))
            && b.info[front].buf == a.info[front].buf + Adds(s, a.info[front].firstChunk)
            && b.info[front].completed == (a.info[front].completed || s.BuildFinishes?)
            && b.info[front].firstChunk
               == (a.info[front].firstChunk && (s.BuildFinishes? || s.CommandFinishes?))
  {
    hide EscapeJson, Flushed, RESULT, END, RECORD, CMD, STATUS, STDOUT, STDERR, CACHE, CLOSE, COMMA;
    var (text, first) :=
      match s
      case BuildFinishes(result) => (RESULT + result + END, a.info[a.order[0]].firstChunk)
      case CommandBegins(id, cmd) => (Lead(a) + CommandText(id, cmd), false)
      case CommandFinishes(id, status) => (StatusText(id, status), a.info[a.order[0]].firstChunk)
      case CommandWrites(id, data, isStdout) => (OutputText(id, data, isStdout), false)
      case CacheHit(path) => (Lead(a) + CacheText(path), false);
    var u := a.(info := Extended(a.order, a.info, text, first));
    FlushKeeps(u);
    FlushOthers(u);
    AddsIs(s, a.info[a.order[0]].firstChunk, text);
  }

  /** What a step writes, as far as it depends on whether it is the first. */
  function Adds(s: Step, first: bool): string {
    if s.BuildFinishes? then Footer(s.result)
    else if !IsRecord(s) then ""
    else if (s.CommandBegins? || s.CacheHit?) && first then Record(s)
    else ",\n" + Record(s)
  }

  lemma AddsIs(s: Step, first: bool, text: string)
    requires IsRecord(s) || s.BuildFinishes?
    requires text == match s
                     case BuildFinishes(result) => RESULT + result + END
                     case CommandBegins(id, cmd) => (if first then "" else COMMA) + CommandText(id, cmd)
                     case CommandFinishes(id, status) => StatusText(id, status)
                     case CommandWrites(id, data, isStdout) => OutputText(id, data, isStdout)
                     case CacheHit(path) => (if first then "" else COMMA) + CacheText(path)
                     case _ => ""
    ensures text == Adds(s, first)
  {
    hide EscapeJson, RESULT, END, RECORD, CMD, STATUS, STDOUT, STDERR, CACHE, CLOSE, COMMA, Record, Footer, OutputText,
         CommandText, CacheText, StatusText;
    Spellings();
    match s
    case BuildFinishes(result) => EndIs(result);
    case CommandBegins(id, cmd) =>
      CommandIs(id, cmd);
      assert "" + Record(s) == Record(s);
    case CommandFinishes(id, status) => StatusIs(id, status);
    case CommandWrites(id, data, isStdout) => OutputIs(id, data, isStdout);
    case CacheHit(path) =>
      CacheIs(path);
      assert "" + Record(s) == Record(s);
  }

  lemma Spellings()
    ensures COMMA == ",\n" && RECORD == "    { \"id\": " && CMD == ", \"cmd\": \"" && STDOUT == ", \"stdout\": \""
    ensures STDERR == ", \"stderr\": \"" && STATUS == ", \"status\": \"" && CACHE == "    { \"cache\": \""
    ensures CLOSE == "\" }" && RESULT == "\n  ],\n  \"result\": \"" && END == "\"\n}\n"
  {
  }

  lemma EndIs(result: string)
    ensures RESULT + result + END == Footer(result)
  {
  }

  lemma CommandIs(id: string, cmd: string)
    ensures CommandText(id, cmd) == Record(CommandBegins(id, cmd))
  {
    hide EscapeJson;
  }

  lemma CacheIs(path: string)
    ensures CacheText(path) == Record(CacheHit(path))
  {
  }

  lemma StatusIs(id: string, status: string)
    ensures StatusText(id, status) == ",\n" + Record(CommandFinishes(id, status))
  {
    hide RECORD, STATUS, CLOSE, COMMA;
    Spellings();
    Regroup(COMMA, RECORD, id, STATUS, status, CLOSE);
  }

  lemma OutputIs(id: string, data: string, isStdout: bool)
    ensures OutputText(id, data, isStdout) == ",\n" + Record(CommandWrites(id, data, isStdout))
  {
    hide EscapeJson, RECORD, STDOUT, STDERR, CLOSE, COMMA;
    Spellings();
    Regroup(COMMA, RECORD, id, if isStdout then STDOUT else STDERR, EscapeJson(data), CLOSE);
  }

  lemma Regroup(a: string, b: string, c: string, d: string, e: string, f: string)
    ensures a + (b + c + d) + e + f == a + (b + c + d + e + f)
  {
  }

  lemma FrontGrows(steps: seq<Step>, b: Build, c: Build, j: nat, k: nat)
    requires j < k < |steps| && steps[j].BuildBegins? && BuildTold(steps, b, j, k) && !b.completed
    requires IsRecord(steps[k]) || steps[k].BuildFinishes?
    requires c.buf == b.buf + Adds(steps[k], b.firstChunk) && c.completed == steps[k].BuildFinishes?
    requires c.firstChunk == (b.firstChunk && (steps[k].BuildFinishes? || steps[k].CommandFinishes?))
    ensures BuildTold(steps, c, j, k + 1)
  {
    hide Header, Footer, Record, Opened, Current;
    CurrentNext(steps, j, k);
    OpenedNext(steps, j, k);
  }

  // ----- Clients over a run -----

  /** The step with which the present connection of `fd` was made. */
  ghost function Since(steps: seq<Step>, trace: seq<Snapshot>, k: nat, fd: int): nat
    requires k <= |steps| && |trace| == |steps| + 1
  {
    if k == 0 then 0
    else if steps[k - 1] == Connection(fd) && fd !in trace[k - 1].clients then k - 1
    else Since(steps, trace, k - 1, fd)
  }

  /** The build that a client connected at step `c` reads: the last one begun before, or else the first
      one after. */
  function BuildFor(steps: seq<Step>, c: nat): nat
    requires c <= |steps|
  {
    if Begins(steps, c) == [] then 0 else |Begins(steps, c)| - 1
  }

  /** Where a client connected at step `c` is before step `k`. */
  ghost predicate ClientTold(steps: seq<Step>, a: Snapshot, k: nat, fd: int, c: nat)
    requires k <= |steps|
  {
    && fd in a.clients && c < k && steps[c] == Connection(fd)
    && a.clients[fd].at == if Begins(steps, k) == [] then Unattached else To(BuildFor(steps, c))
  }

  /** Every client reads the build that was the last to begin before it connected, or, if there was none,
      the first to begin after. */
  lemma {:induction false} ClientReads(steps: seq<Step>, trace: seq<Snapshot>, k: nat, fd: int)
    requires Protocol(steps, false, false) && IsRun(steps, trace) && k <= |steps| && fd in trace[k].clients
    ensures ClientTold(steps, trace[k], k, fd, Since(steps, trace, k, fd))
  {
    hide *;
    RunAt(steps, trace, k, fd);
    if k > 0 {
      RunAt(steps, trace, k - 1, fd);
      BuildsAre(steps, trace, k - 1);
      ProtocolAt(steps, trace, k - 1);
      SinceIs(steps, trace, k, fd);
      if fd in trace[k - 1].clients {
        ClientReads(steps, trace, k - 1, fd);
        ClientStays(steps, trace[k - 1], k - 1, fd, Since(steps, trace, k - 1, fd), AnnouncedAt(steps, k - 1));
      } else {
        ClientComes(steps, trace[k - 1], k - 1, fd);
      }
    }
  }

  /** One state of a run and the step that follows it. */
  lemma RunAt(steps: seq<Step>, trace: seq<Snapshot>, k: nat, fd: int)
    requires IsRun(steps, trace) && k <= |steps|
    ensures |trace| == |steps| + 1 && Good(trace[k]) && (k == 0 ==> fd !in trace[k].clients)
    ensures k < |steps| ==> trace[k + 1] == Apply(trace[k], steps[k])
  {
    hide Good, Apply;
  }

  lemma SinceIs(steps: seq<Step>, trace: seq<Snapshot>, k: nat, fd: int)
    requires 0 < k <= |steps| && |trace| == |steps| + 1
    ensures Since(steps, trace, k, fd)
            == if steps[k - 1] == Connection(fd) && fd !in trace[k - 1].clients then k - 1
               else Since(steps, trace, k - 1, fd)
  {
  }

  lemma ClientComes(steps: seq<Step>, a: Snapshot, k: nat, fd: int)
    requires k < |steps| && Good(a) && BuildsTold(steps, a, k) && fd !in a.clients && fd in Apply(a, steps[k]).clients
    ensures steps[k] == Connection(fd) && ClientTold(steps, Apply(a, steps[k]), k + 1, fd, k)
  {
    hide Begins, BuildTold, Good, Apply, HasFront;
    GoodFront(a);
    NewClient(a, steps[k], fd);
    BeginsNext(steps, k);
    assert Begins(steps, k) + [] == Begins(steps, k);
  }

  lemma GoodFront(a: Snapshot)
    requires Good(a)
    ensures HasFront(a) <==> a.order != []
  {
    hide Consistent, Delivered, ReceivedAll;
    FrontOfConsistent(a.order, a.info, a.next, a.fds, a.waiting, a.clients);
  }

  /** Clients come only by connecting, and get the front build. */
  lemma NewClient(a: Snapshot, s: Step, fd: int)
    requires fd !in a.clients && fd in Apply(a, s).clients
    ensures s == Connection(fd) && Apply(a, s).clients[fd].at == if HasFront(a) then To(a.order[0]) else Unattached
  {
    hide Transmit, Pieces, Erase, AfterClose, Attached, EscapeJson, Remaining, OutputText, CommandText, CacheText,
         StatusText, RESULT, END, BUILD, CMDS;
  }

  /** A client that was there stays with its build, or, if it waited, goes to the front build. */
  lemma SameClient(a: Snapshot, s: Step, fd: int)
    requires fd in a.clients && fd in Apply(a, s).clients
    ensures s.BuildBegins? ==>
              Apply(a, s).clients[fd].at == if a.clients[fd].isWaiting then To(a.next) else a.clients[fd].at
    ensures s.Connection? || s.Writable? || (!HasFront(a) && !s.BuildBegins?) ==>
              Apply(a, s).clients[fd].at == a.clients[fd].at
    ensures !s.BuildBegins? && !s.Connection? && !s.Writable? && HasFront(a) ==>
              Apply(a, s).clients[fd].at == if a.clients[fd].isWaiting then To(a.order[0]) else a.clients[fd].at
  {
    hide Transmit, Pieces, Erase, AfterClose, Attached, EscapeJson, OutputText, CommandText, CacheText,
         StatusText, RESULT, END, BUILD, CMDS;
  }

  lemma ClientStays(steps: seq<Step>, a: Snapshot, k: nat, fd: int, c: nat, announced: bool)
    requires k < |steps| && Good(a) && BuildsTold(steps, a, k) && ClientTold(steps, a, k, fd, c)
    requires fd in Apply(a, steps[k]).clients && Fits(steps[k], IsBuilding(a), announced)
    ensures ClientTold(steps, Apply(a, steps[k]), k + 1, fd, c)
  {
    hide Begins, BuildTold, Good, Apply, HasFront, Fits, IsBuilding;
    GoodFront(a);
    SameClient(a, steps[k], fd);
    BeginsNext(steps, k);
    FitsMeans(steps[k], IsBuilding(a), announced);
    if a.clients[fd].isWaiting {
      WaitsAtFront(a, fd);
    } else {
      PolledHasBuild(a, fd);
    }
    if Begins(steps, k) == [] {
      NoneBefore(steps, c, k);
    } else {
      assert Begins(steps, k + 1) != [];
    }
  }

  lemma PolledHasBuild(a: Snapshot, fd: int)
    requires Good(a) && fd in a.clients && !a.clients[fd].isWaiting
    ensures a.clients[fd].at.To? && a.order != []
  {
    hide Delivered, ReceivedAll, Partition, Counted, OlderInUse, NoDuplicates;
    assert Positioned(a.clients[fd], a.order, a.info);
  }

  lemma {:induction false} NoneBefore(steps: seq<Step>, c: nat, k: nat)
    requires c <= k <= |steps| && Begins(steps, k) == []
    ensures Begins(steps, c) == []
  {
    if c < k {
      NoneBefore(steps, c, k - 1);
    }
  }

  /** A waiting client waits for the running build, or for the first. */
  lemma WaitsAtFront(a: Snapshot, fd: int)
    requires Good(a) && fd in a.clients && a.clients[fd].isWaiting
    ensures if a.order == [] then a.clients[fd].at == Unattached
            else a.clients[fd].at == To(a.order[0]) && IsBuilding(a)
  {
    hide Delivered, ReceivedAll, Partition, Counted, OlderInUse, NoDuplicates;
  }

  /** The bytes of `text` at the offsets. */
  ghost function Bytes(text: string, offsets: seq<nat>): string {
    seq(|offsets|, i requires 0 <= i < |offsets| => if offsets[i] < |text| then text[offsets[i]] else ' ')
  }

  /** A client that is closed for completion has been sent as many bytes as the whole output of its build,
      and if no call sent to it twice, exactly that output: the header, the records of the steps of that
      build in order, and the result. */
  lemma ClientReceives(steps: seq<Step>, trace: seq<Snapshot>, k: nat)
    requires Protocol(steps, false, false) && IsRun(steps, trace) && k < |steps|
    requires |trace[k + 1].closed| > |trace[k].closed| && trace[k + 1].closed[|trace[k].closed|].finished
    ensures var r := trace[k + 1].closed[|trace[k].closed|];
            var c := Since(steps, trace, k, r.fd);
            && c < k && steps[c] == Connection(r.fd) && r.build == BuildFor(steps, c) < |Begins(steps, k)|
            && var j := Begins(steps, k)[r.build];
               && !Current(steps, j, k) && |r.offsets| == |TextAt(steps, j, k)|
               && (r.clean ==> Bytes(TextAt(steps, j, k), r.offsets) == TextAt(steps, j, k))
  {
    hide Good, Apply, Protocol, BuildsTold, Begins, TextAt, Current, BuildFor, IsBuilding;
    assert trace[k + 1] == Apply(trace[k], steps[k]) && Good(trace[k]) && Good(trace[k + 1]);
    var a, r := trace[k], trace[k + 1].closed[|trace[k].closed|];
    BuildsAre(steps, trace, k);
    BuildsToldMean(steps, a, k);
    ClosesNow(steps, a, k);
    ClientReads(steps, trace, k, r.fd);
    var j := Begins(steps, k)[r.build];
    ToldText(steps, a.info[r.build], j, k);
    AllReceived(trace[k + 1], |a.closed|);
    if r.clean {
      InOrderBytes(TextAt(steps, j, k), r.offsets);
    }
  }

  lemma ToldText(steps: seq<Step>, b: Build, j: nat, k: nat)
    requires j < k <= |steps| && steps[j].BuildBegins? && BuildTold(steps, b, j, k)
    ensures b.buf == TextAt(steps, j, k) && (b.completed <==> !Current(steps, j, k))
  {
    hide TextAt, Current, Opened;
  }

  lemma AllReceived(a: Snapshot, i: nat)
    requires Good(a) && i < |a.closed|
    ensures ReceivedAll(a.closed[i])
  {
    hide Consistent, Delivered, ReceivedAll;
  }

  lemma InOrderBytes(text: string, offsets: seq<nat>)
    requires offsets == Offsets(0, |text|)
    ensures Bytes(text, offsets) == text
  {
  }

  /** Only a client that can be written to is closed; it has a build, and its record says which. */
  lemma ClosesNow(steps: seq<Step>, a: Snapshot, k: nat)
    requires k < |steps| && Good(a)
    requires |Apply(a, steps[k]).closed| > |a.closed| && Apply(a, steps[k]).closed[|a.closed|].finished
    ensures var r := Apply(a, steps[k]).closed[|a.closed|];
            && r.fd in a.clients && a.clients[r.fd].at == To(r.build) && r.build in a.info
            && r.size == |a.info[r.build].buf| && a.info[r.build].completed
  {
    hide Consistent, Delivered, ReceivedAll, Transmit, Pieces, Erase, AfterClose, Attached;
  }
}
