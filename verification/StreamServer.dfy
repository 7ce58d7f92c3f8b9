/** The server that streams build output to clients (src/stream_server.cpp). */
module Streaming {
  import opened Topology

  datatype Attachment = Unattached | To(build: nat)

  /** What the server knows about a connection; its descriptor is in one of two lists. */
  datatype Client = Client(at: Attachment, ptr: nat, isWaiting: bool)

  datatype Build = Build(buf: string, refcount: nat, completed: bool, firstChunk: bool)

  /** What a call of send can do; the number is what the kernel is willing to take. */
  datatype SendResult = Sent(taken: nat) | WouldBlock | Failed

  // ----- Sending -----

  datatype Ending = Drained | Blocked | Broken

  /** A call of processClient: the new position, the offsets of the bytes sent, the reason to stop. */
  datatype Transmission = Transmission(ptr: nat, offsets: seq<nat>, ending: Ending)

  function Offsets(a: nat, n: nat): (s: seq<nat>)
    ensures |s| == n && forall i :: 0 <= i < n ==> s[i] == a + i
  {
    seq(n, i => a + i)
  }

  function Taken(r: SendResult, size: nat): nat
    requires r.Sent?
  {
    if r.taken < size then r.taken else size
  }

  /** The loop of processClient: the position advances, the pointer `start` given to send does not. */
  function Transmit(start: nat, ptr: nat, size: nat, net: seq<SendResult>): Transmission
    requires start <= ptr < size
    decreases |net|
  {
    if net == [] || net[0].WouldBlock? then Transmission(ptr, [], Blocked)
    else if net[0].Failed? then Transmission(ptr, [], Broken)
    else
      var n := Taken(net[0], size - ptr);
      var now := Offsets(start, n);
      if ptr + n < size then
        var t := Transmit(start, ptr + n, size, net[1..]);
        t.(offsets := now + t.offsets)
      else Transmission(ptr + n, now, Drained)
  }

  /** How many sends of that loop take at least one byte. */
  function Pieces(ptr: nat, size: nat, net: seq<SendResult>): nat
    requires ptr < size
    decreases |net|
  {
    if net == [] || !net[0].Sent? then 0
    else
      var n := Taken(net[0], size - ptr);
      (if n > 0 then 1 else 0) + if ptr + n < size then Pieces(ptr + n, size, net[1..]) else 0
  }

  lemma {:induction false} TransmitBounds(start: nat, ptr: nat, size: nat, net: seq<SendResult>)
    requires start <= ptr < size
    ensures var t := Transmit(start, ptr, size, net);
            ptr <= t.ptr <= size && |t.offsets| == t.ptr - ptr && (t.ending.Drained? <==> t.ptr == size)
            && (t.offsets != [] ==> t.offsets[0] == start) && (t.offsets == [] <==> Pieces(ptr, size, net) == 0)
    decreases |net|
  {
    hide Offsets;
    if net != [] && net[0].Sent? {
      var n := Taken(net[0], size - ptr);
      if ptr + n < size {
        TransmitBounds(start, ptr + n, size, net[1..]);
      }
    }
  }

  /** One round of the loop, when it is not the last. */
  lemma OneSend(start: nat, ptr: nat, size: nat, net: seq<SendResult>)
    requires start <= ptr < size && net != [] && net[0].Sent? && ptr + Taken(net[0], size - ptr) < size
    ensures var n := Taken(net[0], size - ptr);
            var t := Transmit(start, ptr + n, size, net[1..]);
            && Transmit(start, ptr, size, net) == t.(offsets := Offsets(start, n) + t.offsets)
            && Pieces(ptr, size, net) == (if n > 0 then 1 else 0) + Pieces(ptr + n, size, net[1..])
  {
    hide Offsets;
  }

  /** The loop ends in this round. */
  lemma LastSend(start: nat, ptr: nat, size: nat, net: seq<SendResult>)
    requires start <= ptr < size && !(net != [] && net[0].Sent? && ptr + Taken(net[0], size - ptr) < size)
    ensures var t := Transmit(start, ptr, size, net);
            Pieces(ptr, size, net) <= 1 && t.ptr >= ptr && t.offsets == Offsets(start, t.ptr - ptr)
  {
    assert Offsets(start, 0) == [];
  }

  /** What one call sends continues the stream exactly when at most one of its sends takes bytes. */
  lemma {:induction false} InOrderIff(ptr: nat, size: nat, net: seq<SendResult>)
    requires ptr < size
    ensures var t := Transmit(ptr, ptr, size, net);
            t.ptr >= ptr && (t.offsets == Offsets(ptr, t.ptr - ptr) <==> Pieces(ptr, size, net) <= 1)
    decreases |net|
  {
    hide Transmit, Pieces, Offsets;
    if net != [] && net[0].Sent? && ptr + Taken(net[0], size - ptr) < size {
      var n := Taken(net[0], size - ptr);
      var t := Transmit(ptr, ptr + n, size, net[1..]);
      OneSend(ptr, ptr, size, net);
      TransmitBounds(ptr, ptr + n, size, net[1..]);
      if n == 0 {
        InOrderIff(ptr, size, net[1..]);
        assert Offsets(ptr, 0) + t.offsets == t.offsets;
      } else if t.offsets == [] {
        assert Offsets(ptr, n) + t.offsets == Offsets(ptr, n);
      } else {
        assert (Offsets(ptr, n) + t.offsets)[n] == ptr;
      }
    } else {
      LastSend(ptr, ptr, size, net);
    }
  }

  /** Two sends of one byte each: the first byte goes out twice, the second never. */
  lemma StalePointer()
    ensures Transmit(0, 0, 2, [Sent(1), Sent(1)]) == Transmission(2, [0, 0], Drained)
  {
    assert [Sent(1), Sent(1)][1..] == [Sent(1)];
    assert Transmit(0, 1, 2, [Sent(1)]) == Transmission(2, [0], Drained);
  }

  // ----- The invariant -----

  ghost function Attached(clients: map<int, Client>, h: nat): set<int> {
    set fd | fd in clients && clients[fd].at == To(h)
  }

  /** The two lists of descriptors partition the clients. */
  ghost predicate Partition(fds: seq<int>, waiting: seq<int>, clients: map<int, Client>) {
    && NoDuplicates(fds) && NoDuplicates(waiting)
    && (forall fd :: fd in clients <==> fd in fds || fd in waiting)
    && (forall fd :: fd in clients ==> clients[fd].isWaiting == (fd in waiting) && !(fd in fds && fd in waiting))
  }

  /** `order` lists the builds, newest first. */
  ghost predicate Ordered(order: seq<nat>, info: map<nat, Build>, next: nat) {
    && NoDuplicates(order)
    && (forall h :: h in info <==> h in order)
    && (forall h :: h in info ==> h < next)
  }

  ghost predicate Counted(info: map<nat, Build>, clients: map<int, Client>) {
    forall h :: h in info ==> info[h].refcount == |Attached(clients, h)|
  }

  /** Older builds are completed and still have readers. */
  ghost predicate OlderInUse(order: seq<nat>, info: map<nat, Build>)
    requires forall h :: h in order ==> h in info
  {
    && (forall h :: h in order && h != order[0] ==> info[h].completed && info[h].refcount > 0)
    && (forall h :: h in order ==> info[h].buf != "")
  }

  /** A polled client has something to read; a waiting one has read all of the unfinished front
      build, or came before the first build. */
  ghost predicate Positioned(c: Client, order: seq<nat>, info: map<nat, Build>) {
    match c.at
    case Unattached => order == [] && c.isWaiting && c.ptr == 0
    case To(h) =>
      h in info && if c.isWaiting then order != [] && h == order[0] && !info[h].completed && c.ptr == |info[h].buf|
                   else c.ptr < |info[h].buf|
  }

  ghost predicate Consistent(order: seq<nat>, info: map<nat, Build>, next: nat, fds: seq<int>, waiting: seq<int>,
                          clients: map<int, Client>) {
    && Partition(fds, waiting, clients) && Ordered(order, info, next) && Counted(info, clients)
        && OlderInUse(order, info)
    && forall fd :: fd in clients ==> Positioned(clients[fd], order, info)
  }

  /** A connection that has been closed: its descriptor and its build, how long the build's output was,
      what it was sent, whether every call made at most one send that took bytes, and whether it was
      closed for completion. */
  datatype Closed = Closed(fd: int, build: nat, size: nat, offsets: seq<nat>, clean: bool, finished: bool)

  /** A client closed for completion was sent as many bytes as one whole build has, and exactly
      those bytes in order if and only if no call sent twice. */
  predicate ReceivedAll(c: Closed) {
    c.finished ==> |c.offsets| == c.size && (c.offsets == Offsets(0, c.size) <==> c.clean)
  }

  /** What has been sent to each client. */
  ghost predicate Delivered(clients: map<int, Client>, sent: map<int, seq<nat>>, clean: map<int, bool>) {
    && sent.Keys == clients.Keys == clean.Keys
    && forall fd :: fd in clients ==>
        |sent[fd]| == clients[fd].ptr
        && (sent[fd] == Offsets(0, clients[fd].ptr) <==> clean[fd])
  }

  // ----- Steps on values -----

  lemma AttachOne(clients: map<int, Client>, fd: int, c: Client, h: nat)
    ensures var after := clients[fd := c];
            Attached(after, h) == if c.at == To(h) then Attached(clients, h) + {fd} else Attached(clients, h) - {fd}
  {
  }

  lemma AttachedSize(clients: map<int, Client>, fd: int, c: Client, h: nat)
    requires fd in clients ==> clients[fd].at == c.at || clients[fd].at == Unattached
    ensures |Attached(clients[fd := c], h)|
         == |Attached(clients, h)| + if c.at == To(h) && !(fd in clients && clients[fd].at == c.at) then 1 else 0
  {
    hide Attached;
    AttachOne(clients, fd, c, h);
    AttachedIs(clients, fd, h);
  }

  lemma AttachedIs(clients: map<int, Client>, fd: int, h: nat)
    ensures fd in Attached(clients, h) <==> fd in clients && clients[fd].at == To(h)
  {
  }

  lemma DetachedSize(clients: map<int, Client>, fd: int, h: nat)
    requires fd in clients
    ensures |Attached(clients - {fd}, h)| == |Attached(clients, h)| - if clients[fd].at == To(h) then 1 else 0
  {
    assert Attached(clients - {fd}, h) == Attached(clients, h) - {fd};
  }

  lemma PushFront(fds: seq<int>, fd: int)
    requires NoDuplicates(fds) && fd !in fds
    ensures NoDuplicates([fd] + fds)
    ensures forall x :: x in [fd] + fds <==> x == fd || x in fds
  {
  }

  /** list::erase. */
  function Erase<T(==, !new)>(s: seq<T>, x: T): (r: seq<T>)
    ensures forall y :: y in r ==> y in s
    ensures s != [] && s[0] != x ==> r != [] && r[0] == s[0]
  {
    if s == [] then [] else if s[0] == x then s[1..] else [s[0]] + Erase(s[1..], x)
  }

  lemma {:induction false} Erased<T(!new)>(s: seq<T>, x: T)
    requires NoDuplicates(s)
    ensures NoDuplicates(Erase(s, x))
    ensures forall y :: y in Erase(s, x) <==> y in s && y != x
  {
    if s != [] && s[0] != x {
      Erased(s[1..], x);
      assert forall y :: y in s <==> y == s[0] || y in s[1..];
      assert s[0] !in s[1..];
    } else if s != [] {
      assert s[0] !in s[1..];
      assert forall y :: y in s <==> y == s[0] || y in s[1..];
    }
  }

  /** A new client, waiting if there is no build yet and otherwise reading the front build. */
  lemma Connects(order: seq<nat>, info: map<nat, Build>, next: nat, fds: seq<int>, waiting: seq<int>,
                 clients: map<int, Client>, fd: int)
    requires Consistent(order, info, next, fds, waiting, clients) && fd !in clients
    ensures order == [] ==> Consistent(order, info, next, fds, [fd] + waiting,
            clients[fd := Client(Unattached, 0, true)])
    ensures order != [] ==> order[0] in info && info[order[0]].buf != ""
    ensures order != [] ==>
              Consistent(order, info[order[0] := info[order[0]].(refcount := info[order[0]].refcount + 1)], next,
                         [fd] + fds, waiting, clients[fd := Client(To(order[0]), 0, false)])
  {
    hide Attached;
    if order == [] {
      PushFront(waiting, fd);
    } else {
      PushFront(fds, fd);
      var c := Client(To(order[0]), 0, false);
      forall h | h in info
        ensures |Attached(clients[fd := c], h)| == |Attached(clients, h)| + if h == order[0] then 1 else 0
      {
        AttachedSize(clients, fd, c, h);
      }
    }
  }

  /** A build that nobody reads any more goes away unless it is the newest. */
  function AfterClose(order: seq<nat>, info: map<nat, Build>, h: nat): (seq<nat>, map<nat, Build>)
    requires h in info
  {
    var b := info[h].(refcount := if info[h].refcount == 0 then 0 else info[h].refcount - 1);
    if b.refcount == 0 && b.completed && !(order != [] && h == order[0]) then (Erase(order, h), info - {h})
    else (order, info[h := b])
  }

  lemma ClientCloses(order: seq<nat>, info: map<nat, Build>, next: nat, fds: seq<int>, waiting: seq<int>,
                     clients: map<int, Client>, fd: int)
    requires Consistent(order, info, next, fds, waiting, clients) && fd in fds
    ensures fd in clients && clients[fd].at.To? && clients[fd].at.build in info
            && info[clients[fd].at.build].refcount > 0
    ensures var (o, i) := AfterClose(order, info, clients[fd].at.build);
            Consistent(o, i, next, Erase(fds, fd), waiting, clients - {fd})
  {
    hide Attached, NoDuplicates;
    assert Positioned(clients[fd], order, info);
    var h := clients[fd].at.build;
    forall k | k in info ensures |Attached(clients - {fd}, k)| == |Attached(clients, k)| - if k == h then 1 else 0 {
      DetachedSize(clients, fd, k);
    }
    AttachedIs(clients, fd, h);
    assert fd in Attached(clients, h);
    Erased(fds, fd);
    var (o, i) := AfterClose(order, info, h);
    if h !in i {
      Erased(order, h);
      NoReaders(clients - {fd}, h);
    }
    assert Partition(Erase(fds, fd), waiting, clients - {fd});
    assert Ordered(o, i, next);
    assert Counted(i, clients - {fd});
    assert OlderInUse(o, i);
  }

  lemma NoReaders(clients: map<int, Client>, h: nat)
    requires |Attached(clients, h)| == 0
    ensures forall fd :: fd in clients ==> clients[fd].at != To(h)
  {
    assert Attached(clients, h) == {};
    assert forall fd :: fd in clients ==> fd !in Attached(clients, h);
  }

  /** A polled client that still has something to read. */
  lemma Advances(order: seq<nat>, info: map<nat, Build>, next: nat, fds: seq<int>, waiting: seq<int>,
                 clients: map<int, Client>, fd: int, ptr: nat)
    requires Consistent(order, info, next, fds, waiting, clients) && fd in fds
    requires fd in clients && clients[fd].at.To? && clients[fd].at.build in info
             && ptr < |info[clients[fd].at.build].buf|
    ensures Consistent(order, info, next, fds, waiting, clients[fd := clients[fd].(ptr := ptr)])
  {
    hide Attached, NoDuplicates;
    var c := clients[fd].(ptr := ptr);
    forall h | h in info ensures |Attached(clients[fd := c], h)| == |Attached(clients, h)| {
      AttachedSize(clients, fd, c, h);
    }
  }

  /** A client that has read everything so far waits for more. */
  lemma StartsWaiting(order: seq<nat>, info: map<nat, Build>, next: nat, fds: seq<int>, waiting: seq<int>,
                      clients: map<int, Client>, fd: int)
    requires Consistent(order, info, next, fds, waiting, clients) && fd in fds
    requires fd in clients && clients[fd].at.To? && clients[fd].at.build in info
             && !info[clients[fd].at.build].completed
    ensures Consistent(order, info, next, Erase(fds, fd), [fd] + waiting,
                       clients[fd := Client(clients[fd].at, |info[clients[fd].at.build].buf|, true)])
  {
    hide Attached, NoDuplicates;
    var c := Client(clients[fd].at, |info[clients[fd].at.build].buf|, true);
    forall h | h in info ensures |Attached(clients[fd := c], h)| == |Attached(clients, h)| {
      AttachedSize(clients, fd, c, h);
    }
    Erased(fds, fd);
    PushFront(waiting, fd);
  }

  lemma DeliverMore(clients: map<int, Client>, sent: map<int, seq<nat>>, clean: map<int, bool>, fd: int, size: nat,
                    net: seq<SendResult>, c: Client)
    requires Delivered(clients, sent, clean) && fd in clients && clients[fd].ptr < size
    requires c.ptr == Transmit(clients[fd].ptr, clients[fd].ptr, size, net).ptr
    ensures Delivered(clients[fd := c], sent[fd := sent[fd]
            + Transmit(clients[fd].ptr, clients[fd].ptr, size, net).offsets],
                      clean[fd := clean[fd] && Pieces(clients[fd].ptr, size, net) <= 1])
  {
    hide Transmit, Pieces;
    var ptr := clients[fd].ptr;
    var t := Transmit(ptr, ptr, size, net);
    TransmitBounds(ptr, ptr, size, net);
    InOrderIff(ptr, size, net);
    SplitOrder(sent[fd], t.offsets, ptr);
  }

  lemma SplitOrder(a: seq<nat>, b: seq<nat>, ptr: nat)
    requires |a| == ptr
    ensures a + b == Offsets(0, ptr + |b|) <==> a == Offsets(0, ptr) && b == Offsets(ptr, |b|)
  {
    if a + b == Offsets(0, ptr + |b|) {
      assert a == (a + b)[..ptr] && b == (a + b)[ptr..];
    }
    if a == Offsets(0, ptr) && b == Offsets(ptr, |b|) {
      assert a + b == Offsets(0, ptr + |b|);
    }
  }

  /** Output has been appended to the front build and the waiting clients have not been told. */
  ghost predicate Appended(order: seq<nat>, info: map<nat, Build>, next: nat, fds: seq<int>, waiting: seq<int>,
                          clients: map<int, Client>) {
    && Partition(fds, waiting, clients) && Ordered(order, info, next) && Counted(info, clients)
        && OlderInUse(order, info)
    && order != [] && !info[order[0]].completed
    && forall fd :: fd in clients ==> Pending(clients[fd], order[0], info)
  }

  /** There is something to read; a waiting client reads the front build or none yet. */
  ghost predicate Pending(c: Client, front: nat, info: map<nat, Build>) {
    match c.at
    case Unattached => c.isWaiting && c.ptr == 0 && front in info && info[front].buf != ""
    case To(h) => h in info && c.ptr < |info[h].buf| && (c.isWaiting ==> h == front)
  }

  /** The front build with more output. */
  function Grown(order: seq<nat>, info: map<nat, Build>, text: string): map<nat, Build>
    requires order != [] && order[0] in info
  {
    info[order[0] := info[order[0]].(buf := info[order[0]].buf + text)]
  }

  /** The front build with more output and a known flag. */
  function Extended(order: seq<nat>, info: map<nat, Build>, text: string, first: bool): map<nat, Build>
    requires order != [] && order[0] in info
  {
    info[order[0] := info[order[0]].(buf := info[order[0]].buf + text, firstChunk := first)]
  }

  lemma ExtendsAppended(order: seq<nat>, info: map<nat, Build>, next: nat, fds: seq<int>, waiting: seq<int>,
                        clients: map<int, Client>, text: string, first: bool)
    requires Consistent(order, info, next, fds, waiting, clients) && order != [] && !info[order[0]].completed
             && text != ""
    ensures Appended(order, Extended(order, info, text, first), next, fds, waiting, clients)
  {
    hide NoDuplicates, Attached;
    forall fd | fd in clients ensures Pending(clients[fd], order[0], Extended(order, info, text, first)) {
      assert Positioned(clients[fd], order, info);
    }
  }

  /** The client at the head of the waiting list is polled again. */
  lemma Wakes(order: seq<nat>, info: map<nat, Build>, next: nat, fds: seq<int>, waiting: seq<int>,
              clients: map<int, Client>)
    requires Appended(order, info, next, fds, waiting, clients) && waiting != []
    ensures waiting[0] in clients
    ensures var (fd, front) := (waiting[0], order[0]);
            var (b, c) := (info[front], clients[fd]);
            && (c.at == Unattached || c.at == To(front))
            && Appended(order, info[front := b.(refcount := b.refcount + if c.at == Unattached then 1 else 0)], next,
                        [fd] + fds, waiting[1..], clients[fd := Client(To(front), c.ptr, false)])
  {
    hide Attached;
    var fd, front := waiting[0], order[0];
    assert fd in waiting;
    assert Pending(clients[fd], front, info);
    var c := Client(To(front), clients[fd].ptr, false);
    forall h | h in info
      ensures |Attached(clients[fd := c], h)|
              == |Attached(clients, h)| + if h == front && clients[fd].at == Unattached then 1 else 0
    {
      AttachedSize(clients, fd, c, h);
    }
    PushFront(fds, fd);
    assert forall x :: x in waiting <==> x == fd || x in waiting[1..];
    assert fd !in waiting[1..];
  }

  lemma AllAwake(order: seq<nat>, info: map<nat, Build>, next: nat, fds: seq<int>, clients: map<int, Client>)
    requires Appended(order, info, next, fds, [], clients)
    ensures Consistent(order, info, next, fds, [], clients)
  {
    hide NoDuplicates, Attached;
    forall fd | fd in clients ensures Positioned(clients[fd], order, info) {
      assert Pending(clients[fd], order[0], info);
    }
  }

  /** The builds left when a new one starts: the newest goes away if nobody reads it. */
  function Remaining(order: seq<nat>, info: map<nat, Build>): (seq<nat>, map<nat, Build>) {
    if order != [] && order[0] in info && info[order[0]].refcount == 0 then (order[1..], info - {order[0]})
        else (order, info)
  }

  lemma BuildStarts(order: seq<nat>, info: map<nat, Build>, next: nat, fds: seq<int>, waiting: seq<int>,
                    clients: map<int, Client>, text: string)
    requires Consistent(order, info, next, fds, waiting, clients) && (order != [] ==> info[order[0]].completed)
             && text != ""
    ensures var (o, i) := Remaining(order, info);
            Appended([next] + o, i[next := Build(text, 0, false, true)], next + 1, fds, waiting, clients)
  {
    hide Attached, NoDuplicates, Partition, Ordered, OlderInUse, Positioned, Pending, Remaining;
    forall fd | fd in clients
      ensures Pending(clients[fd], next, StartedInfo(order, info, next, text)) && clients[fd].at != To(next)
    {
      StillReads(order, info, next, fds, waiting, clients, text, fd);
    }
    NoReadersYet(clients, next);
    StartedOrder(order, info, next, text);
    KnownBuilds(order, info);
  }

  function StartedInfo(order: seq<nat>, info: map<nat, Build>, next: nat, text: string): map<nat, Build> {
    Remaining(order, info).1[next := Build(text, 0, false, true)]
  }

  lemma KnownBuilds(order: seq<nat>, info: map<nat, Build>)
    ensures forall h :: h in Remaining(order, info).1 ==> h in info && Remaining(order, info).1[h] == info[h]
  {
  }

  lemma StartedOrder(order: seq<nat>, info: map<nat, Build>, next: nat, text: string)
    requires Ordered(order, info, next) && OlderInUse(order, info) && (order != [] ==> info[order[0]].completed)
             && text != ""
    ensures Ordered([next] + Remaining(order, info).0, StartedInfo(order, info, next, text), next + 1)
    ensures OlderInUse([next] + Remaining(order, info).0, StartedInfo(order, info, next, text))
  {
    hide NoDuplicates;
    StillNoDuplicates(order, next);
  }

  lemma StillReads(order: seq<nat>, info: map<nat, Build>, next: nat, fds: seq<int>, waiting: seq<int>,
                   clients: map<int, Client>, text: string, fd: int)
    requires Consistent(order, info, next, fds, waiting, clients) && (order != [] ==> info[order[0]].completed)
             && text != ""
    requires fd in clients
    ensures Pending(clients[fd], next, StartedInfo(order, info, next, text)) && clients[fd].at != To(next)
  {
    hide Attached, NoDuplicates, Partition;
    assert Positioned(clients[fd], order, info);
    if order != [] && info[order[0]].refcount == 0 {
      NoReaders(clients, order[0]);
    }
  }

  lemma StillNoDuplicates(order: seq<nat>, next: nat)
    requires NoDuplicates(order)
    ensures next !in order ==>
              NoDuplicates([next] + order) && forall h :: h in [next] + order <==> h == next || h in order
    ensures order != [] ==> order[0] !in order[1..] && forall h :: h in order <==> h == order[0] || h in order[1..]
    ensures order != [] && next !in order ==>
              NoDuplicates([next] + order[1..])
              && forall h :: h in [next] + order[1..] <==> h == next || h in order[1..]
  {
  }

  lemma NoReadersYet(clients: map<int, Client>, h: nat)
    requires forall fd :: fd in clients ==> clients[fd].at != To(h)
    ensures |Attached(clients, h)| == 0
  {
    hide Attached;
    forall fd ensures fd !in Attached(clients, h) {
      AttachedIs(clients, fd, h);
    }
    assert Attached(clients, h) == {};
  }

  /** With no client waiting the front build can be marked completed. */
  lemma BuildEnds(order: seq<nat>, info: map<nat, Build>, next: nat, fds: seq<int>, clients: map<int, Client>)
    requires Consistent(order, info, next, fds, [], clients) && order != []
    ensures order[0] in info
    ensures Consistent(order, info[order[0] := info[order[0]].(completed := true)], next, fds, [], clients)
  {
    hide NoDuplicates, Attached;
    var after := info[order[0] := info[order[0]].(completed := true)];
    forall fd | fd in clients ensures Positioned(clients[fd], order, after) {
      assert Positioned(clients[fd], order, info);
    }
  }

  lemma GrowsTwice(order: seq<nat>, info: map<nat, Build>, a: string, b: string)
    requires order != [] && order[0] in info
    ensures Grown(order, Grown(order, info, a), b) == Grown(order, info, a + b)
  {
    assert info[order[0]].buf + a + b == info[order[0]].buf + (a + b);
  }

  // ----- The text of the stream -----

  const COMMA := ",\n"
  const RECORD := "    { \"id\": "
  const CMD := ", \"cmd\": \""
  const STDOUT := ", \"stdout\": \""
  const STDERR := ", \"stderr\": \""
  const STATUS := ", \"status\": \""
  const CACHE := "    { \"cache\": \""
  const CLOSE := "\" }"

  const BUILD := "{\n  \"id\": "
  const CMDS := ",\n  \"cmds\": [\n"
  const RESULT := "\n  ],\n  \"result\": \""
  const END := "\"\n}\n"

  lemma NotEmpty()
    ensures CLOSE != "" && BUILD != "" && END != ""
  {
  }

  function EscapeJson(data: string): string {
    if data == "" then "" else
      var (init, c) := (EscapeJson(data[..|data| - 1]), data[|data| - 1]);
      if c == '"' || c == '\\' then init + ['\\', c] else if c == '\n' then init + ['\\', 'n'] else init + [c]
  }

  /** Reads an escaped text back. */
  function UnescapeJson(text: string): string {
    if text == "" then ""
    else if text[0] == '\\' && |text| >= 2 then [if text[1] == 'n' then '\n' else text[1]] + UnescapeJson(text[2..])
    else [text[0]] + UnescapeJson(text[1..])
  }

  /** No escape is cut off at the end. */
  predicate WholeEscapes(text: string) {
    if text == "" then true
    else if text[0] == '\\' then |text| >= 2 && WholeEscapes(text[2..])
    else text[0] != '"' && WholeEscapes(text[1..])
  }

  lemma {:induction false} UnescapeSplit(a: string, b: string)
    requires WholeEscapes(a)
    ensures UnescapeJson(a + b) == UnescapeJson(a) + UnescapeJson(b)
    ensures WholeEscapes(b) ==> WholeEscapes(a + b)
    decreases |a|
  {
    if a == "" {
      assert a + b == b;
    } else if a[0] == '\\' {
      assert (a + b)[2..] == a[2..] + b;
      UnescapeSplit(a[2..], b);
    } else {
      assert (a + b)[1..] == a[1..] + b;
      UnescapeSplit(a[1..], b);
    }
  }

  /** The output of a command can be recovered from the stream, and its quotes do not end the string. */
  lemma {:induction false} EscapeRoundTrip(data: string)
    ensures WholeEscapes(EscapeJson(data)) && UnescapeJson(EscapeJson(data)) == data
  {
    if data != "" {
      var n := |data| - 1;
      EscapeRoundTrip(data[..n]);
      var last := if data[n] == '"' || data[n] == '\\' then ['\\', data[n]] else if data[n] == '\n' then ['\\', 'n']
          else [data[n]];
      LastEscape(data[n], last);
      UnescapeSplit(EscapeJson(data[..n]), last);
      assert data == data[..n] + [data[n]];
    }
  }

  /** Escaped text stays on one line. */
  lemma {:induction false} EscapeHidesLines(data: string)
    ensures '\n' !in EscapeJson(data)
  {
    if data != "" {
      EscapeHidesLines(data[..|data| - 1]);
    }
  }

  lemma LastEscape(c: char, last: string)
    requires last == if c == '"' || c == '\\' then ['\\', c] else if c == '\n' then ['\\', 'n'] else [c]
    ensures WholeEscapes(last) && UnescapeJson(last) == [c]
  {
    if |last| == 2 {
      assert last[2..] == "";
    } else {
      assert last[1..] == "";
    }
  }

  // ----- States and steps -----

  /** The fields of the server, with what has been sent to whom. */
  datatype Snapshot = Snapshot(
    order: seq<nat>, info: map<nat, Build>, next: nat, fds: seq<int>, waiting: seq<int>, clients: map<int, Client>,
    sent: map<int, seq<nat>>, clean: map<int, bool>, closed: seq<Closed>)

  const NEW := Snapshot([], map[], 0, [], [], map[], map[], map[], [])

  /** The invariant of the server. */
  ghost predicate Good(a: Snapshot) {
    && Consistent(a.order, a.info, a.next, a.fds, a.waiting, a.clients)
    && Delivered(a.clients, a.sent, a.clean)
    && forall i :: 0 <= i < |a.closed| ==> ReceivedAll(a.closed[i])
  }

  predicate HasFront(a: Snapshot) { a.order != [] && a.order[0] in a.info }

  /** A build is running. */
  predicate IsBuilding(a: Snapshot) { HasFront(a) && !a.info[a.order[0]].completed }

  function Reversed(s: seq<int>): seq<int> {
    if s == [] then [] else [s[|s| - 1]] + Reversed(s[..|s| - 1])
  }

  /** Every waiting client is attached to the front build and polled. */
  function Woken(clients: map<int, Client>, front: nat): map<int, Client> {
    map fd | fd in clients :: if clients[fd].isWaiting then Client(To(front), clients[fd].ptr, false) else clients[fd]
  }

  /** flushWaiting. */
  ghost function Flushed(a: Snapshot): Snapshot
    requires HasFront(a)
  {
    var front, clients := a.order[0], Woken(a.clients, a.order[0]);
    a.(clients := clients, fds := Reversed(a.waiting) + a.fds, waiting := [],
       info := a.info[front := a.info[front].(refcount := |Attached(clients, front)|)])
  }

  /** More output in the front build, and everybody who waited is told. */
  ghost function Written(a: Snapshot, text: string, first: bool): Snapshot
    requires HasFront(a)
  {
    Flushed(a.(info := Extended(a.order, a.info, text, first)))
  }

  /** A new build at the front. */
  ghost function Begun(a: Snapshot, id: string): Snapshot {
    Flushed(Unflushed(a, id))
  }

  /** A new build whose header nobody has been told about. */
  function Unflushed(a: Snapshot, id: string): (b: Snapshot)
    ensures HasFront(b)
  {
    a.(order := [a.next] + Remaining(a.order, a.info).0, next := a.next + 1,
       info := Remaining(a.order, a.info).1[a.next := Build(BUILD + id + CMDS, 0, false, true)])
  }

  ghost function Ended(a: Snapshot, result: string): Snapshot
    requires HasFront(a)
  {
    var b := Written(a, RESULT + result + END, a.info[a.order[0]].firstChunk);
    b.(info := b.info[a.order[0] := b.info[a.order[0]].(completed := true)])
  }

  /** What comes before a record. */
  function Lead(a: Snapshot): string
    requires HasFront(a)
  {
    if a.info[a.order[0]].firstChunk then "" else COMMA
  }

  function CommandText(id: string, cmd: string): string { RECORD + id + CMD + EscapeJson(cmd) + CLOSE }

  function CacheText(path: string): string { CACHE + path + CLOSE }

  function OutputText(id: string, data: string, isStdout: bool): string {
    COMMA + (RECORD + id + (if isStdout then STDOUT else STDERR)) + EscapeJson(data) + CLOSE
  }

  function StatusText(id: string, status: string): string { COMMA + (RECORD + id + STATUS) + status + CLOSE }

  /** createClient. */
  function Connected(a: Snapshot, fd: int): Snapshot {
    if !HasFront(a) then
      a.(waiting := [fd] + a.waiting, clients := a.clients[fd := Client(Unattached, 0, true)],
         sent := a.sent[fd := []], clean := a.clean[fd := true])
    else
      var b := a.info[a.order[0]];
      a.(fds := [fd] + a.fds, clients := a.clients[fd := Client(To(a.order[0]), 0, false)],
         info := a.info[a.order[0] := b.(refcount := b.refcount + 1)],
         sent := a.sent[fd := []], clean := a.clean[fd := true])
  }

  /** The client `fd` has something to read. */
  predicate CanRead(a: Snapshot, fd: int) {
    && fd in a.clients && fd in a.sent && fd in a.clean && a.clients[fd].at.To? && a.clients[fd].at.build in a.info
    && a.clients[fd].ptr < |a.info[a.clients[fd].at.build].buf|
  }

  /** processClient. */
  function Processed(a: Snapshot, fd: int, net: seq<SendResult>): Snapshot
    requires CanRead(a, fd)
  {
    var (c, h) := (a.clients[fd], a.clients[fd].at.build);
    var b := a.info[h];
    var t := Transmit(c.ptr, c.ptr, |b.buf|, net);
    var sent, clean := a.sent[fd] + t.offsets, a.clean[fd] && Pieces(c.ptr, |b.buf|, net) <= 1;
    if t.ending.Broken? || (t.ending.Drained? && b.completed) then
      a.(order := AfterClose(a.order, a.info, h).0, info := AfterClose(a.order, a.info, h).1, fds := Erase(a.fds, fd),
         clients := a.clients - {fd}, sent := a.sent - {fd}, clean := a.clean - {fd},
         closed := a.closed + [Closed(fd, h, |b.buf|, sent, clean, t.ending.Drained?)])
    else
      a.(clients := a.clients[fd := Client(c.at, t.ptr, t.ending.Drained?)], sent := a.sent[fd := sent],
          clean := a.clean[fd := clean],
         fds := if t.ending.Drained? then Erase(a.fds, fd) else a.fds,
         waiting := if t.ending.Drained? then [fd] + a.waiting else a.waiting)
  }

  class StreamServer {
    var order: seq<nat>
    var info: map<nat, Build>
    var next: nat
    var fds: seq<int>
    var waiting: seq<int>
    var clients: map<int, Client>
    ghost var sent: map<int, seq<nat>>
    ghost var clean: map<int, bool>
    ghost var closed: seq<Closed>

    ghost function View(): Snapshot
      reads this
    {
      Snapshot(order, info, next, fds, waiting, clients, sent, clean, closed)
    }

    ghost predicate Valid()
      reads this
    {
      Good(View())
    }

    constructor ()
      ensures Valid() && View() == NEW
    {
      order, info, next, fds, waiting, clients := [], map[], 0, [], [], map[];
      sent, clean, closed := map[], map[], [];
    }

    /** A client connects: it reads the newest build from its beginning, or waits for the first. */
    method CreateClient(fd: int)
      requires Valid() && fd !in clients
      modifies this
      ensures Valid() && View() == Connected(old(View()), fd)
    {
      hide Consistent, Delivered;
      Connects(order, info, next, fds, waiting, clients, fd);
      var isWaiting := order == [] || info[order[0]].buf == "";
      if isWaiting {
        waiting := [fd] + waiting;
      } else {
        fds := [fd] + fds;
      }
      if order != [] {
        info := info[order[0] := info[order[0]].(refcount := info[order[0]].refcount + 1)];
      }
      DeliverNothing(clients, sent, clean, fd, Client(if order == [] then Unattached else To(order[0]), 0, isWaiting));
      clients := clients[fd := Client(if order == [] then Unattached else To(order[0]), 0, isWaiting)];
      sent, clean := sent[fd := []], clean[fd := true];
    }

    /** The loop of processClient. */
    method Send(fd: int, size: nat, net: seq<SendResult>) returns (ending: Ending)
      requires fd in clients && fd in sent && clients[fd].ptr < size
      modifies this`clients, this`sent
      ensures var t := old(Transmit(clients[fd].ptr, clients[fd].ptr, size, net));
              && clients == old(clients)[fd := old(clients[fd]).(ptr := t.ptr)]
              && sent == old(sent)[fd := old(sent[fd]) + t.offsets]
              && ending == t.ending
    {
      hide Transmit, Offsets;
      var start := clients[fd].ptr;
      ghost var before, told := clients[fd], sent[fd];
      ghost var offsets: seq<nat> := [];
      var i, ptr := 0, start;
      assert told + [] == told && [] + Transmit(start, ptr, size, net).offsets
             == Transmit(start, ptr, size, net).offsets;
      assert net[0..] == net;
      while ptr < size
        invariant start <= ptr <= size && i <= |net|
        invariant clients == old(clients)[fd := before.(ptr := ptr)]
        invariant sent == old(sent)[fd := told + offsets]
        invariant if ptr < size then
                    Transmit(start, start, size, net)
                    == Transmit(start, ptr, size, net[i..]).(offsets := offsets
                        + Transmit(start, ptr, size, net[i..]).offsets)
                  else Transmit(start, start, size, net) == Transmission(ptr, offsets, Drained)
        decreases |net| - i + if ptr < size then 1 else 0
      {
        NextSend(start, ptr, size, net, i, offsets);
        if i == |net| || net[i].WouldBlock? {
          return Blocked;
        }
        if net[i].Failed? {
          return Broken;
        }
        var n := Taken(net[i], size - ptr);
        offsets := offsets + Offsets(start, n);
        i, ptr := i + 1, ptr + n;
        clients := clients[fd := clients[fd].(ptr := ptr)];
        sent := sent[fd := told + offsets];
      }
      ending := Drained;
    }

    /** closeClient; `before` is the table before the position of this client moved. */
    method CloseClient(fd: int, ghost before: map<int, Client>, ghost finished: bool)
      requires Consistent(order, info, next, fds, waiting, before) && fd in fds && fd in before
      requires fd in clients && clients == before[fd := before[fd].(ptr := clients[fd].ptr)]
      requires Delivered(clients, sent, clean) && forall i :: 0 <= i < |closed| ==> ReceivedAll(closed[i])
      requires before[fd].at.To? && before[fd].at.build in info
      requires finished ==> clients[fd].ptr == |info[before[fd].at.build].buf|
      modifies this
      ensures Valid() && clients == before - {fd} && fds == Erase(old(fds), fd) && waiting == old(waiting)
              && next == old(next)
      ensures sent == old(sent) - {fd} && clean == old(clean) - {fd}
      ensures (order, info) == AfterClose(old(order), old(info), before[fd].at.build)
      ensures closed == old(closed) + [Closed(fd, before[fd].at.build, old(|info[before[fd].at.build].buf|),
                                              old(sent[fd]), old(clean[fd]), finished)]
    {
      hide Consistent, Delivered, NoDuplicates, ReceivedAll, Erase, AfterClose;
      ClientCloses(order, info, next, fds, waiting, before, fd);
      var h := clients[fd].at.build;
      Keys(clients, sent, clean);
      ghost var record := Closed(fd, h, |info[h].buf|, sent[fd], clean[fd], finished);
      RecordIsFair(clients, sent, clean, fd, record);
      ReleaseBuild(h);
      fds := Erase(fds, fd);
      Forget(clients, sent, clean, fd);
      clients := clients - {fd};
      assert clients == before - {fd};
      sent, clean, closed := sent - {fd}, clean - {fd}, closed + [record];
    }

    /** A build loses a reader; nobody else reading it, it goes away unless it is running or the newest. */
    method ReleaseBuild(h: nat)
      requires h in info && info[h].refcount > 0
      modifies this`order, this`info
      ensures (order, info) == AfterClose(old(order), old(info), h)
    {
      info := info[h := info[h].(refcount := info[h].refcount - 1)];
      if info[h].refcount == 0 && info[h].completed && !(order != [] && h == order[0]) {
        order, info := Erase(order, h), info - {h};
      }
      assert info == AfterClose(old(order), old(info), h).1;
    }

    /** processClient: sends what it can, and then the client keeps being polled, waits for more
        output, or is closed because it failed or its build is complete and read. */
    method ProcessClient(fd: int, net: seq<SendResult>)
      requires Valid() && fd in fds
      modifies this
      ensures Valid() && CanRead(old(View()), fd) && View() == Processed(old(View()), fd, net)
    {
      hide Consistent, Delivered, NoDuplicates, Transmit, Pieces, AfterClose, ReceivedAll, Processed, Erase;
      Polled(order, info, next, fds, waiting, clients, fd);
      Keys(clients, sent, clean);
      ghost var before := clients;
      var h := clients[fd].at.build;
      var size := |info[h].buf|;
      ghost var t := Transmit(clients[fd].ptr, clients[fd].ptr, size, net);
      DeliverMore(clients, sent, clean, fd, size, net, clients[fd].(ptr := t.ptr));
      TransmitBounds(clients[fd].ptr, clients[fd].ptr, size, net);
      ProcessedIs(View(), fd, net);
      clean := clean[fd := clean[fd] && Pieces(clients[fd].ptr, size, net) <= 1];
      var ending := Send(fd, size, net);
      if ending == Broken {
        CloseClient(fd, before, false);
      } else if ending == Blocked {
        Advances(order, info, next, fds, waiting, before, fd, t.ptr);
      } else if info[h].completed {
        CloseClient(fd, before, true);
      } else {
        LetWait(fd, before);
      }
    }

    /** A client that has read everything so far is put on the waiting list. */
    method LetWait(fd: int, ghost before: map<int, Client>)
      requires Consistent(order, info, next, fds, waiting, before) && fd in fds && fd in before && fd in clients
      requires before[fd].at.To? && before[fd].at.build in info && !info[before[fd].at.build].completed
      requires clients == before[fd := before[fd].(ptr := |info[before[fd].at.build].buf|)]
      requires Delivered(clients, sent, clean)
      modifies this`fds, this`waiting, this`clients
      ensures Consistent(order, info, next, fds, waiting, clients) && Delivered(clients, sent, clean)
      ensures fds == Erase(old(fds), fd) && waiting == [fd] + old(waiting)
      ensures clients == before[fd := Client(before[fd].at, |info[before[fd].at.build].buf|, true)]
    {
      hide Consistent, Delivered, NoDuplicates, Erase;
      StartsWaiting(order, info, next, fds, waiting, before, fd);
      fds := Erase(fds, fd);
      waiting := [fd] + waiting;
      Relabel(clients, sent, clean, fd, Client(before[fd].at, |info[before[fd].at.build].buf|, true));
      clients := clients[fd := clients[fd].(isWaiting := true)];
      assert clients == before[fd := Client(before[fd].at, |info[before[fd].at.build].buf|, true)];
    }

    /** writeBuf. */
    method WriteBuf(text: string)
      requires order != [] && order[0] in info
      modifies this`info
      ensures info == Grown(order, old(info), text)
    {
      info := info[order[0] := info[order[0]].(buf := info[order[0]].buf + text)];
    }

    /** flushWaiting: every waiting client is polled again, and reads the front build. */
    method FlushWaiting()
      requires Appended(order, info, next, fds, waiting, clients) && Delivered(clients, sent, clean)
      modifies this`info, this`fds, this`waiting, this`clients
      ensures Consistent(order, info, next, fds, waiting, clients) && Delivered(clients, sent, clean)
      ensures HasFront(old(View())) && View() == Flushed(old(View()))
    {
      hide Appended, Consistent, Delivered, NoDuplicates, Flushed, WokeTo;
      FrontIsKnown(order, info, next, fds, waiting, clients);
      ghost var a := View();
      NobodyWoke(a);
      var i := 0;
      assert waiting[0..] == waiting;
      while i < |waiting|
        invariant i <= |waiting| && waiting == a.waiting
        invariant Appended(order, info, next, fds, waiting[i..], clients) && Delivered(clients, sent, clean)
        invariant WokeTo(a, i, fds, info, clients)
      {
        ghost var rest := waiting[i..];
        Wakes(order, info, next, fds, rest, clients);
        assert rest[0] == waiting[i] && rest[1..] == waiting[i + 1..];
        var fd := waiting[i];
        FrontIsKnown(order, info, next, fds, rest, clients);
        WakeStep(a, i, fds, info, clients);
        fds := [fd] + fds;
        ghost var b := info[order[0]];
        ghost var more := if clients[fd].at == Unattached then 1 else 0;
        ghost var counted := info[order[0] := b.(refcount := b.refcount + more)];
        if clients[fd].at == Unattached {
          info := info[order[0] := info[order[0]].(refcount := info[order[0]].refcount + 1)];
        }
        assert info == counted;
        Relabel(clients, sent, clean, fd, Client(To(order[0]), clients[fd].ptr, false));
        clients := clients[fd := Client(To(order[0]), clients[fd].ptr, false)];
        i := i + 1;
      }
      assert waiting[i..] == [];
      waiting := [];
      AllAwake(order, info, next, fds, clients);
      FlushResult(a, info, fds, clients);
    }

    /** writeBufEscapeJson. */
    method WriteBufEscapeJson(data: string)
      requires order != [] && order[0] in info
      modifies this`info
      ensures info == Grown(order, old(info), EscapeJson(data))
    {
      assert info[order[0]].buf + "" == info[order[0]].buf && info == Grown(order, info, "");
      for i := 0 to |data|
        invariant order != [] && order[0] in info && info == Grown(order, old(info), EscapeJson(data[..i]))
      {
        assert data[..i + 1][..i] == data[..i];
        var c := data[i];
        GrowsTwice(order, old(info), EscapeJson(data[..i]),
                   if c == '"' || c == '\\' then ['\\', c] else if c == '\n' then ['\\', 'n'] else [c]);
        if c == '"' || c == '\\' {
          WriteBuf(['\\', c]);
        } else if c == '\n' {
          WriteBuf(['\\', 'n']);
        } else {
          WriteBuf([c]);
        }
      }
      assert data[..|data|] == data;
    }

    /** newBuild. */
    method NewBuild(id: string)
      requires Valid() && !IsBuilding(View())
      modifies this
      ensures Valid() && View() == Begun(old(View()), id)
    {
      hide Consistent, Delivered, NoDuplicates, ReceivedAll, Appended, BUILD, CMDS, RESULT, END, Flushed, Remaining;
      NotEmpty();
      var text := BUILD + id + CMDS;
      FrontOfConsistent(order, info, next, fds, waiting, clients);
      BuildStarts(order, info, next, fds, waiting, clients, text);
      PushBuild();
      ghost var left := info;
      WriteBuf(BUILD);
      WriteBuf(id);
      WriteBuf(CMDS);
      assert info[order[0]] == Build(text, 0, false, true);
      assert info == left[order[0] := Build(text, 0, false, true)];
      assert info == Remaining(old(order), old(info)).1[order[0] := Build(text, 0, false, true)];
      FlushKeeps(Unflushed(old(View()), id));
      FlushWaiting();
    }

    /** The newest build goes away if nobody reads it, and an empty one takes its place. */
    method PushBuild()
      requires order != [] ==> order[0] in info
      modifies this`order, this`info, this`next
      ensures order == [old(next)] + Remaining(old(order), old(info)).0 && next == old(next) + 1
      ensures info == Remaining(old(order), old(info)).1[old(next) := Build("", 0, false, true)]
    {
      if order != [] && info[order[0]].refcount == 0 {
        order, info := order[1..], info - {order[0]};
      }
      order, info, next := [next] + order, info[next := Build("", 0, false, true)], next + 1;
    }

    /** endBuild. */
    method EndBuild(result: string)
      requires Valid() && IsBuilding(View())
      modifies this
      ensures Valid() && View() == Ended(old(View()), result)
    {
      hide Consistent, Delivered, NoDuplicates, ReceivedAll, Appended, BUILD, CMDS, RESULT, END, Flushed;
      NotEmpty();
      var text := RESULT + result + END;
      FrontOfConsistent(order, info, next, fds, waiting, clients);
      ExtendsAppended(order, info, next, fds, waiting, clients, text, info[order[0]].firstChunk);
      WriteBuf(RESULT);
      WriteBuf(result);
      WriteBuf(END);
      assert info[order[0]].buf == old(info[order[0]].buf) + text;
      assert info == Extended(order, old(info), text, old(info[order[0]].firstChunk));
      FlushKeeps(View());
      FlushWaiting();
      BuildEnds(order, info, next, fds, clients);
      info := info[order[0] := info[order[0]].(completed := true)];
    }

    /** The beginning of a record about a command. */
    method OpenRecord(id: string, field: string)
      requires order != [] && order[0] in info
      modifies this`info
      ensures info == Grown(order, old(info), RECORD + id + field)
    {
      hide RECORD;
      WriteBuf(RECORD);
      WriteBuf(id);
      WriteBuf(field);
      assert info[order[0]].buf == old(info[order[0]].buf) + (RECORD + id + field);
    }

    /** What newCommand and cacheRetrieveAction write before a record. */
    method Separate()
      requires order != [] && order[0] in info
      modifies this`info
      ensures info == Grown(order, old(info)[order[0] := old(info[order[0]]).(firstChunk := false)],
                            if old(info[order[0]].firstChunk) then "" else COMMA)
    {
      var b := info[order[0]];
      if b.firstChunk {
        info := info[order[0] := b.(firstChunk := false)];
        assert info[order[0]].buf + "" == info[order[0]].buf;
      } else {
        assert b.(firstChunk := false) == b;
        WriteBuf(COMMA);
      }
    }

    /** newCommand. */
    method NewCommand(id: string, cmd: string)
      requires Valid() && IsBuilding(View())
      modifies this
      ensures Valid() && View() == Written(old(View()), Lead(old(View())) + CommandText(id, cmd), false)
    {
      hide Consistent, Delivered, NoDuplicates, ReceivedAll, Appended, EscapeJson, RECORD, CMD, CACHE, STDOUT,
           STDERR, STATUS, CLOSE, COMMA, Flushed;
      NotEmpty();
      FrontOfConsistent(order, info, next, fds, waiting, clients);
      ghost var text := Lead(old(View())) + CommandText(id, cmd);
      ExtendsAppended(order, info, next, fds, waiting, clients, text, false);
      Separate();
      OpenRecord(id, CMD);
      WriteBufEscapeJson(cmd);
      WriteBuf(CLOSE);
      assert info[order[0]].buf == old(info[order[0]].buf) + text;
      assert info == Extended(order, old(info), text, false);
      FlushKeeps(View());
      FlushWaiting();
    }

    /** cacheRetrieveAction: the path is not escaped. */
    method CacheRetrieved(path: string)
      requires Valid() && IsBuilding(View())
      modifies this
      ensures Valid() && View() == Written(old(View()), Lead(old(View())) + CacheText(path), false)
    {
      hide Consistent, Delivered, NoDuplicates, ReceivedAll, Appended, EscapeJson, RECORD, CMD, CACHE, STDOUT,
           STDERR, STATUS, CLOSE, COMMA, Flushed;
      NotEmpty();
      FrontOfConsistent(order, info, next, fds, waiting, clients);
      ghost var text := Lead(old(View())) + CacheText(path);
      ExtendsAppended(order, info, next, fds, waiting, clients, text, false);
      Separate();
      WriteBuf(CACHE);
      WriteBuf(path);
      WriteBuf(CLOSE);
      assert info[order[0]].buf == old(info[order[0]].buf) + text;
      assert info == Extended(order, old(info), text, false);
      FlushKeeps(View());
      FlushWaiting();
    }

    /** writeStdout and writeStderr: a command has been announced before. */
    method WriteCmdOutput(id: string, data: string, isStdout: bool)
      requires Valid() && IsBuilding(View()) && !info[order[0]].firstChunk
      modifies this
      ensures Valid() && View() == Written(old(View()), OutputText(id, data, isStdout), false)
    {
      hide Consistent, Delivered, NoDuplicates, ReceivedAll, Appended, EscapeJson, RECORD, CMD, CACHE, STDOUT,
           STDERR, STATUS, CLOSE, COMMA, Flushed;
      NotEmpty();
      FrontOfConsistent(order, info, next, fds, waiting, clients);
      ghost var text := OutputText(id, data, isStdout);
      ExtendsAppended(order, info, next, fds, waiting, clients, text, false);
      WriteBuf(COMMA);
      OpenRecord(id, if isStdout then STDOUT else STDERR);
      WriteBufEscapeJson(data);
      WriteBuf(CLOSE);
      assert info[order[0]].buf == old(info[order[0]].buf) + text;
      assert info == Extended(order, old(info), text, false);
      FlushKeeps(View());
      FlushWaiting();
    }

    /** endCommand. */
    method EndCommand(id: string, status: string)
      requires Valid() && IsBuilding(View())
      modifies this
      ensures Valid() && View() == Written(old(View()), StatusText(id, status), old(info[order[0]].firstChunk))
    {
      hide Consistent, Delivered, NoDuplicates, ReceivedAll, Appended, EscapeJson, RECORD, CMD, CACHE, STDOUT,
           STDERR, STATUS, CLOSE, COMMA, Flushed;
      NotEmpty();
      FrontOfConsistent(order, info, next, fds, waiting, clients);
      ghost var text := StatusText(id, status);
      ExtendsAppended(order, info, next, fds, waiting, clients, text, old(info[order[0]].firstChunk));
      WriteBuf(COMMA);
      OpenRecord(id, STATUS);
      WriteBuf(status);
      WriteBuf(CLOSE);
      assert info[order[0]].buf == old(info[order[0]].buf) + text;
      assert info == Extended(order, old(info), text, old(info[order[0]].firstChunk));
      FlushKeeps(View());
      FlushWaiting();
    }
  }

  lemma DeliverNothing(clients: map<int, Client>, sent: map<int, seq<nat>>, clean: map<int, bool>, fd: int, c: Client)
    requires Delivered(clients, sent, clean) && c.ptr == 0
    ensures Delivered(clients[fd := c], sent[fd := []], clean[fd := true])
  {
  }

  /** One round of the sending loop, after `done` has been sent. */
  lemma NextSend(start: nat, ptr: nat, size: nat, net: seq<SendResult>, i: nat, done: seq<nat>)
    requires start <= ptr < size && i <= |net|
    ensures var t := Transmit(start, ptr, size, net[i..]);
            if i == |net| || net[i].WouldBlock? then t == Transmission(ptr, [], Blocked) && done + [] == done
            else if net[i].Failed? then t == Transmission(ptr, [], Broken) && done + [] == done
            else
              var n := Taken(net[i], size - ptr);
              if ptr + n < size then
                var u := Transmit(start, ptr + n, size, net[i + 1..]);
                t == u.(offsets := Offsets(start, n) + u.offsets)
                    && done + t.offsets == done + Offsets(start, n) + u.offsets
              else t == Transmission(ptr + n, Offsets(start, n), Drained)
  {
    hide Offsets;
    if i < |net| {
      assert net[i..][1..] == net[i + 1..] && net[i..][0] == net[i];
    }
  }

  lemma FlushKeeps(a: Snapshot)
    requires HasFront(a)
    ensures Flushed(a) == a.(info := Flushed(a).info, fds := Flushed(a).fds, waiting := [],
            clients := Flushed(a).clients)
    ensures HasFront(Flushed(a))
    ensures Flushed(a).info[a.order[0]] == a.info[a.order[0]].(refcount := Flushed(a).info[a.order[0]].refcount)
  {
  }

  /** The first `i` waiting clients have been woken. */
  ghost predicate WokeTo(a: Snapshot, i: nat, fds: seq<int>, info: map<nat, Build>, clients: map<int, Client>)
    requires HasFront(a) && i <= |a.waiting|
  {
    && clients.Keys == a.clients.Keys && info.Keys == a.info.Keys && fds == Reversed(a.waiting[..i]) + a.fds
    && (forall fd :: fd in clients ==>
          clients[fd] == if fd in a.waiting[..i] then Client(To(a.order[0]), a.clients[fd].ptr, false)
              else a.clients[fd])
    && (forall h :: h in info ==>
          info[h] == a.info[h].(refcount := if h == a.order[0] then info[h].refcount else a.info[h].refcount))
  }

  lemma NobodyWoke(a: Snapshot)
    requires HasFront(a)
    ensures WokeTo(a, 0, a.fds, a.info, a.clients)
  {
    assert Reversed(a.waiting[..0]) + a.fds == a.fds;
  }

  lemma WakeStep(a: Snapshot, i: nat, fds: seq<int>, info: map<nat, Build>, clients: map<int, Client>)
    requires HasFront(a) && i < |a.waiting| && WokeTo(a, i, fds, info, clients) && a.waiting[i] in clients
             && a.order[0] in info
    ensures forall n: nat ::
              WokeTo(a, i + 1, [a.waiting[i]] + fds, info[a.order[0] := info[a.order[0]].(refcount := n)],
                     clients[a.waiting[i] := Client(To(a.order[0]), clients[a.waiting[i]].ptr, false)])
  {
    assert a.waiting[..i + 1] == a.waiting[..i] + [a.waiting[i]];
  }

  /** What the loop of flushWaiting has done when it ends. */
  lemma FlushResult(a: Snapshot, info: map<nat, Build>, fds: seq<int>, clients: map<int, Client>)
    requires Appended(a.order, a.info, a.next, a.fds, a.waiting, a.clients) && HasFront(a)
    requires WokeTo(a, |a.waiting|, fds, info, clients) && Consistent(a.order, info, a.next, fds, [], clients)
    ensures Flushed(a) == a.(clients := clients, fds := fds, waiting := [], info := info)
  {
    hide NoDuplicates, Attached, Positioned, Pending, Ordered, OlderInUse;
    assert a.waiting[..|a.waiting|] == a.waiting;
    forall fd | fd in a.clients ensures Woken(a.clients, a.order[0])[fd] == clients[fd] {
      assert a.clients[fd].isWaiting == (fd in a.waiting);
    }
    assert clients == Woken(a.clients, a.order[0]);
    assert info == Flushed(a).info;
  }

  lemma RecordIsFair(clients: map<int, Client>, sent: map<int, seq<nat>>, clean: map<int, bool>, fd: int, c: Closed)
    requires Delivered(clients, sent, clean) && fd in clients
    requires c.offsets == sent[fd] && c.clean == clean[fd] && (c.finished ==> clients[fd].ptr == c.size)
    ensures ReceivedAll(c)
  {
  }

  lemma Forget(clients: map<int, Client>, sent: map<int, seq<nat>>, clean: map<int, bool>, fd: int)
    requires Delivered(clients, sent, clean)
    ensures Delivered(clients - {fd}, sent - {fd}, clean - {fd})
  {
  }

  lemma Keys(clients: map<int, Client>, sent: map<int, seq<nat>>, clean: map<int, bool>)
    requires Delivered(clients, sent, clean)
    ensures sent.Keys == clients.Keys == clean.Keys
  {
  }

  /** The two ways in which processClient can end. */
  lemma ProcessedIs(a: Snapshot, fd: int, net: seq<SendResult>)
    requires CanRead(a, fd)
    ensures var (c, h) := (a.clients[fd], a.clients[fd].at.build);
            var b := a.info[h];
            var t := Transmit(c.ptr, c.ptr, |b.buf|, net);
            var sent, clean := a.sent[fd] + t.offsets, a.clean[fd] && Pieces(c.ptr, |b.buf|, net) <= 1;
            if t.ending.Broken? || (t.ending.Drained? && b.completed) then
              Processed(a, fd, net)
              == Snapshot(AfterClose(a.order, a.info, h).0, AfterClose(a.order, a.info, h).1, a.next, Erase(a.fds, fd),
                  a.waiting,
                          a.clients - {fd}, a.sent - {fd}, a.clean - {fd},
                          a.closed + [Closed(fd, h, |b.buf|, sent, clean, t.ending.Drained?)])
            else
              Processed(a, fd, net)
              == Snapshot(a.order, a.info, a.next, if t.ending.Drained? then Erase(a.fds, fd) else a.fds,
                          if t.ending.Drained? then [fd] + a.waiting else a.waiting,
                          a.clients[fd := Client(c.at, t.ptr, t.ending.Drained?)], a.sent[fd := sent],
                              a.clean[fd := clean], a.closed)
  {
    hide Transmit, Pieces, AfterClose, Erase;
  }

  lemma Relabel(clients: map<int, Client>, sent: map<int, seq<nat>>, clean: map<int, bool>, fd: int, c: Client)
    requires Delivered(clients, sent, clean) && fd in clients && clients[fd].ptr == c.ptr
    ensures Delivered(clients[fd := c], sent, clean)
  {
  }

  lemma Polled(order: seq<nat>, info: map<nat, Build>, next: nat, fds: seq<int>, waiting: seq<int>,
               clients: map<int, Client>, fd: int)
    requires Consistent(order, info, next, fds, waiting, clients) && fd in fds
    ensures fd in clients && clients[fd].at.To? && clients[fd].at.build in info && !clients[fd].isWaiting
    ensures clients[fd].ptr < |info[clients[fd].at.build].buf|
    ensures order != [] && order[0] in info
  {
    hide NoDuplicates, Attached;
    assert Positioned(clients[fd], order, info);
  }

  lemma FrontKept(order: seq<nat>, info: map<nat, Build>, h: nat)
    requires h in info && order != [] && order[0] in info
    ensures var (o, i) := AfterClose(order, info, h);
            o != [] && o[0] == order[0] && order[0] in i
                && i[order[0]] == info[order[0]].(refcount := i[order[0]].refcount)
  {
  }

  lemma FrontIsKnown(order: seq<nat>, info: map<nat, Build>, next: nat, fds: seq<int>, waiting: seq<int>,
                     clients: map<int, Client>)
    requires Appended(order, info, next, fds, waiting, clients)
    ensures order != [] && order[0] in info
  {
  }

  lemma FrontOfConsistent(order: seq<nat>, info: map<nat, Build>, next: nat, fds: seq<int>, waiting: seq<int>,
                          clients: map<int, Client>)
    requires Consistent(order, info, next, fds, waiting, clients)
    ensures order != [] ==> order[0] in info
    ensures next !in info
  {
  }

  // ----- Whole runs -----

  /** What the builder does, and what the network does: a connection on a descriptor, or a
      descriptor that can be written to and the results of the sends that follow. */
  datatype Step =
    | BuildBegins(id: string) | BuildFinishes(result: string)
    | CommandBegins(id: string, cmd: string) | CommandFinishes(id: string, status: string)
    | CommandWrites(id: string, data: string, isStdout: bool) | CacheHit(path: string)
    | Connection(fd: int) | Writable(fd: int, net: seq<SendResult>)

  /** The builder keeps to its protocol: builds begin and finish in turn, output belongs to a
      running build, and a command is announced before its output. */
  predicate Protocol(steps: seq<Step>, building: bool, announced: bool)
    decreases |steps|
  {
    steps == [] ||
    match steps[0]
    case BuildBegins(_) => !building && Protocol(steps[1..], true, false)
    case BuildFinishes(_) => building && Protocol(steps[1..], false, false)
    case CommandBegins(_, _) => building && Protocol(steps[1..], true, true)
    case CacheHit(_) => building && Protocol(steps[1..], true, true)
    case CommandWrites(_, _, _) => building && announced && Protocol(steps[1..], true, true)
    case CommandFinishes(_, _) => building && Protocol(steps[1..], true, announced)
    case Connection(_) => Protocol(steps[1..], building, announced)
    case Writable(_, _) => Protocol(steps[1..], building, announced)
  }

  /** What a step does.  A descriptor in use is not handed out again, and only polled descriptors are
      reported writable. */
  ghost function Apply(a: Snapshot, step: Step): Snapshot {
    match step
    case BuildBegins(id) => Begun(a, id)
    case Connection(fd) => if fd in a.clients then a else Connected(a, fd)
    case Writable(fd, net) => if fd in a.fds && CanRead(a, fd) then Processed(a, fd, net) else a
    case _ => if !HasFront(a) then a else WriteStep(a, step)
  }

  /** What the builder's steps write into the front build. */
  ghost function WriteStep(a: Snapshot, step: Step): Snapshot
    requires HasFront(a)
  {
    match step
    case BuildFinishes(result) => Ended(a, result)
    case CommandBegins(id, cmd) => Written(a, Lead(a) + CommandText(id, cmd), false)
    case CommandFinishes(id, status) => Written(a, StatusText(id, status), a.info[a.order[0]].firstChunk)
    case CommandWrites(id, data, isStdout) => Written(a, OutputText(id, data, isStdout), false)
    case CacheHit(path) => Written(a, Lead(a) + CacheText(path), false)
    case _ => a
  }

  /** The states that the server goes through: each is good and is what the step makes of the one before. */
  ghost predicate IsRun(steps: seq<Step>, trace: seq<Snapshot>) {
    && |trace| == |steps| + 1 && trace[0] == NEW
    && (forall k :: 0 <= k < |trace| ==> Good(trace[k]))
    && (forall k :: 0 <= k < |steps| ==> trace[k + 1] == Apply(trace[k], steps[k]))
  }

  lemma RunGrows(steps: seq<Step>, trace: seq<Snapshot>, k: nat, b: Snapshot)
    requires k < |steps| && IsRun(steps[..k], trace) && Good(b) && b == Apply(trace[k], steps[k])
    ensures IsRun(steps[..k + 1], trace + [b])
  {
    hide Good, Apply, NEW;
    assert steps[..k + 1] == steps[..k] + [steps[k]];
  }

  lemma RunBegins(steps: seq<Step>)
    ensures Good(NEW) && IsRun(steps[..0], [NEW]) && !IsBuilding(NEW)
  {
  }

  /** Every run of the server, with any network: each step is performed, and in every state the lists
      partition the clients, the reference counts are right, everyone is where they should be in the
      output, and every client closed for completion was sent as many bytes as one whole build has,
      exactly those bytes in order if and only if no call sent twice. */
  method Run(steps: seq<Step>) returns (server: StreamServer, ghost trace: seq<Snapshot>)
    requires Protocol(steps, false, false)
    ensures fresh(server) && server.Valid() && IsRun(steps, trace) && trace[|steps|] == server.View()
  {
    hide Good, Apply, NEW, IsRun, IsBuilding, Announced;
    server := new StreamServer();
    RunBegins(steps);
    trace := [server.View()];
    ghost var announced := false;
    for i := 0 to |steps|
      invariant fresh(server) && server.Valid() && IsRun(steps[..i], trace) && |trace| == i + 1
                && trace[i] == server.View()
      invariant Protocol(steps[i..], IsBuilding(server.View()), announced) && Introduced(server.View(), announced)
    {
      assert steps[i..][0] == steps[i] && steps[i..][1..] == steps[i + 1..];
      ProtocolStep(steps[i..], IsBuilding(server.View()), announced);
      Perform(server, steps[i], announced);
      RunGrows(steps, trace, i, server.View());
      announced, trace := Announced(steps[i], announced), trace + [server.View()];
    }
    assert steps[..|steps|] == steps;
  }

  /** Whether a command of the running build has been announced after a step. */
  function Announced(step: Step, announced: bool): bool {
    match step
    case BuildBegins(_) => false
    case BuildFinishes(_) => false
    case CommandBegins(_, _) => true
    case CacheHit(_) => true
    case _ => announced
  }

  /** Whether a build is running after a step. */
  function Running(step: Step, building: bool): bool {
    if step.BuildBegins? then true else if step.BuildFinishes? then false else building
  }

  /** The protocol allows this step. */
  predicate Fits(step: Step, building: bool, announced: bool) {
    match step
    case BuildBegins(_) => !building
    case Connection(_) => true
    case Writable(_, _) => true
    case CommandWrites(_, _, _) => building && announced
    case _ => building
  }

  lemma ProtocolStep(steps: seq<Step>, building: bool, announced: bool)
    requires steps != [] && Protocol(steps, building, announced)
    ensures Fits(steps[0], building, announced)
    ensures Protocol(steps[1..], Running(steps[0], building), Announced(steps[0], announced))
  {
  }

  /** The first record of the running build has been written if a command has been announced. */
  predicate Introduced(a: Snapshot, announced: bool) {
    IsBuilding(a) && announced ==> !a.info[a.order[0]].firstChunk
  }

  method Perform(server: StreamServer, step: Step, ghost announced: bool)
    requires server.Valid() && Fits(step, IsBuilding(server.View()), announced) && Introduced(server.View(), announced)
    modifies server
    ensures server.Valid() && server.View() == Apply(old(server.View()), step)
    ensures IsBuilding(server.View()) == Running(step, old(IsBuilding(server.View())))
    ensures Introduced(server.View(), Announced(step, announced))
  {
    hide Good, Begun, Connected, Processed, Ended, Written, OutputText, CommandText, CacheText, StatusText,
         CanRead, COMMA, HasFront, IsBuilding;
    AfterStep(server.View(), step, announced);
    match step
    case BuildBegins(id) => server.NewBuild(id);
    case BuildFinishes(result) => server.EndBuild(result);
    case CommandBegins(id, cmd) => server.NewCommand(id, cmd);
    case CommandFinishes(id, status) => server.EndCommand(id, status);
    case CommandWrites(id, data, isStdout) => server.WriteCmdOutput(id, data, isStdout);
    case CacheHit(path) => server.CacheRetrieved(path);
    case Connection(fd) =>
      if fd !in server.clients {
        server.CreateClient(fd);
      }
    case Writable(fd, net) =>
      if fd in server.fds {
        server.ProcessClient(fd, net);
      }
  }

  /** Whether a build runs, and whether it has records, after a step that the protocol allows. */
  lemma AfterStep(a: Snapshot, step: Step, announced: bool)
    requires Good(a) && Fits(step, IsBuilding(a), announced) && Introduced(a, announced)
    ensures IsBuilding(a) ==> HasFront(a) && (step.CommandWrites? ==> !a.info[a.order[0]].firstChunk)
    ensures IsBuilding(Apply(a, step)) == Running(step, IsBuilding(a))
    ensures Introduced(Apply(a, step), Announced(step, announced))
  {
    hide Consistent, Delivered, ReceivedAll, Transmit, Pieces, EscapeJson, Flushed, AfterClose, Erase;
    FrontOfConsistent(a.order, a.info, a.next, a.fds, a.waiting, a.clients);
    match step
    case BuildBegins(id) => FlushKeeps(Unflushed(a, id));
    case Writable(fd, net) =>
      if fd in a.fds && CanRead(a, fd) {
        SomeFront(a.order, a.info, a.next, a.fds, a.waiting, a.clients, a.clients[fd].at.build);
        FrontKept(a.order, a.info, a.clients[fd].at.build);
      }
    case Connection(_) =>
    case _ => WriteKeeps(a, step);
  }

  lemma SomeFront(order: seq<nat>, info: map<nat, Build>, next: nat, fds: seq<int>, waiting: seq<int>,
                  clients: map<int, Client>, h: nat)
    requires Consistent(order, info, next, fds, waiting, clients) && h in info
    ensures order != [] && order[0] in info
  {
    hide Attached, NoDuplicates, Positioned;
  }

  /** Writing keeps the build at the front. */
  lemma WriteKeeps(a: Snapshot, step: Step)
    requires HasFront(a) && !step.BuildBegins? && !step.Connection? && !step.Writable?
    ensures var (b, front) := (WriteStep(a, step), a.order[0]);
            && b.order == a.order && front in b.info
            && b.info[front].completed == (a.info[front].completed || step.BuildFinishes?)
            && b.info[front].firstChunk == if step.BuildFinishes?
                || step.CommandFinishes? then a.info[front].firstChunk else false
  {
    hide EscapeJson, Flushed, RESULT, END, OutputText, CommandText, CacheText, StatusText, COMMA;
    var (text, first) :=
      match step
      case BuildFinishes(result) => (RESULT + result + END, a.info[a.order[0]].firstChunk)
      case CommandBegins(id, cmd) => (Lead(a) + CommandText(id, cmd), false)
      case CommandFinishes(id, status) => (StatusText(id, status), a.info[a.order[0]].firstChunk)
      case CommandWrites(id, data, isStdout) => (OutputText(id, data, isStdout), false)
      case CacheHit(path) => (Lead(a) + CacheText(path), false);
    FlushKeeps(a.(info := Extended(a.order, a.info, text, first)));
  }
}
