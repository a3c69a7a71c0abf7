/** The dispatch loop of the epoll server, over every schedule of kernel, network and clients. */
module EpollServer {
  import opened Streams
  import opened EpollKernel

  /** What the proofs remember about the past; the program has none of it. */
  datatype History = History(
    gathered: map<int, nat>,  // open descriptors when the current batch was gathered
    burst: nat,               // connections since the listener was last reported
    edges: seq<nat>,          // how many connections each report of the listener stood for
    refused: nat)             // accept calls that failed

  datatype Sys = Sys(k: Kernel, m: map<int, seq<Byte>>, batch: seq<Event>, h: History)

  datatype Action = World(env: Env) | Wait(events: seq<Event>) | Dispatch(newFd: int, n: nat)

  function Init(listener: int, limit: nat): Sys {
    Sys(CtlAdd(Kernel(listener, limit, [], [], map[], map[]), listener), map[], [], History(map[], 0, [], 0))
  }

  const MAX_EVENTS := 1000

  predicate Distinct(events: seq<Event>) {
    forall i, j :: 0 <= i < j < |events| ==> events[i].fd != events[j].fd
  }

  predicate Enabled(s: Sys, a: Action) {
    match a
    case World(e) => EnvEnabled(s.k, e)
    case Wait(events) =>
      && s.batch == [] && |events| <= MAX_EVENTS && Distinct(events)
      && (forall i :: 0 <= i < |events| ==> Reportable(s.k, events[i]))
    case Dispatch(newFd, n) =>
      && s.batch != []
      && var e := s.batch[0];
      && (e.fd == s.k.listener ==> newFd == -1 || Free(s.k, newFd))
      // recv hands over some of what is there, and nothing only when nothing is there
      && (e.fd != s.k.listener && e.inb && Owns(s.k, e.fd) && s.k.conns[s.k.files[e.fd]].inbox != [] ==>
            1 <= n <= BUFFER && n <= |s.k.conns[s.k.files[e.fd]].inbox|)
  }

  /** operator[] of the map: a missing entry reads as the empty string. */
  function At(m: map<int, seq<Byte>>, fd: int): seq<Byte> {
    if fd in m then m[fd] else []
  }

  /** One iteration of the for loop over the reported events. */
  function DispatchStep(s: Sys, newFd: int, n: nat): Sys
    requires s.batch != []
  {
    var e := s.batch[0];
    var rest := s.batch[1..];
    if e.fd == s.k.listener then
      var (k, fd) := Accept(s.k, newFd);
      Sys(CtlAdd(k, fd), s.m, rest, if fd == -1 then s.h.(refused := s.h.refused + 1) else s.h)
    else if e.inb then
      var (k, chunk) := Recv(s.k, e.fd, n);
      if chunk != [] then Sys(CtlMod(k, e.fd, Out), s.m[e.fd := CStr(chunk)], rest, s.h)
      else Sys(CloseFd(CtlDel(k, e.fd), e.fd), s.m[e.fd := At(s.m, e.fd)], rest, s.h)
    else if e.outb then
      var text := At(s.m, e.fd);
      Sys(CtlMod(SendTo(s.k, e.fd, CStr(text)), e.fd, In), s.m[e.fd := text], rest, s.h)
    else s.(batch := rest)
  }

  function Next(s: Sys, a: Action): Sys
    requires Enabled(s, a)
  {
    match a
    case World(e) => Sys(EnvStep(s.k, e), s.m, s.batch, if e.Connect? then s.h.(burst := s.h.burst + 1) else s.h)
    case Wait(events) =>
      var h := s.h.(gathered := s.k.files);
      Sys(Disarm(s.k, events), s.m, events,
          if Reports(events, s.k.listener) then h.(burst := 0, edges := h.edges + [h.burst]) else h)
    case Dispatch(newFd, n) => DispatchStep(s, newFd, n)
  }

  /** A schedule the system can follow from s, and where it leads. */
  ghost predicate Runs(s: Sys, acts: seq<Action>)
    decreases |acts|
  {
    acts == [] || (Enabled(s, acts[0]) && Runs(Next(s, acts[0]), acts[1..]))
  }

  ghost function Exec(s: Sys, acts: seq<Action>): Sys
    requires Runs(s, acts)
    decreases |acts|
  {
    if acts == [] then s else Exec(Next(s, acts[0]), acts[1..])
  }

  // ---- the inductive invariant ----

  ghost predicate FilesInv(k: Kernel) {
    && 0 <= k.listener && k.listener !in k.files
    && (forall fd :: fd in k.files ==> 0 <= fd && Owns(k, fd) && k.conns[k.files[fd]].phase == Open(fd))
    && (forall c :: 0 <= c < |k.conns| && k.conns[c].phase.Open? ==>
          k.conns[c].phase.fd in k.files && k.files[k.conns[c].phase.fd] == c)
  }

  ghost predicate QueueInv(k: Kernel) {
    && (forall i :: 0 <= i < |k.queue| ==> k.queue[i] < |k.conns| && k.conns[k.queue[i]].phase == Queued)
    && (forall i, j :: 0 <= i < j < |k.queue| ==> k.queue[i] < k.queue[j])
    && (forall c :: 0 <= c < |k.conns| && k.conns[c].phase == Queued ==> c in k.queue)
  }

  predicate Pending(s: Sys, fd: int) {
    exists i :: 0 <= i < |s.batch| && s.batch[i].fd == fd && s.batch[i].inb
  }

  /** One accepted descriptor: what its registration says about its connection. */
  ghost predicate RegOk(s: Sys, fd: int)
    requires fd in s.k.regs && Owns(s.k, fd)
  {
    var r := s.k.regs[fd];
    var x := s.k.conns[s.k.files[fd]];
    && (r.edge ==> r.interest == In && x.chunks == [] && (r.armed || Pending(s, fd)))
    && (r.interest == Out ==> fd in s.m && x.chunks != [] && s.m[fd] == CStr(x.chunks[|x.chunks| - 1]))
  }

  ghost predicate RegsInv(s: Sys) {
    && s.k.regs.Keys == s.k.files.Keys + {s.k.listener}
    && s.k.regs[s.k.listener].interest == In && s.k.regs[s.k.listener].edge
    && (forall fd :: fd in s.k.files ==> Owns(s.k, fd) && fd in s.k.regs && RegOk(s, fd))
  }

  /** The bytes waiting in the map for connection x: the entry counts only while EPOLLOUT is registered. */
  function Parked(s: Sys, x: Conn): seq<Byte> {
    if x.phase.Open? && x.phase.fd in s.k.regs && s.k.regs[x.phase.fd].interest == Out
    then At(s.m, x.phase.fd) else []
  }

  /** One connection; parked is what the server holds of it between its read and its write. */
  ghost predicate ConnOk(x: Conn, parked: seq<Byte>) {
    && x.sent == Flatten(x.chunks) + x.inbox + x.up
    && x.got + x.outbox + x.down + parked == Echo(x.chunks)
    && (x.eof ==> x.fin && x.up == [])
    && (forall i :: 0 <= i < |x.chunks| ==> 1 <= |x.chunks[i]| <= BUFFER)
    && (x.phase == Queued ==> x.chunks == [])
    && (x.phase == Closed ==> x.eof && x.inbox == [])
  }

  ghost predicate ConnsInv(s: Sys) {
    forall c :: 0 <= c < |s.k.conns| ==> ConnOk(s.k.conns[c], Parked(s, s.k.conns[c]))
  }

  ghost predicate EventOk(s: Sys, e: Event) {
    && (e.inb ==> e.fd in s.k.regs && s.k.regs[e.fd].interest == In && Readable(s.k, e.fd))
    && (e.outb ==> e.fd in s.k.regs && s.k.regs[e.fd].interest == Out)
    && (e.fd == s.k.listener ==> e.inb)
    && (e.fd != s.k.listener ==>
          e.fd in s.k.files && e.fd in s.h.gathered && s.h.gathered[e.fd] == s.k.files[e.fd])
  }

  ghost predicate BatchInv(s: Sys) {
    Distinct(s.batch) && forall i :: 0 <= i < |s.batch| ==> EventOk(s, s.batch[i])
  }

  /** How many connections the reports of the listener left behind, given one accept each. */
  function Excess(edges: seq<nat>): int {
    if edges == [] then 0 else Excess(edges[..|edges| - 1]) + edges[|edges| - 1] - 1
  }

  ghost predicate ListenInv(s: Sys) {
    && s.k.listener in s.k.regs
    && |s.k.queue| == Excess(s.h.edges) + s.h.burst + (if Pending(s, s.k.listener) then 1 else 0) + s.h.refused
    && (s.k.regs[s.k.listener].armed ==> s.h.burst > 0 || s.k.queue == [])
    && (!s.k.regs[s.k.listener].armed ==> s.h.burst == 0)
    && (forall i :: 0 <= i < |s.h.edges| ==> s.h.edges[i] > 0)
    && |s.k.queue| <= s.k.limit
    // a report that was served made room, unless accept failed
    && (!s.k.regs[s.k.listener].armed && !Pending(s, s.k.listener) && s.h.refused == 0 ==> |s.k.queue| < s.k.limit)
  }

  ghost predicate Inv(s: Sys) {
    FilesInv(s.k) && QueueInv(s.k) && RegsInv(s) && ConnsInv(s) && BatchInv(s) && ListenInv(s)
  }

  lemma InitInv(listener: int, limit: nat)
    requires 0 <= listener
    ensures Inv(Init(listener, limit))
  {
  }

  // ---- environment steps keep it ----

  /** Nothing the server owns moves except armed bits, which only go up. */
  ghost predicate SameServer(s: Sys, s': Sys) {
    && s'.m == s.m && s'.batch == s.batch && s'.h.gathered == s.h.gathered
    && s'.k.listener == s.k.listener && s'.k.files == s.k.files
    && |s.k.conns| <= |s'.k.conns|
    && s'.k.regs.Keys == s.k.regs.Keys
    && (forall fd :: fd in s.k.regs ==> s'.k.regs[fd].(armed := s.k.regs[fd].armed) == s.k.regs[fd])
    && (forall fd :: fd in s.k.regs && s.k.regs[fd].armed ==> s'.k.regs[fd].armed)
  }

  /** Connection x became x' and the server has not touched it. */
  ghost predicate Untouched(x: Conn, x': Conn) {
    && x'.phase == x.phase && x'.chunks == x.chunks
    && (x.inbox != [] ==> x'.inbox != []) && (x.eof ==> x'.eof)
  }

  ghost predicate ConnsUntouched(k: Kernel, k': Kernel)
    requires |k.conns| <= |k'.conns|
  {
    forall c :: 0 <= c < |k.conns| ==> Untouched(k.conns[c], k'.conns[c])
  }

  lemma MoveIsOutside(k: Kernel, e: Env)
    requires !e.Connect? && EnvEnabled(k, e)
    ensures var k' := EnvStep(k, e);
      && k'.listener == k.listener && k'.files == k.files && k'.queue == k.queue
      && k'.conns == k.conns[e.c := Moved(k.conns[e.c], e)] && Untouched(k.conns[e.c], k'.conns[e.c])
      && k'.regs.Keys == k.regs.Keys
      && forall fd :: fd in k.regs ==> k'.regs[fd] == k.regs[fd] || k'.regs[fd] == k.regs[fd].(armed := true)
  {
  }

  lemma ConnectIsOutside(k: Kernel)
    requires EnvEnabled(k, Connect)
    ensures var k' := EnvStep(k, Connect);
      && k'.listener == k.listener && k'.files == k.files && k'.queue == k.queue + [|k.conns|]
      && k'.conns == k.conns + [FRESH]
      && k'.regs.Keys == k.regs.Keys
      && forall fd :: fd in k.regs ==> k'.regs[fd] == k.regs[fd] || k'.regs[fd] == k.regs[fd].(armed := true)
  {
  }

  lemma EnvIsOutside(s: Sys, e: Env)
    requires Enabled(s, World(e))
    ensures var s' := Next(s, World(e)); SameServer(s, s') && ConnsUntouched(s.k, s'.k)
  {
    if e.Connect? { ConnectIsOutside(s.k); } else { MoveIsOutside(s.k, e); }
  }

  lemma OutsideKeepsRegs(s: Sys, s': Sys)
    requires FilesInv(s.k) && RegsInv(s) && SameServer(s, s') && ConnsUntouched(s.k, s'.k)
    ensures RegsInv(s')
  {
    forall fd | fd in s'.k.files ensures RegOk(s', fd) {
      assert RegOk(s, fd);
    }
  }

  lemma OutsideKeepsBatch(s: Sys, s': Sys)
    requires FilesInv(s.k) && BatchInv(s) && SameServer(s, s') && ConnsUntouched(s.k, s'.k)
    requires s.k.queue != [] ==> s'.k.queue != []
    ensures BatchInv(s')
  {
    forall i | 0 <= i < |s.batch| ensures EventOk(s', s'.batch[i]) {
      assert EventOk(s, s.batch[i]);
    }
  }

  lemma OutsideKeepsParked(s: Sys, s': Sys, x: Conn, x': Conn)
    requires SameServer(s, s') && Untouched(x, x')
    ensures Parked(s', x') == Parked(s, x)
  {
  }

  lemma MovedConnOk(x: Conn, parked: seq<Byte>, e: Env)
    requires ConnOk(x, parked) && !e.Connect?
    requires e.ClientSend? ==> !x.fin
    requires e.Arrive? ==> 1 <= e.n <= |x.up|
    requires e.ArriveEof? ==> x.fin && x.up == []
    requires e.Return? ==> e.n <= |x.down|
    requires e.ClientRecv? ==> e.n <= |x.outbox|
    ensures ConnOk(Moved(x, e), parked)
  {
    match e
    case ClientSend(_, t) =>
      assert Flatten(x.chunks) + x.inbox + (x.up + t) == (Flatten(x.chunks) + x.inbox + x.up) + t;
    case Arrive(_, n) =>
      assert x.up == x.up[..n] + x.up[n..];
      assert Flatten(x.chunks) + (x.inbox + x.up[..n]) + x.up[n..]
          == Flatten(x.chunks) + x.inbox + (x.up[..n] + x.up[n..]);
    case ArriveEof(_) =>
    case Return(_, n) =>
      assert x.down == x.down[..n] + x.down[n..];
      assert x.got + (x.outbox + x.down[..n]) + x.down[n..] == x.got + x.outbox + (x.down[..n] + x.down[n..]);
    case ClientRecv(_, n) =>
      assert x.outbox == x.outbox[..n] + x.outbox[n..];
      assert (x.got + x.outbox[..n]) + x.outbox[n..] == x.got + (x.outbox[..n] + x.outbox[n..]);
    case ClientClose(_) =>
  }

  lemma EnvKeepsConn(s: Sys, e: Env, c: nat)
    requires Enabled(s, World(e)) && c < |s.k.conns| && ConnOk(s.k.conns[c], Parked(s, s.k.conns[c]))
    ensures var s' := Next(s, World(e)); c < |s'.k.conns| && ConnOk(s'.k.conns[c], Parked(s', s'.k.conns[c]))
  {
    var s', x := Next(s, World(e)), s.k.conns[c];
    EnvIsOutside(s, e);
    OutsideKeepsParked(s, s', x, s'.k.conns[c]);
    if e.Connect? {
      ConnectIsOutside(s.k);
    } else {
      MoveIsOutside(s.k, e);
      if c == e.c { MovedConnOk(x, Parked(s, x), e); }
    }
  }

  lemma FreshConnOk(s: Sys)
    ensures ConnOk(FRESH, Parked(s, FRESH))
  {
  }

  lemma EnvKeepsConns(s: Sys, e: Env)
    requires ConnsInv(s) && Enabled(s, World(e))
    ensures ConnsInv(Next(s, World(e)))
  {
    var s' := Next(s, World(e));
    if e.Connect? { ConnectIsOutside(s.k); } else { MoveIsOutside(s.k, e); }
    forall c | 0 <= c < |s'.k.conns| ensures ConnOk(s'.k.conns[c], Parked(s', s'.k.conns[c])) {
      if c < |s.k.conns| { EnvKeepsConn(s, e, c); } else { FreshConnOk(s'); }
    }
  }

  lemma EnvKeepsFiles(s: Sys, e: Env)
    requires FilesInv(s.k) && Enabled(s, World(e))
    ensures FilesInv(Next(s, World(e)).k)
  {
    if e.Connect? { ConnectIsOutside(s.k); } else { MoveIsOutside(s.k, e); }
  }

  lemma ConnectKeepsQueue(k: Kernel)
    requires QueueInv(k) && EnvEnabled(k, Connect)
    ensures QueueInv(EnvStep(k, Connect))
  {
    var k' := EnvStep(k, Connect);
    ConnectIsOutside(k);
    forall c | 0 <= c < |k'.conns| && k'.conns[c].phase == Queued ensures c in k'.queue {
      if c < |k.conns| {
        assert c in k.queue;
      } else {
        assert k'.queue[|k.queue|] == c;
      }
    }
  }

  lemma MoveKeepsQueue(k: Kernel, e: Env)
    requires QueueInv(k) && !e.Connect? && EnvEnabled(k, e)
    ensures QueueInv(EnvStep(k, e))
  {
    var k' := EnvStep(k, e);
    MoveIsOutside(k, e);
    forall c | 0 <= c < |k'.conns| ensures k'.conns[c].phase == k.conns[c].phase {
    }
  }

  lemma EnvKeepsQueue(s: Sys, e: Env)
    requires FilesInv(s.k) && QueueInv(s.k) && Enabled(s, World(e))
    ensures FilesInv(Next(s, World(e)).k) && QueueInv(Next(s, World(e)).k)
  {
    EnvKeepsFiles(s, e);
    if e.Connect? { ConnectKeepsQueue(s.k); } else { MoveKeepsQueue(s.k, e); }
  }

  lemma EnvKeepsListen(s: Sys, e: Env)
    requires FilesInv(s.k) && RegsInv(s) && ListenInv(s) && Enabled(s, World(e))
    ensures ListenInv(Next(s, World(e)))
  {
    var s' := Next(s, World(e));
    assert Pending(s', s.k.listener) == Pending(s, s.k.listener);
  }

  lemma EnvInv(s: Sys, e: Env)
    requires Inv(s) && Enabled(s, World(e))
    ensures Inv(Next(s, World(e)))
  {
    EnvIsOutside(s, e);
    OutsideKeepsRegs(s, Next(s, World(e)));
    OutsideKeepsBatch(s, Next(s, World(e)));
    EnvKeepsConns(s, e);
    EnvKeepsQueue(s, e);
    EnvKeepsListen(s, e);
  }

  // ---- epoll_wait keeps it ----

  lemma WaitKeepsRegs(s: Sys, events: seq<Event>)
    requires FilesInv(s.k) && RegsInv(s) && Enabled(s, Wait(events))
    ensures RegsInv(Next(s, Wait(events)))
  {
    var s' := Next(s, Wait(events));
    forall fd | fd in s'.k.files ensures RegOk(s', fd) {
      assert RegOk(s, fd);
      if s.k.regs[fd].edge && Reports(events, fd) {
        var i :| 0 <= i < |events| && events[i].fd == fd && (events[i].inb || events[i].outb);
        assert Reportable(s.k, events[i]);
        assert s'.batch[i].inb;
      }
    }
  }

  lemma WaitKeepsConns(s: Sys, events: seq<Event>)
    requires ConnsInv(s) && Enabled(s, Wait(events))
    ensures ConnsInv(Next(s, Wait(events)))
  {
    var s' := Next(s, Wait(events));
    forall c | 0 <= c < |s.k.conns| ensures ConnOk(s'.k.conns[c], Parked(s', s'.k.conns[c])) {
      assert ConnOk(s.k.conns[c], Parked(s, s.k.conns[c]));
    }
  }

  lemma WaitKeepsBatch(s: Sys, events: seq<Event>)
    requires FilesInv(s.k) && RegsInv(s) && Enabled(s, Wait(events))
    ensures BatchInv(Next(s, Wait(events)))
  {
    forall i | 0 <= i < |events| ensures EventOk(Next(s, Wait(events)), events[i]) {
      assert Reportable(s.k, events[i]);
    }
  }

  lemma ReportMakesPending(s: Sys, events: seq<Event>)
    requires Enabled(s, Wait(events)) && Reports(events, s.k.listener)
    ensures Pending(Next(s, Wait(events)), s.k.listener)
    ensures s.k.listener in s.k.regs && s.k.queue != []
    ensures s.k.regs[s.k.listener].edge ==> s.k.regs[s.k.listener].armed
  {
    var i :| 0 <= i < |events| && events[i].fd == s.k.listener && (events[i].inb || events[i].outb);
    assert Reportable(s.k, events[i]);
    assert Next(s, Wait(events)).batch[i].inb;
  }

  lemma NoReportNotPending(s: Sys, events: seq<Event>)
    requires Enabled(s, Wait(events)) && !Reports(events, s.k.listener)
    ensures !Pending(Next(s, Wait(events)), s.k.listener)
  {
  }

  lemma DisarmedListener(k: Kernel, events: seq<Event>)
    requires k.listener in k.regs && k.regs[k.listener].edge
    ensures var r := Disarm(k, events).regs;
      k.listener in r && (r[k.listener].armed <==> k.regs[k.listener].armed && !Reports(events, k.listener))
  {
  }

  lemma ExcessSnoc(edges: seq<nat>, n: nat)
    ensures Excess(edges + [n]) == Excess(edges) + n - 1
  {
    var all := edges + [n];
    assert all[..|all| - 1] == edges;
  }

  lemma WaitKeepsListen(s: Sys, events: seq<Event>)
    requires FilesInv(s.k) && RegsInv(s) && ListenInv(s) && Enabled(s, Wait(events))
    ensures ListenInv(Next(s, Wait(events)))
  {
    assert !Pending(s, s.k.listener);
    DisarmedListener(s.k, events);
    if Reports(events, s.k.listener) {
      ReportMakesPending(s, events);
      ExcessSnoc(s.h.edges, s.h.burst);
    } else {
      NoReportNotPending(s, events);
    }
  }

  lemma WaitKeepsFiles(s: Sys, events: seq<Event>)
    requires FilesInv(s.k) && QueueInv(s.k) && Enabled(s, Wait(events))
    ensures FilesInv(Next(s, Wait(events)).k) && QueueInv(Next(s, Wait(events)).k)
  {
    assert Next(s, Wait(events)).k == s.k.(regs := Disarm(s.k, events).regs);
  }

  lemma WaitInv(s: Sys, events: seq<Event>)
    requires Inv(s) && Enabled(s, Wait(events))
    ensures Inv(Next(s, Wait(events)))
  {
    WaitKeepsFiles(s, events);
    WaitKeepsRegs(s, events);
    WaitKeepsConns(s, events);
    WaitKeepsBatch(s, events);
    WaitKeepsListen(s, events);
  }

  // ---- one dispatched event keeps it ----

  lemma PopPending(batch: seq<Event>, fd: int)
    requires batch != [] && Distinct(batch)
    ensures (exists i :: 0 <= i < |batch[1..]| && batch[1..][i].fd == fd && batch[1..][i].inb)
        <==> (fd != batch[0].fd && exists i :: 0 <= i < |batch| && batch[i].fd == fd && batch[i].inb)
  {
    forall i | 1 <= i < |batch| ensures batch[i].fd != batch[0].fd && batch[i] == batch[1..][i - 1] {
    }
  }

  /** The head event is gone, and the server worked on one open descriptor without closing it. */
  ghost predicate WorkedOn(s: Sys, s': Sys, fd: int) {
    && s.batch != [] && s.batch[0].fd == fd && s'.batch == s.batch[1..] && s'.h == s.h
    && Owns(s.k, fd) && fd in s.k.regs && fd in s'.k.regs
    && s'.k.listener == s.k.listener && s'.k.limit == s.k.limit
    && s'.k.files == s.k.files && s'.k.queue == s.k.queue
    && s'.k.regs == s.k.regs[fd := s'.k.regs[fd]]
    && |s'.k.conns| == |s.k.conns|
    && s'.k.conns == s.k.conns[s.k.files[fd] := s'.k.conns[s.k.files[fd]]]
    && s'.k.conns[s.k.files[fd]].phase == s.k.conns[s.k.files[fd]].phase
    && fd in s'.m && s'.m == s.m[fd := s'.m[fd]]
  }

  lemma WorkKeepsFiles(s: Sys, s': Sys, fd: int)
    requires FilesInv(s.k) && QueueInv(s.k) && WorkedOn(s, s', fd)
    ensures FilesInv(s'.k) && QueueInv(s'.k)
  {
  }

  lemma WorkKeepsRegs(s: Sys, s': Sys, fd: int)
    requires FilesInv(s.k) && RegsInv(s) && Distinct(s.batch) && WorkedOn(s, s', fd)
    requires RegOk(s', fd)
    ensures RegsInv(s')
  {
    forall g | g in s'.k.files ensures Owns(s'.k, g) && g in s'.k.regs && RegOk(s', g) {
      assert RegOk(s, g);
      PopPending(s.batch, g);
    }
  }

  lemma WorkKeepsConns(s: Sys, s': Sys, fd: int)
    requires FilesInv(s.k) && ConnsInv(s) && WorkedOn(s, s', fd)
    requires var x' := s'.k.conns[s.k.files[fd]]; ConnOk(x', Parked(s', x'))
    ensures ConnsInv(s')
  {
    forall c | 0 <= c < |s'.k.conns| ensures ConnOk(s'.k.conns[c], Parked(s', s'.k.conns[c])) {
      assert ConnOk(s.k.conns[c], Parked(s, s.k.conns[c]));
    }
  }

  lemma WorkKeepsBatch(s: Sys, s': Sys, fd: int)
    requires FilesInv(s.k) && BatchInv(s) && WorkedOn(s, s', fd)
    ensures BatchInv(s')
  {
    forall i | 0 <= i < |s'.batch| ensures EventOk(s', s'.batch[i]) {
      assert EventOk(s, s.batch[i + 1]);
      assert s.batch[i + 1].fd != fd;
    }
  }

  lemma WorkInv(s: Sys, s': Sys, fd: int)
    requires Inv(s) && WorkedOn(s, s', fd) && RegOk(s', fd)
    requires var x' := s'.k.conns[s.k.files[fd]]; ConnOk(x', Parked(s', x'))
    ensures Inv(s')
  {
    WorkKeepsFiles(s, s', fd);
    WorkKeepsRegs(s, s', fd);
    WorkKeepsConns(s, s', fd);
    WorkKeepsBatch(s, s', fd);
    PopPending(s.batch, s.k.listener);
  }

  /** What the invariant says of the event about to be dispatched, and of its connection. */
  lemma HeadFacts(s: Sys)
    requires Inv(s) && s.batch != []
    ensures EventOk(s, s.batch[0])
    ensures var fd := s.batch[0].fd; fd != s.k.listener ==>
      && fd in s.k.files && Owns(s.k, fd) && fd in s.k.regs && RegOk(s, fd)
      && var x := s.k.conns[s.k.files[fd]];
      && x.phase == Open(fd) && ConnOk(x, Parked(s, x))
  {
  }

  /** Bytes taken from the front of the inbox are the next ones read. */
  lemma TakenFrom(read: seq<Byte>, inbox: seq<Byte>, up: seq<Byte>, n: nat)
    requires n <= |inbox|
    ensures read + inbox + up == (read + inbox[..n]) + inbox[n..] + up
  {
    assert inbox == inbox[..n] + inbox[n..];
  }

  /** The chunk moves from the inbox to the history. */
  lemma ChunkConnOk(x: Conn, n: nat)
    requires ConnOk(x, []) && 1 <= n <= |x.inbox| && n <= BUFFER && x.phase.Open?
    ensures ConnOk(x.(inbox := x.inbox[n..], chunks := x.chunks + [x.inbox[..n]]), CStr(x.inbox[..n]))
  {
    FlattenSnoc(x.chunks, x.inbox[..n]);
    TakenFrom(Flatten(x.chunks), x.inbox, x.up, n);
    assert x.got + x.outbox + x.down + [] == x.got + x.outbox + x.down;
  }

  /** What a successful recv leaves. */
  lemma ReadStep(s: Sys, newFd: int, n: nat)
    requires s.batch != [] && Owns(s.k, s.batch[0].fd) && s.batch[0].fd in s.k.regs
    requires s.batch[0].fd != s.k.listener && s.batch[0].inb && n <= BUFFER
    requires 1 <= n <= |s.k.conns[s.k.files[s.batch[0].fd]].inbox|
    ensures var s', fd := DispatchStep(s, newFd, n), s.batch[0].fd; var x := s.k.conns[s.k.files[fd]];
      && s'.batch == s.batch[1..] && s'.h == s.h && s'.m == s.m[fd := CStr(x.inbox[..n])]
      && s'.k == s.k.(regs := s.k.regs[fd := Reg(Out, false, true)],
          conns := s.k.conns[s.k.files[fd] := x.(inbox := x.inbox[n..], chunks := x.chunks + [x.inbox[..n]])])
  {
  }

  /** recv returned data: park it and ask for EPOLLOUT. */
  lemma ReadInv(s: Sys, newFd: int, n: nat)
    requires Inv(s) && Enabled(s, Dispatch(newFd, n))
    requires var e := s.batch[0]; e.fd != s.k.listener && e.inb && s.k.conns[s.k.files[e.fd]].inbox != []
    ensures Inv(DispatchStep(s, newFd, n))
  {
    HeadFacts(s);
    var s' := DispatchStep(s, newFd, n);
    var fd := s.batch[0].fd;
    ReadStep(s, newFd, n);
    ChunkConnOk(s.k.conns[s.k.files[fd]], n);
    WorkInv(s, s', fd);
  }

  /** EPOLLOUT: the parked text goes out and the descriptor asks for EPOLLIN again. */
  lemma WriteInv(s: Sys, newFd: int, n: nat)
    requires Inv(s) && Enabled(s, Dispatch(newFd, n))
    requires var e := s.batch[0]; e.fd != s.k.listener && !e.inb && e.outb
    ensures Inv(DispatchStep(s, newFd, n))
  {
    HeadFacts(s);
    var s' := DispatchStep(s, newFd, n);
    var fd := s.batch[0].fd;
    var x := s.k.conns[s.k.files[fd]];
    var text := s.m[fd];
    var x' := x.(down := x.down + text);
    assert CStr(text) == text;
    assert s'.k.conns[s.k.files[fd]] == x';
    assert WorkedOn(s, s', fd);
    assert ConnOk(x', []) by {
      assert x.got + x.outbox + (x.down + text) + [] == x.got + x.outbox + x.down + text;
    }
    WorkInv(s, s', fd);
  }

  /** Nothing to read although EPOLLIN was reported: the client is gone and the descriptor closes. */
  lemma CloseInv(s: Sys, newFd: int, n: nat)
    requires Inv(s) && Enabled(s, Dispatch(newFd, n))
    requires var e := s.batch[0]; e.fd != s.k.listener && e.inb && s.k.conns[s.k.files[e.fd]].inbox == []
    ensures Inv(DispatchStep(s, newFd, n))
  {
    HeadFacts(s);
    var s' := DispatchStep(s, newFd, n);
    var fd := s.batch[0].fd;
    var x := s.k.conns[s.k.files[fd]];
    assert s'.k == WithConn(s.k, s.k.files[fd], x.(phase := Closed))
      .(files := s.k.files - {fd}, regs := s.k.regs - {fd});
    assert ClosedHead(s, s', fd);
    CloseKeepsRest(s, s', fd);
  }

  /** The head event closed fd, which was asking for EPOLLIN. */
  ghost predicate ClosedHead(s: Sys, s': Sys, fd: int) {
    && s.batch != [] && s.batch[0].fd == fd && Owns(s.k, fd)
    && s'.batch == s.batch[1..] && s'.h == s.h && s'.m == s.m[fd := At(s.m, fd)]
    && s'.k == WithConn(s.k, s.k.files[fd], s.k.conns[s.k.files[fd]].(phase := Closed))
        .(files := s.k.files - {fd}, regs := s.k.regs - {fd})
    && s.k.conns[s.k.files[fd]].eof && s.k.conns[s.k.files[fd]].inbox == []
    && fd in s.k.regs && s.k.regs[fd].interest == In
  }

  lemma CloseKeepsFiles(s: Sys, s': Sys, fd: int)
    requires FilesInv(s.k) && QueueInv(s.k) && ClosedHead(s, s', fd)
    ensures FilesInv(s'.k) && QueueInv(s'.k)
  {
  }

  lemma CloseKeepsRegs(s: Sys, s': Sys, fd: int)
    requires FilesInv(s.k) && RegsInv(s) && Distinct(s.batch) && ClosedHead(s, s', fd)
    ensures RegsInv(s')
  {
    forall g | g in s'.k.files ensures Owns(s'.k, g) && g in s'.k.regs && RegOk(s', g) {
      assert RegOk(s, g);
      PopPending(s.batch, g);
    }
  }

  lemma ClosedConnOk(x: Conn)
    requires ConnOk(x, []) && x.eof && x.inbox == []
    ensures ConnOk(x.(phase := Closed), [])
  {
  }

  lemma CloseKeepsConn(s: Sys, s': Sys, fd: int, c: nat)
    requires FilesInv(s.k) && ClosedHead(s, s', fd) && c < |s.k.conns|
    requires ConnOk(s.k.conns[c], Parked(s, s.k.conns[c]))
    ensures c < |s'.k.conns| && ConnOk(s'.k.conns[c], Parked(s', s'.k.conns[c]))
  {
    var x := s.k.conns[c];
    if c == s.k.files[fd] {
      assert Parked(s, x) == [];
      ClosedConnOk(x);
    } else {
      assert s'.k.conns[c] == x;
      assert x.phase.Open? ==> x.phase.fd != fd;
      assert Parked(s', x) == Parked(s, x);
    }
  }

  lemma CloseKeepsConns(s: Sys, s': Sys, fd: int)
    requires FilesInv(s.k) && ConnsInv(s) && ClosedHead(s, s', fd)
    ensures ConnsInv(s')
  {
    forall c | 0 <= c < |s'.k.conns| ensures ConnOk(s'.k.conns[c], Parked(s', s'.k.conns[c])) {
      CloseKeepsConn(s, s', fd, c);
    }
  }

  lemma CloseKeepsBatch(s: Sys, s': Sys, fd: int)
    requires FilesInv(s.k) && BatchInv(s) && ClosedHead(s, s', fd)
    ensures BatchInv(s')
  {
    forall i | 0 <= i < |s'.batch| ensures EventOk(s', s'.batch[i]) {
      assert EventOk(s, s.batch[i + 1]);
      assert s.batch[i + 1].fd != fd;
    }
  }

  lemma CloseKeepsRest(s: Sys, s': Sys, fd: int)
    requires Inv(s) && ClosedHead(s, s', fd)
    ensures Inv(s')
  {
    CloseKeepsFiles(s, s', fd);
    CloseKeepsRegs(s, s', fd);
    CloseKeepsConns(s, s', fd);
    CloseKeepsBatch(s, s', fd);
    PopPending(s.batch, s.k.listener);
  }

  /** The event only leaves the batch: nothing to do, or accept failed. */
  lemma DropInv(s: Sys, s': Sys)
    requires Inv(s) && s.batch != [] && s'.k == s.k && s'.m == s.m && s'.batch == s.batch[1..]
    requires s'.h == if s.batch[0].fd == s.k.listener then s.h.(refused := s.h.refused + 1) else s.h
    requires !s.batch[0].inb || s.batch[0].fd == s.k.listener
    ensures Inv(s')
  {
    HeadFacts(s);
    assert RegsInv(s') by {
      forall g | g in s'.k.files ensures RegOk(s', g) {
        assert RegOk(s, g);
        PopPending(s.batch, g);
        assert !s.batch[0].inb || g != s.batch[0].fd;
      }
    }
    assert ConnsInv(s') by {
      forall c | 0 <= c < |s'.k.conns| ensures ConnOk(s'.k.conns[c], Parked(s', s'.k.conns[c])) {
        assert ConnOk(s.k.conns[c], Parked(s, s.k.conns[c]));
      }
    }
    assert BatchInv(s') by {
      forall i | 0 <= i < |s'.batch| ensures EventOk(s', s'.batch[i]) {
        assert EventOk(s, s.batch[i + 1]);
      }
    }
    PopPending(s.batch, s.k.listener);
  }

  /** accept took the first waiting connection. */
  lemma AcceptInv(s: Sys, newFd: int, n: nat)
    requires Inv(s) && Enabled(s, Dispatch(newFd, n)) && s.batch[0].fd == s.k.listener && newFd != -1
    ensures Inv(DispatchStep(s, newFd, n))
  {
    HeadFacts(s);
    var s' := DispatchStep(s, newFd, n);
    var c := s.k.queue[0];
    assert s'.k == WithConn(s.k, c, s.k.conns[c].(phase := Open(newFd))).(queue := s.k.queue[1..],
      files := s.k.files[newFd := c], regs := s.k.regs[newFd := Reg(In, true, true)]);
    assert AcceptedHead(s, s', newFd);
    AcceptKeepsFiles(s, s', newFd);
    AcceptKeepsRegs(s, s', newFd);
    AcceptKeepsConns(s, s', newFd);
    AcceptKeepsBatch(s, s', newFd);
    PopPending(s.batch, s.k.listener);
  }

  /** The head event, on the listener, opened fd for the first waiting connection. */
  ghost predicate AcceptedHead(s: Sys, s': Sys, fd: int) {
    && s.batch != [] && s.batch[0].fd == s.k.listener
    && s.k.queue != [] && s.k.queue[0] < |s.k.conns| && Free(s.k, fd)
    && s'.batch == s.batch[1..] && s'.h == s.h && s'.m == s.m
    && s'.k == WithConn(s.k, s.k.queue[0], s.k.conns[s.k.queue[0]].(phase := Open(fd))).(queue := s.k.queue[1..],
        files := s.k.files[fd := s.k.queue[0]], regs := s.k.regs[fd := Reg(In, true, true)])
  }

  lemma AcceptKeepsFiles(s: Sys, s': Sys, fd: int)
    requires FilesInv(s.k) && QueueInv(s.k) && AcceptedHead(s, s', fd)
    ensures FilesInv(s'.k) && QueueInv(s'.k)
  {
    forall c | 0 <= c < |s'.k.conns| && s'.k.conns[c].phase == Queued ensures c in s'.k.queue {
      assert c != s.k.queue[0] && c in s.k.queue;
    }
  }

  lemma AcceptKeepsRegs(s: Sys, s': Sys, fd: int)
    requires FilesInv(s.k) && QueueInv(s.k) && RegsInv(s) && ConnsInv(s) && Distinct(s.batch) && AcceptedHead(s, s', fd)
    ensures RegsInv(s')
  {
    var c := s.k.queue[0];
    assert ConnOk(s.k.conns[c], Parked(s, s.k.conns[c]));
    forall g | g in s'.k.files ensures Owns(s'.k, g) && g in s'.k.regs && RegOk(s', g) {
      if g != fd { assert RegOk(s, g); }
      PopPending(s.batch, g);
    }
  }

  lemma AcceptKeepsConns(s: Sys, s': Sys, fd: int)
    requires FilesInv(s.k) && QueueInv(s.k) && ConnsInv(s) && AcceptedHead(s, s', fd)
    ensures ConnsInv(s')
  {
    forall c | 0 <= c < |s'.k.conns| ensures ConnOk(s'.k.conns[c], Parked(s', s'.k.conns[c])) {
      assert ConnOk(s.k.conns[c], Parked(s, s.k.conns[c]));
    }
  }

  lemma AcceptKeepsBatch(s: Sys, s': Sys, fd: int)
    requires FilesInv(s.k) && QueueInv(s.k) && BatchInv(s) && AcceptedHead(s, s', fd)
    ensures BatchInv(s')
  {
    forall i | 0 <= i < |s'.batch| ensures EventOk(s', s'.batch[i]) {
      assert EventOk(s, s.batch[i + 1]);
      assert s.batch[i + 1].fd != s.k.listener;
    }
  }

  lemma DispatchInv(s: Sys, newFd: int, n: nat)
    requires Inv(s) && Enabled(s, Dispatch(newFd, n))
    ensures Inv(DispatchStep(s, newFd, n))
  {
    HeadFacts(s);
    var e := s.batch[0];
    if e.fd == s.k.listener {
      if newFd == -1 { DropInv(s, DispatchStep(s, newFd, n)); } else { AcceptInv(s, newFd, n); }
    } else if e.inb {
      if s.k.conns[s.k.files[e.fd]].inbox == [] { CloseInv(s, newFd, n); } else { ReadInv(s, newFd, n); }
    } else if e.outb {
      WriteInv(s, newFd, n);
    } else {
      DropInv(s, DispatchStep(s, newFd, n));
    }
  }

  /** Every enabled step keeps the invariant. */
  lemma StepInv(s: Sys, a: Action)
    requires Inv(s) && Enabled(s, a)
    ensures Inv(Next(s, a))
  {
    match a
    case World(e) => EnvInv(s, e);
    case Wait(events) => WaitInv(s, events);
    case Dispatch(newFd, n) => DispatchInv(s, newFd, n);
  }

  /** The invariant holds after every schedule. */
  lemma {:induction false} RunInv(s: Sys, acts: seq<Action>)
    requires Inv(s) && Runs(s, acts)
    ensures Inv(Exec(s, acts))
    decreases |acts|
  {
    if acts != [] {
      StepInv(s, acts[0]);
      RunInv(Next(s, acts[0]), acts[1..]);
    }
  }
}
