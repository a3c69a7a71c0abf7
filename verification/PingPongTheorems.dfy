/** What the epoll client and server guarantee each other: no byte lost, no deadlock, no livelock. */
module PingPongTheorems {
  import opened Streams
  import opened EpollKernel
  import opened EpollServer
  import opened EpollTheorems
  import opened EpollBacklog
  import opened PingPong
  import opened Decimal

  lemma AfterPlay(listener: nat, limit: nat, moves: seq<Move>)
    requires Plays(Start(listener, limit), moves)
    ensures PInv(Played(Start(listener, limit), moves))
  {
    InitInv(listener, limit);
    PlayInv(Start(listener, limit), moves);
  }

  lemma GreetingAndCounts(n: nat)
    ensures Conversation(HELLO + Counted(n), n)
  {
    var messages := CountedMessages(n);
    assert HELLO == Bytes("hello\n");
  }

  /** Everything a ping-pong client has written is "hello\n" and the decimal numerals of the counts 0 to
      cnt - 1, and is to be found, in order, at its own end, on the way back, in the map, or on the way to the server;
      and while the client waits for EPOLLIN at least one byte has not come back yet. */
  lemma PingPongConservation(listener: nat, limit: nat, moves: seq<Move>, c: nat)
    requires Plays(Start(listener, limit), moves) && c in Played(Start(listener, limit), moves).clients
    ensures var p := Played(Start(listener, limit), moves);
      && c < |p.s.k.conns|
      && var x, cl := p.s.k.conns[c], p.clients[c];
      && (cl.greeted ==> Conversation(x.sent, cl.cnt)) && (!cl.greeted ==> x.sent == [])
      && x.sent == x.got + x.outbox + x.down + Parked(p.s, x) + x.inbox + x.up
      && (cl.greeted && cl.reg.interest == In ==> x.outbox + x.down + Parked(p.s, x) + x.inbox + x.up != [])
      && x.phase != Closed
  {
    AfterPlay(listener, limit, moves);
    var p := Played(Start(listener, limit), moves);
    ClientConserved(p, c);
    GreetingAndCounts(p.clients[c].cnt);
  }

  // ---- what each turn of the client does ----

  /** What arrived is read and the client asks for EPOLLOUT; or the next count goes out in decimal and it
      asks for EPOLLIN; or the call failed and nothing changes. Nobody else is affected. */
  lemma ClientTurn(p: Pair, c: nat, n: nat)
    requires MoveEnabled(p, Handle(c, n))
    ensures var p' := Play(p, Handle(c, n));
      && c < |p'.s.k.conns| && c in p'.clients && p'.clients[c].slot == Empty
      && var x, x', cl, cl' := p.s.k.conns[c], p'.s.k.conns[c], p.clients[c], p'.clients[c];
      && (cl.slot.inb && x.outbox != [] ==>
            && x' == x.(got := x'.got, outbox := x'.outbox)
            && x'.got == x.got + x.outbox[..n] && x'.outbox == x.outbox[n..]
            && cl'.reg == Reg(Out, false, true) && cl'.cnt == cl.cnt)
      && (!cl.slot.inb && cl.slot.outb ==>
            && x' == x.(sent := x'.sent, up := x'.up) && cl'.reg == Reg(In, false, true) && cl'.cnt == cl.cnt + 1
            && exists d :: IsDecimal(d, cl.cnt) && x'.sent == x.sent + d && x'.up == x.up + d)
      && (cl.slot.inb && x.outbox == [] ==> x' == x && cl' == cl.(slot := Empty))
    ensures var p' := Play(p, Handle(c, n));
      && p'.clients == p.clients[c := p'.clients[c]] && p'.s.k.conns == p.s.k.conns[c := p'.s.k.conns[c]]
      && p'.s.batch == p.s.batch && p'.s.m == p.s.m
  {
    var d := Digits(p.clients[c].cnt);
    DigitsAreDecimal(p.clients[c].cnt, d);
    var below := Below(p, Handle(c, n));
    ServerSide(p, Handle(c, n), below);
    if below != [] { MoveIsOutside(p.s.k, below[0].env); }
  }

  /** Before its loop the client sends "hello\n". */
  lemma ClientGreets(p: Pair, c: nat)
    requires MoveEnabled(p, Greet(c))
    ensures var p', x := Play(p, Greet(c)), p.s.k.conns[c];
      && p'.s.k.conns == p.s.k.conns[c := x.(sent := x.sent + Bytes("hello\n"), up := x.up + Bytes("hello\n"))]
      && p'.clients == p.clients[c := p.clients[c].(greeted := true)]
  {
    assert HELLO == Bytes("hello\n");
    MoveIsOutside(p.s.k, ClientSend(c, HELLO));
  }

  // ---- progress ----

  /** How far the unreturned bytes of a connection still have to travel. */
  function Load(x: Conn, parked: seq<Byte>): nat {
    5 * |x.up| + 4 * |x.inbox| + 3 * |parked| + 2 * |x.down| + |x.outbox|
  }

  /** 1 while the server has no report of the connection in hand. */
  function Unreported(s: Sys, x: Conn): nat {
    if x.phase.Open? && Reports(s.batch, x.phase.fd) then 0 else 1
  }

  function ServerRank(s: Sys, x: Conn): nat {
    2 * Load(x, Parked(s, x)) + Unreported(s, x)
  }

  function Rank(p: Pair, c: nat): nat
    requires Present(p, c)
  {
    ServerRank(p.s, p.s.k.conns[c]) + if p.clients[c].slot.Empty? then 1 else 0
  }

  /** How many messages the client has written. */
  function Written(cl: Client): nat {
    cl.cnt + if cl.greeted then 1 else 0
  }

  lemma PopReports(batch: seq<Event>, fd: int)
    requires batch != [] && Distinct(batch)
    ensures Reports(batch[1..], fd) <==> fd != batch[0].fd && Reports(batch, fd)
  {
    forall i | 1 <= i < |batch| ensures batch[i].fd != batch[0].fd && batch[i] == batch[1..][i - 1] {
    }
  }

  /** Dispatching an event of the connection moves it forward. */
  lemma OwnDispatch(s: Sys, newFd: int, n: nat)
    requires Inv(s) && Enabled(s, Dispatch(newFd, n)) && s.batch[0].fd != s.k.listener
    requires Owns(s.k, s.batch[0].fd) && !s.k.conns[s.k.files[s.batch[0].fd]].fin
    ensures var s', c := DispatchStep(s, newFd, n), s.k.files[s.batch[0].fd];
      && |s'.k.conns| == |s.k.conns| && s'.k.conns[c].phase == s.k.conns[c].phase
      && (s.batch[0].inb || s.batch[0].outb ==> 0 !in s.k.conns[c].sent ==>
            ServerRank(s', s'.k.conns[c]) < ServerRank(s, s.k.conns[c]))
      && (!s.batch[0].inb && !s.batch[0].outb ==> ServerRank(s', s'.k.conns[c]) == ServerRank(s, s.k.conns[c]))
  {
    HeadFacts(s);
    var e := s.batch[0];
    var s', x := DispatchStep(s, newFd, n), s.k.conns[s.k.files[e.fd]];
    PopReports(s.batch, e.fd);
    if e.inb {
      assert x.inbox != [];
      assert Parked(s, x) == [];
      var chunk := x.inbox[..n];
      assert s'.k.conns[s.k.files[e.fd]] == x.(inbox := x.inbox[n..], chunks := x.chunks + [chunk]);
      assert |CStr(chunk)| <= |chunk|;
    } else if e.outb {
      var text := s.m[e.fd];
      assert CStr(text) == text;
      assert s'.k.conns[s.k.files[e.fd]] == x.(down := x.down + text);
      if 0 !in x.sent { ParkedNotEmpty(x, text); }
    }
  }

  lemma ParkedNotEmpty(x: Conn, text: seq<Byte>)
    requires ConnOk(x, text) && x.chunks != [] && 0 !in x.sent && text == CStr(x.chunks[|x.chunks| - 1])
    ensures text != []
  {
    var last := x.chunks[|x.chunks| - 1];
    var front := Flatten(x.chunks[..|x.chunks| - 1]);
    assert last[0] == Flatten(x.chunks)[|front|] == x.sent[|front|];
  }

  /** Dispatching somebody else's event does not move it back. */
  lemma OtherDispatch(s: Sys, newFd: int, n: nat, c: nat)
    requires Inv(s) && Enabled(s, Dispatch(newFd, n)) && c < |s.k.conns| && s.k.conns[c].phase != Closed
    requires s.k.conns[c].phase != Open(s.batch[0].fd)
    ensures var s', x := DispatchStep(s, newFd, n), s.k.conns[c];
      && c < |s'.k.conns| && ServerRank(s', s'.k.conns[c]) <= ServerRank(s, x)
      && (x.phase.Open? ==> s'.k.conns[c] == x && ServerRank(s', x) == ServerRank(s, x))
  {
    HeadFacts(s);
    var s', x := DispatchStep(s, newFd, n), s.k.conns[c];
    if x.phase.Open? {
      PopReports(s.batch, x.phase.fd);
      OtherConnStays(s, newFd, n, c);
    } else {
      QueuedConn(s, newFd, n, c);
    }
  }

  lemma OtherConnStays(s: Sys, newFd: int, n: nat, c: nat)
    requires Inv(s) && Enabled(s, Dispatch(newFd, n)) && c < |s.k.conns| && s.k.conns[c].phase.Open?
    requires s.k.conns[c].phase != Open(s.batch[0].fd)
    ensures var s', x := DispatchStep(s, newFd, n), s.k.conns[c];
      c < |s'.k.conns| && s'.k.conns[c] == x && Parked(s', x) == Parked(s, x)
  {
    HeadFacts(s);
    var fd, g := s.batch[0].fd, s.k.conns[c].phase.fd;
    assert g in s.k.files && s.k.files[g] == c && g != s.k.listener;
    if fd == s.k.listener {
      AcceptTouches(s.k, newFd);
    } else {
      DispatchTouches(s, newFd, n);
    }
  }

  /** accept changes the first waiting connection and adds one registration under a new number. */
  lemma AcceptTouches(k: Kernel, newFd: int)
    requires FilesInv(k) && QueueInv(k)
    ensures var (k1, fd) := Accept(k, newFd); var k' := CtlAdd(k1, fd);
      && |k'.conns| == |k.conns|
      && (forall c :: 0 <= c < |k.conns| && k.conns[c].phase != Queued ==> k'.conns[c] == k.conns[c])
      && (forall c :: 0 <= c < |k.conns| ==> k'.conns[c] == k.conns[c] || k'.conns[c] == k.conns[c].(phase := Open(fd)))
      && (forall g :: g in k.regs ==> g in k'.regs && k'.regs[g] == k.regs[g])
      && (forall g :: g in k'.regs && g !in k.regs ==> k'.regs[g].interest == In)
  {
  }

  /** Any other event changes the connection of its descriptor, and that registration. */
  lemma DispatchTouches(s: Sys, newFd: int, n: nat)
    requires s.batch != [] && s.batch[0].fd != s.k.listener && Owns(s.k, s.batch[0].fd)
    ensures var s', fd := DispatchStep(s, newFd, n), s.batch[0].fd;
      && |s'.k.conns| == |s.k.conns|
      && (forall c :: 0 <= c < |s.k.conns| && c != s.k.files[fd] ==> s'.k.conns[c] == s.k.conns[c])
      && (forall g :: g != fd ==> (g in s'.k.regs <==> g in s.k.regs))
      && (forall g :: g != fd && g in s.k.regs ==> s'.k.regs[g] == s.k.regs[g])
      && (forall g :: g != fd ==> At(s'.m, g) == At(s.m, g))
  {
  }

  lemma QueuedConn(s: Sys, newFd: int, n: nat, c: nat)
    requires Inv(s) && Enabled(s, Dispatch(newFd, n)) && c < |s.k.conns| && s.k.conns[c].phase == Queued
    ensures var s', x := DispatchStep(s, newFd, n), s.k.conns[c];
      c < |s'.k.conns| && s'.k.conns[c].(phase := Queued) == x && Parked(s', s'.k.conns[c]) == [] && Parked(s, x) == []
  {
    HeadFacts(s);
    if s.batch[0].fd == s.k.listener {
      NewcomerParksNothing(s, newFd, n, c);
    } else {
      DispatchTouches(s, newFd, n);
    }
  }

  lemma NewcomerParksNothing(s: Sys, newFd: int, n: nat, c: nat)
    requires FilesInv(s.k) && QueueInv(s.k) && RegsInv(s) && Enabled(s, Dispatch(newFd, n))
    requires c < |s.k.conns| && s.k.conns[c].phase == Queued && s.batch[0].fd == s.k.listener
    ensures var s', x := DispatchStep(s, newFd, n), s.k.conns[c];
      c < |s'.k.conns| && s'.k.conns[c].(phase := Queued) == x && Parked(s', s'.k.conns[c]) == []
  {
    AcceptTouches(s.k, newFd);
  }

  /** Waiting and everything outside the server never move a connection back either. */
  lemma OutsideRank(s: Sys, a: Action, c: nat)
    requires Enabled(s, a) && !a.Dispatch? && c < |s.k.conns|
    requires a.World? ==> a.env == Connect || a.env.Arrive? || a.env.ArriveEof? || a.env.c != c
    ensures var s' := Next(s, a);
      && c < |s'.k.conns| && s'.k.conns[c].phase == s.k.conns[c].phase
      && ServerRank(s', s'.k.conns[c]) <= ServerRank(s, s.k.conns[c])
  {
    var s', x := Next(s, a), s.k.conns[c];
    if a.World? {
      EnvIsOutside(s, a.env);
      OutsideKeepsParked(s, s', x, s'.k.conns[c]);
      if a.env.Arrive? && a.env.c == c {
        assert s'.k.conns[c] == Moved(x, a.env);
      }
    } else {
      assert Parked(s', x) == Parked(s, x);
      assert s.batch == [];
    }
  }

  /** The move is a send of client c: its greeting, or the next count. */
  predicate IsSend(p: Pair, m: Move, c: nat)
    requires Present(p, c)
  {
    m == Greet(c) || (m.Handle? && m.c == c && p.clients[c].slot.Ready? && !p.clients[c].slot.inb)
  }

  /** Everyone else: no move but its own send takes a connection further from its next reply. */
  lemma RankNeverRises(p: Pair, m: Move, c: nat)
    requires PInv(p) && MoveEnabled(p, m) && c in p.clients && c < |p.s.k.conns|
    requires !IsSend(p, m, c)
    ensures Present(Play(p, m), c) && Rank(Play(p, m), c) <= Rank(p, c)
  {
    ClientConserved(p, c);
    var p', x := Play(p, m), p.s.k.conns[c];
    if m.Else? {
      OthersLeaveClient(p, m.a, c);
      if !m.a.Dispatch? {
        OutsideRank(p.s, m.a, c);
      } else if x.phase == Open(p.s.batch[0].fd) {
        HeadFacts(p.s);
        OwnDispatch(p.s, m.a.newFd, m.a.n);
      } else {
        OtherDispatch(p.s, m.a.newFd, m.a.n, c);
      }
    } else if m.Join? || m.c != c {
      OtherClientMoves(p, m, c);
    } else {
      OwnClientMoves(p, m, c, Parked(p.s, x));
    }
  }

  lemma OtherClientMoves(p: Pair, m: Move, c: nat)
    requires MoveEnabled(p, m) && Present(p, c) && !m.Else? && (m.Join? || m.c != c)
    ensures Present(Play(p, m), c) && Rank(Play(p, m), c) == Rank(p, c)
  {
    var p', x := Play(p, m), p.s.k.conns[c];
    var below := Below(p, m);
    ServerSide(p, m, below);
    if below != [] {
      EnvIsOutside(p.s, below[0].env);
      assert p'.s.k.conns[c] == x;
      OutsideKeepsParked(p.s, p'.s, x, x);
    }
  }

  /** A move of client c that is not a send brings its bytes nearer. */
  lemma OwnClientMoves(p: Pair, m: Move, c: nat, parked: seq<Byte>)
    requires MoveEnabled(p, m) && Present(p, c) && !m.Else? && !m.Join? && m.c == c && !IsSend(p, m, c)
    requires parked == Parked(p.s, p.s.k.conns[c]) && ClientOk(p.clients[c], p.s.k.conns[c])
    ensures Present(Play(p, m), c) && Rank(Play(p, m), c) < Rank(p, c)
    ensures Play(p, m).s.k.conns[c].phase == p.s.k.conns[c].phase
  {
    var p', x := Play(p, m), p.s.k.conns[c];
    var below := Below(p, m);
    ServerSide(p, m, below);
    if below != [] {
      var e := below[0].env;
      EnvIsOutside(p.s, e);
      assert p'.s.k.conns[c] == Moved(x, e);
      OutsideKeepsParked(p.s, p'.s, x, p'.s.k.conns[c]);
    }
  }

  // ---- there is always a next move ----

  /** A step of the scheduler that serves client c. */
  function NextMove(p: Pair, c: nat): Move
    requires Present(p, c)
  {
    var cl, x := p.clients[c], p.s.k.conns[c];
    if !cl.greeted then Greet(c)
    else if cl.slot.Ready? then Handle(c, Min(|x.outbox|, BUFFER))
    else if cl.reg.interest == Out then ClientWait(c, false, true)
    else if x.outbox != [] then ClientWait(c, true, false)
    else if x.down != [] then Deliver(c, |x.down|)
    else Else(ServerMove(p.s, c))
  }

  function ServerMove(s: Sys, c: nat): Action
    requires c < |s.k.conns|
  {
    var x := s.k.conns[c];
    var fd := if x.phase.Open? then x.phase.fd else -1;
    if s.batch != [] then ServeHead(s, -1)
    else if fd in s.k.regs && s.k.regs[fd].interest == Out then Wait([Event(fd, false, true)])
    else if x.inbox != [] then Wait([Event(fd, true, false)])
    else World(Arrive(c, |x.up|))
  }

  /** While bytes are on the server's side, the server or the network to it has a step for them. */
  lemma ServerServes(s: Sys, c: nat)
    requires Inv(s) && c < |s.k.conns| && s.k.conns[c].phase.Open?
    requires var x := s.k.conns[c]; 0 !in x.sent && !x.fin && Parked(s, x) + x.inbox + x.up != []
    ensures Enabled(s, ServerMove(s, c))
    ensures var s', x := Next(s, ServerMove(s, c)), s.k.conns[c];
      && c < |s'.k.conns| && s'.k.conns[c].phase == x.phase
      && (ServerRank(s', s'.k.conns[c]) < ServerRank(s, x)
          || (ServerRank(s', s'.k.conns[c]) == ServerRank(s, x) && |s'.batch| < |s.batch|))
  {
    var x, a := s.k.conns[c], ServerMove(s, c);
    assert RegOk(s, x.phase.fd) && ConnOk(x, Parked(s, x));
    if s.batch != [] {
      HeadFacts(s);
      assert Enabled(s, a);
      if x.phase == Open(s.batch[0].fd) {
        OwnDispatch(s, a.newFd, a.n);
      } else {
        OtherDispatch(s, a.newFd, a.n, c);
      }
    } else if a.Wait? {
      ReportServes(s, c, a.events[0]);
    } else {
      ArrivalLowers(s, Arrive(c, |s.k.conns[c].up|));
    }
  }

  lemma ReportServes(s: Sys, c: nat, e: Event)
    requires Inv(s) && c < |s.k.conns| && s.batch == [] && s.k.conns[c].phase == Open(e.fd) && (e.inb || e.outb)
    requires e.fd in s.k.regs && e.inb == (s.k.regs[e.fd].interest == In) && e.outb == (s.k.regs[e.fd].interest == Out)
    requires e.inb ==> s.k.conns[c].inbox != []
    ensures Enabled(s, Wait([e]))
    ensures var s', x := Next(s, Wait([e])), s.k.conns[c];
      s'.k.conns == s.k.conns && ServerRank(s', x) < ServerRank(s, x)
  {
    assert RegOk(s, e.fd);
    assert Reportable(s.k, e);
    assert Reports([e], e.fd) by { assert [e][0] == e; }
    ReportLowers(s, [e], c);
  }

  /** Parked bytes do not notice that a registration was disarmed. */
  lemma DisarmKeepsParked(s: Sys, s': Sys, events: seq<Event>, x: Conn)
    requires s'.k == Disarm(s.k, events) && s'.m == s.m
    ensures Parked(s', x) == Parked(s, x)
  {
  }

  /** A report of a connection brings it nearer, */
  lemma ReportLowers(s: Sys, events: seq<Event>, c: nat)
    requires Enabled(s, Wait(events)) && c < |s.k.conns|
    requires s.k.conns[c].phase.Open? && Reports(events, s.k.conns[c].phase.fd)
    ensures var s', x := Next(s, Wait(events)), s.k.conns[c];
      s'.k.conns == s.k.conns && ServerRank(s', x) < ServerRank(s, x)
  {
    DisarmKeepsParked(s, Next(s, Wait(events)), events, s.k.conns[c]);
  }

  /** and so does the arrival of its bytes. */
  lemma ArrivalLowers(s: Sys, e: Env)
    requires e.Arrive? && EnvEnabled(s.k, e)
    ensures var s' := Next(s, World(e));
      && e.c < |s'.k.conns| && s'.k.conns[e.c].phase == s.k.conns[e.c].phase
      && ServerRank(s', s'.k.conns[e.c]) < ServerRank(s, s.k.conns[e.c])
  {
    var s', x := Next(s, World(e)), s.k.conns[e.c];
    EnvIsOutside(s, e);
    assert s'.k.conns[e.c] == Moved(x, e);
    OutsideKeepsParked(s, s', x, s'.k.conns[e.c]);
  }

  /** p' is p after some moves that wrote nothing but brought the next send of client c nearer. */
  ghost predicate Nearer(p: Pair, p': Pair, c: nat)
    requires Present(p, c)
  {
    && Present(p', c) && p'.s.k.conns[c].phase == p.s.k.conns[c].phase
    && Written(p'.clients[c]) == Written(p.clients[c])
    && (Rank(p', c) < Rank(p, c) || (Rank(p', c) == Rank(p, c) && |p'.s.batch| < |p.s.batch|))
  }

  /** p' is p with one more message of client c written. */
  ghost predicate Wrote(p: Pair, p': Pair, c: nat)
    requires Present(p, c)
  {
    && Present(p', c) && p'.s.k.conns[c].phase == p.s.k.conns[c].phase
    && Written(p'.clients[c]) == Written(p.clients[c]) + 1
  }

  /** What a server step looks like from the pair. */
  lemma ElseIsServer(p: Pair, a: Action)
    requires Foreign(p, a) && Enabled(p.s, a)
    ensures MoveEnabled(p, Else(a)) && Play(p, Else(a)) == Pair(Next(p.s, a), p.clients)
  {
  }

  lemma NearerByServer(p: Pair, s': Sys, c: nat)
    requires Present(p, c) && c < |s'.k.conns| && s'.k.conns[c].phase == p.s.k.conns[c].phase
    requires var r, r' := ServerRank(p.s, p.s.k.conns[c]), ServerRank(s', s'.k.conns[c]);
      r' < r || (r' == r && |s'.batch| < |p.s.batch|)
    ensures Nearer(p, Pair(s', p.clients), c)
  {
  }

  lemma ServerMoveIsNearer(p: Pair, c: nat)
    requires Inv(p.s) && Present(p, c) && p.s.k.conns[c].phase.Open? && Foreign(p, ServerMove(p.s, c))
    requires var x := p.s.k.conns[c]; 0 !in x.sent && !x.fin && Parked(p.s, x) + x.inbox + x.up != []
    ensures MoveEnabled(p, Else(ServerMove(p.s, c))) && Nearer(p, Play(p, Else(ServerMove(p.s, c))), c)
  {
    var a := ServerMove(p.s, c);
    ServerServes(p.s, c);
    ElseIsServer(p, a);
    NearerByServer(p, Next(p.s, a), c);
  }

  lemma SendWrites(p: Pair, m: Move, c: nat)
    requires MoveEnabled(p, m) && Present(p, c) && IsSend(p, m, c) && ClientOk(p.clients[c], p.s.k.conns[c])
    ensures Wrote(p, Play(p, m), c)
  {
  }

  lemma OtherwiseNearer(p: Pair, m: Move, c: nat)
    requires MoveEnabled(p, m) && Present(p, c) && !m.Else? && !m.Join? && m.c == c && !IsSend(p, m, c)
    requires ClientOk(p.clients[c], p.s.k.conns[c])
    ensures Nearer(p, Play(p, m), c)
  {
    OwnClientMoves(p, m, c, Parked(p.s, p.s.k.conns[c]));
  }

  lemma NextIsEnabled(p: Pair, c: nat)
    requires Present(p, c) && ClientOk(p.clients[c], p.s.k.conns[c]) && !NextMove(p, c).Else?
    ensures MoveEnabled(p, NextMove(p, c))
  {
  }

  /** With nothing to do at the client's end, a byte is at the server's. */
  lemma ServerHasIt(p: Pair, c: nat, parked: seq<Byte>)
    requires Present(p, c) && ClientOk(p.clients[c], p.s.k.conns[c]) && NextMove(p, c).Else?
    requires var x := p.s.k.conns[c]; x.sent == x.got + x.outbox + x.down + parked + x.inbox + x.up
    ensures parked + p.s.k.conns[c].inbox + p.s.k.conns[c].up != []
    ensures NextMove(p, c) == Else(ServerMove(p.s, c)) && Foreign(p, ServerMove(p.s, c))
  {
  }

  /** No deadlock, no livelock: for every accepted ping-pong client there is an enabled move, and it
      either is the client's next send or brings that send nearer. */
  lemma Progress(p: Pair, c: nat)
    requires PInv(p) && c in p.clients && c < |p.s.k.conns| && p.s.k.conns[c].phase.Open?
    ensures MoveEnabled(p, NextMove(p, c))
    ensures var p' := Play(p, NextMove(p, c)); Wrote(p, p', c) || Nearer(p, p', c)
  {
    ClientConserved(p, c);
    if NextMove(p, c).Else? {
      ServerHasIt(p, c, Parked(p.s, p.s.k.conns[c]));
      ServerMoveIsNearer(p, c);
    } else {
      NextIsEnabled(p, c);
      var m := NextMove(p, c);
      if IsSend(p, m, c) { SendWrites(p, m, c); } else { OtherwiseNearer(p, m, c); }
    }
  }

  lemma PlayFirst(p: Pair, m: Move, rest: seq<Move>)
    requires MoveEnabled(p, m) && Plays(Play(p, m), rest)
    ensures Plays(p, [m] + rest) && Played(p, [m] + rest) == Played(Play(p, m), rest)
  {
    assert ([m] + rest)[1..] == rest;
  }

  // ---- a client in the accept queue ----

  /** A schedule of the server and of arrivals, played beside the clients, and then some moves. */
  function ElsesThen(acts: seq<Action>, second: seq<Move>): (moves: seq<Move>)
    ensures |moves| == |acts| + |second|
  {
    if acts == [] then second else [Else(acts[0])] + ElsesThen(acts[1..], second)
  }

  lemma PlayElse(p: Pair, a: Action, rest: seq<Move>)
    requires Foreign(p, a) && Enabled(p.s, a) && Plays(Pair(Next(p.s, a), p.clients), rest)
    ensures Plays(p, [Else(a)] + rest)
    ensures Played(p, [Else(a)] + rest) == Played(Pair(Next(p.s, a), p.clients), rest)
  {
    ElseIsServer(p, a);
    PlayFirst(p, Else(a), rest);
  }

  lemma {:induction false} PlayElses(p: Pair, acts: seq<Action>, second: seq<Move>)
    requires Runs(p.s, acts) && forall a :: a in acts ==> a == World(Connect) || !a.World?
    requires Plays(Pair(Exec(p.s, acts), p.clients), second)
    ensures Plays(p, ElsesThen(acts, second))
    ensures Played(p, ElsesThen(acts, second)) == Played(Pair(Exec(p.s, acts), p.clients), second)
    decreases |acts|
  {
    if acts != [] {
      assert acts[0] in acts;
      var q := Pair(Next(p.s, acts[0]), p.clients);
      PlayElses(q, acts[1..], second);
      PlayElse(p, acts[0], ElsesThen(acts[1..], second));
    }
  }

  /** The server's side of a play is a run, so its queue is first in, first out. */
  lemma {:induction false} PlayFifo(p: Pair, moves: seq<Move>)
    requires PInv(p) && Fifo(p.s.k) && Plays(p, moves)
    ensures Fifo(Played(p, moves).s.k)
    decreases |moves|
  {
    if moves != [] {
      var below := Below(p, moves[0]);
      ServerSide(p, moves[0], below);
      if below != [] { QueueStep(p.s, below[0]); }
      MoveInvariant(p, moves[0]);
      PlayFifo(Play(p, moves[0]), moves[1..]);
    }
  }

  /** The client waits behind a full accept queue whose listener nothing reports any more. */
  ghost predicate Stuck(p: Pair, c: nat)
    requires Present(p, c)
  {
    p.s.k.conns[c].phase == Queued && Dead(p.s)
  }

  /** A client still in the accept queue can be brought into an open connection, unless it is stuck. */
  lemma LetIn(p: Pair, c: nat) returns (acts: seq<Action>)
    requires PInv(p) && Fifo(p.s.k) && Present(p, c) && !Stuck(p, c)
    ensures Runs(p.s, acts) && forall a :: a in acts ==> a == World(Connect) || !a.World?
    ensures var p' := Pair(Exec(p.s, acts), p.clients);
      PInv(p') && Present(p', c) && p'.s.k.conns[c].phase.Open?
  {
    ClientConserved(p, c);
    QueuedIsAhead(p.s.k, c);
    acts := [];
    if p.s.k.conns[c].phase == Queued { acts := Admit(p.s, c); }
    PlayElses(p, acts, []);
    PlayInv(p, ElsesThen(acts, []));
  }

  /** Client c can be brought to write that many messages. */
  ghost predicate CanWrite(p: Pair, c: nat, goal: nat) {
    exists more :: Plays(p, more) && HasWritten(Played(p, more), c, goal)
  }

  predicate HasWritten(p: Pair, c: nat, goal: nat) {
    Present(p, c) && Written(p.clients[c]) >= goal
  }

  lemma LetInAndReach(p: Pair, c: nat, goal: nat)
    requires PInv(p) && Fifo(p.s.k) && Present(p, c) && !Stuck(p, c)
    ensures CanWrite(p, c, goal)
  {
    var acts := LetIn(p, c);
    var second := Reach(Pair(Exec(p.s, acts), p.clients), c, goal);
    PlayElses(p, acts, second);
    assert HasWritten(Played(p, ElsesThen(acts, second)), c, goal);
  }

  lemma DeadMove(p: Pair, m: Move)
    requires Inv(p.s) && Dead(p.s) && MoveEnabled(p, m)
    ensures var s' := Play(p, m).s; Dead(s') && s'.k.queue == p.s.k.queue && |s'.k.conns| == |p.s.k.conns|
  {
    var below := Below(p, m);
    ServerSide(p, m, below);
    if below != [] {
      QuietStep(p.s, below[0]);
      LimitStays(p.s, below[0]);
      OnlyArrivalsAddConns(p.s, below[0]);
    }
  }

  lemma ClientStays(p: Pair, m: Move, c: nat)
    requires MoveEnabled(p, m) && c in p.clients
    ensures c in Play(p, m).clients
  {
  }

  lemma {:induction false} DeadPlay(p: Pair, moves: seq<Move>, c: nat)
    requires PInv(p) && Dead(p.s) && Plays(p, moves) && c in p.clients
    ensures var p' := Played(p, moves);
      PInv(p') && c in p'.clients && p'.s.k.queue == p.s.k.queue && |p'.s.k.conns| == |p.s.k.conns|
    decreases |moves|
  {
    if moves != [] {
      DeadMove(p, moves[0]);
      ClientStays(p, moves[0], c);
      MoveInvariant(p, moves[0]);
      DeadPlay(Play(p, moves[0]), moves[1..], c);
    }
  }

  /** A client that was never accepted has read nothing, so it has written its greeting at most. */
  lemma QueuedWritesOnce(p: Pair, c: nat)
    requires PInv(p) && Present(p, c) && p.s.k.conns[c].phase == Queued
    ensures Written(p.clients[c]) <= 1
  {
    ClientConserved(p, c);
  }

  /** A stuck client never gets beyond its greeting. */
  lemma StuckWritesOnce(p: Pair, moves: seq<Move>, c: nat)
    requires PInv(p) && Fifo(p.s.k) && Present(p, c) && Stuck(p, c) && Plays(p, moves)
    ensures !HasWritten(Played(p, moves), c, 2)
  {
    DeadPlay(p, moves, c);
    PlayFifo(p, moves);
    QueuedIsAhead(p.s.k, c);
    QueuedIsAhead(Played(p, moves).s.k, c);
    QueuedWritesOnce(Played(p, moves), c);
  }

  /** From a reachable state a client, whether accepted yet or not, can be served until it has written as
      many messages as one likes, exactly unless it is stuck. */
  lemma EveryCountIsReached(listener: nat, limit: nat, moves: seq<Move>, c: nat)
    requires Plays(Start(listener, limit), moves) && c in Played(Start(listener, limit), moves).clients
    ensures var p := Played(Start(listener, limit), moves);
      Present(p, c) && ((forall goal: nat :: CanWrite(p, c, goal)) <==> !Stuck(p, c))
  {
    AfterPlay(listener, limit, moves);
    InitInv(listener, limit);
    PlayFifo(Start(listener, limit), moves);
    var p := Played(Start(listener, limit), moves);
    if Stuck(p, c) {
      forall more | Plays(p, more) ensures !HasWritten(Played(p, more), c, 2) { StuckWritesOnce(p, more, c); }
      assert !CanWrite(p, c, 2);
    } else {
      forall goal: nat ensures CanWrite(p, c, goal) { LetInAndReach(p, c, goal); }
    }
  }

  /** Every move of the scheduler either counts or lowers the rank. */
  lemma {:induction false} Reach(p: Pair, c: nat, goal: nat) returns (more: seq<Move>)
    requires PInv(p) && c in p.clients && c < |p.s.k.conns| && p.s.k.conns[c].phase.Open?
    ensures Plays(p, more)
    ensures var p' := Played(p, more); Present(p', c) && Written(p'.clients[c]) >= goal
    decreases goal - Written(p.clients[c]), Rank(p, c), |p.s.batch|
  {
    more := [];
    if Written(p.clients[c]) < goal {
      var m := NextMove(p, c);
      Progress(p, c);
      MoveInvariant(p, m);
      var rest := Reach(Play(p, m), c, goal);
      PlayFirst(p, m, rest);
      more := [m] + rest;
    }
  }

  // ---- no play can keep a client busy without a message ----

  /** The move does something for client c: its own moves and deliveries, the arrival of its bytes, and
      the reports and dispatches of its connection. */
  predicate Helps(p: Pair, m: Move, c: nat)
    requires MoveEnabled(p, m) && Present(p, c)
  {
    match m
    case Join => false
    case Else(World(e)) => e.Arrive? && e.c == c
    case Else(Wait(events)) => p.s.k.conns[c].phase.Open? && Reports(events, p.s.k.conns[c].phase.fd)
    case Else(Dispatch(_, _)) =>
      p.s.k.conns[c].phase == Open(p.s.batch[0].fd) && (p.s.batch[0].inb || p.s.batch[0].outb)
    case _ => m.c == c
  }

  /** Every such move that is not a send brings the client strictly nearer to its next send. */
  lemma HelpLowers(p: Pair, m: Move, c: nat)
    requires PInv(p) && MoveEnabled(p, m) && Present(p, c) && c in p.clients && Helps(p, m, c) && !IsSend(p, m, c)
    ensures Present(Play(p, m), c) && Rank(Play(p, m), c) < Rank(p, c)
  {
    ClientConserved(p, c);
    if m.Else? {
      ElseIsServer(p, m.a);
      match m.a
      case World(e) => ArrivalLowers(p.s, e);
      case Wait(events) => ReportLowers(p.s, events, c);
      case Dispatch(newFd, n) =>
        HeadFacts(p.s);
        OwnDispatch(p.s, newFd, n);
    } else {
      OwnClientMoves(p, m, c, Parked(p.s, p.s.k.conns[c]));
    }
  }

  /** Client c is there from the start and writes nothing. */
  ghost predicate Silent(p: Pair, moves: seq<Move>, c: nat)
    requires Plays(p, moves)
    decreases |moves|
  {
    Present(p, c) && (moves == [] || (!IsSend(p, moves[0], c) && Silent(Play(p, moves[0]), moves[1..], c)))
  }

  /** How many moves of the play did something for c. */
  ghost function Help(p: Pair, moves: seq<Move>, c: nat): nat
    requires Plays(p, moves) && Silent(p, moves, c)
    decreases |moves|
  {
    if moves == [] then 0
    else (if Helps(p, moves[0], c) then 1 else 0) + Help(Play(p, moves[0]), moves[1..], c)
  }

  /** No livelock: in every play without a send of client c the moves made for it are at most its rank,
      so a schedule that keeps serving the client makes it write. */
  lemma {:induction false} NoLivelock(p: Pair, moves: seq<Move>, c: nat)
    requires PInv(p) && Plays(p, moves) && Silent(p, moves, c)
    ensures Present(Played(p, moves), c)
    ensures Help(p, moves, c) + Rank(Played(p, moves), c) <= Rank(p, c)
    decreases |moves|
  {
    if moves != [] {
      var m := moves[0];
      if Helps(p, m, c) { HelpLowers(p, m, c); } else { RankNeverRises(p, m, c); }
      MoveInvariant(p, m);
      NoLivelock(Play(p, m), moves[1..], c);
    }
  }
}
