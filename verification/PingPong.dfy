/** The epoll client beside the epoll server: any number of ping-pong clients among any other clients. */
module PingPong {
  import opened Streams
  import opened EpollKernel
  import opened EpollServer
  import opened Decimal

  /** The one slot of the client's event array, while the for loop works on it. */
  datatype Slot = Empty | Ready(inb: bool, outb: bool)

  datatype Client = Client(greeted: bool, reg: Reg, slot: Slot, cnt: nat)

  datatype Pair = Pair(s: Sys, clients: map<nat, Client>)

  datatype Move =
    | Join                                       // connect and AddFd
    | Greet(c: nat)                              // the Send before the loop
    | ClientWait(c: nat, inb: bool, outb: bool)  // epoll_wait returns
    | Handle(c: nat, n: nat)                     // the body of the for loop
    | Deliver(c: nat, n: nat)                    // bytes from the server arrive
    | Else(a: Action)                            // the server, the network to it, other clients

  /** "hello\n" */
  const HELLO: seq<Byte> := [104, 101, 108, 108, 111, 10]

  /** Steps that belong to a ping-pong client are only taken by its program. */
  predicate Foreign(p: Pair, a: Action) {
    a.World? ==>
      match a.env
      case Connect => true
      case Arrive(_, _) => true
      case ArriveEof(_) => true
      case ClientSend(c, _) => c !in p.clients
      case Return(c, _) => c !in p.clients
      case ClientRecv(c, _) => c !in p.clients
      case ClientClose(c) => c !in p.clients
  }

  predicate Present(p: Pair, c: nat) {
    c in p.clients && c < |p.s.k.conns|
  }

  predicate MoveEnabled(p: Pair, m: Move) {
    match m
    case Join => EnvEnabled(p.s.k, Connect)
    case Greet(c) => Present(p, c) && !p.clients[c].greeted && !p.s.k.conns[c].fin
    case ClientWait(c, inb, outb) =>
      && Present(p, c) && p.clients[c].greeted && p.clients[c].slot == Empty && (inb || outb)
      && (p.clients[c].reg.edge ==> p.clients[c].reg.armed)
      && (inb ==> p.clients[c].reg.interest == In && (p.s.k.conns[c].outbox != [] || p.s.k.conns[c].phase == Closed))
      && (outb ==> p.clients[c].reg.interest == Out)
    case Handle(c, n) =>
      && Present(p, c) && p.clients[c].slot.Ready?
      && (p.clients[c].slot.inb && p.s.k.conns[c].outbox != [] ==> 1 <= n <= BUFFER && n <= |p.s.k.conns[c].outbox|)
      && (!p.clients[c].slot.inb && p.clients[c].slot.outb ==> !p.s.k.conns[c].fin)
    case Deliver(c, n) => Present(p, c) && EnvEnabled(p.s.k, Return(c, n))
    case Else(a) => Foreign(p, a) && Enabled(p.s, a)
  }

  /** The server-side step behind a move; ClientWait and a failed recv have none. */
  function Below(p: Pair, m: Move): (below: seq<Action>)
    requires MoveEnabled(p, m)
    ensures |below| <= 1 && (below != [] ==> Enabled(p.s, below[0]))
  {
    match m
    case Join => [World(Connect)]
    case Greet(c) => [World(ClientSend(c, HELLO))]
    case ClientWait(_, _, _) => []
    case Handle(c, n) =>
      if p.clients[c].slot.inb then (if p.s.k.conns[c].outbox != [] then [World(ClientRecv(c, n))] else [])
      else if p.clients[c].slot.outb then [World(ClientSend(c, Digits(p.clients[c].cnt)))]
      else []
    case Deliver(c, n) => [World(Return(c, n))]
    case Else(a) => [a]
  }

  /** What the move does to the client program that makes it. */
  function Stepped(p: Pair, m: Move): map<nat, Client>
    requires MoveEnabled(p, m)
  {
    match m
    case Join => p.clients[|p.s.k.conns| := Client(false, Reg(In, true, true), Empty, 0)]
    case Greet(c) => p.clients[c := p.clients[c].(greeted := true)]
    case ClientWait(c, inb, outb) =>
      var x := p.clients[c];
      p.clients[c := x.(slot := Ready(inb, outb), reg := x.reg.(armed := !x.reg.edge))]
    case Handle(c, n) =>
      var x := p.clients[c].(slot := Empty);
      p.clients[c :=
        if p.clients[c].slot.inb then
          (if p.s.k.conns[c].outbox != [] then x.(reg := Reg(Out, false, true)) else x)
        else if p.clients[c].slot.outb then x.(cnt := x.cnt + 1, reg := Reg(In, false, true))
        else x]
    case Deliver(c, n) => p.clients[c := p.clients[c].(reg := p.clients[c].reg.(armed := true))]
    case Else(_) => p.clients
  }

  function Play(p: Pair, m: Move): Pair
    requires MoveEnabled(p, m)
  {
    var below := Below(p, m);
    Pair(if below == [] then p.s else Next(p.s, below[0]), Stepped(p, m))
  }

  ghost predicate Plays(p: Pair, moves: seq<Move>)
    decreases |moves|
  {
    moves == [] || (MoveEnabled(p, moves[0]) && Plays(Play(p, moves[0]), moves[1..]))
  }

  ghost function Played(p: Pair, moves: seq<Move>): Pair
    requires Plays(p, moves)
    decreases |moves|
  {
    if moves == [] then p else Played(Play(p, moves[0]), moves[1..])
  }

  function Start(listener: nat, limit: nat): Pair {
    Pair(Init(listener, limit), map[])
  }

  // ---- the invariant ----

  /** One ping-pong client against its connection. */
  ghost predicate ClientOk(cl: Client, x: Conn) {
    && !x.fin
    && x.sent == (if cl.greeted then HELLO + Counted(cl.cnt) else [])
    && (!cl.greeted ==> cl == Client(false, Reg(In, true, cl.reg.armed), Empty, 0) && cl.reg.armed)
    && (cl.reg.edge ==> cl.reg.interest == In && (cl.reg.armed || (cl.slot.Ready? && cl.slot.inb)))
    && (cl.slot.Ready? ==> cl.slot.inb || cl.slot.outb)
    && (cl.slot.Ready? && cl.slot.inb ==> cl.reg.interest == In && x.outbox != [])
    && (cl.slot.Ready? && cl.slot.outb ==> cl.reg.interest == Out)
    // a count is only written after something came back
    && (cl.reg.interest == Out || cl.cnt > 0 ==> x.got != [])
    // while the client waits for input, some byte of its own is still on its way back
    && (cl.greeted && cl.reg.interest == In ==> |x.sent| > |x.got|)
  }

  ghost predicate ClientsInv(p: Pair) {
    forall c :: c in p.clients ==> c < |p.s.k.conns| && ClientOk(p.clients[c], p.s.k.conns[c])
  }

  ghost predicate PInv(p: Pair) {
    Inv(p.s) && ClientsInv(p)
  }

  lemma PrefixNulFree(whole: seq<Byte>, front: seq<Byte>)
    requires front <= whole && 0 !in whole
    ensures 0 !in front
  {
  }

  /** What the client wrote holds no NUL, so every byte of it is accounted for. */
  lemma NulFreeConn(x: Conn, parked: seq<Byte>)
    requires ConnOk(x, parked) && 0 !in x.sent
    ensures x.sent == x.got + x.outbox + x.down + parked + x.inbox + x.up
    ensures Echo(x.chunks) == Flatten(x.chunks)
    ensures |x.sent| >= |x.got| && (x.sent != x.got ==> |x.sent| > |x.got|)
  {
    assert x.sent == Flatten(x.chunks) + (x.inbox + x.up);
    PrefixNulFree(x.sent, Flatten(x.chunks));
    EchoIsLossless(x.chunks);
  }

  lemma ClientConserved(p: Pair, c: nat)
    requires PInv(p) && c in p.clients
    ensures c < |p.s.k.conns| && ClientOk(p.clients[c], p.s.k.conns[c])
    ensures var x := p.s.k.conns[c];
      && 0 !in x.sent && x.phase != Closed && ConnOk(x, Parked(p.s, x))
      && x.sent == x.got + x.outbox + x.down + Parked(p.s, x) + x.inbox + x.up
  {
    var x := p.s.k.conns[c];
    assert ConnOk(x, Parked(p.s, x));
    ClientNulFree(p.clients[c], x);
    NulFreeConn(x, Parked(p.s, x));
  }

  lemma ClientNulFree(cl: Client, x: Conn)
    requires ClientOk(cl, x)
    ensures 0 !in x.sent
  {
  }

  /** The client's end of a connection. */
  predicate SameEnd(x: Conn, x': Conn) {
    x'.sent == x.sent && x'.got == x.got && x'.outbox == x.outbox && x'.fin == x.fin
  }

  lemma DispatchLeavesClient(s: Sys, newFd: int, n: nat, c: nat)
    requires s.batch != [] && c < |s.k.conns|
    ensures c < |DispatchStep(s, newFd, n).k.conns|
    ensures SameEnd(s.k.conns[c], DispatchStep(s, newFd, n).k.conns[c])
  {
    var fd := s.batch[0].fd;
    if fd == s.k.listener {
      var (k, _) := Accept(s.k, newFd);
      assert SameEnd(s.k.conns[c], k.conns[c]);
    } else if s.batch[0].inb {
      var (k, chunk) := Recv(s.k, fd, n);
      assert SameEnd(s.k.conns[c], k.conns[c]);
      assert CtlMod(k, fd, Out).conns == k.conns;
      if chunk == [] { assert SameEnd(k.conns[c], CloseFd(CtlDel(k, fd), fd).conns[c]); }
    } else {
      assert SameEnd(s.k.conns[c], SendTo(s.k, fd, CStr(At(s.m, fd))).conns[c]);
    }
  }

  /** The server, the network to it and other clients leave the client's end alone. */
  lemma OthersLeaveClient(p: Pair, a: Action, c: nat)
    requires Foreign(p, a) && Enabled(p.s, a) && c in p.clients && c < |p.s.k.conns|
    ensures c < |Next(p.s, a).k.conns| && SameEnd(p.s.k.conns[c], Next(p.s, a).k.conns[c])
  {
    if a.Dispatch? {
      DispatchLeavesClient(p.s, a.newFd, a.n, c);
    }
  }

  lemma NextCount(cnt: nat)
    ensures (HELLO + Counted(cnt)) + Digits(cnt) == HELLO + Counted(cnt + 1)
  {
    assert (HELLO + Counted(cnt)) + Digits(cnt) == HELLO + (Counted(cnt) + Digits(cnt));
  }

  lemma Sends(cl: Client, x: Conn, c: nat, parked: seq<Byte>)
    requires ClientOk(cl, x) && ConnOk(x, parked) && cl.slot.Ready? && !cl.slot.inb
    ensures ClientOk(cl.(slot := Empty, cnt := cl.cnt + 1, reg := Reg(In, false, true)),
                     Moved(x, ClientSend(c, Digits(cl.cnt))))
  {
    NextCount(cl.cnt);
    ClientNulFree(cl, x);
    NulFreeConn(x, parked);
  }

  lemma Receives(cl: Client, x: Conn, c: nat, n: nat)
    requires ClientOk(cl, x) && cl.slot.Ready? && cl.slot.inb && 1 <= n <= |x.outbox|
    ensures ClientOk(cl.(slot := Empty, reg := Reg(Out, false, true)), Moved(x, ClientRecv(c, n)))
  {
  }

  lemma Greets(cl: Client, x: Conn, parked: seq<Byte>)
    requires ClientOk(cl, x) && ConnOk(x, parked) && !cl.greeted
    ensures ClientOk(cl.(greeted := true), Moved(x, ClientSend(0, HELLO)))
  {
    assert [] + HELLO == HELLO + Counted(0);
    ClientNulFree(cl, x);
    NulFreeConn(x, parked);
  }

  /** What a handled event does to both ends. */
  lemma Handled(p: Pair, c: nat, n: nat)
    requires MoveEnabled(p, Handle(c, n))
    ensures var x, cl, p' := p.s.k.conns[c], p.clients[c], Play(p, Handle(c, n));
      && c < |p'.s.k.conns|
      && (cl.slot.inb && x.outbox != [] ==>
            && p'.s.k.conns[c] == Moved(x, ClientRecv(c, n))
            && p'.clients[c] == cl.(slot := Empty, reg := Reg(Out, false, true)))
      && (!cl.slot.inb && cl.slot.outb ==>
            && p'.s.k.conns[c] == Moved(x, ClientSend(c, Digits(cl.cnt)))
            && p'.clients[c] == cl.(slot := Empty, cnt := cl.cnt + 1, reg := Reg(In, false, true)))
  {
  }

  lemma HandledOk(cl: Client, x: Conn, cl': Client, x': Conn, c: nat, n: nat, parked: seq<Byte>)
    requires ClientOk(cl, x) && ConnOk(x, parked) && cl.slot.Ready?
    requires cl.slot.inb ==>
      && 1 <= n <= |x.outbox| && x' == Moved(x, ClientRecv(c, n))
      && cl' == cl.(slot := Empty, reg := Reg(Out, false, true))
    requires !cl.slot.inb ==>
      && x' == Moved(x, ClientSend(c, Digits(cl.cnt)))
      && cl' == cl.(slot := Empty, cnt := cl.cnt + 1, reg := Reg(In, false, true))
    ensures ClientOk(cl', x')
  {
    if cl.slot.inb { Receives(cl, x, c, n); } else { Sends(cl, x, c, parked); }
  }

  lemma HandleOk(p: Pair, c: nat, n: nat, parked: seq<Byte>)
    requires MoveEnabled(p, Handle(c, n))
    requires ClientOk(p.clients[c], p.s.k.conns[c]) && ConnOk(p.s.k.conns[c], parked)
    ensures var p' := Play(p, Handle(c, n)); c < |p'.s.k.conns| && ClientOk(p'.clients[c], p'.s.k.conns[c])
  {
    var p' := Play(p, Handle(c, n));
    Handled(p, c, n);
    HandledOk(p.clients[c], p.s.k.conns[c], p'.clients[c], p'.s.k.conns[c], c, n, parked);
  }

  lemma GreetOk(p: Pair, c: nat, parked: seq<Byte>)
    requires MoveEnabled(p, Greet(c))
    requires ClientOk(p.clients[c], p.s.k.conns[c]) && ConnOk(p.s.k.conns[c], parked)
    ensures var p' := Play(p, Greet(c)); c < |p'.s.k.conns| && ClientOk(p'.clients[c], p'.s.k.conns[c])
  {
    Greets(p.clients[c], p.s.k.conns[c], parked);
  }

  lemma DeliverOk(p: Pair, c: nat, n: nat)
    requires MoveEnabled(p, Deliver(c, n)) && ClientOk(p.clients[c], p.s.k.conns[c])
    ensures var p' := Play(p, Deliver(c, n)); c < |p'.s.k.conns| && ClientOk(p'.clients[c], p'.s.k.conns[c])
  {
    assert Play(p, Deliver(c, n)).s.k.conns[c] == Moved(p.s.k.conns[c], Return(c, n));
  }

  lemma WaitOk(p: Pair, m: Move)
    requires m.ClientWait? && MoveEnabled(p, m)
    requires ClientOk(p.clients[m.c], p.s.k.conns[m.c]) && p.s.k.conns[m.c].phase != Closed
    ensures var p' := Play(p, m); m.c < |p'.s.k.conns| && ClientOk(p'.clients[m.c], p'.s.k.conns[m.c])
  {
  }

  /** The client that moves. */
  lemma MoverOk(p: Pair, m: Move, parked: seq<Byte>)
    requires MoveEnabled(p, m) && !m.Join? && !m.Else?
    requires ClientOk(p.clients[m.c], p.s.k.conns[m.c]) && ConnOk(p.s.k.conns[m.c], parked)
    requires p.s.k.conns[m.c].phase != Closed
    ensures m.c < |Play(p, m).s.k.conns| && ClientOk(Play(p, m).clients[m.c], Play(p, m).s.k.conns[m.c])
  {
    if m.Greet? { GreetOk(p, m.c, parked); }
    else if m.ClientWait? { WaitOk(p, m); }
    else if m.Handle? { HandleOk(p, m.c, m.n, parked); }
    else { DeliverOk(p, m.c, m.n); }
  }

  lemma SameEndOk(cl: Client, x: Conn, x': Conn)
    requires ClientOk(cl, x) && SameEnd(x, x')
    ensures ClientOk(cl, x')
  {
  }

  /** The clients that do not. */
  lemma OthersStay(p: Pair, m: Move, c: nat)
    requires MoveEnabled(p, m) && Present(p, c) && (m.Join? || m.Else? || m.c != c)
    ensures Play(p, m).clients[c] == p.clients[c]
    ensures c < |Play(p, m).s.k.conns| && SameEnd(p.s.k.conns[c], Play(p, m).s.k.conns[c])
  {
    if m.Else? { OthersLeaveClient(p, m.a, c); }
  }

  lemma ServerSide(p: Pair, m: Move, below: seq<Action>)
    requires MoveEnabled(p, m) && below == Below(p, m)
    ensures below != [] ==> Enabled(p.s, below[0])
    ensures Play(p, m).s == if below == [] then p.s else Next(p.s, below[0])
  {
  }

  lemma MoveKeepsServer(p: Pair, m: Move)
    requires Inv(p.s) && MoveEnabled(p, m)
    ensures Inv(Play(p, m).s)
  {
    var below := Below(p, m);
    ServerSide(p, m, below);
    if below != [] { StepInv(p.s, below[0]); }
  }

  /** Any client after any move. */
  lemma ClientAfter(p: Pair, m: Move, c: nat, parked: seq<Byte>)
    requires MoveEnabled(p, m) && Present(p, c) && p.s.k.conns[c].phase != Closed
    requires ClientOk(p.clients[c], p.s.k.conns[c]) && ConnOk(p.s.k.conns[c], parked)
    ensures c in Play(p, m).clients && c < |Play(p, m).s.k.conns|
    ensures ClientOk(Play(p, m).clients[c], Play(p, m).s.k.conns[c])
  {
    if m.Join? || m.Else? || m.c != c {
      OthersStay(p, m, c);
      SameEndOk(p.clients[c], p.s.k.conns[c], Play(p, m).s.k.conns[c]);
    } else {
      MoverOk(p, m, parked);
    }
  }

  lemma Newcomer(p: Pair, m: Move, c: nat)
    requires MoveEnabled(p, m) && c in Play(p, m).clients && c !in p.clients
    ensures c < |Play(p, m).s.k.conns| && ClientOk(Play(p, m).clients[c], Play(p, m).s.k.conns[c])
  {
  }

  lemma ClientStep(p: Pair, m: Move, c: nat)
    requires PInv(p) && MoveEnabled(p, m) && c in Play(p, m).clients
    ensures c < |Play(p, m).s.k.conns| && ClientOk(Play(p, m).clients[c], Play(p, m).s.k.conns[c])
  {
    if c in p.clients {
      ClientConserved(p, c);
      ClientAfter(p, m, c, Parked(p.s, p.s.k.conns[c]));
    } else {
      Newcomer(p, m, c);
    }
  }

  lemma MoveKeepsClients(p: Pair, m: Move)
    requires PInv(p) && MoveEnabled(p, m)
    ensures ClientsInv(Play(p, m))
  {
    forall c | c in Play(p, m).clients
      ensures c < |Play(p, m).s.k.conns| && ClientOk(Play(p, m).clients[c], Play(p, m).s.k.conns[c])
    {
      ClientStep(p, m, c);
    }
  }

  /** Every enabled move keeps the invariant. */
  lemma MoveInvariant(p: Pair, m: Move)
    requires PInv(p) && MoveEnabled(p, m)
    ensures PInv(Play(p, m))
  {
    MoveKeepsClients(p, m);
    MoveKeepsServer(p, m);
  }

  lemma {:induction false} PlayInv(p: Pair, moves: seq<Move>)
    requires PInv(p) && Plays(p, moves)
    ensures PInv(Played(p, moves))
    decreases |moves|
  {
    if moves != [] {
      MoveInvariant(p, moves[0]);
      PlayInv(Play(p, moves[0]), moves[1..]);
    }
  }
}
