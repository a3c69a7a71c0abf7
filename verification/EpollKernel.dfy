/** The part of the kernel an epoll program talks to: connections, descriptors, registrations. */
module EpollKernel {
  import opened Streams

  datatype Phase = Queued | Open(fd: int) | Closed

  /** One connection, from the client's connect to the server's close. */
  datatype Conn = Conn(
    phase: Phase,
    sent: seq<Byte>,          // everything the client has written
    up: seq<Byte>,            // client to server, on the network
    inbox: seq<Byte>,         // arrived, not yet read by the server
    fin: bool,                // the client has closed its side
    eof: bool,                // and the server's kernel knows
    chunks: seq<seq<Byte>>,   // what each successful recv of the server returned
    down: seq<Byte>,          // server to client, on the network
    outbox: seq<Byte>,        // arrived, not yet read by the client
    got: seq<Byte>)           // everything the client has read

  const FRESH := Conn(Queued, [], [], [], false, false, [], [], [], [])

  datatype Interest = In | Out

  /** A registration; one that is edge triggered reports only while armed. */
  datatype Reg = Reg(interest: Interest, edge: bool, armed: bool)

  datatype Event = Event(fd: int, inb: bool, outb: bool)

  datatype Kernel = Kernel(
    listener: int,
    limit: nat,               // how many connections may wait for accept
    conns: seq<Conn>,         // indexed by connection number, in order of arrival
    queue: seq<nat>,          // established, waiting for accept
    files: map<int, nat>,     // open accepted descriptors
    regs: map<int, Reg>)      // the epoll instance

  predicate Owns(k: Kernel, fd: int) {
    fd in k.files && k.files[fd] < |k.conns|
  }

  function WithConn(k: Kernel, c: nat, conn: Conn): Kernel
    requires c < |k.conns|
  {
    k.(conns := k.conns[c := conn])
  }

  // ---- system calls of the server ----

  /** EPOLL_CTL_ADD for EPOLLIN | EPOLLET; EBADF and EEXIST leave everything as it was. */
  function CtlAdd(k: Kernel, fd: int): Kernel {
    if (fd == k.listener || fd in k.files) && fd !in k.regs
    then k.(regs := k.regs[fd := Reg(In, true, true)]) else k
  }

  /** EPOLL_CTL_MOD without EPOLLET; ENOENT leaves everything as it was. */
  function CtlMod(k: Kernel, fd: int, op: Interest): Kernel {
    if fd in k.regs then k.(regs := k.regs[fd := Reg(op, false, true)]) else k
  }

  function CtlDel(k: Kernel, fd: int): Kernel {
    k.(regs := k.regs - {fd})
  }

  /** close(2) on an accepted descriptor; it also drops the registration. */
  function CloseFd(k: Kernel, fd: int): Kernel {
    if Owns(k, fd) then
      var c := k.files[fd];
      WithConn(k, c, k.conns[c].(phase := Closed)).(files := k.files - {fd}, regs := k.regs - {fd})
    else k
  }

  predicate Free(k: Kernel, fd: int) {
    0 <= fd && fd != k.listener && fd !in k.files
  }

  /** accept(2); the kernel picks a free descriptor, and -1 is a failed call. */
  function Accept(k: Kernel, newFd: int): (r: (Kernel, int)) {
    if k.queue != [] && k.queue[0] < |k.conns| && Free(k, newFd) then
      var c := k.queue[0];
      (WithConn(k, c, k.conns[c].(phase := Open(newFd))).(queue := k.queue[1..], files := k.files[newFd := c]), newFd)
    else (k, -1)
  }

  const BUFFER := 1023

  /** recv(2) of at most BUFFER bytes, of which the stream hands over n; [] stands for n <= 0. */
  function Recv(k: Kernel, fd: int, n: nat): (r: (Kernel, seq<Byte>)) {
    if Owns(k, fd) && 1 <= n <= |k.conns[k.files[fd]].inbox| && n <= BUFFER then
      var c := k.files[fd];
      var x := k.conns[c];
      (WithConn(k, c, x.(inbox := x.inbox[n..], chunks := x.chunks + [x.inbox[..n]])), x.inbox[..n])
    else (k, [])
  }

  /** send(2) that takes every byte. */
  function SendTo(k: Kernel, fd: int, s: seq<Byte>): Kernel {
    if Owns(k, fd) then
      var x := k.conns[k.files[fd]];
      WithConn(k, k.files[fd], x.(down := x.down + s))
    else k
  }

  predicate Readable(k: Kernel, fd: int) {
    if fd == k.listener then k.queue != []
    else Owns(k, fd) && (k.conns[k.files[fd]].inbox != [] || k.conns[k.files[fd]].eof)
  }

  /** What epoll_wait may put in one slot of its array. */
  predicate Reportable(k: Kernel, e: Event) {
    && e.fd in k.regs
    && (e.inb || e.outb ==> k.regs[e.fd].edge ==> k.regs[e.fd].armed)
    && (e.inb ==> k.regs[e.fd].interest == In && Readable(k, e.fd))
    && (e.outb ==> k.regs[e.fd].interest == Out)
    && (e.fd == k.listener ==> e.inb)
  }

  predicate Reports(events: seq<Event>, fd: int) {
    exists i :: 0 <= i < |events| && events[i].fd == fd && (events[i].inb || events[i].outb)
  }

  /** Reporting disarms the edge-triggered registrations. */
  function Disarm(k: Kernel, events: seq<Event>): Kernel {
    k.(regs := map fd | fd in k.regs ::
      if k.regs[fd].edge && Reports(events, fd) then k.regs[fd].(armed := false) else k.regs[fd])
  }

  // ---- everything else that can happen: the network and the clients ----

  datatype Env =
    | Connect
    | ClientSend(c: nat, s: seq<Byte>)
    | Arrive(c: nat, n: nat)
    | ArriveEof(c: nat)
    | Return(c: nat, n: nat)
    | ClientRecv(c: nat, n: nat)
    | ClientClose(c: nat)

  predicate EnvEnabled(k: Kernel, e: Env) {
    match e
    case Connect => |k.queue| < k.limit
    case ClientSend(c, _) => c < |k.conns| && !k.conns[c].fin
    case Arrive(c, n) => c < |k.conns| && 1 <= n <= |k.conns[c].up|
    case ArriveEof(c) => c < |k.conns| && k.conns[c].fin && k.conns[c].up == []
    case Return(c, n) => c < |k.conns| && 1 <= n <= |k.conns[c].down|
    case ClientRecv(c, n) => c < |k.conns| && 1 <= n <= |k.conns[c].outbox|
    case ClientClose(c) => c < |k.conns| && !k.conns[c].fin
  }

  function Arm(k: Kernel, fd: int): Kernel {
    if fd in k.regs then k.(regs := k.regs[fd := k.regs[fd].(armed := true)]) else k
  }

  /** New input arms the descriptor the connection is open under, if it has one. */
  function ArmConn(k: Kernel, c: nat): Kernel
    requires c < |k.conns|
  {
    if k.conns[c].phase.Open? then Arm(k, k.conns[c].phase.fd) else k
  }

  /** The connection an environment step touches, after the step. */
  function Moved(x: Conn, e: Env): Conn
    requires !e.Connect?
    requires e.Arrive? ==> e.n <= |x.up|
    requires e.Return? ==> e.n <= |x.down|
    requires e.ClientRecv? ==> e.n <= |x.outbox|
  {
    match e
    case ClientSend(_, s) => x.(sent := x.sent + s, up := x.up + s)
    case Arrive(_, n) => x.(inbox := x.inbox + x.up[..n], up := x.up[n..])
    case ArriveEof(_) => x.(eof := true)
    case Return(_, n) => x.(outbox := x.outbox + x.down[..n], down := x.down[n..])
    case ClientRecv(_, n) => x.(got := x.got + x.outbox[..n], outbox := x.outbox[n..])
    case ClientClose(_) => x.(fin := true)
  }

  function EnvStep(k: Kernel, e: Env): Kernel
    requires EnvEnabled(k, e)
  {
    if e.Connect? then Arm(k.(conns := k.conns + [FRESH], queue := k.queue + [|k.conns|]), k.listener)
    else
      var k' := WithConn(k, e.c, Moved(k.conns[e.c], e));
      if e.Arrive? || e.ArriveEof? then ArmConn(k', e.c) else k'
  }
}
