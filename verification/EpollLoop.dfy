/** The epoll programs themselves, as loops over mutable state. */
module EpollLoop {
  import opened Streams
  import opened EpollKernel
  import opened EpollServer
  import opened EpollTheorems
  import opened PingPong
  import opened Decimal

  /** server.cpp: the map of parked texts, the event array and the position in it. */
  class Server {
    var kernel: Kernel
    var m: map<int, seq<Byte>>
    var v: seq<Event>
    var i: nat
    ghost var h: History

    ghost predicate Valid()
      reads this
    {
      i <= |v|
    }

    ghost function State(): Sys
      reads this
      requires Valid()
    {
      Sys(kernel, m, v[i..], h)
    }

    constructor (listenFd: nat, limit: nat)
      ensures Valid() && i == |v| && State() == Init(listenFd, limit)
    {
      kernel := Kernel(listenFd, limit, [], [], map[], map[]);
      m, v, i, h := map[], [], 0, History(map[], 0, [], 0);
      new;
      AddFd(listenFd);
    }

    method AddFd(fd: int)
      modifies this`kernel
      ensures kernel == CtlAdd(old(kernel), fd)
    {
      kernel := CtlAdd(kernel, fd);
    }

    method AcceptFd(newFd: int) returns (fd: int)
      modifies this`kernel
      ensures (kernel, fd) == Accept(old(kernel), newFd)
    {
      var r := Accept(kernel, newFd);
      kernel, fd := r.0, r.1;
    }

    /** Stores what arrived under m[fd], as a C string; on failure m[fd] only comes into being. */
    method PrintReceiveMessage(fd: int, n: nat) returns (ok: bool)
      modifies this`kernel, this`m
      ensures var (k, chunk) := Recv(old(kernel), fd, n);
        && kernel == k && ok == (chunk != [])
        && m == old(m)[fd := if ok then CStr(chunk) else if fd in old(m) then old(m)[fd] else []]
    {
      m := m[fd := At(m, fd)];
      var (k, buf) := Recv(kernel, fd, n);
      kernel := k;
      if buf == [] {
        return false;
      }
      m := m[fd := CStr(buf)];
      return true;
    }

    /** The bytes before the first NUL follow what is already on the way to the descriptor's connection;
        nothing else changes, and nothing at all if the descriptor is not open. */
    method Send(fd: int, s: seq<Byte>)
      modifies this`kernel
      ensures kernel == old(kernel).(conns := kernel.conns) && |kernel.conns| == |old(kernel).conns|
      ensures forall c :: 0 <= c < |kernel.conns| && !(Owns(old(kernel), fd) && old(kernel).files[fd] == c) ==>
                kernel.conns[c] == old(kernel).conns[c]
      ensures Owns(old(kernel), fd) ==>
        var x, x' := old(kernel).conns[old(kernel).files[fd]], kernel.conns[old(kernel).files[fd]];
        x' == x.(down := x'.down) && x'.down == x.down + CStr(s)
    {
      kernel := SendTo(kernel, fd, CStr(s));
    }

    /** The body of the for loop, for the event at i. */
    method Dispatch(newFd: int, n: nat)
      requires Valid() && i < |v|
      modifies this
      ensures Valid() && v == old(v) && i == old(i) + 1
      ensures State() == DispatchStep(old(State()), newFd, n)
    {
      assert v[i..][0] == v[i] && v[i..][1..] == v[i + 1..];
      var fd := v[i].fd;
      if fd == kernel.listener {
        var acceptFd := AcceptFd(newFd);
        AddFd(acceptFd);
        h := if acceptFd == -1 then h.(refused := h.refused + 1) else h;
      } else if v[i].inb {
        var ok := PrintReceiveMessage(fd, n);
        if ok {
          kernel := CtlMod(kernel, fd, EpollKernel.Out);
        } else {
          kernel := CtlDel(kernel, fd);
          kernel := CloseFd(kernel, fd);
        }
      } else if v[i].outb {
        m := m[fd := At(m, fd)];
        ghost var before := kernel;
        Send(fd, m[fd]);
        assert kernel.conns == SendTo(before, fd, CStr(m[fd])).conns;
        kernel := CtlMod(kernel, fd, EpollKernel.In);
      }
      i := i + 1;
    }

    /** epoll_wait returns; the for loop starts over. */
    method EpollWait(events: seq<Event>)
      requires Valid() && i == |v| && Enabled(State(), Wait(events))
      modifies this
      ensures Valid() && v == events && i == 0 && State() == Next(old(State()), Wait(events))
    {
      h := Next(State(), Wait(events)).h;
      kernel := Disarm(kernel, events);
      v, i := events, 0;
    }

    /** The program has reached position j of the schedule acts and will end in goal. */
    ghost predicate OnCourse(acts: seq<Action>, j: nat, goal: Sys)
      reads this
    {
      Valid() && j <= |acts| && Runs(State(), acts[j..]) && Exec(State(), acts[j..]) == goal
    }

    /** While the program is blocked or busy the world moves, up to the program's next step. */
    method Meanwhile(acts: seq<Action>, j: nat, ghost goal: Sys) returns (next: nat)
      requires OnCourse(acts, j, goal)
      modifies this`kernel, this`h
      ensures j <= next && OnCourse(acts, next, goal) && (next == |acts| || !acts[next].World?)
    {
      next := j;
      while next < |acts| && acts[next].World?
        invariant j <= next && OnCourse(acts, next, goal)
      {
        FirstStep(State(), acts, next);
        h := if acts[next].env.Connect? then h.(burst := h.burst + 1) else h;
        kernel := EnvStep(kernel, acts[next].env);
        next := next + 1;
      }
    }

    /** The main loop around the for loop. The schedule says what the world does and what the system
        calls return; which call comes next is up to the loops. It may end anywhere. */
    method Serve(acts: seq<Action>)
      requires Valid() && i == |v| && Runs(State(), acts)
      modifies this
      ensures Valid() && State() == Exec(old(State()), acts)
    {
      ghost var goal := Exec(State(), acts);
      assert acts[0..] == acts;
      var j := Meanwhile(acts, 0, goal);
      while j < |acts|
        invariant OnCourse(acts, j, goal) && (j == |acts| || (!acts[j].World? && i == |v|))
      {
        FirstStep(State(), acts, j);
        assert acts[j].Wait?;
        EpollWait(acts[j].events);
        j := Meanwhile(acts, j + 1, goal);
        j := HandleBatch(acts, j, goal);
      }
    }

    /** The for loop over the reported events. */
    method HandleBatch(acts: seq<Action>, j: nat, ghost goal: Sys) returns (next: nat)
      requires OnCourse(acts, j, goal) && (j == |acts| || !acts[j].World?)
      modifies this
      ensures j <= next && OnCourse(acts, next, goal) && (next == |acts| || !acts[next].World?)
      ensures next == |acts| || i == |v|
    {
      next := j;
      while i < |v|
        invariant j <= next && OnCourse(acts, next, goal) && (next == |acts| || !acts[next].World?)
        decreases |v| - i
      {
        if next == |acts| {
          return;
        }
        FirstStep(State(), acts, next);
        assert acts[next].Dispatch?;
        Dispatch(acts[next].newFd, acts[next].n);
        next := Meanwhile(acts, next + 1, goal);
      }
    }
  }

  /** The next step of a schedule, and what it leaves to do. */
  lemma FirstStep(s: Sys, acts: seq<Action>, j: nat)
    requires j < |acts| && Runs(s, acts[j..])
    ensures Enabled(s, acts[j]) && Runs(Next(s, acts[j]), acts[j + 1..])
    ensures Exec(s, acts[j..]) == Exec(Next(s, acts[j]), acts[j + 1..])
  {
    assert acts[j..][0] == acts[j] && acts[j..][1..] == acts[j + 1..];
  }

  /** The program from start to any point of any schedule: no byte of a NUL-free client is lost. */
  method Program(listenFd: nat, limit: nat, acts: seq<Action>) returns (server: Server)
    requires Runs(Init(listenFd, limit), acts)
    ensures fresh(server) && server.Valid() && server.State() == After(listenFd, limit, acts)
    ensures forall c :: 0 <= c < |server.kernel.conns| && 0 !in server.kernel.conns[c].sent ==>
              Conserved(server.State(), server.kernel.conns[c])
  {
    server := new Server(listenFd, limit);
    server.Serve(acts);
    forall c | 0 <= c < |server.kernel.conns| && 0 !in server.kernel.conns[c].sent
      ensures Conserved(server.State(), server.kernel.conns[c])
    {
      NulFreeClientLosesNothing(listenFd, limit, acts, c);
    }
  }

  /** client.cpp: the registration of its one descriptor, the slot it works on and its counter. */
  class ClientProgram {
    const c: nat
    var greeted: bool
    var reg: Reg
    var slot: Slot
    var cnt: nat

    function State(): Client
      reads this
    {
      Client(greeted, reg, slot, cnt)
    }

    /** Connected and registered, edge triggered. */
    constructor (c: nat)
      ensures State() == Client(false, Reg(EpollKernel.In, true, true), Empty, 0) && this.c == c
    {
      this.c, greeted, reg, slot, cnt := c, false, Reg(EpollKernel.In, true, true), Empty, 0;
    }

    method ModFd(op: Interest)
      modifies this`reg
      ensures reg == Reg(op, false, true)
    {
      reg := Reg(op, false, true);
    }

    /** The body of the for loop; k is the kernel before the call and k' after it. */
    method Handle(k: Kernel, n: nat, ghost p: Pair) returns (k': Kernel)
      requires p.s.k == k && Present(p, c) && p.clients[c] == State()
      requires MoveEnabled(p, PingPong.Handle(c, n))
      modifies this
      ensures k' == Play(p, PingPong.Handle(c, n)).s.k
      ensures State() == Play(p, PingPong.Handle(c, n)).clients[c]
    {
      k' := k;
      if slot.inb {
        if k.conns[c].outbox != [] {
          k' := EnvStep(k, ClientRecv(c, n));
          ModFd(EpollKernel.Out);
        }
      } else if slot.outb {
        k' := EnvStep(k, ClientSend(c, Digits(cnt)));
        cnt := cnt + 1;
        ModFd(EpollKernel.In);
      }
      slot := Empty;
    }
  }
}
