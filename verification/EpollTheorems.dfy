/** What the epoll server guarantees after every schedule of kernel, network and clients. */
module EpollTheorems {
  import opened Streams
  import opened EpollKernel
  import opened EpollServer

  /** The state after the schedule acts, starting from the registered listener. */
  ghost function After(listener: nat, limit: nat, acts: seq<Action>): Sys
    requires Runs(Init(listener, limit), acts)
  {
    Exec(Init(listener, limit), acts)
  }

  lemma AfterInv(listener: nat, limit: nat, acts: seq<Action>)
    requires Runs(Init(listener, limit), acts)
    ensures Inv(After(listener, limit, acts))
  {
    InitInv(listener, limit);
    RunInv(Init(listener, limit), acts);
  }

  // ---- bytes ----

  /** Every byte the client wrote is read back, on a wire, in a buffer or parked in the map, in order. */
  ghost predicate Conserved(s: Sys, x: Conn) {
    x.sent == x.got + x.outbox + x.down + Parked(s, x) + x.inbox + x.up
  }

  /** Conservation holds of a connection exactly while the server has read no NUL byte from it. */
  lemma ByteConservation(listener: nat, limit: nat, acts: seq<Action>, c: nat)
    requires Runs(Init(listener, limit), acts) && c < |After(listener, limit, acts).k.conns|
    ensures var s := After(listener, limit, acts); var x := s.k.conns[c];
      Conserved(s, x) <==> 0 !in Flatten(x.chunks)
  {
    AfterInv(listener, limit, acts);
    var s := After(listener, limit, acts);
    var x := s.k.conns[c];
    assert ConnOk(x, Parked(s, x));
    EchoIsLossless(x.chunks);
    assert x.got + x.outbox + x.down + Parked(s, x) + x.inbox + x.up == Echo(x.chunks) + x.inbox + x.up;
    if Conserved(s, x) {
      assert |Flatten(x.chunks) + x.inbox + x.up| == |Echo(x.chunks) + x.inbox + x.up|;
    }
  }

  /** So a client that writes no NUL loses nothing, however the stream is cut. */
  lemma NulFreeClientLosesNothing(listener: nat, limit: nat, acts: seq<Action>, c: nat)
    requires Runs(Init(listener, limit), acts) && c < |After(listener, limit, acts).k.conns|
    requires 0 !in After(listener, limit, acts).k.conns[c].sent
    ensures var s := After(listener, limit, acts); Conserved(s, s.k.conns[c])
  {
    ByteConservation(listener, limit, acts, c);
    AfterInv(listener, limit, acts);
    var s := After(listener, limit, acts);
    var x := s.k.conns[c];
    assert ConnOk(x, Parked(s, x));
    forall b | b in Flatten(x.chunks) ensures b in x.sent {
      var i :| 0 <= i < |Flatten(x.chunks)| && Flatten(x.chunks)[i] == b;
      assert x.sent[i] == b;
    }
  }

  /** The server closes only after the client did, and by then has read and echoed everything. */
  lemma ClosesOnlyWhenDone(listener: nat, limit: nat, acts: seq<Action>, c: nat)
    requires Runs(Init(listener, limit), acts) && c < |After(listener, limit, acts).k.conns|
    requires After(listener, limit, acts).k.conns[c].phase == Closed
    ensures var x := After(listener, limit, acts).k.conns[c];
      x.fin && x.sent == Flatten(x.chunks) && x.got + x.outbox + x.down == Echo(x.chunks)
  {
    AfterInv(listener, limit, acts);
    var s := After(listener, limit, acts);
    var x := s.k.conns[c];
    assert ConnOk(x, Parked(s, x)) && Parked(s, x) == [];
    assert x.sent == Flatten(x.chunks) + [] + [];
  }

  // ---- what each kind of event does, in every reachable state ----

  /** The next event of the batch, when it is not the listener's, is for the connection x open as fd. */
  ghost predicate HeadIs(s: Sys, fd: int, x: Conn) {
    && s.batch != [] && s.batch[0].fd == fd && fd != s.k.listener
    && Owns(s.k, fd) && s.k.conns[s.k.files[fd]] == x
  }

  /** A hang-up: EPOLLIN with nothing left to read closes the descriptor and forgets its registration;
      everything else stays as it was, and the map keeps its entry. */
  lemma HangupCloses(listener: nat, limit: nat, acts: seq<Action>, newFd: int, n: nat, fd: int, x: Conn)
    requires Runs(Init(listener, limit), acts)
    requires var s := After(listener, limit, acts);
      Enabled(s, Dispatch(newFd, n)) && HeadIs(s, fd, x) && s.batch[0].inb && x.inbox == []
    ensures var s := After(listener, limit, acts); var s' := DispatchStep(s, newFd, n);
      && fd !in s'.k.files && fd !in s'.k.regs
      && s'.k.conns == s.k.conns[s.k.files[fd] := x.(phase := Closed)]
      && s'.k.files == s.k.files - {fd} && s'.k.regs == s.k.regs - {fd}
      && s'.k.queue == s.k.queue && s'.k.listener == s.k.listener && s'.k.limit == s.k.limit
      && s'.batch == s.batch[1..] && s'.m == s.m[fd := if fd in s.m then s.m[fd] else []]
  {
    AfterInv(listener, limit, acts);
    HeadFacts(After(listener, limit, acts));
  }

  /** A message: the bytes recv hands over leave the stream, their C string is parked under the
      descriptor, and the descriptor asks for EPOLLOUT, level triggered. */
  lemma MessageIsParked(listener: nat, limit: nat, acts: seq<Action>, newFd: int, n: nat, fd: int, x: Conn)
    requires Runs(Init(listener, limit), acts)
    requires var s := After(listener, limit, acts);
      Enabled(s, Dispatch(newFd, n)) && HeadIs(s, fd, x) && s.batch[0].inb && x.inbox != []
    ensures n <= |x.inbox|
    ensures var s := After(listener, limit, acts); var s' := DispatchStep(s, newFd, n);
      && s'.k == s.k.(conns := s.k.conns[s.k.files[fd] :=
           x.(inbox := x.inbox[n..], chunks := x.chunks + [x.inbox[..n]])],
           regs := s.k.regs[fd := Reg(Out, false, true)])
      && s'.batch == s.batch[1..] && s'.m == s.m[fd := CStr(x.inbox[..n])]
  {
    AfterInv(listener, limit, acts);
    HeadFacts(After(listener, limit, acts));
    ReadStep(After(listener, limit, acts), newFd, n);
  }

  /** A turn to write: the latest chunk goes back and the descriptor asks for EPOLLIN, level triggered. */
  lemma MessageIsEchoed(listener: nat, limit: nat, acts: seq<Action>, newFd: int, n: nat, fd: int, x: Conn)
    requires Runs(Init(listener, limit), acts)
    requires var s := After(listener, limit, acts);
      Enabled(s, Dispatch(newFd, n)) && HeadIs(s, fd, x) && !s.batch[0].inb && s.batch[0].outb
    ensures x.chunks != []
    ensures var s := After(listener, limit, acts); var s' := DispatchStep(s, newFd, n);
      && s'.k == s.k.(conns := s.k.conns[s.k.files[fd] :=
           x.(down := x.down + CStr(x.chunks[|x.chunks| - 1]))],
           regs := s.k.regs[fd := Reg(In, false, true)])
      && s'.batch == s.batch[1..] && s'.m == s.m
  {
    AfterInv(listener, limit, acts);
    HeadFacts(After(listener, limit, acts));
  }

  /** The listener: the first waiting connection opens under the number accept returns, edge triggered,
      or the call fails and nothing changes. */
  lemma FirstIsAccepted(listener: nat, limit: nat, acts: seq<Action>, newFd: int, n: nat)
    requires Runs(Init(listener, limit), acts)
    requires var s := After(listener, limit, acts);
      Enabled(s, Dispatch(newFd, n)) && s.batch[0].fd == s.k.listener
    ensures var s := After(listener, limit, acts); s.k.queue != [] && s.k.queue[0] < |s.k.conns|
    ensures var s := After(listener, limit, acts); var s' := DispatchStep(s, newFd, n); var c := s.k.queue[0];
      && (newFd == -1 ==> s'.k == s.k)
      && (newFd != -1 ==>
            s'.k == s.k.(conns := s.k.conns[c := s.k.conns[c].(phase := Open(newFd))], queue := s.k.queue[1..],
              files := s.k.files[newFd := c], regs := s.k.regs[newFd := Reg(In, true, true)]))
      && s'.batch == s.batch[1..] && s'.m == s.m
  {
    AfterInv(listener, limit, acts);
    HeadFacts(After(listener, limit, acts));
  }

  /** An event with neither bit is only taken off the batch. */
  lemma EmptyEventIsSkipped(listener: nat, limit: nat, acts: seq<Action>, newFd: int, n: nat, fd: int, x: Conn)
    requires Runs(Init(listener, limit), acts)
    requires var s := After(listener, limit, acts);
      Enabled(s, Dispatch(newFd, n)) && HeadIs(s, fd, x) && !s.batch[0].inb && !s.batch[0].outb
    ensures var s := After(listener, limit, acts); DispatchStep(s, newFd, n) == s.(batch := s.batch[1..])
  {
  }

  /** New data and a hang-up arm the registration of an open connection; a new connection the listener's. */
  lemma NewInputArms(k: Kernel, e: Env)
    requires EnvEnabled(k, e)
    ensures e.Connect? && k.listener in k.regs ==> EnvStep(k, e).regs[k.listener].armed
    ensures (e.Arrive? || e.ArriveEof?) && k.conns[e.c].phase.Open? && k.conns[e.c].phase.fd in k.regs ==>
      EnvStep(k, e).regs[k.conns[e.c].phase.fd].armed
  {
  }

  /** recv hands over any cut of what has arrived, up to the 1023 bytes of the buffer, and nothing else. */
  lemma AnyCutIsReceived(k: Kernel, fd: int, n: nat)
    requires Owns(k, fd)
    ensures var x, r := k.conns[k.files[fd]], Recv(k, fd, n);
      && (r.1 != [] <==> 1 <= n <= |x.inbox| && n <= 1023)
      && (r.1 != [] ==> r.1 + r.0.conns[k.files[fd]].inbox == x.inbox && |r.1| == n)
  {
  }

  /** epoll_wait may return any distinct reportable events, up to the 1000 of the array. */
  lemma AnyBatchIsReturned(s: Sys, events: seq<Event>)
    requires s.batch == [] && Distinct(events) && forall i :: 0 <= i < |events| ==> Reportable(s.k, events[i])
    ensures Enabled(s, Wait(events)) <==> |events| <= 1000
  {
  }

  // ---- descriptor reuse ----

  /** Whatever Send is given was received by this very connection, in its latest recv. */
  lemma NoStaleEcho(listener: nat, limit: nat, acts: seq<Action>, newFd: int, n: nat)
    requires Runs(Init(listener, limit), acts)
    requires var s := After(listener, limit, acts);
      Enabled(s, Dispatch(newFd, n)) && s.batch[0].fd != s.k.listener && !s.batch[0].inb && s.batch[0].outb
    ensures var s := After(listener, limit, acts); var s' := DispatchStep(s, newFd, n); var fd := s.batch[0].fd;
      && Owns(s.k, fd)
      && var c := s.k.files[fd]; var x := s.k.conns[c];
      && x.phase == Open(fd) && x.chunks != []
      && s'.k.conns == s.k.conns[c := x.(down := x.down + CStr(x.chunks[|x.chunks| - 1]))]
  {
    AfterInv(listener, limit, acts);
    HeadFacts(After(listener, limit, acts));
  }

  /** Every event still to be dispatched belongs to the listener or to a connection that was open
      under the same descriptor when the batch was gathered and has not been closed since. */
  lemma BatchSafety(listener: nat, limit: nat, acts: seq<Action>, i: nat)
    requires Runs(Init(listener, limit), acts) && i < |After(listener, limit, acts).batch|
    requires After(listener, limit, acts).batch[i].fd != listener
    ensures var s := After(listener, limit, acts); var fd := s.batch[i].fd;
      && fd in s.k.files && fd in s.h.gathered && s.h.gathered[fd] == s.k.files[fd]
      && Owns(s.k, fd) && s.k.conns[s.k.files[fd]].phase == Open(fd)
  {
    AfterInv(listener, limit, acts);
    ListenerStays(Init(listener, limit), acts);
    assert EventOk(After(listener, limit, acts), After(listener, limit, acts).batch[i]);
  }

  lemma {:induction false} ListenerStays(s: Sys, acts: seq<Action>)
    requires Runs(s, acts)
    ensures Exec(s, acts).k.listener == s.k.listener
    decreases |acts|
  {
    if acts != [] {
      ListenerStays(Next(s, acts[0]), acts[1..]);
    }
  }

  /** Two open connections never share a descriptor, and the accept queue is first in, first out
      over every connection not yet accepted. */
  lemma NothingForgotten(listener: nat, limit: nat, acts: seq<Action>, c: nat, d: nat)
    requires Runs(Init(listener, limit), acts)
    requires var k := After(listener, limit, acts).k; c < d < |k.conns|
    ensures var k := After(listener, limit, acts).k;
      && (k.conns[c].phase.Open? ==> k.conns[c].phase != k.conns[d].phase)
      && (k.conns[c].phase == Queued ==> k.conns[d].phase == Queued)
      && (k.conns[c].phase == Queued <==> c in k.queue)
  {
    AfterInv(listener, limit, acts);
    QueueIsSuffix(Init(listener, limit), acts);
    var k := After(listener, limit, acts).k;
    if k.conns[c].phase == Queued {
      var i :| 0 <= i < |k.queue| && k.queue[i] == c;
      assert k.queue[i + (d - c)] == d;
    }
  }

  /** The queue holds the last connections to arrive, in order. */
  ghost predicate Fifo(k: Kernel) {
    |k.queue| <= |k.conns| && forall i :: 0 <= i < |k.queue| ==> k.queue[i] == |k.conns| - |k.queue| + i
  }

  lemma {:induction false} QueueIsSuffix(s: Sys, acts: seq<Action>)
    requires Inv(s) && Fifo(s.k) && Runs(s, acts)
    ensures Fifo(Exec(s, acts).k)
    decreases |acts|
  {
    if acts != [] {
      StepInv(s, acts[0]);
      QueueStep(s, acts[0]);
      QueueIsSuffix(Next(s, acts[0]), acts[1..]);
    }
  }

  lemma QueueStep(s: Sys, a: Action)
    requires Fifo(s.k) && Enabled(s, a)
    ensures Fifo(Next(s, a).k)
  {
    var k, k' := s.k, Next(s, a).k;
    assert |k'.conns| - |k.conns| == if a == World(Connect) then 1 else 0;
    assert k'.queue == (if a == World(Connect) then k.queue + [|k.conns|] else k.queue)
      || (k.queue != [] && |k'.conns| == |k.conns| && k'.queue == k.queue[1..]);
  }

  // ---- nobody is left waiting ----

  /** An open connection with something to read is in the batch already or can be reported now, and
      one that waits to be written to can always be reported: the edge never gets lost. */
  lemma NoStall(listener: nat, limit: nat, acts: seq<Action>, fd: int)
    requires Runs(Init(listener, limit), acts) && fd in After(listener, limit, acts).k.files
    ensures var s := After(listener, limit, acts);
      && fd in s.k.regs
      && (s.k.regs[fd].interest == Out ==> Reportable(s.k, Event(fd, false, true)))
      && (s.k.regs[fd].interest == In && Readable(s.k, fd) ==>
            Pending(s, fd) || Reportable(s.k, Event(fd, true, false)))
  {
    AfterInv(listener, limit, acts);
    var s := After(listener, limit, acts);
    assert RegOk(s, fd);
  }

  // ---- the edge-triggered listener ----

  /** No report of the listener is due or being dispatched. */
  ghost predicate Quiet(s: Sys) {
    s.k.listener in s.k.regs && !s.k.regs[s.k.listener].armed && !Pending(s, s.k.listener)
  }

  lemma {:induction false} ExcessIsZero(edges: seq<nat>)
    requires forall i :: 0 <= i < |edges| ==> edges[i] > 0
    ensures Excess(edges) >= 0
    ensures Excess(edges) == 0 <==> forall i :: 0 <= i < |edges| ==> edges[i] == 1
  {
    if edges != [] {
      var front := edges[..|edges| - 1];
      ExcessIsZero(front);
      assert forall i :: 0 <= i < |front| ==> front[i] == edges[i];
    }
  }

  /** Once the reports are served, connections stay behind in the accept queue exactly when some
      report stood for two or more of them, or an accept failed. */
  lemma StrandedExactlyWhen(listener: nat, limit: nat, acts: seq<Action>)
    requires Runs(Init(listener, limit), acts) && Quiet(After(listener, limit, acts))
    ensures var s := After(listener, limit, acts);
      && |s.k.queue| == Excess(s.h.edges) + s.h.refused
      && (s.k.queue == [] <==> s.h.refused == 0 && forall i :: 0 <= i < |s.h.edges| ==> s.h.edges[i] == 1)
  {
    AfterInv(listener, limit, acts);
    ExcessIsZero(After(listener, limit, acts).h.edges);
  }

  /** A backlog once built up is never worked off, whatever happens afterwards. */
  lemma BacklogIsForever(listener: nat, limit: nat, acts: seq<Action>, more: seq<Action>)
    requires Runs(Init(listener, limit), acts) && Runs(After(listener, limit, acts), more)
    ensures var s := After(listener, limit, acts);
      |Exec(s, more).k.queue| >= Excess(s.h.edges) + s.h.refused
  {
    AfterInv(listener, limit, acts);
    BacklogGrows(After(listener, limit, acts), more);
    RunInv(After(listener, limit, acts), more);
  }

  lemma BacklogStep(s: Sys, a: Action)
    requires Enabled(s, a) && ListenInv(Next(s, a))
    ensures Excess(Next(s, a).h.edges) + Next(s, a).h.refused >= Excess(s.h.edges) + s.h.refused
  {
    var h, h' := s.h, Next(s, a).h;
    if h'.edges != h.edges {
      assert h'.edges[..|h'.edges| - 1] == h.edges;
      assert h'.edges[|h.edges|] > 0;
    }
  }

  lemma {:induction false} BacklogGrows(s: Sys, more: seq<Action>)
    requires Inv(s) && Runs(s, more)
    ensures Excess(Exec(s, more).h.edges) + Exec(s, more).h.refused >= Excess(s.h.edges) + s.h.refused
    decreases |more|
  {
    if more != [] {
      StepInv(s, more[0]);
      BacklogStep(s, more[0]);
      BacklogGrows(Next(s, more[0]), more[1..]);
    }
  }
}
