/** The accept queue behind the edge-triggered listener: who gets out of it, when, and who never does. */
module EpollBacklog {
  import opened Streams
  import opened EpollKernel
  import opened EpollServer
  import opened EpollTheorems

  function Arrivals(acts: seq<Action>): nat {
    if acts == [] then 0 else (if acts[0] == World(Connect) then 1 else 0) + Arrivals(acts[1..])
  }

  /** With nothing due at the listener only a new connection changes that, or the accept queue. */
  lemma QuietStep(s: Sys, a: Action)
    requires Inv(s) && Quiet(s) && Enabled(s, a) && a != World(Connect)
    ensures Next(s, a).k.queue == s.k.queue && Quiet(Next(s, a))
  {
    match a
    case World(e) =>
      QuietEnv(s, e);
    case Wait(events) =>
      forall i | 0 <= i < |events| ensures events[i].fd != s.k.listener {
        assert Reportable(s.k, events[i]);
      }
    case Dispatch(newFd, n) =>
      HeadFacts(s);
      assert s.batch[0].fd != s.k.listener;
      PopPending(s.batch, s.k.listener);
  }

  lemma QuietEnv(s: Sys, e: Env)
    requires FilesInv(s.k) && Quiet(s) && EnvEnabled(s.k, e) && e != Connect
    ensures Next(s, World(e)).k.queue == s.k.queue && Quiet(Next(s, World(e)))
  {
  }

  lemma {:induction false} QuietRun(s: Sys, more: seq<Action>)
    requires Inv(s) && Quiet(s) && Runs(s, more) && Arrivals(more) == 0
    ensures Exec(s, more).k.queue == s.k.queue && Quiet(Exec(s, more))
    decreases |more|
  {
    if more != [] {
      QuietStep(s, more[0]);
      StepInv(s, more[0]);
      QuietRun(Next(s, more[0]), more[1..]);
    }
  }

  /** A connection left behind in the accept queue stays there until another client comes: the reads,
      echoes, closes and waits of everyone else change nothing for it. */
  lemma NobodyComesNobodyIsAccepted(listener: nat, limit: nat, acts: seq<Action>, more: seq<Action>)
    requires Runs(Init(listener, limit), acts) && Quiet(After(listener, limit, acts))
    requires Runs(After(listener, limit, acts), more) && Arrivals(more) == 0
    ensures Exec(After(listener, limit, acts), more).k.queue == After(listener, limit, acts).k.queue
    ensures Quiet(Exec(After(listener, limit, acts), more))
  {
    AfterInv(listener, limit, acts);
    QuietRun(After(listener, limit, acts), more);
  }

  /** How many connections are in front of c in the accept queue; negative once c has left it. */
  function Ahead(k: Kernel, c: nat): int {
    c - (|k.conns| - |k.queue|)
  }

  lemma QueuedIsAhead(k: Kernel, c: nat)
    requires QueueInv(k) && Fifo(k) && c < |k.conns|
    ensures k.conns[c].phase == Queued <==> Ahead(k, c) >= 0
  {
    if Ahead(k, c) >= 0 { assert k.queue[Ahead(k, c)] == c; }
  }

  // ---- the full queue ----

  /** No report of the listener is due, and with the accept queue full none ever comes. */
  ghost predicate Dead(s: Sys) {
    Quiet(s) && |s.k.queue| >= s.k.limit
  }

  lemma LimitStays(s: Sys, a: Action)
    requires Enabled(s, a)
    ensures Next(s, a).k.limit == s.k.limit
  {
  }

  lemma OnlyArrivalsAddConns(s: Sys, a: Action)
    requires Enabled(s, a)
    ensures |Next(s, a).k.conns| == |s.k.conns| + if a == World(Connect) then 1 else 0
  {
  }

  lemma {:induction false} DeadRun(s: Sys, more: seq<Action>)
    requires Inv(s) && Dead(s) && Runs(s, more)
    ensures Dead(Exec(s, more)) && Exec(s, more).k.queue == s.k.queue && |Exec(s, more).k.conns| == |s.k.conns|
    decreases |more|
  {
    if more != [] {
      QuietStep(s, more[0]);
      LimitStays(s, more[0]);
      OnlyArrivalsAddConns(s, more[0]);
      StepInv(s, more[0]);
      DeadRun(Next(s, more[0]), more[1..]);
    }
  }

  /** A full queue behind a quiet listener is the end: whatever happens, nobody comes and nobody who
      waits is ever accepted. */
  lemma DeadForever(listener: nat, limit: nat, acts: seq<Action>, more: seq<Action>)
    requires Runs(Init(listener, limit), acts) && Dead(After(listener, limit, acts))
    requires Runs(After(listener, limit, acts), more)
    ensures var s, s' := After(listener, limit, acts), Exec(After(listener, limit, acts), more);
      Dead(s') && s'.k.queue == s.k.queue && |s'.k.conns| == |s.k.conns|
  {
    AfterInv(listener, limit, acts);
    DeadRun(After(listener, limit, acts), more);
  }

  /** It takes a failed accept to get there. */
  lemma DeadOnlyAfterRefusal(listener: nat, limit: nat, acts: seq<Action>)
    requires Runs(Init(listener, limit), acts) && Dead(After(listener, limit, acts))
    ensures After(listener, limit, acts).h.refused > 0
  {
    AfterInv(listener, limit, acts);
  }

  // ---- a schedule that lets a connection in ----

  predicate Armed(s: Sys) {
    s.k.listener in s.k.regs && s.k.regs[s.k.listener].armed
  }

  /** A report of the listener is due or being dispatched. */
  predicate Due(s: Sys) {
    Armed(s) || Pending(s, s.k.listener)
  }

  /** Dispatching the head event: accept takes newFd, recv takes what fits. */
  function ServeHead(s: Sys, newFd: int): Action
    requires s.batch != []
  {
    var fd := s.batch[0].fd;
    Dispatch(newFd, if Owns(s.k, fd) then Min(|s.k.conns[s.k.files[fd]].inbox|, BUFFER) else 0)
  }

  /** Work off the batch, let a client come if the listener is not armed, and report the listener. */
  function AdmitStep(s: Sys, newFd: int): Action {
    if s.batch != [] then ServeHead(s, newFd)
    else if !Armed(s) then World(Connect)
    else Wait([Event(s.k.listener, true, false)])
  }

  lemma {:induction false} Above(fds: set<int>) returns (fd: nat)
    ensures forall g :: g in fds ==> g < fd
  {
    fd := 0;
    if g: int :| g in fds {
      var rest := Above(fds - {g});
      fd := if g < rest then rest else g + 1;
      assert fds == fds - {g} + {g};
    }
  }

  /** Any other event than the listener's leaves the accept queue and the listener as they were. */
  lemma OtherHead(s: Sys, newFd: int, n: nat)
    requires Inv(s) && Enabled(s, Dispatch(newFd, n)) && s.batch[0].fd != s.k.listener
    ensures var s' := DispatchStep(s, newFd, n);
      && s'.k.queue == s.k.queue && |s'.k.conns| == |s.k.conns|
      && Armed(s') == Armed(s) && Pending(s', s.k.listener) == Pending(s, s.k.listener)
  {
    HeadFacts(s);
    PopPending(s.batch, s.k.listener);
  }

  lemma ListenerHead(s: Sys, newFd: int, n: nat)
    requires Inv(s) && Enabled(s, Dispatch(newFd, n)) && s.batch[0].fd == s.k.listener
    requires Free(s.k, newFd) && s.k.queue != []
    ensures var s' := DispatchStep(s, newFd, n);
      && s'.k.queue == s.k.queue[1..] && |s'.k.conns| == |s.k.conns|
      && s'.k.conns[s.k.queue[0]].phase == Open(newFd)
  {
  }

  lemma ListenerReport(s: Sys)
    requires Inv(s) && s.batch == [] && Armed(s) && s.k.queue != []
    ensures var a := Wait([Event(s.k.listener, true, false)]);
      && Enabled(s, a) && Next(s, a).k.queue == s.k.queue && Next(s, a).k.conns == s.k.conns
      && Next(s, a).k.listener == s.k.listener && Pending(Next(s, a), s.k.listener)
  {
    var e := Event(s.k.listener, true, false);
    assert Reportable(s.k, e);
    assert Next(s, Wait([e])).batch[0] == e;
  }

  predicate Accepted(k: Kernel, c: nat) {
    c < |k.conns| && k.conns[c].phase.Open?
  }

  /** The arrivals it still takes to accept c. */
  function Owed(s: Sys, c: nat): int {
    Ahead(s.k, c) + if Due(s) then 0 else 1
  }

  /** Fewer connections in front, or a report of the listener further on its way. */
  predicate Lower(s: Sys, s': Sys, c: nat) {
    var had, has := Pending(s, s.k.listener), Pending(s', s'.k.listener);
    || Ahead(s'.k, c) < Ahead(s.k, c)
    || (Ahead(s'.k, c) == Ahead(s.k, c) &&
        (|| (has && !had)
         || (has == had && |s'.batch| < |s.batch|)
         || (has == had && |s'.batch| == |s.batch| && Armed(s') && !Armed(s))))
  }

  /** One step on the way: c is accepted, or comes nearer to it. */
  ghost predicate Admits(s: Sys, a: Action, s': Sys, c: nat) {
    && c < |s'.k.conns| && !Dead(s')
    && (Ahead(s'.k, c) < 0 ==> Accepted(s'.k, c) && a != World(Connect) && Ahead(s.k, c) == 0)
    && (Ahead(s'.k, c) >= 0 ==> Lower(s, s', c) && Owed(s', c) + Arrivals([a]) <= Owed(s, c))
  }

  /** Connection c waits in a queue that is not dead. */
  ghost predicate Waits(s: Sys, c: nat) {
    Inv(s) && Fifo(s.k) && c < |s.k.conns| && Ahead(s.k, c) >= 0 && !Dead(s)
  }

  lemma AdmitDispatch(s: Sys, c: nat, newFd: int)
    requires Waits(s, c) && Free(s.k, newFd) && s.batch != []
    ensures Enabled(s, ServeHead(s, newFd)) && Admits(s, ServeHead(s, newFd), Next(s, ServeHead(s, newFd)), c)
  {
    var a := ServeHead(s, newFd);
    HeadFacts(s);
    assert Enabled(s, a);
    LimitStays(s, a);
    if s.batch[0].fd == s.k.listener { ListenerHead(s, newFd, a.n); } else { OtherHead(s, newFd, a.n); }
    AdmitByDispatch(s, a, Next(s, a), c);
  }

  lemma AdmitByDispatch(s: Sys, a: Action, s': Sys, c: nat)
    requires Fifo(s.k) && c < |s.k.conns| == |s'.k.conns| && Ahead(s.k, c) >= 0 && a.Dispatch?
    requires s.batch != [] && |s'.batch| < |s.batch| && s'.k.listener == s.k.listener
    requires s.k.listener in s.k.regs && !Dead(s) && |s.k.queue| <= s.k.limit == s'.k.limit
    requires s'.k.queue == s.k.queue ==>
      Armed(s') == Armed(s) && Pending(s', s.k.listener) == Pending(s, s.k.listener)
    requires s'.k.queue == s.k.queue
      || (Pending(s, s.k.listener) && s'.k.queue == s.k.queue[1..] && Accepted(s'.k, s.k.queue[0]))
    ensures Admits(s, a, s', c)
  {
    assert Arrivals([a]) == 0;
  }

  lemma AdmitReport(s: Sys, c: nat)
    requires Waits(s, c) && s.batch == [] && Armed(s)
    ensures var a := Wait([Event(s.k.listener, true, false)]); Enabled(s, a) && Admits(s, a, Next(s, a), c)
  {
    var a := Wait([Event(s.k.listener, true, false)]);
    ListenerReport(s);
    AdmitByReport(s, a, Next(s, a), c);
  }

  lemma AdmitByReport(s: Sys, a: Action, s': Sys, c: nat)
    requires c < |s.k.conns| && Ahead(s.k, c) >= 0 && a.Wait? && s.batch == []
    requires s'.k.queue == s.k.queue && s'.k.conns == s.k.conns && Pending(s', s'.k.listener)
    ensures Admits(s, a, s', c)
  {
    assert Arrivals([a]) == 0;
  }

  lemma AdmitArrival(s: Sys, c: nat)
    requires Fifo(s.k) && c < |s.k.conns| && Ahead(s.k, c) >= 0 && s.batch == [] && !Armed(s)
    requires s.k.listener in s.k.regs && !Dead(s)
    ensures Enabled(s, World(Connect)) && Admits(s, World(Connect), Next(s, World(Connect)), c)
  {
    assert Arrivals([World(Connect)]) == 1;
  }

  lemma AdmitStepWorks(s: Sys, c: nat, newFd: int)
    requires Waits(s, c) && Free(s.k, newFd)
    ensures Enabled(s, AdmitStep(s, newFd)) && Admits(s, AdmitStep(s, newFd), Next(s, AdmitStep(s, newFd)), c)
  {
    if s.batch != [] {
      AdmitDispatch(s, c, newFd);
    } else if Armed(s) {
      AdmitReport(s, c);
    } else {
      AdmitArrival(s, c);
    }
  }

  lemma FreeFd(k: Kernel) returns (fd: int)
    ensures Free(k, fd)
  {
    fd := Above(k.files.Keys + {k.listener});
    assert k.listener in k.files.Keys + {k.listener};
  }

  /** The step, and what it leaves to do. */
  lemma AdmitOne(s: Sys, c: nat) returns (a: Action)
    requires Waits(s, c)
    ensures Enabled(s, a) && (a == World(Connect) || !a.World?) && Admits(s, a, Next(s, a), c)
    ensures Ahead(Next(s, a).k, c) >= 0 ==> Waits(Next(s, a), c)
  {
    var newFd := FreeFd(s.k);
    a := AdmitStep(s, newFd);
    AdmitStepWorks(s, c, newFd);
    StepInv(s, a);
    QueueStep(s, a);
  }

  lemma RunFirst(s: Sys, a: Action, rest: seq<Action>)
    requires Enabled(s, a) && Runs(Next(s, a), rest)
    ensures Runs(s, [a] + rest) && Exec(s, [a] + rest) == Exec(Next(s, a), rest)
    ensures Arrivals([a] + rest) == Arrivals([a]) + Arrivals(rest)
  {
    assert ([a] + rest)[1..] == rest && [a][1..] == [];
  }

  /** Arrivals, waits and dispatches alone bring a waiting connection in, unless the queue is dead. */
  lemma {:induction false} Admit(s: Sys, c: nat) returns (acts: seq<Action>)
    requires Waits(s, c)
    ensures Runs(s, acts) && Arrivals(acts) <= Owed(s, c)
    ensures forall a :: a in acts ==> a == World(Connect) || !a.World?
    ensures Accepted(Exec(s, acts).k, c)
    decreases Ahead(s.k, c), if Pending(s, s.k.listener) then 0 else 1, |s.batch|, if Armed(s) then 0 else 1
  {
    var a := AdmitOne(s, c);
    var rest: seq<Action> := [];
    if Ahead(Next(s, a).k, c) >= 0 { rest := Admit(Next(s, a), c); }
    acts := [a] + rest;
    RunFirst(s, a, rest);
  }

  lemma {:induction false} EveryArrivalIsAConn(s: Sys, more: seq<Action>)
    requires Runs(s, more)
    ensures |Exec(s, more).k.conns| == |s.k.conns| + Arrivals(more)
    decreases |more|
  {
    if more != [] {
      OnlyArrivalsAddConns(s, more[0]);
      EveryArrivalIsAConn(Next(s, more[0]), more[1..]);
    }
  }

  lemma QuietQueueGrows(s: Sys, more: seq<Action>)
    requires Inv(s) && Quiet(s) && Runs(s, more)
    ensures |Exec(s, more).k.queue| >= |s.k.queue|
  {
    BacklogGrows(s, more);
    RunInv(s, more);
  }

  /** Nobody overtakes: c is accepted only after as many arrivals as there are connections in front of it. */
  lemma NeedsArrivals(s: Sys, more: seq<Action>, c: nat)
    requires Inv(s) && Fifo(s.k) && Quiet(s) && Runs(s, more) && Accepted(Exec(s, more).k, c)
    ensures Ahead(s.k, c) < Arrivals(more)
  {
    RunInv(s, more);
    QueueIsSuffix(s, more);
    QueuedIsAhead(Exec(s, more).k, c);
    EveryArrivalIsAConn(s, more);
    QuietQueueGrows(s, more);
  }

  /** Some run with at most n arrivals gets c accepted. */
  ghost predicate AcceptedWithin(s: Sys, c: nat, n: nat) {
    exists more :: Runs(s, more) && Arrivals(more) <= n && Accepted(Exec(s, more).k, c)
  }

  lemma DeadAcceptsNobody(s: Sys, c: nat, n: nat)
    requires Inv(s) && Fifo(s.k) && Dead(s) && c < |s.k.conns| && Ahead(s.k, c) >= 0
    ensures !AcceptedWithin(s, c, n)
  {
    forall more | Runs(s, more) ensures !Accepted(Exec(s, more).k, c) {
      DeadRun(s, more);
      RunInv(s, more);
      QueueIsSuffix(s, more);
      QueuedIsAhead(Exec(s, more).k, c);
    }
  }

  lemma WithinIsAhead(s: Sys, c: nat, n: nat)
    requires Waits(s, c) && Quiet(s)
    ensures AcceptedWithin(s, c, n) <==> Ahead(s.k, c) < n
  {
    if AcceptedWithin(s, c, n) {
      var more :| Runs(s, more) && Arrivals(more) <= n && Accepted(Exec(s, more).k, c);
      NeedsArrivals(s, more, c);
    }
    if Ahead(s.k, c) < n {
      var more := Admit(s, c);
      assert Runs(s, more) && Arrivals(more) <= n && Accepted(Exec(s, more).k, c);
    }
  }

  /** Once the listener is quiet, a waiting connection can be accepted within n further arrivals exactly
      if fewer than n connections are in front of it and the queue still has room: an arrival lets in
      the front of the queue. */
  lemma AcceptedAfterArrivals(listener: nat, limit: nat, acts: seq<Action>, c: nat, n: nat)
    requires Runs(Init(listener, limit), acts) && Quiet(After(listener, limit, acts))
    requires var k := After(listener, limit, acts).k; c < |k.conns| && k.conns[c].phase == Queued
    ensures var s := After(listener, limit, acts);
      AcceptedWithin(s, c, n) <==> Ahead(s.k, c) < n && |s.k.queue| < s.k.limit
  {
    AfterInv(listener, limit, acts);
    QueueIsSuffix(Init(listener, limit), acts);
    var s := After(listener, limit, acts);
    QueuedIsAhead(s.k, c);
    if Dead(s) { DeadAcceptsNobody(s, c, n); } else { WithinIsAhead(s, c, n); }
  }

  /** In any reachable state, a waiting connection can still be accepted exactly unless a full queue
      sits behind a quiet listener. */
  lemma AdmittedUnlessDead(listener: nat, limit: nat, acts: seq<Action>, c: nat)
    requires Runs(Init(listener, limit), acts)
    requires var k := After(listener, limit, acts).k; c < |k.conns| && k.conns[c].phase == Queued
    ensures var s := After(listener, limit, acts); (exists n :: AcceptedWithin(s, c, n)) <==> !Dead(s)
  {
    AfterInv(listener, limit, acts);
    QueueIsSuffix(Init(listener, limit), acts);
    var s := After(listener, limit, acts);
    QueuedIsAhead(s.k, c);
    if Dead(s) {
      forall n ensures !AcceptedWithin(s, c, n) { DeadAcceptsNobody(s, c, n); }
    } else {
      var more := Admit(s, c);
      assert AcceptedWithin(s, c, Arrivals(more));
    }
  }
}
