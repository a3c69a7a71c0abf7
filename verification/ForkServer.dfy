/** The fork server: unboundedly many processes share one listener and each other's connections. */
module ForkServer {

  datatype Obj = Listener | Conn(c: nat)

  /** Where a process stands in the loop; child tells what its last fork returned to it. */
  datatype Pc =
    | AtAccept
    | AtFork(fd: int)
    | AtSend(fd: int)
    | AtRecv(fd: int)
    | AtClose(fd: int, child: bool)

  datatype Proc = Proc(pc: Pc, files: map<int, Obj>)

  datatype Sys = Sys(
    listenFd: int,
    procs: map<nat, Proc>,
    refs: map<Obj, nat>,      // the kernel's count of descriptors for each open socket
    accepted: nat,            // connections are numbered as accepted
    welcomes: seq<nat>,       // connections that were sent the greeting
    forked: set<nat>,         // connections whose fork succeeded
    forks: nat,
    aborts: nat)              // processes that died of assert(accept_fd != -1)

  datatype Action =
    | Accept(p: nat, fd: int)
    | AcceptFails(p: nat)
    | Fork(p: nat, q: nat)
    | ForkFails(p: nat)
    | Send(p: nat)
    | Recv(p: nat)
    | Close(p: nat)

  function Init(listenFd: nat, p: nat): Sys {
    Sys(listenFd, map[p := Proc(AtAccept, map[listenFd := Listener])], map[Listener := 1], 0, [], {}, 0, 0)
  }

  predicate Enabled(s: Sys, a: Action) {
    && a.p in s.procs
    && match a
       case Accept(p, fd) => s.procs[p].pc.AtAccept? && 0 <= fd && fd !in s.procs[p].files
       case AcceptFails(p) => s.procs[p].pc.AtAccept?
       case Fork(p, q) => s.procs[p].pc.AtFork? && q !in s.procs
       case ForkFails(p) => s.procs[p].pc.AtFork?
       case Send(p) => s.procs[p].pc.AtSend?
       case Recv(p) => s.procs[p].pc.AtRecv?
       case Close(p) => s.procs[p].pc.AtClose?
  }

  /** How many descriptors of a table refer to o. */
  function Times(files: map<int, Obj>, o: Obj): nat {
    |set fd | fd in files && files[fd] == o|
  }

  /** fork duplicates every descriptor of the table. */
  function Dup(refs: map<Obj, nat>, files: map<int, Obj>): map<Obj, nat> {
    map o | o in refs :: refs[o] + Times(files, o)
  }

  /** Descriptors of a table go away, by close or because the process ends. */
  function Drop(refs: map<Obj, nat>, files: map<int, Obj>): map<Obj, nat> {
    map o | o in refs :: if refs[o] >= Times(files, o) then refs[o] - Times(files, o) else 0
  }

  function WithProc(s: Sys, p: nat, proc: Proc): Sys {
    s.(procs := s.procs[p := proc])
  }

  /** The connection a descriptor of the process stands for, if it does. */
  function ConnOf(proc: Proc, fd: int): seq<nat> {
    if fd in proc.files && proc.files[fd].Conn? then [proc.files[fd].c] else []
  }

  function Next(s: Sys, a: Action): Sys
    requires Enabled(s, a)
  {
    var x := s.procs[a.p];
    match a
    case Accept(p, fd) =>
      var o := Conn(s.accepted);
      WithProc(s, p, Proc(AtFork(fd), x.files[fd := o])).(refs := s.refs[o := 1], accepted := s.accepted + 1)
    case AcceptFails(p) =>
      s.(procs := s.procs - {p}, refs := Drop(s.refs, x.files), aborts := s.aborts + 1)
    case Fork(p, q) =>
      var fd := x.pc.fd;
      WithProc(WithProc(s, p, x.(pc := AtClose(fd, false))), q, x.(pc := AtSend(fd))).(
        refs := Dup(s.refs, x.files), forks := s.forks + 1, forked := s.forked + set c | c in ConnOf(x, fd))
    case ForkFails(p) => WithProc(s, p, x.(pc := AtClose(x.pc.fd, false)))
    case Send(p) => WithProc(s, p, x.(pc := AtRecv(x.pc.fd))).(welcomes := s.welcomes + ConnOf(x, x.pc.fd))
    case Recv(p) => WithProc(s, p, x.(pc := AtClose(x.pc.fd, true)))
    case Close(p) =>
      var fd := x.pc.fd;
      WithProc(s, p, Proc(AtAccept, x.files - {fd})).(
        refs := Drop(s.refs, map g | g in x.files && g == fd :: x.files[g]))
  }

  ghost predicate Runs(s: Sys, acts: seq<Action>)
    decreases |acts|
  {
    acts == [] || (Enabled(s, acts[0]) && Runs(Next(s, acts[0]), acts[1..]))
  }

  ghost function Exec(s: Sys, acts: seq<Action>): Sys
    requires Runs(s, acts)
    decreases |acts|
  {
    if acts == [] then s else Exec(Next(s, acts[0]), acts[1..])
  }

  // ---- the invariant ----

  /** The processes that have o open. */
  function Holders(s: Sys, o: Obj): set<nat> {
    set p | p in s.procs && exists fd :: fd in s.procs[p].files && s.procs[p].files[fd] == o
  }

  /** A process holds the listener, and beyond the accept one connection, under its local variable. */
  ghost predicate ProcOk(s: Sys, x: Proc) {
    if x.pc.AtAccept? then x.files == map[s.listenFd := Listener]
    else x.pc.fd != s.listenFd && x.pc.fd in x.files && x.files[x.pc.fd].Conn? && x.files[x.pc.fd].c < s.accepted
         && x.files == map[s.listenFd := Listener, x.pc.fd := x.files[x.pc.fd]]
  }

  /** The connection process x works on. */
  function Work(x: Proc): Obj
    requires !x.pc.AtAccept? && x.pc.fd in x.files
  {
    x.files[x.pc.fd]
  }

  /** Did the process get its connection by being forked? */
  predicate IsChild(x: Proc) {
    x.pc.AtSend? || x.pc.AtRecv? || (x.pc.AtClose? && x.pc.child)
  }

  ghost predicate ProcsInv(s: Sys) {
    forall p :: p in s.procs ==> ProcOk(s, s.procs[p])
  }

  ghost predicate RefsInv(s: Sys) {
    && (forall o :: o in s.refs <==> o == Listener || o.c < s.accepted)
    && (forall o :: o in s.refs ==> s.refs[o] == |Holders(s, o)|)
  }

  predicate WorksOn(s: Sys, p: nat, c: nat) {
    p in s.procs && !s.procs[p].pc.AtAccept? && s.procs[p].pc.fd in s.procs[p].files && Work(s.procs[p]) == Conn(c)
  }

  /** At most one accepter and one child work on a connection, and no child before the fork. */
  ghost predicate SharingInv(s: Sys) {
    && (forall p, q, c :: WorksOn(s, p, c) && WorksOn(s, q, c) && IsChild(s.procs[p]) == IsChild(s.procs[q]) ==> p == q)
    && (forall p, q, c :: WorksOn(s, p, c) && WorksOn(s, q, c) && s.procs[p].pc.AtFork? ==> p == q)
  }

  /** A greeting is sent once, by the child, after the fork. */
  ghost predicate WelcomeInv(s: Sys) {
    && (forall i, j :: 0 <= i < j < |s.welcomes| ==> s.welcomes[i] != s.welcomes[j])
    && (forall c :: c in s.welcomes ==> c in s.forked)
    && (forall c :: c in s.forked ==> c < s.accepted)
    && (forall p, c :: WorksOn(s, p, c) && s.procs[p].pc.AtFork? ==> c !in s.forked)
    && (forall p, c :: WorksOn(s, p, c) && s.procs[p].pc.AtSend? ==> c in s.forked && c !in s.welcomes)
    && (forall c :: c in s.forked && c !in s.welcomes ==> exists p :: WorksOn(s, p, c) && s.procs[p].pc.AtSend?)
  }

  ghost predicate CountInv(s: Sys) {
    |s.procs| + s.aborts == 1 + s.forks
  }

  ghost predicate Inv(s: Sys) {
    ProcsInv(s) && RefsInv(s) && SharingInv(s) && WelcomeInv(s) && CountInv(s)
  }

  lemma InitInv(listenFd: nat, p: nat)
    ensures Inv(Init(listenFd, p))
  {
    var s := Init(listenFd, p);
    assert s.procs[p].files[listenFd] == Listener;
    assert Holders(s, Listener) == {p};
  }

  // ---- the steps keep it ----

  lemma NextProcs(s: Sys, a: Action)
    requires ProcsInv(s) && Enabled(s, a)
    ensures ProcsInv(Next(s, a))
  {
    assert ProcOk(s, s.procs[a.p]);
  }

  /** What process p has open: the listener, and the connection it works on. */
  lemma HeldBy(s: Sys, p: nat, o: Obj)
    requires ProcsInv(s) && p in s.procs
    ensures p in Holders(s, o) <==> o == Listener || (o.Conn? && WorksOn(s, p, o.c))
    ensures Times(s.procs[p].files, o) == if p in Holders(s, o) then 1 else 0
  {
    var x := s.procs[p];
    assert ProcOk(s, x);
    var fds := set fd | fd in x.files && x.files[fd] == o;
    if o == Listener {
      assert x.files[s.listenFd] == Listener;
      assert fds == {s.listenFd};
    } else if WorksOn(s, p, o.c) {
      assert x.files[x.pc.fd] == o;
      assert fds == {x.pc.fd};
    } else {
      assert fds == {};
    }
  }

  /** Who holds o after a step. */
  function HoldersThen(s: Sys, a: Action, o: Obj): set<nat> {
    match a
    case Accept(p, _) => if o == Conn(s.accepted) then {p} else Holders(s, o)
    case AcceptFails(p) => Holders(s, o) - {p}
    case Fork(p, q) => if p in Holders(s, o) then Holders(s, o) + {q} else Holders(s, o)
    case Close(p) => if o == Listener then Holders(s, o) else Holders(s, o) - {p}
    case _ => Holders(s, o)
  }

  lemma HoldersAfter(s: Sys, a: Action, o: Obj)
    requires ProcsInv(s) && Enabled(s, a)
    ensures Holders(Next(s, a), o) == HoldersThen(s, a, o)
  {
    var s' := Next(s, a);
    NextProcs(s, a);
    forall r ensures r in Holders(s', o) <==> r in HoldersThen(s, a, o) {
      if r in s.procs { HeldBy(s, r, o); }
      if r in s'.procs { HeldBy(s', r, o); }
      HeldBy(s, a.p, o);
      if r in s.procs { assert ProcOk(s, s.procs[r]); }
      assert ProcOk(s, s.procs[a.p]);
    }
  }

  /** The one descriptor that close works on. */
  lemma ClosedTimes(s: Sys, p: nat, o: Obj)
    requires ProcsInv(s) && p in s.procs && s.procs[p].pc.AtClose?
    ensures var x := s.procs[p];
      Times(map g | g in x.files && g == x.pc.fd :: x.files[g], o) == if Work(x) == o then 1 else 0
  {
    var x := s.procs[p];
    assert ProcOk(s, x);
    var files := map g | g in x.files && g == x.pc.fd :: x.files[g];
    assert files == map[x.pc.fd := Work(x)];
    assert (set fd | fd in files && files[fd] == o) == if Work(x) == o then {x.pc.fd} else {};
  }

  lemma CountAfterClose(s: Sys, p: nat, o: Obj)
    requires ProcsInv(s) && RefsInv(s) && Enabled(s, Close(p)) && o in s.refs
    ensures o in Next(s, Close(p)).refs && Next(s, Close(p)).refs[o] == |HoldersThen(s, Close(p), o)|
  {
    HeldBy(s, p, o);
    ClosedTimes(s, p, o);
    assert ProcOk(s, s.procs[p]);
    if o != Listener && Work(s.procs[p]) != o { assert Holders(s, o) - {p} == Holders(s, o); }
  }

  lemma CountAfterDeath(s: Sys, p: nat, o: Obj)
    requires ProcsInv(s) && RefsInv(s) && Enabled(s, AcceptFails(p)) && o in s.refs
    ensures o in Next(s, AcceptFails(p)).refs && Next(s, AcceptFails(p)).refs[o] == |HoldersThen(s, AcceptFails(p), o)|
  {
    HeldBy(s, p, o);
    if p !in Holders(s, o) { assert Holders(s, o) - {p} == Holders(s, o); }
  }

  lemma CountAfterFork(s: Sys, p: nat, q: nat, o: Obj)
    requires ProcsInv(s) && RefsInv(s) && Enabled(s, Fork(p, q)) && o in s.refs
    ensures o in Next(s, Fork(p, q)).refs && Next(s, Fork(p, q)).refs[o] == |HoldersThen(s, Fork(p, q), o)|
  {
    HeldBy(s, p, o);
    assert q !in Holders(s, o);
  }

  lemma CountAfter(s: Sys, a: Action, o: Obj)
    requires ProcsInv(s) && RefsInv(s) && Enabled(s, a) && o in s.refs
    ensures o in Next(s, a).refs && Next(s, a).refs[o] == |HoldersThen(s, a, o)|
  {
    match a
    case Fork(p, q) => CountAfterFork(s, p, q, o);
    case Close(p) => CountAfterClose(s, p, o);
    case AcceptFails(p) => CountAfterDeath(s, p, o);
    case Accept(_, _) =>
    case ForkFails(_) =>
    case Send(_) =>
    case Recv(_) =>
  }

  lemma NextRefs(s: Sys, a: Action)
    requires ProcsInv(s) && RefsInv(s) && Enabled(s, a)
    ensures RefsInv(Next(s, a))
  {
    var s' := Next(s, a);
    forall o | o in s'.refs ensures s'.refs[o] == |Holders(s', o)| {
      HoldersAfter(s, a, o);
      if o in s.refs { CountAfter(s, a, o); }
    }
  }

  /** What a process works on changes only by its own steps, and a new child works on its parent's. */
  lemma WorkAfter(s: Sys, a: Action, r: nat, c: nat)
    requires ProcsInv(s) && Enabled(s, a)
    ensures WorksOn(Next(s, a), r, c) <==>
      match a
      case Accept(p, _) => if r == p then c == s.accepted else WorksOn(s, r, c)
      case AcceptFails(p) => r != p && WorksOn(s, r, c)
      case Fork(p, q) => if r == q then WorksOn(s, p, c) else WorksOn(s, r, c)
      case Close(p) => r != p && WorksOn(s, r, c)
      case _ => WorksOn(s, r, c)
  {
    if r in s.procs { assert ProcOk(s, s.procs[r]); }
    assert ProcOk(s, s.procs[a.p]);
  }

  lemma NextSharing(s: Sys, a: Action)
    requires ProcsInv(s) && SharingInv(s) && Enabled(s, a)
    ensures SharingInv(Next(s, a))
  {
    var s' := Next(s, a);
    forall p, q, c | WorksOn(s', p, c) && WorksOn(s', q, c)
      ensures IsChild(s'.procs[p]) == IsChild(s'.procs[q]) ==> p == q
      ensures s'.procs[p].pc.AtFork? ==> p == q
    {
      WorkAfter(s, a, p, c);
      WorkAfter(s, a, q, c);
      if p in s.procs { assert ProcOk(s, s.procs[p]); }
      if q in s.procs { assert ProcOk(s, s.procs[q]); }
    }
  }

  /** Who is about to send, after a step: as before, minus the sender, plus a new child. */
  lemma SenderAfter(s: Sys, a: Action, r: nat, c: nat)
    requires ProcsInv(s) && Enabled(s, a)
    ensures var s' := Next(s, a);
      (WorksOn(s', r, c) && s'.procs[r].pc.AtSend?) <==>
        ((a.Fork? && r == a.q && WorksOn(s, a.p, c))
         || (WorksOn(s, r, c) && s.procs[r].pc.AtSend? && !(a.Send? && r == a.p)))
  {
    WorkAfter(s, a, r, c);
    assert ProcOk(s, s.procs[a.p]);
  }

  lemma NextForked(s: Sys, a: Action)
    requires ProcsInv(s) && SharingInv(s) && WelcomeInv(s) && Enabled(s, a)
    ensures var s' := Next(s, a);
      && s'.forked == (if a.Fork? then s.forked + {Work(s.procs[a.p]).c} else s.forked)
      && s'.welcomes == (if a.Send? then s.welcomes + [Work(s.procs[a.p]).c] else s.welcomes)
      && (a.Fork? || a.Send? ==> WorksOn(s, a.p, Work(s.procs[a.p]).c))
  {
    assert ProcOk(s, s.procs[a.p]);
  }

  lemma NextWelcome(s: Sys, a: Action)
    requires ProcsInv(s) && SharingInv(s) && WelcomeInv(s) && Enabled(s, a)
    ensures WelcomeInv(Next(s, a))
  {
    var s' := Next(s, a);
    NextForked(s, a);
    assert ProcOk(s, s.procs[a.p]);
    forall p, c | WorksOn(s', p, c) && s'.procs[p].pc.AtFork? ensures c !in s'.forked {
      WorkAfter(s, a, p, c);
    }
    forall p, c | WorksOn(s', p, c) && s'.procs[p].pc.AtSend? ensures c in s'.forked && c !in s'.welcomes {
      SenderAfter(s, a, p, c);
    }
    forall c | c in s'.forked && c !in s'.welcomes ensures exists p :: WorksOn(s', p, c) && s'.procs[p].pc.AtSend? {
      if a.Fork? && c == Work(s.procs[a.p]).c {
        SenderAfter(s, a, a.q, c);
      } else {
        var p :| WorksOn(s, p, c) && s.procs[p].pc.AtSend?;
        SenderAfter(s, a, p, c);
      }
    }
  }

  /** Every step of every process keeps the invariant. */
  lemma StepInv(s: Sys, a: Action)
    requires Inv(s) && Enabled(s, a)
    ensures Inv(Next(s, a))
  {
    NextProcs(s, a);
    NextRefs(s, a);
    NextSharing(s, a);
    NextWelcome(s, a);
    NextCount(s, a);
  }

  lemma NextCount(s: Sys, a: Action)
    requires CountInv(s) && Enabled(s, a)
    ensures CountInv(Next(s, a))
  {
    var s' := Next(s, a);
    match a
    case AcceptFails(p) => assert s'.procs.Keys == s.procs.Keys - {p}; SizeIsKeys(s); SizeIsKeys(s');
    case Fork(p, q) => assert s'.procs.Keys == s.procs.Keys + {q}; SizeIsKeys(s); SizeIsKeys(s');
    case _ => assert s'.procs.Keys == s.procs.Keys; SizeIsKeys(s); SizeIsKeys(s');
  }

  lemma SizeIsKeys(s: Sys)
    ensures |s.procs| == |s.procs.Keys|
  {
  }

  lemma {:induction false} RunInv(s: Sys, acts: seq<Action>)
    requires Inv(s) && Runs(s, acts)
    ensures Inv(Exec(s, acts))
    decreases |acts|
  {
    if acts != [] {
      StepInv(s, acts[0]);
      RunInv(Next(s, acts[0]), acts[1..]);
    }
  }

  // ---- what that means ----

  ghost function After(listenFd: nat, p: nat, acts: seq<Action>): Sys
    requires Runs(Init(listenFd, p), acts)
  {
    Exec(Init(listenFd, p), acts)
  }

  lemma AfterInv(listenFd: nat, p: nat, acts: seq<Action>)
    requires Runs(Init(listenFd, p), acts)
    ensures Inv(After(listenFd, p, acts))
  {
    InitInv(listenFd, p);
    RunInv(Init(listenFd, p), acts);
  }

  lemma AtMostOne(some: set<nat>)
    requires forall p, q :: p in some && q in some ==> p == q
    ensures |some| <= 1
  {
    if some != {} {
      var p :| p in some;
      assert some == {p};
    }
  }

  /** The kernel's count of a connection is the number of processes that hold it, at most two: the
      accepter and the child. It is released exactly when the last of them has closed it. */
  lemma CountIsHolders(listenFd: nat, p: nat, acts: seq<Action>, c: nat)
    requires Runs(Init(listenFd, p), acts) && c < After(listenFd, p, acts).accepted
    ensures var s := After(listenFd, p, acts);
      Conn(c) in s.refs && s.refs[Conn(c)] == |Holders(s, Conn(c))| <= 2
  {
    AfterInv(listenFd, p, acts);
    var s := After(listenFd, p, acts);
    var all := Holders(s, Conn(c));
    forall q | q in all ensures WorksOn(s, q, c) { HeldBy(s, q, Conn(c)); }
    AtMostTwo(all, set q | q in all && IsChild(s.procs[q]));
  }

  lemma AtMostTwo(all: set<nat>, part: set<nat>)
    requires part <= all
    requires forall p, q :: p in part && q in part ==> p == q
    requires forall p, q :: p in all - part && q in all - part ==> p == q
    ensures |all| <= 2
  {
    AtMostOne(part);
    AtMostOne(all - part);
    assert |all| == |part| + |all - part|;
  }

  /** Without a failed assert, k successful forks leave k + 1 processes, all sharing the listener:
      the child branch never leaves the loop. */
  lemma ForksMakeServers(listenFd: nat, p: nat, acts: seq<Action>)
    requires Runs(Init(listenFd, p), acts)
    ensures var s := After(listenFd, p, acts);
      && |s.procs| + s.aborts == s.forks + 1
      && Holders(s, Listener) == s.procs.Keys
      && Listener in s.refs && s.refs[Listener] == |s.procs|
  {
    AfterInv(listenFd, p, acts);
    var s := After(listenFd, p, acts);
    forall q ensures q in Holders(s, Listener) <==> q in s.procs {
      if q in s.procs { HeldBy(s, q, Listener); }
    }
    SizeIsKeys(s);
  }

  /** A process waiting in accept has the listener open and nothing else. */
  lemma AcceptHoldsOnlyListener(listenFd: nat, p: nat, acts: seq<Action>, q: nat)
    requires Runs(Init(listenFd, p), acts) && q in After(listenFd, p, acts).procs
    requires After(listenFd, p, acts).procs[q].pc == AtAccept
    ensures exists l :: After(listenFd, p, acts).procs[q].files == map[l := Listener]
  {
    AfterInv(listenFd, p, acts);
    var s := After(listenFd, p, acts);
    assert ProcOk(s, s.procs[q]);
  }

  /** No connection is greeted twice, and one that everybody has closed was greeted exactly if its
      fork had succeeded. */
  lemma GreetedOnce(listenFd: nat, p: nat, acts: seq<Action>, c: nat)
    requires Runs(Init(listenFd, p), acts) && c < After(listenFd, p, acts).accepted
    ensures var s := After(listenFd, p, acts);
      && (forall i, j :: 0 <= i < |s.welcomes| && 0 <= j < |s.welcomes| ==>
            (s.welcomes[i] == s.welcomes[j] == c ==> i == j))
      && Conn(c) in s.refs
      && (s.refs[Conn(c)] == 0 ==> (c in s.welcomes <==> c in s.forked))
  {
    AfterInv(listenFd, p, acts);
    var s := After(listenFd, p, acts);
    assert Conn(c) in s.refs;
    if c in s.forked && c !in s.welcomes {
      var q :| WorksOn(s, q, c) && s.procs[q].pc.AtSend?;
      HeldBy(s, q, Conn(c));
      assert s.refs[Conn(c)] != 0;
    }
  }

  /** Process p, in state x, waits in accept with the listener alone, or works on connection c as fd. */
  ghost predicate Working(s: Sys, x: Proc, fd: int, c: nat) {
    fd != s.listenFd && x.files == map[s.listenFd := Listener, fd := Conn(c)]
  }

  lemma AcceptCall(s: Sys, p: nat, fd: int)
    requires Enabled(s, Accept(p, fd)) && ProcOk(s, s.procs[p])
    ensures Next(s, Accept(p, fd)).procs == s.procs[p := Next(s, Accept(p, fd)).procs[p]]
    ensures var x := Next(s, Accept(p, fd)).procs[p]; x.pc == AtFork(fd) && Working(s, x, fd, s.accepted)
    ensures Next(s, Accept(p, fd)).welcomes == s.welcomes
  {
    assert s.listenFd in s.procs[p].files;
  }

  lemma ForkCall(s: Sys, p: nat, q: nat)
    requires Enabled(s, Fork(p, q))
    ensures var x := s.procs[p];
      Next(s, Fork(p, q)).procs
        == s.procs[p := Proc(AtClose(x.pc.fd, false), x.files)][q := Proc(AtSend(x.pc.fd), x.files)]
    ensures Next(s, Fork(p, q)).welcomes == s.welcomes
  {
  }

  lemma SendCall(s: Sys, p: nat, c: nat)
    requires Enabled(s, Send(p)) && Working(s, s.procs[p], s.procs[p].pc.fd, c)
    ensures var x := s.procs[p]; Next(s, Send(p)).procs == s.procs[p := Proc(AtRecv(x.pc.fd), x.files)]
    ensures Next(s, Send(p)).welcomes == s.welcomes + [c]
  {
    assert s.procs[p].files[s.procs[p].pc.fd] == Conn(c);
  }

  lemma CloseCall(s: Sys, p: nat, c: nat)
    requires Enabled(s, Close(p)) && Working(s, s.procs[p], s.procs[p].pc.fd, c)
    ensures Next(s, Close(p)).procs == s.procs[p := Proc(AtAccept, map[s.listenFd := Listener])]
    ensures Next(s, Close(p)).welcomes == s.welcomes
  {
    assert s.procs[p].files - {s.procs[p].pc.fd} == map[s.listenFd := Listener];
  }

  /** What a call does to the process that makes it, in every reachable state: accept opens the next
      connection beside the listener; fork copies the descriptors, sends the child to greet and the
      parent to close; the greeting goes to the child's own connection; close leaves the listener. */
  lemma EachCall(listenFd: nat, p: nat, acts: seq<Action>, a: Action)
    requires Runs(Init(listenFd, p), acts) && Enabled(After(listenFd, p, acts), a)
    ensures CallDone(After(listenFd, p, acts), a, Next(After(listenFd, p, acts), a))
  {
    AfterInv(listenFd, p, acts);
    var s := After(listenFd, p, acts);
    var x := s.procs[a.p];
    assert ProcOk(s, x);
    match a
    case Accept(r, fd) => AcceptCall(s, r, fd);
    case AcceptFails(_) =>
    case Fork(r, q) => ForkCall(s, r, q);
    case ForkFails(_) =>
    case Send(r) => SendCall(s, r, x.files[x.pc.fd].c);
    case Recv(_) =>
    case Close(r) => CloseCall(s, r, x.files[x.pc.fd].c);
  }

  ghost predicate CallDone(s: Sys, a: Action, s': Sys)
    requires a.p in s.procs && (!a.Accept? && !a.AcceptFails? ==> !s.procs[a.p].pc.AtAccept?)
  {
    var x := s.procs[a.p];
    match a
    case Accept(p, fd) =>
      && s'.welcomes == s.welcomes && p in s'.procs && s'.procs == s.procs[p := s'.procs[p]]
      && s'.procs[p].pc == AtFork(fd) && Working(s, s'.procs[p], fd, s.accepted)
    case AcceptFails(p) => s'.welcomes == s.welcomes && s'.procs == s.procs - {p}
    case Fork(p, q) =>
      && s'.welcomes == s.welcomes
      && s'.procs == s.procs[p := Proc(AtClose(x.pc.fd, false), x.files)][q := Proc(AtSend(x.pc.fd), x.files)]
    case ForkFails(p) =>
      s'.welcomes == s.welcomes && s'.procs == s.procs[p := Proc(AtClose(x.pc.fd, false), x.files)]
    case Send(p) =>
      && s'.procs == s.procs[p := Proc(AtRecv(x.pc.fd), x.files)]
      && exists c :: Working(s, x, x.pc.fd, c) && s'.welcomes == s.welcomes + [c]
    case Recv(p) =>
      s'.welcomes == s.welcomes && s'.procs == s.procs[p := Proc(AtClose(x.pc.fd, true), x.files)]
    case Close(p) =>
      s'.welcomes == s.welcomes && s'.procs == s.procs[p := Proc(AtAccept, map[s.listenFd := Listener])]
  }

  // ---- the processes as programs ----

  /** All processes and the kernel; each method is one system call of one process. */
  class Machine {
    const listenFd: int
    var procs: map<nat, Proc>
    var refs: map<Obj, nat>
    var accepted: nat
    var welcomes: seq<nat>
    ghost var forked: set<nat>
    ghost var forks: nat
    ghost var aborts: nat

    ghost function State(): Sys
      reads this
    {
      Sys(listenFd, procs, refs, accepted, welcomes, forked, forks, aborts)
    }

    constructor (listenFd: nat, p: nat)
      ensures State() == Init(listenFd, p)
    {
      this.listenFd, procs, refs := listenFd, map[p := Proc(AtAccept, map[listenFd := Listener])], map[Listener := 1];
      accepted, welcomes, forked, forks, aborts := 0, [], {}, 0, 0;
    }

    method AcceptFd(p: nat, fd: int)
      requires Enabled(State(), if fd == -1 then AcceptFails(p) else Accept(p, fd))
      modifies this
      ensures State() == Next(old(State()), if fd == -1 then AcceptFails(p) else Accept(p, fd))
      ensures fd != -1 ==> p in procs && procs[p].pc == AtFork(fd)
    {
      if fd == -1 {
        refs := Drop(refs, procs[p].files);
        procs := procs - {p};
        aborts := aborts + 1;
      } else {
        procs := procs[p := Proc(AtFork(fd), procs[p].files[fd := Conn(accepted)])];
        refs := refs[Conn(accepted) := 1];
        accepted := accepted + 1;
      }
    }

    /** fork for process p; q is the new process, or p itself when the call fails. */
    method ForkProc(p: nat, q: nat)
      requires Enabled(State(), if q == p then ForkFails(p) else Fork(p, q))
      modifies this
      ensures State() == Next(old(State()), if q == p then ForkFails(p) else Fork(p, q))
      ensures p in procs && procs[p].pc.AtClose? && procs[p].files == old(procs[p].files)
      ensures q != p ==> q in procs && procs[q].pc.AtSend? && procs[q].files == old(procs[p].files)
    {
      var x := procs[p];
      if q != p {
        forked := forked + set c | c in ConnOf(x, x.pc.fd);
        forks := forks + 1;
        refs := Dup(refs, x.files);
        procs := procs[p := x.(pc := AtClose(x.pc.fd, false))];
        procs := procs[q := x.(pc := AtSend(x.pc.fd))];
      } else {
        procs := procs[p := x.(pc := AtClose(x.pc.fd, false))];
      }
    }

    method SendWelcome(p: nat)
      requires Enabled(State(), Send(p))
      modifies this
      ensures State() == Next(old(State()), Send(p))
      ensures p in procs && procs[p].pc.AtRecv?
    {
      var x := procs[p];
      welcomes := welcomes + ConnOf(x, x.pc.fd);
      procs := procs[p := x.(pc := AtRecv(x.pc.fd))];
    }

    method PrintReceiveMessage(p: nat)
      requires Enabled(State(), Recv(p))
      modifies this
      ensures State() == Next(old(State()), Recv(p))
      ensures p in procs && procs[p].pc.AtClose?
    {
      procs := procs[p := procs[p].(pc := AtClose(procs[p].pc.fd, true))];
    }

    method CloseFd(p: nat)
      requires Enabled(State(), Close(p))
      modifies this
      ensures State() == Next(old(State()), Close(p))
      ensures p in procs && procs[p].pc.AtAccept?
    {
      var x := procs[p];
      refs := Drop(refs, map g | g in x.files && g == x.pc.fd :: x.files[g]);
      procs := procs[p := Proc(AtAccept, x.files - {x.pc.fd})];
    }

    method Step(a: Action)
      requires Enabled(State(), a)
      modifies this
      ensures State() == Next(old(State()), a)
    {
      match a {
        case Accept(p, fd) => AcceptFd(p, fd);
        case AcceptFails(p) => AcceptFd(p, -1);
        case Fork(p, q) => ForkProc(p, q);
        case ForkFails(p) => ForkProc(p, p);
        case Send(p) => SendWelcome(p);
        case Recv(p) => PrintReceiveMessage(p);
        case Close(p) => CloseFd(p);
      }
    }

    /** Any interleaving of the system calls of all processes. */
    method Run(acts: seq<Action>)
      requires Runs(State(), acts)
      modifies this
      ensures State() == Exec(old(State()), acts)
    {
      ghost var goal := Exec(State(), acts);
      var i := 0;
      assert acts[0..] == acts;
      while i < |acts|
        invariant OnCourse(acts, i, goal)
      {
        FirstStep(State(), acts, i);
        Step(acts[i]);
        i := i + 1;
      }
    }

    /** The machine has reached position j of the interleaving acts and will end in goal. */
    ghost predicate OnCourse(acts: seq<Action>, j: nat, goal: Sys)
      reads this
    {
      j <= |acts| && Runs(State(), acts[j..]) && Exec(State(), acts[j..]) == goal
    }

    /** The other processes run, up to the next call of process p. */
    method Others(p: nat, acts: seq<Action>, j: nat, ghost goal: Sys) returns (next: nat)
      requires OnCourse(acts, j, goal) && p in procs
      modifies this
      ensures j <= next && OnCourse(acts, next, goal) && (next == |acts| || acts[next].p == p)
      ensures p in procs && procs[p] == old(procs[p])
    {
      next := j;
      while next < |acts| && acts[next].p != p
        invariant j <= next && OnCourse(acts, next, goal)
        invariant p in procs && procs[p] == old(procs[p])
      {
        FirstStep(State(), acts, next);
        Step(acts[next]);
        next := next + 1;
      }
    }

    /** The loop of main as one process executes it, while all others interfere: the first process
        enters at accept, a forked one where fork returned 0. The interleaving says what the calls
        return and when the others run; which call of p comes next is up to the loop. */
    method Process(p: nat, acts: seq<Action>)
      requires p in procs && (procs[p].pc.AtAccept? || procs[p].pc.AtSend?) && Runs(State(), acts)
      modifies this
      ensures State() == Exec(old(State()), acts)
    {
      ghost var goal := Exec(State(), acts);
      assert acts[0..] == acts;
      var child := procs[p].pc.AtSend?;
      var j := Others(p, acts, 0, goal);
      while j < |acts|
        invariant OnCourse(acts, j, goal) && (j == |acts| || acts[j].p == p)
        invariant p in procs && if child then procs[p].pc.AtSend? else procs[p].pc.AtAccept?
      {
        var alive;
        if child {
          alive, j := ChildBranch(p, acts, j, goal);
        } else {
          alive, j := AcceptAndFork(p, acts, j, goal);
        }
        if j == |acts| {
          return;
        }
        if !alive {
          Run(acts[j..]);
          return;
        }
        j := Finish(p, acts, j, goal);
        child := false;
      }
    }

    /** accept, the assert, and fork with a non-zero result; alive is false when the assert failed. */
    method AcceptAndFork(p: nat, acts: seq<Action>, j: nat, ghost goal: Sys) returns (alive: bool, next: nat)
      requires OnCourse(acts, j, goal) && j < |acts| && acts[j].p == p && p in procs && procs[p].pc.AtAccept?
      modifies this
      ensures j < next && OnCourse(acts, next, goal)
      ensures alive && next < |acts| ==> acts[next].p == p && p in procs && procs[p].pc.AtClose?
    {
      FirstStep(State(), acts, j);
      CallOf(State(), acts[j]);
      var acceptFd := if acts[j].Accept? then acts[j].fd else -1;
      AcceptFd(p, acceptFd);
      alive, next := acceptFd != -1, j + 1;
      if alive {
        next := Others(p, acts, next, goal);
        if next < |acts| {
          next := CallFork(p, acts, next, goal);
        }
      }
    }

    method CallFork(p: nat, acts: seq<Action>, j: nat, ghost goal: Sys) returns (next: nat)
      requires OnCourse(acts, j, goal) && j < |acts| && acts[j].p == p && p in procs && procs[p].pc.AtFork?
      modifies this
      ensures j < next && OnCourse(acts, next, goal)
      ensures next < |acts| ==> acts[next].p == p && p in procs && procs[p].pc.AtClose?
    {
      FirstStep(State(), acts, j);
      CallOf(State(), acts[j]);
      ForkProc(p, if acts[j].Fork? then acts[j].q else p);
      next := Others(p, acts, j + 1, goal);
    }

    /** The branch where fork returned 0. */
    method ChildBranch(p: nat, acts: seq<Action>, j: nat, ghost goal: Sys) returns (alive: bool, next: nat)
      requires OnCourse(acts, j, goal) && j < |acts| && acts[j].p == p && p in procs && procs[p].pc.AtSend?
      modifies this
      ensures alive && j < next && OnCourse(acts, next, goal)
      ensures next < |acts| ==> acts[next].p == p && p in procs && procs[p].pc.AtClose?
    {
      FirstStep(State(), acts, j);
      CallOf(State(), acts[j]);
      SendWelcome(p);
      alive := true;
      next := Others(p, acts, j + 1, goal);
      if next < |acts| {
        next := Receive(p, acts, next, goal);
      }
    }

    method Receive(p: nat, acts: seq<Action>, j: nat, ghost goal: Sys) returns (next: nat)
      requires OnCourse(acts, j, goal) && j < |acts| && acts[j].p == p && p in procs && procs[p].pc.AtRecv?
      modifies this
      ensures j < next && OnCourse(acts, next, goal)
      ensures next < |acts| ==> acts[next].p == p && p in procs && procs[p].pc.AtClose?
    {
      FirstStep(State(), acts, j);
      CallOf(State(), acts[j]);
      PrintReceiveMessage(p);
      next := Others(p, acts, j + 1, goal);
    }

    /** The close that ends the loop body. */
    method Finish(p: nat, acts: seq<Action>, j: nat, ghost goal: Sys) returns (next: nat)
      requires OnCourse(acts, j, goal) && j < |acts| && acts[j].p == p && p in procs && procs[p].pc.AtClose?
      modifies this
      ensures j < next && OnCourse(acts, next, goal) && (next == |acts| || acts[next].p == p)
      ensures p in procs && procs[p].pc.AtAccept?
    {
      FirstStep(State(), acts, j);
      CallOf(State(), acts[j]);
      CloseFd(p);
      next := Others(p, acts, j + 1, goal);
    }
  }

  /** Where a process stands decides which call it makes. */
  lemma CallOf(s: Sys, a: Action)
    requires Enabled(s, a)
    ensures match s.procs[a.p].pc
      case AtAccept => a == AcceptFails(a.p) || (a.Accept? && a.fd >= 0)
      case AtFork(_) => a == ForkFails(a.p) || (a.Fork? && a.q != a.p)
      case AtSend(_) => a == Send(a.p)
      case AtRecv(_) => a == Recv(a.p)
      case AtClose(_, _) => a == Close(a.p)
  {
  }

  /** The next step of an interleaving, and what it leaves to do. */
  lemma FirstStep(s: Sys, acts: seq<Action>, j: nat)
    requires j < |acts| && Runs(s, acts[j..])
    ensures Enabled(s, acts[j]) && Runs(Next(s, acts[j]), acts[j + 1..])
    ensures Exec(s, acts[j..]) == Exec(Next(s, acts[j]), acts[j + 1..])
  {
    assert acts[j..][0] == acts[j] && acts[j..][1..] == acts[j + 1..];
  }
}
