/** One wakeup of a readiness server: what the poll and the select server have in common, and the
    abstract server both refine. */
module Reactor {

  /** The sockets as the kernel and an observer outside see them. Connections are numbered as accepted. */
  datatype Net = Net(
    listener: int,
    files: map<int, nat>,     // open accepted descriptors
    accepted: nat,            // connections accepted so far
    welcomes: seq<nat>,       // connections greeted, in order
    closes: seq<nat>)         // connections closed, in order

  /** An entry of the program's table; input is what the last wait said, or garbage. */
  datatype Entry = Entry(fd: int, input: bool)

  /** What the world contributes to one wakeup. */
  datatype Wakeup = Wakeup(
    ready: set<int>,          // descriptors with input
    newFd: int,               // what accept returns; -1 when it fails
    talking: set<int>)        // descriptors whose recv returns data; the others are at their end

  predicate Possible(net: Net, w: Wakeup) {
    w.newFd == -1 || (0 <= w.newFd && w.newFd != net.listener && w.newFd !in net.files)
  }

  function AcceptConn(net: Net, newFd: int): Net {
    if newFd == -1 then net
    else net.(files := net.files[newFd := net.accepted], accepted := net.accepted + 1)
  }

  function CloseConn(net: Net, fd: int): Net {
    if fd in net.files
    then net.(files := net.files - {fd}, closes := net.closes + [net.files[fd]])
    else net
  }

  /** The body of the serving loop: the entry's new descriptor and the new network. */
  function ServeOne(net: Net, e: Entry, talking: set<int>): (int, Net) {
    if !e.input then (e.fd, net)
    else if e.fd in net.files && e.fd in talking
    then (e.fd, net.(welcomes := net.welcomes + [net.files[e.fd]]))
    else (-1, CloseConn(net, e.fd))
  }

  function ServeAll(net: Net, es: seq<Entry>, talking: set<int>): (r: (seq<int>, Net))
    ensures |r.0| == |es|
    decreases es
  {
    if es == [] then ([], net)
    else
      var (fd, net1) := ServeOne(net, es[0], talking);
      var (fds, net2) := ServeAll(net1, es[1..], talking);
      ([fd] + fds, net2)
  }

  function Keep(fds: seq<int>): seq<int> {
    if fds == [] then [] else (if fds[0] == -1 then [] else [fds[0]]) + Keep(fds[1..])
  }

  /** The table while it is served: the old entries with what the wait said, then the new one. */
  function Table(net: Net, fds: seq<int>, w: Wakeup, newInput: bool): seq<Entry> {
    seq(|fds|, i requires 0 <= i < |fds| => Entry(fds[i], fds[i] in w.ready))
    + if net.listener in w.ready then [Entry(w.newFd, newInput)] else []
  }

  function Arrived(net: Net, w: Wakeup): Net {
    if net.listener in w.ready then AcceptConn(net, w.newFd) else net
  }

  /** A whole wakeup: accept at most one connection, serve the table, drop the closed entries. */
  function Round(net: Net, fds: seq<int>, w: Wakeup, newInput: bool): (seq<int>, Net) {
    var (fds', net') := ServeAll(Arrived(net, w), Table(net, fds, w, newInput), w.talking);
    (Keep(fds'), net')
  }

  // ---- what every round keeps ----

  /** The table holds exactly the open connections, each once, in order of arrival; every connection
      ever accepted is either open or closed once. */
  ghost predicate LiveInv(net: Net, fds: seq<int>) {
    && 0 <= net.listener && net.listener !in net.files && -1 !in net.files
    && (forall fd :: fd in net.files <==> fd in fds)
    && (forall fd :: fd in net.files ==> net.files[fd] < net.accepted)
    && Ascending(net.files, fds)
    && ClosedOnce(net)
  }

  ghost predicate Ascending(files: map<int, nat>, fds: seq<int>) {
    && (forall i :: 0 <= i < |fds| ==> fds[i] in files)
    && (forall i, j :: 0 <= i < j < |fds| ==> files[fds[i]] < files[fds[j]])
  }

  /** The connections behind the open descriptors. */
  function Ids(files: map<int, nat>): set<nat> {
    set fd | fd in files :: files[fd]
  }

  ghost predicate ClosedOnce(net: Net) {
    && (forall i, j :: 0 <= i < j < |net.closes| ==> net.closes[i] != net.closes[j])
    && (forall c :: c in net.closes ==> c < net.accepted)
    && (forall c :: 0 <= c < net.accepted ==> (c in net.closes <==> c !in Ids(net.files)))
  }

  // ---- the abstract server ----

  datatype Abs = Abs(live: set<nat>, accepted: nat, welcomes: seq<nat>, closes: seq<nat>)

  function View(net: Net): Abs {
    Abs(Ids(net.files), net.accepted, net.welcomes, net.closes)
  }

  function Among(order: seq<nat>, those: set<nat>): seq<nat> {
    if order == [] then [] else (if order[0] in those then [order[0]] else []) + Among(order[1..], those)
  }

  function Outside(order: seq<nat>, those: set<nat>): seq<nat> {
    if order == [] then [] else (if order[0] in those then [] else [order[0]]) + Outside(order[1..], those)
  }

  ghost predicate Increasing(order: seq<nat>) {
    forall i, j :: 0 <= i < j < |order| ==> order[i] < order[j]
  }

  /** One abstract wakeup: arrivals join, each ready live connection is served once, oldest first: those
      that talk are welcomed, the others are closed. The newcomer is served at once exactly if early. */
  ghost predicate AbsRound(
    a: Abs, a': Abs, arrives: bool, early: bool, ready: set<nat>, order: seq<nat>, talking: set<nat>)
  {
    && Increasing(order)
    && (forall c :: c in order <==> (c in a.live && c in ready) || (arrives && early && c == a.accepted))
    && a'.accepted == a.accepted + (if arrives then 1 else 0)
    && a'.welcomes == a.welcomes + Among(order, talking)
    && a'.closes == a.closes + Outside(order, talking)
    && (forall c :: c in a'.live <==>
          (c in a.live || (arrives && c == a.accepted)) && c !in Outside(order, talking))
  }

  // ---- the proof ----

  /** The connections whose entries have input, in table order. */
  function Order(files: map<int, nat>, es: seq<Entry>): seq<nat> {
    if es == [] then []
    else (if es[0].input && es[0].fd in files then [files[es[0].fd]] else []) + Order(files, es[1..])
  }

  function Talkers(files: map<int, nat>, talking: set<int>): set<nat> {
    set fd | fd in files && fd in talking :: files[fd]
  }

  ghost predicate Injective(files: map<int, nat>) {
    forall f, g :: f in files && g in files && files[f] == files[g] ==> f == g
  }

  ghost predicate Sorted(files: map<int, nat>, es: seq<Entry>) {
    && -1 !in files && Injective(files)
    && (forall i :: 0 <= i < |es| ==> es[i].fd == -1 || es[i].fd in files)
    && (forall i, j :: 0 <= i < j < |es| && es[i].fd in files && es[j].fd in files ==>
          files[es[i].fd] < files[es[j].fd])
  }

  predicate Hangs(e: Entry, talking: set<int>) {
    e.input && e.fd !in talking
  }

  /** Entry by entry: who stays in the table, who is closed, and what is logged. */
  ghost predicate Outcome(net: Net, es: seq<Entry>, talking: set<int>, fds: seq<int>, net': Net) {
    && |fds| == |es|
    && (forall i :: 0 <= i < |es| ==> fds[i] == if Hangs(es[i], talking) then -1 else es[i].fd)
    && net'.listener == net.listener && net'.accepted == net.accepted
    && (forall fd :: fd in net'.files ==> fd in net.files && net'.files[fd] == net.files[fd])
    && (forall fd :: fd in net.files ==>
          (fd in net'.files <==> forall i :: 0 <= i < |es| && es[i].fd == fd ==> !Hangs(es[i], talking)))
    && net'.welcomes == net.welcomes + Among(Order(net.files, es), Talkers(net.files, talking))
    && net'.closes == net.closes + Outside(Order(net.files, es), Talkers(net.files, talking))
  }

  lemma {:induction false} OrderMembers(files: map<int, nat>, es: seq<Entry>)
    ensures forall c :: c in Order(files, es) <==>
      exists i :: 0 <= i < |es| && es[i].input && es[i].fd in files && files[es[i].fd] == c
  {
    if es != [] {
      OrderMembers(files, es[1..]);
      forall c ensures c in Order(files, es) <==>
        exists i :: 0 <= i < |es| && es[i].input && es[i].fd in files && files[es[i].fd] == c
      {
        if c in Order(files, es[1..]) {
          var i :| 0 <= i < |es[1..]| && es[1..][i].input && es[1..][i].fd in files && files[es[1..][i].fd] == c;
          assert es[i + 1] == es[1..][i];
        }
        if i :| 0 <= i < |es| && es[i].input && es[i].fd in files && files[es[i].fd] == c {
          if i > 0 { assert es[1..][i - 1] == es[i]; }
        }
      }
    }
  }

  lemma {:induction false} OrderIncreasing(files: map<int, nat>, es: seq<Entry>)
    requires Sorted(files, es)
    ensures Increasing(Order(files, es))
  {
    if es != [] {
      var order := Order(files, es[1..]);
      OrderIncreasing(files, es[1..]);
      OrderMembers(files, es[1..]);
      forall j | 0 <= j < |order| && es[0].fd in files ensures files[es[0].fd] < order[j] {
        assert order[j] in order;
      }
    }
  }

  /** Closing a descriptor that no entry names changes nothing for the entries. */
  lemma {:induction false} OrderWithout(files: map<int, nat>, es: seq<Entry>, fd: int)
    requires forall i :: 0 <= i < |es| ==> es[i].fd != fd
    ensures Order(files - {fd}, es) == Order(files, es)
  {
    if es != [] { OrderWithout(files, es[1..], fd); }
  }

  lemma {:induction false} SplitMembers(order: seq<nat>, those: set<nat>)
    ensures forall c :: c in Among(order, those) <==> c in order && c in those
    ensures forall c :: c in Outside(order, those) <==> c in order && c !in those
  {
    if order != [] {
      SplitMembers(order[1..], those);
      assert order == [order[0]] + order[1..];
    }
  }

  lemma {:induction false} SplitAgrees(order: seq<nat>, those: set<nat>, others: set<nat>)
    requires forall c :: c in order ==> (c in those <==> c in others)
    ensures Among(order, those) == Among(order, others) && Outside(order, those) == Outside(order, others)
  {
    if order != [] { SplitAgrees(order[1..], those, others); }
  }

  lemma {:induction false} ServeAllOutcome(net: Net, es: seq<Entry>, talking: set<int>)
    requires Sorted(net.files, es)
    ensures Outcome(net, es, talking, ServeAll(net, es, talking).0, ServeAll(net, es, talking).1)
    decreases es
  {
    if es != [] {
      var (fd, net1) := ServeOne(net, es[0], talking);
      var rest := es[1..];
      assert Sorted(net1.files, rest);
      ServeAllOutcome(net1, rest, talking);
      FirstAside(net, es, talking, net1);
      OutcomeCons(net, es, talking, net1, ServeAll(net1, rest, talking).0, ServeAll(net1, rest, talking).1);
    }
  }

  /** Serving the first entry leaves the logs of the others as they would have been. */
  lemma FirstAside(net: Net, es: seq<Entry>, talking: set<int>, net1: Net)
    requires es != [] && Sorted(net.files, es) && net1 == ServeOne(net, es[0], talking).1
    ensures var order := Order(net.files, es[1..]);
      && Order(net1.files, es[1..]) == order
      && Among(order, Talkers(net1.files, talking)) == Among(order, Talkers(net.files, talking))
      && Outside(order, Talkers(net1.files, talking)) == Outside(order, Talkers(net.files, talking))
  {
    var rest, order := es[1..], Order(net.files, es[1..]);
    OrderMembers(net.files, rest);
    if net1.files != net.files {
      var fd := es[0].fd;
      assert net1.files == net.files - {fd};
      OrderWithout(net.files, rest, fd);
      forall c | c in order ensures c in Talkers(net1.files, talking) <==> c in Talkers(net.files, talking) {
        assert c > net.files[fd];
      }
    }
    SplitAgrees(order, Talkers(net1.files, talking), Talkers(net.files, talking));
  }

  lemma OutcomeCons(net: Net, es: seq<Entry>, talking: set<int>, net1: Net, fds: seq<int>, net2: Net)
    requires es != [] && Sorted(net.files, es) && net1 == ServeOne(net, es[0], talking).1
    requires Outcome(net1, es[1..], talking, fds, net2)
    requires var order := Order(net.files, es[1..]);
      && Order(net1.files, es[1..]) == order
      && Among(order, Talkers(net1.files, talking)) == Among(order, Talkers(net.files, talking))
      && Outside(order, Talkers(net1.files, talking)) == Outside(order, Talkers(net.files, talking))
    ensures Outcome(net, es, talking, [ServeOne(net, es[0], talking).0] + fds, net2)
  {
    var e, all := es[0], [ServeOne(net, es[0], talking).0] + fds;
    forall i | 0 <= i < |es| ensures all[i] == if Hangs(es[i], talking) then -1 else es[i].fd {
      if i > 0 { assert es[i] == es[1..][i - 1]; }
    }
    forall fd | fd in net.files
      ensures fd in net2.files <==> forall i :: 0 <= i < |es| && es[i].fd == fd ==> !Hangs(es[i], talking)
    {
      assert forall i :: 1 <= i < |es| ==> es[i] == es[1..][i - 1];
      if fd in net1.files && fd !in net2.files {
        var i :| 0 <= i < |es[1..]| && es[1..][i].fd == fd && Hangs(es[1..][i], talking);
        assert es[i + 1] == es[1..][i];
      }
    }
    OutcomeLogs(net, es, talking, net1, net2);
  }

  lemma OutcomeLogs(net: Net, es: seq<Entry>, talking: set<int>, net1: Net, net2: Net)
    requires es != [] && Sorted(net.files, es) && net1 == ServeOne(net, es[0], talking).1
    requires var order, talkers := Order(net.files, es[1..]), Talkers(net.files, talking);
      net2.welcomes == net1.welcomes + Among(order, talkers) && net2.closes == net1.closes + Outside(order, talkers)
    ensures var order, talkers := Order(net.files, es), Talkers(net.files, talking);
      net2.welcomes == net.welcomes + Among(order, talkers) && net2.closes == net.closes + Outside(order, talkers)
  {
    var order, talkers := Order(net.files, es[1..]), Talkers(net.files, talking);
    var fd := es[0].fd;
    if es[0].input && fd in net.files {
      TalkerOf(net.files, talking, fd);
      SplitCons(net.files[fd], order, talkers);
      LogsOfOne(net, es[0], talking, net1, net2, order, talkers);
    } else {
      assert Order(net.files, es) == order;
    }
  }

  lemma LogsOfOne(net: Net, e: Entry, talking: set<int>, net1: Net, net2: Net, order: seq<nat>, talkers: set<nat>)
    requires e.input && e.fd in net.files && net1 == ServeOne(net, e, talking).1
    requires net.files[e.fd] in talkers <==> e.fd in talking
    requires net2.welcomes == net1.welcomes + Among(order, talkers)
    requires net2.closes == net1.closes + Outside(order, talkers)
    ensures var c := net.files[e.fd];
      && net2.welcomes == net.welcomes + ((if c in talkers then [c] else []) + Among(order, talkers))
      && net2.closes == net.closes + ((if c in talkers then [] else [c]) + Outside(order, talkers))
  {
  }

  lemma SplitCons(c: nat, order: seq<nat>, those: set<nat>)
    ensures Among([c] + order, those) == (if c in those then [c] else []) + Among(order, those)
    ensures Outside([c] + order, those) == (if c in those then [] else [c]) + Outside(order, those)
  {
    assert ([c] + order)[1..] == order;
  }

  lemma TalkerOf(files: map<int, nat>, talking: set<int>, fd: int)
    requires Injective(files) && fd in files
    ensures files[fd] in Talkers(files, talking) <==> fd in talking
  {
  }

  // ---- the rounds ----

  /** Nothing has been served yet. */
  lemma ServeFromStart(net: Net, es: seq<Entry>, talking: set<int>)
    ensures ServeAll(net, es, talking)
      == ([] + ServeAll(net, es[0..], talking).0, ServeAll(net, es[0..], talking).1)
  {
    assert es[0..] == es && [] + ServeAll(net, es, talking).0 == ServeAll(net, es, talking).0;
  }

  /** One more entry moves from the part still to be served to the part that has been. */
  lemma ServeNext(net: Net, es: seq<Entry>, talking: set<int>, i: nat, done: seq<int>)
    requires i < |es|
    ensures var (fd, net') := ServeOne(net, es[i], talking);
      && done + ServeAll(net, es[i..], talking).0 == done + [fd] + ServeAll(net', es[i + 1..], talking).0
      && ServeAll(net, es[i..], talking).1 == ServeAll(net', es[i + 1..], talking).1
  {
    assert es[i..][0] == es[i] && es[i..][1..] == es[i + 1..];
  }

  lemma {:induction false} KeepMembers(fds: seq<int>)
    ensures forall fd :: fd in Keep(fds) <==> fd in fds && fd != -1
  {
    if fds != [] {
      KeepMembers(fds[1..]);
      assert fds == [fds[0]] + fds[1..];
    }
  }

  lemma {:induction false} KeepAscending(files: map<int, nat>, fds: seq<int>)
    requires forall i :: 0 <= i < |fds| ==> fds[i] == -1 || fds[i] in files
    requires forall i, j :: 0 <= i < j < |fds| && fds[i] != -1 && fds[j] != -1 ==> files[fds[i]] < files[fds[j]]
    ensures Ascending(files, Keep(fds))
  {
    if fds != [] {
      var rest := fds[1..];
      assert forall i :: 0 <= i < |rest| ==> rest[i] == fds[i + 1];
      KeepAscending(files, rest);
      KeepMembers(rest);
      if fds[0] != -1 {
        var kept := Keep(rest);
        forall j | 0 <= j < |kept| ensures files[fds[0]] < files[kept[j]] {
          assert kept[j] in kept;
          var i :| 0 <= i < |rest| && rest[i] == kept[j];
          assert fds[i + 1] == rest[i];
        }
      }
    }
  }

  lemma LiveInjective(net: Net, fds: seq<int>)
    requires LiveInv(net, fds)
    ensures Injective(net.files)
  {
    forall f, g | f in net.files && g in net.files && net.files[f] == net.files[g] ensures f == g {
      var i :| 0 <= i < |fds| && fds[i] == f;
      var j :| 0 <= j < |fds| && fds[j] == g;
    }
  }

  /** After the accept the table still lists every open connection in order of arrival. */
  lemma TableSorted(net: Net, fds: seq<int>, w: Wakeup, newInput: bool)
    requires LiveInv(net, fds) && Possible(net, w)
    ensures Sorted(Arrived(net, w).files, Table(net, fds, w, newInput))
  {
    var net1, es := Arrived(net, w), Table(net, fds, w, newInput);
    LiveInjective(net, fds);
    assert forall i :: 0 <= i < |fds| ==> es[i].fd == fds[i];
    assert forall i :: |fds| <= i < |es| ==> es[i].fd == w.newFd && net.listener in w.ready;
    assert forall i :: 0 <= i < |fds| ==> es[i].fd in net.files;
  }

  lemma TableCovers(net: Net, fds: seq<int>, w: Wakeup, newInput: bool, fd: int)
    requires LiveInv(net, fds) && fd in Arrived(net, w).files
    ensures exists i :: 0 <= i < |Table(net, fds, w, newInput)| && Table(net, fds, w, newInput)[i].fd == fd
  {
    var es := Table(net, fds, w, newInput);
    if fd in net.files {
      var i :| 0 <= i < |fds| && fds[i] == fd;
      assert es[i].fd == fd;
    } else {
      assert es[|fds|].fd == fd;
    }
  }

  /** The outcome of serving a sorted table that covers all open connections. */
  lemma OutcomeIsLive(net1: Net, es: seq<Entry>, talking: set<int>, fds: seq<int>, net': Net)
    requires Sorted(net1.files, es) && Outcome(net1, es, talking, fds, net')
    requires forall fd :: fd in net1.files ==> exists i :: 0 <= i < |es| && es[i].fd == fd
    ensures Ascending(net'.files, Keep(fds))
    ensures forall fd :: fd in net'.files <==> fd in Keep(fds)
  {
    forall i | 0 <= i < |fds| && fds[i] != -1 ensures fds[i] in net'.files {
      assert es[i].fd in net1.files && !Hangs(es[i], talking);
      forall j | 0 <= j < |es| && es[j].fd == es[i].fd ensures j == i {
        assert net1.files[es[i].fd] == net1.files[es[j].fd];
      }
    }
    KeepAscending(net'.files, fds);
    KeepMembers(fds);
    forall fd | fd in net'.files ensures fd in Keep(fds) {
      assert fd in net1.files;
      var i :| 0 <= i < |es| && es[i].fd == fd;
      assert fds[i] == fd;
    }
  }

  /** Which connections the outcome closed. */
  lemma ClosedAre(net1: Net, es: seq<Entry>, talking: set<int>, fds: seq<int>, net': Net, c: nat)
    requires Sorted(net1.files, es) && Outcome(net1, es, talking, fds, net')
    ensures c in Ids(net'.files) <==>
      c in Ids(net1.files) && c !in Outside(Order(net1.files, es), Talkers(net1.files, talking))
  {
    var order, talkers := Order(net1.files, es), Talkers(net1.files, talking);
    OrderMembers(net1.files, es);
    SplitMembers(order, talkers);
    if c in Ids(net1.files) {
      var fd :| fd in net1.files && net1.files[fd] == c;
      TalkerOf(net1.files, talking, fd);
      if fd !in net'.files {
        var i :| 0 <= i < |es| && es[i].fd == fd && Hangs(es[i], talking);
        assert es[i].input && net1.files[es[i].fd] == c;
        assert c in Outside(order, talkers);
      } else {
        assert net'.files[fd] == c;
        if c in order {
          var i :| 0 <= i < |es| && es[i].input && es[i].fd in net1.files && net1.files[es[i].fd] == c;
          assert es[i].fd == fd && !Hangs(es[i], talking);
        }
      }
      forall g | g in net'.files && net'.files[g] == c ensures g == fd {
      }
    }
  }

  lemma {:induction false} OutsideIncreasing(order: seq<nat>, those: set<nat>)
    requires Increasing(order)
    ensures Increasing(Outside(order, those))
  {
    if order != [] {
      var rest := order[1..];
      OutsideIncreasing(rest, those);
      SplitMembers(rest, those);
      var out := Outside(rest, those);
      forall j | 0 <= j < |out| ensures order[0] < out[j] {
        assert out[j] in out;
        var i :| 0 <= i < |rest| && rest[i] == out[j];
        assert order[i + 1] == rest[i];
      }
    }
  }

  lemma AcceptKeepsClosed(net: Net, w: Wakeup)
    requires Possible(net, w) && ClosedOnce(net) && forall fd :: fd in net.files ==> net.files[fd] < net.accepted
    ensures ClosedOnce(Arrived(net, w))
    ensures forall fd :: fd in Arrived(net, w).files ==> Arrived(net, w).files[fd] < Arrived(net, w).accepted
  {
    var net1 := Arrived(net, w);
    if net1 != net {
      assert net1.files[w.newFd] == net.accepted;
      forall c | 0 <= c < net1.accepted ensures c in net1.closes <==> c !in Ids(net1.files) {
        if c in Ids(net.files) {
          var fd :| fd in net.files && net.files[fd] == c;
          assert net1.files[fd] == c;
        }
      }
    }
  }

  lemma OutcomeClosedOnce(net1: Net, es: seq<Entry>, talking: set<int>, fds: seq<int>, net': Net)
    requires Sorted(net1.files, es) && Outcome(net1, es, talking, fds, net') && ClosedOnce(net1)
    requires forall fd :: fd in net1.files ==> net1.files[fd] < net1.accepted
    ensures ClosedOnce(net')
  {
    var order, talkers := Order(net1.files, es), Talkers(net1.files, talking);
    var out := Outside(order, talkers);
    OrderIncreasing(net1.files, es);
    OutsideIncreasing(order, talkers);
    OrderMembers(net1.files, es);
    SplitMembers(order, talkers);
    forall i | 0 <= i < |out| ensures out[i] in Ids(net1.files) && out[i] < net1.accepted && out[i] !in net1.closes {
      assert out[i] in out;
    }
    forall c | 0 <= c < net'.accepted ensures c in net'.closes <==> c !in Ids(net'.files) {
      ClosedAre(net1, es, talking, fds, net', c);
    }
  }

  /** Every wakeup keeps the table exact. */
  lemma RoundInv(net: Net, fds: seq<int>, w: Wakeup, newInput: bool)
    requires LiveInv(net, fds) && Possible(net, w)
    ensures LiveInv(Round(net, fds, w, newInput).1, Round(net, fds, w, newInput).0)
  {
    var net1, es := Arrived(net, w), Table(net, fds, w, newInput);
    var (fds', net') := ServeAll(net1, es, w.talking);
    TableSorted(net, fds, w, newInput);
    ServeAllOutcome(net1, es, w.talking);
    forall fd | fd in net1.files ensures exists i :: 0 <= i < |es| && es[i].fd == fd {
      TableCovers(net, fds, w, newInput, fd);
    }
    OutcomeIsLive(net1, es, w.talking, fds', net');
    AcceptKeepsClosed(net, w);
    OutcomeClosedOnce(net1, es, w.talking, fds', net');
  }

  /** Which connections a wakeup serves: exactly the open ones that were reported, and the newcomer
      if its entry claims input. */
  function Served(net: Net, fds: seq<int>, w: Wakeup, newInput: bool): seq<nat> {
    Order(Arrived(net, w).files, Table(net, fds, w, newInput))
  }

  predicate Accepts(net: Net, w: Wakeup) {
    net.listener in w.ready && w.newFd != -1
  }

  /** The open connections the wait reported. */
  function ReadyConns(net: Net, w: Wakeup): set<nat> {
    set fd | fd in net.files && fd in w.ready :: net.files[fd]
  }

  /** Every wakeup of the concrete servers is a wakeup of the abstract server. */
  lemma RoundRefines(net: Net, fds: seq<int>, w: Wakeup, newInput: bool)
    requires LiveInv(net, fds) && Possible(net, w)
    ensures AbsRound(View(net), View(Round(net, fds, w, newInput).1), Accepts(net, w), newInput,
                     ReadyConns(net, w), Served(net, fds, w, newInput), Talkers(Arrived(net, w).files, w.talking))
  {
    var net1, es := Arrived(net, w), Table(net, fds, w, newInput);
    var (fds', net') := ServeAll(net1, es, w.talking);
    var order, talkers := Order(net1.files, es), Talkers(net1.files, w.talking);
    TableSorted(net, fds, w, newInput);
    ServeAllOutcome(net1, es, w.talking);
    OrderIncreasing(net1.files, es);
    ServedWho(net, fds, w, newInput);
    forall c ensures c in Ids(net'.files) <==>
      (c in Ids(net.files) || (Accepts(net, w) && c == net.accepted)) && c !in Outside(order, talkers)
    {
      ClosedAre(net1, es, w.talking, fds', net', c);
      ValuesAfterAccept(net, w, c);
    }
  }

  lemma ValuesAfterAccept(net: Net, w: Wakeup, c: nat)
    requires Possible(net, w)
    ensures c in Ids(Arrived(net, w).files) <==> c in Ids(net.files) || (Accepts(net, w) && c == net.accepted)
  {
    var net1 := Arrived(net, w);
    if c in Ids(net.files) {
      var fd :| fd in net.files && net.files[fd] == c;
      assert net1.files[fd] == c;
    }
    if Accepts(net, w) { assert net1.files[w.newFd] == net.accepted; }
  }

  lemma ServedWho(net: Net, fds: seq<int>, w: Wakeup, newInput: bool)
    requires LiveInv(net, fds) && Possible(net, w)
    ensures forall c :: c in Served(net, fds, w, newInput) <==>
      (exists fd :: fd in net.files && fd in w.ready && net.files[fd] == c)
      || (Accepts(net, w) && newInput && c == net.accepted)
  {
    forall c ensures c in Served(net, fds, w, newInput) <==>
      (exists fd :: fd in net.files && fd in w.ready && net.files[fd] == c)
      || (Accepts(net, w) && newInput && c == net.accepted)
    {
      ServedIs(net, fds, w, newInput, c);
    }
  }

  lemma ServedIs(net: Net, fds: seq<int>, w: Wakeup, newInput: bool, c: nat)
    requires LiveInv(net, fds) && Possible(net, w)
    ensures c in Served(net, fds, w, newInput) <==>
      (exists fd :: fd in net.files && fd in w.ready && net.files[fd] == c)
      || (Accepts(net, w) && newInput && c == net.accepted)
  {
    var net1, es := Arrived(net, w), Table(net, fds, w, newInput);
    OrderMembers(net1.files, es);
    if c in Order(net1.files, es) {
      var i :| 0 <= i < |es| && es[i].input && es[i].fd in net1.files && net1.files[es[i].fd] == c;
      if i < |fds| {
        assert es[i] == Entry(fds[i], fds[i] in w.ready) && net.files[fds[i]] == c;
      } else {
        assert es[i] == Entry(w.newFd, newInput);
      }
    }
    if fd :| fd in net.files && fd in w.ready && net.files[fd] == c {
      var i :| 0 <= i < |fds| && fds[i] == fd;
      assert es[i] == Entry(fd, true) && net1.files[fd] == c;
    }
    if Accepts(net, w) && newInput && c == net.accepted {
      assert es[|fds|] == Entry(w.newFd, true);
    }
  }

  /** A wakeup opens no descriptor but the one accept returned, and the listener stays. */
  lemma RoundFrame(net: Net, fds: seq<int>, w: Wakeup, newInput: bool)
    requires LiveInv(net, fds) && Possible(net, w)
    ensures var net' := Round(net, fds, w, newInput).1;
      && net'.listener == net.listener
      && forall fd :: fd in net'.files ==> fd in net.files || (net.listener in w.ready && fd == w.newFd)
  {
    TableSorted(net, fds, w, newInput);
    ServeAllOutcome(Arrived(net, w), Table(net, fds, w, newInput), w.talking);
  }

  // ---- whole runs ----

  /** One wakeup; newInput is what the entry of a connection accepted in it claims. */
  datatype Beat = Beat(w: Wakeup, newInput: bool)

  ghost predicate Wakes(net: Net, fds: seq<int>, beats: seq<Beat>)
    decreases |beats|
  {
    beats == [] ||
    (&& Possible(net, beats[0].w)
     && var (fds', net') := Round(net, fds, beats[0].w, beats[0].newInput);
        Wakes(net', fds', beats[1..]))
  }

  ghost function Final(net: Net, fds: seq<int>, beats: seq<Beat>): (seq<int>, Net)
    requires Wakes(net, fds, beats)
    decreases |beats|
  {
    if beats == [] then (fds, net)
    else
      var (fds', net') := Round(net, fds, beats[0].w, beats[0].newInput);
      Final(net', fds', beats[1..])
  }

  /** The next wakeup of a run, and what it leaves to come. */
  lemma FirstBeat(net: Net, fds: seq<int>, beats: seq<Beat>, i: nat)
    requires i < |beats| && Wakes(net, fds, beats[i..])
    ensures Possible(net, beats[i].w)
    ensures var (fds', net') := Round(net, fds, beats[i].w, beats[i].newInput);
      Wakes(net', fds', beats[i + 1..]) && Final(net, fds, beats[i..]) == Final(net', fds', beats[i + 1..])
  {
    assert beats[i..][0] == beats[i] && beats[i..][1..] == beats[i + 1..];
  }

  lemma {:induction false} FinalInv(net: Net, fds: seq<int>, beats: seq<Beat>)
    requires LiveInv(net, fds) && Wakes(net, fds, beats)
    ensures LiveInv(Final(net, fds, beats).1, Final(net, fds, beats).0)
    decreases |beats|
  {
    if beats != [] {
      var (fds', net') := Round(net, fds, beats[0].w, beats[0].newInput);
      RoundInv(net, fds, beats[0].w, beats[0].newInput);
      FinalInv(net', fds', beats[1..]);
    }
  }

  /** What an observer of the abstract server sees of one wakeup. */
  datatype Label = Label(arrives: bool, early: bool, ready: set<nat>, order: seq<nat>, talking: set<nat>)

  ghost predicate AbsStep(a: Abs, a': Abs, l: Label) {
    AbsRound(a, a', l.arrives, l.early, l.ready, l.order, l.talking)
  }

  /** The abstract server gets from a to a' by wakeups with these labels. */
  ghost predicate AbsRun(a: Abs, labels: seq<Label>, a': Abs)
    decreases |labels|
  {
    if labels == [] then a' == a else exists mid :: AbsStep(a, mid, labels[0]) && AbsRun(mid, labels[1..], a')
  }

  /** What a run of a concrete server looks like from there. */
  ghost function Labels(net: Net, fds: seq<int>, beats: seq<Beat>): (labels: seq<Label>)
    requires Wakes(net, fds, beats)
    ensures |labels| == |beats| && forall i :: 0 <= i < |beats| ==> labels[i].early == beats[i].newInput
    decreases |beats|
  {
    if beats == [] then []
    else
      var w, newInput := beats[0].w, beats[0].newInput;
      var (fds', net') := Round(net, fds, w, newInput);
      [Label(Accepts(net, w), newInput, ReadyConns(net, w), Served(net, fds, w, newInput),
             Talkers(Arrived(net, w).files, w.talking))]
      + Labels(net', fds', beats[1..])
  }

  /** Every run of a concrete server is a run of the abstract one. */
  lemma {:induction false} RunRefines(net: Net, fds: seq<int>, beats: seq<Beat>)
    requires LiveInv(net, fds) && Wakes(net, fds, beats)
    ensures AbsRun(View(net), Labels(net, fds, beats), View(Final(net, fds, beats).1))
    decreases |beats|
  {
    if beats != [] {
      var w, newInput := beats[0].w, beats[0].newInput;
      var (fds', net') := Round(net, fds, w, newInput);
      RoundInv(net, fds, w, newInput);
      RoundRefines(net, fds, w, newInput);
      RunRefines(net', fds', beats[1..]);
      var labels := Labels(net, fds, beats);
      assert labels[1..] == Labels(net', fds', beats[1..]);
      assert AbsStep(View(net), View(net'), labels[0]);
    }
  }

  /** After any run, a connection ever accepted is either in the table, at one place, or closed, once. */
  lemma AcceptedOnce(listener: nat, beats: seq<Beat>, c: nat)
    requires Wakes(Net(listener, map[], 0, [], []), [], beats)
    requires c < Final(Net(listener, map[], 0, [], []), [], beats).1.accepted
    ensures var (fds, net) := Final(Net(listener, map[], 0, [], []), [], beats);
      && (c in net.closes <==> !exists i :: 0 <= i < |fds| && fds[i] in net.files && net.files[fds[i]] == c)
      && (forall i, j :: 0 <= i < |net.closes| && 0 <= j < |net.closes| && net.closes[i] == net.closes[j] ==> i == j)
      && (forall i, j :: 0 <= i < j < |fds| ==> fds[i] != fds[j] && fds[i] != -1 && fds[i] != net.listener)
  {
    FinalInv(Net(listener, map[], 0, [], []), [], beats);
    var (fds, net) := Final(Net(listener, map[], 0, [], []), [], beats);
    assert c in net.closes <==> c !in Ids(net.files);
    if c !in net.closes {
      var fd :| fd in net.files && net.files[fd] == c;
      assert fd in fds;
      var i :| 0 <= i < |fds| && fds[i] == fd;
    } else {
      forall i | 0 <= i < |fds| && fds[i] in net.files ensures net.files[fds[i]] != c {
        var fd := fds[i];
        assert fd in net.files && net.files[fd] in Ids(net.files);
      }
    }
  }
}
