/** The select server: a bitmap and its bound rebuilt every round, and a list of descriptors. */
module SelectServer {
  import opened Reactor
  import opened FdSet

  /** Every descriptor fits a bitmap; accept succeeds, because FD_SET has no bit for -1. */
  predicate InRange(net: Net, w: Wakeup) {
    && 0 <= net.listener < SETSIZE && (net.listener in w.ready ==> 0 <= w.newFd < SETSIZE)
    && forall fd :: fd in net.files ==> 0 <= fd < SETSIZE
  }

  class Server {
    var acceptFds: seq<int>
    var net: Net
    const readFds: BitSet
    var maxFd: int

    ghost predicate Valid()
      reads this, readFds, readFds.words
    {
      readFds.Valid() && LiveInv(net, acceptFds)
    }

    constructor (listenFd: nat)
      ensures Valid() && fresh(readFds) && fresh(readFds.words)
      ensures acceptFds == [] && net == Net(listenFd, map[], 0, [], [])
    {
      acceptFds, maxFd, net := [], listenFd, Net(listenFd, map[], 0, [], []);
      readFds := new BitSet();
    }

    /** FD_SET of one descriptor, and the maximum so far. */
    method Include(x: nat)
      requires readFds.Valid() && x < SETSIZE
      modifies readFds.words, this`maxFd
      ensures readFds.Valid() && readFds.Members() == old(readFds.Members()) + {x}
      ensures maxFd == if old(maxFd) < x then x else old(maxFd)
    {
      readFds.Set(x);
      maxFd := if maxFd < x then x else maxFd;
    }

    /** FD_ZERO, FD_SET of the listener and of every live descriptor, and their maximum. */
    method BuildReadSet()
      requires Valid() && 0 <= net.listener < SETSIZE && forall fd :: fd in net.files ==> 0 <= fd < SETSIZE
      modifies readFds.words, this`maxFd
      ensures readFds.Valid()
      ensures readFds.Members() == {net.listener} + net.files.Keys
      ensures maxFd in readFds.Members() && forall d :: d in readFds.Members() ==> d <= maxFd
    {
      readFds.Zero();
      readFds.Set(net.listener);
      maxFd := net.listener;
      ghost var bits := {net.listener};
      var i := 0;
      while i < |acceptFds|
        invariant i <= |acceptFds| && readFds.Valid() && readFds.Members() == bits
        invariant forall d :: d in bits <==> d == net.listener || d in acceptFds[..i]
        invariant maxFd in bits && forall d :: d in bits ==> d <= maxFd
      {
        var x := acceptFds[i];
        assert acceptFds[..i + 1] == acceptFds[..i] + [x];
        Include(x);
        bits := bits + {x};
        i := i + 1;
      }
      assert acceptFds[..i] == acceptFds;
    }

    /** The kernel looks at the first nfds descriptors and leaves the bits of the ready ones. */
    method Select(nfds: int, ready: set<int>)
      requires readFds.Valid() && 0 <= nfds <= SETSIZE
      modifies readFds.words
      ensures readFds.Valid()
      ensures readFds.Members() == set d | d in old(readFds.Members()) && (d in ready || d >= nfds)
    {
      ghost var asked := readFds.Members();
      var d := 0;
      while d < nfds
        invariant 0 <= d <= nfds && readFds.Valid()
        invariant readFds.Members() == set e | e in asked && (e in ready || e >= d)
      {
        if d !in ready {
          readFds.Clr(d);
        }
        d := d + 1;
      }
    }

    /** One call of select over everything the server has open: what stays is what is ready, because no
        open descriptor lies beyond the bound. */
    method WaitReadable(ready: set<int>)
      requires Valid() && 0 <= net.listener < SETSIZE && forall fd :: fd in net.files ==> 0 <= fd < SETSIZE
      modifies readFds.words, this`maxFd
      ensures readFds.Valid()
      ensures readFds.Members() == set d | d in {net.listener} + net.files.Keys && d in ready
    {
      BuildReadSet();
      Select(maxFd + 1, ready);
    }

    /** accept, and append the new descriptor to the list. */
    method AcceptFd(newFd: int)
      requires newFd != -1
      modifies this`net, this`acceptFds
      ensures net == AcceptConn(old(net), newFd) && acceptFds == old(acceptFds) + [newFd]
    {
      net := AcceptConn(net, newFd);
      acceptFds := acceptFds + [newFd];
    }

    /** The body of the loop over the list: a descriptor whose bit is set is greeted, or closed and marked. */
    method ServeEntry(i: nat, talking: set<int>)
      requires readFds.Valid() && i < |acceptFds| && 0 <= acceptFds[i] < SETSIZE
      modifies this`net, this`acceptFds, readFds.words
      ensures readFds.Valid()
      ensures var x, bits := old(acceptFds[i]), old(readFds.Members());
        readFds.Members() == bits - if x in bits && !(x in old(net).files && x in talking) then {x} else {}
      ensures var x := old(acceptFds[i]); var r := ServeOne(old(net), Entry(x, x in old(readFds.Members())), talking);
        net == r.1 && acceptFds == old(acceptFds)[i := r.0]
    {
      var x := acceptFds[i];
      var isSet := readFds.IsSet(x);
      if isSet {
        if x in net.files && x in talking {
          net := net.(welcomes := net.welcomes + [net.files[x]]);
        } else {
          readFds.Clr(x);
          net := CloseConn(net, x);
          acceptFds := acceptFds[i := -1];
        }
      }
    }

    method ServeList(talking: set<int>)
      requires readFds.Valid() && forall i :: 0 <= i < |acceptFds| ==> 0 <= acceptFds[i] < SETSIZE
      requires forall i, j :: 0 <= i < j < |acceptFds| ==> acceptFds[i] != acceptFds[j]
      modifies this`net, this`acceptFds, readFds.words
      ensures readFds.Valid()
      ensures (acceptFds, net) == ServeAll(old(net), old(Marked(acceptFds, readFds.Members())), talking)
      // the bits of the descriptors closed are cleared, and no others
      ensures readFds.Members() == Uncleared(old(readFds.Members()), old(acceptFds), acceptFds, |acceptFds|)
    {
      ghost var list, bits, net0 := acceptFds, readFds.Members(), net;
      ghost var es, left := Marked(list, bits), bits;
      var i := 0;
      ServeFromStart(net, es, talking);
      while i < |acceptFds|
        invariant i <= |acceptFds| == |list| && readFds.Valid() && readFds.Members() == left
        invariant forall j :: i <= j < |list| ==> acceptFds[j] == list[j] && (list[j] in left <==> list[j] in bits)
        invariant left == Uncleared(bits, list, acceptFds, i)
        invariant ServeAll(net0, es, talking)
          == (acceptFds[..i] + ServeAll(net, es[i..], talking).0, ServeAll(net, es[i..], talking).1)
      {
        ghost var before, net1, members, marks := acceptFds[..i], net, left, acceptFds;
        ServeEntry(i, talking);
        left := readFds.Members();
        ClearNext(bits, list, marks, acceptFds, i);
        ServeNext(net1, es, talking, i, before);
        assert acceptFds[..i + 1] == before + [ServeOne(net1, es[i], talking).0];
        assert forall j :: i + 1 <= j < |list| ==> (list[j] in left <==> list[j] in members);
        i := i + 1;
      }
      assert es[i..] == [] && acceptFds[..i] + [] == acceptFds;
    }

    /** accept_fds.remove(-1). */
    method RemoveMarked()
      modifies this`acceptFds
      ensures acceptFds == Keep(old(acceptFds))
    {
      ghost var list := acceptFds;
      var i, kept := 0, [];
      while i < |acceptFds|
        invariant i <= |acceptFds| && acceptFds == list
        invariant Keep(list) == kept + Keep(list[i..])
      {
        assert list[i..][1..] == list[i + 1..];
        if acceptFds[i] != -1 {
          kept := kept + [acceptFds[i]];
        }
        i := i + 1;
      }
      acceptFds := kept;
    }

    /** FD_ISSET of the listener, and accept if it is set. */
    method AcceptIfReady(w: Wakeup)
      requires readFds.Valid() && InRange(net, w) && (net.listener in w.ready <==> net.listener in readFds.Members())
      modifies this`net, this`acceptFds
      ensures net == Arrived(old(net), w) && acceptFds == Listed(old(net), old(acceptFds), w)
    {
      var isSet := readFds.IsSet(net.listener);
      if isSet {
        AcceptFd(w.newFd);
      }
    }

    /** One iteration, step by step. */
    method RunRound(w: Wakeup)
      requires Valid() && Possible(net, w) && InRange(net, w)
      modifies this, readFds.words
      ensures readFds.Valid()
      ensures (acceptFds, net) == Round(old(net), old(acceptFds), w, false)
    {
      ListDistinct(net, acceptFds, w);
      WaitReadable(w.ready);
      TableIsMarked(net, acceptFds, w, readFds.Members());
      AcceptIfReady(w);
      ServeList(w.talking);
      RemoveMarked();
    }

    /** One iteration of the main loop that does not time out. */
    method Iterate(w: Wakeup)
      requires Valid() && Possible(net, w) && InRange(net, w)
      modifies this, readFds.words
      ensures Valid()
      ensures (acceptFds, net) == Round(old(net), old(acceptFds), w, false)
    {
      RoundInv(net, acceptFds, w, false);
      RunRound(w);
    }

    /** Every open descriptor, and every one still to come, fits the bitmap; no newcomer is served early. */
    ghost predicate Fits(beats: seq<Beat>)
      reads this
    {
      && 0 <= net.listener < SETSIZE && (forall fd :: fd in net.files ==> 0 <= fd < SETSIZE)
      && forall i :: 0 <= i < |beats| ==>
           !beats[i].newInput && (net.listener in beats[i].w.ready ==> 0 <= beats[i].w.newFd < SETSIZE)
    }

    /** One wakeup of a run. */
    method OneBeat(beats: seq<Beat>, i: nat)
      requires Valid() && Fits(beats) && i < |beats| && Wakes(net, acceptFds, beats[i..])
      modifies this, readFds.words
      ensures Valid() && Fits(beats) && Wakes(net, acceptFds, beats[i + 1..])
      ensures Final(net, acceptFds, beats[i + 1..]) == old(Final(net, acceptFds, beats[i..]))
    {
      FirstBeat(net, acceptFds, beats, i);
      RoundFrame(net, acceptFds, beats[i].w, false);
      Iterate(beats[i].w);
    }

    /** The main loop, for any sequence of wakeups the kernel may produce. */
    method Loop(beats: seq<Beat>)
      requires Valid() && Wakes(net, acceptFds, beats) && Fits(beats)
      modifies this, readFds.words
      ensures Valid() && (acceptFds, net) == Final(old(net), old(acceptFds), beats)
      ensures AbsRun(View(old(net)), Labels(old(net), old(acceptFds), beats), View(net))
      ensures forall l :: l in Labels(old(net), old(acceptFds), beats) ==> !l.early
    {
      ghost var end := Final(net, acceptFds, beats);
      RunRefines(net, acceptFds, beats);
      assert beats[0..] == beats;
      var i := 0;
      while i < |beats|
        invariant i <= |beats| && Valid() && Fits(beats) && Wakes(net, acceptFds, beats[i..])
        invariant Final(net, acceptFds, beats[i..]) == end
      {
        OneBeat(beats, i);
        i := i + 1;
      }
    }
  }

  /** bits without the descriptors among the first n of list that are marked closed. */
  ghost function Uncleared(bits: set<int>, list: seq<int>, marks: seq<int>, n: nat): set<int>
    requires n <= |list| == |marks|
  {
    set d | d in bits && forall j :: 0 <= j < n && list[j] == d ==> marks[j] != -1
  }

  lemma ClearNext(bits: set<int>, list: seq<int>, marks: seq<int>, marks': seq<int>, i: nat)
    requires i < |list| == |marks| == |marks'| && marks' == marks[i := marks'[i]]
    ensures Uncleared(bits, list, marks', i + 1)
      == Uncleared(bits, list, marks, i) - if marks'[i] == -1 then {list[i]} else {}
  {
    assert Uncleared(bits, list, marks', i) == Uncleared(bits, list, marks, i);
  }

  function Listed(net: Net, fds: seq<int>, w: Wakeup): seq<int> {
    fds + (if net.listener in w.ready then [w.newFd] else [])
  }

  lemma ListDistinct(net: Net, fds: seq<int>, w: Wakeup)
    requires LiveInv(net, fds) && Possible(net, w) && InRange(net, w)
    ensures var l := Listed(net, fds, w);
      && (forall i :: 0 <= i < |l| ==> 0 <= l[i] < SETSIZE)
      && (forall i, j :: 0 <= i < j < |l| ==> l[i] != l[j])
  {
    assert forall i, j :: 0 <= i < j < |fds| ==> net.files[fds[i]] < net.files[fds[j]];
  }

  /** The list with what the bitmap says of each descriptor. */
  ghost function Marked(fds: seq<int>, bits: set<int>): seq<Entry> {
    seq(|fds|, i requires 0 <= i < |fds| => Entry(fds[i], fds[i] in bits))
  }

  /** A descriptor accepted in this round tests false: it was not open when the bitmap was built. */
  lemma TableIsMarked(net: Net, fds: seq<int>, w: Wakeup, bits: set<int>)
    requires LiveInv(net, fds) && Possible(net, w) && InRange(net, w)
    requires bits == set d | d in {net.listener} + net.files.Keys && d in w.ready
    ensures net.listener in w.ready ==> w.newFd !in bits
    ensures Table(net, fds, w, false) == Marked(Listed(net, fds, w), bits)
  {
    var list, table := Listed(net, fds, w), Table(net, fds, w, false);
    assert |list| == |table|;
    forall i | 0 <= i < |table| ensures table[i] == Entry(list[i], list[i] in bits) {
      if i < |fds| { assert list[i] == fds[i] && fds[i] in net.files; }
    }
  }
}
