/** The poll server: a vector of pollfd entries, compacted in place after every round. */
module PollServer {
  import opened Reactor

  /** remove_if on a sequence of entries: those that are not marked, in order. */
  function KeepEntries(es: seq<Entry>): seq<Entry> {
    if es == [] then [] else (if es[0].fd == -1 then [] else [es[0]]) + KeepEntries(es[1..])
  }

  function Fds(es: seq<Entry>): (fds: seq<int>)
    ensures |fds| == |es| && forall i :: 0 <= i < |es| ==> fds[i] == es[i].fd
  {
    seq(|es|, i requires 0 <= i < |es| => es[i].fd)
  }

  lemma {:induction false} KeepFds(es: seq<Entry>)
    ensures Fds(KeepEntries(es)) == Keep(Fds(es))
  {
    if es != [] {
      KeepFds(es[1..]);
      assert Fds(es)[1..] == Fds(es[1..]);
      assert Fds([es[0]] + KeepEntries(es[1..])) == [es[0].fd] + Fds(KeepEntries(es[1..]));
      assert Fds([] + KeepEntries(es[1..])) == [] + Fds(KeepEntries(es[1..]));
    }
  }

  lemma {:induction false} KeepSnoc(es: seq<Entry>, e: Entry)
    ensures KeepEntries(es + [e]) == KeepEntries(es) + (if e.fd == -1 then [] else [e])
    ensures |KeepEntries(es)| <= |es|
  {
    if es == [] {
      assert [] + [e] == [e] && [e][1..] == [];
    } else {
      var rest := es[1..];
      KeepSnoc(rest, e);
      assert es + [e] == [es[0]] + (rest + [e]);
      KeepCons(es[0], rest + [e]);
      KeepCons(es[0], rest);
      assert [es[0]] + rest == es;
    }
  }

  lemma KeepCons(e: Entry, es: seq<Entry>)
    ensures KeepEntries([e] + es) == (if e.fd == -1 then [] else [e]) + KeepEntries(es)
  {
    assert ([e] + es)[1..] == es;
  }

  /** The first len cells of data; the capacity beyond them is spare. */
  class Vector {
    var data: array<Entry>
    var len: nat

    ghost predicate Valid()
      reads this
    {
      len <= data.Length
    }

    ghost function Contents(): seq<Entry>
      reads this, data
      requires Valid()
    {
      data[..len]
    }

    constructor (e: Entry)
      ensures Valid() && fresh(data) && Contents() == [e]
    {
      data := new Entry[1](_ => e);
      len := 1;
    }

    /** emplace_back, with a larger buffer when the old one is full. */
    method EmplaceBack(e: Entry)
      requires Valid()
      modifies this, data
      ensures Valid() && (data == old(data) || fresh(data))
      ensures Contents() == old(Contents()) + [e]
    {
      if len == data.Length {
        var bigger := new Entry[2 * len + 1](_ => e);
        var i := 0;
        while i < len
          invariant i <= len && len == old(len) && data == old(data) && bigger[..i] == data[..i]
          invariant data[..] == old(data[..])
        {
          bigger[i] := data[i];
          i := i + 1;
        }
        data := bigger;
      }
      data[len] := e;
      len := len + 1;
    }

    /** Everything before the first marked entry stays where it is. */
    method FindMarked() returns (first: nat)
      requires Valid()
      ensures first <= len && KeepEntries(Contents()[..first]) == Contents()[..first]
      ensures first == len || Contents()[first].fd == -1
    {
      ghost var es := Contents();
      first := 0;
      while first < len && data[first].fd != -1
        invariant first <= len && KeepEntries(es[..first]) == es[..first]
      {
        KeepNext(es, first);
        first := first + 1;
      }
    }

    /** erase(remove_if(fd == -1)): find the first marked entry, then shift the others down over it. */
    method EraseMarked()
      requires Valid()
      modifies this`len, data
      ensures Valid() && data == old(data)
      ensures Contents() == KeepEntries(old(Contents()))
    {
      ghost var es := Contents();
      var first := FindMarked();
      var result := first;
      while first < len
        invariant 0 <= result <= first <= len == |es| && len <= data.Length
        invariant data[..result] == KeepEntries(es[..first])
        invariant forall j :: first <= j < len ==> data[j] == es[j]
      {
        KeepNext(es, first);
        if data[first].fd != -1 {
          data[result] := data[first];
          result := result + 1;
        }
        first := first + 1;
      }
      assert es[..first] == es;
      len := result;
    }
  }

  /** One more entry is kept or dropped. */
  lemma KeepNext(es: seq<Entry>, i: nat)
    requires i < |es|
    ensures es[..i + 1] == es[..i] + [es[i]]
    ensures KeepEntries(es[..i + 1]) == KeepEntries(es[..i]) + (if es[i].fd == -1 then [] else [es[i]])
    ensures |KeepEntries(es[..i])| <= i
  {
    assert es[..i + 1] == es[..i] + [es[i]];
    KeepSnoc(es[..i], es[i]);
  }

  class Server {
    const pollfds: Vector
    var net: Net

    /** Cell 0 is the listener; the others are the open connections in order of arrival. */
    ghost predicate Valid()
      reads this, pollfds, pollfds.data
    {
      && pollfds.Valid() && pollfds.len >= 1
      && pollfds.data[0].fd == net.listener
      && LiveInv(net, Live())
    }

    ghost function Live(): seq<int>
      reads this, pollfds, pollfds.data
      requires pollfds.Valid() && pollfds.len >= 1
    {
      Fds(pollfds.Contents()[1..])
    }

    constructor (listenFd: nat)
      ensures Valid() && fresh(pollfds) && fresh(pollfds.data)
      ensures net == Net(listenFd, map[], 0, [], []) && Live() == []
    {
      pollfds := new Vector(Entry(listenFd, false));
      net := Net(listenFd, map[], 0, [], []);
    }

    /** poll writes the revents of every entry. */
    method Poll(ready: set<int>)
      requires pollfds.Valid()
      modifies pollfds.data
      ensures pollfds.Valid()
      ensures pollfds.Contents() == Polled(old(pollfds.Contents()), ready)
    {
      var i := 0;
      while i < pollfds.len
        invariant i <= pollfds.len
        invariant forall j :: 0 <= j < pollfds.len ==> pollfds.data[j].fd == old(pollfds.data[j].fd)
        invariant forall j :: 0 <= j < i ==> pollfds.data[j].input == (pollfds.data[j].fd in ready)
      {
        pollfds.data[i] := Entry(pollfds.data[i].fd, pollfds.data[i].fd in ready);
        i := i + 1;
      }
    }

    /** The body of the serving loop for the entry at i. */
    method ServeEntry(i: nat, talking: set<int>)
      requires pollfds.Valid() && i < pollfds.len
      modifies this`net, pollfds.data
      ensures pollfds.Valid() && pollfds.data.Length == old(pollfds.data.Length)
      ensures var r := ServeOne(old(net), old(pollfds.data[i]), talking);
        net == r.1 && pollfds.data[i].fd == r.0
      ensures forall j :: 0 <= j < pollfds.len && j != i ==> pollfds.data[j] == old(pollfds.data[j])
    {
      var e := pollfds.data[i];
      if e.input {
        if e.fd in net.files && e.fd in talking {
          net := net.(welcomes := net.welcomes + [net.files[e.fd]]);
        } else {
          net := CloseConn(net, e.fd);
          pollfds.data[i] := e.(fd := -1);
        }
      }
    }

    /** The loop over the connections. */
    method ServeTable(talking: set<int>)
      requires pollfds.Valid() && pollfds.len >= 1
      modifies this`net, pollfds.data
      ensures pollfds.Valid() && pollfds.data[0] == old(pollfds.data[0])
      ensures (Live(), net) == ServeAll(old(net), old(pollfds.Contents()[1..]), talking)
    {
      ghost var es, net0 := pollfds.Contents()[1..], net;
      var i := 1;
      ServeFromStart(net, es, talking);
      assert Fds(pollfds.data[1..1]) == [];
      while i < pollfds.len
        invariant 1 <= i <= pollfds.len == |es| + 1 && pollfds.data[0] == old(pollfds.data[0])
        invariant forall j :: i <= j < pollfds.len ==> pollfds.data[j] == es[j - 1]
        invariant ServeAll(net0, es, talking)
          == (Fds(pollfds.data[1..i]) + ServeAll(net, es[i - 1..], talking).0, ServeAll(net, es[i - 1..], talking).1)
      {
        ghost var before, net1 := Fds(pollfds.data[1..i]), net;
        ServeEntry(i, talking);
        ServeNext(net1, es, talking, i - 1, before);
        assert Fds(pollfds.data[1..i + 1]) == before + [ServeOne(net1, es[i - 1], talking).0];
        i := i + 1;
      }
      assert es[i - 1..] == [] && Fds(pollfds.data[1..i]) + [] == Live();
    }

    /** POLLIN on the first entry: accept, and append whatever came of it. */
    method AcceptIfReady(w: Wakeup, garbage: bool)
      requires pollfds.Valid() && pollfds.len >= 1
      modifies this`net, pollfds, pollfds.data
      ensures pollfds.Valid() && (pollfds.data == old(pollfds.data) || fresh(pollfds.data))
      ensures var reported := old(pollfds.data[0].input);
        && net == (if reported then AcceptConn(old(net), w.newFd) else old(net))
        && pollfds.Contents() == old(pollfds.Contents()) + (if reported then [Entry(w.newFd, garbage)] else [])
    {
      if pollfds.data[0].input {
        net := AcceptConn(net, w.newFd);
        pollfds.EmplaceBack(Entry(w.newFd, garbage));
      }
    }

    /** Erasing leaves the listener in front. */
    method Compact()
      requires pollfds.Valid() && pollfds.len >= 1 && pollfds.data[0].fd != -1
      modifies pollfds, pollfds.data
      ensures pollfds.Valid() && pollfds.len >= 1 && pollfds.data == old(pollfds.data)
      ensures pollfds.data[0] == old(pollfds.data[0]) && Live() == Keep(old(Live()))
    {
      ghost var es := pollfds.Contents();
      pollfds.EraseMarked();
      KeepFds(es[1..]);
      assert KeepEntries(es) == [es[0]] + KeepEntries(es[1..]);
      assert pollfds.Contents()[0] == es[0] && pollfds.Contents()[1..] == KeepEntries(es[1..]);
    }

    /** One iteration, step by step. */
    method RunRound(w: Wakeup, garbage: bool)
      requires pollfds.Valid() && pollfds.len >= 1 && pollfds.data[0].fd == net.listener != -1
      modifies this, pollfds, pollfds.data
      ensures pollfds.Valid() && pollfds.len >= 1 && pollfds.data[0].fd == old(net.listener)
      ensures pollfds.data == old(pollfds.data) || fresh(pollfds.data)
      ensures (Live(), net) == Round(old(net), old(Live()), w, garbage)
    {
      ghost var es := pollfds.Contents();
      TableIsPolled(net, es, w, garbage);
      Poll(w.ready);
      assert pollfds.data[0] == pollfds.Contents()[0];
      AcceptIfReady(w, garbage);
      assert pollfds.data[0] == pollfds.Contents()[0];
      ServeTable(w.talking);
      Compact();
    }

    /** One iteration of the main loop that does not time out; garbage is the unset revents of a new entry. */
    method Iterate(w: Wakeup, garbage: bool)
      requires Valid() && Possible(net, w)
      modifies this, pollfds, pollfds.data
      ensures Valid() && (pollfds.data == old(pollfds.data) || fresh(pollfds.data))
      ensures (Live(), net) == Round(old(net), old(Live()), w, garbage)
    {
      RoundInv(net, Live(), w, garbage);
      RoundFrame(net, Live(), w, garbage);
      RunRound(w, garbage);
    }

    /** The main loop, for any sequence of wakeups the kernel may produce. */
    method Loop(beats: seq<Beat>)
      requires Valid() && Wakes(net, Live(), beats)
      modifies this, pollfds, pollfds.data
      ensures Valid() && (Live(), net) == Final(old(net), old(Live()), beats)
      ensures AbsRun(View(old(net)), Labels(old(net), old(Live()), beats), View(net))
    {
      ghost var net0, fds0 := net, Live();
      RunRefines(net, Live(), beats);
      assert beats[0..] == beats;
      var i := 0;
      while i < |beats|
        invariant i <= |beats| && Valid() && Wakes(net, Live(), beats[i..])
        invariant pollfds.data == old(pollfds.data) || fresh(pollfds.data)
        invariant Final(net, Live(), beats[i..]) == Final(net0, fds0, beats)
      {
        FirstBeat(net, Live(), beats, i);
        Iterate(beats[i].w, beats[i].newInput);
        i := i + 1;
      }
    }
  }

  /** Every entry with a fresh revents. */
  function Polled(es: seq<Entry>, ready: set<int>): (r: seq<Entry>)
    ensures |r| == |es|
  {
    seq(|es|, i requires 0 <= i < |es| => Entry(es[i].fd, es[i].fd in ready))
  }

  /** What poll and accept leave in the vector is the table of the round. */
  lemma TableIsPolled(net: Net, es: seq<Entry>, w: Wakeup, garbage: bool)
    requires es != [] && es[0].fd == net.listener
    ensures Polled(es, w.ready)[0] == Entry(net.listener, net.listener in w.ready)
    ensures (Polled(es, w.ready) + (if net.listener in w.ready then [Entry(w.newFd, garbage)] else []))[1..]
      == Table(net, Fds(es[1..]), w, garbage)
  {
    var fds, extra := Fds(es[1..]), if net.listener in w.ready then [Entry(w.newFd, garbage)] else [];
    var all, table := Polled(es, w.ready) + extra, Table(net, fds, w, garbage);
    assert |all[1..]| == |fds| + |extra| == |table|;
    forall i | 0 <= i < |table| ensures all[1..][i] == table[i] {
      if i < |fds| {
        assert fds[i] == es[i + 1].fd;
        assert table[i] == Entry(fds[i], fds[i] in w.ready) == Polled(es, w.ready)[i + 1];
      } else {
        assert all[i + 1] == extra[i - |fds|] == table[i];
      }
    }
  }
}
