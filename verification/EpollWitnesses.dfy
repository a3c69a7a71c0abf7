/** Schedules that show the edges of what EpollTheorems states. */
module EpollWitnesses {
  import opened Streams
  import opened EpollKernel
  import opened EpollServer
  import opened EpollTheorems
  import opened EpollBacklog

  /** A schedule can be extended by any step enabled where it ends. */
  lemma {:induction false} Then(s: Sys, acts: seq<Action>, a: Action)
    requires Runs(s, acts) && Enabled(Exec(s, acts), a)
    ensures Runs(s, acts + [a]) && Exec(s, acts + [a]) == Next(Exec(s, acts), a)
    decreases |acts|
  {
    if acts == [] {
      assert Runs(Next(s, a), []) && [a][1..] == [];
      assert acts + [a] == [a];
    } else {
      Then(Next(s, acts[0]), acts[1..], a);
      assert (acts + [a])[1..] == acts[1..] + [a];
    }
  }

  const L := 3

  /** What Linux lets wait for a backlog of 5. */
  const B := 6

  /** epoll_wait returns the listener alone. */
  lemma ReportListener(before: seq<Action>) returns (acts: seq<Action>)
    requires Runs(Init(L, B), before)
    requires var s := After(L, B, before);
      s.batch == [] && s.k.listener == L && s.k.queue != [] && s.k.regs == map[L := Reg(In, true, true)]
    ensures Runs(Init(L, B), acts)
    ensures var s := After(L, B, before);
      After(L, B, acts) == Sys(s.k.(regs := map[L := Reg(In, true, false)]), s.m, [Event(L, true, false)],
        History(s.k.files, 0, s.h.edges + [s.h.burst], s.h.refused))
  {
    var e := Event(L, true, false);
    assert Reportable(After(L, B, before).k, e);
    assert Reports([e], L) by { assert [e][0] == e; }
    Then(Init(L, B), before, Wait([e]));
    acts := before + [Wait([e])];
  }

  /** The first connection has been accepted as descriptor 5. */
  lemma AcceptedOne() returns (acts: seq<Action>)
    ensures Runs(Init(L, B), acts)
    ensures After(L, B, acts) == Sys(
      Kernel(L, B, [FRESH.(phase := Open(5))], [], map[5 := 0],
             map[L := Reg(In, true, false), 5 := Reg(In, true, true)]),
      map[], [], History(map[], 0, [1], 0))
  {
    var s0 := Init(L, B);
    Then(s0, [], World(Connect));
    acts := ReportListener([] + [World(Connect)]);
    assert After(L, B, acts).k == Kernel(L, B, [FRESH], [0], map[], map[L := Reg(In, true, false)]);
    Then(s0, acts, Dispatch(5, 0));
    acts := acts + [Dispatch(5, 0)];
  }

  /** Two connections behind one edge: the listener is served, one connection stays in the queue, and
      it stays there until another client comes (EpollBacklog.NobodyComesNobodyIsAccepted). */
  lemma TwoArrivalsOnOneEdge()
    ensures exists acts :: Runs(Init(L, B), acts) && Quiet(After(L, B, acts)) && After(L, B, acts).k.queue == [1]
  {
    var s0 := Init(L, B);
    Then(s0, [], World(Connect));
    var acts := [] + [World(Connect)];
    Then(s0, acts, World(Connect));
    acts := ReportListener(acts + [World(Connect)]);
    assert After(L, B, acts).k == Kernel(L, B, [FRESH, FRESH], [0, 1], map[], map[L := Reg(In, true, false)]);
    Then(s0, acts, Dispatch(5, 0));
    acts := acts + [Dispatch(5, 0)];
    assert Quiet(After(L, B, acts));
  }

  /** n clients come before the server looks. */
  ghost predicate Crowded(s: Sys, listener: nat, limit: nat, n: nat) {
    && s.batch == [] && |s.k.queue| == n && s.k.limit == limit && s.k.listener == listener
    && s.k.regs == map[listener := Reg(In, true, true)]
  }

  lemma {:induction false} Burst(listener: nat, limit: nat, n: nat) returns (acts: seq<Action>)
    requires n <= limit
    ensures Runs(Init(listener, limit), acts) && Crowded(After(listener, limit, acts), listener, limit, n)
  {
    acts := [];
    if n > 0 {
      acts := Burst(listener, limit, n - 1);
      Then(Init(listener, limit), acts, World(Connect));
      acts := acts + [World(Connect)];
    }
  }

  lemma RefusedWhenFull(s: Sys, listener: nat, limit: nat)
    requires 0 < limit && Crowded(s, listener, limit, limit)
    ensures var w, d := Wait([Event(listener, true, false)]), Dispatch(-1, 0);
      Enabled(s, w) && Enabled(Next(s, w), d) && Dead(Next(Next(s, w), d))
  {
    var e := Event(listener, true, false);
    assert Reportable(s.k, e);
    assert Reports([e], listener) by { assert [e][0] == e; }
  }

  /** The queue fills up in one burst, the one report of the listener is served by an accept that fails
      (for want of descriptors, say), and that is the end, however long the queue may get. */
  lemma AFailedAcceptCanBeTheEnd(listener: nat, limit: nat)
    requires limit > 0
    ensures exists acts :: Runs(Init(listener, limit), acts) && Dead(After(listener, limit, acts))
  {
    var s0 := Init(listener, limit);
    var acts := Burst(listener, limit, limit);
    RefusedWhenFull(Exec(s0, acts), listener, limit);
    var w, d := Wait([Event(listener, true, false)]), Dispatch(-1, 0);
    Then(s0, acts, w);
    Then(s0, acts + [w], d);
    assert Dead(After(listener, limit, acts + [w] + [d]));
  }

  /** The client of descriptor 5 wrote text, */
  lemma SentOne(text: seq<Byte>) returns (acts: seq<Action>)
    ensures Runs(Init(L, B), acts)
    ensures After(L, B, acts) == Sys(
      Kernel(L, B, [FRESH.(phase := Open(5), sent := text, up := text)], [], map[5 := 0],
             map[L := Reg(In, true, false), 5 := Reg(In, true, true)]),
      map[], [], History(map[], 0, [1], 0))
  {
    acts := AcceptedOne();
    Then(Init(L, B), acts, World(ClientSend(0, text)));
    acts := acts + [World(ClientSend(0, text))];
    assert [] + text == text;
  }

  /** and it has arrived. */
  lemma ArrivedOne(text: seq<Byte>) returns (acts: seq<Action>)
    requires 1 <= |text| <= BUFFER
    ensures Runs(Init(L, B), acts)
    ensures After(L, B, acts) == Sys(
      Kernel(L, B, [FRESH.(phase := Open(5), sent := text, inbox := text)], [], map[5 := 0],
             map[L := Reg(In, true, false), 5 := Reg(In, true, true)]),
      map[], [], History(map[], 0, [1], 0))
  {
    acts := SentOne(text);
    Then(Init(L, B), acts, World(Arrive(0, |text|)));
    acts := acts + [World(Arrive(0, |text|))];
    assert text[..|text|] == text && text[|text|..] == [] && [] + text == text;
  }

  /** epoll_wait returns descriptor 5 alone. */
  lemma ReportFive(before: seq<Action>, e: Event, r: Reg) returns (acts: seq<Action>)
    requires Runs(Init(L, B), before) && e.fd == 5 && (e.inb || e.outb)
    requires var s := After(L, B, before);
      && s.batch == [] && s.k.listener == L && s.k.regs == map[L := Reg(In, true, false), 5 := r]
      && Reportable(s.k, e)
    ensures Runs(Init(L, B), acts)
    ensures var s := After(L, B, before);
      After(L, B, acts) == Sys(
        s.k.(regs := map[L := Reg(In, true, false), 5 := r.(armed := r.armed && !r.edge)]),
        s.m, [e], s.h.(gathered := s.k.files))
  {
    assert Reports([e], 5) by { assert [e][0] == e; }
    assert !Reports([e], L);
    Then(Init(L, B), before, Wait([e]));
    acts := before + [Wait([e])];
  }

  /** And the server has read all of it. */
  lemma ReadOne(text: seq<Byte>) returns (acts: seq<Action>)
    requires 1 <= |text| <= BUFFER
    ensures Runs(Init(L, B), acts)
    ensures After(L, B, acts) == Sys(
      Kernel(L, B, [FRESH.(phase := Open(5), sent := text, chunks := [text])], [], map[5 := 0],
             map[L := Reg(In, true, false), 5 := Reg(Out, false, true)]),
      map[5 := CStr(text)], [], History(map[5 := 0], 0, [1], 0))
  {
    var s0 := Init(L, B);
    acts := ArrivedOne(text);
    acts := ReportFive(acts, Event(5, true, false), Reg(In, true, true));
    var s := Exec(s0, acts);
    Then(s0, acts, Dispatch(-1, |text|));
    acts := acts + [Dispatch(-1, |text|)];
    assert text[..|text|] == text && text[|text|..] == [] && [] + [text] == [text];
    assert Recv(s.k, 5, |text|).1 == text;
  }

  ghost predicate CutShort(s: Sys) {
    && |s.k.conns| == 1
    && s.k.conns[0].sent == [65, 0, 66] && s.k.conns[0].inbox == s.k.conns[0].up == []
    && Parked(s, s.k.conns[0]) == [65] && !Conserved(s, s.k.conns[0])
  }

  /** A NUL inside a message cuts the rest of the chunk off: 'A', NUL, 'B' is answered by 'A' alone. */
  lemma NulIsLossy()
    ensures exists acts :: Runs(Init(L, B), acts) && CutShort(After(L, B, acts))
  {
    var acts := ReadOne([65, 0, 66]);
    var s := After(L, B, acts);
    assert CStr([65, 0, 66]) == [65] by { assert [65, 0, 66][1..][0] == 0; }
    assert Parked(s, s.k.conns[0]) == [65];
  }

  /** Descriptor 5 belongs to connection 1, which has sent nothing; its map entry is connection 0's. */
  ghost predicate Stale(s: Sys) {
    && s.m == map[5 := [65]] && s.k.files == map[5 := 1]
    && |s.k.conns| == 2 && s.k.conns[1].chunks == [] && s.k.conns[1].phase == Open(5)
  }

  /** The map outlives connections: after descriptor 5 is reused it still holds the text of its
      previous owner, while the new owner has sent nothing. NoStaleEcho is about such states. */
  lemma StaleEntryAfterReuse()
    ensures exists acts :: Runs(Init(L, B), acts) && Stale(After(L, B, acts))
  {
    var acts := EchoOne();
    acts := CloseAndReuse(acts);
  }

  /** The one byte of the first client has been echoed. */
  lemma EchoOne() returns (acts: seq<Action>)
    ensures Runs(Init(L, B), acts) && Echoed(After(L, B, acts))
  {
    var s0 := Init(L, B);
    acts := ReadOne([65]);
    assert CStr([65]) == [65];
    acts := ReportFive(acts, Event(5, false, true), Reg(Out, false, true));
    var s := Exec(s0, acts);
    Then(s0, acts, Dispatch(-1, 0));
    acts := acts + [Dispatch(-1, 0)];
    assert SendTo(s.k, 5, [65]).conns == [ECHOED] by { assert [] + [65] == [65]; }
  }

  /** Descriptor 5 is closed, and the listener's event is still to be dispatched. */
  ghost predicate Closing(s: Sys) {
    && s.m == map[5 := [65]] && s.batch == [Event(L, true, false)] && s.k.files == map[] && s.k.listener == L
    && s.k.queue == [1] && |s.k.conns| == 2 && s.k.conns[1] == FRESH
  }

  lemma CloseFive(before: seq<Action>) returns (acts: seq<Action>)
    requires Runs(Init(L, B), before) && Echoed(After(L, B, before))
    ensures Runs(Init(L, B), acts) && Closing(After(L, B, acts))
  {
    var s0 := Init(L, B);
    acts := Leave(before);
    var e, l := Event(5, true, false), Event(L, true, false);
    assert Reportable(After(L, B, acts).k, e) && Reportable(After(L, B, acts).k, l);
    Then(s0, acts, Wait([e, l]));
    acts := acts + [Wait([e, l])];
    Then(s0, acts, Dispatch(-1, 0));
    acts := acts + [Dispatch(-1, 0)];
  }

  /** Close and reuse happen inside one batch. */
  lemma CloseAndReuse(before: seq<Action>) returns (acts: seq<Action>)
    requires Runs(Init(L, B), before) && Echoed(After(L, B, before))
    ensures Runs(Init(L, B), acts) && Stale(After(L, B, acts))
  {
    acts := CloseFive(before);
    Then(Init(L, B), acts, Dispatch(5, 0));
    acts := acts + [Dispatch(5, 0)];
  }

  const ECHOED := FRESH.(phase := Open(5), sent := [65], chunks := [[65]], down := [65])

  ghost predicate Echoed(s: Sys) {
    && s.batch == [] && s.m == map[5 := [65]] && s.k.queue == [] && s.k.conns == [ECHOED]
    && s.k.files == map[5 := 0] && s.k.listener == L && s.k.limit == B
    && s.k.regs == map[L := Reg(In, true, false), 5 := Reg(In, false, true)]
  }

  /** The first client leaves, */
  lemma Hangup(before: seq<Action>) returns (acts: seq<Action>)
    requires Runs(Init(L, B), before) && Echoed(After(L, B, before))
    ensures Runs(Init(L, B), acts)
    ensures After(L, B, acts) == After(L, B, before).(
      k := After(L, B, before).k.(conns := [ECHOED.(fin := true, eof := true)]))
  {
    var s0 := Init(L, B);
    Then(s0, before, World(ClientClose(0)));
    acts := before + [World(ClientClose(0))];
    assert Exec(s0, acts).k.conns == [ECHOED.(fin := true)];
    Then(s0, acts, World(ArriveEof(0)));
    acts := acts + [World(ArriveEof(0))];
    assert Exec(s0, acts).k.conns == [ECHOED.(fin := true, eof := true)];
  }

  /** and a second one comes. */
  lemma Leave(before: seq<Action>) returns (acts: seq<Action>)
    requires Runs(Init(L, B), before) && Echoed(After(L, B, before))
    ensures Runs(Init(L, B), acts)
    ensures After(L, B, acts) == After(L, B, before).(
      k := Kernel(L, B, [ECHOED.(fin := true, eof := true), FRESH], [1], map[5 := 0],
                  map[L := Reg(In, true, true), 5 := Reg(In, false, true)]),
      h := After(L, B, before).h.(burst := After(L, B, before).h.burst + 1))
  {
    acts := Hangup(before);
    Then(Init(L, B), acts, World(Connect));
    acts := acts + [World(Connect)];
  }
}
