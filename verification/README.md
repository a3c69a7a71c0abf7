# Event-loop servers and portable C arithmetic, modelled and proved in Dafny

The project models two groups of code.

**Four echo and greeting servers over one kernel.** The epoll server and its ping-pong client, the poll
server, the select server (with the `fd_set` bitmap it relies on) and the fork server.

* `Streams`, `EpollKernel`: bytes, C strings, and the part of the kernel the epoll programs see:
  connections as FIFO byte streams cut anywhere (RFC 9293, section 2.2), the accept queue, descriptors
  that are reused after close, and registrations with interest, trigger mode and armed bit.
* `EpollServer`, `EpollTheorems`, `EpollBacklog`, `EpollWitnesses`: the dispatch loop over every schedule of kernel,
  network and clients; its inductive invariant; what it guarantees after every schedule; and concrete
  schedules that show where the guarantees end.
* `Decimal`, `PingPong`, `PingPongTheorems`: any number of `client.cpp` programs beside the server, among arbitrary
  other clients: conservation, no deadlock, no livelock.
* `EpollLoop`: the two epoll programs as classes whose methods refine those transition systems.
* `Reactor`, `PollServer`, `SelectServer`, `FdSet`: one abstract wakeup server, what a round keeps, and the
  two programs that refine it, one over a vector compacted in place, one over a list and a bitmap.
* `ForkServer`: unboundedly many processes sharing reference-counted descriptors.

**C arithmetic with exact bounds.**

* `Bits`, `LittleEndian`: machine words, masks and shifts; n-byte little-endian numbers.
* `ByteOrderGeneric`, `ByteOrderX86`, `NetworkOrder`: byte-wise, word-wise and big-endian codecs.
* `TrailingSpace`, `Rounding`, `Alignment`, `Timespec`: the word-at-a-time scan, `rint`, `MY_ALIGN` and the
  timespec macros.

Where a wished-for property does not hold of the code, the exact condition is proved together with an
input that breaks it:

* bytes are conserved exactly while the server has read no NUL (`strlen` and `std::string{buf}` stop there);
* connections are stranded behind the edge-triggered listener exactly when one report stood for two
  arrivals or more, or an accept failed; while the accept queue has room each of them needs as many new arrivals
  as its place in the queue, and once a failed accept has left it full with no report due, none is ever accepted;
* `MY_ALIGN` rounds up exactly when the sum does not wrap, and only for powers of two;
* `diff_timespec` read as signed is exact exactly within 64 bits, and a signed codec round trip holds exactly
  on the range of its width.

## Model

| member | source | states |
|---|---|---|
| EpollTheorems.ByteConservation | IO_Multiplexing/epoll/server.cpp:64-77 | after every schedule and segmentation, sent = received ++ in flight back ++ parked in `m` ++ in flight there, if and only if the server has read no NUL from that client |
| EpollTheorems.NulFreeClientLosesNothing | IO_Multiplexing/epoll/server.cpp:126-135 | a client that writes no NUL loses no byte in any reachable state |
| EpollTheorems.ClosesOnlyWhenDone | IO_Multiplexing/epoll/server.cpp:126-132 | the server closes only after the client did, having read everything and sent back every chunk |
| EpollTheorems.NoStaleEcho | IO_Multiplexing/epoll/server.cpp:133-135 | whatever `Send` is given was received by the connection that owns the descriptor now, in its latest read, although `m` is never erased |
| EpollTheorems.HangupCloses | IO_Multiplexing/epoll/server.cpp:129-132 | in every reachable state EPOLLIN with nothing left to read closes the connection, its descriptor and its registration; every other connection, descriptor, registration and map entry is as before |
| EpollTheorems.MessageIsParked | IO_Multiplexing/epoll/server.cpp:126-128 | in every reachable state EPOLLIN with data takes the bytes `recv` hands over, parks their C string and re-registers the descriptor level triggered for EPOLLOUT; nothing else changes |
| EpollTheorems.MessageIsEchoed | IO_Multiplexing/epoll/server.cpp:133-135 | in every reachable state EPOLLOUT sends the latest chunk back and re-registers the descriptor level triggered for EPOLLIN; nothing else changes |
| EpollTheorems.FirstIsAccepted | IO_Multiplexing/epoll/server.cpp:124-125 | in every reachable state an event of the listener opens the first waiting connection under the number `accept` returns, registered edge triggered for EPOLLIN, or, if `accept` fails, changes nothing |
| EpollTheorems.EmptyEventIsSkipped | IO_Multiplexing/epoll/server.cpp:122-137 | in every reachable state an event with neither EPOLLIN nor EPOLLOUT is taken off the batch and changes nothing |
| EpollTheorems.AnyCutIsReceived | IO_Multiplexing/epoll/server.cpp:69-73 | one `recv` succeeds for exactly the cuts of 1 to 1023 of the bytes that have arrived, and hands over their front |
| EpollTheorems.AnyBatchIsReturned | IO_Multiplexing/epoll/server.cpp:113-117 | `epoll_wait` may return any distinct reportable events if and only if they are at most the 1000 of the array |
| EpollTheorems.BatchSafety | IO_Multiplexing/epoll/server.cpp:117-137 | every event still to be dispatched is the listener's or belongs to a connection open under that descriptor since the batch was gathered; none to a closed or a newer one |
| EpollTheorems.NothingForgotten | IO_Multiplexing/epoll/server.cpp:122-132 | open connections never share a descriptor; connections are accepted in order of arrival; one not yet accepted is in the queue and nowhere else |
| EpollTheorems.QueueIsSuffix | IO_Multiplexing/epoll/server.cpp:124-125 | the accept queue always holds the latest arrivals, oldest first |
| EpollTheorems.NoStall | IO_Multiplexing/epoll/server.cpp:86-106 | a connection with something to read is in the batch or reportable, and one waiting for EPOLLOUT is reportable: the single edge-triggered report is never lost, the level-triggered `ModFd` follows it |
| EpollTheorems.StrandedExactlyWhen | IO_Multiplexing/epoll/server.cpp:86-92 | with no listener report due, the accept queue is empty if and only if every report stood for one arrival and no accept failed; otherwise its length is the excess |
| EpollTheorems.ExcessIsZero | IO_Multiplexing/epoll/server.cpp:124-125 | one accept per report leaves nothing behind exactly when every report stood for one connection |
| EpollTheorems.BacklogIsForever | IO_Multiplexing/epoll/server.cpp:122-125 | a backlog once built up is never worked off, whatever happens later |
| EpollTheorems.BacklogGrows | IO_Multiplexing/epoll/server.cpp:115-138 | the number of stranded connections never falls over any run |
| EpollBacklog.NobodyComesNobodyIsAccepted | IO_Multiplexing/epoll/server.cpp:115-138 | with the listener quiet, no run without a new connection changes the accept queue or makes a report of the listener due |
| EpollBacklog.Admit | IO_Multiplexing/epoll/server.cpp:115-138 | unless the accept queue is full behind a quiet listener, a schedule of arrivals, waits and dispatches alone gets a given waiting connection accepted, with at most one arrival for each connection up to it |
| EpollBacklog.AcceptedAfterArrivals | IO_Multiplexing/epoll/server.cpp:122-125 | with the listener quiet, a connection left in the accept queue can be accepted within n further arrivals if and only if fewer than n connections are in front of it and the queue is not full |
| EpollBacklog.AdmittedUnlessDead | IO_Multiplexing/epoll/server.cpp:27-46 | in every reachable state, for every length limit of the accept queue, a waiting connection can still be accepted if and only if it is not the case that the queue is full behind a quiet listener |
| EpollBacklog.DeadForever | IO_Multiplexing/epoll/server.cpp:27-46 | from a full accept queue behind a quiet listener no run changes the queue, the number of connections or the quietness: the server never accepts again |
| EpollBacklog.DeadOnlyAfterRefusal | IO_Multiplexing/epoll/server.cpp:50-62 | a full accept queue behind a quiet listener takes a failed accept |
| EpollServer.StepInv | IO_Multiplexing/epoll/server.cpp:115-138 | every step of kernel, network, clients and server keeps the invariant tying descriptors, registrations, map entries, batch and byte streams together |
| EpollServer.RunInv | IO_Multiplexing/epoll/server.cpp:115-138 | the invariant holds after every schedule |
| EpollServer.ReadInv | IO_Multiplexing/epoll/server.cpp:126-128 | a successful read, of any length, keeps the invariant: the map entry is the latest chunk exactly when EPOLLOUT is registered, and the stream adds up |
| EpollServer.WriteInv | IO_Multiplexing/epoll/server.cpp:133-135 | sending the parked text and asking for EPOLLIN keeps the invariant |
| EpollServer.CloseInv | IO_Multiplexing/epoll/server.cpp:129-132 | closing a connection keeps the invariant |
| EpollServer.AcceptInv | IO_Multiplexing/epoll/server.cpp:124-125 | accepting, even under a number closed earlier in the same batch, keeps the invariant |
| EpollServer.WaitInv | IO_Multiplexing/epoll/server.cpp:117-117 | any batch of distinct ready descriptors `epoll_wait` may return keeps the invariant |
| Streams.EchoIsLossless | IO_Multiplexing/epoll/server.cpp:64-77 | a list of chunks passed on as C strings is never longer than it was, and is unchanged if and only if it holds no NUL |
| EpollWitnesses.TwoArrivalsOnOneEdge | IO_Multiplexing/epoll/server.cpp:122-125 | a schedule after which a connection waits in the queue and no report of the listener is due |
| EpollWitnesses.AFailedAcceptCanBeTheEnd | IO_Multiplexing/epoll/server.cpp:122-125 | for every queue limit, a schedule that fills the queue in one burst and answers the one report with a failed accept, after which nobody is accepted again |
| EpollWitnesses.NulIsLossy | IO_Multiplexing/epoll/server.cpp:64-77 | a schedule in which a NUL inside a message loses the rest of the chunk |
| EpollWitnesses.StaleEntryAfterReuse | IO_Multiplexing/epoll/server.cpp:114-132 | a schedule that closes and reuses a descriptor within one batch and leaves the old owner's text in `m` |
| EpollLoop.Server.constructor | IO_Multiplexing/epoll/server.cpp:109-114 | the program starts with the listener registered and an empty map |
| EpollLoop.Server.PrintReceiveMessage | IO_Multiplexing/epoll/server.cpp:68-77 | a read stores the chunk up to its first NUL under the descriptor; a failed one only makes the entry exist |
| EpollLoop.Server.Send | IO_Multiplexing/epoll/server.cpp:64-66 | the bytes before the first NUL are appended to what is on the way to the connection that owns the descriptor; no other connection, registration, descriptor or queue entry changes |
| EpollLoop.Server.Dispatch | IO_Multiplexing/epoll/server.cpp:122-137 | the loop body, on mutable state, is the dispatch step of the transition system, for every event |
| EpollLoop.Server.EpollWait | IO_Multiplexing/epoll/server.cpp:117-122 | a return of `epoll_wait` replaces the batch, disarms what it reports, and starts the for loop over |
| EpollLoop.Server.HandleBatch | IO_Multiplexing/epoll/server.cpp:122-137 | the for loop dispatches every reported event in order, while the world moves between them |
| EpollLoop.Server.Serve | IO_Multiplexing/epoll/server.cpp:115-138 | the main loop, which itself decides when to wait and when to dispatch, follows every schedule of world events and system-call results and ends in the state of the transition system |
| EpollLoop.Program | IO_Multiplexing/epoll/server.cpp:108-138 | the program from its start, under any schedule, loses no byte of any NUL-free client |
| EpollLoop.ClientProgram.Handle | IO_Multiplexing/epoll/client.cpp:88-100 | the client's loop body, on mutable state, is the client's move of the ping-pong system |
| PingPongTheorems.PingPongConservation | IO_Multiplexing/epoll/client.cpp:79-99 | a ping-pong client has written "hello\n" and the decimal numerals of the counts below `cnt`, in order; all of it is received, in flight or parked, in order; while it waits for EPOLLIN at least one byte is under way |
| PingPongTheorems.ClientTurn | IO_Multiplexing/epoll/client.cpp:88-100 | one turn of the client: what arrived is read and it asks for EPOLLOUT, or the next count goes out in decimal and it asks for EPOLLIN, or the read failed and nothing changes; no other client or connection is affected |
| PingPongTheorems.ClientGreets | IO_Multiplexing/epoll/client.cpp:80-80 | before its loop the client sends "hello\n" and nothing else changes |
| PingPongTheorems.Progress | IO_Multiplexing/epoll/client.cpp:81-101 | no deadlock: in every state with the joint invariant, hence in every reachable one, each accepted client has an enabled move that is its next send or brings that send strictly nearer |
| PingPongTheorems.RankNeverRises | IO_Multiplexing/epoll/client.cpp:88-99 | nothing that other clients, the network or the server do takes a client further from its next send |
| PingPongTheorems.HelpLowers | IO_Multiplexing/epoll/client.cpp:88-99 | every move made for a client, other than its send, strictly lowers its rank |
| PingPongTheorems.NoLivelock | IO_Multiplexing/epoll/client.cpp:81-101 | no livelock: in every play in which a client writes nothing, the moves made for it (its own, the arrival of its bytes, the reports and dispatches of its connection) number at most its rank |
| PingPongTheorems.EveryCountIsReached | IO_Multiplexing/epoll/client.cpp:95-98 | from every reachable state any number of further messages of a client, accepted yet or not, can be reached if and only if the client does not wait in a full queue behind a quiet listener |
| PingPongTheorems.StuckWritesOnce | IO_Multiplexing/epoll/client.cpp:79-99 | a client waiting in a full queue behind a quiet listener never writes more than its greeting, whatever happens |
| PingPongTheorems.Reach | IO_Multiplexing/epoll/client.cpp:81-101 | for an accepted client, following its enabled moves reaches as many messages as one likes |
| PingPongTheorems.ServerServes | IO_Multiplexing/epoll/server.cpp:117-137 | while bytes are at the server's side, server or network has a step that moves them or shortens the batch |
| PingPongTheorems.OwnDispatch | IO_Multiplexing/epoll/server.cpp:126-135 | dispatching an event of a connection brings its bytes strictly nearer to the client |
| PingPongTheorems.OtherDispatch | IO_Multiplexing/epoll/server.cpp:122-137 | dispatching another descriptor's event never moves a connection back |
| PingPong.MoveInvariant | IO_Multiplexing/epoll/client.cpp:73-101 | every move of any client or the server keeps the joint invariant |
| PingPong.PlayInv | IO_Multiplexing/epoll/client.cpp:73-101 | the joint invariant holds after every play |
| PingPong.ClientConserved | IO_Multiplexing/epoll/client.cpp:49-49 | no byte of a ping-pong client is NUL, so `strlen` never truncates it and its bytes are conserved |
| Decimal.DigitsAreDecimal | IO_Multiplexing/epoll/client.cpp:96-96 | the text sent for a count is its decimal numeral, and no other text is: digits only, no leading zero, and the count when read from left to right |
| Reactor.RoundInv | IO_Multiplexing/poll/server.cpp:94-112 | after each wakeup the table lists exactly the open connections, once each, in order of arrival, and every accepted connection is open or closed once; whatever the new entry's `revents` |
| Reactor.RoundRefines | IO_Multiplexing/poll/server.cpp:94-112 | every wakeup is one of the abstract server: at most one arrival; the connections served are exactly the live ones that are ready, and the newcomer if its entry claims input; each once, oldest first, welcomed on data and closed at its end |
| Reactor.ServedWho | IO_Multiplexing/poll/server.cpp:95-101 | a wakeup serves exactly the reported open connections, and the one just accepted if its unset `revents` claims input |
| Reactor.ServeAllOutcome | IO_Multiplexing/poll/server.cpp:100-109 | what the serving loop does, entry by entry: who stays, who is closed, in which order both are recorded |
| Reactor.RoundFrame | IO_Multiplexing/select/server.cpp:101-116 | a wakeup opens no descriptor but the one accept returned, and the listener stays |
| Reactor.FinalInv | IO_Multiplexing/poll/server.cpp:83-113 | the table stays exact over every run |
| Reactor.RunRefines | IO_Multiplexing/poll/server.cpp:83-113 | every run of wakeups is a run of the abstract server, wakeup by wakeup, early service only where the new entry claimed input |
| Reactor.AcceptedOnce | IO_Multiplexing/poll/server.cpp:94-112 | after any run every connection ever accepted is in the table or closed, never both, never twice; entries are distinct, none is -1 or the listener |
| PollServer.Vector.EmplaceBack | IO_Multiplexing/poll/server.cpp:95-98 | appending keeps all entries, also when the buffer has to grow |
| PollServer.Vector.FindMarked | IO_Multiplexing/poll/server.cpp:110-112 | finds the first -1 entry |
| PollServer.Vector.EraseMarked | IO_Multiplexing/poll/server.cpp:110-112 | the in-place two-index erase keeps exactly the entries that are not -1, in order |
| PollServer.KeepFds | IO_Multiplexing/poll/server.cpp:110-112 | erasing entries and erasing descriptors commute |
| PollServer.Server.constructor | IO_Multiplexing/poll/server.cpp:80-82 | the vector starts with the listener alone |
| PollServer.Server.Poll | IO_Multiplexing/poll/server.cpp:85-85 | poll rewrites `revents` of every entry and nothing else |
| PollServer.Server.AcceptIfReady | IO_Multiplexing/poll/server.cpp:94-99 | one connection is accepted and appended exactly when the first entry was reported |
| PollServer.Server.ServeEntry | IO_Multiplexing/poll/server.cpp:101-108 | one entry is greeted, or closed and marked, or left alone; no other entry changes |
| PollServer.Server.ServeTable | IO_Multiplexing/poll/server.cpp:100-109 | the index loop serves every entry but the listener's, in order |
| PollServer.Server.Compact | IO_Multiplexing/poll/server.cpp:110-112 | index 0 remains the listener and the survivors keep their order |
| PollServer.Server.Iterate | IO_Multiplexing/poll/server.cpp:84-112 | one iteration, for any garbage in the new entry, is a round of the reactor and keeps the table exact |
| PollServer.Server.Loop | IO_Multiplexing/poll/server.cpp:83-113 | the main loop is a run of the reactor, and so a run of the abstract server |
| SelectServer.Server.BuildReadSet | IO_Multiplexing/select/server.cpp:82-88 | the rebuilt bitmap holds exactly the listener and the live list, and `max_fd` is its maximum |
| SelectServer.Server.WaitReadable | IO_Multiplexing/select/server.cpp:82-92 | what the bitmap holds after select is exactly what is ready among all open descriptors: none lies beyond `max_fd + 1` |
| SelectServer.TableIsMarked | IO_Multiplexing/select/server.cpp:101-106 | a descriptor just accepted tests false, because it was not open when the bitmap was built |
| SelectServer.Server.ServeEntry | IO_Multiplexing/select/server.cpp:105-115 | one descriptor is greeted, or closed, its bit cleared, and marked; no other bit changes |
| SelectServer.Server.ServeList | IO_Multiplexing/select/server.cpp:105-115 | serving the list in order: the bits of the descriptors closed on the way are cleared and no others, so what is served later is not changed |
| SelectServer.Server.RemoveMarked | IO_Multiplexing/select/server.cpp:116-116 | the marked entries go, the others keep their order |
| SelectServer.Server.Iterate | IO_Multiplexing/select/server.cpp:81-117 | one iteration is a round of the reactor in which the newcomer is not served, and keeps the list exact |
| SelectServer.Server.Loop | IO_Multiplexing/select/server.cpp:81-117 | the main loop is a run of the reactor, and so a run of the abstract server in which no newcomer is served early |
| FdSet.BitSet.Zero | IO_Multiplexing/README.md:179-185 | FD_ZERO makes the set empty |
| FdSet.BitSet.Set | IO_Multiplexing/README.md:173-174 | FD_SET adds its descriptor and no other, and touches no word but d / 64 |
| FdSet.BitSet.Clr | IO_Multiplexing/README.md:175-176 | FD_CLR removes its descriptor and no other, and touches no word but d / 64 |
| FdSet.BitSet.IsSet | IO_Multiplexing/README.md:177-178 | FD_ISSET is membership |
| FdSet.BitSet.Layout | IO_Multiplexing/README.md:132-156 | the bitmap is 16 words of 64 bits, and descriptor 64 i + k is bit k of word i |
| FdSet.MaskBit | IO_Multiplexing/README.md:132-134 | within a word a mask has the bit of its own descriptor and no other |
| ForkServer.StepInv | IO_Multiplexing/fork/server.cpp:76-92 | every step of every process keeps the invariant on descriptors, counts, sharing and greetings |
| ForkServer.RunInv | IO_Multiplexing/fork/server.cpp:76-92 | the invariant holds after every interleaving |
| ForkServer.CountIsHolders | IO_Multiplexing/fork/server.cpp:79-91 | the descriptor count of a connection is the number of processes holding it, at most two |
| ForkServer.AcceptHoldsOnlyListener | IO_Multiplexing/fork/server.cpp:77-91 | a process at accept has the listener open and nothing else |
| ForkServer.ForksMakeServers | IO_Multiplexing/fork/server.cpp:76-92 | processes plus failed asserts equal successful forks plus one, and every process shares the listener: the child never leaves the loop |
| ForkServer.GreetedOnce | IO_Multiplexing/fork/server.cpp:82-91 | no connection is greeted twice, and one nobody holds any more was greeted if and only if its fork had succeeded |
| ForkServer.EachCall | IO_Multiplexing/fork/server.cpp:76-92 | in every reachable state: accept opens the next connection beside the listener; fork gives the child the same descriptors and lets it greet, and the parent close; the greeting goes to the child's own connection; close leaves the listener alone; no call touches another process |
| ForkServer.Machine.AcceptFd | IO_Multiplexing/fork/server.cpp:77-78 | accept numbers a new connection; a failed one ends the process and releases its descriptors |
| ForkServer.Machine.ForkProc | IO_Multiplexing/fork/server.cpp:79-82 | fork duplicates every descriptor and lets the child greet; a failed one leaves everything with the parent, and either way the parent goes on to close |
| ForkServer.Machine.CloseFd | IO_Multiplexing/fork/server.cpp:91-91 | close releases one descriptor of one process |
| ForkServer.Machine.Run | IO_Multiplexing/fork/server.cpp:76-92 | the kernel follows every interleaving of the system calls of all processes |
| ForkServer.Machine.Process | IO_Multiplexing/fork/server.cpp:76-92 | the loop body as one process executes it, entered at accept or, by a child, where fork returned 0, makes exactly the calls of that process in every interleaving with all others |
| TrailingSpace.SkipTrailingSpace | MySQL/demo/include/win32/m_string.h:254-278 | for every address, length and content the three-zone scan ends where the byte-wise scan ends, within the buffer, for 4 and 8-byte words |
| TrailingSpace.SkipWords | MySQL/demo/include/win32/m_string.h:270-272 | the word loop, whose every read needs an aligned word inside the buffer, skips only spaces and never goes below the first aligned word |
| TrailingSpace.StripIsLongest | MySQL/demo/include/win32/m_string.h:220-252 | the byte-wise scan yields the longest prefix not ending in 0x20, and nothing else does |
| TrailingSpace.WordIsSpaces | MySQL/demo/include/win32/m_string.h:211-218 | a word equals SPACE_INT if and only if all its bytes are spaces |
| Rounding.RintIsNearest | MySQL/demo/include/win32/my_global.h:1152-1177 | on every double the result is n if and only if n is nearest, ties to the even neighbour |
| Rounding.RintOnReals | MySQL/demo/include/win32/my_global.h:1160-1177 | the same equivalence for every real below 2^53 in magnitude, double or not, and for every integer |
| Rounding.TiesGoToEven | MySQL/demo/include/win32/my_global.h:1168-1175 | n / 2 for every odd n below 2^53 in magnitude is a double and goes to its even neighbour |
| Rounding.DoublesAre | MySQL/demo/include/win32/my_global.h:1146-1150 | the doubles are exactly the integers below 2^53 in magnitude times any power of two |
| Rounding.MantissaBits | MySQL/demo/include/win32/my_global.h:1146-1150 | MAX_EXACT_INTEGER is 2^53 - 1 |
| Rounding.ScaledIsProduct | MySQL/demo/include/win32/my_global.h:1146-1150 | a scaled mantissa is the mantissa times the power of two, for positive and negative exponents |
| Rounding.LargeDoublesAreEven | MySQL/demo/include/win32/my_global.h:1164-1167 | doubles beyond MAX_EXACT_INTEGER are even integers |
| Rounding.RintIsOdd | MySQL/demo/include/win32/my_global.h:1168-1175 | rint(-x) is -rint(x) |
| Rounding.RintIsMonotone | MySQL/demo/include/win32/my_global.h:1160-1177 | rint is monotone on doubles |
| Rounding.RintIsDouble | MySQL/demo/include/win32/my_global.h:1160-1177 | the result is a double again and rounding it again changes nothing |
| Rounding.BeyondDoubles | MySQL/demo/include/win32/my_global.h:1146-1150 | a real tie above MAX_EXACT_INTEGER, which no double is, would be rounded to odd |
| Alignment.AlignsExactlyWhen | MySQL/demo/include/win32/my_global.h:824-824 | for a power of two the macro gives the multiple that rounds A up if and only if A + L - 1 does not wrap |
| Alignment.AlignWraps | MySQL/demo/include/win32/my_global.h:824-824 | the largest word aligned to any power of two but 1 becomes 0 |
| Alignment.RoundsUpIsLeast | MySQL/demo/include/win32/my_global.h:824-824 | that multiple is the least one at or above A |
| Alignment.OnlyPowersOfTwo | MySQL/demo/include/win32/my_global.h:824-824 | the macro rounds every non-wrapping A up if and only if L is a power of two |
| Bits.AndHighMask | MySQL/demo/include/win32/my_global.h:824-824 | masking with ~(L - 1) rounds down to a multiple of L |
| LittleEndian.LoadOfStore | MySQL/demo/include/win32/byte_order_generic.h:35-95 | for any width a stored number loads as its value modulo the width |
| LittleEndian.StoreOfLoad | MySQL/demo/include/win32/byte_order_generic.h:35-95 | for any width storing a loaded number restores the bytes |
| LittleEndian.StoredBytes | MySQL/demo/include/win32/byte_order_generic.h:64-95 | the bytes left by right shifts of any signed value are those of its unsigned residue |
| LittleEndian.SignedRoundTrip | MySQL/demo/include/win32/byte_order_generic.h:20-34 | a signed value survives its unsigned pattern if and only if it fits the width |
| LittleEndian.SignedEdge | MySQL/demo/include/win32/byte_order_generic.h:20-34 | for every width, one past the largest signed value reads back as the smallest |
| ByteOrderGeneric.Korr | MySQL/demo/include/win32/byte_order_generic.h:35-63 | every unsigned load is the little-endian number of its bytes; no partial sum or cast drops anything |
| ByteOrderGeneric.Uint8korr | MySQL/demo/include/win32/byte_order_generic.h:55-63 | two 32-bit halves make the exact 64-bit number |
| ByteOrderGeneric.Sint3korr | MySQL/demo/include/win32/byte_order_generic.h:22-29 | the 3-byte load is two's-complement sign extension of 24 bits |
| ByteOrderGeneric.LoadAfterStore | MySQL/demo/include/win32/byte_order_generic.h:35-95 | for widths 2, 3, 4, 5, 6 and 8, at any place of any buffer, loading what was stored gives the value modulo 2^(8n) |
| ByteOrderGeneric.StoreAfterLoad | MySQL/demo/include/win32/byte_order_generic.h:35-95 | for the same widths storing a loaded value leaves the buffer as it was |
| ByteOrderGeneric.SignedTwoBytes | MySQL/demo/include/win32/byte_order_generic.h:20-21 | the 16-bit signed round trip holds exactly on [-2^15, 2^15) |
| ByteOrderGeneric.SignedThreeBytes | MySQL/demo/include/win32/byte_order_generic.h:22-29 | the 24-bit signed round trip holds exactly on [-2^23, 2^23) |
| ByteOrderGeneric.SignedThreeBytesEdge | MySQL/demo/include/win32/byte_order_generic.h:22-29 | 2^23 stored in three bytes reads back as -2^23, in any buffer |
| ByteOrderGeneric.SignedFourBytes | MySQL/demo/include/win32/byte_order_generic.h:30-33 | the 32-bit signed round trip holds exactly on [-2^31, 2^31) |
| ByteOrderGeneric.SignedEightBytes | MySQL/demo/include/win32/byte_order_generic.h:34-34 | the 64-bit signed round trip holds exactly on [-2^63, 2^63) |
| ByteOrderGeneric.Int2store | MySQL/demo/include/win32/byte_order_generic.h:64-67 | two bytes become the low digits of the value, all others stay |
| ByteOrderGeneric.Int3store | MySQL/demo/include/win32/byte_order_generic.h:68-72 | the same for three bytes |
| ByteOrderGeneric.Int4store | MySQL/demo/include/win32/byte_order_generic.h:73-77 | the same for four bytes |
| ByteOrderGeneric.Int5store | MySQL/demo/include/win32/byte_order_generic.h:78-83 | the same for five bytes |
| ByteOrderGeneric.Int6store | MySQL/demo/include/win32/byte_order_generic.h:84-90 | the same for six bytes |
| ByteOrderGeneric.Int8store | MySQL/demo/include/win32/byte_order_generic.h:91-95 | two four-byte stores of the halves write the eight-byte number |
| ByteOrderGeneric.HalvesJoin | MySQL/demo/include/win32/byte_order_generic.h:91-95 | splitting into 32-bit halves is exact, also for negative values |
| ByteOrderX86.LoadsAgree | MySQL/demo/include/win32/byte_order_generic_x86_64.h:19-54 | on little-endian memory every word load equals the byte-wise load, for every buffer long enough for that load |
| ByteOrderX86.FourthByteIgnored | MySQL/demo/include/win32/byte_order_generic_x86_64.h:30-40 | the 4-byte-reading uint3korr does not depend on the fourth byte |
| ByteOrderX86.Int2store | MySQL/demo/include/win32/byte_order_generic_x86_64.h:56-58 | the word store leaves the same buffer as the byte-wise store |
| ByteOrderX86.Int3store | MySQL/demo/include/win32/byte_order_generic_x86_64.h:60-63 | the uint cast before one of the shifts changes no byte |
| ByteOrderX86.Int4store | MySQL/demo/include/win32/byte_order_generic_x86_64.h:64-66 | the word store leaves the same buffer as the byte-wise store |
| ByteOrderX86.Int8store | MySQL/demo/include/win32/byte_order_generic_x86_64.h:81-83 | the word store leaves the same buffer as the two half stores |
| NetworkOrder.Longstore | MySQL/demo/include/win32/big_endian.h:70-73 | four bytes become the digits of the value, highest first, all others stay |
| NetworkOrder.Shortstore | MySQL/demo/include/win32/big_endian.h:67-69 | two bytes become the low digits, highest first, all others stay |
| NetworkOrder.NetRoundTrip | MySQL/demo/include/win32/my_byteorder.h:24-27 | int4net reads back the 32-bit pattern longstore wrote, and the number itself if and only if it is a 32-bit signed one |
| NetworkOrder.NetIsReversedLoad | MySQL/demo/include/win32/my_byteorder.h:20-27 | int4net is the little-endian load of the reversed bytes |
| NetworkOrder.ShortRoundTrip | MySQL/demo/include/win32/big_endian.h:51-52 | ushortget reads back what shortstore wrote, modulo 2^16 |
| Timespec.AbsTime.SetTimeNsec | MySQL/demo/include/win32/my_pthread.h:427-432 | the fields are normalised and total TIME * 100 + NSEC exactly; if the sum wraps, exactly 2^64 ticks less |
| Timespec.CmpIsTotalOrder | MySQL/demo/include/win32/my_pthread.h:435-458 | on normalised times the comparison is the total order of total nanoseconds |
| Timespec.DiffIsResidue | MySQL/demo/include/win32/my_pthread.h:469-470 | the unsigned difference is the true one modulo 2^64, whatever wraps on the way |
| Timespec.Moduli | MySQL/demo/include/win32/my_pthread.h:469-470 | the arithmetic is modulo 2^64, read as signed from 2^63 on |
| Timespec.DiffIsExactWhenItFits | MySQL/demo/include/win32/my_pthread.h:469-470 | read as signed the difference is exact if and only if it fits 64 bits, and then its sign is the comparison |
| Timespec.DiffWrapsAtTheEdge | MySQL/demo/include/win32/my_pthread.h:469-470 | a time 2^63 nanoseconds later reads as earlier |

## Left out

- Socket setup, address parsing, printing, errno texts and the non-blocking flag: only their effect on the kernel state is kept.
- Return values of -1 from `epoll_wait`, `poll` and `select`, which leave the loops, and timeouts of `poll` and `select`, which change nothing.
- Partial or failed `send`, SIGPIPE and connection resets: the programs ignore the return value of `send`, so it takes every byte, and a client leaves by an orderly end of its stream.
- A `recv` of the epoll server that fails although data is there: read readiness is never spurious in the model.
- Events of the epoll server with neither EPOLLIN nor EPOLLOUT are allowed and do nothing, as in the code; reports of the listener always carry EPOLLIN.
- The epoll instance's own descriptor number. The length limit of the accept queue, which the backlog of 5 sets in a way that depends on the kernel, is a parameter; a client whose connection finds the queue full is not modelled until there is room.
- What follows the loops: the listener is closed only when they end.
- Progress: is about accepted clients, because one left behind in the accept queue has no step of its own: it is let in when further clients come, and only then, as `NobodyComesNobodyIsAccepted`, `AcceptedAfterArrivals` and `AdmittedUnlessDead` say. `EveryCountIsReached` covers both.
- Overflow of the client's `int cnt` after 2^31 messages, and the client after the server closed on it.
- The select server is modelled for successful accepts and descriptors below 1024, because `FD_SET` has no bit for other numbers.
- When the unset `revents` of a connection just accepted claims input, the poll server's `recv` on it blocks the whole server until that client talks or hangs up; the model serves it at once with whatever came.
- `std::list` of the select server is a sequence; `std::unordered_map` is a map; iteration order of the latter is never used.
- The text of the greetings of the poll, select and fork servers: only who is greeted, and in which order.
- The numbers of forked processes may be reused in the model; what a child prints is not modelled, and the effect of its one blocking `recv` is to go on.
- RintIsDouble: does not model signed zero, and doubles have unbounded exponents here, so overflow and denormals play no part.
- DiffIsResidue: signed overflow of the `tv_sec` subtraction, undefined in C, is taken modulo 2^64.
- SkipTrailingSpace: the debug-only assertion that the address is at least the word size is not part of the model.
- The 5- and 6-byte macros and `sint3korr` of the x86_64 header are those of the generic header, so there is nothing to compare; `byte_order_generic_x86.h` is not part of this model.
- `ulongget`, `longget`, `shortget` and the float and double macros of `big_endian.h`, and `little_endian.h`: copies of representations.
- Kafka producer, SQL builders, CMake, Makefile and debugger demos, thread and socket examples: easy or without a body to be faithful to.
