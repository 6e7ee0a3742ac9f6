# A verified model of the file system's coordination core

The repository is a small distributed file system in C: data servers that hand locks along a
pipeline, meta servers that agree by Paxos, lock-free queues between threads, a hash table used
by everything, and a packet layer. This project models those parts in Dafny 4.11 and proves what
they promise. `dafny verify dfyconfig.toml` checks all of it.

Each protocol is a state machine whose steps are the code's own handlers, and the theorems speak
about every run. Code that changes things in place is a class or a method, proved equal to the
functions the state machines are made of.

| part | modules |
|---|---|
| data-server lock pipeline | `LockServer` (one server as a value), `DataServer` (the same in place), `LockProtocol` (many servers and a network), `LockTheorems`; `LockRequests`, `LockSchedules` and `LockGraph` (exactly which orders and circles are possible), `LockOrders`, `LockCycle` and `LockLimits` (what the lists of servers alone say about circles) |
| lock-free queues | `FifoSpec` (an atomic queue seen from outside), `MsQueue`, `MsQueueFifo`, `MsQueueProgress`, `MsQueueCode`, `PairQueue`, `PairQueueCode` |
| hash table | `HashLayout` (slots, chains, free list), `HashTable` (the table on its arrays) |
| Paxos for NORMAL topics | `PaxosRules`, `PaxosServer` (the handlers in place), `Paxos` (runs and agreement), `PaxosRuns` (the handlers make the steps of those runs), `PaxosProgress` (a proposal that nobody outbids is chosen), `PaxosLimits`; `Membership` for the server mask |
| global lock | `GlobalLock` |
| packets and connections | `Bytes`, `Packet`, `Codec`, `RingQueue`, `NetStream` (receiving), `NetSend` (sending) |
| shared | `Ids`, `Seqs`, `Sums`, `Graphs`, `Majorities`, `Wrappers` |

## What holds, and under which hypotheses

**Lock pipeline.** A request visits its data servers in order; a server that meets a conflicting
lock it has passed on makes the request wait. Hypotheses: server lists are non-empty, strictly
ascending and made of known servers, lock ids are unique, requests start at position 0, packets
arrive exactly once in any order, and all peers are connected. Then any two locks are taken in
the same order at every server both visit; a lock waits only while something it conflicts with
is ahead of it; nothing is lost, duplicated or stuck, and each delivery lowers one measure.

The pairwise orders need not fit together: three locks can be taken in a circle. Which orders are
possible is known exactly, whatever the lists (`LockGraph.OrderExact`). Say for each two locks that
share a server which goes first. Draw an arrow from every hop of a lock to its later hops, and,
where `a` goes before `b` at server `s`, from `a`'s hop at the next server they share, or at `s`
if there is none, to `b`'s hop at `s`. Some run takes the locks in this order if and only if the
arrows do not close a cycle. So locks can go round in a circle if and only if some such choice
goes round while its arrows do not (`LockGraph.CircleExact`).

Three conditions on the lists are simpler to check. Locks whose lists all name one server are never
in a circle (`LockCycle.NeverCircle`). Locks that are in one hold a ring: different ones of them
meet one after the other, and the last the first, not all at one server (`LockCycle.NeedsRing`).
Where each two share at most one server a ring is also enough (`LockCycle.CircleIffRing`). Where
they share more it is not: the lists 1 3 4, 1 2 4 5 and 2 3 5 hold a ring and have no server in
common, but no run takes them in a circle (`LockLimits.RingWithoutCircle`).

**Queues.** Any number of threads run the Michael-Scott queue one shared access at a time, with
32-bit tags that wrap. Every run shows the calls, returns and results of a run of the atomic
queue, no thread can get stuck, and the length of a run is bounded by the operations in it. The
single-reader single-writer queue refines the same atomic queue, and each of its operations ends
within a fixed number of its own accesses. The classes with the queues' fields carry out any
schedule of operations, every turn of it that fits where its thread stands, and what their callers
see is such a run. For one pushing
and one popping thread this says of calls and returns alone: the values the pops have returned are,
in order, a prefix of the values the pushes were given, and the rest is in the queue or under way.

**Hash table.** For any hash function, over any sequence of operations and through any number of
doublings, the table is the finite map they build.

**Paxos.** Agreement among a fixed set of servers, on values that are not negative (the code
reports a negative one as none), holds in every run in which (1) a response that comes after a
proposal's first majority and reports a higher id than those before it reports the proposal's own
value, and (2) a server that answers an undecided proposal has accepted nothing between the entry
it reports and the proposal's id. The two conditions are exact for the invariant behind agreement:
a step keeps it if and only if it meets them (`Paxos.AnswerExact`, `Paxos.RequestExact`), and it
holds all along a run if and only if every step does (`Paxos.RunExact`). Neither can be dropped:
`PaxosLimits` keeps one of them and breaks the other, and two values are chosen. Both follow from
two simple hypotheses: no response after the first majority reports a higher id than those before
it, and no server receives a prepare request below an id it has already accepted
(`Paxos.InTimeAgreement`). Nor is agreement empty: in every reachable state, a server whose next
number makes an id above every promise gets a value chosen by asking any majority and sending it
the ACCEPT packet (`PaxosProgress.Progress`). Uniqueness of proposal ids is proved from the servers' counters, which
other topics use too.

**Global lock.** The invariant (the mask is the disjoint union of the granted masks and overlaps
every waiting one) is kept by a lock request exactly if its id is not that of a granted lock with
bits of its own, and by an unlock exactly if the lock named is granted or unknown and no client
whose lock is given on has gone. Over such runs, two locks that are granted at the same time have
asked for different bits (`GlobalLock.GrantedApart`).

**Packets.** One packet may be queued on many connections under different request ids. As long as
its payload and function are not changed while it is queued, every connection carries its own
packets, in order, each with its own id, and a receiver that cuts the stream anywhere gets exactly
those packets. A meta data record survives encoding and decoding exactly if its name has fewer
than 32768 bytes.

Where the code and its comments differ, the code is followed: `ilock_is_conflict` reads one
element past the first list when that list has ended; in the model this read finds any number,
and the result does not depend on it. A string that is too long for a packet is silently left out
of it.

## Model

| member | source | states |
|---|---|---|
| DataServer.IsConflict | core/s_core_dserv.c:4-29 | the merge of two server lists decides exactly whether the first server both still have ahead exists and is finished in neither |
| LockServer.FirstCommonDecides | core/s_core_dserv.c:12-20 | at the first common server alone it is decided whether two locks conflict, as no second pair of positions is first |
| LockServer.ConflictSymmetric | core/s_core_dserv.c:4-29 | conflict does not depend on which lock was sent first |
| DataServer.DataServer.ConflictAll | core/s_core_dserv.c:31-44 | true exactly if some sent lock conflicts |
| DataServer.DataServer.SendUnlocks | core/s_core_dserv.c:133-154 | one UNLOCK to every earlier server of the list, in order, with the lock's id, none for the first server |
| DataServer.DataServer.TakeDone | core/s_core_dserv.c:158-215 | an UNLOCK to each earlier server, then LOCK_NEXT to the next one, where the lock is also remembered, or LOCK_END to the client |
| DataServer.DataServer.HandleLock | core/s_core_dserv.c:304-362 | with no server finished, the lock waits at the end of the list and nothing is sent if it conflicts, and is taken with nothing else changed if not |
| DataServer.DataServer.ScanWaiting | core/s_core_dserv.c:414-417 | finds the first waiting lock that conflicts with no sent lock, all before it conflicting |
| DataServer.DataServer.DrainWaiting | core/s_core_dserv.c:412-424 | the restarting scan ends and takes what the recursive meaning takes, in its order |
| DataServer.MarkElems | core/s_core_dserv.c:390-403 | the reporter's elements become finished, no others change, and the result says whether all are |
| DataServer.DataServer.MarkSent | core/s_core_dserv.c:388-410 | the marked lock stays in place, or leaves list and hash together when all have reported |
| DataServer.DataServer.HandleUnlock | core/s_core_dserv.c:369-426 | an UNLOCK marks, maybe forgets, then drains; an unknown id changes nothing |
| LockServer.DrainSettles | core/s_core_dserv.c:412-424 | after the restart loop every waiting lock conflicts with a sent one, wherever it started |
| LockServer.OnLockSettles | core/s_core_dserv.c:354-360 | reading a lock keeps: every waiting lock conflicts with a sent one |
| LockServer.OnUnlockSettles | core/s_core_dserv.c:382-424 | an UNLOCK keeps the same |
| LockProtocol.RunKeeps | core/s_core_dserv.c:304-426 | the full invariant of servers, packets in flight and history holds in every reachable state |
| LockProtocol.TookOrder | core/s_core_dserv.c:354-360 | taking a lock keeps: whoever is ahead at a server is ahead, or unopposed, at the next server they share |
| LockTheorems.OrderAgreement | core/s_core_dserv.c:4-44 | any two locks are taken in one order at all servers that took both, under any reordering of packets |
| LockTheorems.WaitingConflicts | core/s_core_dserv.c:354-357 | in every reachable state a waiting lock conflicts with a sent one |
| LockTheorems.OnePlace | core/s_core_dserv.c:97-215 | a started lock is in exactly one place, has been taken once each at exactly a prefix of its list, and LOCK_END is out once, exactly when the prefix is the whole |
| LockTheorems.PacketsFit | core/s_core_dserv.c:345-348 | the assert on the current element holds for every packet, every UNLOCK finds its lock, and no lock is ever finished everywhere |
| LockTheorems.NewToServer | core/s_core_dserv.c:315-334 | a LOCK packet's lock is in neither list of the server it reaches |
| LockTheorems.WaitsForHigher | core/s_core_dserv.c:12-26 | with no packet in flight, a lock waiting at a server implies one waiting at a higher server |
| LockTheorems.Progress | core/s_core_dserv.c:354-424 | with no LOCK or UNLOCK in flight nothing waits and every started lock has got LOCK_END |
| LockTheorems.DeliveryCosts | core/s_core_dserv.c:133-215 | every delivery strictly lowers a measure of hops to go and packets in flight |
| LockTheorems.EveryLockCompletes | core/s_core_dserv.c:133-426 | from any state only so many deliveries are possible, and when none is left every started lock has completed once |
| LockOrders.NeverConflicts | core/s_core_dserv.c:31-44 | a lock that shares at most one server with each other lock conflicts with none when it arrives |
| LockOrders.AnyOrder | core/s_core_dserv.c:304-362 | for any locks of which each two share at most one server and any choice of an order at every server, some run takes them in these orders and completes them all |
| LockSchedules.ReadyPasses | core/s_core_dserv.c:12-44 | a lock that comes to a server when whoever has passed it there has also passed the next server they share conflicts with nothing |
| LockSchedules.RunSchedule | core/s_core_dserv.c:304-426 | every sequence of hops in which no lock comes too early is what some run does |
| LockGraph.OrderExact | core/s_core_dserv.c:4-44 | for any lists and any choice of who goes first where two locks meet, some run takes the locks so if and only if no hop would have to wait for itself |
| LockGraph.CircleExact | core/s_core_dserv.c:4-44 | for any lists, some run takes locks in a circle if and only if such a choice goes round without a hop waiting for itself |
| LockCycle.NeverCircle | core/s_core_dserv.c:4-44 | in every reachable state, locks whose lists all name one server are not in a circle, taken there already or not |
| LockCycle.NeedsRing | core/s_core_dserv.c:12-20 | for any lists, locks that some run takes in a circle hold a ring |
| LockLimits.RingWithoutCircle | core/s_core_dserv.c:12-26 | three lists with a ring and no common server that no run takes in a circle |
| LockCycle.CircleIffRing | core/s_core_dserv.c:12-20 | a special case that is easy to check: locks of which each two share at most one server can be taken in a circle if and only if their lists of servers hold a ring |
| LockCycle.CircularOrder | core/s_core_dserv.c:12-20 | its smallest case: three locks of which each two share exactly one server can be taken in a circle if and only if no server is common to all three |
| MsQueueCode.Queue.CasNext | lockfree/s_ms_queue.c:133-134 | success exactly if pointer and tag are the expected ones, and then the node is linked under the next tag modulo 2^32 |
| MsQueueCode.Queue.CasTail | lockfree/s_ms_queue.c:143-144 | the tail moves, to the next tag, exactly if it is the expected pointer and tag |
| MsQueueCode.Queue.CasHead | lockfree/s_ms_queue.c:164-165 | the same for the head, with the outcome |
| MsQueueCode.Queue.PushStep | lockfree/s_ms_queue.c:120-145 | each shared access of a push on the real fields is a step of the machine |
| MsQueueCode.Queue.PopStep | lockfree/s_ms_queue.c:147-173 | each shared access of a pop on the real fields is a step of the machine |
| MsQueue.StepKeeps | lockfree/s_ms_queue.c:128-170 | every step of any thread keeps the list, ownership and snapshot invariants |
| MsQueue.Structure | lockfree/s_ms_queue.c:101-173 | in every reachable state head, tail and last node lie in order on one list without repetition, the tail at most one behind |
| MsQueue.ReadHeadNext | lockfree/s_ms_queue.c:152-158 | behind an old head with the tail further on there is a real next node, also with wrapped tags |
| MsQueue.NeverStuck | lockfree/s_ms_queue.c:154-163 | no thread ever reads through NULL: its next access is possible in every reachable state |
| MsQueueFifo.LinkSim | lockfree/s_ms_queue.c:134 | the CAS on next is the instant at which the value enters the atomic queue |
| MsQueueFifo.HeadSim | lockfree/s_ms_queue.c:163-165 | the CAS on head is the instant at which the oldest value leaves, and it is the one read before |
| MsQueueFifo.EmptySim | lockfree/s_ms_queue.c:154-158 | a pop that reads NULL sees the queue empty at that instant |
| MsQueueFifo.Linearizable | lockfree/s_ms_queue.c:120-173 | every run has the calls, returns and results, in order, of a run of the atomic queue |
| MsQueueCode.Queue.Take | lockfree/s_ms_queue.c:120-173 | a turn is carried out exactly if it fits: a call is made by a thread at rest, an access by one inside an operation; else nothing changes |
| MsQueueCode.Queue.Execute | lockfree/s_ms_queue.c:120-173 | the fitting turns of any schedule, all of them and in order, are carried out on the real fields, and show the calls, returns and results of a run of the atomic queue |
| FifoSpec.InOrder | lockfree/s_ms_queue.c:120-173 | with one pushing and one popping thread the values of the pops' returns are a prefix of the values of the push calls, and the rest is in the queue or under way |
| MsQueueFifo.PoppedInOrder | lockfree/s_ms_queue.c:120-173 | the same of every run of the lock-free queue in which one thread pushes and one pops |
| MsQueueProgress.RetryMeansSuccess | lockfree/s_ms_queue.c:128-170 | a thread that goes round its loop has seen a successful CAS by some thread meanwhile |
| MsQueueProgress.RunBound | lockfree/s_ms_queue.c:128-170 | at most three successful CASes per push, and the length of a run is bounded by its calls, returns and these |
| PairQueueCode.Queue.BeginPush | common/s_1r1w_queue.c:109-113 | a push begins with a fresh element that no one can see |
| PairQueueCode.Queue.PushStep | common/s_1r1w_queue.c:114-123 | each shared access of a push on the real fields is a step of the machine, moves the writer on and leaves the reader's fields alone |
| PairQueueCode.Queue.PopStep | common/s_1r1w_queue.c:126-144 | each shared access of a pop on the real fields is a step of the machine, moves the reader on and leaves the writer alone |
| PairQueue.StepKeeps | common/s_1r1w_queue.c:107-144 | elements stay linked in push order under every single access of writer and reader |
| PairQueue.WriterContents | common/s_1r1w_queue.c:113-121 | the queue's contents grow at one write, the one that makes the element reachable |
| PairQueue.ReaderContents | common/s_1r1w_queue.c:128-143 | they shrink at one write of the reader, which takes the oldest, and an empty answer saw them empty |
| PairQueueCode.Queue.Take | common/s_1r1w_queue.c:107-144 | a turn is carried out exactly if it fits where its thread stands, as a step of that thread alone; else nothing changes |
| PairQueueCode.Queue.Execute | common/s_1r1w_queue.c:107-144 | the fitting turns of any schedule of pushes and pops, behind any run so far, are carried out in order, and show a run of the atomic queue |
| PairQueue.ReadInOrder | common/s_1r1w_queue.c:107-144 | the values popped are, in order, a prefix of the values pushed, and the rest is in the queue or under way |
| PairQueue.Refines | common/s_1r1w_queue.c:107-144 | every interleaving of one writer and one reader is a run of the atomic queue |
| PairQueue.StepCosts | common/s_1r1w_queue.c:107-144 | every access brings its own thread's operation nearer to its end and leaves the other thread where it is |
| PairQueue.WaitFree | common/s_1r1w_queue.c:107-144 | in every run, however the two threads interleave, there are at most five accesses to a push and twelve to a pop, the calls among them |
| HashLayout.NoChain | common/s_hash.c:241-253 | a main position that is free or holds a foreign key has no keys of its own anywhere |
| HashLayout.PutMainKeeps | common/s_hash.c:200-213 | a new key in its free main position keeps chains, distinct keys and free list right |
| HashLayout.PutBehindKeeps | common/s_hash.c:218-224 | so does a new key chained behind its main position |
| HashLayout.PutMovedKeeps | common/s_hash.c:226-238 | so does moving a foreign key out of the main position |
| HashLayout.DropInnerKeeps | common/s_hash.c:271-274 | unlinking a later slot keeps them |
| HashLayout.DropFirstKeeps | common/s_hash.c:281-286 | copying the successor into the main slot keeps them |
| HashLayout.DropOnlyKeeps | common/s_hash.c:288-293 | freeing a lone main slot keeps them |
| HashTable.PutMovedDenotes | common/s_hash.c:234-238 | moving a slot with its value and entering a key adds exactly one entry |
| HashTable.WalkEnds | common/s_hash.c:245-253 | a search that ends, even along a foreign chain, means that the key is absent |
| HashTable.HashTable.constructor | common/s_hash.c:85-118 | an empty map with at least 16 slots |
| HashTable.HashTable.Clear | common/s_hash.c:110-115 | every slot unused and on the free list |
| HashTable.HashTable.Get | common/s_hash.c:241-254 | the slot with the key and its value, or none exactly if the map lacks the key |
| HashTable.HashTable.Set | common/s_hash.c:178-239 | a present key's slot, nothing changed; else exactly that key is added, with doubling when full |
| HashTable.HashTable.Place | common/s_hash.c:191-238 | the three cases each add exactly the key |
| HashTable.HashTable.Predecessor | common/s_hash.c:226-232 | the search for the predecessor ends and its assert holds |
| HashTable.HashTable.FreeNode | common/s_hash.c:120-160 | the first free slot; an expansion leaves the map as it was |
| HashTable.HashTable.Expand | common/s_hash.c:129-157 | re-inserting every entry into twice the slots gives the same map and free slots |
| HashTable.HashTable.Search | common/s_hash.c:262-305 | finds the key's slot and its predecessor on the key's own chain, or that the map lacks it |
| HashTable.HashTable.UnlinkInner | common/s_hash.c:271-274 | a slot with a predecessor is unlinked and freed, exactly its entry goes |
| HashTable.HashTable.UnlinkFirst | common/s_hash.c:275-302 | a first slot takes over its successor or is freed, exactly its entry goes |
| HashTable.HashTable.Del | common/s_hash.c:256-306 | exactly the key's entry goes, and one slot becomes free |
| HashTable.HashTable.Next | common/s_hash.c:308-326 | the first used slot from the given one on, or none |
| HashTable.HashTable.Iterate | common/s_hash.c:308-326 | the loop over the whole table meets exactly the used slots, in order |
| HashTable.VisitsOnce | common/s_hash.c:308-326 | an iteration visits every used slot exactly once |
| HashTable.VisitsEntries | common/s_hash.c:308-326 | an iteration over an unmodified table meets every entry of the map exactly once, with its value |
| HashTable.SlotsPartition | common/s_hash.c:110-115 | visited slots and free list together are all slots, each once |
| PaxosRules.GtOrders | include/s_common.h:28 | the order of ids is strict and total, and a later number outranks an earlier one whoever takes it |
| PaxosRules.ReportIsHighest | core/s_core_paxos.c:334-346 | the report is the highest accepted entry below the id, missing only if there is none |
| PaxosRules.PromiseIsHighest | core/s_core_paxos.c:409-418 | a promise becomes the id asked for, or stays where it is if it is no lower; nothing above either |
| PaxosRules.KeepCovers | core/s_core_paxos.c:914-934 | accepting loses nothing but lower ids of the same value and makes nothing up |
| PaxosServer.Server.HandleRequest | core/s_core_paxos.c:289-422 | for every kind of proposal: the highest entry below the id is reported, also for ids below the promise; the promise becomes exactly the id if there was none or a lower one and else stays; RM brings the backup of the server to go, ADD and RM all entries; nothing else changes |
| PaxosServer.Server.HandleAccept | core/s_core_paxos.c:883-937 | nothing changes for an outdated version or a higher promise; else the first entry of the value is raised to a higher id, or one is added at the end |
| PaxosServer.Server.Highest | core/s_core_paxos.c:335-346 | the scan finds the highest entry below the id |
| PaxosServer.ReachedInOrder | core/s_core_paxos.c:216-228 | one member is asked before another exactly if it comes before it in the version's list and both can be reached |
| PaxosServer.Server.Store | core/s_core_paxos.c:914-934 | raises the entry of the value or appends one |
| PaxosServer.ProposalRecord.HandleResponse | core/s_core_paxos.c:808-853 | one more is counted, id and value of a higher report are taken over, and the value is broadcast from the first majority on, every time |
| PaxosServer.Server.Broadcast | core/s_core_paxos.c:216-228 | exactly the members that can be reached are asked, in the order of the list, none twice, and counted |
| PaxosServer.Server.Start | core/s_core_paxos.c:159-234 | only a member proposes; the value given or the new mask of members; a number is taken; the members that can be reached are asked and counted, none if the server to add is one already |
| PaxosRuns.StartAt | core/s_core_paxos.c:159-234 | starting a proposal is a step of the runs |
| PaxosRuns.RequestAt | core/s_core_paxos.c:289-422 | answering a prepare request is a step of the runs, and the reply is the answer of that step |
| PaxosRuns.AnswerAt | core/s_core_paxos.c:808-853 | handling a response is a step of the runs, and what is broadcast is its ACCEPT packet |
| PaxosRuns.AcceptAt | core/s_core_paxos.c:883-937 | handling an ACCEPT packet of the server's version is a step of the runs |
| PaxosRuns.OtherAt | core/s_core_paxos.c:289-422 | a request about another topic, of any kind, only takes a proposal number |
| Paxos.StepGrows | core/s_core_paxos.c:409-418 | promises only rise, and no server accepts below its promise |
| Paxos.ReportOk | core/s_core_paxos.c:334-346 | a report stands for all the server's votes below the id if and only if none of them was raised from between the two |
| Paxos.RequestExact | core/s_core_paxos.c:289-422 | answering a prepare request keeps the invariant if and only if the proposal is decided or the report is whole |
| Paxos.AnswerExact | core/s_core_paxos.c:808-853 | counting a response keeps the invariant if and only if it does not make a decided proposal switch its value |
| Paxos.MajoritySafe | core/s_core_paxos.c:816-826 | at the first majority the proposal's value is safe: a majority bound, nothing accepted between |
| Paxos.RunExact | core/s_core_paxos.c:289-937 | the invariant holds all along a run if and only if every step of it meets the two conditions |
| Paxos.ChosenBinds | core/s_core_paxos.c:808-853 | after a choice every ACCEPT with a higher id carries the chosen value |
| Paxos.Agreement | core/s_core_paxos.c:289-937 | within the two conditions at most one value is ever chosen, and it was proposed |
| Paxos.InTimeAgreement | core/s_core_paxos.c:289-937 | runs without late reports and late prepare requests meet the two conditions, and agree |
| Paxos.ChosenStored | core/s_core_paxos.c:914-934 | everyone who accepted a value still stores it, under that id or a higher one |
| PaxosProgress.RoundChooses | core/s_core_paxos.c:289-937 | a proposal above every promise, whose request a majority answers and whose ACCEPT packet it is sent, is chosen, with the value of the highest entry the majority had below its id, or its own if they had none |
| PaxosProgress.Progress | core/s_core_paxos.c:159-937 | in every reachable state, for every majority, a server whose next number outbids all promises has a run that gets its proposal chosen, with its own value or one the majority had accepted |
| PaxosLimits.LateReportBreaks | core/s_core_paxos.c:814-826 | a run with only the first condition broken chooses two values under one id |
| PaxosLimits.LatePrepareBreaks | core/s_core_paxos.c:914-924 | a run with only the second condition broken chooses two values |
| Majorities.MajoritiesMeet | core/s_core_paxos.c:1090-1096 | majorities before and after a change of at most one member share a server |
| Membership.ToInt | core/s_core_paxos.c:39-47 | the mask has exactly the members' bits |
| Membership.FromInt | core/s_core_paxos.c:49-59 | the bits of a mask, lowest first |
| Membership.AddValue | core/s_core_paxos.c:169-180 | the mask of the members and the new server, none if it is a member |
| Membership.RemoveValue | core/s_core_paxos.c:182-190 | the mask of the members without the server |
| Membership.DecodesTo | core/s_core_paxos.c:1099-1110 | decoding gives exactly the encoded servers in ascending order |
| Membership.RoundTrip | core/s_core_paxos.c:39-59 | an ascending list of ids comes back from its mask |
| Membership.ChangeKeepsQuorums | core/s_core_paxos.c:1090-1110 | after a decoded ADD or RM every new majority meets every old one |
| GlobalLock.MetaServer.HandleLock | core/s_core_glock_mserv.c:24-43 | the client, request and mask asked for are recorded, as waiting exactly if a bit is taken; else the bits are taken and the client is answered |
| GlobalLock.MetaServer.HandleUnlock | core/s_core_glock_mserv.c:71-121 | bits released, element gone, all others kept but for being granted, and exactly those granted now are answered, in the hash's order; an unknown id changes nothing |
| GlobalLock.LockKeeps | core/s_core_glock_mserv.c:24-40 | exactly when a lock request keeps the invariant |
| GlobalLock.UnlockKeeps | core/s_core_glock_mserv.c:71-121 | exactly when an unlock keeps it |
| GlobalLock.ScanSettles | core/s_core_glock_mserv.c:86-121 | the greedy scan leaves nothing grantable, whatever its order |
| GlobalLock.AnswersDue | core/s_core_glock_mserv.c:102-120 | every lock granted in a scan is answered once, in order, and no other |
| GlobalLock.RunKeeps | core/s_core_glock_mserv.c:3-126 | in every reachable state granted masks are disjoint, their union is the mask, waiting ones overlap it |
| GlobalLock.RunRecords | core/s_core_glock_mserv.c:24-43 | in every reachable state an element holds the client, request and mask of the last Lock packet with its id |
| GlobalLock.GrantedApart | core/s_core_glock_mserv.c:24-121 | two locks granted at the same time have asked for disjoint masks, and every bit they asked for is taken |
| RingQueue.Queue.constructor | common/s_queue.c:18-40 | an empty queue of the slots asked for, but at least 16 |
| RingQueue.Queue.Expand | common/s_queue.c:50-70 | the elements in order, in a buffer twice as large |
| RingQueue.Queue.Push | common/s_queue.c:48-74 | the contents gain the element at the end, and the buffer doubles exactly when it is full |
| RingQueue.Queue.Pop | common/s_queue.c:76-85 | the oldest element, and the contents lose it; nothing from an empty queue |
| RingQueue.Queue.Peek | common/s_queue.c:87-93 | the oldest element or none |
| Bytes.DecodeEncode | net/s_packet.c:349-363 | a number below 256^n comes back from its n bytes |
| Bytes.EncodeDecode | net/s_packet.c:250-262 | n bytes come back from their number |
| Packet.ImageAnnounces | net/s_packet.c:83-103 | the first four bytes of a packet read as its size, whatever follows |
| Packet.ImageExact | net/s_packet.c:83-103 | bytes are the packet of a function, request id and data exactly if they are 12 longer than the data, say so in their first four bytes, the function in the next and the request id in the next four, and go on with the data |
| Packet.Packet.WriteUint | net/s_packet.c:365-379 | four bytes at the position if there is room, else nothing |
| Packet.Packet.WriteUshort | net/s_packet.c:335-347 | two bytes at the position if there is room, else nothing |
| Packet.Packet.WriteString | net/s_packet.c:389-408 | length and bytes, or nothing at all if too long or without room |
| Packet.Packet.ReadUint | net/s_packet.c:264-276 | the next four bytes as a number, or an error that moves nothing |
| Packet.Packet.ReadInt | net/s_packet.c:250-262 | the same, as a signed number |
| Packet.Packet.ReadUshort | net/s_packet.c:236-248 | the next two bytes |
| Packet.Packet.ReadString | net/s_packet.c:278-300 | the string its length announces, an error for a negative length or missing bytes |
| Packet.Packet.SetField | net/s_packet.c:163-207 | exactly the field's four bytes change and the position is put back |
| Packet.Packet.GetField | net/s_packet.c:147-192 | the field's four bytes as a number, 0 for a packet smaller than a head |
| Packet.Packet.Seek | net/s_packet.c:136-145 | moves only within the data |
| Codec.PacketFromMeta | core/s_core_pkt.c:87-111 | the packet holds the record's bytes and its announced size |
| Codec.MetaFromPacket | core/s_core_pkt.c:113-159 | what is read from any packet, errors included |
| Codec.PacketFromMetaMeta | core/s_core_pkt.c:27-46 | the same for a meta-meta record, which fills less than it reserves |
| Codec.MetaMetaFromPacket | core/s_core_pkt.c:48-85 | what is read from any packet, errors included |
| Codec.MetaLayout | core/s_core_pkt.c:87-111 | where a record's bytes hold the name's length, the name, the five numbers and the two numbers of each block |
| Codec.MetaMetaLayout | core/s_core_pkt.c:27-46 | the same for a meta-meta record: three numbers and one of two bytes for each server |
| Codec.MetaRoundTrip | core/s_core_pkt.c:87-159 | a record comes back exactly if its name is shorter than 32768 bytes |
| Codec.MetaMetaRoundTrip | core/s_core_pkt.c:27-85 | a meta-meta record comes back under the same condition, whatever unwritten bytes follow |
| Codec.MetaThere | core/s_core_pkt.c:87-159 | a record written into a packet and read from it comes back exactly if a packet can hold it and its name fits |
| Codec.MetaMetaThere | core/s_core_pkt.c:27-85 | the same for a meta-meta record, with the bytes that are reserved and not written |
| Codec.CutMetaRefused | core/s_core_pkt.c:120-158 | a record cut short anywhere is refused |
| NetStream.ReadBuffer.Grow | net/s_net.c:461-472 | room for the announced bytes: the same buffer if it has it, else more than twice what is needed, in whole kilobytes; nothing received is lost |
| NetStream.ReadBuffer.Read | net/s_net.c:449-498 | as many bytes are read as the pieces offer, up to the first empty one, there are, and fit; all that have come if they were announced; and they are appended |
| NetStream.ReadBuffer.CreateFrom | net/s_packet.c:105-124 | a whole packet is copied out, an incomplete one is not touched, and it fails exactly where the assert on the size fails or a packet is too large to be created |
| NetStream.ReadBuffer.NextPacket | net/s_net.c:500-514 | takes one whole packet from the front, whatever is behind it, or moves the rest to the start of the buffer unchanged |
| NetStream.ReadBuffer.Poll | net/s_net.c:214-223 | hands over exactly the whole packets of what was kept and what was read, and keeps the rest; all that have come if they were announced; at a head that fails, all packets before it have been handed over |
| NetStream.SplitGrows | net/s_net.c:214-223 | bytes that come later do not change the packets found before |
| NetStream.SplitPackets | net/s_net.c:500-514 | a cut stream of packets gives exactly the whole ones and the bytes of the next |
| NetStream.SessionIsSplit | net/s_net.c:214-223 | reading in pieces gives what reading at once gives |
| NetStream.Reassembly | net/s_net.c:461-514 | for all packets and all ways to cut their bytes, exactly the whole packets in order, and the incomplete one stays |
| NetStream.ContentsArrive | net/s_packet.c:83-103 | packets put together from functions, request ids and data arrive exactly, however their bytes are cut |
| NetStream.PacketsSound | net/s_packet.c:105-115 | the assert on a positive size holds on every prefix of a stream of packets |
| NetSend.Net.Enqueue | net/s_net.c:246-265 | queued under the request id of the moment, then written call by call until the queue is empty or a call ends it |
| NetSend.Net.Flush | net/s_net.c:516-560 | a series of write calls, each booked with the bytes it took, that ends exactly with the queue, the results, or a call that is to be repeated later, has failed or took nothing; it fails exactly if the last call did; every connection stays right |
| NetSend.FlushesOnce | net/s_net.c:516-560 | what the write calls return decides how many are made, the state behind them and whether the flush is well |
| NetSend.Net.WriteHead | net/s_net.c:525-557 | one write: as many bytes go out as the call took, under the head's own id; the head has them less to write and goes when all are out; a call that took none changes only the shared buffer |
| NetSend.Net.Restamp | net/s_packet.c:194-207 | a request id set by a caller in between changes that packet's id field alone and keeps every connection right |
| NetSend.PendingStays | net/s_packet.c:194-207 | changing request ids in shared buffers changes nothing that any connection is still to write |
| NetSend.StepKeeps | net/s_net.c:246-560 | every action keeps: bytes out plus bytes pending are the packets sent |
| NetSend.Isolation | net/s_net.c:516-560 | each connection carries a prefix of its own packets with its own ids, all of them when its queue is empty |
| NetSend.Delivery | net/s_net.c:179-560 | the receiver of that stream makes exactly the packets sent, however it is cut |

## Left out

- Epoll, sockets, timers, logging, result files and process start-up: system calls appear as arbitrary results, sizes and chunks.
- Missing peers in the lock pipeline: all servers and clients are connected, so the branches that log a missing peer are not taken.
- Finished locks in the data server: a server never marks its own element, so no lock is ever finished everywhere; the branch is modelled and `LockTheorems.PacketsFit` shows that it is not reached.
- The client's receipt of LOCK_END: the packet stays in flight in the model.
- A common order of all locks, and reclaiming sent locks: not true of the code; `LockGraph` says exactly which orders are possible.
- The queues' memory: nodes are fresh and never reused, as the code's allocator has it; races in the allocator, torn two-word reads and weak memory are not modelled.
- The queues as objects shared by real threads: concurrency is interleaving of single accesses in a state machine; `MsQueueCode` and `PairQueueCode` tie its steps to fields changed in place.
- A pushed -1: the lock-free pop returns -1 both for it and for an empty queue, and the atomic queue's results cannot tell them apart either.
- Hash keys: any type with equality and a hash function of it. NaN numbers (unequal to themselves), string reference counts, allocation failure and integer overflow are left out.
- The hash's free list: a sequence of slots; the list pointers inside free slots are not modelled.
- HashTable.HashTable.Set: returns the slot instead of a pointer into it, and says of a new key's value only that it is what the slot held.
- Paxos learners, runs of ADD and RM proposals beyond their start and their prepare request, refresh and version change: the learner counts a value across different ids and treats two servers specially, so run-level agreement is not available there.
- Paxos crash and restart: a restarted server would start its counter again; response.value of a proposal is only logged and is not kept.
- Paxos.Agreement: its two conditions are exact for the invariant; a run that breaks one of them may still happen to agree.
- Membership: the C bit operations on ids 0 to 30 are given as recursive functions of the number; the array bound of 16 servers is not modelled.
- GlobalLock masks: a 32-bit word is the set of its bits. Reading the packets and answering through a connection are left out, the answers are listed.
- Packets: allocation sizes, the free lists of buffers, reference counts and the char and short writers.
- Codec.PacketFromMeta: gives no packet where the record is larger than a packet may be; the C code does not check for this.
- Record memory: the space that the C code allocates for a decoded record is not modelled; the flags of a meta-meta record are not sent and not part of it.
- NetStream.ReadBuffer.Poll: where the C code would stop at its assert or use a packet that it could not create, the model reports a failure and goes no further.
- NetSend: a connection's close, and reuse of a dropped packet's buffer while others are queued; changing payload or function of a queued packet is excluded by hypothesis.
- RingQueue.Queue.Push: takes the element, where the C code returns a place for it. The queue of a connection in `NetSend` is the sequence that `RingQueue` is proved to hold.
- The service-group layer, the file-creation protocol, block arithmetic, the mutex and spinlock queues, strings, arrays, configuration and the ZooKeeper wrapper.
