# Verified models of the concurrent components

This project models the concurrent and database components of the repository and proves what they promise.
A concurrent component is a step system: one step is one critical section, one access to a shared location, or one
lock operation of one thread, and a run is any interleaving of any number of threads. Fields called history record
what happened; no step looks at them. Sequential code that changes memory is a class or a method with loops, proved
against the functions and steps above it.

| file | what it is about |
|---|---|
| `Options.dfy`, `CallHistory.dfy` | an optional value; what becomes of the calls on a concurrent object |
| `LockModel.dfy`, `LockTheorems.dfy` | the lock table as values: lock lists, transaction chains, the wait-for graph |
| `LockTable.dfy` | the linked lock objects on the heap, which refine `LockModel` |
| `Engine.dfy`, `EngineTheorems.dfy` | all database calls of all transactions, interleaved: serializability, deadlock freedom, rollback |
| `Database.dfy` | the classes `Database` and `Logger`, which refine uninterrupted stretches of `Engine` |
| `Client.dfy` | the transaction program and the sum it conserves |
| `Snapshot.dfy` | the wait-free atomic snapshot |
| `SortedChain.dfy` | the set and the sorted chain that both lists use |
| `OptimisticList.dfy`, `FineList.dfy` | the list with optimistic validation, and the one with hand-over-hand locking and `free` |
| `QueueSpec.dfy`, `UnboundedQueue.dfy`, `BoundedQueue.dfy` | the queue, and its lock-free list and its ticketed ring |
| `ClhLock.dfy` | the CLH queue lock and the counter under it |
| `QueryText.dfy`, `Parser.dfy` | the text of queries: printer, parser, and the class `QueryInfo` |
| `JoinPlan.dfy`, `Operators.dfy` | plans of operators, what they mean, and how they run |
| `NaiveQuery.dfy`, `Joiner.dfy` | the cross product a query means, and the planner over a disjoint set |

How the main results hang together:

- Transaction engine. `checkDeadlock` answers exactly whether an object of the requester can be reached from the
  record's tail (`LockTable.LockTable.CheckDeadlock`), so a granted request leaves the wait-for graph without cycles
  and every list granted as it should be (`LockModel.RequestKeepsInv`), and so does `unlock`
  (`LockModel.UnlockKeepsInv`). Without cycles, whoever waits is behind somebody who does not
  (`EngineTheorems.DeadlockFree`). Grants as they should be are mutual exclusion, and locks held to the end make every
  run equal to the serial run by commit id (`EngineTheorems.Serializable`). Refusing to lock a record twice makes the
  undo loop exact although it runs forwards (`EngineTheorems.RollbackIsExact`). The classes do what the steps do
  (`LockTable.LockTable.Unlock`, `Database.Database.Commit`).
- Each of the snapshot, the two lists and the two queues has a theorem `Linearizable`: in every run every call
  that returned took effect at one instant between its invocation and its return, and in the order of these instants the results are those
  of the simple object.
- `Joiner.JoinQuery` prints what `NaiveQuery.NaiveResult` says, for every order of predicates and whatever input a hash
  join builds on.

Where the code and its comments differ, the code is followed: `checkDeadlock` is commented as finding a deadlock but
also refuses requests that would not wait (`LockTheorems.RefusalIsConservative`), and a `<` or `>` between two columns,
which no comment mentions, is read as an equality join (`QueryText.AnySignJoins`). An add to the hand-over-hand list that
returns false never frees its node, and this is all that leaks (`FineList.WhatIsAllocated`).

## Model

| member | source | states |
|---|---|---|
| LockModel.RelockRefused | project3/src/Lock.cpp:14-45 | a transaction with an object in the record's list is always refused: the whole list is reachable from the tail |
| LockModel.NoCycle | project3/src/Lock.cpp:10-46 | a graph on which a rank falls along every edge has no path from a node back to itself |
| LockModel.RequestGrants | project3/src/Lock.cpp:97-110 | the appended object is unlocked iff it is at the head or it and all before it are readers, in every list |
| LockModel.RequestAcyclic | project3/src/Lock.cpp:55-95 | a request that was not refused keeps the wait-for graph acyclic: everything behind the new object is re-ranked |
| LockModel.RequestKeepsInv | project3/src/Lock.cpp:48-118 | both add functions keep the whole invariant: one object per transaction and record, chains matching lists, grants, one outstanding request, acyclicity |
| LockModel.ReleaseGrants | project3/src/Lock.cpp:228-281 | after one splice and its wake-up the list is again granted exactly as it should be, so no wake-up is lost |
| LockModel.UnlockEdges | project3/src/Lock.cpp:225-281 | every edge after unlock joins nodes already joined by a path before |
| LockModel.UnlockKeepsInv | project3/src/Lock.cpp:212-290 | unlock of a transaction that does not wait keeps the whole invariant |
| LockTheorems.HoldersAreCompatible | project3/src/Lock.cpp:97-110 | two different holders of a record are both readers |
| LockTheorems.WriterIsAlone | project3/src/Lock.cpp:150-171 | while a writer holds a record every other object in its list is locked |
| LockTheorems.GrantsAreFifo | project3/src/Lock.cpp:228-256 | a grant is preceded by the grants of all before it, and comes with all readers in a leading row of readers |
| LockTheorems.WaiterIsBlocked | project3/src/Lock.cpp:97-110 | who waits has an incompatible object before it: nobody waits for nothing |
| LockTheorems.GrantStaysOnRequest | project3/src/Lock.cpp:52-118 | a request by anyone takes no granted lock away |
| LockTheorems.GrantStaysOnUnlock | project3/src/Lock.cpp:212-290 | an unlock takes away no lock but the unlocking transaction's |
| LockTheorems.UnlockRemovesExactly | project3/src/Lock.cpp:219-287 | after unlock the transaction is in no list and every other transaction in the same lists as before |
| LockTheorems.UnlockKeepsOrder | project3/src/Lock.cpp:223-281 | unlock keeps the relative order of all remaining objects |
| LockTheorems.SomeoneRuns | project3/src/Lock.cpp:203-206 | following the graph from a waiting transaction ends at one that holds its newest lock |
| LockTheorems.NoDeadlock | project3/src/Lock.cpp:203-206 | whenever a transaction waits, another one reachable from it does not |
| LockTheorems.RefusalIsConservative | project3/src/Lock.cpp:29-41 | a state where all locks are held and nobody waits, and a read that need not wait is refused |
| LockTheorems.RefusedIff | project3/src/Lock.cpp:10-110 | a request is refused iff links lead from the record's newest object to one of the transaction's; else it is queued last, locked iff it conflicts with one ahead |
| LockTheorems.FirstRequestIsQueued | project3/src/Lock.cpp:14-62 | a transaction without lock objects is never refused |
| LockTable.LockTable.constructor | project3/include/Lock.hpp:86-91 | the new table shows empty lists and chains |
| LockTable.LockTable.EdgesAreLinks | project3/include/Lock.hpp:25-29 | each edge of the abstract graph is a `prev` or `nextInTxn` pointer on the heap |
| LockTable.LockTable.LinksAreEdges | project3/include/Lock.hpp:25-29 | each non-null `prev` or `nextInTxn` pointer is an edge of the abstract graph, to a live object |
| LockTable.LockTable.CheckDeadlock | project3/src/Lock.cpp:10-46 | the search, without a visited set, ends and returns true iff an object of the requester is reachable from the tail |
| LockTable.LockTable.HasWriter | project3/src/Lock.cpp:97-110 | the backward walk finds a writer iff there is one in the list |
| LockTable.LockTable.Append | project3/src/Lock.cpp:70-95 | the new object goes behind the tail and behind the transaction's newest object, in the heap and in the abstract lists |
| LockTable.LockTable.AddReaderLock | project3/src/Lock.cpp:48-118 | null iff the search finds the requester; the heap afterwards shows exactly the abstract read request: unchanged, or one fresh object with the right flag |
| LockTable.LockTable.AddWriterLock | project3/src/Lock.cpp:120-179 | the same for a write request |
| LockTable.LockTable.SkipOver | project3/src/Lock.cpp:225-281 | after unlinking, the links and ends of the list skip the object and no other list is touched |
| LockTable.LockTable.Splice | project3/src/Lock.cpp:223-284 | the list without the object, and the object no longer live |
| LockTable.LockTable.WakeReaders | project3/src/Lock.cpp:249-254 | the loop wakes exactly the leading row of readers |
| LockTable.LockTable.WakeNext | project3/src/Lock.cpp:232-256 | the flags afterwards are those of the abstract wake-up |
| LockTable.LockTable.ReleaseLock | project3/src/Lock.cpp:221-285 | one round of the loop of unlock is one abstract release |
| LockTable.LockTable.Unlock | project3/src/Lock.cpp:212-290 | the heap afterwards shows the abstract unlock, exactly the transaction's objects are gone, and the invariant holds |
| LockTable.LockTable.NothingDangles | project3/src/Lock.cpp:282-287 | no link of a live object and no head, tail or deque entry leads to a deleted object |
| Engine.WriteIsExclusive | project3/src/Database.cpp:31-53 | a record held for writing is held by nobody else |
| Engine.StoreKeeps | project3/src/Database.cpp:42-47 | the store of `add` keeps the invariant of the engine |
| Engine.UndoKeeps | project3/src/Database.cpp:63-71 | one round of the undo loop keeps it: the record gets its serial value back |
| Engine.CommitKeeps | project3/src/Database.cpp:80-93 | taking a commit id, valid or not, keeps it: the serial run grows by the transaction's log |
| Engine.UnlockKeeps | project3/src/Database.cpp:73-75 | releasing the locks at the end keeps it: the records given free have their serial values |
| Engine.BeginKeeps | project3/src/Database.cpp:8-17 | a request, granted, queued or refused, keeps it |
| Engine.NextKeeps | project3/src/Database.cpp:8-99 | every step of every transaction keeps the invariant of the engine |
| Engine.InitHolds | project3/include/Database.hpp:30-36 | a new database satisfies it |
| EngineTheorems.PutBackIsSerial | project3/src/Database.cpp:55-71 | the records with the before-values of all transactions in flight put back are those of the serial run |
| EngineTheorems.Serializable | project3/src/Database.cpp:8-99 | in every run: these records are the serial run of the committed transactions by commit id, every operation saw there what it saw in the interleaved run, and every flushed line tells that run's values |
| EngineTheorems.CommitIdsOnce | project3/src/Logger.cpp:67-82 | valid commit ids have no gap, and each belongs to exactly one transaction about to write or one written line |
| EngineTheorems.DeadlockFree | project3/src/Lock.cpp:181-210 | whenever a transaction spins, another one reachable from it can take a step that is no spin |
| EngineTheorems.LockIsAskedFor | project3/src/Database.cpp:8-40 | in every run a writer lock was asked for by an add on its record and a reader lock by a read, and has been there since |
| EngineTheorems.ReadWaitsForAdd | project3/src/Database.cpp:8-17 | a read waits only behind another transaction that asked for its lock on the record to add |
| EngineTheorems.FirstOpIsQueued | project3/src/Lock.cpp:14-62 | the first operation of a transaction is never refused |
| EngineTheorems.LoggedOnce | project3/src/Logger.cpp:8-17 | a transaction never has two log entries on one record |
| EngineTheorems.RollbackIsExact | project3/src/Database.cpp:55-78 | when the undo loop ends, every record the transaction logged or locked has its value from before the transaction |
| Client.ProgramAddsOne | project3/src/main.cpp:38-74 | a full log of the program changes the sum by exactly one |
| Client.SumIsConserved | project3/src/main.cpp:38-74 | in every run the sum is 100 a record plus one a commit plus what is in flight |
| Client.SumAtRest | project3/src/main.cpp:38-74 | with nothing in flight the sum has grown by exactly one a commit, aborts and retries included |
| Client.ProgramCalls | project3/src/main.cpp:38-74 | the program's calls in order with their arguments, an abort after a refusal, and a commit that is valid up to the last execution |
| Database.AbortSteps | project3/src/Database.cpp:55-78 | the steps of an uninterrupted abort lead to all before-values written, the log empty and the locks released |
| Database.CommitSteps | project3/src/Database.cpp:93-98 | the same for flushing and unlocking |
| Database.OpSteps | project3/src/Database.cpp:19-28 | the same for a read or an add behind its lock |
| Database.Logger.AddLog | project3/src/Logger.cpp:8-17 | the three deques together grow by the entry |
| Database.Logger.FlushLog | project3/src/Logger.cpp:19-43 | one line with the records and after-values in order, and an empty log |
| Database.Logger.StashLog | project3/src/Logger.cpp:45-55 | an empty log, other transactions' logs untouched |
| Database.Logger.GetCommitId | project3/src/Logger.cpp:67-82 | the next number |
| Database.Database.constructor | project3/include/Database.hpp:30-36 | the memory of the initial state of the engine |
| Database.Database.ReadLocked | project3/src/Database.cpp:19-28 | the value returned, and the memory after the steps of a read |
| Database.Database.AddLocked | project3/src/Database.cpp:42-52 | the record grows by the operand, the deques by its entry, and the memory is that after the steps of an add |
| Database.Database.Undo | project3/src/Database.cpp:61-71 | the loop writes the before-values forwards over the records |
| Database.Database.Abort | project3/src/Database.cpp:55-78 | every logged record has its before-value and no other has changed; the memory and the result are those after the steps of an abort, called by the program or by commit |
| Database.Database.Commit | project3/src/Database.cpp:80-99 | a valid commit writes its line and leaves the records alone, one beyond the last execution restores them; the memory and the result are those after these steps |
| Database.Database.TryLock | project3/src/Lock.cpp:181-201 | null iff the search finds the transaction; otherwise an object on the record, a reader's iff the call is a read, whose flag says whether to spin; and the memory after the request |
| Snapshot.CompareCollects | project2/src/Snapshot.cpp:98-122 | the loop finds the first register whose label differs and whether it moved before |
| Snapshot.CopyArray | project2/src/Snapshot.cpp:30-41 | the destination holds the source |
| Snapshot.GetValueFromRegisters | project2/src/Snapshot.cpp:42-56 | the values of the registers in a fresh array |
| Snapshot.CleanIsValid | project2/src/Snapshot.cpp:126-135 | two collects with equal labels are the values of all registers at one time inside the scan |
| Snapshot.BorrowedIsValid | project2/src/Snapshot.cpp:104-110 | the snapshot in a register that moved twice was taken inside the scan, at one time |
| Snapshot.AgainKeepsScan | project2/src/Snapshot.cpp:111-122 | a further round keeps what a scan knows: its collects lie in order in time, and marked registers moved since it began |
| Snapshot.StoreKeeps | project2/src/Snapshot.cpp:137-148 | a store keeps the invariant: labels only grow and every stored snapshot is newer than the register's previous store |
| Snapshot.Linearizable | project2/src/Snapshot.cpp:72-148 | the stores in order are a log of updates that were called before with these values, each there once and returned since; the registers always hold what this log makes of all zeros; every finished scan returned what it made of them at one time inside the scan, and every finished update is in it at one time inside the update; and every call made is under way in one process or has returned once |
| Snapshot.SnapshotsAreOrdered | project2/src/Snapshot.cpp:72-135 | any two scans' results are ordered by labels, and a later scan's is not older |
| Snapshot.ScanIsWaitFree | project2/src/Snapshot.cpp:75-131 | whatever others do, each step of a scan leaves one fewer of a number that bounds it by numThread + 2 collects |
| Snapshot.UpdateIsWaitFree | project2/src/Snapshot.cpp:137-148 | after its scan an update takes two own steps, of which the second is its store |
| Snapshot.ContentsIsLast | project2/src/Snapshot.cpp:137-148 | what the log makes of a register is the value of its last update, and 0 before the first |
| SortedChain.WalkMeetsAll | lab12/optimistic.cpp:29-39 | a walk along next from a node of the chain meets the nodes with greater keys, all of them, in order, and ends at the tail |
| SortedChain.FoundIff | lab12/optimistic.cpp:79-88 | between neighbours, a key is in the set iff the second node has it |
| SortedChain.FoundUnlessMax | lab12/optimistic.cpp:87-93 | comparing the second neighbour's key gives the set's answer iff the key is not INT_MAX, which is always found |
| SortedChain.RemovingMaxBreaks | lab12/optimistic.cpp:143-143 | a remove of INT_MAX would unlink the tail, after which no nodes with its predecessor are a chain |
| SortedChain.InsertKeeps | lab12/optimistic.cpp:95-96 | linking a node between neighbours adds its key and keeps the chain |
| SortedChain.RemoveKeeps | lab12/optimistic.cpp:143-143 | unlinking the next node removes its key and keeps the chain |
| SetSpec.AnswersOfASet | lab12/optimistic.cpp:61-191 | in a legal log an add succeeds iff its key was not added before, or was removed since; remove and contains iff it was added and not removed since |
| OptimisticList.StartsClosed | lab12/optimistic.cpp:46-58 | when validation begins, no node of the chain leads to an unlinked one |
| OptimisticList.ClosedStays | lab12/optimistic.cpp:46-58 | during validation no node that was in the chain since it began leads to one unlinked before it began |
| OptimisticList.ValidateKeeps | lab12/optimistic.cpp:46-58 | so a validation that meets the locked prev meets it in the chain, with curr behind it |
| OptimisticList.LinkKeeps | lab12/optimistic.cpp:95-96 | the write that links a node keeps the invariant and makes the add take effect |
| OptimisticList.UnlinkKeeps | lab12/optimistic.cpp:143-143 | the write that unlinks a node keeps it and makes the remove take effect |
| OptimisticList.AnswerKeeps | lab12/optimistic.cpp:87-93 | an answer that changes nothing is the set's answer at that step |
| OptimisticList.Linearizable | lab12/optimistic.cpp:61-191 | all effects in order are those of a set, each of a call with that operation and key made before it; every add, remove and contains that returned took effect once inside its call with the result it returned, right for what was added and removed before it; and every call made is under way in one thread or has returned once |
| OptimisticList.ListIsTheSet | lab12/optimistic.cpp:61-191 | at every moment the walk from the head passes exactly the set's keys, strictly ascending |
| OptimisticList.ReadsAreSafe | lab12/optimistic.cpp:46-83 | no walk, validation or removal reads through a null or unwritten pointer |
| OptimisticList.LoopsEnd | lab12/optimistic.cpp:48-57 | each round of a walk or validation passes on to a greater key, whatever others do |
| OptimisticList.AloneItEnds | lab12/optimistic.cpp:61-191 | each own step of a call lowers a bound of one round, or of two while what it has read may be out of date: a call left alone returns |
| OptimisticList.DeadlockFree | lab12/optimistic.cpp:79-80 | locks are taken in ascending order of keys, so some thread can always step |
| FineList.OtherPlace | lab12/fine_grained.cpp:57-63 | what a thread holds stays in the list with the same neighbour while others step |
| FineList.HalfLinkKeeps | lab12/fine_grained.cpp:72-73 | between the two writes of an add only its locked prev leads to the new node |
| FineList.SetNextKeeps | lab12/fine_grained.cpp:72-73 | with the second write the add takes effect |
| FineList.UnlinkKeeps | lab12/fine_grained.cpp:103-103 | the removed node becomes the remover's own |
| FineList.FreeKeeps | lab12/fine_grained.cpp:108-108 | freeing it, so that it may be allocated again, keeps the invariant |
| FineList.Linearizable | lab12/fine_grained.cpp:46-134 | all effects in order are those of a set, each of a call with that operation and key made before it; every call that returned took effect once inside its call with the result it returned, right for what was added and removed before it; and every call made is under way in one thread or has returned once |
| FineList.ListIsTheSet | lab12/fine_grained.cpp:46-134 | at every moment the walk from the head passes exactly the set's keys, strictly ascending, where a node half linked by an add is skipped; every other pointer is the walk's |
| FineList.PointersAreTheSet | lab12/fine_grained.cpp:46-134 | with no add between its two writes, that walk is the one along the next pointers |
| FineList.FreedIsUnreferenced | lab12/fine_grained.cpp:108-108 | a node about to be freed is locked by nobody, held, awaited or pointed to by no other thread and by no node of the list |
| FineList.WhatIsAllocated | lab12/fine_grained.cpp:46-110 | every allocated node is in the list, a running call's, or that of an add that returned false, which the source does not free |
| FineList.AccessesAreSafe | lab12/fine_grained.cpp:46-134 | no step touches a node that is not allocated |
| FineList.CallsEnd | lab12/fine_grained.cpp:57-63 | each own step of a call lowers a bound on the steps it has left, as each round of its walk passes on to a greater key, and no other thread's step changes it |
| FineList.DeadlockFree | lab12/fine_grained.cpp:57-63 | some thread can always step |
| QueueSpec.FirstInFirstOut | lab14/queue_unbounded.cpp:33-82 | in a legal log the keys dequeued, then those still queued, are the keys enqueued |
| UnboundedQueue.AppendAtTail | lab14/queue_unbounded.cpp:49-53 | a compare-and-swap on next succeeds only on the last node, when it is tail |
| UnboundedQueue.CasTailOk | lab14/queue_unbounded.cpp:55-58 | a compare-and-swap on tail, by whomever, leaves tail the last or second-last node |
| UnboundedQueue.TakeKeeps | lab14/queue_unbounded.cpp:69-71 | a successful move of head takes the oldest key |
| UnboundedQueue.Linearizable | lab14/queue_unbounded.cpp:33-82 | all effects in order are those of a queue, each of a call of that kind made before it, an enqueue's with the key it was given; every call that returned took effect once inside its call; and every call made is under way in one thread or has returned once |
| UnboundedQueue.DequeuesAreAPrefix | lab14/queue_unbounded.cpp:33-82 | the keys dequeued are a prefix of the keys enqueued and the rest is in the chain behind head: nothing lost or duplicated |
| UnboundedQueue.ChainGrowsAtTail | lab14/queue_unbounded.cpp:46-58 | the chain only grows, at its end, and tail is its last or second-last node wherever head is |
| UnboundedQueue.ReadsAreSafe | lab14/queue_unbounded.cpp:62-82 | no step follows a null pointer |
| UnboundedQueue.HelpingMovesTail | lab14/queue_unbounded.cpp:50-58 | after a failed append and its help, tail has left the copied node |
| UnboundedQueue.RoundsMeanAppends | lab14/queue_unbounded.cpp:46-59 | enqueue is lock-free: between any two reads of tail by one call tail has moved, so n reads mean n - 2 appends at least |
| UnboundedQueue.FailsMeanTakes | lab14/queue_unbounded.cpp:62-82 | dequeue is lock-free but for an empty queue: n failed moves of head by one call mean head was moved n times since the first of them copied it |
| UnboundedQueue.AloneItEnds | lab14/queue_unbounded.cpp:33-82 | a call left alone returns within eight own steps, a dequeue if the queue is not empty |
| BoundedQueue.OneTurn | lab13/queue_bounded.cpp:45-50 | a flag value is the turn of at most one ticket of its slot |
| BoundedQueue.TurnPasses | lab13/queue_bounded.cpp:54-54 | incrementing the flag finishes this ticket and no other, and a slot with an odd flag holds its round's key |
| BoundedQueue.HandOverLog | lab13/queue_bounded.cpp:40-42 | an enqueue ticket that a dequeue waits for puts the key in and straight out |
| BoundedQueue.Linearizable | lab13/queue_bounded.cpp:39-88 | all effects in order are those of a queue, each of a call of that kind made before it, an enqueue's with the key it was given; every call that returned took effect once inside its call, and the dequeue with ticket x returned the key of the enqueue with ticket x; and every call made is under way in one thread or has returned once |
| BoundedQueue.TicketsAreFifo | lab13/queue_bounded.cpp:39-88 | the keys in ticket order are those dequeued followed by those no dequeue has drawn for |
| BoundedQueue.SlotIsExclusive | lab13/queue_bounded.cpp:44-60 | past the spin loops no two threads use one slot, and its flag is that of the user's round and kind |
| BoundedQueue.StoredKeys | lab13/queue_bounded.cpp:17-24 | at most QUEUE_SIZE keys are stored, each in the slot of its ticket |
| BoundedQueue.SomeoneProceeds | lab13/queue_bounded.cpp:44-60 | with an enqueue and a dequeue pending, the next step of some pending call takes it past its spin loop, or it is past it |
| BoundedQueue.PassesIff | lab13/queue_bounded.cpp:44-72 | an enqueue passes iff its slot is unused or the dequeue of the round before is through with it, a dequeue iff the enqueue of its round is |
| BoundedQueue.PastSpinItEnds | lab13/queue_bounded.cpp:51-86 | past its spin loop a call returns after three own steps |
| ClhLock.MutualExclusion | lab11/prac_clhlock.cpp:23-39 | at most one thread is in the critical section |
| ClhLock.EntersInOrder | lab11/prac_clhlock.cpp:26-31 | threads enter in the order of their swaps |
| ClhLock.FirstMayEnter | lab11/prac_clhlock.cpp:27-30 | a spinning thread reads 0 iff it is the first in the queue |
| ClhLock.NodesAreDistinct | lab11/prac_clhlock.cpp:34-39 | the nodes of all threads and the free one are always different, recycled or not |
| ClhLock.NoIncrementIsLost | lab11/prac_clhlock.cpp:50-55 | the counter is the number of increments, and of completed sections when nobody is queued |
| QueryText.StoulOfToString | project1/Parser.cpp:9-18 | a printed number is parsed to itself |
| QueryText.ToStringIsDecimal | project1/Parser.cpp:9-18 | the text of a number is its decimal digits by the powers of ten of their places, without leading zeros |
| QueryText.SplitJoin | project1/Parser.cpp:20-29 | splitting undoes joining unless the last part is empty, which is lost |
| QueryText.PredicateRoundTrip | project1/Parser.cpp:60-78 | a printed join predicate is parsed to itself up to its relation ids |
| QueryText.FilterRoundTrip | project1/Parser.cpp:60-78 | a printed filter is parsed to itself up to its relation id, with its sign and constant |
| QueryText.RoundTripIff | project1/Parser.cpp:129-141 | parsing a printed query gives it back iff it selects something, its bindings are in range, its relation ids resolved and its numbers fit their types |
| QueryText.ParseFits | project1/Parser.cpp:129-141 | whatever is parsed has bindings in range, resolved relation ids and numbers that fit |
| QueryText.PrintedParsesAgain | project1/Parser.cpp:264-285 | what was parsed is printed to a text that parses to the same query |
| QueryText.AnySignJoins | project1/Parser.cpp:31-43 | any of the three signs between two columns is read as an equality |
| QueryText.FilterReads | project1/Parser.cpp:60-78 | `a.b<n` is the filter on column b of binding a for values less than n, and so for `>` and `=` |
| QueryText.JoinReads | project1/Parser.cpp:60-78 | `a.b=c.d` is the join predicate between column b of binding a and column d of binding c |
| QueryText.ColumnTextIs | project1/Parser.cpp:212-216 | a column is printed as its binding, a point and its number |
| QueryText.FilterTextIs | project1/Parser.cpp:212-222 | a filter is printed as its column, its sign and its constant |
| QueryText.JoinTextIs | project1/Parser.cpp:212-234 | a join predicate is printed as its columns with = between |
| QueryText.DumpTextIs | project1/Parser.cpp:264-285 | a query is printed as relations, conditions and selections between bars, conditions with & between |
| Parser.SplitString | project1/Parser.cpp:20-29 | the getline loop finds the tokens of `Split` |
| Parser.SplitNumbers | project1/Parser.cpp:9-18 | the number loop finds the numbers, or fails where a conversion throws |
| Parser.DumpPart | project1/Parser.cpp:242-251 | the loop joins the texts with the delimiter |
| Parser.QueryInfo.ParsePredicate | project1/Parser.cpp:60-78 | one filter or predicate is appended, or nothing changes |
| Parser.QueryInfo.ParsePredicates | project1/Parser.cpp:80-89 | all of them are appended in order |
| Parser.QueryInfo.ParseSelections | project1/Parser.cpp:91-100 | the selections are appended in order |
| Parser.QueryInfo.ResolveRelationIds | project1/Parser.cpp:102-127 | every column gets the relation id of its binding, if all bindings are in range |
| Parser.QueryInfo.ParseQuery | project1/Parser.cpp:129-141 | the object holds exactly what `ParseQuery` finds, or fails with it |
| Parser.QueryInfo.DumpText | project1/Parser.cpp:264-285 | the text is that of the query |
| JoinPlan.MeaningIsSelection | project1/Operators.cpp:90-294 | a plan means the selection from the cross product of its bindings by all its filters and predicates, wherever they stand in the tree |
| JoinPlan.RequireOk | project1/Operators.cpp:24-140 | requiring a column succeeds iff the plan has its binding, adds exactly this column and leaves the meaning alone |
| Operators.RunScan | project1/Operators.cpp:35-46 | a scan produces every tuple once, with the required columns |
| Operators.FilterLoop | project1/Operators.cpp:90-103 | the loop keeps exactly the tuples whose columns are less than, greater than or equal to the constants as the filters say |
| Operators.Build | project1/Operators.cpp:227-233 | the hash table holds exactly the positions of every key |
| Operators.HashJoin | project1/Operators.cpp:227-244 | build and probe find exactly the pairs with equal keys, each once, copy their values and count them |
| Operators.JoinsSwap | project1/Operators.cpp:200-206 | building on the other input, with the predicate's sides swapped, joins the same rows |
| Operators.RunJoin | project1/Operators.cpp:153-245 | a join produces its meaning and resolves every required column, whichever input is smaller |
| Operators.RunSelfJoin | project1/Operators.cpp:269-294 | a self join keeps exactly the rows with equal columns, in whatever order the required columns are visited |
| Operators.Run | project1/Operators.cpp:35-294 | every operator produces each row of its meaning once, with every required column where it is resolved |
| Operators.Checksum | project1/Operators.cpp:296-317 | the checksums are the sums of the selected columns modulo 2^64 over the rows of the plan |
| NaiveQuery.NaiveRowsAre | project1/Joiner.cpp:140-205 | the filtered nested loops yield each row that satisfies all filters and predicates once |
| NaiveQuery.SameRowsSameTotal | project1/Operators.cpp:307-316 | sums do not depend on the order of rows |
| Joiner.DisjointSet.GetRoot | project1/Joiner.cpp:53-73 | the representative of the class, with path compression changing no class |
| Joiner.DisjointSet.UnionTwoJoinTrees | project1/Joiner.cpp:75-98 | the two classes become one, whose tree joins theirs; no other class or tree changes |
| Joiner.AnalyzeInputOfJoin | project1/Joiner.cpp:114-138 | which scans are missing and whether the two are connected |
| Joiner.AddScan | project1/Joiner.cpp:31-52 | a new class of one binding, scanned with exactly the query's filters on it |
| Joiner.UnionKeeps | project1/Joiner.cpp:158-182 | a union keeps every class's tree covering exactly its bindings, filters and predicates so far |
| Joiner.SelfJoinKeeps | project1/Joiner.cpp:183-189 | so does a self join for a predicate within a class |
| Joiner.OneClassLeft | project1/Joiner.cpp:146-193 | one class is left at the end iff the predicates connect all bindings |
| Joiner.Plan | project1/Joiner.cpp:140-193 | the final tree carries all filters and predicates on its bindings, and these are all bindings of the query iff the predicates connect them |
| Joiner.CountedIff | project1/Operators.cpp:73-103 | the naive rows are those whose values, taken from the relations, satisfy every comparison of a filter and every equality of a predicate |
| Joiner.NaiveResultTells | project1/Joiner.cpp:194-205 | the naive line is, for each selection, the sum of the values of these rows modulo 2^64, or NULL if there are none |
| Joiner.JoinQuery | project1/Joiner.cpp:140-205 | the printed line is that of the naive query, and so tells the sums modulo 2^64 over exactly the rows that satisfy every filter and predicate, or NULL without rows |

## Left out

- Waiting itself: `while (myLock->locked)` is a step of `Engine` and not a loop of a Dafny method, because a loop that
  another thread ends cannot be shown to end alone; `Database.Database.TryLock` stops before it.
- Interleaving inside the classes: `Database` refines the steps of one transaction while no other one steps; the
  interleaved statements are proved of `Engine`.
- The C++ memory model: steps are sequentially consistent, and races on plain fields are not considered.
- Widths of labels, tickets, commit ids, record values and list keys' arithmetic: unbounded integers; only checksums are
  modulo 2^64, and parsed numbers are cut to the widths of the source.
- Starvation and livelock: an aborted transaction may retry for ever, and so may a call whose validation fails in the
  optimistic list; a call on the lock-free queue may only while others succeed or it is empty; mutexes need not be fair.
- Refusal as a proof of deadlock: the test also follows reader-behind-reader edges, so nothing is claimed about who is
  refused beyond what the test computes.
- Discipline of callers: each transaction has one call at a time and unlocks only when it does not wait, as
  `Database` and the transaction program do; each register of the snapshot has one writer.
- Keys equal to INT_MAX in the lists: callers are taken to avoid the key of the tail, which would be found although it
  was never added (`SortedChain.FoundUnlessMax`), and whose removal would unlink the tail and leave a null link behind
  the last node (`SortedChain.RemovingMaxBreaks`); INT_MIN, the key of the head, is an ordinary key.
- Random choice of i, j and k: the program gets distinct record numbers, which `Client` may choose anew at any fresh start,
  also after an abort.
- Joiner.JoinQuery: relies on at least one predicate, without which the source never sets the root, on predicates that
  connect all bindings, without which the final tree lacks some (`Joiner.Plan`), on a binding not being used against
  itself first, where the source moves one tree into both inputs, and on existing relations and columns, where the
  source fails an assertion.
- Operators in place: operators are values that `Require` returns changed, not objects with virtual methods, so aliasing
  between operators is not modelled; the order of equal keys in the hash table and of required columns is arbitrary.
- The order of required columns in a self join: the source compares columns with a relation that is not a strict order;
  the model takes a set visited in any order.
- Operators built with PARALLEL_OPERATOR, `propagateFilters` (never called), and the disabled first method of `enqueue`.
- Files, sockets, memory mapping, timing, and the text of log lines beyond their numbers.
- SQL text (`dumpSQL`): it would add only easy members.
- Thread pools and condition variables, the TAS and TTAS locks, the coarse list, the giant-lock queue and the prime
  counters: they depend on library behaviour or would add only easy members.
