# A verified model of the ELF run-time linker

This project models the algorithms of NetBSD's `ld.elf_so` (the port for x86_64) in Dafny and
proves what they promise: the linker's lock, the graph of loaded objects with its reference
counts, the order and the exactly-once execution of constructors and destructors, the claims
that keep an object alive while the lock is dropped, the linker's own heap, thread-local
storage, symbol lookup, the RELR relocation format and the two symbol hashes. One more compact
pointer structure is modelled beside them, the circular packet queue of
`include/altq/altq_classq.h`.

`dafny verify dfyconfig.toml` checks everything. Every file is one module, or a small helper
module and its user; `Options.dfy` and `PowerOfTwo.dfy` are shared.

| file | what it models | how |
|---|---|---|
| `RwLock.dfy` | shared/exclusive lock | atomic steps of any number of threads |
| `InitOrder.dfy` | depth-first topological sort | class with the flags and the list, proved against a function |
| `RefCounts.dfy`, `DlCalls.dfy`, `LinkerEntry.dfy`, `Nodelete.dfy` | load, reference, unload, dlopen, dlclose | class with the object list and counts; the laws as lemmas; three programs |
| `Dags.dfy`, `StaleDag.dfy` | DAGs of opened objects, as symbol lookup follows them | class with both pointer lists, run beside dlclose; one program |
| `Claims.dfy`, `ClaimsProgress.dfy`, `FreedEntry.dfy` | claims across dropped locks, passes and sweeps | steps of any number of threads; one run spelled out |
| `InitRuns.dfy`, `InitPhases.dfy`, `Irelative.dfy` | init, fini and resolver runs with restarts | steps of any number of threads; the counters as loops |
| `Bytes.dfy`, `Heap.dfy`, `HeapWraps.dfy` | allocator | class over byte-addressed memory; two calls spelled out |
| `PowerOfTwo.dfy`, `TlsLayout.dfy`, `TlsAccess.dfy` | thread-local storage, Variant II | classes |
| `SymbolTable.dfy`, `SymbolSearch.dfy` | symbol lookup in one object and in many | methods with loops, DoneList as a class |
| `Relr.dfy` | RELR decoding | class over memory |
| `Hash.dfy` | System V and GNU hash | methods with loops on machine words |
| `PacketQueue.dfy` | ring queue | class over linked packets |

State machines (`RwLock`, `Claims`, `InitRuns`) are stated over whole runs: `IsRun` is any
sequence of states in which each follows from the one before by a step of some thread, and a
theorem about `run[i]` holds in every reachable state under every interleaving.

## Where the code does less than one would expect

Ten properties turned out not to hold of the code for all inputs. In each case the code is
modelled as it is, one member gives a concrete input and reaches the failure through the modelled
calls or steps, and a lemma says exactly when the property holds.

- A thread can take the init/fini claim on an object that has been freed: the sweep of another
  thread may unmap the object, then wait for a loader with the lock dropped, and only later move
  the generation that the first thread looks at (`FreedEntry.FreedIsEntered`). An object entered
  under an unchanged generation is allocated if and only if no sweep that unmapped it has yet to
  move the generation (`EntersAllocated`), and all claims are safe in runs in which no sweep waits
  after it unmapped something (`ClaimsSafe`). Claims by dlclosing and neededrefcount are always
  safe (`ClaimedNotFreed`).
- Reference conservation does not hold for the linker's own entry: `_rtld_load_object` hands it
  out without counting, `_rtld_unref_dag` counts it down (`LinkerEntry.Miscounted`). Over any
  calls it holds if and only if no call opened the linker and no loaded object has a needed entry
  bound to it (`RunCalls`, `LinkerEntryConserved`).
- For the same reason `_rtld_unref_dag` can meet a zero count, which its assertion forbids: a
  library that needs the linker, opened and closed twice (`LinkerEntry.DroppedBelowZero`). Giving
  up a handle does so if and only if, in the state before, the needed entries that name the linker
  in objects to which no other handle, no pin and no cycle leads, and the handle itself if it is on
  the linker, outnumber the linker's count (`UnloadObject`, `Dlclose`, `AbandonHandle`; over any
  calls `RunCalls`). It never happens if no call opens the linker and nothing is bound to it.
- The assertion in `_rtld_unload_object` that its root is not marked nodelete fails when a
  `dlopen` gives up an object of a DF_1_NODELETE file before it was pinned
  (`Nodelete.FailedOpenUnloads`). Unloading a listed root breaks an assertion if and only if the
  root is nodelete and nothing else leads to it (`UnloadObject`); a `dlclose` never does
  (`NodeleteStays`).
- Closing an object takes only its own DAG out of the `dldags` of the members. Another opened
  object that dies with it stays in the `dldags` of a member that survives, and symbol lookup
  follows it (`StaleDag.Dangles`). Every root in `dldags` is still allocated after a `dlclose` if
  and only if no other object that was opened loses its last anchor while something in its DAG
  keeps one (`CloseWithDag`).
- A cycle of DT_NEEDED entries can hide that an object is blocked, because an object still being
  visited reports "not blocked" (`CycleHidesBlock`). The list is exact for every order of the
  objects and of their needed entries if and only if every blocked object, at the end of any chain
  of visits, needs a blocked object that is not on the chain (`ExactIffEscapes`).
- Passing over the referencing object at the end of the default search can change the result,
  since at that point a weak definition replaces a weak one (`SkipMatters`, `SkipIsVain`).
- A search through the dependencies of an object can miss a weak definition, because a miss in the
  object needed last overwrites it (`WeakIsMissed`). Without a strong definition, one is returned
  if and only if the last object newly searched at some level has one (`SearchFrom`,
  `FoundIffLevelHits`).
- A late static TLS block whose alignment exceeds the one fixed at startup can be misaligned
  (`LateAlignmentFails`). It is aligned in every thread that may be there if and only if it asks
  for no more than that alignment (`AlignedIffEarlyAlign`), and in threads made afterwards if and
  only if the size of the area is a multiple of its alignment (`NewThreadAligned`).
- The 16-bit distance in an aligned allocation wraps for large alignments. `xfree` then gives up
  and the block is lost (`WideAlignmentLeaks`), or takes bytes of the caller for a header and puts
  them on a free list (`WrappedFreeBogus`). It finds the block if and only if the distance is
  below 65536 (`LocatesBlock`), which is so wherever the block lies if and only if alignment plus
  offset plus 8 is (`AlignedFreeable`).

## Model

| member | source | states |
|---|---|---|
| `RwLock.StepKeepsInv` | ld.elf_so/rtld.c:2322-2439 | every atomic step of every thread keeps: the word tells exactly who is inside, waiter words name waiters, every sleeper is named or owed an unpark, and somebody will wake the named one |
| `RwLock.RunInv` | ld.elf_so/rtld.c:2322-2439 | that invariant holds in every state of every run |
| `RwLock.MutualExclusion` | ld.elf_so/rtld.c:2322-2439 | the word is owner plus 2^31 with exactly that writer and no reader inside, or exactly the number of shared holds and no writer |
| `RwLock.EarlyReturnNeverFires` | ld.elf_so/rtld.c:2366-2389 | a shared holder in shared_exit always finds a word between 1 and 2^31-1, so the early return is never taken |
| `RwLock.DiesOnlyOnRecursion` | ld.elf_so/rtld.c:2345-2350 | whoever called _rtld_die is the thread named in the word, holds the lock exclusively and is entering again |
| `RwLock.RecursionDies` | ld.elf_so/rtld.c:2401-2414 | a thread that enters its own exclusive lock again dies at the check and does not sleep on itself |
| `RwLock.WaiterWordsNameWaiters` | ld.elf_so/rtld.c:2351-2363 | a non-zero waiter word names a thread between its swap and its clear |
| `RwLock.NoLostWakeup` | ld.elf_so/rtld.c:2351-2436 | when every thread is idle or asleep without a permit, no writer sleeps on a free lock, a reader sleeps only behind a writer inside or a waiting writer, and with the word 0 all threads are idle |
| `RwLock.ChainReachesWord` | ld.elf_so/rtld.c:2351-2363 | in such a state a chain of sleepers leads from any sleeper, each having displaced the one before, to the thread named in the waiter word |
| `RwLock.SharedGetsIn` | ld.elf_so/rtld.c:2333-2364 | with no writer inside, a thread awake in _rtld_shared_enter that moves alone is outside again after at most eight steps, two from the start, with one more hold and the word one higher, however many readers are inside |
| `RwLock.ExclusiveGetsIn` | ld.elf_so/rtld.c:2402-2421 | with the lock free, a thread awake in _rtld_exclusive_enter that moves alone owns it after at most five steps |
| `RwLock.ExitsFinish` | ld.elf_so/rtld.c:2366-2389 | the exits do not wait: each step of a thread in one brings it closer to the end whatever others do, and one hold is given up on the way |
| `RwLock.ReaderSleeps` | ld.elf_so/rtld.c:2340-2358 | a reader that finds a writer inside sleeps, named in the waiter word, after three steps |
| `RwLock.WriterSleeps` | ld.elf_so/rtld.c:2406-2417 | a writer that finds anybody inside does |
| `RwLock.PermitsFromUnparks` | ld.elf_so/rtld.c:2360-2362 | a thread gets a permit exactly when another is about to unpark it |
| `RwLock.ParkConsumes` | ld.elf_so/rtld.c:2354-2358 | a sleeper stays without a permit or a spurious wakeup, and waking uses the permit up |
| `RwLock.CallsGo` | ld.elf_so/rtld.c:2323-2439 | a thread outside the lock code may call either enter and the exit of what it holds |
| `InitOrder.Sorter.Visit` | ld.elf_so/rtld.c:1294-1351 | one visit changes flags and list as the function `Visited` says and returns whether the object is blocked; it terminates on cyclic graphs |
| `InitOrder.Sorter.VisitElms` | ld.elf_so/rtld.c:1332-1338 | the loop over needed entries refines `VisitedNeeded` |
| `InitOrder.Sorter.ClearFlags` | ld.elf_so/rtld.c:1376-1383 | clears init_done and init_blocked of every object behind the main program |
| `InitOrder.Sorter.MarkLocked` | ld.elf_so/rtld.c:1385-1414 | marks exactly the objects whose init/fini lock this thread holds |
| `InitOrder.Sorter.Tsort` | ld.elf_so/rtld.c:1369-1418 | the list is the order, or for rev the exact reverse; from the arguments alone: only relocated objects behind the main program, each once; in a dlopen or dlclose none whose init/fini this thread runs, and a relocated object is left out only if a chain of needed entries through relocated objects leads to such a one, on acyclic graphs exactly then; otherwise no relocated object is left out; in the order of need, or against it, except on cycles |
| `InitOrder.BlockedIsHeld` | ld.elf_so/rtld.c:1406-1413 | blocked means: in a dlopen or dlclose, and a chain leads to an object whose init/fini this thread runs |
| `InitOrder.SortMeaning` | ld.elf_so/rtld.c:1369-1418 | what is listed and what is left out, for both directions of the list |
| `InitOrder.OrderCorrect` | ld.elf_so/rtld.c:1294-1418 | on acyclic graphs each relocated unblocked object is listed exactly once and nothing else, after everything it needs; a corollary of the two below |
| `InitOrder.ReverseOrderCorrect` | ld.elf_so/rtld.c:1345-1349 | the reversed list has the same members, each before everything it needs |
| `InitOrder.ReverseOrder` | ld.elf_so/rtld.c:1345-1349 | on any graph the reversed list has the same members once each, and comes in the reverse order |
| `InitOrder.BlockedStep` | ld.elf_so/rtld.c:1332-1343 | an object is blocked if and only if it is locked or directly needs a blocked one |
| `InitOrder.OrderSafe` | ld.elf_so/rtld.c:1294-1418 | on any graph objects are listed at most once, are relocated and not locked, a relocated object is left out only if blocked, and an object comes before one it needs only if the two are on a cycle; exact if every chain has an escape |
| `InitOrder.ExactIffEscapes` | ld.elf_so/rtld.c:1294-1418 | the listing is exact for all orders of object list and needed entries if and only if every relocated unlocked blocked object, at the end of any simple chain of relocated unlocked objects, directly needs a blocked object off the chain |
| `InitOrder.TrappedFails` | ld.elf_so/rtld.c:1294-1418 | for a chain without such an escape, the order that goes down the chain first lists a blocked object |
| `InitOrder.UncycledEscapes` | ld.elf_so/rtld.c:1294-1418 | the listing is exact if no blocked object is on a cycle of blocked objects |
| `InitOrder.NothingLockedEscapes` | ld.elf_so/rtld.c:1294-1418 | and if nothing is locked |
| `InitOrder.VisitedDuring` | ld.elf_so/rtld.c:1294-1351 | a visit with a chain of visits in progress keeps the partial list right and returns true only for a blocked object off the chain |
| `InitOrder.CycleHidesBlock` | ld.elf_so/rtld.c:1327-1329 | a four-object graph with a cycle in which a blocked object is listed, at the end of a chain without an escape |
| `DlCalls.Linker.constructor` | ld.elf_so/rtld.c:1100-1115 | at startup the main program and the linker have one reference each and the invariant holds |
| `DlCalls.Linker.LoadObject` | ld.elf_so/load.c:113-226 | returns the listed or new object for the file with one reference owed to the caller; NULL if and only if a dlopen may not load it, and then nothing changed; the linker itself uncounted, and with a positive count exactly if it was dropped less often than pinned |
| `DlCalls.Linker.LoadByName` | ld.elf_so/load.c:228-343 | binds the entry to the first listed object with the name, else to the file that the search on behalf of the object finds, and binds nothing else; fails, changing nothing, exactly if there is neither or a dlopen may not load the file |
| `DlCalls.Linker.FindByName` | ld.elf_so/load.c:256-268 | the search: an object with a reference owed if and only if one is listed with the name or the search finds a file that may be loaded |
| `DlCalls.Linker.LoadEntry` | ld.elf_so/load.c:372-398 | one entry is bound, if and only if it can be; everything below a nodelete object newly bound gets exactly one pin per chain, unless at startup or the needing object is marked, and nothing else is pinned |
| `DlCalls.Linker.LoadNeeded` | ld.elf_so/load.c:372-398 | on success all entries of the object are bound; it succeeds whenever every needed name can be found and, after startup, loaded |
| `DlCalls.Linker.LoadNeededObjects` | ld.elf_so/load.c:351-414 | on success every object from the first on, including those appended meanwhile, has all entries bound; changes nothing if everything is bound; at startup it pins nothing; terminates although the list grows |
| `DlCalls.Linker.RefDag` | ld.elf_so/rtld.c:1584-1601 | every object gains exactly one pin per chain of needed entries from the root to it; asks only that nothing below the root is on a cycle |
| `DlCalls.Linker.RefNeeded` | ld.elf_so/rtld.c:1596-1600 | the same for the chains through the entries of the root |
| `DlCalls.Linker.Pin` | ld.elf_so/load.c:391-396 | _rtld_ref_dag on an object without cycles below it, which is then marked |
| `RefCounts.ChainCounts` | ld.elf_so/rtld.c:1584-1601 | whatever a chain of needed entries reaches gets at least one such pin |
| `DlCalls.Linker.PinNodelete` | ld.elf_so/load.c:391-396 | pins everything below a nodelete object and marks it |
| `DlCalls.Linker.PinHandle` | ld.elf_so/rtld.c:1725-1730 | pins everything below an object opened with RTLD_NODELETE and marks it |
| `DlCalls.Linker.UnrefDag` | ld.elf_so/rtld.c:1603-1623 | drops exactly one pending reference, turning those of objects that reach zero into pending ones; objects that need each other in a cycle keep each other in use; terminates on cyclic graphs by the sum of the counts |
| `DlCalls.Linker.UnrefNeeded` | ld.elf_so/rtld.c:1617-1621 | drops one reference for each needed entry, with the same effect on cycles |
| `DlCalls.Linker.UnloadObject` | ld.elf_so/rtld.c:1466-1582 | on any graph exactly the objects stay to which, in the state before, a handle, a pin or a cycle of objects in use leads; whether a zero count is met and whether an assertion on the root fails is told exactly from that state |
| `DlCalls.Linker.Sweep` | ld.elf_so/rtld.c:1552-1579 | removes exactly the unreferenced objects and keeps the order of the others |
| `DlCalls.Linker.Dlclose` | ld.elf_so/rtld.c:1626-1658 | -1 and no change unless given an open handle; otherwise the handle is gone and the same holds, told from the state before the call; it never unloads a nodelete root |
| `DlCalls.Linker.OpenHandle` | ld.elf_so/rtld.c:1694-1703 | a handle if and only if the name can be opened, on the right object, and no other handle changes |
| `DlCalls.Linker.FindToOpen` | ld.elf_so/rtld.c:1694-1700 | the object of a dlopen, if and only if the name can be opened |
| `DlCalls.Linker.AbandonHandle` | ld.elf_so/rtld.c:1716-1720 | the failure path gives the handle up like dlclose; exactly when that meets a zero count or breaks an assertion |
| `DlCalls.Linker.Dlopen` | ld.elf_so/rtld.c:1671-1741 | opens one handle on the right object with its needed entries bound and nodelete objects pinned, everything bound before staying bound, or returns NULL with all handles as before; NULL only for a reason; a zero count is met, and an assertion fails, exactly if the handle given up does it |
| `DlCalls.Linker.LoadForHandle` | ld.elf_so/rtld.c:1704-1723 | loads what is needed, with every newly bound nodelete object marked as pinned, and gives the handle up if that or the relocation fails; tells the state in which it was given up |
| `DlCalls.Linker.PinIfAsked` | ld.elf_so/rtld.c:1724-1731 | an object that must stay and is not marked is pinned, with everything below it, by exactly one pin per chain; otherwise nothing changes |
| `DlCalls.Linker.RunCalls` | ld.elf_so/rtld.c:1626-1741 | after any sequence of complete calls each count is open handles plus pins plus needed entries of objects in use; for the linker's own entry if and only if no call opened it and no loaded object has a needed entry bound to it; with the states between the calls, a zero count was met if and only if one of the handles given up costs the linker more references than it counted then, and never if it is neither opened nor needed; no dlclose broke an assertion |
| `DlCalls.Linker.OneCall` | ld.elf_so/rtld.c:1626-1741 | one call, with the handle that it gives up, if any |
| `RefCounts.Conserved` | ld.elf_so/rtld.c:1584-1623 | the conservation law, from the invariant kept by every operation |
| `RefCounts.CountReachesZero` | ld.elf_so/rtld.c:1611-1622 | a count reaching zero keeps the law with the object's needed entries owed |
| `RefCounts.LiveIffReachable` | ld.elf_so/rtld.c:1466-1623 | if the listed objects have no cycle, a count is positive if and only if a handle or pin leads to the object |
| `RefCounts.LiveIffAnchored` | ld.elf_so/rtld.c:1466-1623 | on any graph a count is positive if and only if a handle, a pin or a cycle of objects in use leads to the object |
| `RefCounts.LiveIffWasAnchored` | ld.elf_so/rtld.c:1466-1623 | after the drop of a reference a count is positive if and only if, in the state before, a handle, a pin or a cycle of objects in use led to the object |
| `RefCounts.AcyclicAnchored` | ld.elf_so/rtld.c:1466-1623 | if the listed objects have no cycle, that is what a handle or a pin leads to |
| `RefCounts.SustainedDrop` | ld.elf_so/rtld.c:1603-1623 | objects that need each other in a cycle survive every drop of a pending reference |
| `RefCounts.DropsAreLost` | ld.elf_so/rtld.c:1603-1623 | the linker's own entry is dropped once for each entry that names it in an object that dies, and once for its own handle |
| `RefCounts.BreaksIfNodelete` | ld.elf_so/rtld.c:1470-1478 | the assertions on a root whose count is zero fail for a listed root exactly if it is nodelete and nothing leads to it, for the linker exactly if its one counted reference goes while it is open or pinned |
| `RefCounts.NodeleteStays` | ld.elf_so/rtld.c:1470-1478 | a nodelete object with an open handle is pinned, so closing it breaks no assertion |
| `RefCounts.PinnedByOpen` | ld.elf_so/rtld.c:1724-1731 | every dlopen keeps that nodelete objects with an open handle are pinned |
| `RefCounts.SweptSound` | ld.elf_so/rtld.c:1552-1579 | the sweep keeps the invariant and leaves exactly the objects with positive counts |
| `RefCounts.KeysBounded` | ld.elf_so/load.c:151-163 | a file is mapped at most once, not counting the main program, so the list is bounded |
| `RefCounts.LinkerEntryConserved` | ld.elf_so/load.c:166-173 | the linker's own count is conserved if and only if no call opened it and no object was loaded with a needed entry bound to it |
| `LinkerEntry.Miscounted` | ld.elf_so/load.c:166-173 | loading a program that needs the linker breaks the law for it |
| `LinkerEntry.DroppedBelowZero` | ld.elf_so/rtld.c:1607-1609 | opening and closing twice a library that needs the linker makes _rtld_unref_dag meet a zero count |
| `Nodelete.FailedOpenUnloads` | ld.elf_so/rtld.c:1704-1720 | a dlopen of a nodelete library that fails to relocate unloads it, against the assertion |
| `Dags.Table.constructor` | ld.elf_so/map_object.c:535-536 | objects start in no DAG |
| `Dags.Table.Appear` | ld.elf_so/map_object.c:535-536 | new objects are in no DAG, and the lists still mirror each other |
| `Dags.Table.InitDag1` | ld.elf_so/rtld.c:1427-1459 | the walk ends on cyclic graphs, enters each object once in both lists, and is complete behind every object it entered |
| `Dags.Table.InitDag` | ld.elf_so/rtld.c:1420-1425 | the members of a DAG are exactly the objects that its root reaches, less those loaded at startup |
| `Dags.PathDone` | ld.elf_so/rtld.c:1427-1459 | a walk that is complete behind every member has walked everything that a path leads to, startup objects on the way included |
| `Dags.Table.Unlink` | ld.elf_so/rtld.c:1518-1523 | the root is gone from every dldags list, and nothing else is |
| `Dags.Table.Dissolve` | ld.elf_so/rtld.c:1518-1577 | after the sweep the lists still mirror each other, and every root is allocated if and only if no other dead root has a member left |
| `Dags.StaleIff` | ld.elf_so/rtld.c:1518-1577 | a dangling root is one that died beside the root that was closed, and of which a member is left |
| `Dags.CloseWithDag` | ld.elf_so/rtld.c:1626-1658 | after a dlclose every root in dldags is allocated if and only if, in the state before, no other opened object was to die with something in its DAG to stay |
| `Dags.HeldRootsSafe` | ld.elf_so/rtld.c:1518-1523 | which is so if all other opened objects are still open or pinned |
| `StaleDag.Dangles` | ld.elf_so/rtld.c:1518-1523 | three libraries, opened and closed so that one is left pointing to a root that was freed |
| `Claims.StepKeepsInv` | ld.elf_so/rtld.c:165-380 | every step of every thread keeps: objects record exactly the claims held, freed objects have no references and nobody unloads them or loads for them, references are backed, DAG members are reachable, and what a pass of the present generation remembers is allocated or recorded by a sweep |
| `Claims.RunInv` | ld.elf_so/rtld.c:165-380 | that holds in every state of every run |
| `Claims.ClaimedNotFreed` | ld.elf_so/rtld.c:1485-1577 | an object on which any thread holds a claim by dlclosing or neededrefcount, lock or no lock, has not been freed |
| `Claims.EntersAllocated` | ld.elf_so/rtld.c:525-569 | the next object of a pass whose generation is unchanged is allocated if and only if no sweep that unmapped it has yet to move the generation |
| `Claims.RunningFreed` | ld.elf_so/rtld.c:292-380 | a thread runs functions of a freed object only if it was freed when it entered; while it is inside nobody frees it |
| `Claims.LateWaitBefore` | ld.elf_so/rtld.c:1552-1580 | ... and then some sweep waited for a loader after it unmapped something |
| `Claims.ClaimsSafe` | ld.elf_so/rtld.c:1552-1580 | in a run in which no sweep does that, no claim of any kind is on a freed object |
| `FreedEntry.FreedIsEntered` | ld.elf_so/rtld.c:1552-1580 | a run of four threads, with the load loops, DAGs and passes of every call, in which an exiting thread enters an object that a waiting sweep has freed |
| `Claims.OneRunner` | ld.elf_so/rtld.c:292-380 | at most one thread is inside the init/fini functions of an object, and only once |
| `Claims.FreedUnclaimed` | ld.elf_so/rtld.c:1552-1577 | a step that frees an object finds all four counters zero and no thread with a claim |
| `Claims.MembersInUse` | ld.elf_so/rtld.c:1420-1459 | the DAG of an object in use consists of objects in use |
| `Claims.UnrefBacked` | ld.elf_so/rtld.c:1603-1623 | after _rtld_unref_dag every handle and needed entry of an object in use is still backed by a reference |
| `Claims.UnrefNeverAtZero` | ld.elf_so/rtld.c:1607-1609 | also with concurrent loaders, _rtld_unref_dag never meets a zero count of an object other than the linker's own entry, which is not among the objects here (for it see LinkerEntry.DroppedBelowZero) |
| `ClaimsProgress.PassesEnterRight` | ld.elf_so/rtld.c:531-577 | a pass of destructors enters only unused objects, unless forced, and passes over only objects in use; a pass of constructors enters only objects in use; nobody else is inside |
| `ClaimsProgress.PassGoesOn` | ld.elf_so/rtld.c:525-577 | a pass can end when nothing is left and otherwise, while the generation is unchanged, go on to its next object unless somebody is inside |
| `ClaimsProgress.WorkGoesOn` | ld.elf_so/rtld.c:1485-1537 | whoever runs functions of an object, loads for one or closes one can finish |
| `ClaimsProgress.SweepLeavesNothing` | ld.elf_so/rtld.c:1552-1580 | when a sweep is over, every unreferenced object was freed or is being closed or run by somebody |
| `ClaimsProgress.SweepGoesOn` | ld.elf_so/rtld.c:1552-1580 | a sweep can free each unreferenced and unclaimed object, waits exactly if somebody loads for one, and is over when there is none |
| `ClaimsProgress.SweepWaitsFor` | ld.elf_so/rtld.c:1563-1565 | a sweep drops the lock only for somebody who loads for an object that it has to free |
| `ClaimsProgress.InUseIsUsable` | ld.elf_so/rtld.c:1694-1710 | whatever is in use can be referenced, opened, loaded for and joined, and every handle closed |
| `ClaimsProgress.PassesStart` | ld.elf_so/rtld.c:525-530 | a pass over any allocated objects can be started, and restarted |
| `ClaimsProgress.CountsMove` | ld.elf_so/rtld.c:1694-1703 | a step gives at most one reference, to the object it refers to or makes, and only closing a handle takes any |
| `InitRuns.StepKeepsInv` | ld.elf_so/rtld.c:483-733 | every step of every thread keeps: the calls of each object so far are a prefix of its functions in order, the last perhaps still running |
| `InitRuns.RunInv` | ld.elf_so/rtld.c:483-733 | that holds in every state of every run |
| `InitRuns.RunsInOrder` | ld.elf_so/rtld.c:483-616 | across restarts and threads each function and resolver is entered at most once, in array order, never before its predecessor returned |
| `InitRuns.InOrderMeaning` | ld.elf_so/rtld.c:483-616 | what "in order" says: strictly increasing indices, each entered and returned before the next, exactly the callable entries |
| `InitRuns.PassLeavesNothing` | ld.elf_so/rtld.c:517-733 | when a pass ends without a restart, every item that it listed was run to its end, or is a destructor item, the pass is not forced, and the object was in use in the earlier state in which this pass left it out (what it lists: see InitPhases) |
| `InitRuns.ForcedLeavesNothing` | ld.elf_so/rtld.c:812-822 | a forced pass, and a pass of constructors or resolvers, leaves nothing to run |
| `InitRuns.SkippedBefore` | ld.elf_so/rtld.c:533-537 | whatever a pass left out was left out in one earlier step, with its object in use |
| `InitRuns.OneInside` | ld.elf_so/rtld.c:292-380 | no two activations run functions of the same object |
| `InitPhases.StartedBefore` | ld.elf_so/rtld.c:662-666 | what a pass is for is what it was last started or restarted with, in one earlier step |
| `InitPhases.InitEntersListed` | ld.elf_so/rtld.c:668-731 | a pass of constructors enters only resolvers of listed objects and the main program and constructors of listed objects |
| `InitPhases.ResolversFirst` | ld.elf_so/rtld.c:668-709 | when it comes to the constructors of an object, all resolvers of listed objects and of the main program have run to their end, and unless the object is INITFIRST so have the constructors of all listed INITFIRST objects |
| `InitPhases.ConstructorsInOrder` | ld.elf_so/rtld.c:688-731 | constructors run in the order of the list among INITFIRST objects and among the others |
| `InitPhases.InitPassComplete` | ld.elf_so/rtld.c:668-733 | at its end all resolvers and constructors of listed objects and the resolvers of the main program have run |
| `InitPhases.InitfirstLast` | ld.elf_so/rtld.c:530-575 | a pass of destructors enters only listed objects, an INITFIRST one only when every other was run to its end or left out while in use |
| `InitPhases.DestructorsInOrder` | ld.elf_so/rtld.c:530-575 | destructors run in the order of the list among INITFIRST objects and among the others |
| `InitPhases.FiniPassComplete` | ld.elf_so/rtld.c:530-577 | at its end every listed object was run to its end or left out while in use; a forced pass has run everything |
| `InitPhases.PassGoesOn` | ld.elf_so/rtld.c:517-733 | a pass can end at its end, and otherwise leaves its next item out or enters it, unless somebody is inside |
| `InitPhases.RunGoesOn` | ld.elf_so/rtld.c:483-616 | whoever is inside an object takes the next entry while there is one and the generation is unchanged, the init or fini function in any case, and then leaves |
| `InitPhases.PassesStart` | ld.elf_so/rtld.c:525-530 | passes can be started and restarted over any objects |
| `InitPhases.LockAndGeneration` | ld.elf_so/rtld.c:474-481 | functions run without the lock; only loading and unloading move the generation |
| `InitPhases.PassAdvances` | ld.elf_so/rtld.c:545-552 | a pass moves on by one item when it leaves it out, or was through with it while nothing changed |
| `Irelative.CountNonPlt` | ld.elf_so/mdreloc.c:275-283 | the counter covers every IRELATIVE entry and starts at the first one |
| `Irelative.CountPlt` | ld.elf_so/mdreloc.c:305-312 | the same for the backward loop over the PLT table |
| `Irelative.ResolversRun` | ld.elf_so/reloc.c:384-431 | going through the counted entries runs the resolver of exactly the IRELATIVE entries of both tables, once each, in order |
| `Heap.Allocator.constructor` | ld.elf_so/xmalloc.c:177-191 | after the first set-up the pool starts one header before a page boundary and the heap is sound |
| `Heap.Allocator.Imalloc` | ld.elf_so/xmalloc.c:167-224 | NULL exactly above 2^32-8 bytes; otherwise a new pointer into a block of the best-fitting bucket, the last freed one if any, data aligned to the bucket size up to a page; every other caller's bytes unchanged |
| `Heap.Allocator.BucketFor` | ld.elf_so/xmalloc.c:193-205 | the least bucket that holds the request past the header, none exactly above 2^32-8 bytes |
| `Heap.Allocator.TakeHead` | ld.elf_so/xmalloc.c:213-223 | the head of the list becomes the caller's block |
| `Heap.Allocator.MoreCore` | ld.elf_so/xmalloc.c:253-284 | carves new blocks for an empty bucket and keeps everything sound |
| `Heap.Allocator.ChainBlocks` | ld.elf_so/xmalloc.c:275-283 | the loop links the new blocks in order, ended by NULL because the pool is zero |
| `Heap.Allocator.MoreRoom` | ld.elf_so/xmalloc.c:268-270 | afterwards the pool is large enough |
| `Heap.Allocator.MorePages` | ld.elf_so/xmalloc.c:390-424 | replaces the pool, unmapping only whole pages of the old one and keeping the offset in the page |
| `Heap.Allocator.XmallocAligned` | ld.elf_so/xmalloc.c:226-248 | the pointer is congruent to the offset modulo the alignment, its bytes are inside the block, both headers are intact, and the distance is as computed |
| `Heap.Allocator.XFree` | ld.elf_so/xmalloc.c:286-308 | a pointer within 65535 bytes of its block returns exactly that block to the head of its own bucket and leaves all other bytes; NULL and pointers without the magic number change nothing; otherwise bytes inside the block go on a list and no reading of the lists is sound |
| `Heap.BogusUnsound` | ld.elf_so/xmalloc.c:302-304 | a heap with something on a list that is no block is not sound, whatever the lists are taken to be |
| `Heap.Allocator.Write` | ld.elf_so/xmalloc.c:167-224 | callers writing to the bytes they asked for cannot damage the heap |
| `Heap.Partition` | ld.elf_so/xmalloc.c:167-308 | bytes behind different pointers, free blocks and the pool are pairwise disjoint, and no block is on a list twice |
| `Heap.TakenSound` | ld.elf_so/xmalloc.c:206-223 | taking the head of a list keeps the heap sound and the pointer is new |
| `Heap.GivenSound` | ld.elf_so/xmalloc.c:298-304 | giving a block back keeps the heap sound |
| `Heap.RealignedSound` | ld.elf_so/xmalloc.c:240-247 | the inner header overwrites neither the outer header nor anybody's bytes |
| `Heap.CarvedSound` | ld.elf_so/xmalloc.c:260-283 | carving keeps blocks and pool disjoint and data aligned |
| `Heap.RepooledSound` | ld.elf_so/xmalloc.c:401-418 | replacing the pool leaves every block mapped and untouched |
| `Heap.WrittenSound` | ld.elf_so/xmalloc.c:167-224 | a write to requested bytes keeps the heap sound |
| `Heap.LinkedRow` | ld.elf_so/xmalloc.c:279-283 | the last new block ends the list because it was never written |
| `Heap.LocatesBlock` | ld.elf_so/xmalloc.c:293-296 | xfree finds the block of a pointer if and only if their distance is below 65536, and looks inside the block otherwise |
| `Heap.AlignedFreeable` | ld.elf_so/xmalloc.c:232-245 | an alignment and offset are freeable wherever the block lies if and only if their sum plus 8 is below 65536 |
| `HeapWraps.WideAlignmentLeaks` | ld.elf_so/xmalloc.c:226-248 | 64 KiB alignment from a 64 KiB boundary: the index wraps to 8, xfree gives up, and the block stays held |
| `HeapWraps.WrappedFreeBogus` | ld.elf_so/xmalloc.c:286-308 | 32 KiB alignment with offset 32760: the index wraps to 0 and xfree puts the caller's bytes on a free list |
| `Bytes.LoadStore` | ld.elf_so/xmalloc.c:107-115 | a stored header field reads back modulo its width |
| `TlsLayout.Layout.constructor` | ld.elf_so/tls.c:109-113 | the layout before any allocation |
| `TlsLayout.Layout.OffsetAllocate` | ld.elf_so/tls.c:509-601 | fails exactly for late objects with initial data or without room; otherwise the new block is below all others, aligned, and still zero in every thread |
| `TlsLayout.Layout.InitialAllocation` | ld.elf_so/tls.c:243-265 | fixes the size of the area with the reservation and sets up the first thread |
| `TlsLayout.Layout.AllocateThread` | ld.elf_so/tls.c:281-374 | a new thread's area holds the image of every static object, zero where unallocated; a block is aligned in it if and only if the size of the area is a multiple of its alignment; other threads unchanged |
| `TlsLayout.Layout.Write` | ld.elf_so/tls.c:281-374 | writes of a thread to its own variables keep the unallocated part zero |
| `TlsLayout.AllocatedSound` | ld.elf_so/tls.c:555-598 | any sequence of allocations keeps blocks stacked, aligned and inside, and the new block zero in every thread |
| `TlsLayout.CopyInit` | ld.elf_so/tls.c:333-371 | copying one image leaves the others' blocks alone |
| `TlsLayout.BlocksDisjoint` | ld.elf_so/tls.c:555-598 | in every thread non-empty blocks are disjoint and inside the static area |
| `TlsLayout.BlockAligned` | ld.elf_so/tls.c:555-598 | blocks from before startup, and blocks within the startup alignment, are aligned in every thread |
| `TlsLayout.AlignedIffEarlyAlign` | ld.elf_so/tls.c:555-598 | a block is aligned in every thread that may have been made before it if and only if it asks for no more than the alignment fixed at startup |
| `TlsLayout.NewThreadAligned` | ld.elf_so/tls.c:289-295 | in a thread made now all blocks are aligned if and only if the assertion on entry holds that the area is a multiple of the maximum alignment |
| `TlsLayout.LateAlignmentFails` | ld.elf_so/tls.c:555-598 | startup followed by a late allocation with a larger alignment that comes out misaligned |
| `TlsAccess.Tls.constructor` | ld.elf_so/headers.c:606-611 | the main program, with index 1 if it has TLS, is the one object |
| `TlsAccess.Tls.LoadTls` | ld.elf_so/map_object.c:305-316 | generation and maximum index move together and the index is new |
| `TlsAccess.Tls.LoadPlain` | ld.elf_so/map_object.c:305-316 | an object without TLS has index 0 |
| `TlsAccess.Tls.OffsetAllocate` | ld.elf_so/tls.c:509-601 | makes an object static at the offset that the layout gives; -1 if it is dynamic or the layout refuses |
| `TlsAccess.Tls.Unload` | ld.elf_so/tls.c:614-623 | unloading leaves every vector as it is |
| `TlsAccess.Tls.AllocateThread` | ld.elf_so/tls.c:324-374 | a new vector holds every static module, even where objects without TLS overwrite slot 0 |
| `TlsAccess.Tls.ModuleAllocate` | ld.elf_so/tls.c:448-496 | finds the module of an index, marks it dynamic unless static, and returns its storage |
| `TlsAccess.Tls.Refresh` | ld.elf_so/tls.c:205-221 | a vector of an older generation is replaced by a longer one that reads the same |
| `TlsAccess.Tls.GetAddrSlow` | ld.elf_so/tls.c:187-229 | told from the state before: an entry that is there is answered and nothing marked; otherwise the entry becomes the place of a static module below the TCB, or the storage the heap returned for another, which is marked; no other entry of any thread changes; no module, no answer |
| `TlsAccess.Tls.GetAddr` | ld.elf_so/tls.c:655-680 | the same through the unlocked fast path |
| `TlsAccess.CurrentIsLongEnough` | ld.elf_so/tls.c:205-224 | a vector of the current generation has room for every index |
| `TlsAccess.RegrownSound` | ld.elf_so/tls.c:205-221 | regrowing a vector keeps all entries |
| `TlsAccess.EnteredSound` | ld.elf_so/tls.c:223-224 | filling an empty entry keeps the invariant and every other entry |
| `TlsAccess.DifferentStorage` | ld.elf_so/tls.c:187-229 | over any steps, two first accesses are by different threads or to different modules, and each entry stays the storage that was allocated for it |
| `TlsAccess.ModelsAgree` | ld.elf_so/mdreloc.c:240-264 | for static objects __tls_get_addr of the DTPMOD64 and DTPOFF64 words is the TCB plus the TPOFF64 word, in 64-bit arithmetic |
| `TlsAccess.NeverBoth` | ld.elf_so/tls.c:448-526 | no object is both static and dynamic |
| `SymbolTable.LookupGnu` | ld.elf_so/symbol.c:325-368 | Bloom filter, bucket and chain return what an ascending scan of the hashed symbols returns; from symbol and version tables: the first symbol of the name that is defined, or an undefined function with a value outside the PLT, and has the version asked for, or is global and not hidden outside dlvsym; without a version the first global one, or of the first version outside dlsym; else the only versioned one not hidden; nothing exactly if there is none of these |
| `SymbolTable.LookupSysv` | ld.elf_so/symbol.c:294-316 | the chain walk returns what a scan in chain order returns, among all symbols with the same meaning as above |
| `SymbolTable.WalkBucket` | ld.elf_so/symbol.c:354-367 | the walk along the chain of a bucket |
| `SymbolTable.WalkChain` | ld.elf_so/symbol.c:300-316 | the walk along the chain words |
| `SymbolTable.JudgeMeaning` | ld.elf_so/symbol.c:174-292 | the verdict on a symbol is acceptance exactly if it is what was asked for, and a candidate exactly if it will do when alone |
| `SymbolTable.TablesAgree` | ld.elf_so/symbol.c:294-368 | both tables find the same symbol if at most one is accepted outright |
| `SymbolTable.CountSymbols` | ld.elf_so/headers.c:480-498 | counting along the chains gives the number of symbols |
| `SymbolTable.NotInTable` | ld.elf_so/symbol.c:337-352 | a name stopped by the filter or with an empty bucket is not in the table |
| `SymbolTable.WalkDecides` | ld.elf_so/symbol.c:354-367 | stopping at a match or at the end of the bucket misses nothing |
| `SymbolTable.ScanMeaning` | ld.elf_so/symbol.c:174-292 | what a scan returns: an accepted symbol, else the only candidate |
| `SymbolTable.OrderIrrelevant` | ld.elf_so/symbol.c:174-292 | with at most one accepted symbol the order of the scan does not matter |
| `SymbolSearch.DoneList.Check` | ld.elf_so/symbol.c:67-82 | tells whether an object is listed and adds it while there is room |
| `SymbolSearch.FillIs` | ld.elf_so/symbol.c:67-82 | a DoneList remembers exactly the first different objects checked, as many as it has room for |
| `SymbolSearch.SymlookList` | ld.elf_so/symbol.c:84-115 | with any DoneList capacity, the search of a list continues the plain search of everything before |
| `SymbolSearch.SymlookLists` | ld.elf_so/symbol.c:504-551 | the list phases return the first non-weak definition of the plain concatenation, else the first weak one |
| `SymbolSearch.SymlookDefault` | ld.elf_so/symbol.c:487-578 | a non-weak definition in a symbolically linked referencing object is preferred to one of the program, that to one of the RTLD_GLOBAL objects, and that to one of the DAGs in their order, the first of its list each time; without any, the two last resorts and then the first weak one in the same order; the referencing object is passed over exactly if the DoneList remembers it |
| `SymbolSearch.SearchPrefers` | ld.elf_so/symbol.c:504-551 | the order of preference among non-weak definitions |
| `SymbolSearch.SearchFallsBack` | ld.elf_so/symbol.c:504-551 | and among weak ones |
| `SymbolSearch.BestMeaning` | ld.elf_so/symbol.c:84-115 | what the best definition of a list is: first strong, else first weak |
| `SymbolSearch.AgainIsVain` | ld.elf_so/symbol.c:96-98 | searching an object again changes nothing |
| `SymbolSearch.SkipIsVain` | ld.elf_so/symbol.c:553-565 | passing over the referencing object is harmless if and only if one of four conditions holds |
| `SymbolSearch.SkipMatters` | ld.elf_so/symbol.c:553-565 | two weak definitions for which it is not |
| `SymbolSearch.SearchDirect` | ld.elf_so/symbol.c:131-147 | the loop over directly needed objects searches each of them once; its result is that of the last one searched, a miss included, and belongs to the object remembered beside it although a miss leaves that one stale |
| `SymbolSearch.SymlookNeeded` | ld.elf_so/symbol.c:122-172 | terminates on any graph; a definition is always that of the object reported and without one nothing is reported; without a strong result everything reachable was searched and has none, in depth-first order, and the weak result is that of the first level of which the last object searched has a definition |
| `SymbolSearch.SearchBelow` | ld.elf_so/symbol.c:148-168 | the second loop, with def, defobj and defobj1 assigned apart |
| `SymbolSearch.SearchFrom` | ld.elf_so/symbol.c:122-172 | a strong definition is returned whenever a reachable object has one, every definition is that of the object stored through defobj_out, and which weak one is returned, if any, is told from graph and definitions |
| `SymbolSearch.FoundIffLevelHits` | ld.elf_so/symbol.c:131-168 | without a strong one, a definition is returned if and only if the last object newly searched at some level has one |
| `SymbolSearch.WeakIsMissed` | ld.elf_so/symbol.c:131-147 | a reachable weak definition that is missed |
| `Relr.Image.RelocateRelr` | ld.elf_so/reloc.c:218-254 | the pointer-stepping loops add the load address once for each target of the table |
| `Relr.Image.RelocateSelf` | csu/common/crt0-common.c:283-296 | the startup copy, with its own loops, produces the same memory |
| `Relr.Image.ApplyGroup` | ld.elf_so/reloc.c:227-252 | an address word and its bitmaps |
| `Relr.Image.ApplyBitmap` | ld.elf_so/reloc.c:248-251 | the 63 bits of one bitmap word |
| `Relr.GroupTargetsMeaning` | ld.elf_so/reloc.c:194-206 | a group names A + 8 i once for each set bit i of the concatenated bitmaps |
| `Relr.GroupTargetsOnly` | ld.elf_so/reloc.c:194-206 | and nothing else |
| `Relr.AddAllCounts` | ld.elf_so/reloc.c:218-254 | each word grows by the load address as often as it is named, modulo 2^64 |
| `Hash.SysvHash` | ld.elf_so/hash.c:50-65 | for every string the loop that never clears the top nibble returns the hash of the System V gABI, chapter 5, "Hash Table" |
| `HashBits.FoldsAgree` | ld.elf_so/hash.c:58-63 | one step of the two agrees in the low 28 bits |
| `Hash.GnuHash` | ld.elf_so/hash.c:71-81 | the GNU hash over the integers modulo 2^32, however wide the accumulator |
| `Hash.ReduceStep` | ld.elf_so/hash.c:71-81 | reducing after every step to any multiple of 2^32 does not matter |
| `PacketQueue.Queue.constructor` | include/altq/altq_classq.h:61-73 | an empty queue |
| `PacketQueue.Queue.Add` | include/altq/altq_classq.h:94-106 | appends the packet |
| `PacketQueue.Queue.Get` | include/altq/altq_classq.h:108-122 | removes the head |
| `PacketQueue.Queue.GetTail` | include/altq/altq_classq.h:125-144 | removes the tail |
| `PacketQueue.Queue.GetRandom` | include/altq/altq_classq.h:147-172 | removes exactly the selected packet |
| `PacketQueue.Queue.Remove` | include/altq/altq_classq.h:174-190 | removes exactly that packet and keeps the order of the others |
| `PacketQueue.Queue.Flush` | include/altq/altq_classq.h:192-199 | terminates, and every packet is freed once, in order |
| `PacketQueue.Bypass` | include/altq/altq_classq.h:130-142 | joining the neighbours of a packet leaves the ring of the others |

## Left out

- Atomics are sequentially consistent, park and unpark have one sticky permit and may wake
  spuriously, lwp ids are 1 to 2^31-1, and there are fewer than 2^31 shared holds; memory
  barriers and signal masks are not modelled.
- The waits in `_rtld_initfini_enter`, `_rtld_wait_for_load_needed` and `_rtld_wait_for_fini`
  are modelled as waiting until the condition holds; their own waiter words are not.
- Claims.StepKeepsInv: an entry that two loaders bind at the same time counts as two entries; a
  freed object is modelled as it was left; what else may have been put in
  its memory since, and what a thread that entered it then reads, is not. `dlopen` and `dlclose`
  are sequences of the steps; that a `dlclose` runs its own fini pass before its sweep is not
  required of a run.
- Claims.UnrefNeverAtZero: does not cover the linker's own entry, which is handed out uncounted
  and for which it fails (`LinkerEntry.DroppedBelowZero`).
- Dags.Table.InitDag: asks that the objects loaded at startup have no cycle, as the code, which
  does not mark them, recurses without end otherwise; `relocstate` is not modelled.
- Dags.CloseWithDag: DAGs are modelled beside complete calls of `dlclose`; for a `dlopen` they are
  the steps `Appear`, `InitDag` and, if it fails, `Dissolve`, which are not joined to one method.
- DlCalls.Linker.Dlopen: the results of version checks and relocation, and whether any object
  awaits relocation, are inputs; constructors run in `InitRuns`. Exact counts are stated for
  complete calls by one thread.
- DlCalls.Linker.LoadByName: the sysctl-driven library substitutions, LD_PRELOAD and changes
  of the file system during a run are not modelled; a file is identified by one key instead of
  path, device and inode.
- DlCalls.Linker.RefDag: asks that nothing below the root is on a cycle, as the code recurses
  without end otherwise; what is below nodelete files is required to be so, nothing else is.
- InitRuns.PassLeavesNothing: the order of the objects within a pass is an input; it is what
  `InitOrder` computes.
- Heap.Allocator.Imalloc: requests between 2^31-8 and 2^32-8, for which the 32-bit shift
  overflows, and failure of mmap are excluded; the address that mmap picks is an input.
- Heap.Allocator.XFree: callers give back what they hold, NULL, or something without the magic
  number; reading a bucket number beyond the last ends the call.
- Relr.Image.RelocateRelr: memory is a map from addresses to words; overlap of unaligned words
  is not modelled.
- `fast_remainder32` is taken as the remainder.
- irealloc and xrealloc, __dl_cxa_refcount, tls_free, Variant I and other machines, preinit
  functions, the debugger link map, `_rtld_objtail` and `_rtld_objcount`.
- Opening files, mapping and protecting segments, sysctl, hints and environment, startup of the
  linker itself, messages, and the public headers other than the packet queue.
