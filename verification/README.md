# A verified model of the VirtualSoC memory system, runtime and accelerators

VirtualSoC simulates a many-core system on chip. This project models the parts of it in which many things happen at
once and proves what they guarantee each other:

* **The DRAM simulator.** Once per clock cycle a command queue picks a DRAM command, under an open-page or close-page
  policy and with one queue per rank or per bank, and the memory controller updates its table of bank records. The
  command then travels on a bus, and one cycle later the rank checks it against its own table and gives up the
  simulation if it is illegal. `DramTypes` to `SystemSpec` say what each phase of a cycle does; `QueueInvariant`,
  `QueuePreservation` and `Refinement` prove that the two tables stay in step, so that no rank ever rejects a command.
  `CommandTiming`, on top of `ColumnSpacing` and `BankTables`, proves that any two commands of a run are as far apart as
  the timing parameters ask for, `DelayCauses` that nothing is held back longer, and `RankHistory` what a rank by itself
  lets through. `ActivateWindow`, `ScanComplete`, `PopChoice`, `CommandOrder`, `PacketPlaces` and `RowLimit` prove the
  four-activate window, the completeness of the scans, what pop chooses, the order of commands, that each goes to the
  place of its address, and the limit on accesses to an open row; `RefreshTurns` when refreshes are due, and `Backlog`
  when requests are put off. `BusTiming`,
  `ReadTimetable`, `WriteTimetable` and `WriteBus` prove the timing of the data buses, with `RestingSystem` and
  `BusCollision` for the runs in which write data do collide; `ReadConservation`, `ReadAnswers` and `AnswerOrder` that
  every read is answered once and in order; each over whole runs. `CommandQueue`, `Rank`, `MemoryController` and `MemorySystem`
  hold the objects that do all this in place, each method proved to compute what the phase functions say, so that the
  theorems about runs are theorems about these objects. `AddressMap` treats the six address maps.
* **The OpenMP runtime.** Teams are formed from a shared pool of processors (`TeamPool`), and one shared descriptor
  hands out the iterations of loops and sections and the winner of singles (`WorkShares`, `WorkShareReuse`), following
  sections 2.5.1, 2.5.2 and 2.5.3 of OpenMP 2.5. Every critical section is one atomic step, any number of threads
  take steps in any order, and a barrier is a step of the whole team.
* **The FIR filter.** A pipelined filter over a recursive four-way adder tree (`FirDatapath`) and the software block
  filter with its sliding window (`BlockFilter`) are both proved to compute the same causal convolution.
* **The instruction cache**, direct-mapped or set-associative (`CacheSpec`, `InstructionCache`), agrees with the memory
  it fronts (`CacheAgreement`), and its LRU counters give up the least recently used way (`CacheRecency`), its FIFO tickets
  the one filled longest ago (`CacheFifo`).
* **The double buffer** through which two filter processors feed a decoding processor (`DoubleBuffer`), step by step
  over every interleaving.

A *run* of the memory system starts at power-on and consists of clock cycles with requests arriving in between, in any
number and for any addresses. A field `halted` records the first error exit that the program would take; the theorems
say which exits can never be recorded.

## What is taken for granted

* `Config.Valid` collects what the parameter files must satisfy: tCMD is 1 (pop runs every cycle), BL at least 2, the
  write latency CL + AL - 1 at least 1, AL at most tRCD, tRP, tRFC, tFAW and the row access limit at least 1, and at
  least one rank and one bank. All delays are the macros of
  `3rd_party/DRAMSim2/include/DRAMSim2/SystemConfiguration.h:126-132`, computed from the parameters.
* Where code and comments differ the code is followed. The command queue's constructor does not clear the row of
  queues it copies, so later ranks have extra queues, which stay empty. The walk for a row to close keeps its start in
  bools when there is one queue per bank; `ScanComplete.CloseScanCovers` says exactly when it still covers every bank.
  The loop that breaks up transactions erases and then increments, so it skips the neighbour. A second request for
  a refresh replaces one that has not been served. The LRU counters of the cache start at 99999; the recency theorem
  holds for any common start value.
* The OpenMP runtime runs on at most 32 processors, so that every processor has its bit; masks are modelled as sets of
  bits. A team starts with a descriptor that is not filled in, chunk sizes are at least 1 and increments are not 0.
* Cache lines are 16 bytes, sizes are powers of two, a tile's addresses begin at a multiple of the line size, and
  requests are for words that stay within a line. Memory and random numbers are parameters.
* The macro `SET_LOCK` is not part of this model; it is taken to set the lock it names.

## Model

| member | source | states |
|---|---|---|
| Refinement.RanksNeverReject | 3rd_party/DRAMSim2/src/Rank.cpp:87-285 | In every run from power-on, for any requests, page policy, queue structure, scheduling policy and power mode, no error branch of a rank's receiver, of its power-down or of its power-up is taken, the command bus never collides and no queue overflows; the only exit left is the write data collision. |
| Refinement.BankFollows | 3rd_party/DRAMSim2/src/MemoryController.cpp:285-473 | A command that suits the controller's record of a bank leaves the rank's record, when it arrives one cycle later, in agreement with the controller's again (row open and usable, auto-precharge pending, precharging against idle, earliest times at most one cycle apart). |
| Refinement.BankRests | 3rd_party/DRAMSim2/src/MemoryController.cpp:151-183 | A cycle in which nothing is sent keeps the two records of a bank in agreement while only the controller's countdowns run. |
| Refinement.SuitedIsAccepted | 3rd_party/DRAMSim2/src/Rank.cpp:87-285 | Whatever suits the controller's table is accepted by the rank's own checks one cycle later. |
| Refinement.CommandArrives | 3rd_party/DRAMSim2/src/MemoryController.cpp:186-195 | When the command on the bus reaches its rank it is accepted and all tables agree. |
| Refinement.PowerMoveAllowed | 3rd_party/DRAMSim2/src/Rank.cpp:338-378 | The power manager only powers down ranks whose own banks are all idle and only powers up ranks that are down and past their earliest time. |
| Refinement.StepInv | 3rd_party/DRAMSim2/src/MemorySystem.cpp:476-495 | A clock cycle, or a request arriving between cycles, keeps the whole invariant unless the write data collision exit is taken. |
| Refinement.NoOrphans | 3rd_party/DRAMSim2/src/MemoryController.cpp:556-593 | In every run each ACTIVATE in a queue is followed at once by its own column command, and each column command without its ACTIVATE is the oldest of its bank, with its row open and no auto-precharge pending at the next call of pop. |
| QueueInvariant.ChoiceIsGood | 3rd_party/DRAMSim2/src/CommandQueue.cpp:188-746 | In all four combinations of page policy and queue structure, what pop chooses is safe: a refresh only with every bank closed, a PRECHARGE only of a row nobody relies on, an ACTIVATE only as the first packet of its bank, a column command only as the oldest for its open row. |
| QueuePreservation.PopKeepsQueues | 3rd_party/DRAMSim2/src/CommandQueue.cpp:162-807 | A call of pop, the controller's update for its command and the next countdown keep all queues paired and all relied-on rows held, and the command suits the bank it goes to. |
| QueuePreservation.PrechargeSparesRows | 3rd_party/DRAMSim2/src/CommandQueue.cpp:438-479 | A PRECHARGE, whether from the scan of idle rows, the row access limit or the refresh path, never closes a row that a waiting column command relies on. |
| QueuePreservation.NewPairOk | 3rd_party/DRAMSim2/src/MemoryController.cpp:556-593 | Adding the two commands of a transaction to a queue with room for both keeps the queues and the table consistent. |
| PacketPlaces.CommandsStayAtPlace | 3rd_party/DRAMSim2/src/MemoryController.cpp:501-593 | At every point of every run each ACTIVATE and column command, in a queue or on the command bus, names the rank, bank, row and column to which the address map takes its own address. |
| PacketPlaces.OnlyToItsRow | 3rd_party/DRAMSim2/src/MemoryController.cpp:556-593 | In every run a column command is sent only while the row of its own address is open, and not about to close, in the bank of its own address. |
| PacketPlaces.CommandsAtPlace | 3rd_party/DRAMSim2/src/MemoryController.cpp:556-593 | Both commands of a transaction carry its address and number, are for the place of that address, and differ in kind only: an ACTIVATE, and a read or write as the transaction, with auto-precharge exactly under close page. |
| SystemFrames.NextIsPassedOver | 3rd_party/DRAMSim2/src/MemoryController.cpp:493-604 | A transaction is broken up exactly if its queue has room for two commands, and then the one after it is passed over in this cycle and takes its index. |
| Backlog.PutOffOnlyWhenFull | 3rd_party/DRAMSim2/src/MemorySystem.cpp:418-486 | In every run a request is put off only while the controller holds as many as its depth, the oldest one put off moves up at the beginning of the next cycle in which it holds fewer, and otherwise requests stay where they are. |
| Backlog.NeverTooMany | 3rd_party/DRAMSim2/src/MemoryController.cpp:812-841 | In every run the controller never holds more transactions than its depth. |
| ActivateWindow.FourActivateWindow | 3rd_party/DRAMSim2/src/CommandQueue.cpp:877-888 | In every run, the fifth ACTIVATE to a rank is sent at least tFAW cycles after the first of the five. |
| ActivateWindow.WindowIsFullExactly | 3rd_party/DRAMSim2/src/CommandQueue.cpp:877-888 | In every run the window holds back an ACTIVATE if and only if the fourth last one to the rank is less than tFAW cycles old. |
| ActivateWindow.WindowStaysExact | 3rd_party/DRAMSim2/src/CommandQueue.cpp:800-804 | In every run a rank's countdown list is strictly increasing and holds exactly tFAW less the age of each recent ACTIVATE. |
| ActivateWindow.TickWindowExact | 3rd_party/DRAMSim2/src/CommandQueue.cpp:169-182 | Erasing only the head at zero is enough: after a cycle the list holds a value exactly if it is positive and one more was in the list before. |
| ActivateWindow.ActivateNeedsRoom | 3rd_party/DRAMSim2/src/CommandQueue.cpp:877-888 | An ACTIVATE is popped only while fewer than four others are in its rank's window. |
| CommandOrder.FirstInFirstOut | 3rd_party/DRAMSim2/src/CommandQueue.cpp:380-421 | In every run, the commands of a rank, bank and row (open page), or of a rank and bank (close page), sent so far followed by those waiting only ever grow at the end: they leave in the order they were enqueued, each once. |
| CommandOrder.PopInOrder | 3rd_party/DRAMSim2/src/CommandQueue.cpp:257-274 | What one pop sends of such a stream is the oldest command of the stream waiting there, and the others stay in order. |
| CommandOrder.CycleInOrder | 3rd_party/DRAMSim2/src/MemoryController.cpp:285-604 | A whole cycle sends the oldest command of the stream or none, and new ones queue up behind the rest. |
| ScanComplete.SearchIsComplete | 3rd_party/DRAMSim2/src/CommandQueue.cpp:540-566 | From any cursor and under both scheduling policies the search comes back with nothing if and only if no queue, outside the rank waiting for its refresh, holds an eligible packet. |
| ScanComplete.CloseScanIsComplete | 3rd_party/DRAMSim2/src/CommandQueue.cpp:441-478 | With one queue per rank the scan for a row to close comes back with nothing if and only if no bank can be closed. |
| ScanComplete.CloseScanCovers | 3rd_party/DRAMSim2/src/CommandQueue.cpp:705-739 | The scan looks at every bank if and only if there is one queue per rank or the start of the scan, which is kept in two bools, is at most one in both coordinates. |
| ScanComplete.CloseScanMisses | 3rd_party/DRAMSim2/src/CommandQueue.cpp:705-739 | Whenever it does not, there is a table in which it comes back with nothing although a bank, the one where it stops, could be closed. |
| RoundRobin.NextIsSuccessor | 3rd_party/DRAMSim2/src/CommandQueue.cpp:966-1001 | Under both policies the cursor steps to the next serial number modulo the number of pairs (or of queues), so it is one cycle through all of them. |
| RoundRobin.SerialInjective | 3rd_party/DRAMSim2/src/CommandQueue.cpp:966-1001 | Different rank/bank pairs have different serial numbers. |
| PopChoice.PopRefreshes | 3rd_party/DRAMSim2/src/CommandQueue.cpp:298-367 | Pop sends a REFRESH if and only if one is waiting, every bank of its rank is closed and past its next ACTIVATE time and the rank is up; it is for that rank, and the request is dropped exactly then. |
| PopChoice.PopHoldsBack | 3rd_party/DRAMSim2/src/CommandQueue.cpp:298-367 | While a refresh is waiting its rank is sent no ACTIVATE, and of the column commands only those for the open row of the first bank that is in the way. |
| PopChoice.PopTakesNext | 3rd_party/DRAMSim2/src/CommandQueue.cpp:369-434 | If nothing is urgent and some queue offers a packet, pop sends the first eligible packet of the first such queue in scan order from the cursor, and the cursor goes there and on to the next pair (with posted CAS every other time). |
| PopChoice.PopIdles | 3rd_party/DRAMSim2/src/CommandQueue.cpp:188-746 | Pop sends nothing if and only if nothing is urgent, no queue offers a packet and, under open page, the scan for rows looks at no open row that is past its earliest PRECHARGE and unwanted or used to the limit. |
| PopChoice.SearchFindsFirst | 3rd_party/DRAMSim2/src/CommandQueue.cpp:369-434 | Every queue that the search passes over before the one it comes back with has nothing to offer. |
| RowLimit.RowsAreNotOverused | 3rd_party/DRAMSim2/src/CommandQueue.cpp:398-416 | In every run at most totalRowAccesses + 1 column commands are sent to a row while it is open: the first one, which has its own ACTIVATE, is not counted. |
| RowLimit.CounterIsExact | 3rd_party/DRAMSim2/src/CommandQueue.cpp:398-416 | In every run the access counter of an open row is exactly the number of column commands sent to it, less the one that its ACTIVATE was for. |
| CommandQueues.CommandQueue.Pop | 3rd_party/DRAMSim2/src/CommandQueue.cpp:162-807 | The whole call, in place: its result and the new queues, cursors, flags, counters and windows are those of the specification the theorems above are about. |
| CommandQueues.CommandQueue.constructor | 3rd_party/DRAMSim2/src/CommandQueue.cpp:48-108 | All queues empty, windows empty, counters and cursors zero; as the row of queues is never cleared, rank r gets r + 1 times as many queues as it uses. |
| CommandQueues.CommandQueue.Enqueue | 3rd_party/DRAMSim2/src/CommandQueue.cpp:129-158 | The packet joins the end of its queue and nothing else changes; overflow is reported exactly if the queue is then past its depth. |
| CommandQueues.CommandQueue.TickActivateWindows | 3rd_party/DRAMSim2/src/CommandQueue.cpp:169-182 | Every counter drops by one and a head at zero leaves, for every rank. |
| CommandQueues.CommandQueue.ServeRefresh | 3rd_party/DRAMSim2/src/CommandQueue.cpp:298-367 | While a rank waits for its refresh: refresh it exactly if all banks are closed and ready and not powered down, else serve the first bank in the way. |
| CommandQueues.CommandQueue.HelpClose | 3rd_party/DRAMSim2/src/CommandQueue.cpp:305-347 | For the first open bank in the way: send the first queued packet for its row if that is an issuable column command, close the row if open page allows it, else nothing. |
| CommandQueues.CommandQueue.FindIssuable | 3rd_party/DRAMSim2/src/CommandQueue.cpp:380-421 | The first packet of the queue that is issuable and not held back (by an earlier command to its row, by its own ACTIVATE, or by not being the front), or the queue's length. |
| CommandQueues.CommandQueue.HasDependency | 3rd_party/DRAMSim2/src/CommandQueue.cpp:384-396 | Whether an earlier column command to the same bank and row is waiting. |
| CommandQueues.CommandQueue.Erase | 3rd_party/DRAMSim2/src/CommandQueue.cpp:398-416 | The packet leaves, and with it the ACTIVATE just before it if an open row made that unnecessary, which counts one more access to the row. |
| CommandQueues.CommandQueue.TryQueue | 3rd_party/DRAMSim2/src/CommandQueue.cpp:377-422 | The packet chosen from the queue under the cursor leaves it, unless its rank waits for a refresh. |
| CommandQueues.CommandQueue.SearchQueues | 3rd_party/DRAMSim2/src/CommandQueue.cpp:374-434 | The queues are tried in scan order until one has a packet; the cursor is left there, or back at the start. |
| CommandQueues.CommandQueue.TryClose | 3rd_party/DRAMSim2/src/CommandQueue.cpp:446-473 | The bank under the cursor is closed, and its access counter cleared, exactly if it is open, past its earliest time, and unwanted or used to the limit. |
| CommandQueues.CommandQueue.SearchToClose | 3rd_party/DRAMSim2/src/CommandQueue.cpp:705-739 | The walk for a row to close, including its stop at the start as two bools keep it. |
| CommandQueues.CommandQueue.AdvanceCursor | 3rd_party/DRAMSim2/src/CommandQueue.cpp:758-798 | With posted CAS the cursor stays after one command and moves after the next; otherwise it always moves. |
| CommandQueues.CommandQueue.CountActivate | 3rd_party/DRAMSim2/src/CommandQueue.cpp:801-804 | An ACTIVATE, and nothing else, adds a counter at tFAW to its rank's window. |
| CommandQueues.CommandQueue.HasRoomFor | 3rd_party/DRAMSim2/src/CommandQueue.cpp:810-830 | Room as the unsigned subtraction computes it, so always for a queue past its depth. |
| CommandQueues.CommandQueue.IsIssuable | 3rd_party/DRAMSim2/src/CommandQueue.cpp:870-935 | The issue rules of every kind of packet, read from the controller's bank table, the access counters and the activation window. |
| CommandQueues.CommandQueue.IsEmpty | 3rd_party/DRAMSim2/src/CommandQueue.cpp:938-957 | Whether every queue of the rank is empty. |
| CommandQueues.CommandQueue.NeedRefresh | 3rd_party/DRAMSim2/src/CommandQueue.cpp:960-964 | The request replaces any earlier one that has not been served. |
| CommandQueues.CommandQueue.NextRankAndBank | 3rd_party/DRAMSim2/src/CommandQueue.cpp:966-1001 | The next pair of the policy in force, in range. |
| CommandTiming.CommandsKeepTheirDistance | 3rd_party/DRAMSim2/src/MemoryController.cpp:302-473 | In every run, for any two commands sent one after the other, at whatever distance in the run, to the same or different banks and ranks: they are at least as far apart as the distance written out from the timing parameters for their kinds, with the condition under which close page or the low-power mode shortens it. |
| CommandTiming.DistancesByName | 3rd_party/DRAMSim2/src/MemoryController.cpp:302-473 | The same by name: tRCD - AL, tRAS, read and write to PRECHARGE, tRP, auto-precharge to ACTIVATE, tRFC, tRC and tRRD, write to read WL + BL/2 + tWTR, read to write, max(tCCD, BL/2) and always BL/2; under open page without condition, except that tRC and tRRD need tRAS + tRP to be as long in the low-power mode. |
| CommandTiming.ActivateOwed | 3rd_party/DRAMSim2/src/MemoryController.cpp:432-473 | A bank keeps back the ACTIVATEs owed to an earlier command for one more cycle whatever is sent and whether or not its rank goes down or comes up. |
| CommandTiming.ComebackStands | 3rd_party/DRAMSim2/src/MemoryController.cpp:611-649 | The time at which a bank could be activated after going down and coming up again never moves forward in time by less than the clock, unless the rank is refreshed. |
| CommandTiming.SuitedIsInTime | 3rd_party/DRAMSim2/src/CommandQueue.cpp:870-935 | A command that its bank records let go keeps every distance they owe to an earlier command. |
| ColumnSpacing.SpacedStays | 3rd_party/DRAMSim2/src/MemoryController.cpp:304-417 | A bank's record keeps a bound for its next read (or write) across any command to any bank and rank, up to the time that closing its row and opening it again takes. |
| ColumnSpacing.ColumnStarts | 3rd_party/DRAMSim2/src/MemoryController.cpp:304-417 | Any command sets, on every bank of every rank, the bounds for reads and writes that its kind asks for. |
| DelayCauses.HeldBackForAReason | 3rd_party/DRAMSim2/src/CommandQueue.cpp:870-935 | In every run, a packet that may not be sent does not fit the state of its bank, the window of its rank or the limit of its row, or else there is one earlier command (or power-up) whose delay, written out from the timing parameters, is not over: nothing waits longer than the parameters ask for. |
| DelayCauses.BusyForAReason | 3rd_party/DRAMSim2/src/MemoryController.cpp:151-183 | In every run a bank that is neither idle, nor down, nor open for use is closing, precharging or refreshing because of one earlier command whose time is not over. |
| DelayCauses.AlwaysExplained | 3rd_party/DRAMSim2/src/MemoryController.cpp:302-473 | In every run every earliest time and every countdown in the controller's table is exactly the time of one earlier command plus its delay. |
| RankHistory.AcceptedInTime | 3rd_party/DRAMSim2/src/Rank.cpp:87-285 | Whatever a rank is sent, in whatever order: of two commands it accepts the second comes no sooner after the first than the parameters ask for, unless it was made to forget in between (the bank opened afresh; for an ACTIVATE, a REFRESH or a power-up). |
| RankHistory.OnlyOpenRows | 3rd_party/DRAMSim2/src/Rank.cpp:87-285 | Whatever a rank is sent, it accepts a column command only for the row last opened and not closed since in its bank, an ACTIVATE only where none is open, a PRECHARGE only where one is, and a REFRESH only when none is. |
| BankTables.CycleTable | 3rd_party/DRAMSim2/src/MemoryController.cpp:151-649 | In a cycle every record of a rank changes by its countdown, by the command sent, and by a power move that fits all banks of the rank, and in no other way. |
| BankTables.RanksFollowNeed | 3rd_party/DRAMSim2/src/MemoryController.cpp:609-649 | In every run, after every clock cycle of the low-power mode: a rank with nothing queued and no refresh waiting is down unless a bank is busy, any other is up unless it has not been down for tCKE; a bank of a rank just woken can be activated tXP later; otherwise no rank goes down or up. |
| RefreshTurns.RefreshesInTurn | 3rd_party/DRAMSim2/src/MemoryController.cpp:263-280 | In every run from the controller's own timer settings the ranks ask for refreshes in turn, rank r for the k-th time exactly in the cycle at stagger * (r + 1) + interval * k, and no timer runs past zero; the rank is told then or, if it is down, tXP cycles ahead, and no other rank is. |
| ReadTimetable.ReadTakesItsLatency | 3rd_party/DRAMSim2/src/Rank.cpp:292-335 | In every run, a read that reaches its rank in the cycle at time t is handed back in the cycle at time t + RL + BL/2. |
| WriteTimetable.WriteTakesItsLatency | 3rd_party/DRAMSim2/src/MemoryController.cpp:219-256 | In every run the data of a write sent in the cycle at time t wait until the cycle at time t + CL + AL - 1, are put on the bus then, and are there for BL/2 cycles, unless the run ends in the collision exit. |
| ReadTimetable.CycleFollowsTimetable | 3rd_party/DRAMSim2/src/Rank.cpp:292-335 | In a cycle a rank hands over exactly what is due, keeps the rest of its timetable, and books the read that arrived. |
| ReadTimetable.BookingStands | 3rd_party/DRAMSim2/src/Rank.cpp:308-334 | In every run an entry stays on its rank's timetable until its time: no waiting or outgoing packet is overwritten. |
| ReadTimetable.BookingKept | 3rd_party/DRAMSim2/src/Rank.cpp:295-306 | A packet booked for now is what the update hands over. |
| ReadTimetable.BusesStayOrderly | 3rd_party/DRAMSim2/src/Rank.cpp:308-334 | In every run each rank's waiting read data are a burst or more apart, behind the packet on the bus, and no read can be sent whose data would need the bus before it is free. |
| BusTiming.CycleKeepsBuses | 3rd_party/DRAMSim2/src/Rank.cpp:292-335 | Every cycle keeps every rank's read bus orderly: each packet finds the bus free, and the data of any read still to be sent will. |
| DataLane.StepKeepsLane | 3rd_party/DRAMSim2/src/Rank.cpp:308-334 | Countdowns a burst apart: the head finds the bus free when it reaches zero, and the spacing stays. |
| DataLane.StepFollowsTimetable | 3rd_party/DRAMSim2/src/Rank.cpp:292-335 | A cycle takes the first entry off the timetable exactly when its time has come. |
| WriteBus.NoExitIsTaken | 3rd_party/DRAMSim2/src/MemoryController.cpp:219-256 | In every run no error exit at all is taken, the write data collision included, if there is one rank or, for any number of ranks, if BL/2 is at most 1 + max(1, tRCD - AL). |
| BusCollision.NoExitExactly | 3rd_party/DRAMSim2/src/MemoryController.cpp:386-406 | For a system without low power, with writes to two ranks, room for two commands and time before the first refresh, that is exact: no run takes an exit if and only if BL/2 is at most 1 + max(1, tRCD - AL). |
| BusCollision.LongBurstsCollide | 3rd_party/DRAMSim2/src/MemoryController.cpp:240-245 | Otherwise there is a run from power-on, for either page policy, queue structure and scheduling policy, that ends in the data bus collision. |
| BusCollision.CollisionExample | 3rd_party/DRAMSim2/src/MemoryController.cpp:240-245 | One such configuration in numbers. |
| WriteBus.CycleKeepsWriteBus | 3rd_party/DRAMSim2/src/MemoryController.cpp:219-256 | Under that condition a cycle takes no exit and keeps the waiting write data a burst apart and the next write to any rank behind them. |
| ReadConservation.ReadsConserved | 3rd_party/DRAMSim2/src/MemoryController.cpp:549-577 | At every moment of every run the multiset of addresses in the pending reads equals that of the reads in the queues, on the command bus, in the ranks' queues and data buses, and among the returned data. |
| ReadAnswers.EveryReturnIsAnswered | 3rd_party/DRAMSim2/src/MemoryController.cpp:695-725 | In every run, whenever returned data are there as a cycle comes to answer, the search finds a pending read and calls back one with the address of the oldest data; otherwise nothing is called back. |
| ReadAnswers.EachReadOnce | 3rd_party/DRAMSim2/src/MemoryController.cpp:549-577 | At every point of every run the multiset of reads broken up so far is that of the pending reads and those called back so far, and the reads requested so far are those waiting, pending and called back: at most one callback each, and none lost. |
| ReadAnswers.CycleAnswers | 3rd_party/DRAMSim2/src/MemoryController.cpp:145-732 | In one cycle the reads broken up join the pending ones and exactly the one called back, if any, leaves them. |
| AnswerOrder.AnsweredInOrder | 3rd_party/DRAMSim2/src/MemoryController.cpp:695-725 | In every run, the reads of one address called back so far followed by those still pending only grow at the end: they are called back in the order in which they were broken up. |
| ReadConservation.PopConserves | 3rd_party/DRAMSim2/src/CommandQueue.cpp:162-807 | The queues lose exactly the read that pop hands out, also where it discards an ACTIVATE. |
| ReadConservation.CycleBalance | 3rd_party/DRAMSim2/src/MemoryController.cpp:145-732 | A whole cycle keeps the balance of reads. |
| MemorySystems.MemorySystem.Update | 3rd_party/DRAMSim2/src/MemorySystem.cpp:476-495 | One clock cycle of ranks, backlog, controller and clocks, in that order and in place, gives exactly the specified state; from an invariant state the invariant holds again, or the write data collision exit was taken. |
| MemorySystems.MemorySystem.constructor | 3rd_party/DRAMSim2/src/MemorySystem.cpp:174-188 | A new system is in an initial state, and that satisfies the invariant. |
| MemorySystems.MemorySystem.AddTransaction | 3rd_party/DRAMSim2/src/MemorySystem.cpp:418-433 | A request goes to the controller, or to the backlog if the controller is full. |
| MemorySystems.MemorySystem.UpdateRanks | 3rd_party/DRAMSim2/src/MemorySystem.cpp:476-479 | Every rank is updated in order, and what each hands over joins the returned data in that order. |
| MemorySystems.MemorySystem.MoveBacklog | 3rd_party/DRAMSim2/src/MemorySystem.cpp:482-486 | One waiting request moves to the controller if there is room. |
| MemorySystems.MemorySystem.Step | 3rd_party/DRAMSim2/src/MemorySystem.cpp:490-495 | All clocks move on by one and nothing else changes. |
| MemoryControllers.CycleIsControllerCycle | 3rd_party/DRAMSim2/src/MemorySystem.cpp:476-495 | A cycle of the system is the ranks' update, the backlog, the controller's update and the clock. |
| MemoryControllers.MemoryController.Update | 3rd_party/DRAMSim2/src/MemoryController.cpp:145-732 | The controller's update in place reaches the specified state, or stops with the exit the specification names. |
| MemoryControllers.MemoryController.constructor | 3rd_party/DRAMSim2/src/MemoryController.cpp:65-101 | Buses free, queues empty, all ranks powered, refreshes staggered by rank. |
| MemoryControllers.MemoryController.TickBankStates | 3rd_party/DRAMSim2/src/MemoryController.cpp:151-183 | Every countdown drops; at zero an auto-precharging bank starts to precharge and a precharging or refreshing bank becomes idle. |
| MemoryControllers.MemoryController.CommandBus | 3rd_party/DRAMSim2/src/MemoryController.cpp:187-195 | The packet reaches its rank when its cycles are over, and a rank that refuses it stops the run. |
| MemoryControllers.MemoryController.DataBus | 3rd_party/DRAMSim2/src/MemoryController.cpp:198-216 | A write packet whose cycles are over frees the bus. |
| MemoryControllers.MemoryController.WriteData | 3rd_party/DRAMSim2/src/MemoryController.cpp:224-256 | Every write countdown drops; at zero the head takes the bus for BL/2 cycles, or the collision exit is taken. |
| MemoryControllers.MemoryController.RefreshTimer | 3rd_party/DRAMSim2/src/MemoryController.cpp:263-280 | A rank whose time has come is asked to refresh and its timer restarted; a powered-down one is told tXP cycles ahead. |
| MemoryControllers.MemoryController.SendColumn | 3rd_party/DRAMSim2/src/MemoryController.cpp:304-417 | All bank records after a column command: its own bank, the spacing on its rank and on the open banks of other ranks. |
| MemoryControllers.MemoryController.UpdateTable | 3rd_party/DRAMSim2/src/MemoryController.cpp:302-473 | All bank records after any command. |
| MemoryControllers.MemoryController.Send | 3rd_party/DRAMSim2/src/MemoryController.cpp:287-490 | Write data scheduled, records updated, command bus taken or the collision exit. |
| MemoryControllers.MemoryController.Issue | 3rd_party/DRAMSim2/src/MemoryController.cpp:285-491 | What pop returns, if anything, is sent. |
| MemoryControllers.MemoryController.EnqueuePair | 3rd_party/DRAMSim2/src/MemoryController.cpp:556-593 | The transaction's ACTIVATE and column command join the queue of its bank, in that order. |
| MemoryControllers.MemoryController.SplitTransaction | 3rd_party/DRAMSim2/src/MemoryController.cpp:499-603 | A transaction leaves the list and becomes two commands, and a read becomes pending, exactly if its queue has room for two. |
| MemoryControllers.MemoryController.SplitTransactions | 3rd_party/DRAMSim2/src/MemoryController.cpp:493-604 | The loop over all transactions, which skips the neighbour of each one it erases. |
| MemoryControllers.MemoryController.DecidePower | 3rd_party/DRAMSim2/src/MemoryController.cpp:611-640 | Whether a rank is to be powered down, powered up or left alone. |
| MemoryControllers.MemoryController.PowerRank | 3rd_party/DRAMSim2/src/MemoryController.cpp:611-649 | The power move of one rank, in the controller's and the rank's tables. |
| MemoryControllers.MemoryController.ManagePower | 3rd_party/DRAMSim2/src/MemoryController.cpp:609-649 | The power moves of all ranks in order, up to the first error exit. |
| MemoryControllers.MemoryController.AnswerRead | 3rd_party/DRAMSim2/src/MemoryController.cpp:695-725 | The first pending read with the address of the oldest returned one is answered and both leave. |
| MemoryControllers.MemoryController.ReceiveFromBus | 3rd_party/DRAMSim2/src/MemoryController.cpp:104-125 | The address of a packet handed over joins the returned data. |
| MemoryControllers.MemoryController.AddTransaction | 3rd_party/DRAMSim2/src/MemoryController.cpp:812-841 | A transaction is accepted exactly if the list is below its depth. |
| MemoryControllers.MemoryController.CountDownRefreshes | 3rd_party/DRAMSim2/src/MemoryController.cpp:728-731 | Every refresh timer drops by one, as unsigned. |
| Ranks.Rank.ReceiveFromBus | 3rd_party/DRAMSim2/src/Rank.cpp:73-285 | A packet is obeyed exactly if the rank's own rules allow it; then every bank record and the read queue are as specified, else nothing changes. |
| Ranks.Rank.Allowed | 3rd_party/DRAMSim2/src/Rank.cpp:87-260 | The rules of every kind of packet; for a refresh, that all banks are idle. |
| Ranks.Rank.Update | 3rd_party/DRAMSim2/src/Rank.cpp:292-335 | The bus first, then the countdowns, whose head takes the bus at zero for BL/2 cycles; the packet handed over, if any. |
| Ranks.Rank.PowerDown | 3rd_party/DRAMSim2/src/Rank.cpp:338-354 | Allowed exactly if every bank is idle, and then all banks are powered down. |
| Ranks.Rank.PowerUp | 3rd_party/DRAMSim2/src/Rank.cpp:357-378 | Allowed exactly if the rank is down and every bank past its earliest time, and then all banks are idle. |
| AddressMap.AddressMapping | 3rd_party/DRAMSim2/src/MemoryController.cpp:844-1037 | The shift-and-xor code of all six schemes computes the decoded location. |
| AddressMap.SchemeFields | 3rd_party/DRAMSim2/src/MemoryController.cpp:889-1030 | For each of the six schemes, which bits of the address, by position and width above the burst offset, are the rank, the bank, the row and the column, as quotients and remainders by powers of two. |
| AddressMap.DecodeInRange | 3rd_party/DRAMSim2/src/MemoryController.cpp:889-1030 | Every decoded field is within its width. |
| AddressMap.EncodeDecode | 3rd_party/DRAMSim2/src/MemoryController.cpp:889-1030 | The four fields recompose to the address without its burst offset and modulo the channel bits. |
| AddressMap.DecodeEncode | 3rd_party/DRAMSim2/src/MemoryController.cpp:889-1030 | Every location within the dimensions is what its own address decodes to. |
| AddressMap.DistinctAddressesDistinctLocations | 3rd_party/DRAMSim2/src/MemoryController.cpp:889-1030 | Two different burst-aligned addresses within the capacity never share a location. |
| AddressMap.MapSuitsScheduler | 3rd_party/DRAMSim2/src/MemoryController.cpp:501-505 | With power-of-two numbers of ranks and banks the maps are what the scheduling theorems ask of the address map. |
| TeamPool.PoolStaysAccounted | virtualsoc-apps/libgomp/team.c:116-262 | In every interleaving of team starts and ends, the idle count is the number of clear bits of processors 1 on, the pool is processor 0 and the disjoint slave sets of the live teams, and every live team is in order. |
| TeamPool.StartAccounted | virtualsoc-apps/libgomp/team.c:136-204 | Any processor at work may start a team of any size: its slaves were idle, exactly one fewer than the threads resolved, and the accounts stay exact. |
| TeamPool.TeamsAsAsked | virtualsoc-apps/libgomp/team.c:31-204 | In every interleaving of starts and ends, a team just started has at most the number of threads asked for and at most one more than the idle processors, exactly as many as both allow (all of the idle ones and the master if no number was asked for), and its slaves are the idle processors of lowest number. |
| TeamPool.EndAccounted | virtualsoc-apps/libgomp/team.c:239-256 | Ending any live team, in any order, gives back its slaves and nobody else's. |
| TeamPool.NewTeamIsOk | virtualsoc-apps/libgomp/team.c:181-204 | The search always finds exactly the number resolved, all idle before, and processor and thread numbers are inverse on the team. |
| TeamPool.ClearCounts | virtualsoc-apps/libgomp/team.c:181-204 | The recursive count of clear bits is the size of the set of idle processors. |
| TeamPool.GlobalInfos.constructor | virtualsoc-apps/libgomp/libgomp.c:87-89 | At start-up all processors but the master are idle. |
| TeamPool.GlobalInfos.ResolveNumThreads | virtualsoc-apps/libgomp/team.c:31-47 | At most the number specified, at most one more than the idle processors, and one more than those whenever fewer than the number specified, or no number was; as many less one leave the idle count, which stays non-negative. |
| TeamPool.GlobalInfos.MasterRegionStart | virtualsoc-apps/libgomp/team.c:55-111 | The main team lists every processor under its own number, takes none from the pool and, asked for one thread, leaves the idle count. |
| TeamPool.GlobalInfos.TeamStart | virtualsoc-apps/libgomp/team.c:136-204 | The loop fills in exactly the specified team, sets its slaves' bits and takes them off the count. |
| TeamPool.GlobalInfos.TeamEnd | virtualsoc-apps/libgomp/team.c:239-247 | All bits of the team but its master's are cleared and its slaves counted idle. |
| WorkShares.DynamicLoopExactlyOnce | virtualsoc-apps/libgomp/loop.c:76-135 | For any interleaving of the threads' calls, any chunk size from one on and an increment of either sign, the ranges grabbed, one after the other, are a prefix of the sequential loop's iterations in pieces of exactly chunk-size iterations but for the last, and all of them once the loop is exhausted. |
| WorkShares.GrabHandsOut | virtualsoc-apps/libgomp/iter.c:41-76 | A grab takes the next iterations of the sequential loop, as many as the smaller of the chunk size and the number left, or reports that none is left and changes nothing. |
| WorkShares.StretchesAreDisjoint | virtualsoc-apps/libgomp/iter.c:41-76 | No two ranges handed out share an iteration. |
| WorkShares.StretchOnStride | virtualsoc-apps/libgomp/iter.c:54-69 | Each range handed out starts a whole number of increments after the start of the loop, namely as many as iterations were handed out before it. |
| WorkShares.IterationsSplit | virtualsoc-apps/libgomp/iter.c:54-67 | A stretch of whole steps that does not overshoot cuts the sequential loop in two after that many iterations. |
| WorkShares.StartIsGrab | virtualsoc-apps/libgomp/loop.c:89-135 | Entering a loop is filling in the descriptor if it is not, then an ordinary grab. |
| WorkShares.SectionsAreALoop | virtualsoc-apps/libgomp/sections.c:84-117 | Taking a section is grabbing from the loop from 1 to the count in chunks of one, with 0 for none left. |
| WorkShareReuse.ReuseIsSound | virtualsoc-apps/libgomp/loop.c:151-172 | In every interleaving of any program of loops, sections and singles each closed by a barrier: every finished construct was filled in once and handed out completely, in order, in whole chunks but for the last, or had one winner; between constructs the descriptor is reset. |
| WorkShareReuse.FilledInOnce | virtualsoc-apps/libgomp/loop.c:92-102 | A descriptor is filled in at most once per construct, and not at all exactly as long as no thread has entered. |
| WorkShareReuse.SectionsOnceEach | virtualsoc-apps/libgomp/sections.c:95-116 | The sections of a finished construct are handed out once each, from 1 to the count. |
| WorkShareReuse.EnterSingle | virtualsoc-apps/libgomp/single.c:53-73 | Entering a single keeps the situation: the first thread in, and only that one, wins, and the last one in resets the descriptor. |
| WorkShareReuse.LeaveKeeps | virtualsoc-apps/libgomp/loop.c:161-171 | A thread that leaves is counted, and the last one resets or is about to reset the descriptor. |
| WorkShareReuse.ResetKeeps | virtualsoc-apps/libgomp/work.c:44-63 | The reset after the last thread has let go of the lock finds the count still complete. |
| WorkShareReuse.BarrierKeeps | virtualsoc-apps/libgomp/sections.c:74-79 | When all are at the barrier the construct is complete and the descriptor ready for the next one. |
| WorkShares.Descriptor.GompIterDynamicNext | virtualsoc-apps/libgomp/iter.c:41-76 | The grab, in place. |
| WorkShares.Descriptor.GompLoopDynamicStart | virtualsoc-apps/libgomp/loop.c:76-135 | The entry into a loop, in place. |
| WorkShares.Descriptor.GompLoopEnd | virtualsoc-apps/libgomp/loop.c:161-170 | The count of threads out, and the last one's reset, in place. |
| WorkShares.Descriptor.GompSectionsStart | virtualsoc-apps/libgomp/sections.c:85-117 | The entry into sections, in place. |
| WorkShares.Descriptor.GompSectionsCount | virtualsoc-apps/libgomp/sections.c:60-71 | The count of threads out of the sections, and whether this was the last. |
| WorkShares.Descriptor.GompWorkShareEndNowait | virtualsoc-apps/libgomp/work.c:45-63 | The reset of all fields if all threads are counted. |
| WorkShares.Descriptor.GompSingleStart | virtualsoc-apps/libgomp/single.c:53-73 | The entry into a single, in place. |
| FirDatapath.AdderDelivers | fir/include/fir/adder.hpp:19-41 | For every size from two on and any run, the tree shows the sum of its operands exactly as many activations later as it has levels, and zero before if it starts cleared. |
| FirDatapath.FirIsConvolution | fir/include/fir/fir.hpp:16-39 | From cleared signals, after the activation on sample t the output is the causal convolution of the coefficients with the samples at t - levels - 2. |
| FirDatapath.RegisterHolds | fir/include/fir/fir.hpp:19-24 | The shift register holds the last samples, newest first, zero before the start. |
| FirDatapath.ProductsAreConvolution | fir/include/fir/fir.hpp:27-30 | The products add up to the convolution two activations back. |
| FirDatapath.GroupSumsAll | fir/include/fir/adder.hpp:325-333 | Summing in groups of four with one to three left over loses nothing, whatever the size modulo four. |
| FirDatapath.ComputeAdder | fir/include/fir/adder.hpp:31-40 | One activation of the adder, in the program's order: the sub-level on last time's partial sums, the full groups, the rest. |
| FirDatapath.Fir.ComputeFir | fir/include/fir/fir.hpp:16-39 | One activation of the filter in place: all four stages work on the signals as they were before it. |
| BlockFilter.ShiftIn | virtualsoc-apps/wcdma/wcdma.c:48-66 | The in-place shift drops the oldest 16 of the 80 samples and puts the next 16 at the end. |
| BlockFilter.WindowSlides | virtualsoc-apps/wcdma/wcdma.c:45-66 | If the buffer held the last 80 samples before the shift it holds the last 80 afterwards. |
| BlockFilter.ParallelFir | virtualsoc-apps/wcdma/fir.c:57-70 | Every result is its sum of products and nothing beyond the block is written. |
| BlockFilter.DirectIsConvolution | virtualsoc-apps/wcdma/fir.c:62-68 | Over a buffer of the last 80 samples each sum of products is the global causal convolution at its sample. |
| BlockFilter.FilterSymbols | virtualsoc-apps/wcdma/wcdma.c:45-71 | For any number of symbols, shifting and filtering block by block yields the causal convolution of the whole signal. |
| BlockFilter.BlockIsStream | virtualsoc-apps/wcdma/fir.c:57-70 | The software filter's value for a sample is what the pipelined filter shows levels + 2 samples later. |
| CacheSpec.SplitAddress | virtualsoc/src/core/cache_address.cpp:5-16 | The masks compute the place in the line, the line number modulo the sets, and the rest of it. |
| CacheSpec.FetchedIsThere | virtualsoc/src/core/cache_module.cpp:233-235 | After a refill the line asked for is always found. |
| CacheAgreement.RequestReadsMemory | virtualsoc/src/core/cache_module.cpp:145-254 | A request within a line returns memory's words and leaves every valid line equal to memory and no line twice in a set, for every organisation, replacement policy and random number. |
| CacheAgreement.AlwaysCoherent | virtualsoc/src/core/cache_module.cpp:145-254 | From an empty cache on, that agreement holds after any sequence of requests. |
| CacheAgreement.EveryWordIsMemorys | virtualsoc/src/core/cache_module.cpp:233-252 | So every word any request of a sequence returns is memory's. |
| CacheAgreement.RefillCompletes | virtualsoc/src/core/cache_module.cpp:79-113 | The four words of a line come into the one way chosen for it while all other records keep agreeing with memory. |
| CacheRecency.CounterIsAge | virtualsoc/src/core/cache_RPU.cpp:63-68 | A way's counter is the number of touches to its set since its own last one; a way never touched has its start value on top. |
| CacheRecency.LargestIsLeastRecent | virtualsoc/src/core/cache_RPU.cpp:246-255 | The first way with the largest counter is the least recently touched, untouched ways first. |
| CacheRecency.CountersTrackHistory | virtualsoc/src/core/cache_RPU.cpp:181-186 | In every run of requests each set's counters are those its history of hits and refills leads to. |
| CacheRecency.EvictsLeastRecent | virtualsoc/src/core/cache_RPU.cpp:234-261 | In every run of requests the way the cache would give up is the least recently touched of its set. |
| CacheFifo.EvictsFirstFilled | virtualsoc/src/core/cache_RPU.cpp:203-233 | In every run of requests under the FIFO policy, the way the cache would give up is the one whose line was brought in longest ago in its set, ways never filled first. |
| CacheFifo.TicketsTrackFills | virtualsoc/src/core/cache_RPU.cpp:148-191 | In every run the tickets of a set are in the order in which its ways were last filled. |
| CacheFifo.MissFillsVictim | virtualsoc/src/core/cache_RPU.cpp:148-191 | A miss fills the way to be given up, and so adds it to the history of its set. |
| CacheFifo.RandomReachesAll | virtualsoc/src/core/cache_RPU.cpp:203-262 | Under the random policy every way of a set is given up for some random number, whatever the set holds. |
| InstructionCache.RPU.constructor | virtualsoc/include/virtualsoc/core/cache_RPU.h:60-96 | No line is valid, LRU counters start at 99999 and others at 0. |
| InstructionCache.RPU.CheckExist | virtualsoc/src/core/cache_RPU.cpp:10-50 | The first way that holds the line, -1 if none, 1 for the only way of a direct-mapped cache. |
| InstructionCache.RPU.ReadData | virtualsoc/src/core/cache_RPU.cpp:52-70 | The word read, and the LRU counters of its set moved on. |
| InstructionCache.RPU.WriteData | virtualsoc/src/core/cache_RPU.cpp:148-191 | The word, tag and valid flag stored in the way that holds the line or the one chosen, and its counters or ticket. |
| InstructionCache.RPU.WhereTo | virtualsoc/src/core/cache_RPU.cpp:203-262 | The way to give up under each replacement policy. |
| InstructionCache.CacheModule.ReadFromMem | virtualsoc/src/core/cache_module.cpp:63-113 | The words of a line are stored one after the other at the tile's addresses. |
| InstructionCache.CacheModule.HandleRequest | virtualsoc/src/core/cache_module.cpp:129-265 | A disabled request is ignored, a write or an address past the limit fails, and a read is served as specified, on a hit as on a miss. |
| DoubleBuffer.HandOffIsSafe | virtualsoc-apps/wcdma_hw_para/wcdma.c:154-188 | In every interleaving, neither filter writes the buffer being decoded, a filter's symbol count is never behind the results taken from it nor more than one ahead, and the symbols decoded are 0, 1, 2, ... each from both filters. |
| DoubleBuffer.AlwaysInv | virtualsoc-apps/wcdma_hw_para/wcdma.c:55-85 | Every reachable state satisfies the invariant that ties each filter's place, locks, counts and buffers to the decoder's. |
| DoubleBuffer.DecodesItsSymbol | virtualsoc-apps/wcdma_hw_para/wcdma.c:168-185 | While a symbol is decoded its buffer holds exactly that symbol, finished by both filters. |
| DoubleBuffer.NoDeadlock | virtualsoc-apps/wcdma_hw_para/wcdma.c:154-188 | From every state of the invariant with a symbol left, some processor can take a step that brings its decoding nearer. |
| DoubleBuffer.EveryRunCanFinish | virtualsoc-apps/wcdma_hw_para/wcdma.c:154-188 | Every run can be continued until all symbols are decoded, in order and from both filters. |
| DoubleBuffer.WhereFiltersAre | virtualsoc-apps/wcdma_hw_para/wcdma.c:98-131 | A filter at work is on the symbol after the one being decoded, and none is at work while the buffers are switched. |
| DoubleBuffer.FilterStepKeeps | virtualsoc-apps/wcdma_hw_para/wcdma.c:55-85 | Each single access of a filter keeps the invariant. |
| DoubleBuffer.DecoderStepKeeps | virtualsoc-apps/wcdma_hw_para/wcdma.c:154-188 | Each single access of the decoder keeps the invariant. |

## Left out

- Refinement.RanksNeverReject: leaves open the write data collision exit, which the code can take: it does not space writes to a rank whose banks are closed from those to another. `WriteBus.NoExitIsTaken` closes it where it can be closed, and `BusCollision.NoExitExactly` shows that it cannot be closed elsewhere.
- BusCollision.NoExitExactly: leaves out low power, under which the ranks of the colliding run would first have to wake up.
- CommandTiming.CommandsKeepTheirDistance: under close page a distance between column commands is shortened to the time that closing a row by auto-precharge and opening it again takes, if that is less, because the record of the bank then forgets the distance with its row; between ranks to one more than the time from an ACTIVATE to a column command, because closed banks of other ranks are not told of the distance; with the low-power mode tRC, tRRD and a read's auto-precharge are shortened to the time it takes to close the row, go down and come up again, because the power-up overwrites the earliest time of an ACTIVATE.
- RankHistory.AcceptedInTime: does not claim the spacing of the data bus into a bank opened in between, because the rank's own table overwrites a bank's times when its row is opened; the controller keeps that spacing.
- RefreshTurns.RefreshesInTurn: says when refreshes are asked for, not when they are served; a request may replace one that is still waiting.
- DelayCauses.HeldBackForAReason: is about times; what keeps a packet waiting for its row, its turn or the activation window is in `PopChoice` and `ActivateWindow`.
- MemoryControllers.MemoryController.Update: does not model energy, statistics, histograms, epochs and debug output, and keeps of a callback only which transaction it answers.
- MemoryControllers.MemoryController.DataBus: does not hand the write packet on to the rank, where it would only reach the storage.
- MemoryControllers.MemoryController.ReceiveFromBus: does not model the exit for a packet that is not data, because ranks only ever hand over data.
- MemoryControllers.MemoryController.SplitTransactions: claims no order among transactions, because the loop skips neighbours; order is claimed from the queues on.
- CommandQueues.CommandQueue.NeedRefresh: claims no refresh served within a time, because a later request may replace an earlier one.
- ScanComplete.CloseScanIsComplete: is for one queue per rank, because with one per bank the start of the scan is kept in bools; `ScanComplete.CloseScanCovers` states the exact condition.
- WorkShareReuse.ReuseIsSound: does not cover the nowait variants, in which a fast thread may reach the next construct before the descriptor is reset; it models the interleaving on values, and the descriptor as an object is `WorkShares.Descriptor`, one critical section per method.
- TeamPool.GlobalInfos.TeamStart: does not model team locks, hardware events, nesting levels and the table of current teams.
- TeamPool.PoolStaysAccounted: takes the number of threads asked for as non-negative.
- CacheAgreement.RequestReadsMemory: does not cover the fully associative organisation, whose stale tags survive a reset, sub-word reads and requests beyond one line.
- InstructionCache.CacheModule.HandleRequest: serves whole words only.
- InstructionCache.RPU.WriteData: does not model the write-back and update paths, the dirty location table and the metrics; counters and FIFO tickets are unbounded.
- DoubleBuffer.HandOffIsSafe: starts once the buffers are cleared, so the race of three processors initialising the locks is not covered, nor are sample values; it is a state machine over the shared variables because three processors act on them.
- FirDatapath.FirIsConvolution: covers the one-argument form of the adder, which is the one the filter uses, not the forms with extra operands, and sums do not overflow.
- Clock cycles, times and addresses are unbounded; only the decrements of countdowns wrap, as unsigned. Products of chunk size and increment do not overflow.
- The storage of ranks, row data and the packets' data fields.
- The error exits for unknown policies, packet kinds and transaction types, which have no counterpart in the model's types.
- Configuration and trace files, command line, printing, visualisation output, and the signal-level timing of SystemC, including the suppression of events for unchanged values.
- The crossbars, hardware synchroniser, clock and reset unit and DMA job table.
