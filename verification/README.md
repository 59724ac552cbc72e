# Verified models of the embedded-systems labs

Dafny models of the drivers and programs whose behaviour depends on interleaving, on wrap-around
arithmetic or on long runs: the blocking message queue (lab5/ch4), the wait-queue counters
(lab5/ex1, ex2), the RCU and reader-writer-lock cells (lab9), the stepper motor (lab10/ch9), the
motion-sensor light (lab8/ch7), the interrupt log (lab8/ex3), the ioctl calculator (lab3/ch2) and
the occupancy server with its LED driver (team). `dafny verify dfyconfig.toml` checks everything.

## How the drivers are modelled

A concurrent driver is a step system: `State` holds the shared variables and a program point per
call, `Step` names one atomic statement of one process together with every choice the environment
makes (which call, which argument, whether an allocation or a copy succeeds, whether a signal is
pending), `Enabled` and `Apply` give its effect, and a run is a legal sequence of steps. A theorem
about `After(INIT, run)` for every legal `run` is a theorem about every reachable state, and about
every prefix of every interleaving. Number of processes, data and run length are unbounded.

- `MessageQueue`: readers and writers of ch4 with the lock, the wait queue, block allocation and
  frees; `QueueCalls` is about whole calls. `LinkedList` is the circular doubly linked list on the
  heap, `QueueDriver` the two driver bodies and the exit over it.
- `WaitCounter`: both wait-queue counters in one system, since ex1 and ex2 use the same macros.
- `RcuCell`, `RwlockCell`: two implementations of the register specified in `SharedRegister`;
  `RcuCalls`, `RcuLag`, `RcuFrees` and `RcuMemory` are about the calls of the first, how far readers
  lag, double frees and live cells. `CellDriver` has the bodies on heap cells.
- `PirLed`, `InterruptLog`: handler, timer callback and exit; handlers, opens and releases.
- `StepperMotor`, `LedDriver`, `OccupancyServer`, `Calculator`: sequential classes.
- `Sums` and `Options` are helpers.

Kernel behaviour taken as given: sequential consistency; a wait tests its condition, queues
itself, tests again and only then sleeps or reports a signal or a timeout; non-exclusive waiters
are all woken by any wake-up, exclusive waiters queue at the tail and a wake-one call rouses the
first of them; `synchronize_rcu` returns after every read section active at the call has ended;
`del_timer_sync`, `free_irq` and `disable_irq` wait for running callbacks and handlers;
`enable_irq` at depth 0 has no effect; `list_add_tail` and `list_del` have their `list.h` meaning.
An unlocked test of the list or of `my_data` is one step. Block and cell ids are never reused, so
a first double free, and any use of a cell after its free, is visible. Once a cell has been freed
twice a real allocator may hand its address out twice, and what follows from that is not in the
model: `RcuCell.ReadersAreSafe` speaks for the driver as long as no cell has been freed twice. The
lab9 drivers' operations have no owner, so nothing keeps a process that has the device open from
being in a call at the exit or from beginning one during it or after it.

## Where the code falls short of its intent

Each is stated with its exact condition.

- lab9/ex2: writers take no lock among themselves. Readers are safe all the same, until the exit
  without any condition (`RcuCell.LoadedIsSafe`), and they lag behind by as many versions as writes
  are in progress and no more (`RcuLag.LagIsNumberOfWriters`). A double free is on its way exactly
  when two writers, or a writer and the exit, have both taken the published cell before either
  replaced it (`RcuFrees.DoubleFreeExactlyOnOverlap`).
- lab9/ex2: the exit waits for no section and no write. A run is safe for its sections exactly when
  the exit frees no cell that a section holds and no section takes the pointer between the free and
  the clear (`RcuCell.ReadersAreSafe`). Seen at the moment of the free, that is guaranteed exactly
  when each active section already holds an older cell and none begins before the clear
  (`RcuCell.ExitSafeExactlyWhenHarmless`); if one may begin, it never is
  (`RcuCell.ExitUnsafeForNewSections`).
- lab9/ex2: when the exit has returned, the writes in progress leave a cell behind exactly when one
  of them has still to publish (`RcuMemory.NothingLeftExactlyWhenPublished`), and a write that
  begins later always can (`RcuMemory.LateWriteLeavesACell`).
- lab5/ex2: a wake-one call that adds two or more can leave an exclusive waiter asleep beside
  positive data; one that adds at most one cannot (`WaitCounter.StrandingExactlyAboveOne`).
- lab5/ex1, ex2: the test is outside the lock, so `my_data` goes below zero, with N processes down
  to exactly 1 - N. In ex1 a wait that timed out returns 0, which is not taken for an error, and is
  counted down as well (`lab5/ex1/simple_block_1.c:35-38`, `:54`): with T of them the counter goes
  down to exactly 1 - N - T, so a single process suffices (`WaitCounter.CounterBoundExact`).
- lab8/ch7: the comments promise ten seconds of light after a detection. While loaded, with the lock
  free and the LED lit within them, it can go dark early, without an interrupt still to come and
  without the exit, exactly when an expired callback or the handler of the next detection is
  waiting for the lock (`PirLed.EarlyDarkExactlyWhenWaiting`). The exit deletes the timer before
  freeing the interrupt: from then on, without an interrupt still to come, it can leave a timer or a
  callback behind exactly when there is one or a handler stands before its `mod_timer`
  (`PirLed.OutlivesExactlyWhenUnsettled`).
- lab8/ex3: after two overlapping opens a single open no longer enables the interrupt; it is
  enabled exactly while as many opens are held as ever were at once
  (`InterruptLog.EnabledExactlyAtPeak`).

## Model

| member | source | states |
|---|---|---|
| MessageQueue.FifoUnderAllInterleavings | lab5/ch4/ch4_mod_202111360.c:50-56 | In every interleaving, messages unlinked so far followed by the contents of the linked blocks are the user messages in linking order |
| MessageQueue.DeliveredAsTaken | lab5/ch4/ch4_mod_202111360.c:50-65 | Every message handed to a user is the one its reader unlinked, in linking order; one neither delivered nor lost to a failed copy is carried by its reader |
| MessageQueue.CopySettles | lab5/ch4/ch4_mod_202111360.c:56-65 | In every run, a copy that succeeds delivers to the reader's user the message that was linked at the position the reader took, a copy that fails loses it, and nothing else about past messages changes |
| MessageQueue.EveryCopyCounts | lab5/ch4/ch4_mod_202111360.c:56-65 | As many messages have been delivered, and lost, as copies have succeeded, and failed |
| MessageQueue.LinksTheInput | lab5/ch4/ch4_mod_202111360.c:84-91 | What `list_add_tail` puts at the end of the list is a block with the argument of the same process's write call |
| MessageQueue.ExactlyOnePlace | lab5/ch4/ch4_mod_202111360.c:50-91 | Every node and message block ever allocated, on success and failure paths, is in exactly one of: one process's hands, the list, freed |
| MessageQueue.NeverTwice | lab5/ch4/ch4_mod_202111360.c:50-91 | No block is freed twice or linked twice |
| MessageQueue.ExitFreesEverything | lab5/ch4/ch4_mod_202111360.c:154-173 | After the exit every block ever allocated has been freed exactly once |
| QueueCalls.SleeperIsServed | lab5/ch4/ch4_mod_202111360.c:32-97 | From every reachable state with an empty list and the lock free: a reader can come to sleep on the wait queue, the next write wakes it, and its user gets that message |
| QueueCalls.OnlySignalsInterrupt | lab5/ch4/ch4_mod_202111360.c:36-65 | In every run a call in progress ends only by a write's wake-up, a failed allocation, a read's frees, a list found empty under the lock, or a signal taken while the list is empty |
| QueueCalls.CallsCanReturn | lab5/ch4/ch4_mod_202111360.c:32-97 | From every reachable state all calls in progress can return without any new one, signals getting sleepers out |
| QueueCalls.CanAlwaysUnload | lab5/ch4/ch4_mod_202111360.c:154-173 | Then the exit can run and leaves every block ever allocated freed exactly once |
| QueueCalls.ProgramOrder | lab5/ch4/ch4_mod_202111360.c:32-97 | In every run each step of a process is a statement that follows its latest one in the source, error paths included |
| MessageQueue.NoWakeUpIsLost | lab5/ch4/ch4_mod_202111360.c:37-94 | Whenever the queue is non-empty and a reader sleeps un-woken, a writer has linked and not yet issued its wake-up; with the lock free it stands between unlock and wake-up |
| MessageQueue.NobodySleepsOnMessages | lab5/ch4/ch4_mod_202111360.c:37 | If everybody in the driver sleeps un-woken, the queue is empty |
| MessageQueue.EmptyRecheckMeansOvertaken | lab5/ch4/ch4_mod_202111360.c:42-48 | A reader that finds the list empty under the lock was overtaken: the first dequeue after it passed the wait was another process's |
| MessageQueue.SingleReaderNeverFindsEmpty | lab5/ch4/ch4_mod_202111360.c:42-48 | With one reading process and any writers the -EFAULT exit of the re-check is unreachable |
| QueueCalls.TwoReadersReachEmpty | lab5/ch4/ch4_mod_202111360.c:37-48 | With two readers it is reached: for every message a run in which both pass the wait for it and the second finds the list empty |
| MessageQueue.HeapMirrorsRun | lab5/ch4/ch4_mod_202111360.c:50-91 | What a run has taken and left queued is what its list operations alone, in lock order, take and leave |
| QueueDriver.Driver.Replay | lab5/ch4/ch4_mod_202111360.c:42-91 | For every run, replaying its list operations on the heap list hands out the same messages and leaves the same contents as the step system |
| QueueDriver.Driver.Write | lab5/ch4/ch4_mod_202111360.c:68-97 | Appends the message on success, changes nothing on each failure, returns the code of the first failure, and leaves no block behind |
| QueueDriver.Driver.Read | lab5/ch4/ch4_mod_202111360.c:42-66 | Unlinks and frees the first message and hands it over unless the copy fails; -EFAULT and no change on an empty list |
| QueueDriver.Driver.Exit | lab5/ch4/ch4_mod_202111360.c:164-169 | Visits every remaining node once, frees all, leaves an empty list |
| LinkedList.List.AddTail | lab5/ch4/ch4_mod_202111360.c:90 | The ring stays a ring and its contents gain the value at the end |
| LinkedList.List.Del | lab5/ch4/ch4_mod_202111360.c:52 | Unlinking the node at any position keeps the ring of the others in order, drops its value, and leaves its own links poisoned |
| LinkedList.List.Drain | lab5/ch4/ch4_mod_202111360.c:164-169 | The safe loop visits exactly the old nodes in order although each step unlinks the current one, and ends with an empty ring |
| LinkedList.List.Show | lab8/ex3/spin_interrupt.c:40-49 | The walk yields the contents first to last |
| WaitCounter.NoSleeperStranded | lab5/ex2/simple_block_2.c:26-63 | With wake-one calls adding at most one: beside any un-woken exclusive sleeper, data minus consumers past the check is at most woken-unchecked processes plus pending wake-ups |
| WaitCounter.NotStrandedAtRest | lab5/ex2/simple_block_2.c:26-63 | Then no quiescent state has an exclusive sleeper and positive data |
| WaitCounter.NoSharedSleeperStranded | lab5/ex1/simple_block_1.c:26-46 | For any amounts: beside data, a plain, interruptible or timed sleeper still on the queue has a writer that has added and not yet issued its wake-up |
| WaitCounter.SharedNotStrandedAtRest | lab5/ex1/simple_block_1.c:26-46 | So no quiescent state has positive data and such a sleeper |
| WaitCounter.WakesWhomItShould | lab5/ex2/simple_block_2.c:38-52 | A wake-up call takes off the queue everybody if it was wake-all, else every non-exclusive waiter and, of the exclusive ones, the one that queued first |
| WaitCounter.AddsTheArgument | lab5/ex2/simple_block_2.c:38-52 | The locked addition adds the argument of the same process's call |
| WaitCounter.SignalGetsOut | lab5/ex1/simple_block_1.c:30-33 | A signal to a sleeper, without data, ends the call and takes nothing |
| WaitCounter.CanAlwaysRest | lab5/ex1/simple_block_1.c:26-57 | From every reachable state, without any new call, every process can leave the driver, but for plain waiters asleep without data |
| WaitCounter.ProgramOrder | lab5/ex1/simple_block_1.c:26-57 | In every run each step of a process is one that follows its latest one in the source and the wait macro |
| WaitCounter.StrandingRun | lab5/ex2/simple_block_2.c:38-44 | For every k of at least two, a run with wake-one amounts up to k that strands a sleeper |
| WaitCounter.StrandingExactlyAboveOne | lab5/ex2/simple_block_2.c:26-63 | No run with wake-one amounts up to k strands anybody if and only if k is at most one |
| WaitCounter.CounterBoundFromInit | lab5/ex1/simple_block_1.c:26-57 | With N processes and T timed-out waits, data is produced minus consumed and at least 1 - N - T plus consumers past the check |
| WaitCounter.CounterBoundReached | lab5/ex1/simple_block_1.c:26-57 | For every N of at least one a run without timeouts reaches 1 - N |
| WaitCounter.CounterBoundReachedWithTimeouts | lab5/ex1/simple_block_1.c:35-54 | For every N of at least one and every T a run with T timed-out waits reaches 1 - N - T |
| WaitCounter.CounterBoundExact | lab5/ex1/simple_block_1.c:26-57 | All runs with N processes and at most T timed-out waits stay at or above b if and only if b is at most 1 - N - T |
| RcuCell.ReadersAreSafe | lab9/ex2/simple_rcu.c:33-68 | For every run, with any readers and writers, overlapping or not, and an exit at any moment: no section ever holds a freed cell, its reads all give its cell's value, and NULL is seen only after the exit, if and only if the exit frees no held cell and no section takes the pointer between free and clear |
| RcuCell.LoadedIsSafe | lab9/ex2/simple_rcu.c:33-68 | Until the exit the same holds without any condition, and the pointer's cell is live |
| RcuCalls.PublishesTheArgument | lab9/ex2/simple_rcu.c:52-58 | What a write publishes, as the latest version and in a live cell, is the argument of its call |
| RcuCalls.SectionsRunWhole | lab9/ex2/simple_rcu.c:34-45 | In every run a section that ends has dereferenced once and read twice, or found NULL and read nothing |
| RcuCalls.WritesRunWhole | lab9/ex2/simple_rcu.c:52-66 | In every run a write that frees has allocated, captured, published and waited for its grace period, once each and in this order |
| RcuCell.ExitSafeExactlyWhenHarmless | lab9/ex2/simple_rcu.c:104-111 | Whatever happens after the exit's free, save that a section begins before the clear, no section comes to hold a freed cell, if and only if every section active at that moment already holds a cell other than the published one |
| RcuCell.ExitUnsafeForNewSections | lab9/ex2/simple_rcu.c:104-111 | From every reachable loaded state, a section that begins between free and clear can hold the freed cell |
| RcuLag.RefinesRegister | lab9/ex2/simple_rcu.c:33-68 | With at most k writes in progress: every section sees one version, which was the latest at a moment between its start and its first read, and which is at most k behind at each read, or k + 1 if the exit overtakes the section |
| RcuLag.LagIsNumberOfWriters | lab9/ex2/simple_rcu.c:35-66 | All runs with at most k writes in progress in which the exit overtakes no section keep within a lag b if and only if b is at least k |
| RcuLag.LagWithExit | lab9/ex2/simple_rcu.c:35-111 | With overtaking exits, if and only if b is at least k + 1, or 0 for k = 0 |
| RcuMemory.LiveCellsBounded | lab9/ex2/simple_rcu.c:52-66 | Without an overlap and until the exit returns, at most one cell more is live than writes are in progress |
| RcuMemory.LiveCellsExact | lab9/ex2/simple_rcu.c:52-66 | Over all such runs with at most k writes in progress the live cells keep within b if and only if b is at least k + 1 |
| RcuMemory.SerialLiveCells | lab9/ex2/simple_rcu.c:52-111 | With serialised writes, an exit at any moment and new writes during and after it, at most two cells are live without an overlap and at most three with one; until the exit nothing overlaps |
| RcuMemory.UnloadFreesEverything | lab9/ex2/simple_rcu.c:52-111 | From the moment the exit has returned, through any calls that go on or begin without an overlap until no write is left: every cell is live or freed exactly once, and none is live if and only if no write has published since |
| RcuMemory.NothingLeftExactlyWhenPublished | lab9/ex2/simple_rcu.c:52-111 | At that moment, however the calls in progress finish without an overlap, they leave nothing live if and only if no write among them has still to publish |
| RcuMemory.LateWriteLeavesACell | lab9/ex2/simple_rcu.c:52-111 | A write that begins then can always leave a cell behind |
| RcuFrees.DoubleFreeExactlyOnOverlap | lab9/ex2/simple_rcu.c:55-66 | After any run, also one with an exit at any point, letting the processes finish can free a cell twice if and only if two of them have taken the same published cell |
| RcuFrees.FreedTwiceExactlyOnOverlap | lab9/ex2/simple_rcu.c:55-66 | When no write is in progress, before or after an unload, no cell has been freed twice if and only if nobody has overlapped |
| RcuFrees.OverlappingWriters | lab9/ex2/simple_rcu.c:55-66 | A run with an overlap exists: two writers capture the same cell |
| RwlockCell.ReadersAreExact | lab9/ex1/simple_rwlock.c:35-59 | With unrestricted readers and writers: a section runs within one version and sees its value, no double free, the pointer is valid before exit, and with no writer inside exactly the published cell is live |
| RwlockCell.RefinesRegister | lab9/ex1/simple_rwlock.c:35-59 | The same register, each section seeing one version, with staleness 0 and no hypothesis on writers |
| RwlockCell.PublishesTheArgument | lab9/ex1/simple_rwlock.c:50-59 | What a write assigns is a live cell with the argument of its call |
| RwlockCell.ReadsTheLatestArgument | lab9/ex1/simple_rwlock.c:35-46 | Every read, in every run, gives the argument of the latest write, or 0 before any |
| RwlockCell.CanAlwaysUnlock | lab9/ex1/simple_rwlock.c:35-59 | From every reachable state whoever has the lock can finish and leave it free; a write under way has then published its argument, an exit NULL |
| RwlockCell.WriteThenRead | lab9/ex1/simple_rwlock.c:35-59 | From every state with the lock free a write and then, beside another section, a section can run that reads the argument twice |
| RwlockCell.ExitClears | lab9/ex1/simple_rwlock.c:103-112 | From every such state an exit can run, after which the pointer is NULL and every cell has been freed exactly once |
| RwlockCell.TenuresAreWhole | lab9/ex1/simple_rwlock.c:50-112 | In every run, when the write lock is free its last holder has run a whole write or exit, statement by statement in order |
| RwlockCell.SectionsRunWhole | lab9/ex1/simple_rwlock.c:36-47 | In every run a section that unlocks has loaded the pointer once and read twice, or found NULL and read nothing |
| CellDriver.Driver.Read | lab9/ex1/simple_rwlock.c:37-44 | Both printed values are equal and current |
| CellDriver.Driver.Write | lab9/ex1/simple_rwlock.c:52-57 | A fresh cell is published, the old one is no longer live, the version history grows by the argument |
| CellDriver.Driver.Exit | lab9/ex1/simple_rwlock.c:105-108 | Nothing is live afterwards and the pointer is NULL, also when it was NULL before |
| PirLed.FlagPinAndTimer | lab8/ch7/ch7_mod_202111360.c:22-75 | With the lock free the flag equals the pin; while loaded a set flag has a pending timer or a callback in flight; a pending timer is due ten seconds after the latest detection |
| PirLed.DarkBeforeRelit | lab8/ch7/ch7_mod_202111360.c:56-61 | The LED is always dark right before a detection lights it |
| PirLed.EarlyDarkExactlyWhenWaiting | lab8/ch7/ch7_mod_202111360.c:22-75 | While loaded, with the lock free and the LED lit within ten seconds of the latest detection, it can go dark within them, without an interrupt still to come or the exit, if and only if an expired callback or an entered handler waits for the lock |
| PirLed.LitUnlessCut | lab8/ch7/ch7_mod_202111360.c:43-75 | Within ten seconds of the latest detection the LED is lit if and only if no callback that expired before it has run since, whatever else has happened; the guard that tells in advance is in the row above |
| PirLed.EarlyOnlyWhenOvertaken | lab8/ch7/ch7_mod_202111360.c:22-31 | A callback about to switch off finds the timer pending exactly when a detection overtook it, and only then can it be early |
| PirLed.LightCutShort | lab8/ch7/ch7_mod_202111360.c:22-75 | A run in which the LED goes dark at the moment of the latest detection |
| PirLed.ExitLeavesNoTimer | lab8/ch7/ch7_mod_202111360.c:178-189 | After the deletion a timer is pending or a callback in flight only because of a later detection, and within its ten seconds exactly then; the guard that tells in advance is in the next row |
| PirLed.OutlivesExactlyWhenUnsettled | lab8/ch7/ch7_mod_202111360.c:178-189 | In every reachable state between the deletion and the release of the interrupt: without an interrupt still to come the unload can leave a timer pending or a callback in flight if and only if one is there or a handler has entered and not yet called `mod_timer` |
| PirLed.TimerOutlivesModule | lab8/ch7/ch7_mod_202111360.c:178-189 | A run that unloads with the timer pending |
| PirLed.Device.PirIrqHandler | lab8/ch7/ch7_mod_202111360.c:43-75 | The handler's body has the effect of its steps and puts a lit LED out once before lighting it |
| PirLed.Device.LedTimerFunc | lab8/ch7/ch7_mod_202111360.c:22-34 | The callback's body has the effect of its composed steps, with one pin write |
| PirLed.Device.Exit | lab8/ch7/ch7_mod_202111360.c:178-189 | The exit's body has the effect of its composed steps, with one pin write |
| StepperMotor.RunMoves | lab10/ch9/ch9_mod_202111360.c:34-58 | Any list of moves from phase 7 ends at 8 times the net rounds, less one half-step after a forward move, and after k moves that fit within k rounds and one half-step of the net degrees; the record grows by exactly the writes made, four a step, and each shows a table pattern or all-off |
| StepperMotor.RoundsOfMove | lab10/ch9/ch9_mod_202111360.c:38-55 | A move makes 512 rounds to the full turn, rounded down; none for another direction or a negative angle |
| StepperMotor.NetRoundsInDegrees | lab10/ch9/ch9_mod_202111360.c:38-55 | Over k moves the net rounds are less than k away from the net degrees |
| StepperMotor.PatternPullsTo | lab10/ch9/ch9_mod_202111360.c:21-24 | Pattern j energises exactly the windings within one half-step of j, so the order of the table is the direction of rotation |
| StepperMotor.Motor.MoveDegree | lab10/ch9/ch9_mod_202111360.c:34-58 | One move from any position not opposite its first pattern |
| StepperMotor.Motor.SetStep | lab10/ch9/ch9_mod_202111360.c:26-31 | The four patterns shown by the four writes, all in the table |
| StepperMotor.MoveFromExpected | lab10/ch9/ch9_mod_202111360.c:40-55 | From an expected position every move leads to the expected position, so errors do not accumulate |
| StepperMotor.GrayCode | lab10/ch9/ch9_mod_202111360.c:21-31 | Writing the pins one by one from a table neighbour or from off passes through table patterns only |
| StepperMotor.NearestIsNearest | lab10/ch9/ch9_mod_202111360.c:43-53 | The settling position is congruent, less than half a turn away, and unique as such |
| StepperMotor.OverflowBound | lab10/ch9/ch9_mod_202111360.c:38 | For non-negative ints the multiplication is exact if and only if degree is at most 4194303 |
| StepperMotor.RoundsSuperadditive | lab10/ch9/ch9_mod_202111360.c:38 | Splitting a move in two loses at most one round and gains none |
| StepperMotor.TotalShortfall | lab10/ch9/ch9_mod_202111360.c:38 | Over k moves fewer than k rounds are lost in all |
| StepperMotor.ExactMoves | lab10/ch9/ch9_mod_202111360.c:38 | A move is exact if and only if 45 divides its degrees |
| OccupancyServer.Server.OnMessage | team/server_pi_app.c:147-173 | One message: count, response, status as specified, and the LED follows the count when the write succeeds |
| OccupancyServer.Server.Serve | team/server_pi_app.c:147-173 | Any message run from the start: the log is the specified one and driver state and pin are on exactly when somebody is inside |
| OccupancyServer.EveryMessage | team/server_pi_app.c:98-164 | For every topic and payload and every count: the new count and the response, or none |
| OccupancyServer.FiveGetIn | team/server_pi_app.c:98-113 | Of n ENTER messages from the start the first five are allowed and the others denied, and the count is the smaller of n and 5 |
| OccupancyServer.StatusSays | team/server_pi_app.c:83-96 | The count, the limit and the full flag can be read back from the status text |
| OccupancyServer.PayloadEqualsMeansEqual | team/server_pi_app.c:49-60 | The comparison holds exactly for a non-NULL payload equal to the string |
| OccupancyServer.CountBalances | team/server_pi_app.c:98-130 | The count stays in 0..5 and is allowed entries minus allowed exits |
| OccupancyServer.OneAnswerEach | team/server_pi_app.c:98-167 | One response per valid request, in order, on its topic |
| OccupancyServer.OneStatusEach | team/server_pi_app.c:83-96 | One status per message, carrying the count at that moment |
| OccupancyServer.FullPredictsDenial | team/server_pi_app.c:83-113 | The full flag of the latest status is 1 if and only if the next ENTER is denied |
| OccupancyServer.AdmissionIsOptimal | team/server_pi_app.c:98-130 | Against any policy within the limit that treats exits alike: lead in admissions at least lead in occupancy, which is at least zero |
| OccupancyServer.ServerIsOptimal | team/server_pi_app.c:98-173 | After every message run the server has sent at least as many entry permits as any such policy grants |
| OccupancyServer.GapNeverWidens | team/server_pi_app.c:98-130 | Two servers fed the same requests never drift apart |
| LedDriver.Device.Write | team/pi2_led_driver.c:73-102 | Return value for every input; state and pin change together and only on a valid command |
| LedDriver.Device.Read | team/pi2_led_driver.c:50-71 | Two bytes once per position 0, then end of file; every error case |
| LedDriver.WriteThenRead | team/pi2_led_driver.c:50-102 | A command written is read back, then end of file |
| InterruptLog.LogStaysSorted | lab8/ex3/spin_interrupt.c:61-74 | Under a non-decreasing clock the log is sorted in every interleaving of handlers |
| InterruptLog.LogIsReadings | lab8/ex3/spin_interrupt.c:61-74 | In every run the log, with the time a handler has read and not yet linked, is the old log followed by every reading of the clock, in order |
| InterruptLog.EdgeIsRecorded | lab8/ex3/spin_interrupt.c:61-74 | On an enabled line with the lock free an interrupt at any later time can run and adds that time |
| InterruptLog.CanAlwaysClose | lab8/ex3/spin_interrupt.c:31-74 | From every reachable state, without a new interrupt, every handler can finish and links one time, and then every open can be released |
| InterruptLog.EnabledExactlyAtPeak | lab8/ex3/spin_interrupt.c:25-54 | Depth plus opens is at least one; the line is enabled exactly while as many opens are held as ever were; without overlap, exactly while open |
| InterruptLog.ClosedRecordsNothing | lab8/ex3/spin_interrupt.c:25-54 | While closed no step records anything or starts a handler |
| InterruptLog.OverlapDisables | lab8/ex3/spin_interrupt.c:25-54 | Two overlapping opens and one release leave the device open and the line off |
| InterruptLog.Device.Release | lab8/ex3/spin_interrupt.c:31-54 | Prints the whole log unchanged and raises the disable depth |
| InterruptLog.Device.Interrupt | lab8/ex3/spin_interrupt.c:61-74 | Appends the time exactly when the line is enabled |
| InterruptLog.Device.Exit | lab8/ex3/spin_interrupt.c:119-123 | Visits and unlinks every node once |
| Calculator.Device.Ioctl | lab3/ch2/ch2_mod_202111360.c:34-58 | The new accumulator and the return value of every command; the accumulator stays in range |
| Calculator.SequenceIsAffine | lab3/ch2/ch2_mod_202111360.c:34-58 | Any command sequence is one affine map on the initial value, reduced once at the end |
| Calculator.WrapIsSignedWord | lab3/ch2/ch2_mod_202111360.c:34-58 | Reduction gives the one value of a signed word that is congruent to the exact result |
| Calculator.StartsConverge | lab3/ch2/ch2_mod_202111360.c:34-58 | Without SET two starts end equal if and only if the modulus divides the product of the MUL arguments times their difference |
| Calculator.DifferenceScales | lab3/ch2/ch2_mod_202111360.c:34-58 | Without SET the results differ by that product, modulo 2^w |
| Calculator.SetForgets | lab3/ch2/ch2_mod_202111360.c:40-43 | Everything before a SET is irrelevant |

## Left out

- The interleaved drivers (lab5, lab9, lab8/ch7, lab8/ex3) are step systems over values: a statement is a record update, not a write to the heap. Their bodies on fields and heap objects are the `Device` and `Driver` classes beside them, which run alone.
- Weak memory ordering, the intermediate pointer states of `list_add_tail` seen by an unlocked `list_empty`, and address reuse by the allocator.
- Real time: delays, and that a sleeping or waiting process is ever scheduled. What is proved is that nobody sleeps on messages or is stranded, and that calls in progress always can finish, not that they do.
- Spurious wake-ups, and the value a wait-queue ioctl returns after dropping the lock (an unlocked read of `my_data`).
- Overflow of `my_data` in lab5: the counter is unbounded.
- Failure of `kmalloc` in lab8/ex3 and lab9, where the code does not test it.
- WaitCounter.NoSleeperStranded: needs the wait queue's first-in first-out order for exclusive waiters, as Linux keeps it; an arbitrary choice by wake-one is not covered.
- RcuCell.ReadersAreSafe: what a section sees through an address handed out twice after a double free.
- lab9: calls that run on after the exit has returned, or begin then, go on as before in the model; that their code is unloaded at some point is not modelled.
- PirLed.Device.Exit: the exit with no detection on the way; the interleaved exit is in the step system.
- `ch4_exit` with calls in progress: the owner field keeps the module loaded while a file is open, so the exit step runs with nobody in the driver.
- Module and device registration, `printk`, user-space test programs, MQTT connection handling and signals.
- lab2, lab3/ex1 to ex3, lab4, lab6, lab8/ex1 and ex2, lab11 to lab14: single-branch examples, tracing scripts and scheduler demos that would only add easy members; lab4's list and queue are subsumed by ch4.
