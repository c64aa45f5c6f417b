# fisher runtime: a verified model

fisher is a user-space concurrency runtime: fibers run on N worker threads, blocking socket calls and `sleep` are
hooked so that only the calling fiber waits, epoll tells which descriptors became ready, and a deadline-ordered timer
set drives sleeps and timeouts. This project models its hard core in two layers and proves properties of whole runs.

**The step system** (`Runtime*.dfy`). One action is one region the program protects by a lock, one access to an
atomic, one reading of the clock or one system call. A worker walks `Scheduler::run` (take, call, switch back,
decrement, put on hold, idle), a fiber walks `do_io`, `sleep`, `close` and the timer callbacks, and the environment
advances the clock, schedules work from outside, asks for the stop and sends the tickle that `schedule` owes. A run is
any list of enabled actions from the initial state of N workers, so a theorem about every run covers every
interleaving. What `epoll_wait` reports is fixed when it returns and handled later, report by report. Every
`epoll_ctl` may fail, that of `addEvent` included. User code spawns fibers, does I/O, sleeps, closes descriptors, and
makes, cancels, refreshes and resets timers, one-shot or recurring. A failing assertion is an action that ends the run.
The fields `token`, `on`, `armed`, `saw`, `readAt`, `reader`, `written`, `hushed`, `refused` and `misled` are auxiliary:
no action's enabling condition reads them. The theorems about wake-ups are restated without tokens by counting
(`RuntimeWakeups`), those about timeouts and about the front deadline by the actions of the run (`RuntimeOnTime`,
`RuntimeRounds`, `RuntimeReadings`). `misled` says that a fiber has been scheduled by a bit whose addition the kernel
had refused; results that need it to be false say so ("while nobody is misled"), and
`RuntimeInvariant.NeverMisledWithoutRefusal` says that it is false in every run in which no addition is refused.
`connect_with_timeout` waits exactly as one round of `do_io` does. Results that say for how many workers something
holds come with runs for all the other numbers (`RuntimeScenarios` builds them from stretches).

**The parts as the program updates them.** Classes and methods whose contracts equate the new state with a function
of the old one, and lemmas about those functions:

| module | source | content |
|---|---|---|
| `EventTable`, `RegistryRuns` | iomanager.cpp | the event registry as a value, and all its runs |
| `EventRegistry` | iomanager.cpp, iomanager.h | the fd contexts and the registry as objects |
| `Deadlines`, `TimerSet`, `TimerRuns` | timer.cpp | deadlines as a map, the ordered timer set, and all its runs |
| `TimerManager` | timer.cpp, timer.h | timers and their manager as objects |
| `SchedulerLoop` | scheduler.cpp, scheduler.h, fiber.cpp | fibers, the queue, and `run` for one worker |
| `HookedIo` | hook.cpp | the loop of `do_io` and the protocol it follows |
| `FormatParser` | util.cpp | `format_parser`, and a printer that inverts it |
| `Common` | fiber.h | fiber states, the queue scan |

The runtime uses `EventTable` and `Deadlines` directly; `TimerSet`'s `...OnMap` lemmas show that the ordered set,
read as a map from deadlines to timers, does what the runtime's timer steps do, re-arming included. `RuntimeDoIo` shows
that every call of `do_io` in the runtime follows the protocol that `HookedIo` proves of the loop.

## What the proofs say about the code

- **Shutdown.** The test that ends an idle fiber reads the timers, the pending counter and the scheduler in three
  steps. As long as no read finds the front exactly one millisecond overdue, and while nobody is misled, it leaves
  nothing behind if and only if there is exactly one worker; done as one step it would be sound for any number. With
  two workers one can read "no timers", a callback in the other's hand then arms one, and both leave. (Zero workers
  serve nobody, so a scheduled fiber stays.) When nothing is left behind, every fiber ever created has ended or is a
  lost sleeper.
- **Unsigned difference.** `getNextTimer` subtracts without sign. A front timer exactly one millisecond overdue
  reads as "no timer". In every run a sole worker that has left has left nothing behind if and only if the front was
  not one millisecond overdue when it read it in its last test and nobody was misled. Any other overdue front makes
  epoll wait its full cap of 10 s instead of not at all.
- **Refused additions.** When `epoll_ctl` refuses an addition, `addEvent` leaves the bit and the slot set although the
  call returns. Such a bit stands from the refusal until it is cleared, and until the first of them is triggered, a
  fiber behind a bit waits there exactly if the bit is not one of them. Triggering one schedules a fiber that does not
  wait there. The pending counter is the number of bits with a waiter exactly until that happens, and smaller after; so
  one worker can shut down with a waiter left behind, and two can run one fiber: without the proviso no two workers
  ever have the same fiber if and only if there is at most one worker, and no number of workers shuts down safely in
  every run. One run of one worker and one of two or more show it.
- **Reports.** The assertions of `triggerEvent` hold exactly for reports the kernel refuses, entirely stale ones and
  entirely current ones. They never fail if and only if there is at most one worker: with two, one can be told of
  both events of a descriptor, the other of one of them, and the second to handle its report stops the program.
- **Closing.** `close` cancels the events of a descriptor and closes it in two steps, and ignores whether the first
  succeeded. The kernel mirrors the registry over a run if and only if no descriptor was closed with bits set and no
  addition was refused. If cancellations succeed the former never happens if and only if there is at most one worker:
  with two, the waiter just woken can wait again in between. The bits of a descriptor are unknown to the kernel if and
  only if it was closed with bits set or its first addition was refused, and then for good; with a waiter behind one,
  the pending counter never reads zero again while nobody is misled, so no worker stops.
- **Earlier deadlines.** The worker that read the front last has a tickle written for every earlier deadline since,
  unless a `refresh` moved a timer to an earlier deadline: `refresh` inserts without notice, and which steps leave a
  deadline untold is stated exactly. Another worker may drain the tickle. It is sure to be unread for the last reader
  if and only if there are at most two workers, with refreshes that move earlier at most one; for every waiting worker
  if and only if there is at most one; and for a single idle worker among any number when nothing was refreshed
  earlier. While all workers wait, the last reader has seen exactly the front, and its wait ends by that deadline or
  the cap if and only if the front was not overdue when it read it.
- **Equal deadlines.** The set holds one timer per deadline; a newcomer with a held deadline is dropped. While nobody
  is misled a sleeper is lost exactly when its deadline is already held, or when an erasure by deadline takes its
  timer: by a `do_io` that returns from its wait, by one whose addition was refused, or by user code that cancels,
  refreshes or resets a timer once dropped for that deadline. One-worker runs show the refusal, both kinds of
  `do_io`, and the user's cancel. A call loses its timeout exactly when its insertion is refused, when such an erasure
  takes it, or when its callback ends; a one-worker run reaches a wait with a timeout that is nowhere.
- **Cancel, refresh and reset of a timer outside the set** act on whichever timer has its deadline. Each timer ever
  made stays exactly one of held, cancelled, kept out and fired as long as no step takes another timer so, and every
  step that does breaks this.
- **Cancelling a fired timer.** A fired one-shot timer keeps its callback, so the `cancel` that `do_io` makes after
  a timeout erases at the end of the set, which C++ leaves undefined, unless that deadline is held again. Here such a
  call erases nothing, and `Timer.Cancel` reports it.
- **Long sleeps.** `sleep` multiplies by 1000 in 32 bits, so a request above 4294967 seconds ends early; up to there
  no run wakes a sleeper before its time.
- **The registry by itself.** Over any run of registry operations, callback waits included, the registry mirrors the kernel if
  and only if no addition failed, and the next `epoll_ctl` is acceptable if and only if no first addition on the
  descriptor failed; after one the waiters of the descriptor never leave. The 64-bit pending counter reads the number
  of set bits if and only if no addition failed, and can wrap below zero.
- **Context slots.** Nothing ever turns a slot back to the fiber alternative, so after one callback wait, or one
  `delEvent`, on a descriptor and event every later `addEvent` there stops at its assertion. Fiber waits, the only
  kind `hook.cpp` makes, never do.
- **"%%"** consumes only its first percent sign, so the second one starts an item: it is no escape. The round trips
  hold for such patterns all the same. The one thing a parse that reports no error loses is an empty group `{}`.

## Model

| member | source | states |
|---|---|---|
| RuntimeWakeups.ExactlyOneWakeup | hook.cpp:107-143 | in every reachable state, while nobody is misled, a fiber waiting in `do_io`, or not started, is in exactly one of queue, event slot and one worker's hand, and nothing else will wake it; a sleeper has at most one wake-up; a running or ended fiber none |
| RuntimeWakeups.SleeperLostIff | hook.cpp:128-170 | while nobody is misled, a step leaves a sleeper without wake-up if and only if it inserts the timer of its own `sleep` on a held deadline, or erases the sleeper's timer by its deadline: a cancel by `do_io` after its wait or after a refused addition, or a cancel, refresh or reset by user code |
| RuntimeLostSleepers.SecondSleeperLost | timer.cpp:147-148 | a run of one worker in which the second of two sleeps with equal deadlines is lost |
| RuntimeLostSleepers.SleeperErased | hook.cpp:134-137 | a run of one worker in which a `do_io` woken by readiness erases a sleeper's timer |
| RuntimeLostSleepers.SleeperErasedByRefusal | hook.cpp:128-131 | a run of one worker in which a `do_io` whose addition is refused erases a sleeper's timer |
| RuntimeLostSleepers.SleeperErasedByUser | timer.cpp:35-44 | a run of one worker in which user code cancels a timer dropped for a sleeper's deadline and erases the sleeper's |
| RuntimeLostTimeouts.TimeoutLostIff | hook.cpp:112-137 | a step leaves a call without any timeout made, held, in hand or with a callback fiber if and only if it takes away the only one: insertion on a held deadline, an erasure by that deadline (by `do_io` or by user code), or the end of its callback |
| RuntimeLostTimeouts.TimeoutMadeByOwnRound | hook.cpp:112-121 | running code brings a timeout of a call into being only in that call's own round |
| RuntimeLostTimeouts.TimedRoundHasTimeout | hook.cpp:112-137 | over every run, a call in a round with a timer has its timeout somewhere, unless a step since its arming has taken a timeout of it away |
| RuntimeLostSleepers.WaitsWithoutTimeout | hook.cpp:112-134 | a run of one worker in which a call waits with a timeout that is nowhere |
| RuntimeWakeups.AllEndedOrLost | scheduler.cpp:120-131 | while nobody is misled, when all workers have left with no work, every fiber ever created has ended or is a lost sleeper |
| RuntimeWakeups.LostIffToken | hook.cpp:164-170 | under the token invariants the counted and the auxiliary form of "lost" agree |
| RuntimeSleep.SleepNeverEarly | hook.cpp:159-171 | over every run in which nobody is misled, a fiber that called `sleep` is about to sleep or asleep until the clock has advanced by the time it asked its timer for |
| RuntimeSleep.SleepTimeExactIff | hook.cpp:166 | that time is the requested one if and only if seconds * 1000 fits in 32 bits, and shorter otherwise |
| RuntimeUserTimers.HeldByLastPeriod | timer.cpp:22-80 | over every run, a user's timer that is held is in its user's hand, not cancelled, and due the period in force after the clock of the last step that made, refreshed or reset it from now, or took it when due |
| RuntimeUserTimers.UserTimerNeverEarly | timer.cpp:121-145 | so no round takes a user's timer before that period has passed |
| RuntimeUserTimers.RecurringGoesBack | timer.cpp:138-144 | in every run, a round that takes a recurring timer begins its period anew, and holds it again by that deadline alone, if and only if no later timer has it and of those that want it this one was due first; any other timer it takes is out, unchanged |
| RuntimeUserTimers.CancelledNeverHeld | timer.cpp:35-44 | over every run a timer its user has cancelled is never held again, whatever follows |
| RuntimeUserTimers.StepMovesEntries | timer.cpp:35-154 | in every step: a user's timer is held at a deadline afterwards if and only if it was and is not taken out, or the step puts it there and no other timer is there |
| RuntimeExpiry.ExpiredCallbacksConserved | iomanager.cpp:342-346 | over every run and for every timer callback: the number of fibers made for it is the number of times it was taken out of the timers, less those still in the hands of workers |
| RuntimeExpiry.ScheduledInOrder | timer.cpp:121-145 | between two rounds of its own a worker schedules what expired in strict order of deadlines, whatever the others do |
| RuntimeTokens.RunKeepsTokens | iomanager.cpp:79-87 | the single wake-up token of every fiber survives every run in which nobody is misled, through readiness, timeout `cancelEvent`, `close`, refused additions, expiry and queueing |
| RuntimeTokens.StepKeepsTokens | iomanager.cpp:223-296 | each single step of any worker, fiber or outsider that misleads nobody keeps the tokens |
| RuntimeTokens.TakeKeeps | scheduler.cpp:89-102 | given that a step moves the token of the first non-executing fiber from queue to hand, every fiber still has its single token and every place its holder |
| RuntimeTokens.TriggerKeeps | iomanager.cpp:79-87 | the same given that a step moves a waiter's token from its slot into the queue |
| RuntimeTokens.ResumeKeeps | scheduler.cpp:104-106 | the same given that a step uses up the token of a resumed fiber |
| RuntimeScheduling.MutualExclusion | scheduler.cpp:93-113 | while nobody is misled, in no reachable state do two workers have the same fiber, for any number of workers |
| RuntimeScheduling.TakenOnlyWhenSaved | scheduler.cpp:94-112 | while nobody is misled, a taken fiber is INIT or HOLD and no worker still has it, even if its wake-up was queued before it yielded |
| RuntimeMisled.ExclusiveIffOneWorker | scheduler.cpp:93-113 | over all runs, refused additions or not, no two workers ever have the same fiber if and only if there is at most one worker |
| RuntimeSole.OthersAreParked | scheduler.cpp:104-113 | in every run of one worker, a fiber it does not execute is suspended in a wait, not started, or has ended |
| RuntimeScheduling.OneWorkerTakesTheFirst | scheduler.cpp:91-102 | in every run of one worker every take removes the front of the queue and leaves the rest in order |
| RuntimeScheduling.ServedWithinBound | scheduler.cpp:87-102 | while nobody is misled, for any number of workers a queued non-executing fiber at position p is among the next p + 1 takes, whatever is appended |
| RuntimeScheduling.StaysReady | scheduler.h:118-128 | while nobody is misled, no step but a take moves a queued fiber or makes it unfit to be taken |
| RuntimeScheduling.TakeAdvances | scheduler.cpp:93-101 | while nobody is misled, a take serves the fiber or brings it one place forward |
| RuntimeScheduling.QuiescenceIsStable | scheduler.cpp:138-141 | without outside work, a runtime without work and without set bits stays so over every run, for any number of workers |
| RuntimeScheduling.BaseQuiescenceIsStable | scheduler.cpp:138-141 | on the base scheduler "queue empty and none active", once true, holds over every later run without outside work |
| RuntimeShutdown.NoWorkLeftWithAtomicTest | iomanager.cpp:310-313 | with the stopping test as one step, and no read of a front one millisecond overdue, once all N > 0 workers have left, queue, timers, waiters behind bits and expired callbacks in hand are all empty if and only if nobody was misled |
| RuntimeShutdown.SoleWorkerShutsDownSafely | scheduler.cpp:120-131 | with the program's own three-read test, and no read of a front one millisecond overdue, a sole worker leaves nothing behind if and only if nobody was misled |
| RuntimeShutdown.DoneStaysDone | scheduler.cpp:87-123 | once every idle fiber has ended and queue, timers, pending counter and active counter are empty, nothing the workers still do changes that |
| RuntimeShutdownFails.SafeShutdownIffOneWorker | iomanager.cpp:310-313 | "over runs without a read of a front one millisecond overdue, nothing is left behind if and only if nobody was misled" holds of the program's stopping test with n workers if and only if n is 1 |
| RuntimeLastTest.SoleShutdownSafeIff | timer.cpp:101-111 | in every run a sole worker that has left has left no work behind if and only if the front it read in its last test was not one millisecond overdue then and nobody was misled |
| RuntimeMisled.RefusalLeavesWaiterBehind | iomanager.cpp:175-183 | without the proviso that nobody is misled, no number of workers shuts down safely in every run; with one worker a run leaves a fiber waiting on a descriptor the kernel knows |
| RuntimeShutdownFails.OverdueTimerLeftBehind | iomanager.cpp:310-313 | a run of one worker that ends with a timer still held, because it was one millisecond overdue when read |
| RuntimeOnTime.TimeoutNeverEarlyNorMisattributed | hook.cpp:112-141 | over every run, told by its actions: a call about to report ETIMEDOUT was begun with a timeout by the very fiber that reports it, that fiber has made a timer for it since, and from there on at least the timeout asked for has passed |
| RuntimeOnTime.CallIsAsAsked | hook.cpp:79-124 | over every run a fiber inside a call has begun it, and the event and the timeout of the call are those its `do_io` was called with |
| RuntimeCalls.StepMovesCalls | hook.cpp:107-150 | in every step: a call begins only by a `do_io`, keeps its event and timeout, gets a clock reading exactly when its own fiber arms a timer for it, and that reading is the clock, and is live exactly until it returns |
| RuntimeCalls.LiveIffInside | hook.cpp:79-150 | in every reachable state a call is live if and only if a fiber is inside it, and then exactly one is |
| RuntimeRounds.HeldTimeoutIsCurrent | hook.cpp:112-137 | over every run, a timer held for a call was made by the fiber inside the call in the round it is in now, due the asked timeout after the clock of that moment; so none of an earlier round, or of a call that has returned, is ever held |
| RuntimeRounds.StepMovesRounds | hook.cpp:112-137 | in every step: a round with a timer begins exactly by arming, due the timeout after the clock, ends exactly by the cancel after the wait or after a refused addition, and no other step changes any fiber's round |
| RuntimeDoIo.EveryCallIsAPath | hook.cpp:101-150 | over every run of any number of workers, what the fiber inside a call does, whatever others do in between, is a path of the protocol that `HookedIo` proves of the loop; the fiber stands where the path says, and a call that has returned has an answer |
| RuntimeWaits.WaitsForWhatItAsked | hook.cpp:124-134 | over every run, while nobody is misled, the fiber behind a bit whose addition was not refused waits in a call, and that call was begun by this fiber for exactly that descriptor and event |
| RuntimeWaits.TimeoutWakesItsCall | hook.cpp:113-120 | and the `cancelEvent` of a timeout schedules the fiber that still waits in that call, and no other |
| RuntimeWaits.ReadinessWakesWhoAsked | iomanager.cpp:357-393 | and a report that is neither stale nor refused schedules every fiber that still waits in a call for a reported event, or for any event if it reports an error |
| RuntimeWaits.StepMovesBits | iomanager.cpp:135-393 | in every step: which bits go, that exactly their waiters are queued, read before write, and which bit comes with which fiber |
| RuntimeTimeouts.FlagRisesIff | hook.cpp:113-120 | the flag of an unflagged call, old or new, goes up in a step if and only if that step is its own callback while the call has not returned |
| RuntimeTimeouts.RunKeepsTimeouts | timer.cpp:113-145 | every timeout timer, expired callback and queued callback stands for a call that armed it, over every run |
| RuntimeSignals.NoMissedDeadline | timer.cpp:147-154 | for any number of workers: while the last reader has not woken, no `refresh` since its read has moved a timer earlier, and a deadline earlier than the one it read is held, `tickled_` is up and a tickle was written since that read |
| RuntimeReadings.NoMissedDeadlineSince | timer.cpp:147-154 | the same told by the actions of the run: nobody has read the front since some worker did, that worker has not woken, no `refresh` since has moved a timer earlier, and a deadline earlier than the front at that read is held; then a step since then has put a timer in front and written a tickle |
| RuntimeReadings.StepMovesReadings | timer.cpp:101-154 | in every step: who reads which front and when, that the flag goes down exactly by a read and up exactly when an offered deadline ends up in front, and that a byte is written exactly then if some worker is idle |
| RuntimeSignals.UntoldIff | timer.cpp:55-57 | a step leaves a deadline before the last reader's front untold if and only if it is a `refresh` that moves a held timer there while `tickled_` is down, and then it moves it earlier than it was |
| RuntimeSignals.AllAsleepSawTheFront | timer.cpp:101-111 | in every reachable state in which all workers wait, the last reader has seen exactly the front deadline |
| RuntimeSignals.AllAsleepEndsInTimeIff | iomanager.cpp:326-338 | and its wait ends by the front deadline, or by the cap where that is nearer, if and only if the front was not overdue at its reading |
| RuntimeReadings.AllAsleepWaitForTheFrontIff | iomanager.cpp:326-338 | both told by the actions of the run: the front at the last read is the front now, and the wait computed at that read ends by it or the cap if and only if it was not overdue then |
| RuntimeSignals.LastReaderKeepsByteIffTwo | iomanager.cpp:349-355 | as long as no `refresh` since its read moves a timer earlier, the last reader never waits past an earlier deadline with the pipe empty if and only if there are at most two workers; the failing run goes past the deadline |
| RuntimeSignals.LastReaderAlwaysKeepsByteIffOne | timer.cpp:46-59 | over all runs, with refreshes that move earlier, if and only if there is at most one worker |
| RuntimeSignals.EverySleeperKeepsByteIffOne | iomanager.cpp:349-355 | no waiting worker ever does if and only if there is at most one |
| RuntimeSignals.LoneSleeperIsTickled | iomanager.cpp:302-308 | with a single idle worker among any number, and no `refresh` since its read that moves a timer earlier, an earlier deadline than the one it read means an unread byte in the pipe |
| RuntimeWatch.StepKeepsWatch | iomanager.cpp:398-400 | every step, refreshes included, keeps the relation between the last front read, the flag and the pipe |
| RuntimeSignals.CountersExact | scheduler.cpp:90-127 | in every reachable state `n_active_thread_` and `n_idle_thread_` are the numbers they stand for, and the kernel waits for set bits only; `n_pendingEvent_` is the number of bits with a waiter if and only if nobody has been misled, and smaller otherwise |
| RuntimeReports.AbortsIff | iomanager.cpp:370-392 | in the runtime the assertion fails in a step if and only if the kernel knows the descriptor and the captured report is neither stale nor within the bits by then |
| RuntimeReports.EveryReportIsHandled | iomanager.cpp:349-393 | no report is excluded: for each one the worker can drain the pipe, handle it, or fail at the assertion |
| RuntimeReports.TriggerSafeIffOneWorker | iomanager.cpp:338-392 | the assertion of `triggerEvent` fails in no run if and only if there is at most one worker |
| RuntimeClosing.OrphanIffEverOrphaned | hook.cpp:305-318 | over every run a descriptor has set bits unknown to the kernel if and only if some step closed it with bits set or its first addition was refused |
| RuntimeClosing.MirrorIffClosedClean | hook.cpp:305-318 | over every run the kernel mirrors the registry if and only if no addition was refused and no descriptor was closed with bits set |
| RuntimeClosing.PendingIs | iomanager.cpp:175-183 | over every run the pending counter is the number of set bits less the number of refused additions |
| RuntimeClosing.OrphanForever | iomanager.cpp:238-250 | over every run the waiters of such a descriptor stay behind their bits for good |
| RuntimeClosing.OrphanedKeepsPending | iomanager.cpp:310-313 | and with a fiber waiting behind one of them the pending counter stays positive while nobody is misled |
| RuntimeClosing.ClosesCleanlyIffOneWorker | hook.cpp:314-318 | given that the cancellations by `close` succeed, and whether additions do or not, no descriptor is ever closed with bits set if and only if there is at most one worker |
| RuntimeClosing.AddEventAssertions | iomanager.cpp:147-175 | while nobody is misled, a fiber about to call `addEvent` is EXEC, and its bit is clear if and only if no fiber waits behind it and it is not one of a refused addition |
| RuntimeClosing.AddEventAcceptable | iomanager.cpp:155-175 | in every reachable state a fiber about to call `addEvent` finds no callback in its slot, and the kernel can accept the operation if and only if the descriptor was never closed with bits set nor its first addition refused |
| RuntimeRefused.RefusedStepIff | iomanager.cpp:160-182 | in every run a bit is one of a refused addition exactly from the refusal until it is cleared |
| RuntimeRefused.WaitsUnlessRefused | iomanager.cpp:160-182 | in every reachable state while nobody is misled, the fiber behind a set bit waits there if and only if the bit is not one of a refused addition |
| RuntimeInvariant.NeverMisledWithoutRefusal | iomanager.cpp:175-183 | in a run in which no addition is refused nobody is ever misled, and a fiber waits behind every set bit |
| RuntimeRegistry.StepKeepsLiveCount | iomanager.cpp:385-392 | every step keeps the pending counter equal to the number of bits with a waiter as long as nobody is misled, and below it afterwards |
| RuntimeCounters.StepKeepsCounted | scheduler.cpp:98-127 | every step keeps the active and idle counters exact |
| RuntimeRegistry.StepKeepsRegistry | iomanager.cpp:160-392 | every step keeps every slot free of callbacks and the kernel within the bits, moves the counter with the number of bits but for a refused addition, and leaves bits unknown to the kernel if and only if there were some, it closes a descriptor with bits set, or it is a refused first addition |
| RuntimeInvariant.ReachableInv | scheduler.cpp:81-132 | in every reachable state all invariants hold, those of the tokens while nobody is misled |
| EventTable.AddKeepsConsistentIffOk | iomanager.cpp:155-183 | `addEvent` keeps the kernel mirror and the counter if and only if `epoll_ctl` succeeds; its operation is always acceptable |
| EventTable.ClearKeepsConsistent | iomanager.cpp:374-392 | clearing set bits keeps mirror and counter, issues an acceptable MOD or DEL, and removes exactly those bits |
| EventTable.ReportAssertsIff | iomanager.cpp:370-392 | run assertion by assertion, the readiness branch passes if and only if the report is refused, entirely stale or entirely current, and then does what `Ready` says |
| RegistryRuns.EventsConserved | iomanager.cpp:160-392 | over every run, whatever the kernel answers: waiters of a key come and go in turn, each leaves at most once and as the one that came, the counter is successful adds minus departures and is short of the bits by the failed adds |
| RegistryRuns.MirrorIffNoFailedAdd | iomanager.cpp:175-183 | after a run registry and kernel agree if and only if no addition of the run failed |
| RegistryRuns.AddAssertionsHoldIff | iomanager.cpp:147-163 | over every run the assertions of `addEvent` hold if and only if nobody waits behind the bit and no callback was ever added there nor the event ever deleted |
| RegistryRuns.CommandsAcceptable | iomanager.cpp:203-208 | while registry and kernel agree, ADD goes only to absent descriptors and MOD and DEL only to present ones |
| RegistryRuns.CommandAcceptedIff | iomanager.cpp:155-182 | over every run with a kernel that knows its descriptors, the next `epoll_ctl` is acceptable if and only if no first addition on the descriptor has ever failed |
| RegistryRuns.StepOrphans | iomanager.cpp:160-182 | a step leaves bits unknown to the kernel if and only if there were some or it is a failed first addition |
| RegistryRuns.StuckForever | iomanager.cpp:238-250 | from then on the waiters of that descriptor never leave |
| RegistryRuns.CounterExactIff | iomanager.h:138 | over every run the 64-bit counter reads the number of set bits if and only if no addition failed |
| RegistryRuns.CounterWraps | iomanager.cpp:175-183 | a run of three operations after which nothing is pending and the counter reads 2^64 - 1 |
| EventRegistry.FdContext.SetContext | iomanager.cpp:62-73 | one context slot changes, the other does not |
| EventRegistry.Registry.constructor | iomanager.cpp:89-110 | the registry starts empty with 32 contexts |
| EventRegistry.Registry.ContextResize | iomanager.cpp:124-133 | growing keeps every old context and gives each new place a fresh one with its own descriptor |
| EventRegistry.Registry.TriggerEvent | iomanager.cpp:79-87 | exactly the one bit goes, its waiter is scheduled once, the slot kind stays |
| EventRegistry.Registry.TriggerAll | iomanager.cpp:385-392 | all given bits go, their waiters are scheduled, the reader before the writer, and the counter falls by their number |
| EventRegistry.Registry.AddEvent | iomanager.cpp:135-185 | the slot then holds the callback, or the running fiber if there is none, and the new table is `Add` of the old, also on failure; growth by half always covers the descriptor; nothing is scheduled |
| EventRegistry.AddedThenCleared | iomanager.cpp:79-87 | whatever clears the bit of an addition, cancel or readiness, schedules what the addition stored |
| EventRegistry.Registry.DelEvent | iomanager.cpp:187-221 | the new table is `Delete` of the old; nothing is scheduled; true exactly when the bit was set and the kernel agreed |
| EventRegistry.Registry.CancelEvent | iomanager.cpp:223-255 | the new table is `Cancel` of the old and exactly what its context slot held is scheduled, or nothing changes |
| EventRegistry.Registry.CancelAll | iomanager.cpp:257-296 | the new table is `CancelAll` of the old, what the context slots of all its bits held is scheduled, no bit is left, or nothing changes |
| EventRegistry.Registry.HandleReady | iomanager.cpp:357-393 | one readiness report the program survives acts as `Ready` on the table: it stands for the reported events, and with an error or hang-up for every set bit, and schedules exactly what the slots of those bits held |
| EventRegistry.Registry.HandleBuffer | iomanager.cpp:349-393 | the loop over the event buffer is the run of its reports, and schedules exactly the waiters that run wakes, in order |
| RegistryRuns.LeavesAreWoken | iomanager.cpp:385-392 | the departures a clearing step logs are, in order, the waiters it schedules |
| Deadlines.RemainingExactIffNotOverdue | timer.cpp:101-111 | the reported gap is the true one if and only if the front is not overdue |
| Deadlines.LooksEmptyIff | timer.cpp:105-110 | the timers read as none if and only if there are none or the front is one millisecond overdue |
| Deadlines.LooksEmptyIffOneOverdue | timer.cpp:105-110 | below 2^64 that is one millisecond exactly, or the largest gap away |
| Deadlines.OverdueFrontWaitsForCap | iomanager.cpp:326-338 | the wait ends by the deadline or the cap when the front is not overdue; an overdue front waits the whole cap |
| TimerSet.AddValid | timer.cpp:82-87 | adding keeps strict order by deadline, and the newcomer gets in if and only if its deadline is free |
| TimerSet.AddExact | timer.cpp:82-87 | a new timer has the fields asked for and deadline (now + ms) mod 2^64, gets in if and only if no timer is due at that time, changes no other, and gives a front notice if and only if none is due before it and no notice is outstanding |
| TimerSet.CancelValid | timer.cpp:35-44 | cancelling keeps the order and takes out exactly the timers with the cancelled deadline, if there are any |
| TimerSet.MoveValid | timer.cpp:55-57 | while the key changes the timer is not in the set, even when an equal deadline kept it out before |
| TimerSet.RefreshValid | timer.cpp:46-59 | refresh keeps the set strictly sorted, on any timer |
| TimerSet.RefreshExact | timer.cpp:46-59 | refresh acts if and only if the callback is there and the deadline held; then whatever has that deadline goes and the timer is put in as an addition is, due its own period after the clock, without notice |
| TimerSet.ResetValid | timer.cpp:61-80 | reset keeps the set strictly sorted, on any timer |
| TimerSet.ResetExact | timer.cpp:61-80 | reset acts under the same condition unless neither period nor start changes; then the timer has the new period, is due that long after the clock or as before, and is put in with notice |
| TimerSet.RearmExact | timer.cpp:138-144 | a round of re-arming adds exactly the recurring timers whose new deadline is free and not taken by an earlier one |
| TimerSet.ExpireExact | timer.cpp:121-145 | `listExpiredCb(now)` takes exactly the timers due by `now` in deadline order and leaves exactly the later ones and the re-armed ones |
| TimerSet.CancelAfterFiringDefinedIff | timer.cpp:138-144 | `cancel` on a fired one-shot timer is defined if and only if a recurring timer of the round was re-armed for its deadline |
| TimerSet.InsertOnMap | timer.cpp:147-148 | insertion into the ordered set is insertion into the deadline map |
| TimerSet.EraseOnMap | timer.cpp:39-40 | erasing by deadline removes exactly that deadline from the map |
| TimerSet.ExpireOnMap | timer.cpp:126-144 | as long as no deadline wraps, expiry with its re-arming makes of the deadline map what the runtime's step makes of it: the later deadlines, and for each free deadline a recurring timer wants again the first that wants it |
| TimerSet.FrontOnMap | timer.cpp:108 | the front of the set is the least deadline of the map |
| TimerManager.Timer.constructor | timer.cpp:22-29 | the deadline is the clock plus the period, modulo 2^64 |
| TimerManager.Timer.Cancel | timer.cpp:35-44 | the manager's new value is `Cancel` of the old, true exactly when the callback was still there; it reports exactly the calls that erase at the end of the set, which C++ leaves undefined and which erase nothing here |
| TimerManager.Timer.Refresh | timer.cpp:46-59 | the manager's new value is `Refresh` of the old, the timer's own fields are stated outright; true exactly when the timer could move |
| TimerManager.Timer.Reset | timer.cpp:61-80 | the manager's new value is `Reset` of the old, with the early returns; the timer then has the new period, and its deadline is (now + ms) mod 2^64 or the old one |
| TimerManager.Manager.AddTimer | timer.cpp:82-87 | the manager's new value is `Add` of the old |
| TimerManager.Manager.AddHeld | timer.cpp:147-154 | insertion, and the front notice exactly when the place is the front and none is outstanding |
| TimerManager.Manager.GetNextTimer | timer.cpp:101-111 | lowers the flag and returns the wrapped gap to the least deadline |
| TimerManager.Manager.CountExpired | timer.cpp:127-133 | lower bound plus the step over an equal deadline counts exactly the expired timers |
| TimerManager.Manager.RearmAll | timer.cpp:138-144 | the loop over the expired timers is a round of re-arming and collects their callbacks in order |
| TimerManager.Manager.ListExpiredCb | timer.cpp:113-145 | the manager's new value is `Expire` of the old, and the callbacks are those of exactly the held timers due by `now`, in their order |
| TimerRuns.LifeCycleFromStart | timer.cpp:35-154 | over every run of add, cancel, refresh, reset, expiry and clock steps in which no step takes another timer in place of its own, each timer ever made is exactly one of held, cancelled while held, kept out by an equal deadline, or (one-shot) fired exactly once |
| TimerRuns.StepKeepsFateIff | timer.cpp:35-154 | a step keeps that partition if and only if it is not a cancel, refresh or reset that takes another timer, which holds the deadline of its own |
| TimerRuns.CancelTakesTheOther | timer.cpp:35-44 | a run of three steps in which cancelling a timer that was kept out takes the one that kept it out, which then never fires |
| TimerRuns.NeverFiresAfterCancel | timer.cpp:35-44 | over every run a timer whose `cancel` returned true never fires again, whatever follows |
| TimerRuns.DueTimersHaveFired | timer.cpp:121-145 | while that partition holds, after a round every due one-shot timer that was neither cancelled nor kept out has fired once |
| TimerRuns.RecurringNeverFastFromStart | timer.cpp:138-144 | over every run without wrapped deadlines, a recurring timer never refreshed or reset fires for the (k+1)-th time no earlier than start + (k+1) * ms, for any spacing of the rounds and whatever other timers are taken |
| SchedulerLoop.Fiber.constructor | fiber.cpp:54-68 | a new fiber is INIT with its callback |
| SchedulerLoop.Fiber.Main | fiber.cpp:43-52 | a main fiber is EXEC and has neither stack nor callback |
| SchedulerLoop.Fiber.Reset | fiber.cpp:83-98 | only a fiber that has ended or not started can be reset, and is INIT then |
| SchedulerLoop.Fiber.Leave | fiber.cpp:133-147 | a yielding fiber still reads EXEC; return gives TERM and drops the callback, an exception gives EXCEPT and keeps it |
| SchedulerLoop.Scheduler.Schedule | scheduler.h:118-122 | appends, and asks for a tickle if and only if the queue was empty |
| SchedulerLoop.Scheduler.ScheduleCode | scheduler.h:124-128 | appends a fresh fiber for the callback |
| SchedulerLoop.Scheduler.Take | scheduler.cpp:89-102 | the scan removes exactly the first fiber that is not EXEC, keeps the order of the rest and counts one more active |
| SchedulerLoop.Scheduler.Settle | scheduler.cpp:107-113 | one less active, and HOLD unless the fiber has ended |
| SchedulerLoop.Scheduler.Execute | scheduler.cpp:104-117 | a taken fiber ends HOLD, TERM or EXCEPT as its code ends, what is scheduled meanwhile goes behind the queue, and one that had ended is dropped |
| SchedulerLoop.Scheduler.Stopping | scheduler.cpp:138-141 | with nobody between take and settle, true if and only if a stop was asked for and everything ever scheduled has been taken; otherwise false |
| SchedulerLoop.Scheduler.Idle | scheduler.cpp:143-149 | the idle fiber ends if and only if the scheduler was stopping; otherwise what outsiders schedule goes behind the queue until a stop is asked for |
| SchedulerLoop.Scheduler.TakeTurn | scheduler.cpp:87-131 | one turn serves the front if there is one, then resumes the idle fiber unless that had ended, which ends the loop; the idle fiber ends if and only if a stop was asked for and nothing is queued then; what fibers, then outsiders, schedule goes behind the queue, nothing of outsiders after the stop |
| SchedulerLoop.Scheduler.Run | scheduler.cpp:81-132 | for one worker, whatever fibers and threads outside schedule at any point: what was scheduled, up to the turn of the stop all that is offered, is what was taken followed by what is queued, in order; position p is taken by turn p + 1; the loop ends only after a stop with everything ever scheduled served, and does end once two turns, and more turns than there are fibers to serve, have begun after the stop |
| HookedIo.DoIo | hook.cpp:78-151 | by the flags of the descriptor: a direct call, EBADF, or waiting; when waiting, the trace is a path of the protocol over the replies and the waits of the script in order, no wait but the last ended the call, a last wait that failed or was flagged by a timer of the call gives its `errno` or ETIMEDOUT, and any other end the last reply |
| HookedIo.WaitLoop | hook.cpp:101-150 | the same of the loop; it stops without an answer only where the script has no further reply or wait |
| HookedIo.WaitOnce | hook.cpp:107-144 | one round arms, registers, suspends and disarms as its wait says, goes on if and only if it was registered and no timer of the call set the flag, and otherwise answers `errno` or ETIMEDOUT |
| HookedIo.ObeysAt | hook.cpp:124-141 | the k-th registration of a trace goes as the k-th wait says, and the suspension after it ends with the flag up if and only if the call has a timer and that wait was flagged |
| HookedIo.EveryTimerDisarmed | hook.cpp:128-137 | on every path the timer of a round is disarmed exactly once, before the next system call and before returning |
| HookedIo.OneWaitPerBlock | hook.cpp:102-107 | on every path the call waits once per would-block reply and never for an interrupted one |
| HookedIo.FlagEndsTheCall | hook.cpp:138-141 | after a raised flag only the disarming follows, the answer is ETIMEDOUT, and the round had armed a timer |
| HookedIo.AnswerComesFrom | hook.cpp:131-150 | every answer is that of the last system call, of a failed registration, or the timeout |
| FormatParser.FormatParser | util.cpp:20-88 | the nested loops append exactly the tuples of `Parse(pattern)` |
| FormatParser.ReadItemAt | util.cpp:35-71 | the inner loop finds the name, format and end of the item, or an unterminated group |
| FormatParser.ClosedGroup | util.cpp:35-78 | text and then a closed group become the tuples (text, "", 0) and (name, format, 1), and what follows is parsed by itself |
| FormatParser.UnclosedGroup | util.cpp:80-81 | a group that is never closed becomes the tuple of the error, and its text is read on without the percent sign |
| FormatParser.PrintUndoesParseIff | util.cpp:22-83 | for every pattern whose parse reports no error, printing the tokens gives it back if and only if it has no empty group |
| FormatParser.ParseUndoesPrintIff | util.cpp:20-88 | for every token list without error tokens, parsing its print gives it back if and only if it is canonical |

## Left out

- Real system calls, `ucontext` switching and stack memory: the kernel is a map of interests, a byte count and a clock; results of calls are inputs.
- socket.cpp, log.cpp and the stream output of format.h: thin wrappers and stubs.
- fdmanager.cpp: the descriptor table is an input record of flags and a timeout; `getNonblock` is such a flag.
- What `getsockopt` and `connect` report after a wake-up in `connect_with_timeout`.
- `stop()`'s sleeps and joins, `start()`, thread creation, and READY fibers, which no code creates.
- Weak memory: unlocked reads such as `hasIdleThreads` and `try_stop_` read the current value.
- Threads outside the pool schedule functions and ask for the stop; they do not call registry or timer functions.
- User code in the step system does not call `addEvent`, `delEvent`, `cancelEvent` or `cancelAll` itself, only through `do_io` and `close`; `RegistryRuns` covers these calls, callback waits included, for the registry alone.
- Two workers that call one fiber: what its stack does then is undefined, and in the step system both go on running its code.
- The waiters of one report, or of one `cancelAll`, are queued in one action, although each takes the queue's lock by itself.
- TimerManager.Timer.Cancel: what `std::set` does when asked to erase at its end; the call is reported and erases nothing, here and in the step system.
- EventRegistry.Registry.HandleReady: a report at which the program stops has no result to state; `EventTable.ReportAssertsIff` says which ones these are.
- RuntimeOnTime.TimeoutNeverEarlyNorMisattributed: deadlines in the step system are unbounded, so it does not cover a clock near 2^64.
- RuntimeWakeups.ExactlyOneWakeup: says nothing of a run once a fiber of a refused addition has been scheduled; `RuntimeMisled` shows what can happen then.
- RuntimeWakeups.SleeperLostIff: the same.
- SchedulerLoop.Scheduler.Run: one worker of the base scheduler; several workers are in the step system. What fibers do while they run is given by a script.
- HookedIo.DoIo: the waits, flags and system calls are a script; their interplay with other fibers is in the step system.
- Locks: the contexts and the manager are modelled one protected region at a time, so lock order and deadlock are not covered.
