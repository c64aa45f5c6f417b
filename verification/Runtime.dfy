/** The runtime as a step system: N workers walking `Scheduler::run`, fibers walking `do_io`, `sleep`, `close` and
    the timer callbacks, the event registry, the deadline set and the two counters. One action is one region the
    program protects by a lock, one access to an atomic, one reading of the clock or one system call. Runs are lists
    of actions; the kernel, the clock, threads outside the pool and the user's code choose which enabled action
    comes next. The actions `Abort` and `AbortAdd` are failing assertions, which end the program. */
module Runtime {
  import opened Common
  import opened EventTable
  import opened Deadlines

  /** What a callback does: code of the user, by itself or on a timer, waking a fiber in `sleep`, the timeout of a
      `do_io` call. */
  datatype Callback = UserCallback | UserTimer(t: nat) | WakeSleeper(sleeper: nat) | TimeoutOf(call: nat)

  /** What a timer is for whose deadline is computed but which is not in the set yet. */
  datatype Purpose = ForCall(c: nat) | ForSleep | ForUser(t: nat)

  /** A timer that user code made and has in hand; `alive` while it has been returned and not cancelled. */
  datatype Handle = Handle(next: nat, ms: nat, recurring: bool, alive: bool)

  /** Where a fiber is in its own code; `timer` is the deadline of the timer the current round armed. */
  datatype Pc =
    | Start(job: Callback)
    | User
    | Arming(c: nat)
    | Setting(purpose: Purpose, d: nat)
    | Adding(c: nat, timer: Option<nat>)
    | Waiting(c: nat, timer: Option<nat>)
    | Disarming(c: nat, timer: Option<nat>)
    | Checking(c: nat)
    | Retrying(c: nat)
    | Napping
    | Waking(sleeper: nat)
    | Firing(c: nat)
    | Cancelling(c: nat)
    | Closing(fd: nat)
    | Abandoning(c: nat, timer: Option<nat>)
    | Ending
    | Finished

  /** Auxiliary: where the one pending wake-up of a fiber is. No enabling condition reads it. */
  datatype Token =
    | NoToken
    | InQueue
    | InSlot(key: Key)
    | InHand(w: nat)
    | InTimer(d: nat)
    | Expired(w: nat, d: nat)
    | Courier(g: nat)
    | Lost

  /** `token` and `on` (the worker executing the fiber) are auxiliary. */
  datatype Fiber = Fiber(st: FiberState, pc: Pc, token: Token, on: Option<nat>)

  /** One call of `do_io`: its `timer_info`, and auxiliary the clock readings at which it armed a timer. */
  datatype Call = Call(key: Key, to: Option<nat>, armed: set<nat>, cancelled: bool, live: bool)

  datatype WorkerPc =
    | Top
    | Taken(f: nat)
    | Running(f: nat)
    | Back(f: nat)
    | Settling(f: nat)
    | IdleCheck
    | Testing(stage: nat)
    | Sleeping
    | Listing
    | Scheduling(hand: map<nat, Callback>)
    | Handling
    | IdleOut
    | Left

  /** `reports` is what its last `epoll_wait` returned and it has not handled. Auxiliary: the front deadline it read
      last (`saw`), and when. */
  datatype Worker = Worker(pc: WorkerPc, idleDone: bool, reports: seq<Report>, saw: Option<nat>, readAt: nat)

  /** A worker that enters `run()`. */
  const Fresh: Worker := Worker(Top, false, [], None, 0)

  /** The assertion that ended the program. */
  datatype Crash = NoCrash | InTrigger | InAdd

  /** Auxiliary: the worker that read the front deadline last (`reader`), whether a timer that landed in front has
      written a tickle since (`written`), and whether a `refresh` has moved a timer to an earlier deadline since
      (`hushed`); the bits set by an addition the kernel refused and not cleared since (`refused`), and whether the
      fiber behind such a bit has been scheduled (`misled`). */
  datatype State = State(
    clock: nat,
    fibers: seq<Fiber>,
    queue: seq<nat>,
    table: Table<nat>,
    timers: map<nat, Callback>,
    handles: seq<Handle>,
    calls: seq<Call>,
    workers: seq<Worker>,
    active: int,
    idle: int,
    tryStop: bool,
    tickled: bool,
    pipe: nat,
    reader: Option<nat>,
    written: bool,
    hushed: bool,
    refused: set<Key>,
    misled: bool,
    crash: Crash)

  /** The environment: time, threads outside the pool, and the tickle `schedule` sends after its region. */
  datatype EnvAction = Tick(ms: nat) | Outside | RequestStop | Notify

  /** A worker in `run()`. */
  datatype RunAction = Take | Resume | Yield | Decrement | Settle | EnterIdle

  /** A worker in its idle fiber. `TestAll` is the stopping test as one step; the program makes the three
      separate steps `TestTimers`, `TestPending` and `TestQueue`. */
  datatype IdleAction =
    | TestAll
    | TestTimers
    | TestPending
    | TestQueue
    | Wake(reports: seq<Report>)
    | Interrupt
    | ListExpired
    | ScheduleExpired(d: nat)
    | HandDone
    | HandleReady(ok: bool)
    | Abort
    | Drain
    | HandleDone
    | LeaveIdle

  /** The fiber a worker runs. */
  datatype CodeAction =
    | Spawn
    | BeginIo(key: Key, to: Option<nat>)
    | ArmTimer
    | SetTimer
    | AddEvent(ok: bool)
    | AbortAdd
    | GiveUp
    | Disarm
    | Check
    | Retry(again: bool)
    | SleepFor(ms: nat)
    | AddTimer(ms: nat, recurring: bool)
    | CancelTimer(t: nat)
    | RefreshTimer(t: nat)
    | ResetTimer(t: nat, ms: nat, fromNow: bool)
    | CloseEvents(fd: nat, ok: bool)
    | CloseFd
    | Fire
    | CancelEvent(ok: bool)
    | WakeUp
    | Finish(thrown: bool)

  datatype Action = Env(e: EnvAction) | Run(w: nat, r: RunAction) | Idle(w: nat, i: IdleAction) | Code(w: nat, c: CodeAction)

  function Initial(n: nat): State {
    State(0, [], [], EmptyTable(), map[], [], [], seq(n, i => Fresh), 0, 0, false, false, 0, None, false, false, {},
          false, NoCrash)
  }

  // ---- parts of a step ----

  function SetPc(s: State, w: nat, pc: WorkerPc): State
    requires w < |s.workers|
  {
    s.(workers := s.workers[w := s.workers[w].(pc := pc)])
  }

  function SetFiber(s: State, f: nat, fb: Fiber): State
    requires f < |s.fibers|
  {
    s.(fibers := s.fibers[f := fb])
  }

  function SetFiberPc(s: State, f: nat, pc: Pc): State
    requires f < |s.fibers|
  {
    SetFiber(s, f, s.fibers[f].(pc := pc))
  }

  function TokenSet(fibers: seq<Fiber>, f: nat, token: Token): seq<Fiber> {
    if f < |fibers| then fibers[f := fibers[f].(token := token)] else fibers
  }

  function SetToken(s: State, f: nat, token: Token): State {
    s.(fibers := TokenSet(s.fibers, f, token))
  }

  function SetCall(s: State, c: nat, call: Call): State
    requires c < |s.calls|
  {
    s.(calls := s.calls[c := call])
  }

  /** `schedule(fiber)`. */
  function Enqueue(s: State, f: nat): State {
    SetToken(s, f, InQueue).(queue := s.queue + [f])
  }

  /** `schedule(callback)`: a fresh fiber runs it. */
  function EnqueueJob(s: State, job: Callback): State {
    s.(fibers := s.fibers + [Fiber(INIT, Start(job), InQueue, None)], queue := s.queue + [|s.fibers|])
  }

  /** The bits behind which a fiber waits, with the fibers: all but those of refused additions. */
  function Live(s: State): map<Key, nat> {
    s.table.slots - s.refused
  }

  /** `triggerEvent`, if the bit is set: it is cleared and the fiber in the slot scheduled. */
  function TriggerIf(s: State, wanted: bool, k: Key): State {
    var hit := wanted && k in s.table.slots;
    s.(queue := if hit then s.queue + [s.table.slots[k]] else s.queue,
       fibers := if hit then TokenSet(s.fibers, s.table.slots[k], InQueue) else s.fibers,
       table := s.table.(slots := if hit then s.table.slots - {k} else s.table.slots),
       refused := if hit then s.refused - {k} else s.refused,
       misled := s.misled || (hit && k in s.refused))
  }

  /** The events of `evs` are triggered, READ first; the table ends as `table`. */
  function TriggerAll(s: State, fd: nat, evs: set<Event>, table: Table<nat>): State {
    TriggerIf(TriggerIf(s, READ in evs, Key(fd, READ)), WRITE in evs, Key(fd, WRITE)).(table := table)
  }

  /** `TimerManager::addTimer` under its lock, with the tickle it sends when the timer lands in front. */
  function InsertTimer(s: State, d: nat, cb: Callback): State {
    var held := Insert(s.timers, d, cb);
    var front := AtFront(held, d) && !s.tickled;
    s.(timers := held, tickled := s.tickled || front,
       pipe := if front && s.idle > 0 then s.pipe + 1 else s.pipe,
       written := s.written || (front && s.idle > 0))
  }

  /** Insertion without notice, as `refresh` does it. */
  function InsertQuietly(s: State, d: nat, cb: Callback): State {
    s.(timers := Insert(s.timers, d, cb))
  }

  /** `timers_.erase(find(timer))`: erases whatever timer holds the deadline. */
  function EraseTimer(s: State, d: nat): State {
    s.(timers := s.timers - {d},
       fibers := if d in s.timers && s.timers[d].WakeSleeper? then TokenSet(s.fibers, s.timers[d].sleeper, Lost)
                 else s.fibers)
  }

  function ExpireTokens(fibers: seq<Fiber>, due: map<nat, Callback>, w: nat): seq<Fiber> {
    seq(|fibers|, i requires 0 <= i < |fibers| =>
      if fibers[i].token.InTimer? && fibers[i].token.d in due
      then fibers[i].(token := Expired(w, fibers[i].token.d))
      else fibers[i])
  }

  function StateOf(s: State, f: nat): FiberState {
    if f < |s.fibers| then s.fibers[f].st else TERM
  }

  function QueueStates(s: State): seq<FiberState> {
    seq(|s.queue|, i requires 0 <= i < |s.queue| => StateOf(s, s.queue[i]))
  }

  /** The timer part of `stopping()`: what `getNextTimer` returns, compared with `~0ull`. */
  ghost predicate TimersLookEmpty(s: State) {
    Remaining(Front(s.timers), s.clock) == NO_TIMER
  }

  ghost function ReadTimers(s: State, w: nat): State
    requires w < |s.workers|
  {
    s.(tickled := false, reader := Some(w), written := false, hushed := false,
       workers := s.workers[w := s.workers[w].(saw := Front(s.timers), readAt := s.clock)])
  }

  predicate SchedulerQuiet(s: State) {
    s.tryStop && s.queue == [] && s.active == 0
  }

  /** The idle fiber ends, or waits in `epoll_wait`. */
  function TestOutcome(s: State, w: nat, done: bool): State
    requires w < |s.workers|
  {
    s.(workers := s.workers[w := s.workers[w].(pc := if done then IdleOut else Sleeping,
                                             idleDone := done || s.workers[w].idleDone)])
  }

  // ---- enabling conditions ----

  predicate At(s: State, w: nat, pc: WorkerPc) {
    w < |s.workers| && s.workers[w].pc == pc
  }

  predicate Runs(s: State, w: nat) {
    w < |s.workers| && s.workers[w].pc.Running? && s.workers[w].pc.f < |s.fibers|
  }

  function Cur(s: State, w: nat): nat
    requires Runs(s, w)
  {
    s.workers[w].pc.f
  }

  function CurPc(s: State, w: nat): Pc
    requires Runs(s, w)
  {
    s.fibers[Cur(s, w)].pc
  }

  predicate EnvEnabled(s: State, e: EnvAction) {
    match e
    case Tick(_) => true
    case Outside => !s.tryStop
    case RequestStop => true
    case Notify => s.idle > 0
  }

  predicate RunEnabled(s: State, w: nat, r: RunAction)
    requires w < |s.workers|
  {
    var pc := s.workers[w].pc;
    match r
    case Take => pc.Top?
    case Resume => pc.Taken? && pc.f < |s.fibers|
    case Yield => Runs(s, w) && (CurPc(s, w).Waiting? || CurPc(s, w).Napping? || CurPc(s, w).Finished?)
    case Decrement => pc.Back?
    case Settle => pc.Settling? && pc.f < |s.fibers|
    case EnterIdle => pc.IdleCheck?
  }

  /** What `epoll_wait` may return: readiness within the interest of that moment, each descriptor once, and the
      pipe only while it has bytes. Errors are reported unasked. */
  predicate Reportable(s: State, reports: seq<Report>) {
    && (forall i, j :: 0 <= i < j < |reports| && reports[i].FromFd? && reports[j].FromFd? ==> reports[i].fd != reports[j].fd)
    && (forall i :: 0 <= i < |reports| && reports[i].FromFd? ==>
          reports[i].fd in s.table.interest && reports[i].ready <= s.table.interest[reports[i].fd])
    && (forall i :: 0 <= i < |reports| && reports[i].FromPipe? ==> s.pipe > 0)
  }

  /** MOD and DEL succeed only for a descriptor the kernel knows. */
  predicate KernelAllows(s: State, fd: nat, evs: set<Event>, ok: bool) {
    ok && evs * EventsOf(s.table.slots, fd) != {} ==> fd in s.table.interest
  }

  /** The events the report at the front of the worker's buffer stands for. */
  function Hit(s: State, w: nat): set<Event>
    requires w < |s.workers| && s.workers[w].reports != [] && s.workers[w].reports[0].FromFd?
  {
    var r := s.workers[w].reports[0];
    RealEvents(s.table, r.fd, r.ready, r.error)
  }

  /** The report at the front is one the kernel lets through and at which an assertion fails. */
  predicate AboutToAbort(s: State, w: nat)
    requires w < |s.workers|
  {
    && s.workers[w].pc.Handling? && s.workers[w].reports != [] && s.workers[w].reports[0].FromFd?
    && KernelAllows(s, s.workers[w].reports[0].fd, Hit(s, w), true)
    && RunReport(s.table, s.workers[w].reports[0].fd, Hit(s, w), true).None?
  }

  predicate IdleEnabled(s: State, w: nat, i: IdleAction)
    requires w < |s.workers|
  {
    var pc := s.workers[w].pc;
    match i
    case TestAll => pc == Testing(0)
    case TestTimers => pc == Testing(0)
    case TestPending => pc == Testing(1)
    case TestQueue => pc == Testing(2)
    case Wake(reports) => pc.Sleeping? && Reportable(s, reports)
    case Interrupt => pc.Sleeping?
    case ListExpired => pc.Listing?
    case ScheduleExpired(d) => pc.Scheduling? && AtFront(pc.hand, d)
    case HandDone => pc == Scheduling(map[])
    case HandleReady(ok) =>
      && pc.Handling? && s.workers[w].reports != [] && s.workers[w].reports[0].FromFd?
      && KernelAllows(s, s.workers[w].reports[0].fd, Hit(s, w), ok)
      && ReadyDefined(s.table, s.workers[w].reports[0].fd, Hit(s, w), ok)
    case Abort => AboutToAbort(s, w)
    case Drain => pc.Handling? && s.workers[w].reports != [] && s.workers[w].reports[0].FromPipe?
    case HandleDone => pc.Handling? && s.workers[w].reports == []
    case LeaveIdle => pc.IdleOut?
  }

  /** An addition on a set bit stops at the assertion of `addEvent`; any other may be refused by the kernel. */
  predicate CodeEnabled(s: State, w: nat, c: CodeAction)
    requires Runs(s, w)
  {
    var pc := CurPc(s, w);
    match c
    case Spawn => pc.User?
    case BeginIo(_, _) => pc.User?
    case ArmTimer => pc.Arming? && pc.c < |s.calls|
    case SetTimer => pc.Setting?
    case AddEvent(ok) =>
      && pc.Adding? && pc.c < |s.calls| && s.calls[pc.c].key !in s.table.slots
      && (ok ==> KernelAccepts(s.table.interest, AddOp(s.table, s.calls[pc.c].key.fd), s.calls[pc.c].key.fd))
    case AbortAdd => pc.Adding? && pc.c < |s.calls| && s.calls[pc.c].key in s.table.slots
    case GiveUp => pc.Abandoning? && pc.c < |s.calls|
    case Disarm => pc.Disarming?
    case Check => pc.Checking? && pc.c < |s.calls|
    case Retry(_) => pc.Retrying? && pc.c < |s.calls|
    case SleepFor(_) => pc.User?
    case AddTimer(_, _) => pc.User?
    case CancelTimer(t) => pc.User? && t < |s.handles|
    case RefreshTimer(t) => pc.User? && t < |s.handles|
    case ResetTimer(t, _, _) => pc.User? && t < |s.handles|
    case CloseEvents(fd, ok) => pc.User? && KernelAllows(s, fd, EventsOf(s.table.slots, fd), ok)
    case CloseFd => pc.Closing?
    case Fire => pc.Firing? && pc.c < |s.calls|
    case CancelEvent(ok) => pc.Cancelling? && pc.c < |s.calls|
                            && KernelAllows(s, s.calls[pc.c].key.fd, {s.calls[pc.c].key.ev}, ok)
    case WakeUp => pc.Waking?
    case Finish(_) => pc.User? || pc.Ending?
  }

  predicate Enabled(s: State, a: Action) {
    && s.crash == NoCrash
    && match a
       case Env(e) => EnvEnabled(s, e)
       case Run(w, r) => w < |s.workers| && RunEnabled(s, w, r)
       case Idle(w, i) => w < |s.workers| && IdleEnabled(s, w, i)
       case Code(w, c) => Runs(s, w) && CodeEnabled(s, w, c)
  }

  // ---- the steps ----

  function AfterResume(pc: Pc): Pc {
    match pc
    case Start(UserCallback) => User
    case Start(UserTimer(_)) => User
    case Start(WakeSleeper(f)) => Waking(f)
    case Start(TimeoutOf(c)) => Firing(c)
    case Waiting(c, t) => Disarming(c, t)
    case Napping => User
    case _ => pc
  }

  /** Take the first queued fiber that is not executing, or go on to the idle fiber. */
  function TakeStep(s: State, w: nat): State
    requires At(s, w, Top)
  {
    var r := FirstReady(QueueStates(s));
    var found := r < |s.queue|;
    SetPc(s, w, if found then Taken(s.queue[r]) else IdleCheck).(
      fibers := if found then TokenSet(s.fibers, s.queue[r], InHand(w)) else s.fibers,
      queue := if found then RemoveAt(s.queue, r) else s.queue,
      active := if found then s.active + 1 else s.active)
  }

  /** `call()`, unless the fiber has already ended. */
  function ResumeStep(s: State, w: nat): State
    requires w < |s.workers| && RunEnabled(s, w, Resume)
  {
    var f := s.workers[w].pc.f;
    var fb := s.fibers[f];
    var dead := Dead(fb.st);
    SetFiber(SetPc(s, w, if dead then Back(f) else Running(f)), f,
             if dead then fb else Fiber(EXEC, AfterResume(fb.pc), NoToken, Some(w)))
  }

  function SettleStep(s: State, w: nat): State
    requires w < |s.workers| && RunEnabled(s, w, Settle)
  {
    var f := s.workers[w].pc.f;
    var fb := s.fibers[f];
    SetFiber(SetPc(s, w, IdleCheck), f, fb.(st := if Dead(fb.st) then fb.st else HOLD, on := None))
  }

  function EnterIdleStep(s: State, w: nat): State
    requires At(s, w, IdleCheck)
  {
    var done := s.workers[w].idleDone;
    SetPc(s, w, if done then Left else Testing(0)).(idle := if done then s.idle else s.idle + 1)
  }

  /** Only recurring timers go back into the set. */
  function Period(handles: seq<Handle>, cb: Callback): Option<nat> {
    if cb.UserTimer? && cb.t < |handles| && handles[cb.t].recurring then Some(handles[cb.t].ms) else None
  }

  function RearmedHandles(handles: seq<Handle>, due: map<nat, Callback>, now: nat): seq<Handle> {
    seq(|handles|, t requires 0 <= t < |handles| =>
      handles[t].(next := if handles[t].recurring && UserTimer(t) in due.Values then now + handles[t].ms
                          else handles[t].next))
  }

  ghost function ListStep(s: State, w: nat): State
    requires At(s, w, Listing)
  {
    var due := Due(s.timers, s.clock);
    SetPc(s, w, Scheduling(due)).(
      timers := Rearmed(Later(s.timers, s.clock), due, (cb: Callback) => Period(s.handles, cb), s.clock),
      handles := RearmedHandles(s.handles, due, s.clock),
      fibers := ExpireTokens(s.fibers, due, w))
  }

  function ScheduleExpiredStep(s: State, w: nat, d: nat): State
    requires w < |s.workers| && s.workers[w].pc.Scheduling? && d in s.workers[w].pc.hand
  {
    var hand := s.workers[w].pc.hand;
    var s1 := EnqueueJob(SetPc(s, w, Scheduling(hand - {d})), hand[d]);
    s1.(fibers := if hand[d].WakeSleeper? then TokenSet(s1.fibers, hand[d].sleeper, Courier(|s.fibers|)) else s1.fibers)
  }

  function NextReport(s: State, w: nat): State
    requires w < |s.workers| && s.workers[w].reports != []
  {
    s.(workers := s.workers[w := s.workers[w].(reports := s.workers[w].reports[1..])])
  }

  function ReadyStep(s: State, w: nat, ok: bool): State
    requires w < |s.workers| && IdleEnabled(s, w, HandleReady(ok))
  {
    var fd := s.workers[w].reports[0].fd;
    var acts := Hit(s, w) * EventsOf(s.table.slots, fd) != {} && ok;
    NextReport(TriggerAll(s, fd, if acts then Hit(s, w) else {}, Ready(s.table, fd, Hit(s, w), ok)), w)
  }

  function BeginIoStep(s: State, w: nat, key: Key, to: Option<nat>): State
    requires Runs(s, w)
  {
    SetFiberPc(s, Cur(s, w), Arming(|s.calls|)).(calls := s.calls + [Call(key, to, {}, false, true)])
  }

  /** The timer of a round is made: its deadline is fixed by the clock now. */
  function ArmStep(s: State, w: nat): State
    requires Runs(s, w) && CodeEnabled(s, w, ArmTimer)
  {
    var c := CurPc(s, w).c;
    var call := s.calls[c];
    SetCall(SetFiberPc(s, Cur(s, w), if call.to.None? then Adding(c, None) else Setting(ForCall(c), s.clock + call.to.value)),
            c, call.(armed := if call.to.None? then call.armed else call.armed + {s.clock}))
  }

  function JobOf(purpose: Purpose, f: nat): Callback {
    match purpose
    case ForCall(c) => TimeoutOf(c)
    case ForSleep => WakeSleeper(f)
    case ForUser(t) => UserTimer(t)
  }

  function AfterSetting(purpose: Purpose, d: nat): Pc {
    match purpose
    case ForCall(c) => Adding(c, Some(d))
    case ForSleep => Napping
    case ForUser(_) => User
  }

  /** A timer that was made goes into the set. */
  function SetTimerStep(s: State, w: nat): State
    requires Runs(s, w) && CodeEnabled(s, w, SetTimer)
  {
    var f := Cur(s, w);
    var p := CurPc(s, w).purpose;
    var d := CurPc(s, w).d;
    var token := if !p.ForSleep? then s.fibers[f].token else if d in s.timers then Lost else InTimer(d);
    InsertTimer(SetFiber(s, f, s.fibers[f].(pc := AfterSetting(p, d), token := token)), d, JobOf(p, f))
      .(handles := Returned(s.handles, p))
  }

  /** The user has a timer in hand once it has been inserted. */
  function Returned(handles: seq<Handle>, p: Purpose): seq<Handle> {
    if p.ForUser? && p.t < |handles| then handles[p.t := handles[p.t].(alive := true)] else handles
  }

  /** A timer of the user is made: its deadline is fixed by the clock now. */
  function AddTimerStep(s: State, w: nat, ms: nat, recurring: bool): State
    requires Runs(s, w)
  {
    SetFiberPc(s, Cur(s, w), Setting(ForUser(|s.handles|), s.clock + ms))
      .(handles := s.handles + [Handle(s.clock + ms, ms, recurring, false)])
  }

  /** The user cancels a timer: whatever has its deadline goes. */
  function CancelTimerStep(s: State, t: nat): State
    requires t < |s.handles|
  {
    var h := s.handles[t];
    if h.alive then EraseTimer(s, h.next).(handles := s.handles[t := h.(alive := false)]) else s
  }

  /** `refresh` and `reset` do nothing without a callback or a held deadline. */
  predicate CanMove(s: State, t: nat)
    requires t < |s.handles|
  {
    s.handles[t].alive && s.handles[t].next in s.timers
  }

  function RefreshTimerStep(s: State, t: nat): State
    requires t < |s.handles|
  {
    var h := s.handles[t];
    var d := s.clock + h.ms;
    if CanMove(s, t) then
      InsertQuietly(EraseTimer(s, h.next), d, UserTimer(t))
        .(handles := s.handles[t := h.(next := d)], hushed := s.hushed || d < h.next)
    else s
  }

  function ResetTimerStep(s: State, t: nat, ms: nat, fromNow: bool): State
    requires t < |s.handles|
  {
    var h := s.handles[t];
    var d := if fromNow then s.clock + ms else h.next;
    if !(ms == h.ms && !fromNow) && CanMove(s, t) then
      InsertTimer(EraseTimer(s, h.next), d, UserTimer(t)).(handles := s.handles[t := h.(ms := ms, next := d)])
    else s
  }

  /** The bit and the slot are written whatever the kernel says; the fiber waits only if it accepts. */
  function AddEventStep(s: State, w: nat, ok: bool): State
    requires Runs(s, w) && CodeEnabled(s, w, AddEvent(ok))
  {
    var f := Cur(s, w);
    var pc := CurPc(s, w);
    var k := s.calls[pc.c].key;
    SetFiber(s, f, s.fibers[f].(pc := if ok then Waiting(pc.c, pc.timer) else Abandoning(pc.c, pc.timer),
                                token := if ok then InSlot(k) else s.fibers[f].token))
      .(table := Add(s.table, k, f, false, ok), refused := if ok then s.refused - {k} else s.refused + {k})
  }

  /** After a refused addition the timer of the round is cancelled and the call returns. */
  function GiveUpStep(s: State, w: nat): State
    requires Runs(s, w) && CodeEnabled(s, w, GiveUp)
  {
    var pc := CurPc(s, w);
    var s1 := SetCall(SetFiberPc(s, Cur(s, w), User), pc.c, s.calls[pc.c].(live := false));
    if pc.timer.Some? then EraseTimer(s1, pc.timer.value) else s1
  }

  function DisarmStep(s: State, w: nat): State
    requires Runs(s, w) && CodeEnabled(s, w, Disarm)
  {
    var pc := CurPc(s, w);
    var s1 := SetFiberPc(s, Cur(s, w), Checking(pc.c));
    if pc.timer.Some? then EraseTimer(s1, pc.timer.value) else s1
  }

  /** A raised flag ends the call with ETIMEDOUT. */
  function CheckStep(s: State, w: nat): State
    requires Runs(s, w) && CodeEnabled(s, w, Check)
  {
    var c := CurPc(s, w).c;
    var raised := s.calls[c].cancelled;
    SetCall(SetFiberPc(s, Cur(s, w), if raised then User else Retrying(c)), c, s.calls[c].(live := !raised && s.calls[c].live))
  }

  function RetryStep(s: State, w: nat, again: bool): State
    requires Runs(s, w) && CodeEnabled(s, w, Retry(again))
  {
    var c := CurPc(s, w).c;
    SetCall(SetFiberPc(s, Cur(s, w), if again then Arming(c) else User), c, s.calls[c].(live := again && s.calls[c].live))
  }

  /** `close` first cancels the events of the descriptor, whatever comes of it. */
  function CloseEventsStep(s: State, w: nat, fd: nat, ok: bool): State
    requires Runs(s, w)
  {
    TriggerAll(SetFiberPc(s, Cur(s, w), Closing(fd)), fd, if ok then EventsOf(s.table.slots, fd) else {},
               CancelAll(s.table, fd, ok))
  }

  /** Closing the descriptor itself makes the kernel forget it. */
  function CloseFdStep(s: State, w: nat): State
    requires Runs(s, w) && CodeEnabled(s, w, CloseFd)
  {
    SetFiberPc(s, Cur(s, w), User).(table := s.table.(interest := s.table.interest - {CurPc(s, w).fd}))
  }

  /** The timeout callback: a dead or already flagged call is left alone. */
  function FireStep(s: State, w: nat): State
    requires Runs(s, w) && CodeEnabled(s, w, Fire)
  {
    var c := CurPc(s, w).c;
    var skip := !s.calls[c].live || s.calls[c].cancelled;
    SetCall(SetFiberPc(s, Cur(s, w), if skip then Ending else Cancelling(c)), c,
            s.calls[c].(cancelled := !skip || s.calls[c].cancelled))
  }

  function CancelEventStep(s: State, w: nat, ok: bool): State
    requires Runs(s, w) && CodeEnabled(s, w, CancelEvent(ok))
  {
    var k := s.calls[CurPc(s, w).c].key;
    TriggerIf(SetFiberPc(s, Cur(s, w), Ending), ok, k).(table := Cancel(s.table, k, ok))
  }

  function FinishStep(s: State, w: nat, thrown: bool): State
    requires Runs(s, w)
  {
    var f := Cur(s, w);
    SetFiber(s, f, s.fibers[f].(pc := Finished, st := if thrown then EXCEPT else TERM))
  }

  function WakeUpStep(s: State, w: nat): State
    requires Runs(s, w) && CodeEnabled(s, w, WakeUp)
  {
    Enqueue(SetFiberPc(s, Cur(s, w), Ending), CurPc(s, w).sleeper)
  }

  function EnvNext(s: State, e: EnvAction): State
    requires EnvEnabled(s, e)
  {
    match e
    case Tick(ms) => s.(clock := s.clock + ms)
    case Outside => EnqueueJob(s, UserCallback)
    case RequestStop => s.(tryStop := true)
    case Notify => s.(pipe := s.pipe + 1)
  }

  function RunNext(s: State, w: nat, r: RunAction): State
    requires w < |s.workers| && RunEnabled(s, w, r)
  {
    match r
    case Take => TakeStep(s, w)
    case Resume => ResumeStep(s, w)
    case Yield => SetPc(s, w, Back(Cur(s, w)))
    case Decrement => SetPc(s, w, Settling(s.workers[w].pc.f)).(active := s.active - 1)
    case Settle => SettleStep(s, w)
    case EnterIdle => EnterIdleStep(s, w)
  }

  ghost function IdleNext(s: State, w: nat, i: IdleAction): State
    requires w < |s.workers| && IdleEnabled(s, w, i)
  {
    match i
    case TestAll =>
      TestOutcome(ReadTimers(s, w), w, TimersLookEmpty(s) && s.table.pending == 0 && SchedulerQuiet(s))
    case TestTimers => SetPc(ReadTimers(s, w), w, if TimersLookEmpty(s) then Testing(1) else Sleeping)
    case TestPending => SetPc(s, w, if s.table.pending == 0 then Testing(2) else Sleeping)
    case TestQueue => TestOutcome(s, w, SchedulerQuiet(s))
    case Wake(reports) => s.(workers := s.workers[w := s.workers[w].(pc := Listing, reports := reports)])
    case Interrupt => SetPc(s, w, Testing(0))
    case ListExpired => ListStep(s, w)
    case ScheduleExpired(d) => ScheduleExpiredStep(s, w, d)
    case HandDone => SetPc(s, w, Handling)
    case HandleReady(ok) => ReadyStep(s, w, ok)
    case Abort => s.(crash := InTrigger)
    case Drain => NextReport(s.(pipe := 0), w)
    case HandleDone => SetPc(s, w, IdleOut)
    case LeaveIdle => SetPc(s, w, Top).(idle := s.idle - 1)
  }

  /** The actions that change nothing but the fiber's own place, the calls and the handles. */
  predicate InOwnCode(c: CodeAction) {
    c.BeginIo? || c.ArmTimer? || c.Check? || c.Retry? || c.SleepFor? || c.AddTimer? || c.Fire? || c.Finish?
  }

  /** The ones among them inside one call of `do_io`. */
  predicate InCall(c: CodeAction) {
    c.BeginIo? || c.ArmTimer? || c.Check? || c.Retry?
  }

  predicate InRegistry(c: CodeAction) {
    c.AddEvent? || c.CloseEvents? || c.CloseFd? || c.CancelEvent?
  }

  /** The actions that put a timer into the set. */
  predicate Inserts(c: CodeAction) {
    c.SetTimer? || c.RefreshTimer? || c.ResetTimer?
  }

  /** The actions that erase by a deadline. */
  predicate Erases(c: CodeAction) {
    c.Disarm? || c.GiveUp? || c.CancelTimer? || c.RefreshTimer? || c.ResetTimer?
  }

  function CodeNext(s: State, w: nat, c: CodeAction): State
    requires Runs(s, w) && CodeEnabled(s, w, c)
  {
    match c
    case Spawn => EnqueueJob(s, UserCallback)
    case BeginIo(key, to) => BeginIoStep(s, w, key, to)
    case ArmTimer => ArmStep(s, w)
    case SetTimer => SetTimerStep(s, w)
    case AddEvent(ok) => AddEventStep(s, w, ok)
    case AbortAdd => s.(crash := InAdd)
    case GiveUp => GiveUpStep(s, w)
    case Disarm => DisarmStep(s, w)
    case Check => CheckStep(s, w)
    case Retry(again) => RetryStep(s, w, again)
    case SleepFor(ms) => SetFiberPc(s, Cur(s, w), Setting(ForSleep, s.clock + ms))
    case AddTimer(ms, recurring) => AddTimerStep(s, w, ms, recurring)
    case CancelTimer(t) => CancelTimerStep(s, t)
    case RefreshTimer(t) => RefreshTimerStep(s, t)
    case ResetTimer(t, ms, fromNow) => ResetTimerStep(s, t, ms, fromNow)
    case CloseEvents(fd, ok) => CloseEventsStep(s, w, fd, ok)
    case CloseFd => CloseFdStep(s, w)
    case Fire => FireStep(s, w)
    case CancelEvent(ok) => CancelEventStep(s, w, ok)
    case WakeUp => WakeUpStep(s, w)
    case Finish(thrown) => FinishStep(s, w, thrown)
  }

  ghost function Next(s: State, a: Action): State
    requires Enabled(s, a)
  {
    match a
    case Env(e) => EnvNext(s, e)
    case Run(w, r) => RunNext(s, w, r)
    case Idle(w, i) => IdleNext(s, w, i)
    case Code(w, c) => CodeNext(s, w, c)
  }

  /** A list of actions is a run of `s` when each is enabled in its turn. */
  ghost predicate Legal(s: State, acts: seq<Action>)
    decreases |acts|
  {
    acts == [] || (Enabled(s, acts[0]) && Legal(Next(s, acts[0]), acts[1..]))
  }

  ghost function Exec(s: State, acts: seq<Action>): State
    requires Legal(s, acts)
    decreases |acts|
  {
    if acts == [] then s else Exec(Next(s, acts[0]), acts[1..])
  }
}
