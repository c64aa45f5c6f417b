/** What running code leaves alone: one statement for all code actions, on which the invariants build. */
module RuntimeFrame {
  import opened Common
  import opened EventTable
  import opened Runtime

  /** No worker moves, no counter, no clock; the queue only grows at its end. */
  ghost predicate WorkersStand(s: State, t: State) {
    && t.workers == s.workers && t.active == s.active && t.idle == s.idle && t.tryStop == s.tryStop
    && t.clock == s.clock && t.reader == s.reader && s.queue <= t.queue
  }

  /** The call whose timeout callback this fiber is, from its creation to its `cancelEvent`. */
  function CallbackOf(pc: Pc): Option<nat> {
    match pc
    case Start(TimeoutOf(c)) => Some(c)
    case Firing(c) => Some(c)
    case Cancelling(c) => Some(c)
    case _ => None
  }

  /** The call of a fiber that has armed a timer in the present round. */
  function RoundOf(pc: Pc): Option<nat> {
    match pc
    case Setting(ForCall(c), _) => Some(c)
    case Adding(c, Some(_)) => Some(c)
    case Waiting(c, Some(_)) => Some(c)
    case Disarming(c, Some(_)) => Some(c)
    case Abandoning(c, Some(_)) => Some(c)
    case _ => None
  }

  /** A fiber that is not running keeps everything but its token. */
  predicate Bystander(a: Fiber, b: Fiber, mayLose: bool) {
    b == a.(token := b.token) && (b.token == Lost ==> a.token == Lost || mayLose)
  }

  /** The fiber whose code runs starts no callback; only `ArmTimer` makes a timer for a call, only
      `CloseEvents` begins to close, and only `SetTimer`, or an erasure of its own sleep, leaves it without a wake-up. */
  predicate Runner(a: Fiber, b: Fiber, c: CodeAction) {
    && b.on == a.on && (b.st == a.st || (Dead(b.st) && b.pc.Finished?))
    && (CallbackOf(b.pc).Some? ==> CallbackOf(b.pc) == CallbackOf(a.pc))
    && (RoundOf(b.pc).Some? && !c.ArmTimer? ==> RoundOf(b.pc) == RoundOf(a.pc))
    && (b.pc.Setting? && b.pc.purpose.ForCall? ==> c.ArmTimer? || b.pc == a.pc)
    && (b.pc.Closing? ==> (c.CloseEvents? && c.fd == b.pc.fd) || b.pc == a.pc)
    && (b.token == Lost ==> a.token == Lost || c.SetTimer? || Erases(c))
  }

  ghost predicate FibersMove(s: State, t: State, w: nat, c: CodeAction)
    requires Runs(s, w)
  {
    && |s.fibers| <= |t.fibers|
    && (forall f :: 0 <= f < |s.fibers| && f != Cur(s, w) ==> Bystander(s.fibers[f], t.fibers[f], Erases(c)))
    && (forall f :: |s.fibers| <= f < |t.fibers| ==> t.fibers[f] == Fiber(INIT, Start(UserCallback), InQueue, None))
    && Runner(s.fibers[Cur(s, w)], t.fibers[Cur(s, w)], c)
  }

  /** Timers are only taken out. */
  ghost predicate TimersStand(s: State, t: State) {
    && (forall d :: d in t.timers ==> d in s.timers && t.timers[d] == s.timers[d])
    && t.tickled == s.tickled && t.pipe == s.pipe && t.written == s.written && t.hushed == s.hushed
  }

  /** New timers are timers of the user. */
  ghost predicate UserTimersOnly(s: State, t: State) {
    forall d :: d in t.timers ==> (d in s.timers && t.timers[d] == s.timers[d]) || t.timers[d].UserTimer?
  }

  /** Without refused bits nobody is misled, and none comes about. */
  predicate Innocent(s: State, t: State) {
    s.refused == {} ==> t.refused == {} && t.misled == s.misled
  }

  predicate RegistryStands(s: State, t: State) {
    t.table == s.table && t.refused == s.refused && t.misled == s.misled
  }

  /** Calls keep their timeout and the readings at which they armed a timer; time does not go back. */
  ghost predicate Extends(s: State, t: State) {
    && s.clock <= t.clock && |s.calls| <= |t.calls|
    && forall c :: 0 <= c < |s.calls| ==> t.calls[c].to == s.calls[c].to && s.calls[c].armed <= t.calls[c].armed
                                          && t.calls[c].key == s.calls[c].key
  }

  ghost predicate FlagsQuiet(s: State, t: State) {
    && |s.calls| <= |t.calls|
    && forall c :: 0 <= c < |t.calls| && t.calls[c].cancelled ==> c < |s.calls| && s.calls[c].cancelled
  }

  ghost predicate CodeMove(s: State, t: State, w: nat, c: CodeAction)
    requires Runs(s, w)
  {
    && WorkersStand(s, t) && FibersMove(s, t, w, c)
    && (!Inserts(c) ==> TimersStand(s, t)) && (!c.SetTimer? ==> UserTimersOnly(s, t))
    && (!Inserts(c) && !Erases(c) ==> t.timers == s.timers)
    && (!InRegistry(c) ==> RegistryStands(s, t)) && (s.misled ==> t.misled)
    && (c != AddEvent(false) ==> Innocent(s, t))
    && (!c.AbortAdd? ==> t.crash == s.crash)
    && Extends(s, t) && (!c.Fire? ==> FlagsQuiet(s, t))
  }

  lemma CallCodeMoves(s: State, w: nat, c: CodeAction)
    requires Runs(s, w) && CodeEnabled(s, w, c) && InCall(c)
    ensures CodeMove(s, CodeNext(s, w, c), w, c)
  {
    match c
    case ArmTimer => ArmMoves(s, w);
    case Check => CheckMoves(s, w);
    case Retry(again) => RetryMoves(s, w, again);
    case BeginIo(_, _) =>
  }

  lemma ArmMoves(s: State, w: nat)
    requires Runs(s, w) && CodeEnabled(s, w, ArmTimer)
    ensures CodeMove(s, ArmStep(s, w), w, ArmTimer)
  {
  }

  lemma CheckMoves(s: State, w: nat)
    requires Runs(s, w) && CodeEnabled(s, w, Check)
    ensures CodeMove(s, CheckStep(s, w), w, Check)
  {
  }

  lemma RetryMoves(s: State, w: nat, again: bool)
    requires Runs(s, w) && CodeEnabled(s, w, Retry(again))
    ensures CodeMove(s, RetryStep(s, w, again), w, Retry(again))
  {
  }

  lemma OwnCodeMoves(s: State, w: nat, c: CodeAction)
    requires Runs(s, w) && CodeEnabled(s, w, c) && InOwnCode(c)
    ensures CodeMove(s, CodeNext(s, w, c), w, c)
  {
    if InCall(c) {
      CallCodeMoves(s, w, c);
    }
  }

  /** Triggered bits change tokens, the queue and the registry. */
  ghost predicate TriggerFrame(s: State, t: State) {
    && t == s.(fibers := t.fibers, queue := t.queue, table := t.table, refused := t.refused, misled := t.misled)
    && (s.misled ==> t.misled) && Innocent(s, t)
    && s.queue <= t.queue && |t.fibers| == |s.fibers|
    && forall f :: 0 <= f < |s.fibers| ==> Bystander(s.fibers[f], t.fibers[f], false)
  }

  lemma TriggerIfMoves(s: State, wanted: bool, k: Key)
    ensures TriggerFrame(s, TriggerIf(s, wanted, k))
  {
  }

  lemma TriggerAllMoves(s: State, fd: nat, evs: set<Event>, table: Table<nat>)
    ensures TriggerFrame(s, TriggerAll(s, fd, evs, table))
  {
    var m := TriggerIf(s, READ in evs, Key(fd, READ));
    TriggerIfMoves(s, READ in evs, Key(fd, READ));
    TriggerIfMoves(m, WRITE in evs, Key(fd, WRITE));
    var t := TriggerIf(m, WRITE in evs, Key(fd, WRITE));
    forall f | 0 <= f < |s.fibers| ensures Bystander(s.fibers[f], t.fibers[f], false) {
      assert Bystander(s.fibers[f], m.fibers[f], false) && Bystander(m.fibers[f], t.fibers[f], false);
    }
  }

  /** The running fiber goes to `pc` and bits are triggered. */
  lemma TriggeringCodeMoves(s: State, m: State, t: State, w: nat, c: CodeAction, pc: Pc)
    requires Runs(s, w) && InRegistry(c) && CallbackOf(pc).None? && !pc.Setting? && RoundOf(pc).None?
    requires pc.Closing? ==> c.CloseEvents? && c.fd == pc.fd
    requires m == SetFiberPc(s, Cur(s, w), pc) && TriggerFrame(m, t)
    ensures CodeMove(s, t, w, c)
  {
    forall f | 0 <= f < |s.fibers| ensures Bystander(m.fibers[f], t.fibers[f], false) {
    }
  }

  lemma AddEventMoves(s: State, w: nat, ok: bool)
    requires Runs(s, w) && CodeEnabled(s, w, AddEvent(ok))
    ensures CodeMove(s, AddEventStep(s, w, ok), w, AddEvent(ok))
  {
  }

  lemma CloseEventsMoves(s: State, w: nat, fd: nat, ok: bool)
    requires Runs(s, w) && CodeEnabled(s, w, CloseEvents(fd, ok))
    ensures CodeMove(s, CloseEventsStep(s, w, fd, ok), w, CloseEvents(fd, ok))
  {
    var m := SetFiberPc(s, Cur(s, w), Closing(fd));
    TriggerAllMoves(m, fd, if ok then EventsOf(s.table.slots, fd) else {}, CancelAll(s.table, fd, ok));
    TriggeringCodeMoves(s, m, CloseEventsStep(s, w, fd, ok), w, CloseEvents(fd, ok), Closing(fd));
  }

  lemma CancelEventMoves(s: State, w: nat, ok: bool)
    requires Runs(s, w) && CodeEnabled(s, w, CancelEvent(ok))
    ensures CodeMove(s, CancelEventStep(s, w, ok), w, CancelEvent(ok))
  {
    var m := SetFiberPc(s, Cur(s, w), Ending);
    TriggerIfMoves(m, ok, s.calls[CurPc(s, w).c].key);
    TriggeringCodeMoves(s, m, CancelEventStep(s, w, ok), w, CancelEvent(ok), Ending);
  }

  lemma RegistryCodeMoves(s: State, w: nat, c: CodeAction)
    requires Runs(s, w) && CodeEnabled(s, w, c) && InRegistry(c)
    ensures CodeMove(s, CodeNext(s, w, c), w, c)
  {
    match c
    case CloseEvents(fd, ok) => CloseEventsMoves(s, w, fd, ok);
    case CancelEvent(ok) => CancelEventMoves(s, w, ok);
    case AddEvent(ok) => AddEventMoves(s, w, ok);
    case CloseFd =>
  }

  /** Where the running fiber is after what it does to the registry. */
  function RegistryPc(s: State, w: nat, c: CodeAction): Pc
    requires Runs(s, w) && CodeEnabled(s, w, c) && InRegistry(c)
  {
    match c
    case AddEvent(ok) =>
      if ok then Waiting(CurPc(s, w).c, CurPc(s, w).timer) else Abandoning(CurPc(s, w).c, CurPc(s, w).timer)
    case CloseEvents(fd, _) => Closing(fd)
    case CancelEvent(_) => Ending
    case CloseFd => User
  }

  /** The registry touches neither calls nor handles. */
  predicate RegistryRun(s: State, t: State, w: nat, pc: Pc)
    requires Runs(s, w)
  {
    && t.calls == s.calls && t.handles == s.handles && |t.fibers| == |s.fibers| && t.fibers[Cur(s, w)].pc == pc
  }

  lemma CloseEventsRuns(s: State, w: nat, fd: nat, ok: bool)
    requires Runs(s, w) && CodeEnabled(s, w, CloseEvents(fd, ok))
    ensures RegistryRun(s, CloseEventsStep(s, w, fd, ok), w, Closing(fd))
  {
    var m := SetFiberPc(s, Cur(s, w), Closing(fd));
    TriggerAllMoves(m, fd, if ok then EventsOf(s.table.slots, fd) else {}, CancelAll(s.table, fd, ok));
    assert Bystander(m.fibers[Cur(s, w)], CloseEventsStep(s, w, fd, ok).fibers[Cur(s, w)], false);
  }

  lemma CancelEventRuns(s: State, w: nat, ok: bool)
    requires Runs(s, w) && CodeEnabled(s, w, CancelEvent(ok))
    ensures RegistryRun(s, CancelEventStep(s, w, ok), w, Ending)
  {
    var m := SetFiberPc(s, Cur(s, w), Ending);
    TriggerIfMoves(m, ok, s.calls[CurPc(s, w).c].key);
    assert Bystander(m.fibers[Cur(s, w)], CancelEventStep(s, w, ok).fibers[Cur(s, w)], false);
  }

  lemma AddEventRuns(s: State, w: nat, ok: bool)
    requires Runs(s, w) && CodeEnabled(s, w, AddEvent(ok))
    ensures RegistryRun(s, AddEventStep(s, w, ok), w, RegistryPc(s, w, AddEvent(ok)))
  {
  }

  lemma RegistryCodeRuns(s: State, w: nat, c: CodeAction)
    requires Runs(s, w) && CodeEnabled(s, w, c) && InRegistry(c)
    ensures RegistryRun(s, CodeNext(s, w, c), w, RegistryPc(s, w, c))
  {
    match c
    case CloseEvents(fd, ok) => CloseEventsRuns(s, w, fd, ok);
    case CancelEvent(ok) => CancelEventRuns(s, w, ok);
    case AddEvent(ok) => AddEventRuns(s, w, ok);
    case CloseFd =>
  }

  lemma SetTimerMoves(s: State, w: nat)
    requires Runs(s, w) && CodeEnabled(s, w, SetTimer)
    ensures CodeMove(s, SetTimerStep(s, w), w, SetTimer)
  {
  }

  lemma WakeUpMoves(s: State, w: nat)
    requires Runs(s, w) && CodeEnabled(s, w, WakeUp)
    ensures CodeMove(s, WakeUpStep(s, w), w, WakeUp)
  {
  }

  /** The running fiber goes on, and a deadline is erased. */
  ghost predicate ErasureFrame(m: State, t: State) {
    && t == m.(timers := t.timers, fibers := t.fibers) && |t.fibers| == |m.fibers|
    && (forall e :: e in t.timers ==> e in m.timers && t.timers[e] == m.timers[e])
    && (forall f :: 0 <= f < |m.fibers| ==> Bystander(m.fibers[f], t.fibers[f], true))
  }

  lemma ErasingMoves(m: State, d: nat)
    ensures ErasureFrame(m, EraseTimer(m, d))
  {
  }

  /** An erasure after a move of the running fiber. */
  lemma ThenErases(s: State, m: State, t: State, w: nat, c: CodeAction)
    requires Runs(s, w) && Erases(c) && CodeMove(s, m, w, c) && ErasureFrame(m, t) && |m.fibers| == |s.fibers|
    ensures CodeMove(s, t, w, c)
  {
    forall f | 0 <= f < |m.fibers| ensures Bystander(m.fibers[f], t.fibers[f], true) {
    }
  }

  /** An insertion of a timer of the user after that. */
  lemma ThenInserts(s: State, m: State, t: State, w: nat, c: CodeAction)
    requires Runs(s, w) && (c.RefreshTimer? || c.ResetTimer?) && CodeMove(s, m, w, c) && UserTimersOnly(m, t)
    requires t == m.(timers := t.timers, handles := t.handles, tickled := t.tickled, pipe := t.pipe,
                     written := t.written, hushed := t.hushed)
    ensures CodeMove(s, t, w, c)
  {
  }

  lemma StaysPut(s: State, w: nat, c: CodeAction)
    requires Runs(s, w) && Erases(c)
    ensures CodeMove(s, s, w, c)
  {
  }

  lemma DisarmBegins(s: State, w: nat)
    requires Runs(s, w) && CodeEnabled(s, w, Disarm)
    ensures CodeMove(s, SetFiberPc(s, Cur(s, w), Checking(CurPc(s, w).c)), w, Disarm)
  {
  }

  lemma DisarmMoves(s: State, w: nat)
    requires Runs(s, w) && CodeEnabled(s, w, Disarm)
    ensures CodeMove(s, DisarmStep(s, w), w, Disarm)
  {
    DisarmBegins(s, w);
    if CurPc(s, w).timer.Some? {
      var m := SetFiberPc(s, Cur(s, w), Checking(CurPc(s, w).c));
      ErasingMoves(m, CurPc(s, w).timer.value);
      ThenErases(s, m, DisarmStep(s, w), w, Disarm);
    }
  }

  lemma GiveUpBegins(s: State, w: nat)
    requires Runs(s, w) && CodeEnabled(s, w, GiveUp)
    ensures var c := CurPc(s, w).c;
            CodeMove(s, SetCall(SetFiberPc(s, Cur(s, w), User), c, s.calls[c].(live := false)), w, GiveUp)
  {
  }

  lemma GiveUpMoves(s: State, w: nat)
    requires Runs(s, w) && CodeEnabled(s, w, GiveUp)
    ensures CodeMove(s, GiveUpStep(s, w), w, GiveUp)
  {
    GiveUpBegins(s, w);
    if CurPc(s, w).timer.Some? {
      var c := CurPc(s, w).c;
      var m := SetCall(SetFiberPc(s, Cur(s, w), User), c, s.calls[c].(live := false));
      ErasingMoves(m, CurPc(s, w).timer.value);
      ThenErases(s, m, GiveUpStep(s, w), w, GiveUp);
    }
  }

  lemma CancelTimerMoves(s: State, w: nat, t: nat)
    requires Runs(s, w) && CodeEnabled(s, w, CancelTimer(t))
    ensures CodeMove(s, CancelTimerStep(s, t), w, CancelTimer(t))
  {
    StaysPut(s, w, CancelTimer(t));
    if s.handles[t].alive {
      ErasingMoves(s, s.handles[t].next);
    }
  }

  lemma RefreshTimerMoves(s: State, w: nat, t: nat)
    requires Runs(s, w) && CodeEnabled(s, w, RefreshTimer(t))
    ensures CodeMove(s, RefreshTimerStep(s, t), w, RefreshTimer(t))
  {
    var c := RefreshTimer(t);
    StaysPut(s, w, c);
    if CanMove(s, t) {
      var m := EraseTimer(s, s.handles[t].next);
      ErasingMoves(s, s.handles[t].next);
      ThenErases(s, s, m, w, c);
      ThenInserts(s, m, RefreshTimerStep(s, t), w, c);
    }
  }

  lemma ResetTimerMoves(s: State, w: nat, t: nat, ms: nat, fromNow: bool)
    requires Runs(s, w) && CodeEnabled(s, w, ResetTimer(t, ms, fromNow))
    ensures CodeMove(s, ResetTimerStep(s, t, ms, fromNow), w, ResetTimer(t, ms, fromNow))
  {
    var c := ResetTimer(t, ms, fromNow);
    StaysPut(s, w, c);
    if !(ms == s.handles[t].ms && !fromNow) && CanMove(s, t) {
      var m := EraseTimer(s, s.handles[t].next);
      ErasingMoves(s, s.handles[t].next);
      ThenErases(s, s, m, w, c);
      ThenInserts(s, m, ResetTimerStep(s, t, ms, fromNow), w, c);
    }
  }

  lemma OtherCodeMoves(s: State, w: nat, c: CodeAction)
    requires Runs(s, w) && CodeEnabled(s, w, c) && !InOwnCode(c) && !InRegistry(c)
    ensures CodeMove(s, CodeNext(s, w, c), w, c)
  {
    match c
    case SetTimer => SetTimerMoves(s, w);
    case WakeUp => WakeUpMoves(s, w);
    case Disarm => DisarmMoves(s, w);
    case GiveUp => GiveUpMoves(s, w);
    case CancelTimer(t) => CancelTimerMoves(s, w, t);
    case RefreshTimer(t) => RefreshTimerMoves(s, w, t);
    case ResetTimer(t, ms, fromNow) => ResetTimerMoves(s, w, t, ms, fromNow);
    case AbortAdd =>
    case Spawn =>
  }

  lemma CodeMoves(s: State, w: nat, c: CodeAction)
    requires Runs(s, w) && CodeEnabled(s, w, c)
    ensures CodeMove(s, CodeNext(s, w, c), w, c)
  {
    if InOwnCode(c) {
      OwnCodeMoves(s, w, c);
    } else if InRegistry(c) {
      RegistryCodeMoves(s, w, c);
    } else {
      OtherCodeMoves(s, w, c);
    }
  }

  /** What a step of `run()` itself leaves alone: other workers, the timers, the calls, the registry; and where it can
      take the worker. */
  ghost predicate RunMove(s: State, t: State, w: nat) {
    && w < |s.workers| == |t.workers| && t.workers == s.workers[w := t.workers[w]]
    && t.workers[w] == s.workers[w].(pc := t.workers[w].pc) && BetweenFibers(t.workers[w].pc)
    && t == s.(fibers := t.fibers, queue := t.queue, workers := t.workers, active := t.active, idle := t.idle)
  }

  predicate BetweenFibers(pc: WorkerPc) {
    pc.Taken? || pc.Running? || pc.Back? || pc.Settling? || pc.IdleCheck? || pc.Left? || pc == Testing(0)
  }

  lemma TakeMoves(s: State, w: nat)
    requires w < |s.workers| && RunEnabled(s, w, Take)
    ensures RunMove(s, TakeStep(s, w), w)
  {
  }

  lemma RunMoves(s: State, w: nat, r: RunAction)
    requires w < |s.workers| && RunEnabled(s, w, r)
    ensures RunMove(s, RunNext(s, w, r), w)
  {
    if r == Take {
      TakeMoves(s, w);
    }
  }

  /** What a step of an idle fiber leaves alone: other workers, calls, time; fibers change their tokens only, and new
      ones are callbacks. */
  ghost predicate IdleMove(s: State, t: State, w: nat) {
    && w < |s.workers| == |t.workers| && t.workers == s.workers[w := t.workers[w]]
    && t.calls == s.calls && t.clock == s.clock && t.tryStop == s.tryStop && t.active == s.active
    && (s.misled ==> t.misled) && Innocent(s, t)
    && s.queue <= t.queue && |s.fibers| <= |t.fibers|
    && (forall f :: 0 <= f < |s.fibers| ==> Bystander(s.fibers[f], t.fibers[f], false))
    && (forall f :: |s.fibers| <= f < |t.fibers| ==>
          t.fibers[f].st == INIT && t.fibers[f].pc.Start? && t.fibers[f].token != Lost && t.fibers[f].on == None)
  }

  predicate HandsOutWork(i: IdleAction) {
    i.ListExpired? || i.ScheduleExpired? || i.HandleReady?
  }

  lemma IdlingMoves(s: State, w: nat, i: IdleAction)
    requires w < |s.workers| && IdleEnabled(s, w, i) && !HandsOutWork(i)
    ensures IdleMove(s, IdleNext(s, w, i), w)
    ensures i.TestAll? || i.TestQueue? || IdleNext(s, w, i).workers[w].idleDone == s.workers[w].idleDone
    ensures IdleNext(s, w, i).fibers == s.fibers && IdleNext(s, w, i).queue == s.queue
    ensures RegistryStands(s, IdleNext(s, w, i)) && IdleNext(s, w, i).timers == s.timers
  {
  }

  /** Bits triggered, and the worker goes to its next report. */
  lemma TriggeringIdleMoves(s: State, m: State, w: nat)
    requires TriggerFrame(s, m) && w < |s.workers| && s.workers[w].reports != []
    ensures var t := NextReport(m, w);
            && IdleMove(s, t, w) && |t.fibers| == |s.fibers| && t.timers == s.timers
            && t.workers[w].pc == s.workers[w].pc && t.workers[w].idleDone == s.workers[w].idleDone
  {
  }

  lemma ReadyMoves(s: State, w: nat, ok: bool)
    requires w < |s.workers| && IdleEnabled(s, w, HandleReady(ok))
    ensures IdleMove(s, ReadyStep(s, w, ok), w)
    ensures |ReadyStep(s, w, ok).fibers| == |s.fibers|
    ensures ReadyStep(s, w, ok).timers == s.timers && ReadyStep(s, w, ok).workers[w].pc == s.workers[w].pc
    ensures ReadyStep(s, w, ok).workers[w].idleDone == s.workers[w].idleDone
  {
    var fd := s.workers[w].reports[0].fd;
    var evs := if Hit(s, w) * EventsOf(s.table.slots, fd) != {} && ok then Hit(s, w) else {};
    var m := TriggerAll(s, fd, evs, Ready(s.table, fd, Hit(s, w), ok));
    TriggerAllMoves(s, fd, evs, Ready(s.table, fd, Hit(s, w), ok));
    TriggeringIdleMoves(s, m, w);
  }

  lemma HandingOutMoves(s: State, w: nat, i: IdleAction)
    requires w < |s.workers| && IdleEnabled(s, w, i) && (i.ListExpired? || i.ScheduleExpired?)
    ensures IdleMove(s, IdleNext(s, w, i), w)
    ensures i.TestAll? || i.TestQueue? || IdleNext(s, w, i).workers[w].idleDone == s.workers[w].idleDone
  {
  }

  lemma IdleMoves(s: State, w: nat, i: IdleAction)
    requires w < |s.workers| && IdleEnabled(s, w, i)
    ensures IdleMove(s, IdleNext(s, w, i), w)
    ensures i.TestAll? || i.TestQueue? || IdleNext(s, w, i).workers[w].idleDone == s.workers[w].idleDone
  {
    if i.HandleReady? {
      ReadyMoves(s, w, i.ok);
    } else if HandsOutWork(i) {
      HandingOutMoves(s, w, i);
    } else {
      IdlingMoves(s, w, i);
    }
  }
}
