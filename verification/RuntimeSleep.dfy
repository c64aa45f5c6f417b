/** A hooked `sleep` lasts at least its time. */
module RuntimeSleep {
  import opened Common
  import opened EventTable
  import opened Runtime
  import opened RuntimeFrame
  import opened RuntimeTokens
  import opened RuntimeInvariant
  import opened RuntimeWakeups

  /** About to sleep until `d`, or asleep. */
  predicate Asleep(fb: Fiber, d: nat) {
    fb.pc.Napping? || fb.pc == Setting(ForSleep, d)
  }

  /** Still asleep and not yet on the way to be woken, unless the deadline has come. */
  ghost predicate SleepsUntil(s: State, f: nat, d: nat) {
    || d <= s.clock
    || (f < |s.fibers| && Asleep(s.fibers[f], d)
        && (s.fibers[f].pc.Napping? ==> s.fibers[f].token == Lost || s.fibers[f].token == InTimer(d)))
  }

  lemma RunStepSleeps(s: State, w: nat, r: RunAction, f: nat, d: nat)
    requires TokenInv(s) && w < |s.workers| && RunEnabled(s, w, r) && SleepsUntil(s, f, d)
    ensures SleepsUntil(RunNext(s, w, r), f, d)
  {
    if r == Take {
      TakeSleeps(s, w, f, d);
    } else {
      assert WorkerOk(s, w);
      if d > s.clock {
        assert FiberOk(s, f);
      }
    }
  }

  lemma TakeSleeps(s: State, w: nat, f: nat, d: nat)
    requires TokenInv(s) && w < |s.workers| && RunEnabled(s, w, Take) && SleepsUntil(s, f, d)
    ensures SleepsUntil(TakeStep(s, w), f, d)
  {
    if FirstReady(QueueStates(s)) < |s.queue| {
      assert Holds(s, s.queue[FirstReady(QueueStates(s))], InQueue);
    }
  }

  /** Misled, or the slots are in order and the fiber sleeps. */
  ghost predicate Undisturbed(s: State, f: nat, d: nat) {
    s.misled || (SlotsOk(s) && SleepsUntil(s, f, d))
  }

  /** A slot that triggers, or a hand that empties, does not hold a fiber whose token is elsewhere. */
  lemma TriggerSleeps(s: State, wanted: bool, k: Key, f: nat, d: nat)
    requires Undisturbed(s, f, d)
    ensures Undisturbed(TriggerIf(s, wanted, k), f, d)
  {
    var t := TriggerIf(s, wanted, k);
    if !t.misled {
      if wanted && k in s.table.slots {
        assert Live(t) == Live(s) - {k};
        assert Holds(s, Live(s)[k], InSlot(k));
      } else {
        assert Live(t) == Live(s);
      }
      forall j | j in Live(t) ensures Holds(t, Live(t)[j], InSlot(j)) {
        assert Holds(s, Live(s)[j], InSlot(j));
      }
    }
  }

  lemma TriggerAllSleeps(s: State, fd: nat, evs: set<Event>, table: Table<nat>, f: nat, d: nat)
    requires Undisturbed(s, f, d)
    ensures var t := TriggerAll(s, fd, evs, table); t.misled || SleepsUntil(t, f, d)
  {
    TriggerSleeps(s, READ in evs, Key(fd, READ), f, d);
    TriggerSleeps(TriggerIf(s, READ in evs, Key(fd, READ)), WRITE in evs, Key(fd, WRITE), f, d);
  }

  lemma ScheduleExpiredSleeps(s: State, w: nat, e: nat, f: nat, d: nat)
    requires TokenInv(s) && w < |s.workers| && IdleEnabled(s, w, ScheduleExpired(e)) && SleepsUntil(s, f, d)
    ensures SleepsUntil(ScheduleExpiredStep(s, w, e), f, d)
  {
    assert WorkerOk(s, w);
  }

  lemma ListSleeps(s: State, w: nat, f: nat, d: nat)
    requires At(s, w, Listing) && SleepsUntil(s, f, d)
    ensures SleepsUntil(ListStep(s, w), f, d)
  {
  }

  lemma ReadySleeps(s: State, w: nat, ok: bool, f: nat, d: nat)
    requires TokenInv(s) && w < |s.workers| && IdleEnabled(s, w, HandleReady(ok)) && SleepsUntil(s, f, d)
    ensures ReadyStep(s, w, ok).misled || SleepsUntil(ReadyStep(s, w, ok), f, d)
  {
    var fd := s.workers[w].reports[0].fd;
    TriggerAllSleeps(s, fd, if Hit(s, w) * EventsOf(s.table.slots, fd) != {} && ok then Hit(s, w) else {},
                     Ready(s.table, fd, Hit(s, w), ok), f, d);
  }

  lemma IdleStepSleeps(s: State, w: nat, i: IdleAction, f: nat, d: nat)
    requires TokenInv(s) && w < |s.workers| && IdleEnabled(s, w, i) && SleepsUntil(s, f, d)
    ensures IdleNext(s, w, i).misled || SleepsUntil(IdleNext(s, w, i), f, d)
  {
    match i
    case ListExpired => ListSleeps(s, w, f, d);
    case ScheduleExpired(e) => ScheduleExpiredSleeps(s, w, e, f, d);
    case HandleReady(ok) => ReadySleeps(s, w, ok, f, d);
    case _ => IdlingMoves(s, w, i);
  }

  /** The actions that change the fiber itself only: it is running, not asleep. */
  lemma OwnStepSleeps(s: State, w: nat, c: CodeAction, f: nat, d: nat)
    requires TokenInv(s) && Runs(s, w) && CodeEnabled(s, w, c) && SleepsUntil(s, f, d) && (InOwnCode(c) || c.CloseFd?)
    ensures SleepsUntil(CodeNext(s, w, c), f, d)
  {
    CodeMoves(s, w, c);
    OwnCodeIsLocal(s, w, c);
  }

  lemma SetTimerSleeps(s: State, w: nat, f: nat, d: nat)
    requires Runs(s, w) && CodeEnabled(s, w, SetTimer) && SleepsUntil(s, f, d)
    ensures SleepsUntil(SetTimerStep(s, w), f, d)
  {
  }

  lemma AddEventSleeps(s: State, w: nat, ok: bool, f: nat, d: nat)
    requires Runs(s, w) && CodeEnabled(s, w, AddEvent(ok)) && SleepsUntil(s, f, d)
    ensures SleepsUntil(AddEventStep(s, w, ok), f, d)
  {
  }

  /** An erasure leaves a sleeper asleep, if for good. */
  lemma ErasureSleeps(s: State, w: nat, c: CodeAction, f: nat, d: nat)
    requires Runs(s, w) && CodeEnabled(s, w, c) && Erases(c) && SleepsUntil(s, f, d)
    ensures SleepsUntil(CodeNext(s, w, c), f, d)
  {
    CodeMoves(s, w, c);
    if f < |s.fibers| {
      ErasingFibers(s, w, c, f);
    }
  }

  lemma WakeUpSleeps(s: State, w: nat, f: nat, d: nat)
    requires TokenInv(s) && Runs(s, w) && CodeEnabled(s, w, WakeUp) && SleepsUntil(s, f, d)
    ensures SleepsUntil(WakeUpStep(s, w), f, d)
  {
    assert FiberOk(s, Cur(s, w));
  }

  lemma CodeStepSleeps(s: State, w: nat, c: CodeAction, f: nat, d: nat)
    requires TokenInv(s) && Runs(s, w) && CodeEnabled(s, w, c) && SleepsUntil(s, f, d)
    ensures CodeNext(s, w, c).misled || SleepsUntil(CodeNext(s, w, c), f, d)
  {
    if Erases(c) {
      ErasureSleeps(s, w, c, f, d);
    } else {
      match c
      case CloseEvents(fd, ok) => CloseSleeps(s, w, fd, ok, f, d);
      case CancelEvent(ok) => CancelSleeps(s, w, ok, f, d);
      case WakeUp => WakeUpSleeps(s, w, f, d);
      case SetTimer => SetTimerSleeps(s, w, f, d);
      case AddEvent(ok) => AddEventSleeps(s, w, ok, f, d);
      case Spawn =>
      case AbortAdd =>
      case _ => OwnStepSleeps(s, w, c, f, d);
    }
  }

  lemma GoesOnUndisturbed(s: State, w: nat, pc: Pc, f: nat, d: nat)
    requires TokenInv(s) && Runs(s, w) && SleepsUntil(s, f, d) && !Asleep(s.fibers[Cur(s, w)], d)
    ensures Undisturbed(SetFiberPc(s, Cur(s, w), pc), f, d)
  {
    var m := SetFiberPc(s, Cur(s, w), pc);
    assert Live(m) == Live(s);
    forall k | k in Live(m) ensures Holds(m, Live(m)[k], InSlot(k)) {
      assert Holds(s, Live(s)[k], InSlot(k));
    }
  }

  lemma CloseSleeps(s: State, w: nat, fd: nat, ok: bool, f: nat, d: nat)
    requires TokenInv(s) && Runs(s, w) && CodeEnabled(s, w, CloseEvents(fd, ok)) && SleepsUntil(s, f, d)
    ensures CloseEventsStep(s, w, fd, ok).misled || SleepsUntil(CloseEventsStep(s, w, fd, ok), f, d)
  {
    GoesOnUndisturbed(s, w, Closing(fd), f, d);
    TriggerAllSleeps(SetFiberPc(s, Cur(s, w), Closing(fd)), fd, if ok then EventsOf(s.table.slots, fd) else {},
                     CancelAll(s.table, fd, ok), f, d);
  }

  lemma CancelSleeps(s: State, w: nat, ok: bool, f: nat, d: nat)
    requires TokenInv(s) && Runs(s, w) && CodeEnabled(s, w, CancelEvent(ok)) && SleepsUntil(s, f, d)
    ensures CancelEventStep(s, w, ok).misled || SleepsUntil(CancelEventStep(s, w, ok), f, d)
  {
    GoesOnUndisturbed(s, w, Ending, f, d);
    TriggerSleeps(SetFiberPc(s, Cur(s, w), Ending), ok, s.calls[CurPc(s, w).c].key, f, d);
  }

  lemma StepSleeps(s: State, a: Action, f: nat, d: nat)
    requires TokenInv(s) && Enabled(s, a) && SleepsUntil(s, f, d)
    ensures Next(s, a).misled || SleepsUntil(Next(s, a), f, d)
  {
    match a
    case Env(_) =>
    case Run(w, r) => RunStepSleeps(s, w, r, f, d);
    case Idle(w, i) => IdleStepSleeps(s, w, i, f, d);
    case Code(w, c) => CodeStepSleeps(s, w, c, f, d);
  }

  lemma {:induction false} RunSleeps(s: State, acts: seq<Action>, f: nat, d: nat)
    requires Inv(s) && Legal(s, acts) && (s.misled || SleepsUntil(s, f, d))
    ensures Exec(s, acts).misled || SleepsUntil(Exec(s, acts), f, d)
    decreases |acts|
  {
    if acts != [] {
      if s.misled {
        MisledStays(s, acts[0]);
      } else {
        StepSleeps(s, acts[0], f, d);
      }
      StepKeepsInv(s, acts[0]);
      RunSleeps(Next(s, acts[0]), acts[1..], f, d);
    }
  }

  lemma FallsAsleep(s: State, w: nat, ms: nat)
    requires Runs(s, w) && CodeEnabled(s, w, SleepFor(ms))
    ensures SleepsUntil(CodeNext(s, w, SleepFor(ms)), Cur(s, w), s.clock + ms)
  {
  }

  /** A fiber asleep until `d` is asleep or the clock has come that far. */
  lemma SleepsOn(s: State, acts: seq<Action>, f: nat, d: nat)
    requires Inv(s) && Legal(s, acts) && SleepsUntil(s, f, d) && !Exec(s, acts).misled
    ensures var t := Exec(s, acts); t.clock >= d || (f < |t.fibers| && Asleep(t.fibers[f], d))
  {
    RunSleeps(s, acts, f, d);
  }

  /** However the run goes on, a fiber that called `sleep` is still asleep until the clock has advanced by the time
      it asked for, as long as no fiber of a refused addition has been scheduled. */
  lemma SleepNeverEarly(n: nat, before: seq<Action>, s: State, w: nat, ms: nat, t: State, after: seq<Action>)
    requires Legal(Initial(n), before) && s == Exec(Initial(n), before)
    requires Enabled(s, Code(w, SleepFor(ms))) && t == Next(s, Code(w, SleepFor(ms)))
    requires Legal(t, after) && !Exec(t, after).misled
    ensures var f := Cur(s, w); var u := Exec(t, after);
            u.clock >= s.clock + ms || (f < |u.fibers| && Asleep(u.fibers[f], s.clock + ms))
  {
    ReachableInv(n, before);
    StepKeepsInv(s, Code(w, SleepFor(ms)));
    FallsAsleep(s, w, ms);
    SleepsOn(t, after, Cur(s, w), s.clock + ms);
  }

  /** `unsigned int` arithmetic wraps at this bound. */
  const TWO_32: nat := 0x1_0000_0000

  /** The milliseconds `sleep` asks a timer for: the product is formed in `unsigned int`. */
  function SleepTime(seconds: nat): nat {
    seconds * 1000 % TWO_32
  }

  /** With `SleepNeverEarly`: a fiber sleeps its full time exactly when the product fits; longer requests end
      early. */
  lemma SleepTimeExactIff(seconds: nat)
    requires seconds < TWO_32
    ensures SleepTime(seconds) == seconds * 1000 <==> seconds <= 4294967
    ensures seconds > 4294967 ==> SleepTime(seconds) < seconds * 1000
  {
    if seconds * 1000 < TWO_32 {
      assert SleepTime(seconds) == seconds * 1000;
    }
  }
}
