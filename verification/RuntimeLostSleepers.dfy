/** Runs of a single worker that lose a sleeper or a timeout, one for each kind of step that can. */
module RuntimeLostSleepers {
  import opened Common
  import opened EventTable
  import opened Deadlines
  import opened Runtime
  import opened RuntimeInvariant
  import opened RuntimeScenarios
  import opened RuntimeWakeups
  import opened RuntimeLostTimeouts
  import opened RuntimeFrame

  /** Fiber 0 sleeps until 5, and the worker is back at the queue. */
  ghost predicate FirstSleeps(s: State) {
    && Reaches(1, s) && s.clock == 0 && s.timers == map[5 := WakeSleeper(0)] && s.queue == [] && !s.tryStop
    && |s.workers| == 1 && s.workers[0].pc == Top && !s.workers[0].idleDone
    && s.fibers == [Fiber(HOLD, Napping, InTimer(5), None)] && s.table == EmptyTable() && s.calls == []
    && s.refused == {} && !s.misled && s.handles == []
  }

  lemma OneSleeps() returns (t: State)
    ensures FirstSleeps(t)
  {
    ReachesInitial(1);
    t := NewFiber(1, Initial(1), 0);
    t := Sleep(1, t, 0, 5);
    FrontOfOne(5, WakeSleeper(0));
    t := Doze(1, t, 0);
    t := WakeWith(1, t, 0, []);
    t := Rise(1, t, 0);
  }

  /** Two fibers sleep until the same reading of the clock: the second is lost. */
  lemma SecondSleeperLost() returns (acts: seq<Action>)
    ensures Legal(Initial(1), acts) && Enabled(Exec(Initial(1), acts), Code(0, SetTimer))
    ensures !LostSleeper(Exec(Initial(1), acts), 1) && LostSleeper(Next(Exec(Initial(1), acts), Code(0, SetTimer)), 1)
  {
    var t := OneSleeps();
    t := NewFiber(1, t, 0);
    t := Go(1, t, Code(0, SleepFor(5)));
    acts :| RunTo(1, acts, t);
    assert LosesSleeper(t, Code(0, SetTimer), 1);
    SleeperLostIff(1, acts, Code(0, SetTimer), 1);
  }

  /** Fiber 1 waits in `do_io` with the same deadline, which the set keeps for fiber 0. */
  lemma CallWithSameDeadline() returns (t: State)
    ensures Reaches(1, t) && t.clock == 0 && t.timers == map[5 := WakeSleeper(0)] && t.queue == [] && !t.tryStop
    ensures |t.workers| == 1 && t.workers[0].pc == IdleCheck && !t.workers[0].idleDone
    ensures t.fibers == [Fiber(HOLD, Napping, InTimer(5), None),
                         Fiber(HOLD, Waiting(0, Some(5)), InSlot(Key(7, READ)), None)]
    ensures t.table == Add(EmptyTable(), Key(7, READ), 1, false, true) && t.refused == {} && !t.misled
  {
    t := OneSleeps();
    t := NewFiber(1, t, 0);
    t := TimerMade(t);
    t := TimerRefused(t);
    t := ThenWaits(t);
  }

  lemma ThenWaits(s: State) returns (t: State)
    requires Reaches(1, s) && Runs(s, 0) && s.fibers[Cur(s, 0)] == RunningOn(0, Adding(0, Some(5)))
    requires s.refused == {} && s.table == EmptyTable() && |s.calls| == 1 && s.calls[0].key == Key(7, READ)
    ensures Reaches(1, t)
    ensures t == s.(active := t.active, table := Add(s.table, Key(7, READ), Cur(s, 0), false, true),
                    fibers := s.fibers[Cur(s, 0) := Fiber(HOLD, Waiting(0, Some(5)), InSlot(Key(7, READ)), None)],
                    workers := s.workers[0 := s.workers[0].(pc := IdleCheck)])
  {
    t := Go(1, s, Code(0, AddEvent(true)));
    assert t.refused == {};
    t := Suspend(1, t, 0);
  }

  lemma TimerMade(s: State) returns (t: State)
    requires Reaches(1, s) && Runs(s, 0) && s.fibers[Cur(s, 0)] == RunningOn(0, User) && s.clock == 0 && s.calls == []
    ensures Reaches(1, t)
    ensures t == s.(fibers := s.fibers[Cur(s, 0) := RunningOn(0, Setting(ForCall(0), 5))],
                    calls := [Call(Key(7, READ), Some(5), {0}, false, true)])
  {
    t := Go(1, s, Code(0, BeginIo(Key(7, READ), Some(5))));
    t := Go(1, t, Code(0, ArmTimer));
    assert t.calls[0].armed == {0};
  }

  lemma TimerRefused(s: State) returns (t: State)
    requires Reaches(1, s) && Runs(s, 0) && CurPc(s, 0) == Setting(ForCall(0), 5) && 5 in s.timers
    ensures Reaches(1, t)
    ensures t == s.(fibers := s.fibers[Cur(s, 0) := s.fibers[Cur(s, 0)].(pc := Adding(0, Some(5)))],
                    tickled := t.tickled, pipe := t.pipe, written := t.written)
  {
    t := Go(1, s, Code(0, SetTimer));
  }

  /** So the call waits, timed, without any timeout. */
  lemma WaitsWithoutTimeout() returns (acts: seq<Action>)
    ensures Legal(Initial(1), acts) && InTimedRound(Exec(Initial(1), acts), 0) && !HasTimeout(Exec(Initial(1), acts), 0)
  {
    var t := CallWithSameDeadline();
    acts :| RunTo(1, acts, t);
    assert InRound(t, 1, 0);
    forall p ensures !Lies(t, 0, p) {
    }
  }

  /** Readiness wakes fiber 1, which is about to cancel its timer. */
  lemma ReadyToDisarm() returns (t: State)
    ensures Reaches(1, t) && t.timers == map[5 := WakeSleeper(0)]
    ensures |t.fibers| == 2 && t.fibers[0] == Fiber(HOLD, Napping, InTimer(5), None)
    ensures Runs(t, 0) && CurPc(t, 0) == Disarming(0, Some(5)) && !t.misled
  {
    t := CallWithSameDeadline();
    FrontOfOne(5, WakeSleeper(0));
    t := Doze(1, t, 0);
    AddedKeys(map[], Key(7, READ), 1);
    t := WakeWith(1, t, 0, [FromFd(7, {READ}, false)]);
    t := ReaderWoken(t);
    t := Rise(1, t, 0);
    t := ReaderResumes(t);
  }

  lemma ReaderResumes(s: State) returns (t: State)
    requires Reaches(1, s) && At(s, 0, Top) && s.queue == [1] && |s.fibers| == 2
    requires s.fibers[1] == Fiber(HOLD, Waiting(0, Some(5)), InQueue, None)
    ensures Reaches(1, t) && Runs(t, 0) && CurPc(t, 0) == Disarming(0, Some(5))
    ensures t.misled == s.misled && t.timers == s.timers && |t.fibers| == 2 && t.fibers[0] == s.fibers[0]
  {
    assert QueueStates(s)[0] == HOLD;
    t := Go(1, s, Run(0, Take));
    t := Go(1, t, Run(0, Resume));
  }

  lemma ReaderWoken(s: State) returns (t: State)
    requires Reaches(1, s) && At(s, 0, Handling) && s.workers[0].reports == [FromFd(7, {READ}, false)]
    requires s.table == Add(EmptyTable(), Key(7, READ), 1, false, true) && s.queue == [] && |s.fibers| == 2
    requires s.refused == {}
    ensures Reaches(1, t) && t.queue == [1]
    ensures t == s.(table := t.table, queue := t.queue, fibers := s.fibers[1 := s.fibers[1].(token := InQueue)],
                    workers := s.workers[0 := s.workers[0].(reports := [])])
  {
    AddedKeys(map[], Key(7, READ), 1);
    assert EventsOf(s.table.slots, 7) == {READ} && Hit(s, 0) == {READ};
    t := Go(1, s, Idle(0, HandleReady(true)));
    assert [FromFd(7, {READ}, false)][1..] == [];
    assert t.refused == {};
  }

  /** The running fiber can take this step, and fiber 0 is a lost sleeper only after it. */
  ghost predicate LosesTheSleeper(s: State, c: CodeAction) {
    Enabled(s, Code(0, c)) && !LostSleeper(s, 0) && LostSleeper(Next(s, Code(0, c)), 0)
  }

  /** Fiber 0 sleeps until 5, and the other fiber is about to erase that deadline. */
  lemma ErasureLoses(t: State, c: CodeAction) returns (acts: seq<Action>)
    requires Reaches(1, t) && t.timers == map[5 := WakeSleeper(0)] && !t.misled
    requires |t.fibers| == 2 && t.fibers[0] == Fiber(HOLD, Napping, InTimer(5), None) && Runs(t, 0)
    requires CodeEnabled(t, 0, c) && Erases(c) && ErasedBy(t, 0, c) == Some(5)
    ensures RunTo(1, acts, t) && LosesTheSleeper(t, c)
  {
    acts :| RunTo(1, acts, t);
    ReachableInv(1, acts);
    LostIffToken(t, 0);
    CodeMoves(t, 0, c);
    assert LosesSleeper(t, Code(0, c), 0);
    SleeperLostIff(1, acts, Code(0, c), 0);
  }

  /** Its cancellation takes the sleeper's timer: the sleeper is lost. */
  lemma SleeperErased() returns (acts: seq<Action>)
    ensures Legal(Initial(1), acts) && LosesTheSleeper(Exec(Initial(1), acts), Disarm)
  {
    var t := ReadyToDisarm();
    acts := ErasureLoses(t, Disarm);
  }

  /** A `do_io` with the same deadline whose addition is refused cancels its timer too, and takes the sleeper's. */
  lemma SleeperErasedByRefusal() returns (acts: seq<Action>)
    ensures Legal(Initial(1), acts) && LosesTheSleeper(Exec(Initial(1), acts), GiveUp)
  {
    var t := CallRefused();
    acts := ErasureLoses(t, GiveUp);
  }

  lemma CallRefused() returns (t: State)
    ensures Reaches(1, t) && t.timers == map[5 := WakeSleeper(0)] && !t.misled && |t.calls| == 1
    ensures |t.fibers| == 2 && t.fibers[0] == Fiber(HOLD, Napping, InTimer(5), None)
    ensures Runs(t, 0) && CurPc(t, 0) == Abandoning(0, Some(5))
  {
    t := OneSleeps();
    t := NewFiber(1, t, 0);
    t := TimerMade(t);
    t := TimerRefused(t);
    t := Go(1, t, Code(0, AddEvent(false)));
  }

  /** A timer of the user that was refused for the sleeper's deadline, and is then cancelled, takes the sleeper's. */
  lemma SleeperErasedByUser() returns (acts: seq<Action>)
    ensures Legal(Initial(1), acts) && LosesTheSleeper(Exec(Initial(1), acts), CancelTimer(0))
  {
    var t := UserTimerRefused();
    acts := ErasureLoses(t, CancelTimer(0));
  }

  lemma UserTimerRefused() returns (t: State)
    ensures Reaches(1, t) && t.timers == map[5 := WakeSleeper(0)] && !t.misled
    ensures |t.fibers| == 2 && t.fibers[0] == Fiber(HOLD, Napping, InTimer(5), None)
    ensures Runs(t, 0) && CurPc(t, 0) == User && t.handles == [Handle(5, 5, false, true)]
  {
    t := OneSleeps();
    t := NewFiber(1, t, 0);
    t := Go(1, t, Code(0, AddTimer(5, false)));
    t := Go(1, t, Code(0, SetTimer));
  }
}
