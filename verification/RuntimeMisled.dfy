/** What a refused addition can lead to once its bit is triggered: a fiber on two workers, and a waiter left behind. */
module RuntimeMisled {
  import opened Common
  import opened EventTable
  import opened Deadlines
  import opened Runtime
  import opened RuntimeShutdown
  import opened RuntimeShutdownFails
  import opened RuntimeScheduling
  import opened RuntimeScenarios

  // ---- stretches ----

  /** The addition of a running fiber is refused, and its call returns. */
  lemma RefusedCall(n: nat, s: State, w: nat, k: Key) returns (t: State)
    requires Reaches(n, s) && Runs(s, w) && s.fibers[Cur(s, w)] == RunningOn(w, User) && k !in s.table.slots
    ensures Reaches(n, t)
    ensures t == s.(calls := s.calls + [Call(k, None, {}, false, false)], refused := s.refused + {k},
                    table := Add(s.table, k, Cur(s, w), false, false))
  {
    t := BeginWait(n, s, w, k);
    t := Go(n, t, Code(w, AddEvent(false)));
    t := Go(n, t, Code(w, GiveUp));
    assert t.fibers == s.fibers;
    assert t.calls == s.calls + [Call(k, None, {}, false, false)];
  }

  /** The worker goes round: it waits, wakes with nothing to do, and is back at the queue. */
  lemma GoRound(n: nat, s: State, w: nat) returns (t: State)
    requires Reaches(n, s) && At(s, w, IdleCheck) && !s.workers[w].idleDone && !s.tryStop && s.timers == map[]
    ensures Reaches(n, t)
    ensures t == s.(tickled := false, reader := Some(w), written := false, hushed := false,
                    workers := s.workers[w := s.workers[w].(pc := Top, reports := [], saw := None, readAt := s.clock)])
  {
    assert Front(s.timers) == None;
    t := Doze(n, s, w);
    t := WakeWith(n, t, w, []);
    t := Rise(n, t, w);
  }

  // ---- a fiber on two workers ----

  /** No fiber is ever on two workers, in no run. */
  ghost predicate Exclusive(n: nat) {
    forall acts, v: nat, w: nat :: Legal(Initial(n), acts) && v < n && w < n && v != w
                         ==> !Shared(Exec(Initial(n), acts), v, w)
  }

  ghost predicate Shared(s: State, v: nat, w: nat) {
    && v < |s.workers| && w < |s.workers|
    && FiberOf(s.workers[v].pc).Some? && FiberOf(s.workers[v].pc) == FiberOf(s.workers[w].pc)
  }

  /** Fiber 0 waits to write on descriptor 3; fiber 1 runs, refused when it wanted to read there. */
  lemma ReaderRefused(n: nat) returns (t: State)
    requires n >= 2
    ensures Reaches(n, t) && |t.workers| == n && t.workers[1] == Fresh && t.queue == [] && !t.tryStop
    ensures t.timers == map[] && !t.workers[0].idleDone
    ensures t.table.slots == map[Key(3, WRITE) := 0, Key(3, READ) := 1] && t.table.interest == map[3 := {WRITE}]
    ensures t.refused == {Key(3, READ)} && |t.fibers| == 2 && t.fibers[1] == RunningOn(0, User)
    ensures Runs(t, 0) && Cur(t, 0) == 1
  {
    ReachesInitial(n);
    t := NewFiber(n, Initial(n), 0);
    t := WaitFor(n, t, 0, Key(3, WRITE));
    t := GoRound(n, t, 0);
    t := NewFiber(n, t, 0);
    t := RefusedCall(n, t, 0, Key(3, READ));
    AddedKeys(map[], Key(3, WRITE), 0);
  }

  /** Fiber 1 waits to read on descriptor 5, with its refused bit still set. */
  lemma ReaderWaitsElsewhere(n: nat) returns (t: State)
    requires n >= 2
    ensures Reaches(n, t) && |t.workers| == n && t.workers[1] == Fresh && t.queue == [] && t.timers == map[]
    ensures At(t, 0, Sleeping) && |t.fibers| == 2 && t.fibers[1].st == HOLD
    ensures t.table.slots == map[Key(3, WRITE) := 0, Key(3, READ) := 1, Key(5, READ) := 1]
    ensures t.table.interest == map[3 := {WRITE}, 5 := {READ}] && t.refused == {Key(3, READ)}
  {
    t := ReaderRefused(n);
    assert EventsOf(t.table.slots, 5) + {READ} == {READ};
    t := WaitFor(n, t, 0, Key(5, READ));
    t := Doze(n, t, 0);
  }

  /** Descriptor 5 becomes readable and descriptor 3 reports an error: fiber 1 is queued twice. */
  lemma QueuedTwice(n: nat) returns (t: State)
    requires n >= 2
    ensures Reaches(n, t) && |t.workers| == n && t.workers[1] == Fresh && At(t, 0, Top)
    ensures |t.fibers| == 2 && t.fibers[1].st == HOLD && |t.queue| >= 2 && t.queue[0] == 1 && t.queue[1] == 1
  {
    t := ReaderWaitsElsewhere(n);
    t := WakeWith(n, t, 0, [FromFd(5, {READ}, false), FromFd(3, {}, true)]);
    t := ReadyOnFive(n, t);
    t := ErrorOnThree(n, t);
    t := Rise(n, t, 0);
  }

  lemma ReadyOnFive(n: nat, s: State) returns (t: State)
    requires Reaches(n, s) && At(s, 0, Handling)
    requires s.workers[0].reports == [FromFd(5, {READ}, false), FromFd(3, {}, true)] && s.queue == [] && |s.fibers| == 2
    requires s.table.slots == map[Key(3, WRITE) := 0, Key(3, READ) := 1, Key(5, READ) := 1]
    requires s.table.interest == map[3 := {WRITE}, 5 := {READ}] && s.refused == {Key(3, READ)}
    ensures Reaches(n, t) && t.workers == s.workers[0 := s.workers[0].(reports := [FromFd(3, {}, true)])]
    ensures t.queue == [1] && |t.fibers| == 2 && t.fibers[1].st == s.fibers[1].st
    ensures t.table.slots == map[Key(3, WRITE) := 0, Key(3, READ) := 1] && 3 in t.table.interest
  {
    OneOnFive(s);
    t := Go(n, s, Idle(0, HandleReady(true)));
    assert [FromFd(5, {READ}, false), FromFd(3, {}, true)][1..] == [FromFd(3, {}, true)];
  }

  lemma OneOnFive(s: State)
    requires |s.workers| > 0 && s.workers[0].reports == [FromFd(5, {READ}, false), FromFd(3, {}, true)]
    requires s.table.slots == map[Key(3, WRITE) := 0, Key(3, READ) := 1, Key(5, READ) := 1]
    ensures EventsOf(s.table.slots, 5) == {READ} && Hit(s, 0) == {READ} && KeysOf(5, {READ}) == {Key(5, READ)}
    ensures s.table.slots - {Key(5, READ)} == map[Key(3, WRITE) := 0, Key(3, READ) := 1]
  {
    assert Key(5, READ) in s.table.slots;
  }

  lemma ErrorOnThree(n: nat, s: State) returns (t: State)
    requires Reaches(n, s) && At(s, 0, Handling) && s.workers[0].reports == [FromFd(3, {}, true)]
    requires s.queue == [1] && |s.fibers| == 2 && 3 in s.table.interest
    requires s.table.slots == map[Key(3, WRITE) := 0, Key(3, READ) := 1]
    ensures Reaches(n, t) && t.workers == s.workers[0 := s.workers[0].(reports := [])]
    ensures t.queue == [1, 1, 0] && |t.fibers| == 2 && t.fibers[1].st == s.fibers[1].st
  {
    assert Key(3, READ) in s.table.slots && Key(3, WRITE) in s.table.slots;
    assert READ in EventsOf(s.table.slots, 3) && WRITE in EventsOf(s.table.slots, 3);
    assert Hit(s, 0) == EventsOf(s.table.slots, 3);
    t := Go(n, s, Idle(0, HandleReady(true)));
    assert [FromFd(3, {}, true)][1..] == [];
  }

  lemma TakenTwice(n: nat) returns (t: State)
    requires n >= 2
    ensures Reaches(n, t) && Shared(t, 0, 1)
  {
    t := QueuedTwice(n);
    assert QueueStates(t)[0] == HOLD;
    t := Go(n, t, Run(0, Take));
    assert t.queue[0] == 1 && QueueStates(t)[0] == HOLD;
    t := Go(n, t, Run(1, Take));
  }

  /** Refused additions or not, no fiber is ever on two workers exactly when there is at most one. */
  lemma ExclusiveIffOneWorker(n: nat)
    ensures Exclusive(n) <==> n <= 1
  {
    if n >= 2 {
      var s := TakenTwice(n);
      var acts :| RunTo(n, acts, s);
      assert Shared(Exec(Initial(n), acts), 0, 1);
    }
  }

  // ---- a waiter left behind ----

  /** Every run that tests as the program does leaves nothing behind, refused additions or not. */
  ghost predicate AlwaysSafeShutdown(n: nat) {
    forall acts :: Legal(Initial(n), acts) && ExactRun(Initial(n), acts)
                   && (forall i :: 0 <= i < |acts| ==> Split(acts[i])) && AllLeft(Exec(Initial(n), acts))
                   ==> NoWork(Exec(Initial(n), acts))
  }

  /** Fiber 0 waits to read on descriptor 3; fiber 1 runs, refused when it wanted to write there. */
  lemma WriterRefused() returns (t: State)
    ensures Reaches(1, t) && |t.workers| == 1 && t.queue == [] && !t.tryStop && t.timers == map[] && t.active == 1
    ensures Runs(t, 0) && Cur(t, 0) == 1 && !t.workers[0].idleDone
    ensures t.table.slots == map[Key(3, READ) := 0, Key(3, WRITE) := 1] && t.table.interest == map[3 := {READ}]
    ensures t.table.pending == 1 && t.table.callbacks == {} && t.refused == {Key(3, WRITE)}
    ensures t.fibers == [Fiber(HOLD, Waiting(0, None), InSlot(Key(3, READ)), None), RunningOn(0, User)]
    ensures |t.calls| == 2 && t.calls[0] == Call(Key(3, READ), None, {}, false, true)
  {
    ReachesInitial(1);
    t := NewFiber(1, Initial(1), 0);
    t := WaitFor(1, t, 0, Key(3, READ));
    t := GoRound(1, t, 0);
    t := NewFiber(1, t, 0);
    t := RefusedCall(1, t, 0, Key(3, WRITE));
    AddedKeys(map[], Key(3, READ), 0);
  }

  /** Fiber 1 closes the descriptor and ends: both bits count, though one was never counted. */
  lemma BothCancelled() returns (t: State)
    ensures Reaches(1, t) && |t.workers| == 1 && !t.tryStop && t.timers == map[] && t.active == 0 && t.queue == [0, 1]
    ensures At(t, 0, IdleCheck) && !t.workers[0].idleDone
    ensures t.table == Table(map[], {}, map[], -1) && t.refused == {}
    ensures |t.fibers| == 2 && t.fibers[0] == Fiber(HOLD, Waiting(0, None), InQueue, None)
    ensures t.fibers[1].st == TERM && t.fibers[1].pc == Finished
    ensures |t.calls| == 2 && t.calls[0] == Call(Key(3, READ), None, {}, false, true)
  {
    t := WriterRefused();
    t := ClosesThree(t);
    t := Go(1, t, Code(0, CloseFd));
    t := Go(1, t, Code(0, Finish(false)));
    t := Suspend(1, t, 0);
  }

  lemma ClosesThree(s: State) returns (t: State)
    requires Reaches(1, s) && Runs(s, 0) && Cur(s, 0) == 1 && |s.workers| == 1 && s.queue == []
    requires s.table.slots == map[Key(3, READ) := 0, Key(3, WRITE) := 1] && s.table.interest == map[3 := {READ}]
    requires s.table.pending == 1 && s.table.callbacks == {} && s.refused == {Key(3, WRITE)}
    requires s.fibers == [Fiber(HOLD, Waiting(0, None), InSlot(Key(3, READ)), None), RunningOn(0, User)]
    ensures Reaches(1, t)
    ensures t == s.(table := Table(map[], {}, map[], -1), refused := {}, misled := true, queue := [0, 1],
                    fibers := [Fiber(HOLD, Waiting(0, None), InQueue, None),
                               RunningOn(0, Closing(3)).(token := InQueue)])
  {
    CancelsBoth(s.table);
    t := Go(1, s, Code(0, CloseEvents(3, true)));
    CloseWakesBoth(SetFiberPc(s, 1, Closing(3)), CancelAll(s.table, 3, true));
  }

  lemma CloseWakesBoth(s: State, table: Table<nat>)
    requires s.table.slots == map[Key(3, READ) := 0, Key(3, WRITE) := 1] && s.queue == [] && |s.fibers| == 2
    requires s.refused == {Key(3, WRITE)}
    ensures var t := TriggerAll(s, 3, {READ, WRITE}, table);
            t == s.(table := table, refused := {}, misled := true, queue := [0, 1],
                    fibers := [s.fibers[0].(token := InQueue), s.fibers[1].(token := InQueue)])
  {
    var m := TriggerIf(s, true, Key(3, READ));
    assert m.refused == s.refused && m.queue == [0] && Key(3, WRITE) in m.table.slots;
    var t := TriggerIf(m, true, Key(3, WRITE));
    assert t.refused == {} && t.queue == [0, 1];
  }

  lemma CancelsBoth(t: Table<nat>)
    requires t.slots == map[Key(3, READ) := 0, Key(3, WRITE) := 1] && t.interest == map[3 := {READ}]
    requires t.pending == 1 && t.callbacks == {}
    ensures EventsOf(t.slots, 3) == {READ, WRITE} && CancelAll(t, 3, true) == Table(map[], {}, map[], -1)
  {
    assert Key(3, READ) in t.slots && Key(3, WRITE) in t.slots;
    forall e: Event ensures e in EventsOf(t.slots, 3) {
      assert e == READ || e == WRITE;
    }
    assert EventsOf(t.slots, 3) == {READ, WRITE};
    assert KeysOf(3, {READ, WRITE}) == {Key(3, READ), Key(3, WRITE)};
  }

  /** Fiber 0 is taken and goes through its round again. */
  lemma ReaderWaitsAgain() returns (t: State)
    ensures Reaches(1, t) && |t.workers| == 1 && !t.tryStop && t.timers == map[] && t.active == 0 && t.queue == [1]
    ensures At(t, 0, IdleCheck) && !t.workers[0].idleDone && |t.fibers| == 2 && t.fibers[1].st == TERM
    ensures t.table.slots == map[Key(3, READ) := 0] && t.table.pending == 0 && t.refused == {}
  {
    t := BothCancelled();
    t := GoRound(1, t, 0);
    t := ReaderTaken(t);
    t := TriesAgain(t);
    t := AddsAgain(t);
    t := Suspend(1, t, 0);
  }

  lemma AddsAgain(s: State) returns (t: State)
    requires Reaches(1, s) && Runs(s, 0) && Cur(s, 0) == 0 && s.fibers[0] == RunningOn(0, Adding(0, None))
    requires |s.calls| == 2 && s.calls[0] == Call(Key(3, READ), None, {}, false, true)
    requires s.table == Table(map[], {}, map[], -1) && s.refused == {}
    ensures Reaches(1, t)
    ensures t == s.(table := Add(s.table, Key(3, READ), 0, false, true),
                    fibers := s.fibers[0 := Fiber(EXEC, Waiting(0, None), InSlot(Key(3, READ)), Some(0))])
  {
    t := Go(1, s, Code(0, AddEvent(true)));
    assert t.refused == {};
  }

  lemma ReaderTaken(s: State) returns (t: State)
    requires Reaches(1, s) && At(s, 0, Top) && s.queue == [0, 1] && |s.fibers| == 2
    requires s.fibers[0] == Fiber(HOLD, Waiting(0, None), InQueue, None)
    ensures Reaches(1, t)
    ensures t == s.(queue := [1], active := s.active + 1, fibers := s.fibers[0 := RunningOn(0, Disarming(0, None))],
                    workers := s.workers[0 := s.workers[0].(pc := Running(0))])
  {
    assert QueueStates(s)[0] == HOLD;
    t := Go(1, s, Run(0, Take));
    t := Go(1, t, Run(0, Resume));
    assert t.queue == [1];
  }

  lemma TriesAgain(s: State) returns (t: State)
    requires Reaches(1, s) && Runs(s, 0) && Cur(s, 0) == 0 && s.fibers[0] == RunningOn(0, Disarming(0, None))
    requires |s.calls| == 2 && s.calls[0] == Call(Key(3, READ), None, {}, false, true)
    ensures Reaches(1, t) && t == s.(fibers := s.fibers[0 := RunningOn(0, Adding(0, None))])
  {
    t := SeesNoFlag(s);
    t := Go(1, t, Code(0, Retry(true)));
    t := Go(1, t, Code(0, ArmTimer));
    assert t.calls == s.calls;
  }

  lemma SeesNoFlag(s: State) returns (t: State)
    requires Reaches(1, s) && Runs(s, 0) && Cur(s, 0) == 0 && s.fibers[0] == RunningOn(0, Disarming(0, None))
    requires |s.calls| == 2 && s.calls[0] == Call(Key(3, READ), None, {}, false, true)
    ensures Reaches(1, t) && t == s.(fibers := s.fibers[0 := RunningOn(0, Retrying(0))])
  {
    t := Go(1, s, Code(0, Disarm));
    t := Go(1, t, Code(0, Check));
    assert t.calls == s.calls;
  }

  /** The queue entry of fiber 1 is dropped; then a stop is asked for. */
  lemma DeadFiberDropped() returns (t: State)
    ensures Reaches(1, t) && |t.workers| == 1 && t.tryStop && t.timers == map[] && t.active == 0 && t.queue == []
    ensures At(t, 0, IdleCheck) && !t.workers[0].idleDone
    ensures t.table.slots == map[Key(3, READ) := 0] && t.table.pending == 0 && t.refused == {}
  {
    t := ReaderWaitsAgain();
    t := GoRound(1, t, 0);
    t := TakesDead(t);
    t := Go(1, t, Env(RequestStop));
  }

  lemma TakesDead(s: State) returns (t: State)
    requires Reaches(1, s) && At(s, 0, Top) && s.queue == [1] && |s.fibers| == 2 && s.fibers[1].st == TERM
    ensures Reaches(1, t)
    ensures t == s.(queue := [], fibers := t.fibers, workers := s.workers[0 := s.workers[0].(pc := IdleCheck)])
  {
    assert QueueStates(s)[0] == TERM;
    t := Go(1, s, Run(0, Take));
    t := Go(1, t, Run(0, Resume));
    t := Go(1, t, Run(0, Decrement));
    t := Go(1, t, Run(0, Settle));
    assert t.queue == [];
  }

  /** The worker sees no timers, nothing pending and nothing queued, and leaves, though fiber 0 waits on a descriptor
      the kernel knows. */
  lemma WaiterLeftBehind() returns (t: State)
    ensures Reaches(1, t) && AllLeft(t) && Live(t) == map[Key(3, READ) := 0]
  {
    t := DeadFiberDropped();
    t := Go(1, t, Run(0, EnterIdle));
    t := SeesNothing(t);
    t := Go(1, t, Idle(0, LeaveIdle));
    t := PassQueue(1, t, 0);
    t := Go(1, t, Run(0, EnterIdle));
    assert Live(t) == t.table.slots;
  }

  lemma SeesNothing(s: State) returns (t: State)
    requires Reaches(1, s) && At(s, 0, Testing(0)) && |s.workers| == 1
    requires s.tryStop && s.timers == map[] && s.active == 0 && s.queue == [] && s.table.pending == 0
    ensures Reaches(1, t)
    ensures t == s.(tickled := false, reader := Some(0), written := false, hushed := false,
                    workers := s.workers[0 := s.workers[0].(pc := IdleOut, idleDone := true, saw := None,
                                                            readAt := s.clock)])
  {
    assert Front(s.timers) == None;
    t := Go(1, s, Idle(0, TestTimers));
    t := Go(1, t, Idle(0, TestPending));
    t := Go(1, t, Idle(0, TestQueue));
  }

  /** With refused additions no number of workers shuts down safely in every run. */
  lemma RefusalLeavesWaiterBehind(n: nat)
    ensures !AlwaysSafeShutdown(n)
  {
    var s;
    if n == 1 {
      s := WaiterLeftBehind();
      assert Key(3, READ) in Live(s);
    } else {
      s := WorkStays(n);
    }
    var acts :| RunTo(n, acts, s);
    assert AllLeft(s) && !NoWork(s);
  }
}
