/** Stretches of runs, for the results that need a run to be shown: every state they lead to is reached by a run that
    tests as the program does, whose timer reads are exact, and whose cancellations all succeed. */
module RuntimeScenarios {
  import opened Common
  import opened EventTable
  import opened Deadlines
  import opened Runtime
  import opened RuntimeFrame
  import opened RuntimeInvariant
  import opened RuntimeShutdown

  predicate CancelSucceeds(a: Action) {
    a.Code? && a.c.CloseEvents? ==> a.c.ok
  }

  ghost predicate RunTo(n: nat, acts: seq<Action>, s: State) {
    && Legal(Initial(n), acts) && ExactRun(Initial(n), acts) && Exec(Initial(n), acts) == s && s.crash == NoCrash
    && forall i :: 0 <= i < |acts| ==> Split(acts[i]) && CancelSucceeds(acts[i])
  }

  ghost predicate Reaches(n: nat, s: State) {
    exists acts :: RunTo(n, acts, s)
  }

  lemma {:induction false} SnocExact(s: State, acts: seq<Action>, a: Action)
    requires Legal(s, acts) && ExactRun(s, acts) && Enabled(Exec(s, acts), a) && Exact(Exec(s, acts), a)
    ensures Legal(s, acts + [a]) && ExactRun(s, acts + [a])
    decreases |acts|
  {
    Snoc(s, acts, a);
    if acts == [] {
      assert acts + [a] == [a];
    } else {
      assert (acts + [a])[1..] == acts[1..] + [a];
      SnocExact(Next(s, acts[0]), acts[1..], a);
    }
  }

  /** The step is not a failing assertion. */
  predicate GoesOn(a: Action) {
    !(a.Idle? && a.i.Abort?) && !(a.Code? && a.c.AbortAdd?)
  }

  lemma IdleGoesOn(s: State, w: nat, i: IdleAction)
    requires w < |s.workers| && IdleEnabled(s, w, i) && !i.Abort?
    ensures IdleNext(s, w, i).crash == s.crash
  {
    if i.HandleReady? {
      ReadyGoesOn(s, w, i.ok);
    }
  }

  lemma ReadyGoesOn(s: State, w: nat, ok: bool)
    requires w < |s.workers| && IdleEnabled(s, w, HandleReady(ok))
    ensures ReadyStep(s, w, ok).crash == s.crash
  {
  }

  lemma RunGoesOn(s: State, w: nat, r: RunAction)
    requires w < |s.workers| && RunEnabled(s, w, r)
    ensures RunNext(s, w, r).crash == s.crash
  {
    RunMoves(s, w, r);
  }

  lemma CodeGoesOn(s: State, w: nat, c: CodeAction)
    requires Runs(s, w) && CodeEnabled(s, w, c) && !c.AbortAdd?
    ensures CodeNext(s, w, c).crash == s.crash
  {
    CodeMoves(s, w, c);
  }

  lemma OnlyAssertionsCrash(s: State, a: Action)
    requires Enabled(s, a) && GoesOn(a)
    ensures Next(s, a).crash == NoCrash
  {
    match a
    case Env(_) =>
    case Run(w, r) => RunGoesOn(s, w, r);
    case Idle(w, i) => IdleGoesOn(s, w, i);
    case Code(w, c) => CodeGoesOn(s, w, c);
  }

  lemma Go(n: nat, s: State, a: Action) returns (t: State)
    requires Reaches(n, s) && Enabled(s, a) && Split(a) && CancelSucceeds(a) && Exact(s, a) && GoesOn(a)
    ensures t == Next(s, a) && Reaches(n, t)
  {
    t := Next(s, a);
    OnlyAssertionsCrash(s, a);
    var acts :| RunTo(n, acts, s);
    Snoc(Initial(n), acts, a);
    SnocExact(Initial(n), acts, a);
    assert RunTo(n, acts + [a], t);
  }

  lemma ReachesInitial(n: nat)
    ensures Reaches(n, Initial(n))
  {
    assert RunTo(n, [], Initial(n));
  }

  // ---- a worker between fibers ----

  /** With an empty queue a worker goes on to its idle fiber. */
  lemma PassQueue(n: nat, s: State, w: nat) returns (t: State)
    requires Reaches(n, s) && At(s, w, Top) && s.queue == []
    ensures Reaches(n, t) && t == s.(workers := s.workers[w := s.workers[w].(pc := IdleCheck)])
  {
    t := Go(n, s, Run(w, Take));
  }

  /** The worker reads the front, finds that it must not stop, and waits. */
  lemma Doze(n: nat, s: State, w: nat) returns (t: State)
    requires Reaches(n, s) && At(s, w, IdleCheck) && !s.workers[w].idleDone && !s.tryStop
    requires !OneOverdue(Front(s.timers), s.clock)
    ensures Reaches(n, t)
    ensures t == s.(idle := s.idle + 1, tickled := false, reader := Some(w), written := false, hushed := false,
                    workers := s.workers[w := s.workers[w].(pc := Sleeping, saw := Front(s.timers), readAt := s.clock)])
  {
    t := Go(n, s, Run(w, EnterIdle));
    t := Go(n, t, Idle(w, TestTimers));
    if t.workers[w].pc == Testing(1) {
      t := GoesToWait(n, t, w);
    }
  }

  /** Without a stop asked for, the rest of the test is negative. */
  lemma GoesToWait(n: nat, s: State, w: nat) returns (t: State)
    requires Reaches(n, s) && At(s, w, Testing(1)) && !s.workers[w].idleDone && !s.tryStop
    ensures Reaches(n, t) && t == s.(workers := s.workers[w := s.workers[w].(pc := Sleeping)])
  {
    t := Go(n, s, Idle(w, TestPending));
    if t.workers[w].pc == Testing(2) {
      t := Go(n, t, Idle(w, TestQueue));
    }
  }

  lemma NothingExpires(s: State, w: nat)
    requires At(s, w, Listing) && forall d :: d in s.timers ==> d > s.clock
    ensures ListStep(s, w) == SetPc(s, w, Scheduling(map[]))
  {
    assert Due(s.timers, s.clock) == map[] && Later(s.timers, s.clock) == s.timers;
    NothingRearmed(s.timers, (cb: Callback) => Period(s.handles, cb), s.clock);
    assert ExpireTokens(s.fibers, map[], w) == s.fibers;
    assert RearmedHandles(s.handles, map[], s.clock) == s.handles;
  }

  /** `epoll_wait` returns, and no timer is due. */
  lemma WakeWith(n: nat, s: State, w: nat, reports: seq<Report>) returns (t: State)
    requires Reaches(n, s) && At(s, w, Sleeping) && Reportable(s, reports) && forall d :: d in s.timers ==> d > s.clock
    ensures Reaches(n, t)
    ensures t == s.(workers := s.workers[w := s.workers[w].(pc := Handling, reports := reports)])
  {
    t := Go(n, s, Idle(w, Wake(reports)));
    NothingExpires(t, w);
    t := Go(n, t, Idle(w, ListExpired));
    t := Go(n, t, Idle(w, HandDone));
  }

  /** All reports handled, the worker returns to the queue. */
  lemma Rise(n: nat, s: State, w: nat) returns (t: State)
    requires Reaches(n, s) && At(s, w, Handling) && s.workers[w].reports == []
    ensures Reaches(n, t) && t == s.(idle := s.idle - 1, workers := s.workers[w := s.workers[w].(pc := Top)])
  {
    t := Go(n, s, Idle(w, HandleDone));
    t := Go(n, t, Idle(w, LeaveIdle));
  }

  // ---- a worker with a fiber ----

  function RunningOn(w: nat, pc: Pc): Fiber {
    Fiber(EXEC, pc, NoToken, Some(w))
  }

  /** A thread outside schedules a function, and the worker starts it. */
  lemma NewFiber(n: nat, s: State, w: nat) returns (t: State)
    requires Reaches(n, s) && At(s, w, Top) && s.queue == [] && !s.tryStop
    ensures Reaches(n, t)
    ensures t == s.(fibers := s.fibers + [RunningOn(w, User)], active := s.active + 1,
                    workers := s.workers[w := s.workers[w].(pc := Running(|s.fibers|))])
    ensures Runs(t, w) && Cur(t, w) == |s.fibers| && CurPc(t, w) == User
  {
    t := Go(n, s, Env(Outside));
    assert QueueStates(t)[0] == INIT;
    t := Go(n, t, Run(w, Take));
    t := Go(n, t, Run(w, Resume));
    assert t.queue == [];
  }

  /** The running fiber gives its worker back. */
  lemma Suspend(n: nat, s: State, w: nat) returns (t: State)
    requires Reaches(n, s) && Runs(s, w) && (CurPc(s, w).Waiting? || CurPc(s, w).Napping? || CurPc(s, w).Finished?)
    ensures Reaches(n, t)
    ensures var f := Cur(s, w); var fb := s.fibers[f];
            t == s.(active := s.active - 1, workers := s.workers[w := s.workers[w].(pc := IdleCheck)],
                    fibers := s.fibers[f := fb.(st := if Dead(fb.st) then fb.st else HOLD, on := None)])
  {
    t := Go(n, s, Run(w, Yield));
    t := Go(n, t, Run(w, Decrement));
    t := Go(n, t, Run(w, Settle));
  }

  lemma BeginWait(n: nat, s: State, w: nat, k: Key) returns (t: State)
    requires Reaches(n, s) && Runs(s, w) && s.fibers[Cur(s, w)] == RunningOn(w, User)
    ensures Reaches(n, t)
    ensures t == s.(calls := s.calls + [Call(k, None, {}, false, true)],
                    fibers := s.fibers[Cur(s, w) := RunningOn(w, Adding(|s.calls|, None))])
  {
    t := Go(n, s, Code(w, BeginIo(k, None)));
    t := Go(n, t, Code(w, ArmTimer));
    assert t.calls == s.calls + [Call(k, None, {}, false, true)];
  }

  /** The running fiber waits in `do_io` without a timeout, on a descriptor the kernel takes. */
  lemma WaitFor(n: nat, s: State, w: nat, k: Key) returns (t: State)
    requires Reaches(n, s) && Runs(s, w) && s.fibers[Cur(s, w)] == RunningOn(w, User) && k !in s.table.slots
    requires k !in s.refused && KernelAccepts(s.table.interest, AddOp(s.table, k.fd), k.fd)
    ensures Reaches(n, t)
    ensures var f := Cur(s, w);
            t == s.(active := s.active - 1, workers := s.workers[w := s.workers[w].(pc := IdleCheck)],
                    calls := s.calls + [Call(k, None, {}, false, true)], table := Add(s.table, k, f, false, true),
                    fibers := s.fibers[f := Fiber(HOLD, Waiting(|s.calls|, None), InSlot(k), None)])
  {
    t := BeginWait(n, s, w, k);
    t := Go(n, t, Code(w, AddEvent(true)));
    assert t.refused == s.refused;
    t := Suspend(n, t, w);
  }

  lemma GoToSleep(n: nat, s: State, w: nat, ms: nat) returns (t: State)
    requires Reaches(n, s) && Runs(s, w) && s.fibers[Cur(s, w)] == RunningOn(w, User) && s.clock + ms !in s.timers
    ensures Reaches(n, t)
    ensures var f := Cur(s, w); var d := s.clock + ms;
            t == InsertTimer(s, d, WakeSleeper(f)).(
                   fibers := s.fibers[f := Fiber(EXEC, Napping, InTimer(d), Some(w))])
  {
    t := Go(n, s, Code(w, SleepFor(ms)));
    t := Go(n, t, Code(w, SetTimer));
    assert t.handles == s.handles && t.fibers[Cur(s, w)] == Fiber(EXEC, Napping, InTimer(s.clock + ms), Some(w));
  }

  /** The running fiber goes to sleep, on a deadline nobody holds. */
  lemma Sleep(n: nat, s: State, w: nat, ms: nat) returns (t: State)
    requires Reaches(n, s) && Runs(s, w) && s.fibers[Cur(s, w)] == RunningOn(w, User) && s.clock + ms !in s.timers
    ensures Reaches(n, t)
    ensures var f := Cur(s, w); var d := s.clock + ms; var i := InsertTimer(s, d, WakeSleeper(f));
            t == i.(active := s.active - 1, workers := s.workers[w := s.workers[w].(pc := IdleCheck)],
                    fibers := s.fibers[f := Fiber(HOLD, Napping, InTimer(d), None)])
  {
    t := GoToSleep(n, s, w, ms);
    t := Suspend(n, t, w);
  }
}
