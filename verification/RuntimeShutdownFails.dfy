/** The program's own stopping test, three reads with gaps between them, is sound for one worker only. */
module RuntimeShutdownFails {
  import opened Common
  import opened Deadlines
  import opened Runtime
  import opened RuntimeInvariant
  import opened RuntimeShutdown
  import opened RuntimeScenarios

  /** All but workers, the idle counter and what only they read. */
  ghost predicate SameRest(s: State, t: State) {
    && t.clock == s.clock && t.tryStop == s.tryStop && t.table == s.table && t.queue == s.queue
    && t.fibers == s.fibers && t.timers == s.timers && t.active == s.active && t.misled == s.misled
    && t.handles == s.handles
  }

  predicate Stands(wk: Worker, pc: WorkerPc, done: bool) {
    wk.pc == pc && wk.idleDone == done
  }

  /** Only worker `w` has moved, to `pc`. */
  ghost predicate Moved(s: State, t: State, w: nat, pc: WorkerPc, done: bool) {
    && w < |s.workers| == |t.workers| && Stands(t.workers[w], pc, done)
    && forall v :: 0 <= v < |s.workers| && v != w ==> t.workers[v] == s.workers[v]
  }

  /** With an empty queue a worker goes on to its idle fiber, or leaves when that has ended. */
  lemma PassTop(n: nat, s: State, w: nat) returns (t: State)
    requires Reaches(n, s) && At(s, w, Top) && s.queue == []
    ensures Reaches(n, t) && SameRest(s, t)
    ensures Moved(s, t, w, if s.workers[w].idleDone then Left else Testing(0), s.workers[w].idleDone)
  {
    t := PassQueue(n, s, w);
    t := Go(n, t, Run(w, EnterIdle));
  }

  /** A worker that sees no work ends its idle fiber. */
  lemma PassTest(n: nat, s: State, w: nat, stage: nat) returns (t: State)
    requires Reaches(n, s) && At(s, w, Testing(stage)) && stage <= 1
    requires (stage == 0 ==> s.timers == map[]) && s.table.pending == 0 && SchedulerQuiet(s)
    ensures Reaches(n, t) && SameRest(s, t) && Moved(s, t, w, Top, true)
  {
    t := s;
    if stage == 0 {
      t := Go(n, t, Idle(w, TestTimers));
    }
    t := Go(n, t, Idle(w, TestPending));
    t := Go(n, t, Idle(w, TestQueue));
    t := Go(n, t, Idle(w, LeaveIdle));
  }

  /** All workers from `k` on pass an empty queue, see no work and leave. */
  lemma OthersLeave(n: nat, s: State, k: nat) returns (t: State)
    requires Reaches(n, s) && k <= |s.workers| == n && s.timers == map[] && s.table.pending == 0 && SchedulerQuiet(s)
    requires forall w :: k <= w < n ==> Stands(s.workers[w], Top, false)
    ensures Reaches(n, t) && SameRest(s, t) && |t.workers| == n
    ensures forall w :: 0 <= w < k ==> t.workers[w] == s.workers[w]
    ensures forall w :: k <= w < n ==> Stands(t.workers[w], Left, true)
    decreases n - k
  {
    t := s;
    if k < n {
      t := PassTop(n, t, k);
      t := PassTest(n, t, k, 0);
      t := PassTop(n, t, k);
      t := OthersLeave(n, t, k + 1);
    }
  }

  lemma MakeTimer(n: nat, s: State, w: nat, ms: nat) returns (t: State)
    requires Reaches(n, s) && Runs(s, w) && s.fibers[Cur(s, w)] == RunningOn(w, User) && s.timers == map[]
    ensures Reaches(n, t)
    ensures t == s.(timers := map[s.clock + ms := UserTimer(|s.handles|)], handles := t.handles, tickled := t.tickled,
                    pipe := t.pipe, written := t.written)
    ensures t.handles == s.handles + [Handle(s.clock + ms, ms, false, true)]
  {
    t := Go(n, s, Code(w, AddTimer(ms, false)));
    t := Go(n, t, Code(w, SetTimer));
    assert t.fibers == s.fibers;
  }

  /** A running fiber makes one timer, puts it into the set and ends. */
  lemma WorkFiber(n: nat, s: State, w: nat, ms: nat) returns (t: State)
    requires Reaches(n, s) && Runs(s, w) && s.fibers[Cur(s, w)] == RunningOn(w, User) && s.timers == map[]
    ensures Reaches(n, t) && Moved(s, t, w, IdleCheck, s.workers[w].idleDone)
    ensures t.clock == s.clock && t.tryStop == s.tryStop && t.table == s.table && t.queue == s.queue
    ensures t.misled == s.misled && t.handles == s.handles + [Handle(s.clock + ms, ms, false, true)]
    ensures t.active == s.active - 1 && t.timers == map[s.clock + ms := UserTimer(|s.handles|)]
  {
    t := MakeTimer(n, s, w, ms);
    t := Go(n, t, Code(w, Finish(false)));
    t := Suspend(n, t, w);
  }

  ghost predicate Stopping(n: nat, t: State) {
    t.queue == [] && t.clock == 0 && t.tryStop && t.table.pending == 0 && |t.workers| == n && !t.misled
  }

  /** Worker 0 has run a fiber that armed a timer; work from outside has ended. */
  lemma TimerArmed(n: nat) returns (t: State)
    requires n >= 1
    ensures Reaches(n, t) && Stopping(n, t) && t.timers == map[0 := UserTimer(0)] && t.active == 0
    ensures t.handles == [Handle(0, 0, false, true)]
    ensures Stands(t.workers[0], IdleCheck, false) && forall w :: 1 <= w < n ==> Stands(t.workers[w], Top, false)
  {
    ReachesInitial(n);
    assert forall w :: 0 <= w < n ==> Initial(n).workers[w] == Fresh;
    t := NewFiber(n, Initial(n), 0);
    t := Go(n, t, Env(RequestStop));
    t := WorkFiber(n, t, 0, 0);
  }

  /** A timer that does not recur is not put back. */
  lemma OneExpires(s: State)
    requires s.timers == map[0 := UserTimer(0)] && s.clock == 0 && s.handles == [Handle(0, 0, false, true)]
    ensures Due(s.timers, 0) == map[0 := UserTimer(0)]
    ensures Rearmed(Later(s.timers, 0), Due(s.timers, 0), (cb: Callback) => Period(s.handles, cb), 0) == map[]
  {
    assert Due(s.timers, 0) == map[0 := UserTimer(0)] && Later(s.timers, 0) == map[];
    assert Wishes(Due(s.timers, 0), (cb: Callback) => Period(s.handles, cb), 0) == {};
  }

  /** Worker 1 then takes the due callback into its hand. */
  lemma CallbackInHand(n: nat) returns (t: State)
    requires n >= 2
    ensures Reaches(n, t) && Stopping(n, t) && t.timers == map[] && t.active == 0
    ensures Stands(t.workers[0], IdleCheck, false) && forall w :: 2 <= w < n ==> Stands(t.workers[w], Top, false)
    ensures Stands(t.workers[1], Scheduling(map[0 := UserTimer(0)]), false) && t.workers[1].reports == []
  {
    t := TimerArmed(n);
    t := PassTop(n, t, 1);
    FrontOfOne(0, UserTimer(0));
    t := Go(n, t, Idle(1, TestTimers));
    t := Go(n, t, Idle(1, Wake([])));
    OneExpires(t);
    t := Go(n, t, Idle(1, ListExpired));
  }

  /** Worker 0 and all others but worker 1 see no work: the callback is in nobody's count. */
  lemma OnlyOneStillThere(n: nat) returns (t: State)
    requires n >= 2
    ensures Reaches(n, t) && Stopping(n, t) && t.timers == map[] && t.active == 0
    ensures Stands(t.workers[0], Top, true) && forall w :: 2 <= w < n ==> Stands(t.workers[w], Left, true)
    ensures Stands(t.workers[1], Scheduling(map[0 := UserTimer(0)]), false) && t.workers[1].reports == []
  {
    t := CallbackInHand(n);
    t := Go(n, t, Run(0, EnterIdle));
    t := PassTest(n, t, 0, 0);
    t := OthersLeave(n, t, 2);
  }

  /** Worker 1 schedules the callback, and worker 0 takes and starts it. */
  lemma CallbackTaken(n: nat) returns (t: State)
    requires n >= 2
    ensures Reaches(n, t) && Stopping(n, t) && t.timers == map[] && t.active == 1
    ensures Runs(t, 0) && t.fibers[Cur(t, 0)] == RunningOn(0, User) && t.workers[0].idleDone
    ensures Stands(t.workers[1], Scheduling(map[]), false) && t.workers[1].reports == []
    ensures forall w :: 2 <= w < n ==> Stands(t.workers[w], Left, true)
  {
    t := OnlyOneStillThere(n);
    t := Go(n, t, Idle(1, ScheduleExpired(0)));
    assert t.workers[1].pc == Scheduling(map[]);
    assert QueueStates(t)[0] == INIT;
    t := Go(n, t, Run(0, Take));
    t := Go(n, t, Run(0, Resume));
  }

  /** Worker 1 goes round and reads the timers: none. */
  lemma TimersReadTooEarly(n: nat) returns (t: State)
    requires n >= 2
    ensures Reaches(n, t) && Stopping(n, t) && t.timers == map[] && t.active == 1
    ensures Runs(t, 0) && t.fibers[Cur(t, 0)] == RunningOn(0, User) && t.workers[0].idleDone
    ensures Stands(t.workers[1], Testing(1), false) && forall w :: 2 <= w < n ==> Stands(t.workers[w], Left, true)
  {
    t := CallbackTaken(n);
    t := Go(n, t, Idle(1, HandDone));
    t := Rise(n, t, 1);
    t := PassTop(n, t, 1);
    t := Go(n, t, Idle(1, TestTimers));
  }

  /** Worker 0 runs the callback, which arms a timer, and leaves. */
  lemma CallbackArmsTimer(n: nat) returns (t: State)
    requires n >= 2
    ensures Reaches(n, t) && Stopping(n, t) && 5 in t.timers && t.active == 0
    ensures Stands(t.workers[1], Testing(1), false)
    ensures forall w :: 0 <= w < n && w != 1 ==> Stands(t.workers[w], Left, true)
  {
    t := TimersReadTooEarly(n);
    t := WorkFiber(n, t, 0, 5);
    t := Go(n, t, Run(0, EnterIdle));
  }

  /** Worker 1 finishes its test and leaves too. */
  lemma TimerLeftBehind(n: nat) returns (t: State)
    requires n >= 2
    ensures Reaches(n, t) && AllLeft(t) && 5 in t.timers && !t.misled
  {
    t := CallbackArmsTimer(n);
    t := PassTest(n, t, 1, 1);
    t := PassTop(n, t, 1);
  }

  /** Outside work that nobody takes: with no worker at all everyone has left from the start. */
  lemma NobodyTakesOutsideWork() returns (s: State)
    ensures Reaches(0, s) && AllLeft(s) && |s.queue| == 1 && !s.misled
  {
    ReachesInitial(0);
    s := Go(0, Initial(0), Env(Outside));
  }

  /** So with any number of workers but one there is a run that leaves something behind. */
  lemma WorkStays(n: nat) returns (s: State)
    requires n != 1
    ensures Reaches(n, s) && AllLeft(s) && !NoWork(s) && !s.misled
  {
    if n == 0 {
      s := NobodyTakesOutsideWork();
    } else {
      s := TimerLeftBehind(n);
      assert 5 in s.timers;
    }
  }

  /** With the stopping test the program makes, and unless it reads a front that is one millisecond overdue or a
      fiber of a refused addition is scheduled, nothing is ever left behind exactly when there is one worker. */
  lemma SafeShutdownIffOneWorker(n: nat)
    ensures SafeShutdown(n) <==> n == 1
  {
    if n == 1 {
      SoleWorkerShutsDownSafely();
    } else {
      var s := WorkStays(n);
      var acts :| RunTo(n, acts, s);
      assert AllLeft(s) && !NoWork(s);
    }
  }

  lemma Append(acts: seq<Action>, s: State, a: Action) returns (longer: seq<Action>, t: State)
    requires Legal(Initial(1), acts) && Exec(Initial(1), acts) == s && Enabled(s, a)
    requires (forall i :: 0 <= i < |acts| ==> Split(acts[i])) && Split(a)
    ensures t == Next(s, a) && Legal(Initial(1), longer) && Exec(Initial(1), longer) == t
    ensures forall i :: 0 <= i < |longer| ==> Split(longer[i])
  {
    Snoc(Initial(1), acts, a);
    longer, t := acts + [a], Next(s, a);
  }

  /** The only worker reads its timers one millisecond late and sees none. */
  lemma OverdueReadAsNone() returns (acts: seq<Action>, s: State)
    ensures Legal(Initial(1), acts) && Exec(Initial(1), acts) == s && forall i :: 0 <= i < |acts| ==> Split(acts[i])
    ensures s.crash == NoCrash && |s.workers| == 1 && Stands(s.workers[0], Testing(1), false)
    ensures s.timers == map[0 := UserTimer(0)]
    ensures s.queue == [] && s.table.pending == 0 && s.active == 0 && s.tryStop
  {
    var s1 := TimerArmed(1);
    var s2 := Go(1, s1, Env(Tick(1)));
    s := Go(1, s2, Run(0, EnterIdle));
    acts :| RunTo(1, acts, s);
    FrontOfOne(0, UserTimer(0));
    assert TimersLookEmpty(s);
    acts, s := Append(acts, s, Idle(0, TestTimers));
  }

  /** Without exact timer reads even one worker leaves a timer behind: it is one millisecond overdue, which the
      unsigned difference turns into "no timer". */
  lemma OverdueTimerLeftBehind() returns (acts: seq<Action>)
    ensures Legal(Initial(1), acts) && AllLeft(Exec(Initial(1), acts)) && forall i :: 0 <= i < |acts| ==> Split(acts[i])
    ensures Exec(Initial(1), acts).timers == map[0 := UserTimer(0)]
  {
    var s;
    acts, s := OverdueReadAsNone();
    acts, s := Append(acts, s, Idle(0, TestPending));
    acts, s := Append(acts, s, Idle(0, TestQueue));
    acts, s := Append(acts, s, Idle(0, LeaveIdle));
    acts, s := Append(acts, s, Run(0, Take));
    acts, s := Append(acts, s, Run(0, EnterIdle));
  }
}
