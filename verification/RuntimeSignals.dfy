/** Who learns of an earlier deadline: what holds for any number of workers, and for how many the tickle that tells of
    it is sure to be still unread. */
module RuntimeSignals {
  import opened Common
  import opened EventTable
  import opened Deadlines
  import opened Runtime
  import opened RuntimeFrame
  import opened RuntimeCounters
  import opened RuntimeWatch
  import opened RuntimeInvariant
  import opened RuntimeScenarios

  /** No missed earliest deadline, for any number of workers: when the worker that read the front deadline last has
      not woken yet and an earlier deadline is held, the front flag is up and a tickle has been written since that
      read; provided that no `refresh` since has moved a timer to an earlier deadline than it had. */
  lemma NoMissedDeadline(n: nat, acts: seq<Action>, d: nat)
    requires Legal(Initial(n), acts)
    requires var s := Exec(Initial(n), acts);
             Watched(s) && !s.hushed && d in s.timers && Before(d, s.workers[s.reader.value].saw)
    ensures var s := Exec(Initial(n), acts); s.tickled && s.written
  {
    ReachableInv(n, acts);
  }

  /** Exactly which step leaves an earlier deadline untold: a `refresh` that puts a timer before the front the last
      reader saw while the front flag is down. Then it has moved the timer to an earlier deadline than it had. */
  lemma UntoldIff(s: State, a: Action)
    requires Counted(s) && Enabled(s, a) && Watched(s) && Told(s)
    ensures !Told(Next(s, a)) <==>
              && a.Code? && a.c.RefreshTimer? && CanMove(s, a.c.t) && !s.tickled
              && Before(s.clock + s.handles[a.c.t].ms, s.workers[s.reader.value].saw)
    ensures !Told(Next(s, a)) ==> s.clock + s.handles[a.c.t].ms < s.handles[a.c.t].next
  {
    if a.Code? && a.c.RefreshTimer? {
      RefreshUntoldIff(s, a.w, a.c.t);
    } else {
      OthersTell(s, a);
    }
  }

  /** Every deadline before the front that the last reader saw has raised the flag. */
  ghost predicate Told(s: State) {
    s.reader.Some? && s.reader.value < |s.workers| ==>
      forall d :: d in s.timers && Before(d, s.workers[s.reader.value].saw) ==> s.tickled
  }

  lemma RefreshUntoldIff(s: State, w: nat, h: nat)
    requires Watched(s) && Told(s) && Runs(s, w) && CodeEnabled(s, w, RefreshTimer(h))
    ensures var t := RefreshTimerStep(s, h);
            && t.reader == s.reader && |t.workers| == |s.workers|
            && (!Told(t) <==> CanMove(s, h) && !s.tickled
                              && Before(s.clock + s.handles[h].ms, s.workers[s.reader.value].saw))
            && (!Told(t) ==> s.clock + s.handles[h].ms < s.handles[h].next)
  {
    var t := RefreshTimerStep(s, h);
    var d := s.clock + s.handles[h].ms;
    if CanMove(s, h) {
      assert d in t.timers;
      assert Before(s.handles[h].next, s.workers[s.reader.value].saw) ==> s.tickled;
    }
  }

  lemma OthersTell(s: State, a: Action)
    requires Counted(s) && Enabled(s, a) && Watched(s) && Told(s) && !(a.Code? && a.c.RefreshTimer?)
    ensures Told(Next(s, a))
  {
    WatcherIsIdle(s);
    match a
    case Env(e) => NoNewsTells(s, EnvNext(s, e));
    case Run(w, r) =>
      RunIsNoNews(s, w, r);
      NoNewsTells(s, RunNext(s, w, r));
    case Idle(w, i) => IdleTells(s, w, i);
    case Code(w, c) => CodeTells(s, w, c);
  }

  lemma NoNewsTells(s: State, t: State)
    requires Watched(s) && Told(s) && NoNews(s, t)
    ensures Told(t)
  {
  }

  lemma IdleTells(s: State, w: nat, i: IdleAction)
    requires w < |s.workers| && IdleEnabled(s, w, i) && Watched(s) && Told(s)
    ensures Told(IdleNext(s, w, i))
  {
    if i.TestTimers? || i.TestAll? {
      TestTells(s, w, i);
    } else if i.ListExpired? {
      forall e | e in ListStep(s, w).timers && Before(e, s.workers[s.reader.value].saw) ensures s.tickled {
        if e !in s.timers {
          var d := RearmsLater(s, w, e);
        }
      }
    } else {
      IdleIsNoNews(s, w, i);
      NoNewsTells(s, IdleNext(s, w, i));
    }
  }

  lemma TestTells(s: State, w: nat, i: IdleAction)
    requires w < |s.workers| && IdleEnabled(s, w, i) && (i.TestTimers? || i.TestAll?)
    ensures Told(IdleNext(s, w, i))
  {
    forall d | d in s.timers ensures !Before(d, Front(s.timers)) {
      assert d in s.timers.Keys;
    }
  }

  lemma CodeTells(s: State, w: nat, c: CodeAction)
    requires Watched(s) && Told(s) && s.idle > 0 && Runs(s, w) && CodeEnabled(s, w, c) && !c.RefreshTimer?
    ensures CodeNext(s, w, c).reader == s.reader && CodeNext(s, w, c).workers == s.workers && Told(CodeNext(s, w, c))
  {
    CodeMoves(s, w, c);
    match c
    case SetTimer => InsertTellsAll(s, s, SetTimerStep(s, w), CurPc(s, w).d, JobOf(CurPc(s, w).purpose, Cur(s, w)));
    case ResetTimer(h, ms, fromNow) => ResetTellsAll(s, h, ms, fromNow);
    case _ =>
  }

  lemma InsertTellsAll(s: State, m: State, t: State, d: nat, cb: Callback)
    requires Watched(s) && Told(s) && (forall e :: e in m.timers ==> e in s.timers) && m.tickled == s.tickled
    requires t.timers == InsertTimer(m, d, cb).timers && t.tickled == InsertTimer(m, d, cb).tickled
             && t.reader == s.reader && t.workers == s.workers
    ensures Told(t)
  {
    var held := Insert(m.timers, d, cb);
    if Before(d, s.workers[s.reader.value].saw) && !AtFront(held, d) {
      var k :| k in held && k < d;
      assert k in s.timers && Before(k, s.workers[s.reader.value].saw);
    }
  }

  lemma ResetTellsAll(s: State, h: nat, ms: nat, fromNow: bool)
    requires Watched(s) && Told(s) && h < |s.handles|
    ensures Told(ResetTimerStep(s, h, ms, fromNow))
  {
    if !(ms == s.handles[h].ms && !fromNow) && CanMove(s, h) {
      InsertTellsAll(s, EraseTimer(s, s.handles[h].next), ResetTimerStep(s, h, ms, fromNow),
                     if fromNow then s.clock + ms else s.handles[h].next, UserTimer(h));
    }
  }

  /** While every worker waits, the one that went to wait last has seen exactly the front deadline, for any number of
      workers and whatever was refreshed. */
  lemma AllAsleepSawTheFront(n: nat, acts: seq<Action>)
    requires n > 0 && Legal(Initial(n), acts)
    requires forall w :: 0 <= w < n ==> At(Exec(Initial(n), acts), w, Sleeping)
    ensures var s := Exec(Initial(n), acts);
            s.reader.Some? && s.reader.value < |s.workers| && s.workers[s.reader.value].saw == Front(s.timers)
  {
    ReachableInv(n, acts);
    var s := Exec(Initial(n), acts);
    assert At(s, 0, Sleeping);
    forall v | 0 <= v < n ensures InWindow(s.workers[v].pc) {
      assert At(s, v, Sleeping);
    }
  }

  /** So its wait ends by the front deadline, or by the cap where that is nearer, exactly when the front was not overdue
      at its reading. */
  lemma AllAsleepEndsInTimeIff(n: nat, acts: seq<Action>, d: nat)
    requires n > 0 && Legal(Initial(n), acts)
    requires forall w :: 0 <= w < n ==> At(Exec(Initial(n), acts), w, Sleeping)
    requires Front(Exec(Initial(n), acts).timers) == Some(d) && d < TWO_64
    ensures var s := Exec(Initial(n), acts);
            && s.reader.Some? && s.reader.value < |s.workers|
            && var wk := s.workers[s.reader.value];
            && (wk.readAt < TWO_64 ==>
                  (wk.readAt + WaitTime(Remaining(wk.saw, wk.readAt))
                     <= (if d < wk.readAt + MAX_TIMEOUT then d else wk.readAt + MAX_TIMEOUT)
                   <==> wk.readAt <= d))
  {
    AllAsleepSawTheFront(n, acts);
    var s := Exec(Initial(n), acts);
    if s.workers[s.reader.value].readAt < TWO_64 {
      OverdueFrontWaitsForCap(d, s.workers[s.reader.value].readAt);
    }
  }

  // ---- the tickle is still unread: at most two workers, for the last reader ----

  ghost predicate LastReaderMisses(s: State, d: nat) {
    && !s.hushed && Watched(s) && s.workers[s.reader.value].pc == Sleeping
    && d in s.timers && Before(d, s.workers[s.reader.value].saw) && s.pipe == 0
  }

  /** In no run does the last reader wait while an earlier deadline is held and the pipe is empty, unless a `refresh`
      has moved a timer earlier since it read. */
  ghost predicate LastReaderKeepsByte(n: nat) {
    forall acts, d :: Legal(Initial(n), acts) ==> !LastReaderMisses(Exec(Initial(n), acts), d)
  }

  /** Past its read and not back in the queue: it may drain the pipe before it reads again. */
  predicate MayDrain(pc: WorkerPc) {
    InWindow(pc) || pc.Listing? || pc.Scheduling? || pc.Handling?
  }

  ghost predicate ByteKept(s: State) {
    Watched(s) && s.written ==>
      s.pipe > 0 && forall v :: 0 <= v < |s.workers| && v != s.reader.value ==> !MayDrain(s.workers[v].pc)
  }

  lemma RunKeepsByte(s: State, w: nat, r: RunAction)
    requires ByteKept(s) && w < |s.workers| && RunEnabled(s, w, r)
    ensures ByteKept(RunNext(s, w, r))
  {
  }

  lemma IdleKeepsByte(s: State, w: nat, i: IdleAction)
    requires ByteKept(s) && w < |s.workers| && IdleEnabled(s, w, i)
    ensures ByteKept(IdleNext(s, w, i))
  {
  }

  /** With two workers the one that inserts a timer is the only other one. */
  lemma CodeKeepsByte(s: State, w: nat, c: CodeAction)
    requires ByteKept(s) && |s.workers| <= 2 && Runs(s, w) && CodeEnabled(s, w, c)
    ensures ByteKept(CodeNext(s, w, c))
  {
    WorkersStay(s, w, c);
    CodeAddsBytes(s, w, c);
    BytesKept(s, CodeNext(s, w, c), w);
  }

  lemma BytesKept(s: State, t: State, w: nat)
    requires ByteKept(s) && |s.workers| <= 2 && Runs(s, w) && WorkersStand(s, t)
    requires t.pipe >= s.pipe && (t.written ==> s.written || t.pipe > 0)
    ensures ByteKept(t)
  {
    assert !MayDrain(s.workers[w].pc);
    assert Watched(t) ==> Watched(s);
  }

  lemma CodeAddsBytes(s: State, w: nat, c: CodeAction)
    requires Runs(s, w) && CodeEnabled(s, w, c)
    ensures CodeNext(s, w, c).pipe >= s.pipe && (CodeNext(s, w, c).written ==> s.written || CodeNext(s, w, c).pipe > 0)
  {
    if !Inserts(c) {
      CodeMoves(s, w, c);
    }
  }

  lemma StepKeepsByte(s: State, a: Action)
    requires ByteKept(s) && |s.workers| <= 2 && Enabled(s, a)
    ensures ByteKept(Next(s, a))
  {
    match a
    case Env(_) =>
    case Run(w, r) => RunKeepsByte(s, w, r);
    case Idle(w, i) => IdleKeepsByte(s, w, i);
    case Code(w, c) => CodeKeepsByte(s, w, c);
  }

  lemma {:induction false} TwoWorkersKeepByte(s: State, acts: seq<Action>)
    requires Inv(s) && ByteKept(s) && |s.workers| <= 2 && Legal(s, acts)
    ensures ByteKept(Exec(s, acts))
    decreases |acts|
  {
    if acts != [] {
      StepKeepsInv(s, acts[0]);
      StepKeepsByte(s, acts[0]);
      TwoWorkersKeepByte(Next(s, acts[0]), acts[1..]);
    }
  }

  lemma LastReaderHasByte(n: nat, acts: seq<Action>, d: nat)
    requires n <= 2 && Legal(Initial(n), acts)
    ensures !LastReaderMisses(Exec(Initial(n), acts), d)
  {
    InitialInv(n);
    TwoWorkersKeepByte(Initial(n), acts);
    if LastReaderMisses(Exec(Initial(n), acts), d) {
      NoMissedDeadline(n, acts, d);
    }
  }

  /** A running fiber makes a timer for deadline 5, in front of none, and one worker at least is idle; the first timer
      of the user. */
  lemma TimerForFive(n: nat, s: State, w: nat) returns (t: State)
    requires Reaches(n, s) && Runs(s, w) && s.fibers[Cur(s, w)] == RunningOn(w, User)
    requires s.clock == 0 && s.timers == map[] && !s.tickled && s.pipe == 0 && s.idle > 0 && s.handles == []
    ensures Reaches(n, t)
    ensures t == s.(timers := map[5 := UserTimer(0)], handles := [Handle(5, 5, false, true)], tickled := true,
                    pipe := 1, written := true)
  {
    t := MakesFive(n, s, w);
    t := Go(n, t, Code(w, SetTimer));
    assert t.fibers == s.fibers && t.handles == [Handle(5, 5, false, true)];
  }

  lemma MakesFive(n: nat, s: State, w: nat) returns (t: State)
    requires Reaches(n, s) && Runs(s, w) && s.fibers[Cur(s, w)] == RunningOn(w, User) && s.clock == 0 && s.handles == []
    ensures Reaches(n, t)
    ensures t == s.(fibers := s.fibers[Cur(s, w) := RunningOn(w, Setting(ForUser(0), 5))],
                    handles := [Handle(5, 5, false, false)])
  {
    t := Go(n, s, Code(w, AddTimer(5, false)));
    assert t.handles == [Handle(5, 5, false, false)];
  }

  /** A worker is woken by the tickle and drains it. */
  lemma DrainByte(n: nat, s: State, w: nat) returns (t: State)
    requires Reaches(n, s) && At(s, w, Sleeping) && s.pipe == 1 && s.clock == 0 && s.timers == map[5 := UserTimer(0)]
    ensures Reaches(n, t)
    ensures t == s.(pipe := 0, workers := s.workers[w := s.workers[w].(pc := Handling, reports := [])])
  {
    t := WakeWith(n, s, w, [FromPipe]);
    t := DrainFirst(n, t, w);
  }

  lemma DrainFirst(n: nat, s: State, w: nat) returns (t: State)
    requires Reaches(n, s) && At(s, w, Handling) && s.workers[w].reports == [FromPipe]
    ensures Reaches(n, t) && t == s.(pipe := 0, workers := s.workers[w := s.workers[w].(reports := [])])
  {
    t := Go(n, s, Idle(w, Drain));
    assert [FromPipe][1..] == [];
  }

  /** Workers 0 and 1 wait, worker 2 inserts a timer, and the tickle wakes worker 0, not the last reader. */
  lemma StolenTickle(n: nat) returns (t: State)
    requires n >= 3
    ensures Reaches(n, t) && LastReaderMisses(t, 5) && t.clock > 5
  {
    ReachesInitial(n);
    t := PassQueue(n, Initial(n), 0);
    t := Doze(n, t, 0);
    t := PassQueue(n, t, 1);
    t := Doze(n, t, 1);
    t := NewFiber(n, t, 2);
    t := TimerForFive(n, t, 2);
    t := DrainByte(n, t, 0);
    t := Go(n, t, Env(Tick(6)));
  }

  /** The last reader is sure to find the tickle exactly when there are at most two workers. */
  lemma LastReaderKeepsByteIffTwo(n: nat)
    ensures LastReaderKeepsByte(n) <==> n <= 2
  {
    if n <= 2 {
      forall acts, d | Legal(Initial(n), acts) ensures !LastReaderMisses(Exec(Initial(n), acts), d) {
        LastReaderHasByte(n, acts, d);
      }
    } else {
      var s := StolenTickle(n);
      var acts :| RunTo(n, acts, s);
      assert LastReaderMisses(Exec(Initial(n), acts), 5);
    }
  }

  // ---- with refreshes that move earlier: at most one ----

  ghost predicate LastReaderMissesAnyhow(s: State, d: nat) {
    && Watched(s) && s.workers[s.reader.value].pc == Sleeping
    && d in s.timers && Before(d, s.workers[s.reader.value].saw) && s.pipe == 0
  }

  ghost predicate LastReaderAlwaysKeepsByte(n: nat) {
    forall acts, d :: Legal(Initial(n), acts) ==> !LastReaderMissesAnyhow(Exec(Initial(n), acts), d)
  }

  /** A fiber on worker 0 has a timer for deadline 50 with a period shortened to 1. */
  lemma ShortenedTimer(n: nat) returns (t: State)
    requires n >= 2
    ensures Reaches(n, t) && |t.workers| == n && Runs(t, 0) && CurPc(t, 0) == User && At(t, 1, Top)
    ensures t.workers[1] == Fresh && t.queue == [] && !t.tryStop && t.clock == 0 && t.pipe == 0
    ensures t.timers == map[50 := UserTimer(0)] && t.handles == [Handle(50, 1, false, true)]
  {
    ReachesInitial(n);
    t := NewFiber(n, Initial(n), 0);
    t := TimerForFifty(n, t);
    t := Go(n, t, Code(0, ResetTimer(0, 1, false)));
  }

  lemma TimerForFifty(n: nat, s: State) returns (t: State)
    requires Reaches(n, s) && Runs(s, 0) && CurPc(s, 0) == User
    requires s.clock == 0 && s.timers == map[] && s.handles == [] && s.idle == 0 && s.pipe == 0
    ensures Reaches(n, t)
    ensures t == s.(timers := map[50 := UserTimer(0)], handles := [Handle(50, 50, false, true)], fibers := s.fibers,
                    tickled := t.tickled)
  {
    t := Go(n, s, Code(0, AddTimer(50, false)));
    t := Go(n, t, Code(0, SetTimer));
    assert t.fibers == s.fibers;
  }

  /** Worker 1 reads 50 and waits; then the timer is refreshed to deadline 1, and nobody is told. */
  lemma RefreshedUntold(n: nat) returns (t: State)
    requires n >= 2
    ensures Reaches(n, t) && LastReaderMissesAnyhow(t, 1) && !t.tickled && t.hushed
  {
    t := ShortenedTimer(n);
    t := PassQueue(n, t, 1);
    FrontOfOne(50, UserTimer(0));
    t := Doze(n, t, 1);
    t := Go(n, t, Code(0, RefreshTimer(0)));
  }

  /** Refreshes or not, the last reader is sure to find the tickle exactly when there is at most one worker. */
  lemma LastReaderAlwaysKeepsByteIffOne(n: nat)
    ensures LastReaderAlwaysKeepsByte(n) <==> n <= 1
  {
    if n <= 1 {
      forall acts, d | Legal(Initial(n), acts) ensures !LastReaderMissesAnyhow(Exec(Initial(n), acts), d) {
        var s := Exec(Initial(n), acts);
        if Watched(s) {
          SoleSleeperSawTheFront(n, acts, s.reader.value, d);
        }
      }
    } else {
      var s := RefreshedUntold(n);
      var acts :| RunTo(n, acts, s);
      assert LastReaderMissesAnyhow(Exec(Initial(n), acts), 1);
    }
  }

  // ---- the same for every waiting worker: at most one ----

  ghost predicate SleeperMisses(s: State, w: nat, d: nat) {
    At(s, w, Sleeping) && d in s.timers && Before(d, s.workers[w].saw) && s.pipe == 0
  }

  /** In no run does any worker wait past an earlier deadline with the pipe empty. */
  ghost predicate EverySleeperKeepsByte(n: nat) {
    forall acts, w, d :: Legal(Initial(n), acts) ==> !SleeperMisses(Exec(Initial(n), acts), w, d)
  }

  lemma SoleSleeperSawTheFront(n: nat, acts: seq<Action>, w: nat, d: nat)
    requires n <= 1 && Legal(Initial(n), acts)
    ensures !SleeperMisses(Exec(Initial(n), acts), w, d)
  {
    ReachableInv(n, acts);
    var s := Exec(Initial(n), acts);
    if At(s, w, Sleeping) {
      AllAsleepSawTheFront(n, acts);
      assert s.reader == Some(w);
      assert d in s.timers ==> d in s.timers.Keys;
    }
  }

  /** The running fiber returns, and its worker goes on to the idle fiber. */
  lemma EndFiber(n: nat, s: State, w: nat) returns (t: State)
    requires Reaches(n, s) && Runs(s, w) && CurPc(s, w) == User
    ensures Reaches(n, t)
    ensures t == s.(active := s.active - 1, workers := s.workers[w := s.workers[w].(pc := IdleCheck)],
                    fibers := t.fibers)
  {
    t := Go(n, s, Code(w, Finish(false)));
    t := Suspend(n, t, w);
  }

  lemma TimerWhileOneWaits(n: nat) returns (t: State)
    requires n >= 2
    ensures Reaches(n, t) && |t.workers| == n && At(t, 1, Sleeping) && t.workers[1].saw == None
    ensures At(t, 0, IdleCheck) && !t.workers[0].idleDone && !t.tryStop
    ensures t.clock == 0 && t.timers == map[5 := UserTimer(0)] && t.pipe == 1
  {
    ReachesInitial(n);
    t := PassQueue(n, Initial(n), 1);
    t := Doze(n, t, 1);
    t := NewFiber(n, t, 0);
    t := TimerForFive(n, t, 0);
    t := EndFiber(n, t, 0);
  }

  /** Worker 1 waits; worker 0 inserts a timer, goes to wait itself, and takes the tickle. */
  lemma OwnTickleTaken(n: nat) returns (t: State)
    requires n >= 2
    ensures Reaches(n, t) && SleeperMisses(t, 1, 5)
  {
    t := TimerWhileOneWaits(n);
    FrontOfOne(5, UserTimer(0));
    t := Doze(n, t, 0);
    t := DrainByte(n, t, 0);
  }

  /** Every waiting worker is sure to find the tickle exactly when there is at most one. */
  lemma EverySleeperKeepsByteIffOne(n: nat)
    ensures EverySleeperKeepsByte(n) <==> n <= 1
  {
    if n <= 1 {
      forall acts, w, d | Legal(Initial(n), acts) ensures !SleeperMisses(Exec(Initial(n), acts), w, d) {
        SoleSleeperSawTheFront(n, acts, w, d);
      }
    } else {
      var s := OwnTickleTaken(n);
      var acts :| RunTo(n, acts, s);
      assert SleeperMisses(Exec(Initial(n), acts), 1, 5);
    }
  }

  // ---- a single idle worker among any number ----

  /** While `w` waits, no other worker is in its idle fiber and `w` only finishes its stopping test. */
  predicate AloneInIdle(a: Action, w: nat) {
    a.Idle? ==> a.w == w && (a.i.TestPending? || a.i.TestQueue?)
  }

  /** The last reader waits and what was written since its read is unread. */
  ghost predicate Unread(s: State, w: nat) {
    s.reader == Some(w) && w < |s.workers| && InWindow(s.workers[w].pc) && (s.written ==> s.pipe > 0)
  }

  lemma AloneRunStep(s: State, v: nat, r: RunAction, w: nat)
    requires v < |s.workers| && RunEnabled(s, v, r) && Unread(s, w)
    ensures Unread(RunNext(s, v, r), w)
  {
  }

  lemma AloneStep(s: State, a: Action, w: nat)
    requires Enabled(s, a) && AloneInIdle(a, w) && Unread(s, w)
    ensures Unread(Next(s, a), w) || Gone(Next(s, a), w)
  {
    match a
    case Env(_) =>
    case Run(v, r) => AloneRunStep(s, v, r, w);
    case Idle(v, i) => AloneIdleStep(s, v, i, w);
    case Code(v, c) => AloneCodeStep(s, v, c, w);
  }

  lemma AloneIdleStep(s: State, v: nat, i: IdleAction, w: nat)
    requires v < |s.workers| && IdleEnabled(s, v, i) && AloneInIdle(Idle(v, i), w) && Unread(s, w)
    ensures Unread(IdleNext(s, v, i), w) || Gone(IdleNext(s, v, i), w)
  {
  }

  lemma AloneCodeStep(s: State, v: nat, c: CodeAction, w: nat)
    requires Runs(s, v) && CodeEnabled(s, v, c) && Unread(s, w)
    ensures Unread(CodeNext(s, v, c), w)
  {
    CodeMoves(s, v, c);
  }

  lemma {:induction false} AloneRun(s: State, acts: seq<Action>, w: nat)
    requires Legal(s, acts) && (forall i :: 0 <= i < |acts| ==> AloneInIdle(acts[i], w)) && Unread(s, w)
    ensures Unread(Exec(s, acts), w) || Gone(Exec(s, acts), w)
    decreases |acts|
  {
    if acts != [] {
      assert AloneInIdle(acts[0], w);
      AloneStep(s, acts[0], w);
      var t := Next(s, acts[0]);
      assert forall i :: 0 <= i < |acts[1..]| ==> acts[1..][i] == acts[i + 1];
      if Gone(t, w) {
        GoneStaysGone(t, acts[1..], w);
      } else {
        AloneRun(t, acts[1..], w);
      }
    }
  }

  /** Its idle fiber has ended and it is on its way out. */
  ghost predicate Gone(s: State, w: nat) {
    w < |s.workers| && s.workers[w].idleDone && !s.workers[w].pc.Sleeping? && !s.workers[w].pc.Testing?
  }

  lemma GoneStep(s: State, a: Action, w: nat)
    requires Enabled(s, a) && Gone(s, w)
    ensures Gone(Next(s, a), w)
  {
    match a
    case Env(_) =>
    case Run(v, r) => GoneRunStep(s, v, r, w);
    case Idle(v, i) => GoneIdleStep(s, v, i, w);
    case Code(v, c) => CodeMoves(s, v, c);
  }

  lemma GoneIdleStep(s: State, v: nat, i: IdleAction, w: nat)
    requires v < |s.workers| && IdleEnabled(s, v, i) && Gone(s, w)
    ensures Gone(IdleNext(s, v, i), w)
  {
  }

  lemma GoneRunStep(s: State, v: nat, r: RunAction, w: nat)
    requires v < |s.workers| && RunEnabled(s, v, r) && Gone(s, w)
    ensures Gone(RunNext(s, v, r), w)
  {
  }

  /** A worker whose idle fiber has ended does not sleep again. */
  lemma {:induction false} GoneStaysGone(s: State, acts: seq<Action>, w: nat)
    requires Legal(s, acts) && Gone(s, w)
    ensures Gone(Exec(s, acts), w)
    decreases |acts|
  {
    if acts != [] {
      GoneStep(s, acts[0], w);
      GoneStaysGone(Next(s, acts[0]), acts[1..], w);
    }
  }

  lemma ReadIsUnread(s: State, w: nat)
    requires w < |s.workers| && IdleEnabled(s, w, TestTimers)
    ensures Unread(IdleNext(s, w, TestTimers), w)
  {
  }

  lemma LoneSleeperFrom(s: State, w: nat, after: seq<Action>, d: nat)
    requires Inv(s) && Enabled(s, Idle(w, TestTimers)) && Legal(Next(s, Idle(w, TestTimers)), after)
    requires forall i :: 0 <= i < |after| ==> AloneInIdle(after[i], w)
    requires var t := Exec(Next(s, Idle(w, TestTimers)), after);
             At(t, w, Sleeping) && !t.hushed && d in t.timers && Before(d, t.workers[w].saw)
    ensures Exec(Next(s, Idle(w, TestTimers)), after).pipe > 0
  {
    var s1 := Next(s, Idle(w, TestTimers));
    StepKeepsInv(s, Idle(w, TestTimers));
    RunKeepsInv(s1, after);
    ReadIsUnread(s, w);
    AloneRun(s1, after, w);
    assert Watched(Exec(s1, after));
  }

  /** With a single idle worker among any number, the tickle is still there to end its wait: whatever the busy
      workers do after it has read the front, an earlier deadline that is held means an unread byte in the pipe, unless
      a `refresh` has moved a timer earlier since. */
  lemma LoneSleeperIsTickled(n: nat, before: seq<Action>, s: State, w: nat, after: seq<Action>, d: nat)
    requires Legal(Initial(n), before) && s == Exec(Initial(n), before)
    requires Enabled(s, Idle(w, TestTimers)) && Legal(Next(s, Idle(w, TestTimers)), after)
    requires forall i :: 0 <= i < |after| ==> AloneInIdle(after[i], w)
    requires var t := Exec(Next(s, Idle(w, TestTimers)), after);
             At(t, w, Sleeping) && !t.hushed && d in t.timers && Before(d, t.workers[w].saw)
    ensures Exec(Next(s, Idle(w, TestTimers)), after).pipe > 0
  {
    ReachableInv(n, before);
    LoneSleeperFrom(s, w, after, d);
  }

  // ---- the counters ----

  /** In every reachable state `n_active_thread_` and `n_idle_thread_` are exact, and the kernel waits for nothing but
      set bits; `n_pendingEvent_` is the number of bits behind which a fiber waits exactly until a fiber of a refused
      addition is scheduled, and smaller from then on. */
  lemma CountersExact(n: nat, acts: seq<Action>)
    requires Legal(Initial(n), acts)
    ensures var s := Exec(Initial(n), acts);
            && s.active == ActiveCount(s.workers) && s.idle == IdleCount(s.workers) && Within(s.table)
            && s.table.pending <= |Live(s)| && (s.table.pending == |Live(s)| <==> !s.misled)
  {
    ReachableInv(n, acts);
  }
}
