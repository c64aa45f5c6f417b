/** When every worker has left `run()`, is all work done? */
module RuntimeShutdown {
  import opened Deadlines
  import opened Runtime
  import opened RuntimeFrame
  import opened RuntimeCounters
  import opened RuntimeRegistry
  import opened RuntimeInvariant

  /** Nothing queued, held, in a worker's hand or running, and no fiber waiting behind a bit. */
  ghost predicate NoWork(s: State) {
    && s.queue == [] && s.timers == map[] && Live(s) == map[] && s.active == 0
    && forall w :: 0 <= w < |s.workers| && s.workers[w].pc.Scheduling? ==> s.workers[w].pc.hand == map[]
  }

  /** What the stopping test can see of it: the same with the pending counter in place of the bits. */
  ghost predicate LooksDone(s: State) {
    && s.queue == [] && s.timers == map[] && s.table.pending == 0 && s.active == 0 && s.tryStop
    && forall w :: 0 <= w < |s.workers| && s.workers[w].pc.Scheduling? ==> s.workers[w].pc.hand == map[]
  }

  ghost predicate AllLeft(s: State) {
    forall w :: 0 <= w < |s.workers| ==> s.workers[w].pc.Left?
  }

  ghost predicate AllDone(s: State) {
    forall w :: 0 <= w < |s.workers| ==> s.workers[w].idleDone
  }

  predicate InsideIdle(pc: WorkerPc) {
    pc.Testing? || pc.Sleeping? || pc.Listing? || pc.Scheduling? || pc.Handling?
  }

  /** A worker whose idle fiber has ended is not inside it; only such a worker leaves. */
  ghost predicate DoneShape(s: State) {
    forall w :: 0 <= w < |s.workers| ==>
      (s.workers[w].idleDone ==> !InsideIdle(s.workers[w].pc)) && (s.workers[w].pc.Left? ==> s.workers[w].idleDone)
  }

  /** What a worker has seen in the separate parts of the stopping test is still so. */
  ghost predicate SeenStillSo(s: State) {
    forall w :: 0 <= w < |s.workers| ==>
      (s.workers[w].pc == Testing(1) || s.workers[w].pc == Testing(2) ==> s.timers == map[])
      && (s.workers[w].pc == Testing(2) ==> s.table.pending == 0)
  }

  ghost predicate ShutdownInv(s: State) {
    DoneShape(s) && (AllDone(s) ==> LooksDone(s))
  }

  /** The stopping test as one step. */
  predicate Atomic(a: Action) {
    a.Idle? ==> !a.i.TestTimers? && !a.i.TestPending? && !a.i.TestQueue?
  }

  /** The stopping test as the program makes it, in three reads. */
  predicate Split(a: Action) {
    a.Idle? ==> !a.i.TestAll?
  }

  /** No timer read finds the front exactly one millisecond overdue, which it would take for no timer. */
  ghost predicate Exact(s: State, a: Action) {
    a.Idle? && (a.i.TestAll? || a.i.TestTimers?) ==> !OneOverdue(Front(s.timers), s.clock)
  }

  lemma ExactReadSeesAll(s: State, a: Action)
    requires Exact(s, a) && a.Idle? && (a.i.TestAll? || a.i.TestTimers?) && TimersLookEmpty(s)
    ensures s.timers == map[]
  {
    LooksEmptyIff(Front(s.timers), s.clock);
    assert s.timers.Keys == {};
  }

  ghost predicate ExactRun(s: State, acts: seq<Action>)
    requires Legal(s, acts)
    decreases |acts|
  {
    acts == [] || (Exact(s, acts[0]) && ExactRun(Next(s, acts[0]), acts[1..]))
  }

  /** What looks done is done unless a fiber of a refused addition has been scheduled: then somebody waits. */
  lemma DoneIffNotMisled(s: State)
    requires LiveCounted(s) && LooksDone(s)
    ensures NoWork(s) <==> !s.misled
  {
    assert |Live(s)| == 0 <==> Live(s) == map[];
  }

  lemma NoActiveWorker(s: State, w: nat)
    requires Counted(s) && s.active == 0 && w < |s.workers|
    ensures !IsActive(s.workers[w])
  {
  }

  lemma DoneRunStep(s: State, w: nat, r: RunAction)
    requires Counted(s) && s.active == 0 && AllDone(s) && LooksDone(s) && w < |s.workers| && RunEnabled(s, w, r)
    ensures LooksDone(RunNext(s, w, r))
  {
    NoActiveWorker(s, w);
  }

  lemma DoneIdleStep(s: State, w: nat, i: IdleAction)
    requires DoneShape(s) && AllDone(s) && LooksDone(s) && w < |s.workers| && IdleEnabled(s, w, i)
    ensures LooksDone(IdleNext(s, w, i))
  {
    assert i.LeaveIdle?;
  }

  /** Once all idle fibers have ended nothing makes new work. */
  lemma DoneStaysDone(s: State, a: Action)
    requires Counted(s) && ShutdownInv(s) && AllDone(s) && Enabled(s, a)
    ensures LooksDone(Next(s, a))
  {
    match a
    case Env(_) =>
    case Run(w, r) => DoneRunStep(s, w, r);
    case Idle(w, i) => DoneIdleStep(s, w, i);
    case Code(w, _) => NoActiveWorker(s, w);
  }

  /** Only a positive stopping test ends an idle fiber. */
  ghost predicate IdleFibersStay(s: State, t: State, a: Action) {
    && |t.workers| == |s.workers|
    && forall v :: 0 <= v < |s.workers| && !(a.Idle? && a.w == v && (a.i.TestAll? || a.i.TestQueue?)) ==>
         t.workers[v].idleDone == s.workers[v].idleDone
  }

  lemma RunEndsNoIdleFiber(s: State, w: nat, r: RunAction)
    requires w < |s.workers| && RunEnabled(s, w, r)
    ensures IdleFibersStay(s, RunNext(s, w, r), Run(w, r))
  {
    RunMoves(s, w, r);
  }

  lemma TestsEndIdleFibers(s: State, w: nat, i: IdleAction)
    requires w < |s.workers| && IdleEnabled(s, w, i)
    ensures IdleFibersStay(s, IdleNext(s, w, i), Idle(w, i))
  {
    IdleMoves(s, w, i);
  }

  lemma CodeEndsNoIdleFiber(s: State, w: nat, c: CodeAction)
    requires Runs(s, w) && CodeEnabled(s, w, c)
    ensures IdleFibersStay(s, CodeNext(s, w, c), Code(w, c))
  {
    CodeMoves(s, w, c);
  }

  lemma EnvEndsNoIdleFiber(s: State, e: EnvAction)
    requires EnvEnabled(s, e)
    ensures IdleFibersStay(s, EnvNext(s, e), Env(e))
  {
  }

  lemma OnlyTestsEndIdleFibers(s: State, a: Action)
    requires Enabled(s, a)
    ensures IdleFibersStay(s, Next(s, a), a)
  {
    match a
    case Env(e) => EnvEndsNoIdleFiber(s, e);
    case Run(w, r) => RunEndsNoIdleFiber(s, w, r);
    case Idle(w, i) => TestsEndIdleFibers(s, w, i);
    case Code(w, c) => CodeEndsNoIdleFiber(s, w, c);
  }

  lemma RunKeepsShape(s: State, w: nat, r: RunAction)
    requires w < |s.workers| && RunEnabled(s, w, r) && DoneShape(s)
    ensures DoneShape(RunNext(s, w, r))
  {
  }

  lemma IdleKeepsShape(s: State, w: nat, i: IdleAction)
    requires w < |s.workers| && IdleEnabled(s, w, i) && DoneShape(s)
    ensures DoneShape(IdleNext(s, w, i))
  {
  }

  lemma StepKeepsShape(s: State, a: Action)
    requires Enabled(s, a) && DoneShape(s)
    ensures DoneShape(Next(s, a))
  {
    match a
    case Env(_) =>
    case Run(w, r) => RunKeepsShape(s, w, r);
    case Idle(w, i) => IdleKeepsShape(s, w, i);
    case Code(w, c) => CodeMoves(s, w, c);
  }

  lemma PositiveTest(s: State, w: nat, i: IdleAction)
    requires SeenStillSo(s) && w < |s.workers| && IdleEnabled(s, w, i) && (i.TestAll? || i.TestQueue?)
    requires !s.workers[w].idleDone && IdleNext(s, w, i).workers[w].idleDone && Exact(s, Idle(w, i))
    ensures s.timers == map[] && s.table.pending == 0 && SchedulerQuiet(s)
  {
    if i.TestAll? {
      assert TimersLookEmpty(s);
      ExactReadSeesAll(s, Idle(w, i));
    }
  }

  /** A positive test of the last idle fiber saw that there is no work. */
  lemma LastOneSawNoWork(s: State, w: nat, i: IdleAction)
    requires Counted(s) && DoneShape(s) && SeenStillSo(s) && w < |s.workers| && IdleEnabled(s, w, i)
    requires i.TestAll? || i.TestQueue?
    requires !AllDone(s) && AllDone(IdleNext(s, w, i)) && Exact(s, Idle(w, i))
    ensures LooksDone(IdleNext(s, w, i))
  {
    var t := IdleNext(s, w, i);
    TestsEndIdleFibers(s, w, i);
    assert t.workers[w].idleDone && !s.workers[w].idleDone;
    PositiveTest(s, w, i);
    forall v | 0 <= v < |t.workers| ensures !t.workers[v].pc.Scheduling? {
      assert v != w ==> t.workers[v] == s.workers[v] && s.workers[v].idleDone;
    }
  }

  lemma StepKeepsShutdown(s: State, a: Action)
    requires Counted(s) && ShutdownInv(s) && SeenStillSo(s) && Enabled(s, a) && Exact(s, a)
    ensures ShutdownInv(Next(s, a))
  {
    StepKeepsShape(s, a);
    OnlyTestsEndIdleFibers(s, a);
    if AllDone(s) {
      DoneStaysDone(s, a);
    } else if AllDone(Next(s, a)) {
      var v :| 0 <= v < |s.workers| && !s.workers[v].idleDone;
      assert Next(s, a).workers[v].idleDone;
      LastOneSawNoWork(s, a.w, a.i);
    }
  }

  // ---- the two cases in which the test is sound ----

  ghost predicate NoStages(s: State) {
    forall w :: 0 <= w < |s.workers| ==> s.workers[w].pc != Testing(1) && s.workers[w].pc != Testing(2)
  }

  lemma AtomicKeepsNoStages(s: State, a: Action)
    requires NoStages(s) && Enabled(s, a) && Atomic(a)
    ensures NoStages(Next(s, a))
  {
    match a
    case Env(_) =>
    case Run(w, r) => RunKeepsNoStages(s, w, r);
    case Idle(w, i) => IdleKeepsNoStages(s, w, i);
    case Code(w, c) => CodeMoves(s, w, c);
  }

  lemma RunKeepsNoStages(s: State, w: nat, r: RunAction)
    requires w < |s.workers| && RunEnabled(s, w, r)
    requires forall v :: 0 <= v < |s.workers| && v != w ==> s.workers[v].pc != Testing(1) && s.workers[v].pc != Testing(2)
    ensures NoStages(RunNext(s, w, r))
  {
  }

  lemma IdleKeepsNoStages(s: State, w: nat, i: IdleAction)
    requires NoStages(s) && w < |s.workers| && IdleEnabled(s, w, i) && Atomic(Idle(w, i))
    ensures NoStages(IdleNext(s, w, i))
  {
  }

  lemma SoleIdleStepSees(s: State, w: nat, i: IdleAction)
    requires |s.workers| == 1 && SeenStillSo(s) && w == 0 && IdleEnabled(s, w, i) && Exact(s, Idle(w, i))
    ensures SeenStillSo(IdleNext(s, w, i))
  {
    if i.TestTimers? && TimersLookEmpty(s) {
      ExactReadSeesAll(s, Idle(w, i));
    }
  }

  lemma SoleCodeSees(s: State, c: CodeAction)
    requires |s.workers| == 1 && Runs(s, 0) && CodeEnabled(s, 0, c)
    ensures SeenStillSo(CodeNext(s, 0, c))
  {
    CodeMoves(s, 0, c);
  }

  /** A single worker that is testing runs no code meanwhile, so what it saw stays so. */
  lemma SoleWorkerSeesStill(s: State, a: Action)
    requires |s.workers| == 1 && SeenStillSo(s) && Enabled(s, a) && Exact(s, a)
    ensures SeenStillSo(Next(s, a))
  {
    match a
    case Env(_) =>
    case Run(w, r) => RunKeepsNoStages(s, w, r);
    case Idle(w, i) => SoleIdleStepSees(s, w, i);
    case Code(w, c) => SoleCodeSees(s, c);
  }

  ghost predicate AtomicRun(acts: seq<Action>) {
    forall i :: 0 <= i < |acts| ==> Atomic(acts[i])
  }

  lemma AtomicStepKeeps(s: State, a: Action)
    requires Inv(s) && ShutdownInv(s) && NoStages(s) && Enabled(s, a) && Exact(s, a) && Atomic(a)
    ensures Inv(Next(s, a)) && ShutdownInv(Next(s, a)) && NoStages(Next(s, a))
  {
    StepKeepsInv(s, a);
    StepKeepsShutdown(s, a);
    AtomicKeepsNoStages(s, a);
  }

  lemma {:induction false} AtomicRunKeeps(s: State, acts: seq<Action>)
    requires Inv(s) && ShutdownInv(s) && NoStages(s) && Legal(s, acts) && ExactRun(s, acts) && AtomicRun(acts)
    ensures Inv(Exec(s, acts)) && ShutdownInv(Exec(s, acts))
    decreases |acts|
  {
    if acts != [] {
      AtomicStepKeeps(s, acts[0]);
      AtomicRunKeeps(Next(s, acts[0]), acts[1..]);
    }
  }

  lemma {:induction false} SoleRunKeeps(s: State, acts: seq<Action>)
    requires Inv(s) && ShutdownInv(s) && SeenStillSo(s) && |s.workers| == 1 && Legal(s, acts) && ExactRun(s, acts)
    ensures Inv(Exec(s, acts)) && ShutdownInv(Exec(s, acts))
    decreases |acts|
  {
    if acts != [] {
      StepKeepsInv(s, acts[0]);
      StepKeepsShutdown(s, acts[0]);
      SoleWorkerSeesStill(s, acts[0]);
      SoleRunKeeps(Next(s, acts[0]), acts[1..]);
    }
  }

  lemma InitialShutdown(n: nat)
    requires n > 0
    ensures ShutdownInv(Initial(n)) && NoStages(Initial(n)) && SeenStillSo(Initial(n))
  {
    var s := Initial(n);
    assert forall w :: 0 <= w < n ==> s.workers[w] == Fresh;
    assert !s.workers[0].idleDone;
  }

  lemma LeftMeansLooksDone(s: State)
    requires ShutdownInv(s) && AllLeft(s)
    ensures LooksDone(s)
  {
  }

  /** With the stopping test as one step, any number of workers leaves nothing behind, exactly unless a fiber of a
      refused addition has been scheduled. */
  lemma NoWorkLeftWithAtomicTest(n: nat, acts: seq<Action>)
    requires n > 0 && Legal(Initial(n), acts) && ExactRun(Initial(n), acts)
    requires AtomicRun(acts) && AllLeft(Exec(Initial(n), acts))
    ensures NoWork(Exec(Initial(n), acts)) <==> !Exec(Initial(n), acts).misled
  {
    InitialInv(n);
    InitialShutdown(n);
    AtomicRunKeeps(Initial(n), acts);
    LeftMeansLooksDone(Exec(Initial(n), acts));
    DoneIffNotMisled(Exec(Initial(n), acts));
  }

  /** Every run that tests as the program does leaves nothing behind, exactly unless it schedules a fiber of a refused
      addition. */
  ghost predicate SafeShutdown(n: nat) {
    forall acts :: Legal(Initial(n), acts) && ExactRun(Initial(n), acts)
                   && (forall i :: 0 <= i < |acts| ==> Split(acts[i])) && AllLeft(Exec(Initial(n), acts))
                   ==> (NoWork(Exec(Initial(n), acts)) <==> !Exec(Initial(n), acts).misled)
  }

  lemma SoleWorkerShutsDownSafely()
    ensures SafeShutdown(1)
  {
    forall acts | Legal(Initial(1), acts) && ExactRun(Initial(1), acts) && AllLeft(Exec(Initial(1), acts))
      ensures NoWork(Exec(Initial(1), acts)) <==> !Exec(Initial(1), acts).misled
    {
      InitialInv(1);
      InitialShutdown(1);
      SoleRunKeeps(Initial(1), acts);
      LeftMeansLooksDone(Exec(Initial(1), acts));
      DoneIffNotMisled(Exec(Initial(1), acts));
    }
  }
}
