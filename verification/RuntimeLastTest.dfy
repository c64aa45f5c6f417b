/** What a sole worker leaves behind, by what it read in the test that ended its idle fiber. */
module RuntimeLastTest {
  import opened Common
  import opened Deadlines
  import opened Runtime
  import opened RuntimeFrame
  import opened RuntimeInvariant
  import opened RuntimeShutdown

  /** The front the worker read last is still the front, and it read as no timer. */
  ghost predicate ReadAsNone(s: State)
    requires |s.workers| == 1
  {
    Front(s.timers) == s.workers[0].saw && Remaining(s.workers[0].saw, s.workers[0].readAt) == NO_TIMER
  }

  predicate OnItsWay(pc: WorkerPc) {
    pc.IdleOut? || pc.Top? || pc.IdleCheck? || pc.Left?
  }

  ghost predicate LastTest(s: State) {
    && |s.workers| == 1
    && (s.workers[0].pc == Testing(1) || s.workers[0].pc == Testing(2) ==> ReadAsNone(s))
    && (s.workers[0].pc == Testing(2) ==> s.table.pending == 0)
    && (s.workers[0].pc.Left? ==> s.workers[0].idleDone)
    && (s.workers[0].idleDone ==>
          ReadAsNone(s) && SchedulerQuiet(s) && s.table.pending == 0 && OnItsWay(s.workers[0].pc))
  }

  lemma EnvKeepsLastTest(s: State, e: EnvAction)
    requires LastTest(s) && EnvEnabled(s, e)
    ensures LastTest(EnvNext(s, e))
  {
  }

  lemma RunKeepsLastTest(s: State, r: RunAction)
    requires LastTest(s) && RunEnabled(s, 0, r)
    ensures LastTest(RunNext(s, 0, r))
  {
  }

  lemma IdleKeepsLastTest(s: State, i: IdleAction)
    requires LastTest(s) && IdleEnabled(s, 0, i) && !i.TestAll?
    ensures LastTest(IdleNext(s, 0, i))
  {
  }

  lemma CodeKeepsLastTest(s: State, c: CodeAction)
    requires LastTest(s) && Runs(s, 0) && CodeEnabled(s, 0, c)
    ensures LastTest(CodeNext(s, 0, c))
  {
    CodeMoves(s, 0, c);
  }

  lemma StepKeepsLastTest(s: State, a: Action)
    requires LastTest(s) && Enabled(s, a) && Split(a)
    ensures LastTest(Next(s, a))
  {
    match a
    case Env(e) => EnvKeepsLastTest(s, e);
    case Run(w, r) => RunKeepsLastTest(s, r);
    case Idle(w, i) => IdleKeepsLastTest(s, i);
    case Code(w, c) => CodeKeepsLastTest(s, c);
  }

  lemma {:induction false} RunToLastTest(s: State, acts: seq<Action>)
    requires LastTest(s) && Legal(s, acts) && forall i :: 0 <= i < |acts| ==> Split(acts[i])
    ensures LastTest(Exec(s, acts))
    decreases |acts|
  {
    if acts != [] {
      assert Split(acts[0]);
      StepKeepsLastTest(s, acts[0]);
      assert forall i :: 0 <= i < |acts[1..]| ==> acts[1..][i] == acts[i + 1];
      RunToLastTest(Next(s, acts[0]), acts[1..]);
    }
  }

  /** A sole worker that has left has left nothing behind exactly when the front it read in its last test was not one
      millisecond overdue at that reading, and no fiber of a refused addition was ever scheduled. */
  lemma SoleShutdownSafeIff(acts: seq<Action>)
    requires Legal(Initial(1), acts) && (forall i :: 0 <= i < |acts| ==> Split(acts[i]))
    requires AllLeft(Exec(Initial(1), acts))
    ensures var s := Exec(Initial(1), acts);
            && |s.workers| == 1
            && (NoWork(s) <==> !OneOverdue(s.workers[0].saw, s.workers[0].readAt) && !s.misled)
  {
    var s := Exec(Initial(1), acts);
    assert Initial(1).workers[0] == Fresh;
    RunToLastTest(Initial(1), acts);
    ReachableInv(1, acts);
    assert s.workers[0].pc.Left?;
    LooksEmptyIff(s.workers[0].saw, s.workers[0].readAt);
    assert s.timers == map[] <==> s.timers.Keys == {};
    if s.timers == map[] {
      DoneIffNotMisled(s);
    }
  }
}
