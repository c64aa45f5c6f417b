/** The assertion of `triggerEvent` in the idle loop: it can fail once a second worker can handle events between one
    worker's `epoll_wait` and its handling of the report. */
module RuntimeReports {
  import opened EventTable
  import opened Runtime
  import opened RuntimeFrame
  import opened RuntimeRegistry
  import opened RuntimeInvariant
  import opened RuntimeScenarios

  /** In no run of `n` workers does the assertion fail. */
  ghost predicate TriggerSafe(n: nat) {
    forall acts :: Legal(Initial(n), acts) ==> Exec(Initial(n), acts).crash != InTrigger
  }

  /** Whatever a report is, the worker that is to handle it can: by one action or the other. */
  lemma EveryReportIsHandled(s: State, w: nat)
    requires s.crash == NoCrash && w < |s.workers| && s.workers[w].pc.Handling? && s.workers[w].reports != []
    ensures exists i :: Enabled(s, Idle(w, i)) && (i.HandleReady? || i.Abort? || i.Drain?)
  {
    var r := s.workers[w].reports[0];
    if r.FromPipe? {
      assert Enabled(s, Idle(w, Drain));
    } else {
      ReportAssertsIff(s.table, r.fd, Hit(s, w), true);
      assert Enabled(s, Idle(w, HandleReady(true))) || Enabled(s, Idle(w, Abort))
             || Enabled(s, Idle(w, HandleReady(false)));
    }
  }

  /** An assertion fails exactly when the kernel lets through a report that is neither stale nor current. */
  lemma AbortsIff(s: State, w: nat)
    requires w < |s.workers|
    ensures IdleEnabled(s, w, Abort) <==>
              && s.workers[w].pc.Handling? && s.workers[w].reports != [] && s.workers[w].reports[0].FromFd?
              && var fd := s.workers[w].reports[0].fd;
              && fd in s.table.interest && Hit(s, w) * EventsOf(s.table.slots, fd) != {}
              && !(Hit(s, w) <= EventsOf(s.table.slots, fd))
  {
    if s.workers[w].reports != [] && s.workers[w].reports[0].FromFd? {
      ReportAssertsIff(s.table, s.workers[w].reports[0].fd, Hit(s, w), true);
    }
  }

  // ---- one worker ----

  predicate HasReports(pc: WorkerPc) {
    pc.Listing? || pc.Scheduling? || pc.Handling?
  }

  /** What a buffer reports is still set. */
  ghost predicate Current(t: Table<nat>, reports: seq<Report>) {
    && (forall i, j :: 0 <= i < j < |reports| && reports[i].FromFd? && reports[j].FromFd? ==> reports[i].fd != reports[j].fd)
    && (forall i :: 0 <= i < |reports| && reports[i].FromFd? ==> reports[i].ready <= EventsOf(t.slots, reports[i].fd))
  }

  ghost predicate SoleCurrent(s: State) {
    |s.workers| == 1 && s.crash != InTrigger && (HasReports(s.workers[0].pc) ==> Current(s.table, s.workers[0].reports))
  }

  lemma CurrentIsSafe(s: State)
    requires SoleCurrent(s)
    ensures !IdleEnabled(s, 0, Abort)
  {
    if s.workers[0].pc.Handling? && s.workers[0].reports != [] && s.workers[0].reports[0].FromFd? {
      ReportAssertsIff(s.table, s.workers[0].reports[0].fd, Hit(s, 0), true);
    }
  }

  /** Handling one report touches no descriptor of the others. */
  lemma ReadyKeepsCurrent(s: State, ok: bool)
    requires SoleCurrent(s) && IdleEnabled(s, 0, HandleReady(ok))
    ensures SoleCurrent(ReadyStep(s, 0, ok))
  {
    var t := ReadyStep(s, 0, ok);
    var rs := s.workers[0].reports;
    var fd := rs[0].fd;
    forall i | 0 <= i < |rs[1..]| && rs[1..][i].FromFd?
      ensures rs[1..][i].ready <= EventsOf(t.table.slots, rs[1..][i].fd) {
      assert rs[1..][i] == rs[i + 1] && rs[i + 1].fd != fd;
      if Hit(s, 0) * EventsOf(s.table.slots, fd) != {} && ok {
        ClearedEvents(s.table, fd, Hit(s, 0), rs[i + 1].fd);
      }
    }
  }

  lemma IdleKeepsCurrent(s: State, i: IdleAction)
    requires RegistryInv(s) && SoleCurrent(s) && IdleEnabled(s, 0, i)
    ensures SoleCurrent(IdleNext(s, 0, i))
  {
    CurrentIsSafe(s);
    if i.HandleReady? {
      ReadyKeepsCurrent(s, i.ok);
    } else {
      assert IdleNext(s, 0, i).table == s.table;
    }
  }

  lemma EnvKeepsCurrent(s: State, e: EnvAction)
    requires SoleCurrent(s) && EnvEnabled(s, e)
    ensures SoleCurrent(EnvNext(s, e))
  {
  }

  lemma RunHasNone(s: State, r: RunAction)
    requires SoleCurrent(s) && RunEnabled(s, 0, r)
    ensures SoleCurrent(RunNext(s, 0, r))
  {
    RunMoves(s, 0, r);
  }

  lemma StepKeepsCurrent(s: State, a: Action)
    requires RegistryInv(s) && SoleCurrent(s) && Enabled(s, a)
    ensures SoleCurrent(Next(s, a))
  {
    match a
    case Env(e) => EnvKeepsCurrent(s, e);
    case Run(w, r) => RunHasNone(s, r);
    case Idle(w, i) => IdleKeepsCurrent(s, i);
    case Code(w, c) => CodeHasNone(s, c);
  }

  lemma CodeHasNone(s: State, c: CodeAction)
    requires SoleCurrent(s) && Runs(s, 0) && CodeEnabled(s, 0, c)
    ensures SoleCurrent(CodeNext(s, 0, c))
  {
    if !c.AbortAdd? {
      CodeMoves(s, 0, c);
    }
    assert s.workers[0].pc.Running?;
  }

  lemma {:induction false} SoleRunIsCurrent(s: State, acts: seq<Action>)
    requires Inv(s) && SoleCurrent(s) && Legal(s, acts)
    ensures SoleCurrent(Exec(s, acts))
    decreases |acts|
  {
    if acts != [] {
      StepKeepsInv(s, acts[0]);
      StepKeepsCurrent(s, acts[0]);
      SoleRunIsCurrent(Next(s, acts[0]), acts[1..]);
    }
  }

  // ---- two workers ----

  /** A fiber waits to read and one to write on descriptor 7, and both workers wait in `epoll_wait`. */
  lemma BothWait(n: nat) returns (t: State)
    requires n >= 2
    ensures Reaches(n, t) && |t.workers| == n && t.timers == map[]
    ensures At(t, 0, Sleeping) && At(t, 1, Sleeping)
    ensures t.table == Add(Add(EmptyTable(), Key(7, READ), 0, false, true), Key(7, WRITE), 1, false, true)
    ensures t.refused == {}
  {
    ReachesInitial(n);
    t := NewFiber(n, Initial(n), 0);
    t := WaitFor(n, t, 0, Key(7, READ));
    t := Doze(n, t, 0);
    t := NewFiber(n, t, 1);
    t := SecondWaiter(n, t);
    t := Doze(n, t, 1);
  }

  lemma SecondWaiter(n: nat, s: State) returns (t: State)
    requires Reaches(n, s) && Runs(s, 1) && s.fibers[Cur(s, 1)] == RunningOn(1, User)
    requires s.table == Add(EmptyTable(), Key(7, READ), 0, false, true) && s.refused == {}
    ensures Reaches(n, t)
    ensures t == s.(active := t.active, calls := t.calls, fibers := t.fibers,
                    workers := s.workers[1 := s.workers[1].(pc := IdleCheck)],
                    table := Add(s.table, Key(7, WRITE), Cur(s, 1), false, true))
  {
    AddedKeys(map[], Key(7, READ), 0);
    t := WaitFor(n, s, 1, Key(7, WRITE));
  }

  /** Worker 1 is told of the reader, worker 0 of both; then worker 1 handles its report. */
  lemma OneReportOvertakes(n: nat) returns (t: State)
    requires n >= 2
    ensures Reaches(n, t) && Enabled(t, Idle(0, Abort))
  {
    t := BothWait(n);
    var slots := map[Key(7, READ) := 0];
    AddedKeys(map[], Key(7, READ), 0);
    AddedKeys(slots, Key(7, WRITE), 1);
    assert t.table.interest[7] == {READ, WRITE};
    t := WakeWith(n, t, 0, [FromFd(7, {READ, WRITE}, false)]);
    t := WakeWith(n, t, 1, [FromFd(7, {READ}, false)]);
    t := FirstHandled(n, t);
  }

  lemma FirstHandled(n: nat, s: State) returns (t: State)
    requires Reaches(n, s) && |s.workers| >= 2 && s.table.slots == map[Key(7, READ) := 0, Key(7, WRITE) := 1]
    requires 7 in s.table.interest
    requires s.workers[0].pc == Handling && s.workers[0].reports == [FromFd(7, {READ, WRITE}, false)]
    requires s.workers[1].pc == Handling && s.workers[1].reports == [FromFd(7, {READ}, false)]
    ensures Reaches(n, t) && Enabled(t, Idle(0, Abort))
  {
    BothSet(s.table);
    t := Go(n, s, Idle(1, HandleReady(true)));
    assert t.table == Clear(s.table, 7, {READ});
    ReportAssertsIff(t.table, 7, {READ, WRITE}, true);
  }

  lemma BothSet(t: Table<nat>)
    requires t.slots == map[Key(7, READ) := 0, Key(7, WRITE) := 1]
    ensures EventsOf(t.slots, 7) == {READ, WRITE}
    ensures EventsOf(Clear(t, 7, {READ}).slots, 7) == {WRITE}
  {
    assert Key(7, READ) in t.slots && Key(7, WRITE) in t.slots;
    forall e: Event ensures e in EventsOf(t.slots, 7) {
      assert e == READ || e == WRITE;
    }
    ClearedEvents(t, 7, {READ}, 7);
  }

  lemma NobodyHandles(acts: seq<Action>)
    requires Legal(Initial(0), acts)
    ensures Exec(Initial(0), acts).crash == NoCrash
  {
    NobodyAborts(Initial(0), acts);
  }

  lemma {:induction false} NobodyAborts(s: State, acts: seq<Action>)
    requires Legal(s, acts) && |s.workers| == 0 && s.crash == NoCrash
    ensures Exec(s, acts).crash == NoCrash
    decreases |acts|
  {
    if acts != [] {
      NobodyAborts(Next(s, acts[0]), acts[1..]);
    }
  }

  /** The assertion of `triggerEvent` never fails exactly when there is at most one worker. */
  lemma TriggerSafeIffOneWorker(n: nat)
    ensures TriggerSafe(n) <==> n <= 1
  {
    if n <= 1 {
      forall acts | Legal(Initial(n), acts) ensures Exec(Initial(n), acts).crash != InTrigger {
        if n == 1 {
          InitialInv(1);
          SoleRunIsCurrent(Initial(1), acts);
        } else {
          NobodyHandles(acts);
        }
      }
    } else {
      var s := OneReportOvertakes(n);
      var acts :| RunTo(n, acts, s);
      Snoc(Initial(n), acts, Idle(0, Abort));
      assert Exec(Initial(n), acts + [Idle(0, Abort)]).crash == InTrigger;
    }
  }
}
