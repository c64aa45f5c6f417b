/** Where the kernel and the registry part: `close` cancels the events of a descriptor and closes it in two steps. */
module RuntimeClosing {
  import opened Common
  import opened EventTable
  import opened Runtime
  import opened RuntimeFrame
  import opened RuntimeTokens
  import opened RuntimeRegistry
  import opened RuntimeInvariant
  import opened RuntimeRefused
  import opened RuntimeSole
  import opened RuntimeScenarios

  /** Some step of the run closes the descriptor while it has set bits, or is a first addition to it that the kernel
      refuses. */
  ghost predicate EverOrphaned(s: State, acts: seq<Action>, fd: nat)
    requires Legal(s, acts)
    decreases |acts|
  {
    acts != [] && (ClosesBusy(s, acts[0], fd) || FailsFirst(s, acts[0], fd)
                   || EverOrphaned(Next(s, acts[0]), acts[1..], fd))
  }

  function FailedAdds(acts: seq<Action>): nat {
    if acts == [] then 0 else Bit(FailsAdd(acts[0])) + FailedAdds(acts[1..])
  }

  lemma {:induction false} RegistryAfter(s: State, acts: seq<Action>, fd: nat)
    requires RegistryInv(s) && Legal(s, acts)
    ensures var t := Exec(s, acts);
            && (Orphan(t.table, fd) <==> Orphan(s.table, fd) || EverOrphaned(s, acts, fd))
            && t.table.pending - |t.table.slots| == s.table.pending - |s.table.slots| - FailedAdds(acts)
            && (Honest(s.table) && FailedAdds(acts) == 0 ==> Honest(t.table))
    decreases |acts|
  {
    if acts != [] {
      StepKeepsRegistry(s, acts[0], fd);
      RegistryAfter(Next(s, acts[0]), acts[1..], fd);
    }
  }

  /** Over every run: a descriptor has set bits that the kernel knows nothing of exactly when some step closed it with
      bits set or its first addition was refused. */
  lemma OrphanIffEverOrphaned(n: nat, acts: seq<Action>, fd: nat)
    requires Legal(Initial(n), acts)
    ensures Orphan(Exec(Initial(n), acts).table, fd) <==> EverOrphaned(Initial(n), acts, fd)
  {
    InitialInv(n);
    RegistryAfter(Initial(n), acts, fd);
  }

  /** Over every run: the counter is the number of set bits less the number of refused additions. */
  lemma PendingIs(n: nat, acts: seq<Action>)
    requires Legal(Initial(n), acts)
    ensures var t := Exec(Initial(n), acts).table; t.pending == |t.slots| - FailedAdds(acts)
  {
    InitialInv(n);
    RegistryAfter(Initial(n), acts, 0);
  }

  /** Over every run: the kernel mirrors the registry exactly when no addition was refused and no descriptor was closed
      with bits set. */
  lemma MirrorIffClosedClean(n: nat, acts: seq<Action>)
    requires Legal(Initial(n), acts)
    ensures Consistent(Exec(Initial(n), acts).table) <==>
              FailedAdds(acts) == 0 && forall fd :: !EverOrphaned(Initial(n), acts, fd)
  {
    InitialInv(n);
    PendingIs(n, acts);
    RegistryAfter(Initial(n), acts, 0);
    if fd :| Orphan(Exec(Initial(n), acts).table, fd) {
      OrphanIffEverOrphaned(n, acts, fd);
    }
    if fd :| EverOrphaned(Initial(n), acts, fd) {
      OrphanIffEverOrphaned(n, acts, fd);
    }
  }

  // ---- what becomes of the waiters ----

  lemma ReadyLeavesOrphans(s: State, w: nat, ok: bool, k: Key)
    requires w < |s.workers| && IdleEnabled(s, w, HandleReady(ok)) && Orphan(s.table, k.fd) && k in s.table.slots
    ensures var slots := ReadyStep(s, w, ok).table.slots; k in slots && slots[k] == s.table.slots[k]
  {
    var fd := s.workers[w].reports[0].fd;
    if Hit(s, w) * EventsOf(s.table.slots, fd) != {} && ok {
      ClearedKeys(s.table, fd, Hit(s, w));
    }
  }

  lemma CodeLeavesOrphans(s: State, w: nat, c: CodeAction, k: Key)
    requires Runs(s, w) && CodeEnabled(s, w, c) && Orphan(s.table, k.fd) && k in s.table.slots
    ensures var slots := CodeNext(s, w, c).table.slots; k in slots && slots[k] == s.table.slots[k]
  {
    match c
    case CloseEvents(fd, ok) =>
      if EventsOf(s.table.slots, fd) != {} && ok {
        ClearedKeys(s.table, fd, EventsOf(s.table.slots, fd));
      }
    case CancelEvent(ok) =>
      var j := s.calls[CurPc(s, w).c].key;
      if j in s.table.slots && ok {
        assert j.ev in EventsOf(s.table.slots, j.fd);
        ClearedKeys(s.table, j.fd, {j.ev});
      }
    case AddEvent(_) =>
    case CloseFd =>
    case _ => CodeLeavesRegistry(s, w, c);
  }

  lemma StepLeavesOrphans(s: State, a: Action, k: Key)
    requires Enabled(s, a) && Orphan(s.table, k.fd) && k in s.table.slots
    ensures var slots := Next(s, a).table.slots; k in slots && slots[k] == s.table.slots[k]
  {
    match a
    case Env(_) =>
    case Run(w, r) => RunLeavesRegistry(s, w, r);
    case Idle(w, i) =>
      if i.HandleReady? {
        ReadyLeavesOrphans(s, w, i.ok, k);
      } else {
        NonHandling(s, w, i);
      }
    case Code(w, c) => CodeLeavesOrphans(s, w, c, k);
  }

  /** The waiters of such a descriptor stay behind their bits for good. */
  lemma {:induction false} OrphanForever(s: State, acts: seq<Action>, k: Key)
    requires RegistryInv(s) && Legal(s, acts) && Orphan(s.table, k.fd) && k in s.table.slots
    ensures var t := Exec(s, acts).table; Orphan(t, k.fd) && k in t.slots && t.slots[k] == s.table.slots[k]
    decreases |acts|
  {
    if acts != [] {
      StepKeepsRegistry(s, acts[0], k.fd);
      StepLeavesOrphans(s, acts[0], k);
      OrphanForever(Next(s, acts[0]), acts[1..], k);
    }
  }

  lemma LiveStays(s: State, a: Action, k: Key)
    requires Enabled(s, a) && RefusedAreSet(s) && k in Live(s) && k in Next(s, a).table.slots
    ensures k in Live(Next(s, a)) && RefusedAreSet(Next(s, a))
  {
    RefusedStepIff(s, a, k);
  }

  lemma {:induction false} OrphanedLives(s: State, acts: seq<Action>, k: Key)
    requires RegistryInv(s) && RefusedAreSet(s) && Legal(s, acts) && Orphan(s.table, k.fd) && k in Live(s)
    ensures k in Live(Exec(s, acts))
    decreases |acts|
  {
    if acts != [] {
      StepKeepsRegistry(s, acts[0], k.fd);
      StepLeavesOrphans(s, acts[0], k);
      LiveStays(s, acts[0], k);
      OrphanedLives(Next(s, acts[0]), acts[1..], k);
    }
  }

  /** And if a fiber waits behind such a bit, the pending counter never reads zero again, so no worker passes the
      stopping test any more; as long as no fiber of a refused addition is scheduled. */
  lemma OrphanedKeepsPending(s: State, acts: seq<Action>, k: Key)
    requires Inv(s) && RefusedAreSet(s) && Legal(s, acts) && Orphan(s.table, k.fd) && k in Live(s)
    requires !Exec(s, acts).misled
    ensures Exec(s, acts).table.pending > 0
  {
    RunKeepsInv(s, acts);
    OrphanedLives(s, acts, k);
    assert k in Live(Exec(s, acts));
  }

  // ---- the assertions of addEvent ----

  ghost predicate AboutToAdd(s: State, w: nat) {
    Runs(s, w) && CurPc(s, w).Adding? && CurPc(s, w).c < |s.calls|
  }

  /** In every reachable state a fiber about to call `addEvent` finds no callback in its slot, and the kernel can
      accept the operation exactly when the descriptor was never closed with bits set nor its first addition refused. */
  lemma AddEventAcceptable(n: nat, acts: seq<Action>, w: nat)
    requires Legal(Initial(n), acts) && AboutToAdd(Exec(Initial(n), acts), w)
    ensures var s := Exec(Initial(n), acts); var k := s.calls[CurPc(s, w).c].key;
            && k !in s.table.callbacks
            && (KernelAccepts(s.table.interest, AddOp(s.table, k.fd), k.fd) <==> !EverOrphaned(Initial(n), acts, k.fd))
  {
    ReachableInv(n, acts);
    OrphanIffEverOrphaned(n, acts, Exec(Initial(n), acts).calls[CurPc(Exec(Initial(n), acts), w).c].key.fd);
  }

  /** As long as no fiber of a refused addition has been scheduled, it is executing, and its bit is clear exactly when
      no fiber waits behind it and it is not one of a refused addition. */
  lemma AddEventAssertions(n: nat, acts: seq<Action>, w: nat)
    requires Legal(Initial(n), acts) && AboutToAdd(Exec(Initial(n), acts), w) && !Exec(Initial(n), acts).misled
    ensures var s := Exec(Initial(n), acts); var k := s.calls[CurPc(s, w).c].key;
            && s.fibers[Cur(s, w)].st == EXEC
            && (k !in s.table.slots <==>
                  k !in s.refused && forall f :: 0 <= f < |s.fibers| ==> s.fibers[f].token != InSlot(k))
  {
    var s := Exec(Initial(n), acts);
    var k := s.calls[CurPc(s, w).c].key;
    ReachableInv(n, acts);
    RefusedAlwaysSet(n, acts);
    assert WorkerOk(s, w) && FiberOk(s, Cur(s, w));
    if k in Live(s) {
      assert Holds(s, Live(s)[k], InSlot(k));
    } else {
      forall f | 0 <= f < |s.fibers| ensures s.fibers[f].token != InSlot(k) {
        assert FiberOk(s, f);
      }
    }
  }

  // ---- when a close is clean ----

  ghost predicate AboutToClose(s: State, w: nat, fd: nat) {
    Runs(s, w) && CurPc(s, w) == Closing(fd)
  }

  /** In runs in which every cancellation by `close` succeeds, no descriptor is closed with bits set. */
  ghost predicate ClosesCleanly(n: nat) {
    forall acts, w, fd :: Legal(Initial(n), acts) && (forall i :: 0 <= i < |acts| ==> CancelSucceeds(acts[i]))
                          && AboutToClose(Exec(Initial(n), acts), w, fd)
                          ==> EventsOf(Exec(Initial(n), acts).table.slots, fd) == {}
  }

  ghost predicate SoleClosing(s: State) {
    |s.workers| == 1 && forall fd :: AboutToClose(s, 0, fd) ==> EventsOf(s.table.slots, fd) == {}
  }

  lemma ResumedIsNotClosing(s: State, r: RunAction, fd: nat)
    requires SoleShape(s) && RunEnabled(s, 0, r)
    ensures !AboutToClose(RunNext(s, 0, r), 0, fd) && |RunNext(s, 0, r).workers| == 1
  {
    if r == Resume {
      assert StandsParked(s, s.workers[0].pc.f);
    }
  }

  lemma IdleIsNotClosing(s: State, i: IdleAction, fd: nat)
    requires |s.workers| == 1 && IdleEnabled(s, 0, i)
    ensures !AboutToClose(IdleNext(s, 0, i), 0, fd)
  {
  }

  lemma OnlyCloseEventsCloses(s: State, c: CodeAction, fd: nat)
    requires Runs(s, 0) && CodeEnabled(s, 0, c) && AboutToClose(CodeNext(s, 0, c), 0, fd)
    ensures c.CloseEvents? && c.fd == fd
  {
    CodeMoves(s, 0, c);
    assert Runner(s.fibers[Cur(s, 0)], CodeNext(s, 0, c).fibers[Cur(s, 0)], c);
  }

  lemma CodeKeepsClosing(s: State, c: CodeAction, fd: nat)
    requires |s.workers| == 1 && Runs(s, 0) && CodeEnabled(s, 0, c) && CancelSucceeds(Code(0, c))
    requires AboutToClose(CodeNext(s, 0, c), 0, fd)
    ensures EventsOf(CodeNext(s, 0, c).table.slots, fd) == {}
  {
    OnlyCloseEventsCloses(s, c, fd);
    if EventsOf(s.table.slots, fd) != {} {
      ClearedEvents(s.table, fd, EventsOf(s.table.slots, fd), fd);
    }
  }

  lemma StepClosing(s: State, a: Action, fd: nat)
    requires SoleShape(s) && SoleClosing(s) && Enabled(s, a) && CancelSucceeds(a) && !a.Env?
    requires AboutToClose(Next(s, a), 0, fd)
    ensures EventsOf(Next(s, a).table.slots, fd) == {}
  {
    match a
    case Run(w, r) => ResumedIsNotClosing(s, r, fd);
    case Idle(w, i) => IdleIsNotClosing(s, i, fd);
    case Code(w, c) => CodeKeepsClosing(s, c, fd);
  }

  lemma EnvKeepsClosing(s: State, e: EnvAction)
    requires SoleClosing(s) && EnvEnabled(s, e)
    ensures SoleClosing(EnvNext(s, e))
  {
    forall fd | AboutToClose(EnvNext(s, e), 0, fd) && Runs(s, 0) ensures AboutToClose(s, 0, fd) {
    }
  }

  lemma StepKeepsClosing(s: State, a: Action)
    requires SoleShape(s) && SoleClosing(s) && Enabled(s, a) && CancelSucceeds(a) && |Next(s, a).workers| == 1
    ensures SoleClosing(Next(s, a))
  {
    if a.Env? {
      EnvKeepsClosing(s, a.e);
    } else {
      forall fd | AboutToClose(Next(s, a), 0, fd) ensures EventsOf(Next(s, a).table.slots, fd) == {} {
        StepClosing(s, a, fd);
      }
    }
  }

  lemma {:induction false} SoleRunCloses(s: State, acts: seq<Action>)
    requires SoleShape(s) && SoleClosing(s) && Legal(s, acts) && forall i :: 0 <= i < |acts| ==> CancelSucceeds(acts[i])
    ensures SoleClosing(Exec(s, acts))
    decreases |acts|
  {
    if acts != [] {
      StepKeepsParked(s, acts[0]);
      assert CancelSucceeds(acts[0]);
      StepKeepsClosing(s, acts[0]);
      assert forall i :: 0 <= i < |acts[1..]| ==> acts[1..][i] == acts[i + 1];
      SoleRunCloses(Next(s, acts[0]), acts[1..]);
    }
  }

  // ---- two workers ----

  /** Fiber 0 waits on descriptor 7; fiber 1, on worker 1, has cancelled the events of 7 and is about to close it. */
  lemma EventsCancelled(n: nat) returns (t: State)
    requires n >= 2
    ensures Reaches(n, t) && |t.workers| == n && At(t, 0, IdleCheck) && !t.workers[0].idleDone
    ensures t.timers == map[] && !t.tryStop && t.queue == [0] && t.table.slots == map[] && t.table.interest == map[]
    ensures t.workers[1].pc == Running(1) && |t.fibers| == 2 && t.fibers[1].pc == Closing(7)
    ensures t.fibers[0] == Fiber(HOLD, Waiting(0, None), InQueue, None)
    ensures t.calls == [Call(Key(7, READ), None, {}, false, true)]
  {
    ReachesInitial(n);
    t := NewFiber(n, Initial(n), 0);
    t := WaitFor(n, t, 0, Key(7, READ));
    t := NewFiber(n, t, 1);
    AddedKeys(map[], Key(7, READ), 0);
    t := CancelSeven(n, t);
  }

  lemma CancelSeven(n: nat, s: State) returns (t: State)
    requires Reaches(n, s) && Runs(s, 1) && Cur(s, 1) == 1 && |s.fibers| == 2 && s.fibers[1] == RunningOn(1, User)
    requires s.fibers[0].token.InSlot? && s.queue == [] && s.refused == {}
    requires s.table.slots == map[Key(7, READ) := 0] && s.table.interest == map[7 := {READ}]
    ensures Reaches(n, t) && t.table.slots == map[] && t.table.interest == map[] && t.queue == [0]
    ensures t == s.(fibers := [s.fibers[0].(token := InQueue), RunningOn(1, Closing(7))],
                    table := t.table, queue := t.queue)
  {
    assert Key(7, READ) in s.table.slots;
    assert EventsOf(s.table.slots, 7) == {READ};
    t := Go(n, s, Code(1, CloseEvents(7, true)));
    assert t.refused == {};
    ReadThenWrite(s.table.slots, 7, {READ});
    assert t.fibers == [s.fibers[0].(token := InQueue), RunningOn(1, Closing(7))];
  }

  /** Worker 0 goes round and takes fiber 0, which tries again. */
  lemma WaiterRetries(n: nat) returns (t: State)
    requires n >= 2
    ensures Reaches(n, t) && |t.workers| == n && t.table.slots == map[] && t.table.interest == map[]
    ensures t.workers[0].pc == Running(0) && t.workers[1].pc == Running(1)
    ensures |t.fibers| == 2 && t.fibers[0] == RunningOn(0, Arming(0)) && t.fibers[1].pc == Closing(7)
    ensures t.calls == [Call(Key(7, READ), None, {}, false, true)]
  {
    t := EventsCancelled(n);
    t := Doze(n, t, 0);
    t := WakeWith(n, t, 0, []);
    t := Rise(n, t, 0);
    t := TakeWaiter(n, t);
    t := TryAgain(n, t);
  }

  lemma TryAgain(n: nat, s: State) returns (t: State)
    requires Reaches(n, s) && Runs(s, 0) && Cur(s, 0) == 0 && s.fibers[0] == RunningOn(0, Disarming(0, None))
    requires s.calls == [Call(Key(7, READ), None, {}, false, true)]
    ensures Reaches(n, t) && t == s.(fibers := s.fibers[0 := RunningOn(0, Arming(0))])
  {
    t := Go(n, s, Code(0, Disarm));
    t := Go(n, t, Code(0, Check));
    t := Go(n, t, Code(0, Retry(true)));
  }

  lemma TakeWaiter(n: nat, s: State) returns (t: State)
    requires Reaches(n, s) && At(s, 0, Top) && s.queue == [0] && |s.fibers| == 2
    requires s.fibers[0] == Fiber(HOLD, Waiting(0, None), InQueue, None)
    ensures Reaches(n, t)
    ensures t == s.(queue := [], active := s.active + 1, fibers := s.fibers[0 := RunningOn(0, Disarming(0, None))],
                    workers := s.workers[0 := s.workers[0].(pc := Running(0))])
  {
    assert QueueStates(s)[0] == HOLD;
    t := Go(n, s, Run(0, Take));
    t := Go(n, t, Run(0, Resume));
    assert t.queue == [];
  }

  lemma WaitsAgain(n: nat, s: State) returns (t: State)
    requires Reaches(n, s) && |s.workers| >= 2 && s.table.slots == map[] && s.table.interest == map[]
    requires s.workers[0].pc == Running(0) && s.workers[1].pc == Running(1) && |s.fibers| == 2
    requires s.fibers[0] == RunningOn(0, Adding(0, None)) && s.fibers[1].pc == Closing(7)
    requires s.calls == [Call(Key(7, READ), None, {}, false, true)]
    ensures Reaches(n, t) && AboutToClose(t, 1, 7) && EventsOf(t.table.slots, 7) != {}
  {
    t := Go(n, s, Code(0, AddEvent(true)));
    AddedKeys(map[], Key(7, READ), 0);
  }

  /** It waits on descriptor 7 again before worker 1 closes that. */
  lemma WaiterIsBack(n: nat) returns (t: State)
    requires n >= 2
    ensures Reaches(n, t) && AboutToClose(t, 1, 7) && EventsOf(t.table.slots, 7) != {}
  {
    t := WaiterRetries(n);
    t := Go(n, t, Code(0, ArmTimer));
    t := WaitsAgain(n, t);
  }

  lemma SoleWorkerCloses(acts: seq<Action>, w: nat, fd: nat)
    requires Legal(Initial(1), acts) && forall i :: 0 <= i < |acts| ==> CancelSucceeds(acts[i])
    requires AboutToClose(Exec(Initial(1), acts), w, fd)
    ensures EventsOf(Exec(Initial(1), acts).table.slots, fd) == {}
  {
    SoleRunCloses(Initial(1), acts);
  }

  lemma NobodyCloses(acts: seq<Action>, w: nat, fd: nat)
    requires Legal(Initial(0), acts)
    ensures !AboutToClose(Exec(Initial(0), acts), w, fd)
  {
    ReachableInv(0, acts);
  }

  /** Every close is clean, given that cancellations succeed, exactly when there is at most one worker; refused
      additions or not. */
  lemma ClosesCleanlyIffOneWorker(n: nat)
    ensures ClosesCleanly(n) <==> n <= 1
  {
    if n <= 1 {
      forall acts, w, fd | Legal(Initial(n), acts) && (forall i :: 0 <= i < |acts| ==> CancelSucceeds(acts[i]))
                           && AboutToClose(Exec(Initial(n), acts), w, fd)
        ensures EventsOf(Exec(Initial(n), acts).table.slots, fd) == {} {
        if n == 1 {
          SoleWorkerCloses(acts, w, fd);
        } else {
          NobodyCloses(acts, w, fd);
        }
      }
    } else {
      var s := WaiterIsBack(n);
      var acts :| RunTo(n, acts, s);
      assert AboutToClose(Exec(Initial(n), acts), 1, 7);
    }
  }
}
