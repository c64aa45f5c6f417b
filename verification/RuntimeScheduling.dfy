/** What the worker loop guarantees: one worker per fiber, fibers taken only with their context saved, service in
    bounded order, and a quiet scheduler that stays quiet. */
module RuntimeScheduling {
  import opened Common
  import opened EventTable
  import opened Runtime
  import opened RuntimeFrame
  import opened RuntimeTokens
  import opened RuntimeCounters
  import opened RuntimeInvariant
  import opened RuntimeShutdown
  import opened RuntimeSole
  import opened Deadlines

  /** The fiber a worker has between taking it and being done with it. */
  function FiberOf(pc: WorkerPc): Option<nat> {
    match pc
    case Taken(f) => Some(f)
    case _ => Executes(pc)
  }

  /** No fiber is ever on two workers, as long as no fiber of a refused addition has been scheduled. */
  lemma MutualExclusion(n: nat, acts: seq<Action>, v: nat, w: nat)
    requires Legal(Initial(n), acts) && !Exec(Initial(n), acts).misled && v < n && w < n && v != w
    ensures var s := Exec(Initial(n), acts);
            |s.workers| == n && (FiberOf(s.workers[v].pc).Some? ==> FiberOf(s.workers[v].pc) != FiberOf(s.workers[w].pc))
  {
    var s := Exec(Initial(n), acts);
    ReachableInv(n, acts);
    assert WorkerOk(s, v) && WorkerOk(s, w);
    var f := FiberOf(s.workers[v].pc);
    if f.Some? {
      assert f.value < |s.fibers|;
      assert FiberOk(s, f.value);
    }
  }

  lemma ReadyInQueueIsSuspended(s: State, i: nat)
    requires TokenInv(s) && i < |s.queue| && StateOf(s, s.queue[i]) != EXEC
    ensures s.queue[i] < |s.fibers| && (s.fibers[s.queue[i]].st == INIT || s.fibers[s.queue[i]].st == HOLD)
    ensures forall w :: 0 <= w < |s.workers| ==> FiberOf(s.workers[w].pc) != Some(s.queue[i])
  {
    var f := s.queue[i];
    assert Holds(s, f, InQueue);
    assert FiberOk(s, f);
    forall w | 0 <= w < |s.workers| ensures FiberOf(s.workers[w].pc) != Some(f) {
      assert WorkerOk(s, w);
    }
  }

  /** A fiber is taken only when it has not started or its last worker has put it on hold: at that moment no
      worker has it, even if its wake-up was queued before it yielded. Again as long as no fiber of a refused
      addition has been scheduled. */
  lemma TakenOnlyWhenSaved(n: nat, acts: seq<Action>, w: nat)
    requires Legal(Initial(n), acts) && Enabled(Exec(Initial(n), acts), Run(w, Take))
    requires !Exec(Initial(n), acts).misled
    ensures var s := Exec(Initial(n), acts); var t := Next(s, Run(w, Take));
            t.workers[w].pc.Taken? ==>
              var f := t.workers[w].pc.f;
              && f < |s.fibers| && (s.fibers[f].st == INIT || s.fibers[f].st == HOLD)
              && (forall v :: 0 <= v < |s.workers| ==> FiberOf(s.workers[v].pc) != Some(f))
  {
    var s := Exec(Initial(n), acts);
    ReachableInv(n, acts);
    var r := FirstReady(QueueStates(s));
    if r < |s.queue| {
      assert QueueStates(s)[r] == StateOf(s, s.queue[r]);
      ReadyInQueueIsSuspended(s, r);
    }
  }

  // ---- bounded service ----

  /** A single worker at the head of its loop serves the queue in order, in every run: nothing queued is executing
      then. */
  lemma OneWorkerTakesTheFirst(acts: seq<Action>)
    requires Legal(Initial(1), acts) && Enabled(Exec(Initial(1), acts), Run(0, Take))
    requires Exec(Initial(1), acts).queue != []
    ensures var s := Exec(Initial(1), acts); var t := Next(s, Run(0, Take));
            t.workers[0].pc == Taken(s.queue[0]) && t.queue == s.queue[1..]
  {
    var s := Exec(Initial(1), acts);
    if s.queue[0] < |s.fibers| {
      OthersAreParked(acts, s.queue[0]);
    }
    assert QueueStates(s)[0] == StateOf(s, s.queue[0]);
    TakeOfFirst(s);
  }

  lemma TakeOfFirst(s: State)
    requires At(s, 0, Top) && s.queue != [] && QueueStates(s)[0] != EXEC
    ensures TakeStep(s, 0).workers[0].pc == Taken(s.queue[0]) && TakeStep(s, 0).queue == s.queue[1..]
  {
  }

  predicate IsTake(a: Action) {
    a.Run? && a.r == Take
  }

  function Takes(acts: seq<Action>): nat {
    if acts == [] then 0 else Bit(IsTake(acts[0])) + Takes(acts[1..])
  }

  /** Some step of the run takes `f`. */
  ghost predicate TakesFiber(s: State, acts: seq<Action>, f: nat)
    requires Legal(s, acts)
    decreases |acts|
  {
    acts != [] && ((IsTake(acts[0]) && Next(s, acts[0]).workers[acts[0].w].pc == Taken(f))
                   || TakesFiber(Next(s, acts[0]), acts[1..], f))
  }

  /** Queued at position `p` and not executing. */
  ghost predicate ReadyAt(s: State, f: nat, p: nat) {
    p < |s.queue| && s.queue[p] == f && StateOf(s, f) != EXEC
  }

  lemma OtherStepsAppend(s: State, a: Action)
    requires Enabled(s, a) && !IsTake(a)
    ensures s.queue <= Next(s, a).queue
  {
    match a
    case Env(_) =>
    case Run(w, r) =>
    case Idle(w, i) => IdleMoves(s, w, i);
    case Code(w, c) => CodeMoves(s, w, c);
  }

  /** A queued fiber that is not executing stays at its place until a take removes something before it. */
  lemma StaysReady(s: State, a: Action, f: nat, p: nat)
    requires Inv(s) && Enabled(s, a) && !Next(s, a).misled && !IsTake(a) && ReadyAt(s, f, p)
    ensures ReadyAt(Next(s, a), f, p)
  {
    var t := Next(s, a);
    OtherStepsAppend(s, a);
    StepKeepsInv(s, a);
    if s.misled {
      MisledStays(s, a);
    }
    ReadyInQueueIsSuspended(s, p);
    assert Holds(s, f, InQueue) && Holds(t, t.queue[p], InQueue);
    assert FiberOk(s, f) && FiberOk(t, f);
    StateStays(s, a, f);
  }

  lemma RunStateStays(s: State, w: nat, r: RunAction, f: nat)
    requires w < |s.workers| && RunEnabled(s, w, r) && f < |s.fibers|
    requires FiberOf(s.workers[w].pc) != Some(f)
    ensures f < |RunNext(s, w, r).fibers| && RunNext(s, w, r).fibers[f].st == s.fibers[f].st
  {
  }

  /** Only a step of its own worker changes the state of a fiber. */
  lemma StateStays(s: State, a: Action, f: nat)
    requires Enabled(s, a) && f < |s.fibers|
    requires forall w :: 0 <= w < |s.workers| ==> FiberOf(s.workers[w].pc) != Some(f)
    ensures f < |Next(s, a).fibers| && Next(s, a).fibers[f].st == s.fibers[f].st
  {
    match a
    case Env(_) =>
    case Run(w, r) => RunStateStays(s, w, r, f);
    case Idle(w, i) =>
      IdleMoves(s, w, i);
      assert Bystander(s.fibers[f], IdleNext(s, w, i).fibers[f], false);
    case Code(w, c) =>
      CodeMoves(s, w, c);
      assert Cur(s, w) != f;
      assert Bystander(s.fibers[f], CodeNext(s, w, c).fibers[f], Erases(c));
  }

  lemma TakeFindsBefore(s: State, f: nat, p: nat)
    requires Inv(s) && !s.misled && ReadyAt(s, f, p)
    ensures var r := FirstReady(QueueStates(s)); r <= p && (r < p ==> s.queue[r] != f)
  {
    assert QueueStates(s)[p] == StateOf(s, f);
    assert Distinct(s.queue);
  }

  lemma StateAfterTake(s: State, w: nat, f: nat)
    requires At(s, w, Top) && f < |s.fibers|
    ensures StateOf(TakeStep(s, w), f) == StateOf(s, f)
  {
  }

  /** A take serves `f` or brings it one place forward. */
  lemma TakeAdvances(s: State, w: nat, f: nat, p: nat)
    requires Inv(s) && !s.misled && At(s, w, Top) && ReadyAt(s, f, p)
    ensures TakeStep(s, w).workers[w].pc == Taken(f) || (p > 0 && ReadyAt(TakeStep(s, w), f, p - 1))
  {
    TakeFindsBefore(s, f, p);
    ReadyInQueueIsSuspended(s, p);
    StateAfterTake(s, w, f);
  }

  /** Service within a bound, for any number of workers: a queued fiber that is not executing at position `p` is
      among those served by the next p+1 takes, whatever is appended meanwhile. */
  lemma {:induction false} ServedWithinBound(s: State, acts: seq<Action>, f: nat, p: nat)
    requires Inv(s) && Legal(s, acts) && !Exec(s, acts).misled && ReadyAt(s, f, p) && Takes(acts) > p
    ensures TakesFiber(s, acts, f)
    decreases |acts|
  {
    StepKeepsInv(s, acts[0]);
    RunKeepsInv(Next(s, acts[0]), acts[1..]);
    if s.misled {
      MisledStays(s, acts[0]);
    }
    if IsTake(acts[0]) {
      TakeAdvances(s, acts[0].w, f, p);
      if Next(s, acts[0]).workers[acts[0].w].pc != Taken(f) {
        ServedWithinBound(Next(s, acts[0]), acts[1..], f, p - 1);
      }
    } else {
      StaysReady(s, acts[0], f, p);
      ServedWithinBound(Next(s, acts[0]), acts[1..], f, p);
    }
  }

  // ---- quiescence ----

  lemma QuietRunStep(s: State, w: nat, r: RunAction)
    requires Counted(s) && NoWork(s) && w < |s.workers| && RunEnabled(s, w, r)
    ensures NoWork(RunNext(s, w, r)) && RunNext(s, w, r).table.slots == s.table.slots
  {
    NoActiveWorker(s, w);
    RunMoves(s, w, r);
  }

  lemma QuietIdleStep(s: State, w: nat, i: IdleAction)
    requires NoWork(s) && s.table.slots == map[] && w < |s.workers| && IdleEnabled(s, w, i)
    ensures NoWork(IdleNext(s, w, i)) && IdleNext(s, w, i).table.slots == map[]
  {
    match i
    case ListExpired => QuietListing(s, w);
    case HandleReady(ok) => QuietReport(s, w, ok);
    case ScheduleExpired(_) =>
    case _ => IdlingMoves(s, w, i);
  }

  lemma QuietListing(s: State, w: nat)
    requires NoWork(s) && s.table.slots == map[] && w < |s.workers| && IdleEnabled(s, w, ListExpired)
    ensures NoWork(ListStep(s, w)) && ListStep(s, w).table.slots == map[]
  {
    assert Due(s.timers, s.clock) == map[] && Later(s.timers, s.clock) == map[];
    NothingRearmed(map[], (cb: Callback) => Period(s.handles, cb), s.clock);
  }

  lemma QuietReport(s: State, w: nat, ok: bool)
    requires NoWork(s) && s.table.slots == map[] && w < |s.workers| && IdleEnabled(s, w, HandleReady(ok))
    ensures NoWork(ReadyStep(s, w, ok)) && ReadyStep(s, w, ok).table.slots == map[]
  {
    assert EventsOf(s.table.slots, s.workers[w].reports[0].fd) == {};
  }

  lemma QuietStep(s: State, a: Action)
    requires Inv(s) && NoWork(s) && s.table.slots == map[] && Enabled(s, a) && a != Env(Outside)
    ensures Inv(Next(s, a)) && NoWork(Next(s, a)) && Next(s, a).table.slots == map[]
  {
    StepKeepsInv(s, a);
    match a
    case Env(_) =>
    case Run(w, r) => QuietRunStep(s, w, r);
    case Idle(w, i) => QuietIdleStep(s, w, i);
    case Code(w, _) => NoActiveWorker(s, w);
  }

  /** Without work from outside, a runtime without work and without set bits stays so, whatever its workers do. */
  lemma {:induction false} QuiescenceIsStable(s: State, acts: seq<Action>)
    requires Inv(s) && NoWork(s) && s.table.slots == map[] && Legal(s, acts)
    requires forall i :: 0 <= i < |acts| ==> acts[i] != Env(Outside)
    ensures NoWork(Exec(s, acts)) && Exec(s, acts).table.slots == map[]
    decreases |acts|
  {
    if acts != [] {
      QuietStep(s, acts[0]);
      assert forall i :: 0 <= i < |acts[1..]| ==> acts[1..][i] == acts[i + 1];
      QuiescenceIsStable(Next(s, acts[0]), acts[1..]);
    }
  }

  /** Fibers that only schedule others, as on the base scheduler. */
  predicate BaseAction(a: Action) {
    a.Code? ==> a.c.Spawn? || a.c.Finish?
  }

  ghost predicate OnlyFibers(s: State) {
    s.timers == map[] && s.table.slots == map[]
    && forall w :: 0 <= w < |s.workers| && s.workers[w].pc.Scheduling? ==> s.workers[w].pc.hand == map[]
  }

  lemma BaseWorkerKeeps(s: State, w: nat, r: RunAction)
    requires OnlyFibers(s) && w < |s.workers| && RunEnabled(s, w, r)
    ensures OnlyFibers(RunNext(s, w, r))
  {
  }

  lemma BaseStepKeeps(s: State, a: Action)
    requires OnlyFibers(s) && Enabled(s, a) && BaseAction(a)
    ensures OnlyFibers(Next(s, a))
  {
    match a
    case Env(_) =>
    case Run(w, r) => BaseWorkerKeeps(s, w, r);
    case Idle(w, i) => BaseIdleKeeps(s, w, i);
    case Code(w, c) =>
  }

  lemma BaseIdleKeeps(s: State, w: nat, i: IdleAction)
    requires OnlyFibers(s) && w < |s.workers| && IdleEnabled(s, w, i)
    ensures OnlyFibers(IdleNext(s, w, i))
  {
    if i.HandleReady? {
      assert EventsOf(s.table.slots, s.workers[w].reports[0].fd) == {};
    }
  }

  lemma {:induction false} BaseRunKeeps(s: State, acts: seq<Action>)
    requires OnlyFibers(s) && Legal(s, acts) && forall i :: 0 <= i < |acts| ==> BaseAction(acts[i])
    ensures OnlyFibers(Exec(s, acts))
    decreases |acts|
  {
    if acts != [] {
      assert BaseAction(acts[0]);
      BaseStepKeeps(s, acts[0]);
      assert forall i :: 0 <= i < |acts[1..]| ==> acts[1..][i] == acts[i + 1];
      BaseRunKeeps(Next(s, acts[0]), acts[1..]);
    }
  }

  /** On the base scheduler "queue empty and nobody active", seen once, holds ever after, for any number of
      workers, unless work comes from outside. */
  lemma BaseQuiescenceIsStable(n: nat, acts: seq<Action>, more: seq<Action>)
    requires Legal(Initial(n), acts) && Legal(Exec(Initial(n), acts), more)
    requires forall i :: 0 <= i < |acts| ==> BaseAction(acts[i])
    requires forall i :: 0 <= i < |more| ==> more[i] != Env(Outside)
    requires var s := Exec(Initial(n), acts); s.queue == [] && s.active == 0
    ensures var t := Exec(Exec(Initial(n), acts), more); t.queue == [] && t.active == 0
  {
    ReachableInv(n, acts);
    BaseRunKeeps(Initial(n), acts);
    QuiescenceIsStable(Exec(Initial(n), acts), more);
  }
}
