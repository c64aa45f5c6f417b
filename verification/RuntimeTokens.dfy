/** One wake-up per suspended fiber and one worker per fiber, in every reachable state. */
module RuntimeTokens {
  import opened Common
  import opened EventTable
  import opened Deadlines
  import opened Runtime
  import opened RuntimeFrame

  ghost predicate Holds(s: State, f: nat, token: Token) {
    f < |s.fibers| && s.fibers[f].token == token
  }

  function Executes(pc: WorkerPc): Option<nat> {
    match pc
    case Running(f) => Some(f)
    case Back(f) => Some(f)
    case Settling(f) => Some(f)
    case _ => None
  }

  /** Suspended in, or not yet started on, a wait that something has to end. */
  predicate NeedsWake(pc: Pc) {
    pc.Start? || pc.Waiting? || pc.Napping?
  }

  /** The queue, the slots and the timers hold fibers whose token says so. */
  ghost predicate QueueOk(s: State) {
    Distinct(s.queue) && forall i :: 0 <= i < |s.queue| ==> Holds(s, s.queue[i], InQueue)
  }

  ghost predicate SlotsOk(s: State) {
    forall k :: k in Live(s) ==> Holds(s, Live(s)[k], InSlot(k))
  }

  ghost predicate TimersOk(s: State) {
    forall d :: d in s.timers && s.timers[d].WakeSleeper? ==> Holds(s, s.timers[d].sleeper, InTimer(d))
  }

  /** How the fields of one fiber hang together. */
  ghost predicate Coherent(fb: Fiber) {
    && (NeedsWake(fb.pc) <==> fb.token != NoToken)
    && (fb.pc.Start? ==> fb.token.InQueue? || fb.token.InHand?)
    && (fb.pc.Waiting? ==> fb.token.InQueue? || fb.token.InHand? || fb.token.InSlot?)
    && (fb.pc.Napping? ==> !fb.token.InSlot?)
    && (fb.st == INIT <==> fb.pc.Start?)
    && (Dead(fb.st) <==> fb.pc.Finished?)
    && fb.st != READY
    && (fb.st == HOLD ==> fb.pc.Waiting? || fb.pc.Napping?)
    && (fb.on.None? ==> fb.st != EXEC)
    && (fb.on.Some? ==> fb.st == EXEC || Dead(fb.st))
    && (fb.token.InHand? ==> fb.on.None?)
  }

  /** A token names a place that really holds the fiber. */
  ghost predicate Home(s: State, f: nat, token: Token) {
    match token
    case InQueue => f in s.queue
    case InSlot(k) => k in Live(s) && Live(s)[k] == f
    case InHand(w) => At(s, w, Taken(f))
    case InTimer(d) => d in s.timers && s.timers[d] == WakeSleeper(f)
    case Expired(w, d) => w < |s.workers| && s.workers[w].pc.Scheduling? && d in s.workers[w].pc.hand
                          && s.workers[w].pc.hand[d] == WakeSleeper(f)
    case Courier(g) => g < |s.fibers| && Carries(s.fibers[g].pc) == Some(f)
    case _ => true
  }

  /** The sleeper a fiber is on its way to wake. */
  function Carries(pc: Pc): Option<nat> {
    match pc
    case Start(WakeSleeper(f)) => Some(f)
    case Waking(f) => Some(f)
    case _ => None
  }

  ghost predicate FiberOk(s: State, f: nat)
    requires f < |s.fibers|
  {
    var fb := s.fibers[f];
    && Coherent(fb)
    && Home(s, f, fb.token)
    && (fb.on.Some? ==> fb.on.value < |s.workers| && Executes(s.workers[fb.on.value].pc) == Some(f))
    && (Carries(fb.pc).Some? ==> Holds(s, Carries(fb.pc).value, Courier(f)))
  }

  ghost predicate WorkerOk(s: State, w: nat)
    requires w < |s.workers|
  {
    var pc := s.workers[w].pc;
    && (pc.Taken? ==> Holds(s, pc.f, InHand(w)))
    && (Executes(pc).Some? ==> Executes(pc).value < |s.fibers| && s.fibers[Executes(pc).value].on == Some(w))
    && (pc.Back? || pc.Settling? ==> MayLeave(s.fibers[pc.f].pc))
    && (pc.Scheduling? ==>
          forall d :: d in pc.hand && pc.hand[d].WakeSleeper? ==> Holds(s, pc.hand[d].sleeper, Expired(w, d)))
  }

  /** Where a fiber stands when it switches back to its worker. */
  predicate MayLeave(pc: Pc) {
    pc.Waiting? || pc.Napping? || pc.Finished?
  }

  ghost predicate FibersOk(s: State) {
    forall f :: 0 <= f < |s.fibers| ==> FiberOk(s, f)
  }

  ghost predicate WorkersOk(s: State) {
    forall w :: 0 <= w < |s.workers| ==> WorkerOk(s, w)
  }

  ghost predicate TokenInv(s: State) {
    QueueOk(s) && SlotsOk(s) && TimersOk(s) && FibersOk(s) && WorkersOk(s)
  }

  /** A worker that holds no fiber and no callback that wakes a sleeper. */
  predicate Plain(pc: WorkerPc) {
    Executes(pc).None? && !pc.Taken? && (pc.Scheduling? ==> pc.hand == map[])
  }

  /** Running code, as opposed to waiting for a wake-up or carrying one. */
  predicate RunningPc(pc: Pc) {
    !NeedsWake(pc) && !pc.Waking? && !pc.Finished?
  }

  /** The fields the token invariant reads are the same, but for workers. */
  predicate SameButWorkers(s: State, t: State) {
    t.fibers == s.fibers && t.queue == s.queue && Live(t) == Live(s) && SameSleepers(s.timers, t.timers)
  }

  /** The same timers that wake sleepers. */
  predicate SameSleepers(a: map<nat, Callback>, b: map<nat, Callback>) {
    && (forall d :: d in a && a[d].WakeSleeper? ==> d in b && b[d] == a[d])
    && (forall d :: d in b && b[d].WakeSleeper? ==> d in a && a[d] == b[d])
  }

  predicate SameTokens(s: State, t: State) {
    SameButWorkers(s, t) && t.workers == s.workers
  }

  lemma SameKeeps(s: State, t: State)
    requires TokenInv(s) && SameTokens(s, t)
    ensures TokenInv(t)
  {
    forall f | 0 <= f < |t.fibers| ensures FiberOk(t, f) {
      assert FiberOk(s, f);
    }
    forall v | 0 <= v < |t.workers| ensures WorkerOk(t, v) {
      assert WorkerOk(s, v);
    }
  }

  lemma PlainMoveKeeps(s: State, t: State, w: nat)
    requires TokenInv(s) && SameButWorkers(s, t)
    requires w < |s.workers| == |t.workers| && t.workers == s.workers[w := t.workers[w]]
    requires Plain(s.workers[w].pc) && Plain(t.workers[w].pc)
    ensures TokenInv(t)
  {
    forall f | 0 <= f < |t.fibers| ensures FiberOk(t, f) {
      assert FiberOk(s, f);
    }
    forall v | 0 <= v < |t.workers| ensures WorkerOk(t, v) {
      assert WorkerOk(s, v);
    }
  }

  lemma ExecutingMoveKeeps(s: State, t: State, w: nat)
    requires TokenInv(s) && SameButWorkers(s, t)
    requires w < |s.workers| == |t.workers| && t.workers == s.workers[w := t.workers[w]]
    requires Executes(s.workers[w].pc).Some? && Executes(s.workers[w].pc).value < |s.fibers|
    requires Executes(t.workers[w].pc) == Executes(s.workers[w].pc)
    requires MayLeave(s.fibers[Executes(s.workers[w].pc).value].pc)
    ensures TokenInv(t)
  {
    forall f | 0 <= f < |t.fibers| ensures FiberOk(t, f) {
      assert FiberOk(s, f);
    }
    forall v | 0 <= v < |t.workers| ensures WorkerOk(t, v) {
      assert WorkerOk(s, v);
    }
  }

  /** The running fiber goes on in its own code, or ends. */
  ghost predicate LocalMove(s: State, t: State, w: nat) {
    && Runs(s, w) && RunningPc(CurPc(s, w)) && |t.fibers| == |s.fibers|
    && t.queue == s.queue && Live(t) == Live(s) && t.timers == s.timers && t.workers == s.workers
    && (forall f :: 0 <= f < |s.fibers| && f != Cur(s, w) ==> t.fibers[f] == s.fibers[f])
    && GoesOn(s.fibers[Cur(s, w)], t.fibers[Cur(s, w)])
  }

  predicate GoesOn(was: Fiber, fb: Fiber) {
    && fb.token == was.token && fb.on == was.on
    && ((RunningPc(fb.pc) && fb.st == was.st) || (fb.pc == Finished && Dead(fb.st)))
  }

  lemma LocalMoveKeeps(s: State, t: State, w: nat)
    requires TokenInv(s) && LocalMove(s, t, w)
    ensures TokenInv(t)
  {
    forall f | 0 <= f < |t.fibers| ensures FiberOk(t, f) {
      assert FiberOk(s, f);
    }
    forall v | 0 <= v < |t.workers| ensures WorkerOk(t, v) {
      assert WorkerOk(s, v);
    }
  }

  lemma EnqueueJobKeeps(s: State, job: Callback)
    requires TokenInv(s) && !job.WakeSleeper?
    ensures TokenInv(EnqueueJob(s, job))
  {
    var t := EnqueueJob(s, job);
    forall f | 0 <= f < |t.fibers| ensures FiberOk(t, f) {
      if f < |s.fibers| { assert FiberOk(s, f); }
    }
    forall v | 0 <= v < |t.workers| ensures WorkerOk(t, v) {
      assert WorkerOk(s, v);
    }
  }

  /** Insertion of a timer that wakes nobody, with or without notice. */
  lemma InsertTimerKeeps(s: State, t: State, d: nat, cb: Callback)
    requires TokenInv(s) && !cb.WakeSleeper? && t.timers == Insert(s.timers, d, cb)
    requires t.fibers == s.fibers && t.queue == s.queue && Live(t) == Live(s) && t.workers == s.workers
    ensures TokenInv(t)
  {
    SameKeeps(s, t);
  }

  /** The timer of a sleeper is erased: its token is lost. */
  ghost predicate LoseMove(s: State, t: State, d: nat) {
    && d in s.timers && s.timers[d].WakeSleeper?
    && (var f := s.timers[d].sleeper; f < |s.fibers| && t.fibers == s.fibers[f := s.fibers[f].(token := Lost)])
    && t.timers == s.timers - {d}
    && t.queue == s.queue && Live(t) == Live(s) && t.workers == s.workers
  }

  lemma LoseFibers(s: State, t: State, d: nat)
    requires TokenInv(s) && LoseMove(s, t, d)
    ensures FibersOk(t)
  {
    assert FiberOk(s, s.timers[d].sleeper);
    forall f | 0 <= f < |t.fibers| ensures FiberOk(t, f) {
      assert FiberOk(s, f);
    }
  }

  lemma LoseKeeps(s: State, t: State, d: nat)
    requires TokenInv(s) && LoseMove(s, t, d)
    ensures TokenInv(t)
  {
    assert FiberOk(s, s.timers[d].sleeper);
    LoseFibers(s, t, d);
    forall v | 0 <= v < |t.workers| ensures WorkerOk(t, v) {
      assert WorkerOk(s, v);
    }
  }

  /** A fiber whose bit was set moves from its slot to the queue. */
  ghost predicate TriggerMove(s: State, t: State, k: Key) {
    && k in Live(s)
    && (var f := Live(s)[k];
        && f < |s.fibers|
        && t.fibers == s.fibers[f := s.fibers[f].(token := InQueue)]
        && t.queue == s.queue + [f])
    && Live(t) == Live(s) - {k}
    && t.timers == s.timers && t.workers == s.workers
  }

  lemma TriggerFibers(s: State, t: State, k: Key)
    requires TokenInv(s) && TriggerMove(s, t, k)
    ensures FibersOk(t)
  {
    assert FiberOk(s, Live(s)[k]);
    forall f | 0 <= f < |t.fibers| ensures FiberOk(t, f) {
      assert FiberOk(s, f);
    }
  }

  lemma TriggerKeeps(s: State, t: State, k: Key)
    requires TokenInv(s) && TriggerMove(s, t, k)
    ensures TokenInv(t)
  {
    assert FiberOk(s, Live(s)[k]);
    TriggerFibers(s, t, k);
    forall v | 0 <= v < |t.workers| ensures WorkerOk(t, v) {
      assert WorkerOk(s, v);
    }
  }

  /** The running fiber puts itself into a free slot. */
  ghost predicate AddEventMove(s: State, t: State, w: nat, k: Key, pc: Pc) {
    && Runs(s, w) && RunningPc(CurPc(s, w)) && pc.Waiting? && k !in Live(s)
    && (var f := Cur(s, w);
        && t.fibers == s.fibers[f := s.fibers[f].(pc := pc, token := InSlot(k))]
        && Live(t) == Live(s)[k := f])
    && t.queue == s.queue && t.timers == s.timers && t.workers == s.workers
  }

  lemma AddEventFibers(s: State, t: State, w: nat, k: Key, pc: Pc)
    requires TokenInv(s) && AddEventMove(s, t, w, k, pc)
    ensures FibersOk(t)
  {
    assert WorkerOk(s, w) && FiberOk(s, Cur(s, w));
    forall f | 0 <= f < |t.fibers| ensures FiberOk(t, f) {
      assert FiberOk(s, f);
    }
  }

  lemma AddEventKeeps(s: State, t: State, w: nat, k: Key, pc: Pc)
    requires TokenInv(s) && AddEventMove(s, t, w, k, pc)
    ensures TokenInv(t)
  {
    assert WorkerOk(s, w) && FiberOk(s, Cur(s, w));
    AddEventFibers(s, t, w, k, pc);
    forall v | 0 <= v < |t.workers| ensures WorkerOk(t, v) {
      assert WorkerOk(s, v);
    }
  }

  /** The running fiber arms the timer that ends its sleep, or loses it to a timer with the same deadline. */
  ghost predicate SleepMove(s: State, t: State, w: nat, d: nat) {
    && Runs(s, w) && CurPc(s, w).Setting?
    && (var f := Cur(s, w);
        && t.fibers == s.fibers[f := s.fibers[f].(pc := Napping, token := if d in s.timers then Lost else InTimer(d))]
        && t.timers == Insert(s.timers, d, WakeSleeper(f)))
    && t.queue == s.queue && Live(t) == Live(s) && t.workers == s.workers
  }

  lemma SleepFibers(s: State, t: State, w: nat, d: nat)
    requires TokenInv(s) && SleepMove(s, t, w, d)
    ensures FibersOk(t)
  {
    assert WorkerOk(s, w) && FiberOk(s, Cur(s, w));
    forall f | 0 <= f < |t.fibers| ensures FiberOk(t, f) {
      assert FiberOk(s, f);
    }
  }

  lemma SleepKeeps(s: State, t: State, w: nat, d: nat)
    requires TokenInv(s) && SleepMove(s, t, w, d)
    ensures TokenInv(t)
  {
    assert WorkerOk(s, w) && FiberOk(s, Cur(s, w));
    SleepFibers(s, t, w, d);
    forall v | 0 <= v < |t.workers| ensures WorkerOk(t, v) {
      assert WorkerOk(s, v);
    }
  }

  /** Due timers move into the hand of the worker. */
  ghost predicate ListMove(s: State, t: State, w: nat, due: map<nat, Callback>) {
    && At(s, w, Listing)
    && due.Keys <= s.timers.Keys && (forall d :: d in due ==> due[d] == s.timers[d])
    && SameSleepers(s.timers - due.Keys, t.timers) && t.fibers == ExpireTokens(s.fibers, due, w)
    && t.workers == s.workers[w := s.workers[w].(pc := Scheduling(due))]
    && t.queue == s.queue && Live(t) == Live(s)
  }

  lemma ListFibers(s: State, t: State, w: nat, due: map<nat, Callback>)
    requires TokenInv(s) && ListMove(s, t, w, due)
    ensures FibersOk(t)
  {
    forall f | 0 <= f < |t.fibers| ensures FiberOk(t, f) {
      assert FiberOk(s, f);
    }
  }

  lemma ListKeeps(s: State, t: State, w: nat, due: map<nat, Callback>)
    requires TokenInv(s) && ListMove(s, t, w, due)
    ensures TokenInv(t)
  {
    ListFibers(s, t, w, due);
    forall v | 0 <= v < |t.workers| ensures WorkerOk(t, v) {
      assert WorkerOk(s, v);
    }
  }

  /** A callback that wakes a sleeper leaves the hand of the worker for a fresh fiber. */
  ghost predicate CourierMove(s: State, t: State, w: nat, d: nat) {
    && w < |s.workers| && s.workers[w].pc.Scheduling? && d in s.workers[w].pc.hand
    && s.workers[w].pc.hand[d].WakeSleeper? && s.workers[w].pc.hand[d].sleeper < |s.fibers|
    && (var f := s.workers[w].pc.hand[d].sleeper;
      t.fibers == s.fibers[f := s.fibers[f].(token := Courier(|s.fibers|))]
                  + [Fiber(INIT, Start(WakeSleeper(f)), InQueue, None)])
    && t.queue == s.queue + [|s.fibers|]
    && t.workers == s.workers[w := s.workers[w].(pc := Scheduling(s.workers[w].pc.hand - {d}))]
    && Live(t) == Live(s) && t.timers == s.timers
  }

  lemma CourierFibers(s: State, t: State, w: nat, d: nat)
    requires TokenInv(s) && CourierMove(s, t, w, d)
    ensures FibersOk(t)
  {
    assert WorkerOk(s, w) && FiberOk(s, s.workers[w].pc.hand[d].sleeper);
    forall f | 0 <= f < |t.fibers| ensures FiberOk(t, f) {
      if f < |s.fibers| { assert FiberOk(s, f); }
    }
  }

  lemma CourierWorkers(s: State, t: State, w: nat, d: nat)
    requires TokenInv(s) && CourierMove(s, t, w, d)
    ensures WorkersOk(t)
  {
    assert WorkerOk(s, w) && FiberOk(s, s.workers[w].pc.hand[d].sleeper);
    forall v | 0 <= v < |t.workers| ensures WorkerOk(t, v) {
      assert WorkerOk(s, v);
    }
  }

  lemma CourierKeeps(s: State, t: State, w: nat, d: nat)
    requires TokenInv(s) && CourierMove(s, t, w, d)
    ensures TokenInv(t)
  {
    assert WorkerOk(s, w) && FiberOk(s, s.workers[w].pc.hand[d].sleeper);
    CourierFibers(s, t, w, d);
    CourierWorkers(s, t, w, d);
  }

  /** Any other callback leaves the hand of the worker. */
  lemma DropFromHandKeeps(s: State, t: State, w: nat, d: nat)
    requires TokenInv(s) && w < |s.workers| && s.workers[w].pc.Scheduling? && d in s.workers[w].pc.hand
    requires !s.workers[w].pc.hand[d].WakeSleeper?
    requires SameButWorkers(s, t)
    requires t.workers == s.workers[w := s.workers[w].(pc := Scheduling(s.workers[w].pc.hand - {d}))]
    ensures TokenInv(t)
  {
    forall f | 0 <= f < |t.fibers| ensures FiberOk(t, f) {
      assert FiberOk(s, f);
    }
    forall v | 0 <= v < |t.workers| ensures WorkerOk(t, v) {
      assert WorkerOk(s, v);
    }
  }

  /** The callback of a sleep puts the sleeper into the queue. */
  ghost predicate WakeUpMove(s: State, t: State, w: nat) {
    && Runs(s, w) && CurPc(s, w).Waking? && CurPc(s, w).sleeper < |s.fibers|
    && (var g := Cur(s, w); var f := CurPc(s, w).sleeper;
        && t.fibers == s.fibers[g := s.fibers[g].(pc := Ending)][f := s.fibers[f].(token := InQueue)]
        && t.queue == s.queue + [f])
    && Live(t) == Live(s) && t.timers == s.timers && t.workers == s.workers
  }

  lemma WakeUpFibers(s: State, t: State, w: nat)
    requires TokenInv(s) && WakeUpMove(s, t, w)
    ensures FibersOk(t)
  {
    assert WorkerOk(s, w) && FiberOk(s, Cur(s, w)) && FiberOk(s, CurPc(s, w).sleeper);
    forall f | 0 <= f < |t.fibers| ensures FiberOk(t, f) {
      assert FiberOk(s, f);
    }
  }

  lemma WakeUpWorkers(s: State, t: State, w: nat)
    requires TokenInv(s) && WakeUpMove(s, t, w)
    ensures WorkersOk(t)
  {
    assert WorkerOk(s, w) && FiberOk(s, Cur(s, w)) && FiberOk(s, CurPc(s, w).sleeper);
    forall v | 0 <= v < |t.workers| ensures WorkerOk(t, v) {
      assert WorkerOk(s, v);
    }
  }

  lemma WakeUpPlaces(s: State, t: State, w: nat)
    requires TokenInv(s) && WakeUpMove(s, t, w)
    ensures QueueOk(t) && SlotsOk(t) && TimersOk(t)
  {
    assert WorkerOk(s, w) && FiberOk(s, Cur(s, w)) && FiberOk(s, CurPc(s, w).sleeper);
  }

  lemma WakeUpKeeps(s: State, t: State, w: nat)
    requires TokenInv(s) && WakeUpMove(s, t, w)
    ensures TokenInv(t)
  {
    WakeUpFibers(s, t, w);
    WakeUpWorkers(s, t, w);
    WakeUpPlaces(s, t, w);
  }

  /** A queued fiber that is not executing moves into the hand of a worker. */
  ghost predicate TakeMove(s: State, t: State, w: nat, r: nat) {
    && At(s, w, Top) && r < |s.queue| && s.queue[r] < |s.fibers|
    && (var f := s.queue[r];
        && s.fibers[f].st != EXEC
        && t.fibers == s.fibers[f := s.fibers[f].(token := InHand(w))]
        && t.workers == s.workers[w := s.workers[w].(pc := Taken(f))])
    && t.queue == RemoveAt(s.queue, r)
    && Live(t) == Live(s) && t.timers == s.timers
  }

  lemma TakeFibers(s: State, t: State, w: nat, r: nat)
    requires TokenInv(s) && TakeMove(s, t, w, r)
    ensures FibersOk(t)
  {
    assert WorkerOk(s, w) && FiberOk(s, s.queue[r]);
    forall f | 0 <= f < |t.fibers| ensures FiberOk(t, f) {
      assert FiberOk(s, f);
    }
  }

  lemma TakeKeeps(s: State, t: State, w: nat, r: nat)
    requires TokenInv(s) && TakeMove(s, t, w, r)
    ensures TokenInv(t)
  {
    assert WorkerOk(s, w) && FiberOk(s, s.queue[r]);
    TakeFibers(s, t, w, r);
    forall v | 0 <= v < |t.workers| ensures WorkerOk(t, v) {
      assert WorkerOk(s, v);
    }
  }

  /** The taken fiber is switched to. */
  ghost predicate ResumeMove(s: State, t: State, w: nat) {
    && w < |s.workers| && s.workers[w].pc.Taken? && s.workers[w].pc.f < |s.fibers|
    && (var f := s.workers[w].pc.f;
        && t.fibers == s.fibers[f := Fiber(EXEC, AfterResume(s.fibers[f].pc), NoToken, Some(w))]
        && t.workers == s.workers[w := s.workers[w].(pc := Running(f))])
    && t.queue == s.queue && Live(t) == Live(s) && t.timers == s.timers
  }

  lemma ResumeFibers(s: State, t: State, w: nat)
    requires TokenInv(s) && ResumeMove(s, t, w)
    ensures FibersOk(t)
  {
    assert WorkerOk(s, w) && FiberOk(s, s.workers[w].pc.f);
    forall f | 0 <= f < |t.fibers| ensures FiberOk(t, f) {
      assert FiberOk(s, f);
    }
  }

  lemma ResumeKeeps(s: State, t: State, w: nat)
    requires TokenInv(s) && ResumeMove(s, t, w)
    ensures TokenInv(t)
  {
    assert WorkerOk(s, w) && FiberOk(s, s.workers[w].pc.f);
    ResumeFibers(s, t, w);
    forall v | 0 <= v < |t.workers| ensures WorkerOk(t, v) {
      assert WorkerOk(s, v);
    }
  }

  /** The fiber that came back is put on hold, unless it has ended. */
  ghost predicate SettleMove(s: State, t: State, w: nat) {
    && w < |s.workers| && s.workers[w].pc.Settling? && s.workers[w].pc.f < |s.fibers|
    && (var f := s.workers[w].pc.f; var fb := s.fibers[f];
        && t.fibers == s.fibers[f := fb.(st := if Dead(fb.st) then fb.st else HOLD, on := None)]
        && t.workers == s.workers[w := s.workers[w].(pc := IdleCheck)])
    && t.queue == s.queue && Live(t) == Live(s) && t.timers == s.timers
  }

  lemma SettleFibers(s: State, t: State, w: nat)
    requires TokenInv(s) && SettleMove(s, t, w)
    ensures FibersOk(t)
  {
    assert WorkerOk(s, w) && FiberOk(s, s.workers[w].pc.f);
    forall f | 0 <= f < |t.fibers| ensures FiberOk(t, f) {
      assert FiberOk(s, f);
    }
  }

  lemma SettleKeeps(s: State, t: State, w: nat)
    requires TokenInv(s) && SettleMove(s, t, w)
    ensures TokenInv(t)
  {
    assert WorkerOk(s, w) && FiberOk(s, s.workers[w].pc.f);
    SettleFibers(s, t, w);
    forall v | 0 <= v < |t.workers| ensures WorkerOk(t, v) {
      assert WorkerOk(s, v);
    }
  }

  // ---- one step of any kind ----

  lemma TriggerIfKeeps(s: State, wanted: bool, k: Key)
    requires TokenInv(s)
    ensures var t := TriggerIf(s, wanted, k);
            && (!t.misled ==> TokenInv(t)) && (s.misled ==> t.misled)
            && t.table.slots == if wanted then s.table.slots - {k} else s.table.slots
  {
    var t := TriggerIf(s, wanted, k);
    if !t.misled {
      if wanted && k in s.table.slots {
        assert k in Live(s) && Live(t) == Live(s) - {k};
        assert Holds(s, Live(s)[k], InSlot(k));
        TriggerKeeps(s, t, k);
      } else {
        SameKeeps(s, t);
      }
    }
  }

  lemma TriggerAllKeeps(s: State, fd: nat, evs: set<Event>, table: Table<nat>)
    requires TokenInv(s) && table.slots == s.table.slots - KeysOf(fd, evs)
    ensures !TriggerAll(s, fd, evs, table).misled ==> TokenInv(TriggerAll(s, fd, evs, table))
  {
    var s1 := TriggerIf(s, READ in evs, Key(fd, READ));
    TriggerIfKeeps(s, READ in evs, Key(fd, READ));
    ReadThenWrite(s.table.slots, fd, evs);
    ThenTriggers(s1, WRITE in evs, Key(fd, WRITE), table);
  }

  lemma ThenTriggers(s1: State, wanted: bool, k: Key, table: Table<nat>)
    requires s1.misled || TokenInv(s1)
    requires table.slots == if wanted then s1.table.slots - {k} else s1.table.slots
    ensures var t := TriggerIf(s1, wanted, k).(table := table); !t.misled ==> TokenInv(t)
  {
    var s2 := TriggerIf(s1, wanted, k);
    if !s2.misled {
      TriggerIfKeeps(s1, wanted, k);
      SameKeeps(s2, s2.(table := table));
    }
  }

  lemma EraseTimerKeeps(s: State, d: nat)
    requires TokenInv(s)
    ensures TokenInv(EraseTimer(s, d))
  {
    var t := EraseTimer(s, d);
    if d in s.timers && s.timers[d].WakeSleeper? {
      LoseKeeps(s, t, d);
    } else {
      forall f | 0 <= f < |t.fibers| ensures FiberOk(t, f) {
        assert FiberOk(s, f);
      }
      forall v | 0 <= v < |t.workers| ensures WorkerOk(t, v) {
        assert WorkerOk(s, v);
      }
    }
  }

  lemma TakeStepKeeps(s: State, w: nat)
    requires TokenInv(s) && At(s, w, Top)
    ensures TokenInv(TakeStep(s, w))
  {
    var r := FirstReady(QueueStates(s));
    if r == |s.queue| {
      PlainMoveKeeps(s, TakeStep(s, w), w);
    } else {
      assert Holds(s, s.queue[r], InQueue);
      assert QueueStates(s)[r] == s.fibers[s.queue[r]].st;
      TakeKeeps(s, TakeStep(s, w), w, r);
    }
  }

  lemma RunStepKeeps(s: State, w: nat, r: RunAction)
    requires TokenInv(s) && w < |s.workers| && RunEnabled(s, w, r)
    ensures TokenInv(RunNext(s, w, r))
  {
    var t := RunNext(s, w, r);
    assert WorkerOk(s, w);
    match r
    case Take => TakeStepKeeps(s, w);
    case Resume => ResumeStepKeeps(s, w);
    case Settle => SettleKeeps(s, t, w);
    case _ => WalkKeeps(s, w, r);
  }

  lemma ResumeStepKeeps(s: State, w: nat)
    requires TokenInv(s) && w < |s.workers| && RunEnabled(s, w, Resume)
    ensures TokenInv(ResumeStep(s, w))
  {
    assert WorkerOk(s, w) && FiberOk(s, s.workers[w].pc.f);
    ResumeKeeps(s, ResumeStep(s, w), w);
  }

  /** The steps that change the place of the worker only. */
  lemma WalkKeeps(s: State, w: nat, r: RunAction)
    requires TokenInv(s) && w < |s.workers| && RunEnabled(s, w, r) && (r == Yield || r == Decrement || r == EnterIdle)
    ensures TokenInv(RunNext(s, w, r))
  {
    assert WorkerOk(s, w);
    if r == EnterIdle {
      PlainMoveKeeps(s, RunNext(s, w, r), w);
    } else {
      ExecutingMoveKeeps(s, RunNext(s, w, r), w);
    }
  }

  lemma ScheduleExpiredKeeps(s: State, w: nat, d: nat)
    requires TokenInv(s) && w < |s.workers| && IdleEnabled(s, w, ScheduleExpired(d))
    ensures TokenInv(ScheduleExpiredStep(s, w, d))
  {
    assert WorkerOk(s, w);
    if s.workers[w].pc.hand[d].WakeSleeper? {
      CourierKeeps(s, ScheduleExpiredStep(s, w, d), w, d);
    } else {
      ScheduleOtherKeeps(s, w, d);
    }
  }

  lemma ScheduleOtherKeeps(s: State, w: nat, d: nat)
    requires TokenInv(s) && w < |s.workers| && IdleEnabled(s, w, ScheduleExpired(d))
    requires !s.workers[w].pc.hand[d].WakeSleeper?
    ensures TokenInv(ScheduleExpiredStep(s, w, d))
  {
    var hand: map<nat, Callback> := s.workers[w].pc.hand;
    var s1 := SetPc(s, w, Scheduling(hand - {d}));
    DropFromHandKeeps(s, s1, w, d);
    EnqueueJobKeeps(s1, hand[d]);
  }

  lemma ListStepKeeps(s: State, w: nat)
    requires TokenInv(s) && At(s, w, Listing)
    ensures TokenInv(ListStep(s, w))
  {
    var due := Due(s.timers, s.clock);
    var t := ListStep(s, w);
    assert forall d :: d in Later(s.timers, s.clock) <==> d in s.timers && d !in due;
    forall d | d in t.timers && t.timers[d].WakeSleeper? ensures d in s.timers - due.Keys && s.timers[d] == t.timers[d] {
      assert d in Later(s.timers, s.clock);
    }
    ListKeeps(s, t, w, due);
  }

  lemma ReadyStepKeeps(s: State, w: nat, ok: bool)
    requires TokenInv(s) && w < |s.workers| && IdleEnabled(s, w, HandleReady(ok))
    ensures !ReadyStep(s, w, ok).misled ==> TokenInv(ReadyStep(s, w, ok))
  {
    var fd := s.workers[w].reports[0].fd;
    var evs := if Hit(s, w) * EventsOf(s.table.slots, fd) != {} && ok then Hit(s, w) else {};
    var table := Ready(s.table, fd, Hit(s, w), ok);
    TriggerAllKeeps(s, fd, evs, table);
    if !TriggerAll(s, fd, evs, table).misled {
      TriggeredMoveKeeps(s, TriggerAll(s, fd, evs, table), w);
    }
  }

  lemma TriggeredMoveKeeps(s: State, m: State, w: nat)
    requires TokenInv(m) && m.workers == s.workers && w < |s.workers| && s.workers[w].pc.Handling?
    requires s.workers[w].reports != []
    ensures TokenInv(NextReport(m, w))
  {
    PlainMoveKeeps(m, NextReport(m, w), w);
  }

  lemma IdleStepKeeps(s: State, w: nat, i: IdleAction)
    requires TokenInv(s) && w < |s.workers| && IdleEnabled(s, w, i)
    ensures !IdleNext(s, w, i).misled ==> TokenInv(IdleNext(s, w, i))
  {
    match i
    case ListExpired => ListStepKeeps(s, w);
    case ScheduleExpired(d) => ScheduleExpiredKeeps(s, w, d);
    case HandleReady(ok) => ReadyStepKeeps(s, w, ok);
    case _ =>
      IdlingIsPlain(s, w, i);
      PlainMoveKeeps(s, IdleNext(s, w, i), w);
  }

  lemma IdlingIsPlain(s: State, w: nat, i: IdleAction)
    requires w < |s.workers| && IdleEnabled(s, w, i) && !i.ListExpired? && !i.ScheduleExpired? && !i.HandleReady?
    ensures var t := IdleNext(s, w, i);
            && SameButWorkers(s, t) && |t.workers| == |s.workers| && t.workers == s.workers[w := t.workers[w]]
            && Plain(s.workers[w].pc) && Plain(t.workers[w].pc)
  {
  }

  lemma SetTimerStepKeeps(s: State, w: nat)
    requires TokenInv(s) && Runs(s, w) && CodeEnabled(s, w, SetTimer)
    ensures TokenInv(SetTimerStep(s, w))
  {
    var p, d := CurPc(s, w).purpose, CurPc(s, w).d;
    if p.ForSleep? {
      SleepKeeps(s, SetTimerStep(s, w), w, d);
    } else {
      SetOtherTimerKeeps(s, w);
    }
  }

  lemma SetOtherTimerKeeps(s: State, w: nat)
    requires TokenInv(s) && Runs(s, w) && CodeEnabled(s, w, SetTimer) && !CurPc(s, w).purpose.ForSleep?
    ensures TokenInv(SetTimerStep(s, w))
  {
    var p, d := CurPc(s, w).purpose, CurPc(s, w).d;
    var s1 := SetFiberPc(s, Cur(s, w), AfterSetting(p, d));
    assert LocalMove(s, s1, w);
    LocalMoveKeeps(s, s1, w);
    InsertTimerKeeps(s1, SetTimerStep(s, w), d, JobOf(p, Cur(s, w)));
  }

  lemma CancelTimerStepKeeps(s: State, t: nat)
    requires TokenInv(s) && t < |s.handles|
    ensures TokenInv(CancelTimerStep(s, t))
  {
    if s.handles[t].alive {
      EraseTimerKeeps(s, s.handles[t].next);
      SameKeeps(EraseTimer(s, s.handles[t].next), CancelTimerStep(s, t));
    }
  }

  /** An erasure, and an insertion of a timer of the user. */
  lemma MoveTimerKeeps(s: State, was: nat, t: State, d: nat, h: nat)
    requires TokenInv(s)
    requires var m := EraseTimer(s, was);
             && t.timers == Insert(m.timers, d, UserTimer(h)) && t.fibers == m.fibers
             && t.queue == m.queue && Live(t) == Live(m) && t.workers == m.workers
    ensures TokenInv(t)
  {
    EraseTimerKeeps(s, was);
    InsertTimerKeeps(EraseTimer(s, was), t, d, UserTimer(h));
  }

  lemma RefreshTimerStepKeeps(s: State, t: nat)
    requires TokenInv(s) && t < |s.handles|
    ensures TokenInv(RefreshTimerStep(s, t))
  {
    if CanMove(s, t) {
      MoveTimerKeeps(s, s.handles[t].next, RefreshTimerStep(s, t), s.clock + s.handles[t].ms, t);
    }
  }

  lemma ResetTimerStepKeeps(s: State, t: nat, ms: nat, fromNow: bool)
    requires TokenInv(s) && t < |s.handles|
    ensures TokenInv(ResetTimerStep(s, t, ms, fromNow))
  {
    if !(ms == s.handles[t].ms && !fromNow) && CanMove(s, t) {
      MoveTimerKeeps(s, s.handles[t].next, ResetTimerStep(s, t, ms, fromNow),
                     if fromNow then s.clock + ms else s.handles[t].next, t);
    }
  }

  lemma GiveUpStepKeeps(s: State, w: nat)
    requires TokenInv(s) && Runs(s, w) && CodeEnabled(s, w, GiveUp)
    ensures TokenInv(GiveUpStep(s, w))
  {
    var c := CurPc(s, w).c;
    var s1 := SetCall(SetFiberPc(s, Cur(s, w), User), c, s.calls[c].(live := false));
    LocalMoveKeeps(s, s1, w);
    if CurPc(s, w).timer.Some? {
      EraseTimerKeeps(s1, CurPc(s, w).timer.value);
    }
  }

  lemma DisarmStepKeeps(s: State, w: nat)
    requires TokenInv(s) && Runs(s, w) && CodeEnabled(s, w, Disarm)
    ensures TokenInv(DisarmStep(s, w))
  {
    var s1 := SetFiberPc(s, Cur(s, w), Checking(CurPc(s, w).c));
    LocalMoveKeeps(s, s1, w);
    if CurPc(s, w).timer.Some? {
      EraseTimerKeeps(s1, CurPc(s, w).timer.value);
    }
  }

  lemma CancelEventStepKeeps(s: State, w: nat, ok: bool)
    requires TokenInv(s) && Runs(s, w) && CodeEnabled(s, w, CancelEvent(ok))
    ensures !CancelEventStep(s, w, ok).misled ==> TokenInv(CancelEventStep(s, w, ok))
  {
    var k := s.calls[CurPc(s, w).c].key;
    var s1 := SetFiberPc(s, Cur(s, w), Ending);
    LocalMoveKeeps(s, s1, w);
    TriggerIfKeeps(s1, ok, k);
    CancelIsTrigger(s, w, ok);
    if !TriggerIf(s1, ok, k).misled {
      SameKeeps(TriggerIf(s1, ok, k), CancelEventStep(s, w, ok));
    }
  }

  lemma CancelIsTrigger(s: State, w: nat, ok: bool)
    requires Runs(s, w) && CodeEnabled(s, w, CancelEvent(ok))
    ensures var t := TriggerIf(SetFiberPc(s, Cur(s, w), Ending), ok, s.calls[CurPc(s, w).c].key);
            CancelEventStep(s, w, ok).misled == t.misled && SameTokens(t, CancelEventStep(s, w, ok))
  {
    var k := s.calls[CurPc(s, w).c].key;
    assert KeysOf(k.fd, {k.ev}) == {k};
  }

  lemma CloseEventsStepKeeps(s: State, w: nat, fd: nat, ok: bool)
    requires TokenInv(s) && Runs(s, w) && CodeEnabled(s, w, CloseEvents(fd, ok))
    ensures !CloseEventsStep(s, w, fd, ok).misled ==> TokenInv(CloseEventsStep(s, w, fd, ok))
  {
    var s1 := SetFiberPc(s, Cur(s, w), Closing(fd));
    LocalMoveKeeps(s, s1, w);
    TriggerAllKeeps(s1, fd, if ok then EventsOf(s.table.slots, fd) else {}, CancelAll(s.table, fd, ok));
  }

  lemma AddEventStepKeeps(s: State, w: nat, ok: bool)
    requires TokenInv(s) && Runs(s, w) && CodeEnabled(s, w, AddEvent(ok))
    ensures TokenInv(AddEventStep(s, w, ok))
  {
    var pc := CurPc(s, w);
    var k := s.calls[pc.c].key;
    if ok {
      assert Live(AddEventStep(s, w, ok)) == Live(s)[k := Cur(s, w)];
      AddEventKeeps(s, AddEventStep(s, w, ok), w, k, Waiting(pc.c, pc.timer));
    } else {
      assert Live(AddEventStep(s, w, ok)) == Live(s);
      LocalMoveKeeps(s, AddEventStep(s, w, ok), w);
    }
  }

  lemma WakeUpStepKeeps(s: State, w: nat)
    requires TokenInv(s) && Runs(s, w) && CodeEnabled(s, w, WakeUp)
    ensures TokenInv(WakeUpStep(s, w))
  {
    assert WorkerOk(s, w) && FiberOk(s, Cur(s, w)) && FiberOk(s, CurPc(s, w).sleeper);
    WakeUpKeeps(s, WakeUpStep(s, w), w);
  }

  lemma OwnCodeIsLocal(s: State, w: nat, c: CodeAction)
    requires Runs(s, w) && CodeEnabled(s, w, c) && (InOwnCode(c) || c.CloseFd?)
    ensures LocalMove(s, CodeNext(s, w, c), w)
  {
    if InCall(c) {
      CallCodeIsLocal(s, w, c);
    }
  }

  lemma CallCodeIsLocal(s: State, w: nat, c: CodeAction)
    requires Runs(s, w) && CodeEnabled(s, w, c) && InCall(c)
    ensures LocalMove(s, CodeNext(s, w, c), w)
  {
  }

  lemma CodeStepKeeps(s: State, w: nat, c: CodeAction)
    requires TokenInv(s) && Runs(s, w) && CodeEnabled(s, w, c)
    ensures !CodeNext(s, w, c).misled ==> TokenInv(CodeNext(s, w, c))
  {
    match c
    case Spawn => EnqueueJobKeeps(s, UserCallback);
    case SetTimer => SetTimerStepKeeps(s, w);
    case AddEvent(ok) => AddEventStepKeeps(s, w, ok);
    case AbortAdd => SameKeeps(s, CodeNext(s, w, c));
    case GiveUp => GiveUpStepKeeps(s, w);
    case Disarm => DisarmStepKeeps(s, w);
    case CancelTimer(t) => CancelTimerStepKeeps(s, t);
    case RefreshTimer(t) => RefreshTimerStepKeeps(s, t);
    case ResetTimer(t, ms, fromNow) => ResetTimerStepKeeps(s, t, ms, fromNow);
    case CloseEvents(fd, ok) => CloseEventsStepKeeps(s, w, fd, ok);
    case CancelEvent(ok) => CancelEventStepKeeps(s, w, ok);
    case WakeUp => WakeUpStepKeeps(s, w);
    case _ =>
      OwnCodeIsLocal(s, w, c);
      LocalMoveKeeps(s, CodeNext(s, w, c), w);
  }

  lemma EnvStepKeeps(s: State, e: EnvAction)
    requires TokenInv(s) && EnvEnabled(s, e)
    ensures TokenInv(EnvNext(s, e))
  {
    if e == Outside {
      EnqueueJobKeeps(s, UserCallback);
    } else {
      SameKeeps(s, EnvNext(s, e));
    }
  }

  /** The token invariant is kept by every enabled step but one that schedules the fiber of a refused addition. */
  lemma StepKeepsTokens(s: State, a: Action)
    requires TokenInv(s) && Enabled(s, a)
    ensures !Next(s, a).misled ==> TokenInv(Next(s, a))
  {
    match a
    case Env(e) => EnvStepKeeps(s, e);
    case Run(w, r) => RunStepKeeps(s, w, r);
    case Idle(w, i) => IdleStepKeeps(s, w, i);
    case Code(w, c) => CodeStepKeeps(s, w, c);
  }

  /** Once misled, always misled. */
  lemma MisledStays(s: State, a: Action)
    requires Enabled(s, a) && s.misled
    ensures Next(s, a).misled
  {
    match a
    case Env(_) =>
    case Run(w, r) =>
    case Idle(w, i) => IdleMoves(s, w, i);
    case Code(w, c) => CodeMoves(s, w, c);
  }

  lemma InitialTokens(n: nat)
    ensures TokenInv(Initial(n))
  {
    var s := Initial(n);
    forall w | 0 <= w < |s.workers| ensures WorkerOk(s, w) {
      assert s.workers[w] == Fresh;
    }
  }

  lemma {:induction false} RunKeepsTokens(s: State, acts: seq<Action>)
    requires Legal(s, acts) && (s.misled || TokenInv(s))
    ensures Exec(s, acts).misled || TokenInv(Exec(s, acts))
    decreases |acts|
  {
    if acts != [] {
      if s.misled {
        MisledStays(s, acts[0]);
      } else {
        StepKeepsTokens(s, acts[0]);
      }
      RunKeepsTokens(Next(s, acts[0]), acts[1..]);
    }
  }
}
