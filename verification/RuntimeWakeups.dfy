/** The wake-up theorems: nobody is woken twice, nobody who waits in `do_io` is lost, and no fiber is on two workers. */
module RuntimeWakeups {
  import opened Common
  import opened Runtime
  import opened RuntimeFrame
  import opened RuntimeTokens
  import opened RuntimeInvariant
  import opened RuntimeShutdown

  // ---- every place from which a fiber can be woken, counted ----

  function QueueCount(s: State, f: nat): nat {
    multiset(s.queue)[f]
  }

  /** Bits of refused additions are not counted: nothing is meant to come of them. */
  function SlotCount(s: State, f: nat): nat {
    |set k | k in Live(s) && Live(s)[k] == f|
  }

  function HandCount(s: State, f: nat): nat {
    |set w | 0 <= w < |s.workers| && s.workers[w].pc == Taken(f)|
  }

  function TimerCount(s: State, f: nat): nat {
    |set d | d in s.timers && s.timers[d] == WakeSleeper(f)|
  }

  predicate HandHolds(s: State, w: nat, d: nat, f: nat) {
    w < |s.workers| && s.workers[w].pc.Scheduling? && d in s.workers[w].pc.hand
    && s.workers[w].pc.hand[d] == WakeSleeper(f)
  }

  /** Pairs of a worker and a deadline in its hand; the deadlines come from some worker's hand. */
  function ExpiredSet(s: State, f: nat): set<(nat, nat)> {
    set w: nat, d: nat | 0 <= w < |s.workers| && d in HandKeys(s.workers[w].pc) && HandHolds(s, w, d, f) :: (w, d)
  }

  function HandKeys(pc: WorkerPc): set<nat> {
    if pc.Scheduling? then pc.hand.Keys else {}
  }

  function CourierCount(s: State, f: nat): nat {
    |set g | 0 <= g < |s.fibers| && Carries(s.fibers[g].pc) == Some(f)|
  }

  function Wakeups(s: State, f: nat): nat {
    QueueCount(s, f) + SlotCount(s, f) + HandCount(s, f) + TimerCount(s, f) + |ExpiredSet(s, f)| + CourierCount(s, f)
  }

  lemma AtMostOne<T>(c: set<T>, x: T)
    requires forall y :: y in c ==> y == x
    ensures |c| == Bit(x in c)
  {
    if x in c {
      assert c == {x};
    } else {
      assert c == {};
    }
  }

  lemma NoneAtAll<T>(c: set<T>)
    requires forall y :: y !in c
    ensures |c| == 0
  {
    assert c == {};
  }

  lemma {:induction false} DistinctCount(q: seq<nat>, f: nat)
    requires Distinct(q)
    ensures multiset(q)[f] == Bit(f in q)
  {
    if q != [] {
      assert q == [q[0]] + q[1..];
      assert forall i :: 0 <= i < |q[1..]| ==> q[1..][i] == q[i + 1] && q[i + 1] != q[0];
      DistinctCount(q[1..], f);
    }
  }

  /** The queue, the slots and the hands are counted by the token. */
  lemma DirectCounts(s: State, f: nat)
    requires TokenInv(s) && f < |s.fibers|
    ensures QueueCount(s, f) == Bit(s.fibers[f].token.InQueue?)
    ensures SlotCount(s, f) == Bit(s.fibers[f].token.InSlot?)
    ensures HandCount(s, f) == Bit(s.fibers[f].token.InHand?)
  {
    var token := s.fibers[f].token;
    assert FiberOk(s, f);
    DistinctCount(s.queue, f);
    assert f in s.queue ==> Holds(s, f, InQueue);
    var slots := set k | k in Live(s) && Live(s)[k] == f;
    assert forall k :: k in slots ==> Holds(s, f, InSlot(k));
    var hands := set w | 0 <= w < |s.workers| && s.workers[w].pc == Taken(f);
    forall w | w in hands ensures Holds(s, f, InHand(w)) {
      assert WorkerOk(s, w);
    }
    match token
    case InSlot(k) => AtMostOne(slots, k); NoneAtAll(hands);
    case InHand(w) => AtMostOne(hands, w); NoneAtAll(slots);
    case _ => NoneAtAll(slots); NoneAtAll(hands);
  }

  /** So are the timers, the expired callbacks and the fibers that carry a wake-up. */
  lemma SleeperCounts(s: State, f: nat)
    requires TokenInv(s) && f < |s.fibers|
    ensures TimerCount(s, f) == Bit(s.fibers[f].token.InTimer?)
    ensures |ExpiredSet(s, f)| == Bit(s.fibers[f].token.Expired?)
    ensures CourierCount(s, f) == Bit(s.fibers[f].token.Courier?)
  {
    var token := s.fibers[f].token;
    assert FiberOk(s, f);
    var timers := set d | d in s.timers && s.timers[d] == WakeSleeper(f);
    assert forall d :: d in timers ==> Holds(s, f, InTimer(d));
    forall p | p in ExpiredSet(s, f) ensures Holds(s, f, Expired(p.0, p.1)) {
      assert WorkerOk(s, p.0);
    }
    var couriers := set g | 0 <= g < |s.fibers| && Carries(s.fibers[g].pc) == Some(f);
    forall g | g in couriers ensures Holds(s, f, Courier(g)) {
      assert FiberOk(s, g);
    }
    match token
    case InTimer(d) => AtMostOne(timers, d); NoneAtAll(ExpiredSet(s, f)); NoneAtAll(couriers);
    case Expired(w, d) =>
      assert HandHolds(s, w, d, f) && d in HandKeys(s.workers[w].pc);
      AtMostOne(ExpiredSet(s, f), (w, d)); NoneAtAll(timers); NoneAtAll(couriers);
    case Courier(g) => AtMostOne(couriers, g); NoneAtAll(timers); NoneAtAll(ExpiredSet(s, f));
    case _ => NoneAtAll(timers); NoneAtAll(ExpiredSet(s, f)); NoneAtAll(couriers);
  }

  /** In every reachable state a fiber that waits in `do_io`, or has not started, is in exactly one of the queue, a
      slot and the hand of one worker, and nothing else will wake it; a sleeping fiber has at most one wake-up
      under way; a fiber that runs or has ended has none. All this as long as no fiber of a refused addition has been
      scheduled. */
  lemma ExactlyOneWakeup(n: nat, acts: seq<Action>, f: nat)
    requires Legal(Initial(n), acts) && f < |Exec(Initial(n), acts).fibers| && !Exec(Initial(n), acts).misled
    ensures var s := Exec(Initial(n), acts); var pc := s.fibers[f].pc;
            && (pc.Waiting? || pc.Start? ==>
                  QueueCount(s, f) + SlotCount(s, f) + HandCount(s, f) == 1 && Wakeups(s, f) == 1)
            && (pc.Napping? ==> Wakeups(s, f) <= 1)
            && (!NeedsWake(pc) ==> Wakeups(s, f) == 0)
  {
    var s := Exec(Initial(n), acts);
    ReachableInv(n, acts);
    assert FiberOk(s, f);
    DirectCounts(s, f);
    SleeperCounts(s, f);
  }

  /** A sleeper that nothing will wake any more. */
  ghost predicate LostSleeper(s: State, f: nat) {
    f < |s.fibers| && s.fibers[f].pc.Napping? && Wakeups(s, f) == 0
  }

  lemma LostIffToken(s: State, f: nat)
    requires TokenInv(s) && f < |s.fibers|
    ensures LostSleeper(s, f) <==> s.fibers[f].pc.Napping? && s.fibers[f].token == Lost
  {
    assert FiberOk(s, f);
    DirectCounts(s, f);
    SleeperCounts(s, f);
  }

  /** The action erases whatever timer has this deadline. */
  function ErasedBy(s: State, w: nat, c: CodeAction): Option<nat>
    requires Runs(s, w) && CodeEnabled(s, w, c)
  {
    match c
    case Disarm => CurPc(s, w).timer
    case GiveUp => CurPc(s, w).timer
    case CancelTimer(t) => if s.handles[t].alive then Some(s.handles[t].next) else None
    case RefreshTimer(t) => if CanMove(s, t) then Some(s.handles[t].next) else None
    case ResetTimer(t, ms, fromNow) =>
      if !(ms == s.handles[t].ms && !fromNow) && CanMove(s, t) then Some(s.handles[t].next) else None
    case _ => None
  }

  /** The steps that can lose a sleeper: its `sleep` finds its deadline taken by another timer, or another timer that
      is not in the set itself, of a `do_io` or of the user, erases the sleeper's by the same deadline. */
  predicate LosesSleeper(s: State, a: Action, f: nat) {
    && a.Code? && Runs(s, a.w) && CodeEnabled(s, a.w, a.c)
    && (|| (a.c.SetTimer? && Cur(s, a.w) == f && CurPc(s, a.w).purpose.ForSleep? && CurPc(s, a.w).d in s.timers)
        || (var e := ErasedBy(s, a.w, a.c); e.Some? && e.value in s.timers && s.timers[e.value] == WakeSleeper(f)))
  }

  predicate IsLost(s: State, f: nat) {
    f < |s.fibers| && s.fibers[f].token == Lost
  }

  lemma EnvStepLosesNobody(s: State, e: EnvAction, f: nat)
    requires EnvEnabled(s, e) && IsLost(EnvNext(s, e), f)
    ensures IsLost(s, f)
  {
  }

  lemma RunStepLosesNobody(s: State, w: nat, r: RunAction, f: nat)
    requires w < |s.workers| && RunEnabled(s, w, r) && IsLost(RunNext(s, w, r), f)
    ensures IsLost(s, f)
  {
  }

  lemma IdleStepLosesNobody(s: State, w: nat, i: IdleAction, f: nat)
    requires w < |s.workers| && IdleEnabled(s, w, i) && IsLost(IdleNext(s, w, i), f)
    ensures IsLost(s, f)
  {
    IdleMoves(s, w, i);
    if f < |s.fibers| {
      assert Bystander(s.fibers[f], IdleNext(s, w, i).fibers[f], false);
    }
  }

  lemma OtherCodeLosesNobody(s: State, w: nat, c: CodeAction, f: nat)
    requires Runs(s, w) && CodeEnabled(s, w, c) && IsLost(CodeNext(s, w, c), f) && !c.SetTimer? && !Erases(c)
    ensures IsLost(s, f)
  {
    CodeMoves(s, w, c);
    if f < |s.fibers| && f != Cur(s, w) {
      assert Bystander(s.fibers[f], CodeNext(s, w, c).fibers[f], false);
    }
  }

  lemma SetTimerLoses(s: State, w: nat, f: nat)
    requires Runs(s, w) && CodeEnabled(s, w, SetTimer) && f < |SetTimerStep(s, w).fibers|
    requires SetTimerStep(s, w).fibers[f].token == Lost && !(f < |s.fibers| && s.fibers[f].token == Lost)
    ensures LosesSleeper(s, Code(w, SetTimer), f)
  {
  }

  /** What an erasure by deadline `e` does to fiber `f`. */
  predicate LosesBy(s: State, t: State, w: nat, e: Option<nat>, f: nat)
    requires Runs(s, w) && f < |s.fibers|
  {
    && |t.fibers| == |s.fibers|
    && t.fibers[f].token == (if e.Some? && e.value in s.timers && s.timers[e.value] == WakeSleeper(f) then Lost
                             else s.fibers[f].token)
    && (f != Cur(s, w) ==> t.fibers[f].pc == s.fibers[f].pc)
  }

  lemma DisarmErases(s: State, w: nat, f: nat)
    requires Runs(s, w) && CodeEnabled(s, w, Disarm) && f < |s.fibers|
    ensures LosesBy(s, DisarmStep(s, w), w, CurPc(s, w).timer, f)
  {
  }

  lemma GiveUpErases(s: State, w: nat, f: nat)
    requires Runs(s, w) && CodeEnabled(s, w, GiveUp) && f < |s.fibers|
    ensures LosesBy(s, GiveUpStep(s, w), w, CurPc(s, w).timer, f)
  {
  }

  lemma CancelErases(s: State, w: nat, h: nat, f: nat)
    requires Runs(s, w) && CodeEnabled(s, w, CancelTimer(h)) && f < |s.fibers|
    ensures LosesBy(s, CancelTimerStep(s, h), w, ErasedBy(s, w, CancelTimer(h)), f)
  {
  }

  lemma RefreshErases(s: State, w: nat, h: nat, f: nat)
    requires Runs(s, w) && CodeEnabled(s, w, RefreshTimer(h)) && f < |s.fibers|
    ensures LosesBy(s, RefreshTimerStep(s, h), w, ErasedBy(s, w, RefreshTimer(h)), f)
  {
    if CanMove(s, h) {
      assert RefreshTimerStep(s, h).fibers == EraseTimer(s, s.handles[h].next).fibers;
    }
  }

  lemma ResetErases(s: State, w: nat, h: nat, ms: nat, fromNow: bool, f: nat)
    requires Runs(s, w) && CodeEnabled(s, w, ResetTimer(h, ms, fromNow)) && f < |s.fibers|
    ensures LosesBy(s, ResetTimerStep(s, h, ms, fromNow), w, ErasedBy(s, w, ResetTimer(h, ms, fromNow)), f)
  {
    if !(ms == s.handles[h].ms && !fromNow) && CanMove(s, h) {
      assert ResetTimerStep(s, h, ms, fromNow).fibers == EraseTimer(s, s.handles[h].next).fibers;
    }
  }

  lemma ErasingFibers(s: State, w: nat, c: CodeAction, f: nat)
    requires Runs(s, w) && CodeEnabled(s, w, c) && Erases(c) && f < |s.fibers|
    ensures LosesBy(s, CodeNext(s, w, c), w, ErasedBy(s, w, c), f)
  {
    match c
    case Disarm => DisarmErases(s, w, f);
    case GiveUp => GiveUpErases(s, w, f);
    case CancelTimer(h) => CancelErases(s, w, h, f);
    case RefreshTimer(h) => RefreshErases(s, w, h, f);
    case ResetTimer(h, ms, fromNow) => ResetErases(s, w, h, ms, fromNow, f);
  }

  lemma CodeStepLoses(s: State, w: nat, c: CodeAction, f: nat)
    requires Runs(s, w) && CodeEnabled(s, w, c) && IsLost(CodeNext(s, w, c), f) && !IsLost(s, f)
    ensures LosesSleeper(s, Code(w, c), f)
  {
    if c.SetTimer? {
      SetTimerLoses(s, w, f);
    } else if Erases(c) {
      CodeMoves(s, w, c);
      if f < |s.fibers| {
        ErasingFibers(s, w, c, f);
      }
    } else {
      OtherCodeLosesNobody(s, w, c, f);
    }
  }

  /** A sleeper sleeps: it is not the fiber that runs. */
  lemma LosingStepLoses(s: State, a: Action, f: nat)
    requires TokenInv(s) && Enabled(s, a) && LosesSleeper(s, a, f)
    ensures f < |Next(s, a).fibers| && Next(s, a).fibers[f].token == Lost && Next(s, a).fibers[f].pc.Napping?
  {
    if !a.c.SetTimer? {
      var e := ErasedBy(s, a.w, a.c).value;
      assert Holds(s, f, InTimer(e));
      assert FiberOk(s, f);
      ErasingFibers(s, a.w, a.c, f);
    }
  }

  lemma OnlyLosingStepsLose(s: State, a: Action, f: nat)
    requires Enabled(s, a) && IsLost(Next(s, a), f) && !IsLost(s, f)
    ensures LosesSleeper(s, a, f)
  {
    match a
    case Env(e) => EnvStepLosesNobody(s, e, f);
    case Run(w, r) => RunStepLosesNobody(s, w, r, f);
    case Idle(w, i) => IdleStepLosesNobody(s, w, i, f);
    case Code(w, c) => CodeStepLoses(s, w, c, f);
  }

  /** Exactly these steps lose a sleeper, in every reachable state, as long as no fiber of a refused addition has been
      scheduled. */
  lemma SleeperLostIff(n: nat, acts: seq<Action>, a: Action, f: nat)
    requires Legal(Initial(n), acts) && Enabled(Exec(Initial(n), acts), a)
    requires !LostSleeper(Exec(Initial(n), acts), f) && !Next(Exec(Initial(n), acts), a).misled
    ensures var s := Exec(Initial(n), acts);
            LostSleeper(Next(s, a), f) <==> LosesSleeper(s, a, f)
  {
    var s := Exec(Initial(n), acts);
    var t := Next(s, a);
    ReachableInv(n, acts);
    if s.misled {
      MisledStays(s, a);
    }
    StepKeepsTokens(s, a);
    if LosesSleeper(s, a, f) {
      LosingStepLoses(s, a, f);
      LostIffToken(t, f);
    } else if LostSleeper(t, f) {
      LostIffToken(t, f);
      if f < |s.fibers| {
        LostIffToken(s, f);
        assert FiberOk(s, f);
      }
      OnlyLosingStepsLose(s, a, f);
    }
  }

  // ---- at the end ----

  /** When every worker has left, a fiber that needs no wake-up has ended. */
  lemma NobodyRuns(s: State, g: nat)
    requires TokenInv(s) && AllLeft(s) && g < |s.fibers| && !NeedsWake(s.fibers[g].pc)
    ensures s.fibers[g].pc.Finished?
  {
    assert FiberOk(s, g);
  }

  lemma NobodyCarries(s: State, g: nat)
    requires TokenInv(s) && AllLeft(s) && s.queue == [] && g < |s.fibers|
    ensures Carries(s.fibers[g].pc).None?
  {
    assert FiberOk(s, g);
    if !NeedsWake(s.fibers[g].pc) {
      NobodyRuns(s, g);
    }
  }

  /** When every worker has left and there is no work, every fiber ever created has ended or is a lost sleeper. */
  lemma AllEndedOrLost(n: nat, acts: seq<Action>, f: nat)
    requires Legal(Initial(n), acts) && AllLeft(Exec(Initial(n), acts)) && NoWork(Exec(Initial(n), acts))
    requires !Exec(Initial(n), acts).misled
    requires f < |Exec(Initial(n), acts).fibers|
    ensures var s := Exec(Initial(n), acts); s.fibers[f].pc.Finished? || LostSleeper(s, f)
  {
    var s := Exec(Initial(n), acts);
    ReachableInv(n, acts);
    assert FiberOk(s, f);
    if NeedsWake(s.fibers[f].pc) {
      match s.fibers[f].token {
        case Courier(g) => NobodyCarries(s, g);
        case _ => LostIffToken(s, f);
      }
    } else {
      NobodyRuns(s, f);
    }
  }
}
