/** Expired callbacks: each one taken out of the timers becomes exactly one fiber, in the order of the deadlines. */
module RuntimeExpiry {
  import opened Common
  import opened Deadlines
  import opened Runtime
  import opened RuntimeFrame

  function DeadlinesOf(held: map<nat, Callback>, cb: Callback): set<nat> {
    set d | d in held && held[d] == cb
  }

  /** How many entries have this callback. */
  function Times(held: map<nat, Callback>, cb: Callback): nat {
    |DeadlinesOf(held, cb)|
  }

  lemma NoTimes(held: map<nat, Callback>, cb: Callback)
    requires forall d :: d in held ==> held[d] != cb
    ensures Times(held, cb) == 0
  {
    assert DeadlinesOf(held, cb) == {};
  }

  function InHandOf(wk: Worker): map<nat, Callback> {
    if wk.pc.Scheduling? then wk.pc.hand else map[]
  }

  function InHands(ws: seq<Worker>, cb: Callback): nat {
    if ws == [] then 0 else Times(InHandOf(ws[0]), cb) + InHands(ws[1..], cb)
  }

  lemma {:induction false} InHandsAfter(ws: seq<Worker>, w: nat, wk: Worker, cb: Callback)
    requires w < |ws|
    ensures InHands(ws[w := wk], cb) == InHands(ws, cb) + Times(InHandOf(wk), cb) - Times(InHandOf(ws[w]), cb)
  {
    if w == 0 {
      assert ws[0 := wk][1..] == ws[1..];
    } else {
      assert ws[w := wk][1..] == ws[1..][w - 1 := wk];
      InHandsAfter(ws[1..], w - 1, wk, cb);
    }
  }

  /** How often the step takes the callback out of the timers because it is due. */
  function Takes(s: State, a: Action, cb: Callback): nat {
    if a.Idle? && a.i.ListExpired? then Times(Due(s.timers, s.clock), cb) else 0
  }

  /** The fibers a step makes that are to run it. */
  function MadeFor(s: State, t: State, cb: Callback): set<nat> {
    set f: nat | |s.fibers| <= f < |t.fibers| && t.fibers[f].pc == Start(cb)
  }

  function Starts(s: State, t: State, cb: Callback): nat {
    |MadeFor(s, t, cb)|
  }

  ghost function TakenIn(s: State, acts: seq<Action>, cb: Callback): nat
    requires Legal(s, acts)
    decreases |acts|
  {
    if acts == [] then 0 else Takes(s, acts[0], cb) + TakenIn(Next(s, acts[0]), acts[1..], cb)
  }

  ghost function StartedIn(s: State, acts: seq<Action>, cb: Callback): nat
    requires Legal(s, acts)
    decreases |acts|
  {
    if acts == [] then 0 else Starts(s, Next(s, acts[0]), cb) + StartedIn(Next(s, acts[0]), acts[1..], cb)
  }

  // ---- one step ----

  /** Nothing is taken, handed out or started. */
  lemma NoneStarted(s: State, t: State, cb: Callback)
    requires forall f :: |s.fibers| <= f < |t.fibers| ==> t.fibers[f].pc != Start(cb)
    ensures Starts(s, t, cb) == 0
  {
    assert MadeFor(s, t, cb) == {};
  }

  lemma OneStarted(s: State, t: State, cb: Callback, job: Callback)
    requires |t.fibers| == |s.fibers| + 1 && t.fibers[|s.fibers|].pc == Start(job)
    ensures Starts(s, t, cb) == Bit(job == cb)
  {
    if job == cb {
      assert MadeFor(s, t, cb) == {|s.fibers|};
    } else {
      assert MadeFor(s, t, cb) == {};
    }
  }

  lemma TimesWithout(held: map<nat, Callback>, d: nat, cb: Callback)
    requires d in held
    ensures Times(held - {d}, cb) == Times(held, cb) - Bit(held[d] == cb)
  {
    if held[d] == cb {
      assert d in DeadlinesOf(held, cb);
    }
    assert DeadlinesOf(held - {d}, cb) == DeadlinesOf(held, cb) - {d};
  }

  /** What the worker has in hand, and how many fibers there are, after a step of an idle fiber. */
  ghost predicate HandMove(s: State, t: State, w: nat, i: IdleAction)
    requires w < |s.workers| && w < |t.workers|
  {
    match i
    case ListExpired =>
      InHandOf(s.workers[w]) == map[] && InHandOf(t.workers[w]) == Due(s.timers, s.clock) && |t.fibers| == |s.fibers|
    case ScheduleExpired(d) =>
      && AtFront(InHandOf(s.workers[w]), d) && InHandOf(t.workers[w]) == InHandOf(s.workers[w]) - {d}
      && |t.fibers| == |s.fibers| + 1 && t.fibers[|s.fibers|].pc == Start(InHandOf(s.workers[w])[d])
    case _ => InHandOf(t.workers[w]) == InHandOf(s.workers[w]) && |t.fibers| == |s.fibers|
  }

  lemma ListHands(s: State, w: nat)
    requires w < |s.workers| && IdleEnabled(s, w, ListExpired)
    ensures HandMove(s, ListStep(s, w), w, ListExpired)
  {
  }

  lemma ScheduleHands(s: State, w: nat, d: nat)
    requires w < |s.workers| && IdleEnabled(s, w, ScheduleExpired(d))
    ensures HandMove(s, ScheduleExpiredStep(s, w, d), w, ScheduleExpired(d))
  {
  }

  lemma TestingHands(s: State, w: nat, i: IdleAction)
    requires w < |s.workers| && IdleEnabled(s, w, i) && (i.TestAll? || i.TestTimers? || i.TestPending? || i.TestQueue?)
    ensures var t := IdleNext(s, w, i); |t.workers| == |s.workers| && InHandOf(t.workers[w]) == InHandOf(s.workers[w])
  {
  }

  lemma OtherHands(s: State, w: nat, i: IdleAction)
    requires w < |s.workers| && IdleEnabled(s, w, i) && (i.Wake? || i.Interrupt? || i.Abort? || i.HandDone?)
    ensures var t := IdleNext(s, w, i); |t.workers| == |s.workers| && InHandOf(t.workers[w]) == InHandOf(s.workers[w])
  {
  }

  lemma LeavingHands(s: State, w: nat, i: IdleAction)
    requires w < |s.workers| && IdleEnabled(s, w, i) && (i.Drain? || i.HandleDone? || i.LeaveIdle?)
    ensures var t := IdleNext(s, w, i); |t.workers| == |s.workers| && InHandOf(t.workers[w]) == InHandOf(s.workers[w])
  {
  }

  lemma IdlingHands(s: State, w: nat, i: IdleAction)
    requires w < |s.workers| && IdleEnabled(s, w, i) && !HandsOutWork(i)
    ensures w < |IdleNext(s, w, i).workers| && HandMove(s, IdleNext(s, w, i), w, i)
  {
    IdlingMoves(s, w, i);
    if i.TestAll? || i.TestTimers? || i.TestPending? || i.TestQueue? {
      TestingHands(s, w, i);
    } else if i.Drain? || i.HandleDone? || i.LeaveIdle? {
      LeavingHands(s, w, i);
    } else {
      OtherHands(s, w, i);
    }
  }

  lemma IdleHands(s: State, w: nat, i: IdleAction)
    requires w < |s.workers| && IdleEnabled(s, w, i)
    ensures IdleMove(s, IdleNext(s, w, i), w) && HandMove(s, IdleNext(s, w, i), w, i)
  {
    IdleMoves(s, w, i);
    match i
    case HandleReady(ok) => ReadyMoves(s, w, ok);
    case ScheduleExpired(d) => ScheduleHands(s, w, d);
    case ListExpired => ListHands(s, w);
    case _ => IdlingHands(s, w, i);
  }

  lemma IdleConserves(s: State, w: nat, i: IdleAction, cb: Callback)
    requires w < |s.workers| && IdleEnabled(s, w, i)
    ensures var t := IdleNext(s, w, i);
            Takes(s, Idle(w, i), cb) + InHands(s.workers, cb) == Starts(s, t, cb) + InHands(t.workers, cb)
  {
    var t := IdleNext(s, w, i);
    IdleHands(s, w, i);
    InHandsAfter(s.workers, w, t.workers[w], cb);
    if i.ScheduleExpired? {
      var hand := InHandOf(s.workers[w]);
      OneStarted(s, t, cb, hand[i.d]);
      TimesWithout(hand, i.d, cb);
    } else {
      NoneStarted(s, t, cb);
      NoTimes(map[], cb);
    }
  }

  lemma RunConserves(s: State, w: nat, r: RunAction, cb: Callback)
    requires w < |s.workers| && RunEnabled(s, w, r)
    ensures var t := RunNext(s, w, r); Starts(s, t, cb) == 0 && InHands(t.workers, cb) == InHands(s.workers, cb)
  {
    var t := RunNext(s, w, r);
    RunMoves(s, w, r);
    RunStartsNone(s, w, r);
    NoneStarted(s, t, cb);
    InHandsAfter(s.workers, w, t.workers[w], cb);
  }

  lemma RunStartsNone(s: State, w: nat, r: RunAction)
    requires w < |s.workers| && RunEnabled(s, w, r)
    ensures |RunNext(s, w, r).fibers| == |s.fibers| && !s.workers[w].pc.Scheduling?
  {
  }

  lemma EnvStarts(s: State, e: EnvAction, cb: Callback)
    requires EnvEnabled(s, e) && cb != UserCallback
    ensures Starts(s, EnvNext(s, e), cb) == 0 && EnvNext(s, e).workers == s.workers
  {
    NoneStarted(s, EnvNext(s, e), cb);
  }

  /** A callback that is taken is in a hand until a fiber is made for it. */
  lemma StepConserves(s: State, a: Action, cb: Callback)
    requires Enabled(s, a) && cb != UserCallback
    ensures Takes(s, a, cb) + InHands(s.workers, cb) == Starts(s, Next(s, a), cb) + InHands(Next(s, a).workers, cb)
  {
    match a
    case Env(e) => EnvStarts(s, e, cb);
    case Run(w, r) => RunConserves(s, w, r, cb);
    case Idle(w, i) => IdleConserves(s, w, i, cb);
    case Code(w, k) =>
      CodeMoves(s, w, k);
      NoneStarted(s, CodeNext(s, w, k), cb);
  }

  lemma {:induction false} RunConservesAll(s: State, acts: seq<Action>, cb: Callback)
    requires Legal(s, acts) && cb != UserCallback
    ensures TakenIn(s, acts, cb) + InHands(s.workers, cb) == StartedIn(s, acts, cb) + InHands(Exec(s, acts).workers, cb)
    decreases |acts|
  {
    if acts != [] {
      StepConserves(s, acts[0], cb);
      RunConservesAll(Next(s, acts[0]), acts[1..], cb);
    }
  }

  lemma {:induction false} FreshHands(ws: seq<Worker>, cb: Callback)
    requires forall w :: 0 <= w < |ws| ==> ws[w] == Fresh
    ensures InHands(ws, cb) == 0
  {
    if ws != [] {
      assert ws[0] == Fresh;
      NoTimes(map[], cb);
      FreshHands(ws[1..], cb);
    }
  }

  /** Over every run, for every callback of a timer: as many fibers have been made for it as it has been taken out of
      the timers, but for the ones still in the hands of workers. */
  lemma ExpiredCallbacksConserved(n: nat, acts: seq<Action>, cb: Callback)
    requires Legal(Initial(n), acts) && cb != UserCallback
    ensures TakenIn(Initial(n), acts, cb)
         == StartedIn(Initial(n), acts, cb) + InHands(Exec(Initial(n), acts).workers, cb)
  {
    FreshHands(Initial(n).workers, cb);
    RunConservesAll(Initial(n), acts, cb);
  }

  // ---- in order ----

  /** What the worker has in hand is due later than `d`. */
  ghost predicate AllAfter(s: State, w: nat, d: nat) {
    w < |s.workers| && forall e :: e in InHandOf(s.workers[w]) ==> d < e
  }

  lemma StepKeepsAfter(s: State, a: Action, w: nat, d: nat)
    requires Enabled(s, a) && AllAfter(s, w, d) && a != Idle(w, ListExpired)
    ensures AllAfter(Next(s, a), w, d)
  {
    match a
    case Env(_) =>
    case Run(v, r) => RunMoves(s, v, r);
    case Idle(v, i) => IdleHands(s, v, i);
    case Code(v, k) => CodeMoves(s, v, k);
  }

  lemma {:induction false} RunKeepsAfter(s: State, acts: seq<Action>, w: nat, d: nat)
    requires Legal(s, acts) && AllAfter(s, w, d)
    requires forall i :: 0 <= i < |acts| ==> acts[i] != Idle(w, ListExpired)
    ensures AllAfter(Exec(s, acts), w, d)
    decreases |acts|
  {
    if acts != [] {
      StepKeepsAfter(s, acts[0], w, d);
      assert forall i :: 0 <= i < |acts[1..]| ==> acts[1..][i] == acts[i + 1];
      RunKeepsAfter(Next(s, acts[0]), acts[1..], w, d);
    }
  }

  lemma ScheduledFirst(s: State, w: nat, d: nat)
    requires w < |s.workers| && IdleEnabled(s, w, ScheduleExpired(d))
    ensures AllAfter(ScheduleExpiredStep(s, w, d), w, d)
  {
  }

  lemma FrontInHand(s: State, w: nat, d: nat)
    requires Enabled(s, Idle(w, ScheduleExpired(d)))
    ensures w < |s.workers| && d in InHandOf(s.workers[w])
  {
  }

  /** Between two rounds of its own a worker schedules what expired in strict order of the deadlines, whatever the
      others do in between. */
  lemma ScheduledInOrder(s: State, acts: seq<Action>, w: nat, d: nat, e: nat)
    requires Enabled(s, Idle(w, ScheduleExpired(d)))
    requires var t := Next(s, Idle(w, ScheduleExpired(d)));
             Legal(t, acts) && Enabled(Exec(t, acts), Idle(w, ScheduleExpired(e)))
    requires forall i :: 0 <= i < |acts| ==> acts[i] != Idle(w, ListExpired)
    ensures d < e
  {
    var t := Next(s, Idle(w, ScheduleExpired(d)));
    ScheduledFirst(s, w, d);
    RunKeepsAfter(t, acts, w, d);
    FrontInHand(Exec(t, acts), w, e);
  }
}
