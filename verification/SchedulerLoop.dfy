/** Fibers and the base scheduler as the objects the program updates in place, and the whole of `run` for one
    worker. Context switches are left to a script that says what each fiber does while it has the worker. */
module SchedulerLoop {
  import opened Common

  /** How a fiber gives the worker back: by `yeild`, or at the end of `MainFunc`. */
  datatype Outcome = Yields | Returns | Throws

  class Fiber {
    /** The main fiber of a thread has no stack of its own. */
    const hasStack: bool
    var st: FiberState
    var cb: Option<nat>

    constructor Main()
      ensures !hasStack && st == EXEC && cb == None
    {
      hasStack, st, cb := false, EXEC, None;
    }

    constructor (cb: Option<nat>)
      ensures hasStack && st == INIT && this.cb == cb
    {
      hasStack, st, this.cb := true, INIT, cb;
    }

    method Reset(cb: Option<nat>)
      requires hasStack && (Dead(st) || st == INIT)
      modifies this
      ensures st == INIT && this.cb == cb
    {
      this.cb := cb;
      st := INIT;
    }

    /** The first half of `call`. */
    method Enter()
      modifies this`st
      ensures st == EXEC
    {
      st := EXEC;
    }

    /** A yielding fiber still reads as executing; only an ending one changes its state itself. */
    method Leave(outcome: Outcome)
      requires st == EXEC
      modifies this
      ensures st == match outcome { case Yields => EXEC case Returns => TERM case Throws => EXCEPT }
      ensures cb == if outcome == Returns then None else old(cb)
    {
      match outcome
      case Yields =>
      case Returns =>
        cb := None;
        st := TERM;
      case Throws =>
        st := EXCEPT;
    }
  }

  function States(fs: seq<Fiber>): (r: seq<FiberState>)
    reads fs
    ensures |r| == |fs| && forall i :: 0 <= i < |fs| ==> r[i] == fs[i].st
  {
    if fs == [] then [] else [fs[0].st] + States(fs[1..])
  }

  lemma FirstReadyIs(states: seq<FiberState>, k: nat)
    requires k <= |states| && (forall i :: 0 <= i < k ==> states[i] == EXEC) && (k < |states| ==> states[k] != EXEC)
    ensures FirstReady(states) == k
  {
  }

  lemma NothingAppended<T>(a: seq<T>, b: seq<T>)
    ensures a == a + b <==> b == []
  {
    assert |a + b| == |a| + |b|;
    assert b == [] ==> a + b == a;
  }

  lemma FrontMoves<T>(before: seq<T>, q: seq<T>)
    requires q != []
    ensures RemoveAt(q, 0) == q[1..] && before + [q[0]] + q[1..] == before + q
  {
  }

  /** What happens in one turn of a worker's loop: how the fiber it takes gives the worker back, what that fiber and
      threads outside schedule between the take and the settling (`wakes`), what threads outside schedule while the
      worker idles, and whether one of them calls `stop`. */
  datatype Turn = Turn(outcome: Outcome, wakes: seq<Fiber>, arrivals: seq<Fiber>, stop: bool)

  /** A turn schedules only fibers of `pool`. */
  ghost predicate From(t: Turn, pool: set<Fiber>) {
    (forall i :: 0 <= i < |t.wakes| ==> t.wakes[i] in pool) && forall i :: 0 <= i < |t.arrivals| ==> t.arrivals[i] in pool
  }

  /** What a fiber that has given the worker back reads as. */
  function Settled(outcome: Outcome): FiberState {
    match outcome
    case Yields => HOLD
    case Returns => TERM
    case Throws => EXCEPT
  }

  /** Everything the first turns of a script schedule, in order. */
  function AllOf(script: seq<Turn>): seq<Fiber> {
    if script == [] then []
    else AllOf(script[..|script| - 1]) + script[|script| - 1].wakes + script[|script| - 1].arrivals
  }

  /** The stop had been asked for before the turn at `m`. */
  predicate AskedBefore(stopped: bool, script: seq<Turn>, m: nat) {
    stopped || exists k :: 0 <= k < m && k < |script| && script[k].stop
  }

  class Scheduler {
    var queue: seq<Fiber>
    var active: int
    var idle: int
    var tryStop: bool
    /** Everything ever scheduled, and everything ever taken, in order. */
    ghost var offered: seq<Fiber>
    ghost var taken: seq<Fiber>

    constructor ()
      ensures queue == [] && active == 0 && idle == 0 && !tryStop && offered == [] && taken == []
    {
      queue, active, idle, tryStop, offered, taken := [], 0, 0, false, [], [];
    }

    /** `scheduleNoLock`: asks for a tickle exactly when the queue was empty. */
    method Schedule(f: Fiber) returns (needTickle: bool)
      modifies this`queue, this`offered
      ensures queue == old(queue) + [f] && offered == old(offered) + [f]
      ensures needTickle <==> old(queue) == []
    {
      needTickle := queue == [];
      queue := queue + [f];
      offered := offered + [f];
    }

    method ScheduleCode(cb: Option<nat>) returns (f: Fiber, needTickle: bool)
      modifies this`queue, this`offered
      ensures fresh(f) && f.hasStack && f.st == INIT && f.cb == cb
      ensures queue == old(queue) + [f] && offered == old(offered) + [f]
      ensures needTickle <==> old(queue) == []
    {
      f := new Fiber(cb);
      needTickle := Schedule(f);
    }

    method ScheduleMany(fs: seq<Fiber>)
      modifies this`queue, this`offered
      ensures queue == old(queue) + fs && offered == old(offered) + fs
    {
      for i := 0 to |fs|
        invariant queue == old(queue) + fs[..i] && offered == old(offered) + fs[..i]
      {
        var _ := Schedule(fs[i]);
      }
      assert fs[..|fs|] == fs;
    }

    /** The scan under the latch: the first queued fiber that is not executing leaves the queue, and the worker
        counts as active from then on. The others keep their order. */
    method Take() returns (f: Option<Fiber>)
      modifies this`queue, this`active, this`taken
      ensures var k := FirstReady(old(States(queue)));
              if k < |old(queue)| then
                f == Some(old(queue)[k]) && queue == RemoveAt(old(queue), k) && active == old(active) + 1
                && taken == old(taken) + [old(queue)[k]]
              else f == None && queue == old(queue) && active == old(active) && taken == old(taken)
    {
      f := None;
      var it := 0;
      while it < |queue|
        invariant it <= |queue| && queue == old(queue) && active == old(active) && taken == old(taken) && f == None
        invariant forall i :: 0 <= i < it ==> queue[i].st == EXEC
      {
        if queue[it].st != EXEC {
          FirstReadyIs(States(queue), it);
          f := Some(queue[it]);
          taken := taken + [queue[it]];
          queue := RemoveAt(queue, it);
          active := active + 1;
          return;
        }
        it := it + 1;
      }
      FirstReadyIs(States(queue), it);
    }

    /** After `call` has returned: a fiber that did not end may be taken again from here on. */
    method Settle(f: Fiber)
      modifies this`active, f`st
      ensures active == old(active) - 1 && f.st == if Dead(old(f.st)) then old(f.st) else HOLD
    {
      active := active - 1;
      if !Dead(f.st) {
        f.st := HOLD;
      }
    }

    /** While nobody is between take and settle, true exactly when a stop was asked for and everything ever scheduled
        has been taken; and never while somebody is. */
    method Stopping() returns (yes: bool)
      ensures active == 0 && offered == taken + queue ==> (yes <==> tryStop && taken == offered)
      ensures active != 0 ==> !yes
    {
      yes := tryStop && queue == [] && active == 0;
      NothingAppended(taken, queue);
    }

    /** No queued fiber is executing, nobody is between take and settle, and what was scheduled is what was taken
        followed by what is still queued, in order. */
    ghost predicate Orderly()
      reads this, queue
    {
      active == 0 && idle == 0 && offered == taken + queue && forall f :: f in queue ==> f.st != EXEC
    }

    /** When no queued fiber is executing, the scan finds the front. */
    method TakeFront() returns (f: Option<Fiber>)
      requires Orderly()
      modifies this`queue, this`active, this`taken
      ensures offered == taken + queue && old(taken) <= taken
      ensures old(queue) == [] ==> f == None && queue == [] && active == 0 && taken == old(taken)
      ensures old(queue) != [] ==>
                f == Some(old(queue)[0]) && queue == old(queue)[1..] && active == 1
                && taken == old(taken) + [old(queue)[0]]
    {
      if queue == [] {
        f := Take();
      } else {
        FirstReadyIs(States(queue), 0);
        FrontMoves(taken, queue);
        f := Take();
      }
    }

    /** What the worker does with the fiber it has taken: one that has ended is dropped. */
    method Execute(f: Fiber, t: Turn)
      requires f.st != EXEC
      modifies this`queue, this`active, this`offered, f
      ensures active == old(active) - 1
      ensures var wakes := Scheduled(t, !old(Dead(f.st)));
              queue == old(queue) + wakes && offered == old(offered) + wakes
      ensures f.st == if old(Dead(f.st)) then old(f.st) else Settled(t.outcome)
      ensures f.cb == if !old(Dead(f.st)) && t.outcome == Returns then None else old(f.cb)
    {
      if !Dead(f.st) {
        f.Enter();
        ScheduleMany(t.wakes);
        f.Leave(t.outcome);
        Settle(f);
      } else {
        ScheduleMany(Scheduled(t, false));
        active := active - 1;
      }
    }

    /** After the stop only a running fiber gets anything scheduled. */
    function Scheduled(t: Turn, runs: bool): seq<Fiber>
      reads this
    {
      if runs || !tryStop then t.wakes else []
    }

    /** The queue when its front has been served. */
    ghost function Served(t: Turn): seq<Fiber>
      reads this, queue
    {
      if queue == [] then Scheduled(t, false) else queue[1..] + Scheduled(t, !Dead(queue[0].st))
    }

    /** The part of a turn before the idle fiber: the front of the queue is served. */
    method Serve(t: Turn)
      requires Orderly() && forall f :: f in t.wakes ==> f.st != EXEC
      modifies this`queue, this`active, this`offered, this`taken, queue
      ensures Orderly() && old(offered) <= offered && queue == old(Served(t))
      ensures taken == old(taken) + if old(queue) == [] then [] else [old(queue)[0]]
      ensures |offered| - |old(offered)| <= |t.wakes| && (!tryStop ==> offered == old(offered) + t.wakes)
      ensures forall f :: f in old(queue) ==> f.st == if f != old(queue)[0] || old(Dead(f.st)) then old(f.st)
                                                      else Settled(t.outcome)
    {
      var f := TakeFront();
      if f.Some? {
        Execute(f.value, t);
      } else {
        ScheduleMany(Scheduled(t, false));
      }
    }

    /** One resumption of the idle fiber, which ends for good once the scheduler is stopping; otherwise it sleeps,
        and outsiders schedule what they like until one of them has called `stop`. */
    method Idle(idleFiber: Fiber, t: Turn)
      requires Orderly() && idleFiber !in queue && forall f :: f in t.arrivals ==> f.st != EXEC && f != idleFiber
      modifies this`queue, this`idle, this`offered, this`tryStop, idleFiber
      ensures Orderly() && taken == old(taken) && old(offered) <= offered
      ensures queue == old(queue) + if old(tryStop) then [] else t.arrivals
      ensures offered == old(offered) + if old(tryStop) then [] else t.arrivals
      ensures idleFiber.st == if old(tryStop) && old(queue) == [] then TERM else HOLD
      ensures tryStop == (old(tryStop) || t.stop)
    {
      idle := idle + 1;
      idleFiber.Enter();
      var stopping := Stopping();
      if stopping {
        idleFiber.Leave(Returns);
      } else {
        if !tryStop {
          ScheduleMany(t.arrivals);
          tryStop := t.stop;
        }
        idleFiber.Leave(Yields);
      }
      idle := idle - 1;
      if !Dead(idleFiber.st) {
        idleFiber.st := HOLD;
      }
    }

    /** One turn of the loop of `run`: the front of the queue is served, and unless the idle fiber had ended before,
        which ends the loop, it is resumed: it ends exactly if a stop was asked for and nothing is queued then, and
        otherwise what outsiders schedule until the stop goes behind the queue. */
    method TakeTurn(t: Turn, idleFiber: Fiber, ghost pool: set<Fiber>) returns (ended: bool)
      requires Orderly() && Pooled(pool)
      requires idleFiber !in pool && From(t, pool)
      requires idleFiber.st == TERM ==> tryStop && queue == []
      modifies this, pool, idleFiber
      ensures Orderly() && Pooled(pool)
      ensures taken == old(taken) + if old(queue) == [] then [] else [old(queue)[0]]
      ensures forall f :: f in pool ==>
                f.st == if old(queue) == [] || f != old(queue)[0] || old(Dead(f.st)) then old(f.st) else Settled(t.outcome)
      ensures var runs := old(queue) != [] && !Dead(old(queue[0].st));
              offered == old(offered) + (if runs || !old(tryStop) then t.wakes else [])
                         + if old(tryStop) then [] else t.arrivals
      ensures ended <==> old(idleFiber.st) == TERM
      ensures idleFiber.st == if ended || (old(tryStop) && queue == []) then TERM else HOLD
      ensures tryStop == (old(tryStop) || t.stop)
      ensures ended || idleFiber.st == TERM ==> tryStop && queue == []
    {
      Serve(t);
      ended := idleFiber.st == TERM;
      if !ended {
        Idle(idleFiber, t);
      }
    }

    /** Whatever is queued is one of `pool`, none of which is executing. */
    ghost predicate Pooled(pool: set<Fiber>)
      reads this, pool
    {
      (forall f :: f in queue ==> f in pool) && forall f :: f in pool ==> f.st != EXEC
    }

    ghost function View(): Snapshot
      reads this
    {
      Snapshot(queue, offered, taken, tryStop)
    }

    /** The turn of a script at its place in the run that began as `s0`. */
    method TurnOf(script: seq<Turn>, turns: nat, idleFiber: Fiber, ghost pool: set<Fiber>, ghost s0: Snapshot, ghost m: nat)
      returns (ended: bool, ghost m': nat)
      requires Orderly() && Pooled(pool)
      requires idleFiber !in pool && turns < |script|
      requires From(script[turns], pool)
      requires Kept(s0, View(), script, turns, m) && Winding(s0, View(), script, turns, m, idleFiber.st == TERM)
      modifies this, pool, idleFiber
      ensures Orderly() && Pooled(pool)
      ensures forall f :: f in pool && f.st != old(f.st) ==> f.st == HOLD || Dead(f.st)
      ensures ended ==> tryStop && queue == []
      ensures Kept(s0, View(), script, turns + 1, m')
      ensures !ended ==> Winding(s0, View(), script, turns + 1, m', idleFiber.st == TERM)
    {
      ghost var s := View();
      ghost var runs := queue != [] && !Dead(queue[0].st);
      ended := TakeTurn(script[turns], idleFiber, pool);
      TurnKeeps(s0, s, View(), script, turns, m, runs);
      if !ended {
        TurnWinds(s0, s, View(), script, turns, m, runs);
      }
      m' := if s.stopped then m else turns + 1;
    }

    /** The loop of `run`. */
    method Loop(script: seq<Turn>, idleFiber: Fiber, ghost pool: set<Fiber>)
      returns (turns: nat, ended: bool, ghost m: nat)
      requires Orderly() && Pooled(pool) && idleFiber !in pool && idleFiber.st == INIT
      requires forall i :: 0 <= i < |script| ==> From(script[i], pool)
      modifies this, pool, idleFiber
      ensures Orderly() && Kept(old(View()), View(), script, turns, m)
      ensures ended ==> tryStop && queue == []
      ensures !ended ==> turns == |script| && Winding(old(View()), View(), script, turns, m, idleFiber.st == TERM)
      ensures forall f :: f in pool && f.st != old(f.st) ==> f.st == HOLD || Dead(f.st)
    {
      ghost var s0 := View();
      turns, ended, m := 0, false, 0;
      Begun(s0, script);
      while turns < |script|
        invariant Orderly() && Pooled(pool) && turns <= |script| && !ended
        invariant forall f :: f in pool && f.st != old(f.st) ==> f.st == HOLD || Dead(f.st)
        invariant Kept(s0, View(), script, turns, m) && Winding(s0, View(), script, turns, m, idleFiber.st == TERM)
      {
        ended, m := TurnOf(script, turns, idleFiber, pool, s0, m);
        turns := turns + 1;
        if ended {
          return;
        }
      }
    }

    /** `run` of a sole worker, for as many turns as the script has. Fibers are served strictly in the order in which
        they were scheduled, one per turn while there are any, so the one at position p is taken in turn p + 1. All
        that is scheduled up to the turn in which a stop is asked for is offered, in order. The loop ends only after a
        stop, with everything ever scheduled served; and it does end once two turns, and more turns than there are
        fibers to serve, have begun with the stop asked for. */
    method Run(script: seq<Turn>, ghost pool: set<Fiber>) returns (turns: nat, ended: bool)
      requires Orderly() && Pooled(pool)
      requires forall i :: 0 <= i < |script| ==> From(script[i], pool)
      modifies this, pool
      ensures Orderly() && old(offered) <= offered && old(taken) <= taken && turns <= |script|
      ensures |taken| - |old(taken)| >= if turns < |old(queue)| then turns else |old(queue)|
      ensures tryStop <==> AskedBefore(old(tryStop), script, turns)
      ensures forall k :: 0 < k <= turns && !AskedBefore(old(tryStop), script, k - 1) ==>
                old(offered) + AllOf(script[..k]) <= offered
      ensures ended ==> tryStop && queue == [] && taken == offered
      ensures !ended ==> turns == |script|
      ensures forall k: nat :: EnoughAfter(old(View()), script, k) ==> ended
      ensures forall f :: f in pool && f.st != old(f.st) ==> f.st == HOLD || Dead(f.st)
    {
      ghost var m, s0 := 0, View();
      var idleFiber := new Fiber(None);
      turns, ended, m := Loop(script, idleFiber, pool);
      KeptSays(s0, View(), script, turns, m);
      if !ended {
        NotEnough(s0, View(), script, m, idleFiber.st == TERM);
      }
    }
  }

  // ---- why the loop of `run` ends ----

  datatype Snapshot = Snapshot(queue: seq<Fiber>, offered: seq<Fiber>, taken: seq<Fiber>, stopped: bool)

  /** What a turn does to the scheduler. */
  ghost predicate TurnMove(s: Snapshot, t: Snapshot, turn: Turn, runs: bool) {
    && s.offered == s.taken + s.queue && t.offered == t.taken + t.queue
    && t.taken == s.taken + (if s.queue == [] then [] else [s.queue[0]])
    && t.offered == s.offered + (if runs || !s.stopped then turn.wakes else []) + (if s.stopped then [] else turn.arrivals)
    && t.stopped == (s.stopped || turn.stop) && (runs ==> s.queue != [])
  }

  /** At the turn at `k` the stop has been asked for, and there are two more turns and more than fibers to serve. */
  ghost predicate EnoughAfter(s0: Snapshot, script: seq<Turn>, k: nat) {
    AskedBefore(s0.stopped, script, k) && |script| - k >= 2 && |script| - k > |s0.queue| + |AllOf(script)|
  }

  /** After some turns; `m` is the first turn that began with the stop asked for, or the next one. */
  ghost predicate Kept(s0: Snapshot, s: Snapshot, script: seq<Turn>, turns: nat, m: nat) {
    && turns <= |script| && s0.offered == s0.taken + s0.queue && s.offered == s.taken + s.queue
    && s0.offered <= s.offered && s0.taken <= s.taken
    && |s.offered| - |s0.offered| <= |AllOf(script[..turns])|
    && (s.stopped <==> AskedBefore(s0.stopped, script, turns))
    && m <= turns && (forall k: nat :: AskedBefore(s0.stopped, script, k) ==> m <= k)
    && (s.stopped ==> AskedBefore(s0.stopped, script, m))
    && (!s.stopped ==> m == turns && s.offered == s0.offered + AllOf(script[..turns]))
    && s0.offered + AllOf(script[..m]) <= s.offered
    && |s.taken| - |s0.taken| >= if turns < |s0.queue| then turns else |s0.queue|
  }

  /** Every turn that begins with the stop asked for serves a fiber, until none is queued after one; then the idle
      fiber ends. */
  ghost predicate Winding(s0: Snapshot, s: Snapshot, script: seq<Turn>, turns: nat, m: nat, idleEnded: bool)
    requires turns <= |script|
  {
    && (idleEnded ==> s.stopped && s.queue == []
                      && (turns - m <= 1 || turns - m <= |s0.queue| + |AllOf(script[..turns])|))
    && (s.stopped && turns > m && !idleEnded ==> s.queue != [] && |s.taken| - |s0.taken| >= turns - m)
  }

  lemma Begun(s: Snapshot, script: seq<Turn>)
    requires s.offered == s.taken + s.queue
    ensures Kept(s, s, script, 0, 0) && Winding(s, s, script, 0, 0, false)
  {
    assert script[..0] == [] && s.offered + [] == s.offered;
  }

  lemma AllOfNext(script: seq<Turn>, k: nat)
    requires k < |script|
    ensures AllOf(script[..k + 1]) == AllOf(script[..k]) + script[k].wakes + script[k].arrivals
  {
    assert script[..k + 1][..k] == script[..k];
  }

  lemma {:induction false} AllOfPrefix(script: seq<Turn>, k: nat, m: nat)
    requires k <= m <= |script|
    ensures AllOf(script[..k]) <= AllOf(script[..m])
    decreases m
  {
    if k < m {
      AllOfNext(script, m - 1);
      AllOfPrefix(script, k, m - 1);
    }
  }

  lemma AskedNext(stopped: bool, script: seq<Turn>, k: nat)
    requires k < |script|
    ensures AskedBefore(stopped, script, k + 1) <==> AskedBefore(stopped, script, k) || script[k].stop
  {
  }

  lemma TurnKeeps(s0: Snapshot, s: Snapshot, t: Snapshot, script: seq<Turn>, turns: nat, m: nat, runs: bool)
    requires turns < |script| && Kept(s0, s, script, turns, m) && TurnMove(s, t, script[turns], runs)
    ensures Kept(s0, t, script, turns + 1, if s.stopped then m else turns + 1)
  {
    var turn := script[turns];
    AllOfNext(script, turns);
    AskedNext(s0.stopped, script, turns);
    assert |t.offered| <= |s.offered| + |turn.wakes| + |turn.arrivals|;
    if !s.stopped {
      assert t.offered == s0.offered + AllOf(script[..turns + 1]);
      forall k: nat | AskedBefore(s0.stopped, script, k) ensures turns + 1 <= k {
      }
    }
    TakenGrows(s0, s, t, turns);
  }

  /** As long as fibers of the start are queued, each turn takes one. */
  lemma TakenGrows(s0: Snapshot, s: Snapshot, t: Snapshot, turns: nat)
    requires s0.offered == s0.taken + s0.queue && s.offered == s.taken + s.queue && s0.offered <= s.offered
    requires |s.taken| - |s0.taken| >= if turns < |s0.queue| then turns else |s0.queue|
    requires t.taken == s.taken + if s.queue == [] then [] else [s.queue[0]]
    ensures |t.taken| - |s0.taken| >= if turns + 1 < |s0.queue| then turns + 1 else |s0.queue|
  {
    assert |s.taken| + |s.queue| >= |s0.taken| + |s0.queue|;
  }

  lemma TurnWinds(s0: Snapshot, s: Snapshot, t: Snapshot, script: seq<Turn>, turns: nat, m: nat, runs: bool)
    requires turns < |script| && Kept(s0, s, script, turns, m) && TurnMove(s, t, script[turns], runs)
    requires Kept(s0, t, script, turns + 1, if s.stopped then m else turns + 1)
    requires Winding(s0, s, script, turns, m, false)
    ensures Winding(s0, t, script, turns + 1, if s.stopped then m else turns + 1, s.stopped && t.queue == [])
  {
    AllOfNext(script, turns);
    if s.stopped {
      assert |s.taken| + |s.queue| == |s.offered|;
      if s.queue == [] {
        assert !runs && t.queue == [] by {
          assert |t.taken| + |t.queue| == |t.offered|;
        }
      }
      assert turns > m ==> |s.taken| - |s0.taken| + 1 <= |s0.queue| + |AllOf(script[..turns])|;
    }
  }

  lemma KeptSays(s0: Snapshot, s: Snapshot, script: seq<Turn>, turns: nat, m: nat)
    requires Kept(s0, s, script, turns, m)
    ensures s0.offered <= s.offered && s0.taken <= s.taken && turns <= |script|
    ensures |s.taken| - |s0.taken| >= if turns < |s0.queue| then turns else |s0.queue|
    ensures s.stopped <==> AskedBefore(s0.stopped, script, turns)
    ensures forall k :: 0 < k <= turns && !AskedBefore(s0.stopped, script, k - 1) ==>
              s0.offered + AllOf(script[..k]) <= s.offered
  {
    forall k | 0 < k <= turns && !AskedBefore(s0.stopped, script, k - 1)
      ensures s0.offered + AllOf(script[..k]) <= s.offered {
      assert k <= m;
      AllOfPrefix(script, k, m);
    }
  }

  /** When all turns are used up without the loop ending, there were not enough of them. */
  lemma NotEnough(s0: Snapshot, s: Snapshot, script: seq<Turn>, m: nat, idleEnded: bool)
    requires Kept(s0, s, script, |script|, m) && Winding(s0, s, script, |script|, m, idleEnded)
    ensures forall k: nat :: !EnoughAfter(s0, script, k)
  {
    assert script[..|script|] == script;
    assert |s.taken| + |s.queue| == |s.offered|;
  }
}
