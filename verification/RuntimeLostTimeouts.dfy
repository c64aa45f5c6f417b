/** Which steps leave a `do_io` call without the timeout it armed. */
module RuntimeLostTimeouts {
  import opened Common
  import opened Runtime
  import opened RuntimeFrame
  import opened RuntimeTimeouts
  import opened RuntimeWakeups

  /** Where the timeout of a call can be: made but not in the set, in the set, in the hand of a worker, or with a
      fiber that is to run it or is running it. */
  datatype Place = Made(f: nat) | Held(d: nat) | InHandOf(w: nat, d: nat) | With(g: nat)

  ghost predicate Lies(s: State, c: nat, p: Place) {
    match p
    case Made(f) => f < |s.fibers| && SetsFor(s.fibers[f].pc) == Some(c)
    case Held(d) => d in s.timers && s.timers[d] == TimeoutOf(c)
    case InHandOf(w, d) => w < |s.workers| && s.workers[w].pc.Scheduling? && d in s.workers[w].pc.hand
                           && s.workers[w].pc.hand[d] == TimeoutOf(c)
    case With(g) => g < |s.fibers| && CallbackOf(s.fibers[g].pc) == Some(c)
  }

  ghost predicate HasTimeout(s: State, c: nat) {
    exists p :: Lies(s, c, p)
  }

  /** The steps that use a timeout up or lose it: its insertion is refused since its deadline is held, a timer of
      another call, of an earlier round or of the user erases it by its deadline, or its callback ends. */
  ghost predicate TakesAway(s: State, a: Action, c: nat, p: Place) {
    && a.Code? && Runs(s, a.w) && CodeEnabled(s, a.w, a.c)
    && match a.c
       case SetTimer => p == Made(Cur(s, a.w)) && SetsFor(CurPc(s, a.w)) == Some(c) && CurPc(s, a.w).d in s.timers
       case Fire => p == With(Cur(s, a.w)) && CurPc(s, a.w) == Firing(c) && (!s.calls[c].live || s.calls[c].cancelled)
       case CancelEvent(_) => p == With(Cur(s, a.w)) && CurPc(s, a.w) == Cancelling(c)
       case k => ErasedBy(s, a.w, k).Some? && p == Held(ErasedBy(s, a.w, k).value) && Lies(s, c, p)
  }

  // ---- a place that is not taken away goes on somewhere ----

  lemma ResumeMovesOn(s: State, w: nat, c: nat, p: Place)
    requires w < |s.workers| && RunEnabled(s, w, Resume) && Lies(s, c, p)
    ensures Lies(ResumeStep(s, w), c, p)
  {
    var f := s.workers[w].pc.f;
    assert CallbackOf(ResumeStep(s, w).fibers[f].pc) == CallbackOf(s.fibers[f].pc);
  }

  /** Everything about a fiber that says whether it has a timeout. */
  ghost predicate SamePlaces(s: State, t: State) {
    && t.timers == s.timers && |t.fibers| == |s.fibers| && |t.workers| == |s.workers|
    && (forall f :: 0 <= f < |s.fibers| ==> t.fibers[f].pc == s.fibers[f].pc)
    && (forall v :: 0 <= v < |s.workers| && s.workers[v].pc.Scheduling? ==> t.workers[v].pc == s.workers[v].pc)
  }

  lemma OtherRunStepsKeepPlaces(s: State, w: nat, r: RunAction)
    requires w < |s.workers| && RunEnabled(s, w, r) && r != Resume
    ensures SamePlaces(s, RunNext(s, w, r))
  {
  }

  lemma RunMovesOn(s: State, w: nat, r: RunAction, c: nat, p: Place)
    requires w < |s.workers| && RunEnabled(s, w, r) && Lies(s, c, p)
    ensures Lies(RunNext(s, w, r), c, p)
  {
    if r == Resume {
      ResumeMovesOn(s, w, c, p);
    } else {
      OtherRunStepsKeepPlaces(s, w, r);
    }
  }

  lemma ListMovesOn(s: State, w: nat, c: nat, p: Place)
    requires w < |s.workers| && s.workers[w].pc == Listing && Lies(s, c, p)
    ensures HasTimeout(ListStep(s, w), c)
  {
    var t := ListStep(s, w);
    if p.Held? && p.d <= s.clock {
      assert Lies(t, c, InHandOf(w, p.d));
    } else {
      assert Lies(t, c, p);
    }
  }

  lemma ScheduleMovesOn(s: State, w: nat, d: nat, c: nat, p: Place)
    requires w < |s.workers| && IdleEnabled(s, w, ScheduleExpired(d)) && Lies(s, c, p)
    ensures HasTimeout(ScheduleExpiredStep(s, w, d), c)
  {
    var t := ScheduleExpiredStep(s, w, d);
    if p == InHandOf(w, d) {
      assert Lies(t, c, With(|s.fibers|));
    } else {
      assert Lies(t, c, p);
    }
  }

  lemma ReadyMovesOn(s: State, w: nat, ok: bool, c: nat, p: Place)
    requires w < |s.workers| && IdleEnabled(s, w, HandleReady(ok)) && Lies(s, c, p)
    ensures Lies(ReadyStep(s, w, ok), c, p)
  {
    ReadyMoves(s, w, ok);
    if p.Made? || p.With? {
      var f := if p.Made? then p.f else p.g;
      assert Bystander(s.fibers[f], ReadyStep(s, w, ok).fibers[f], false);
    }
  }

  lemma IdleMovesOn(s: State, w: nat, i: IdleAction, c: nat, p: Place)
    requires w < |s.workers| && IdleEnabled(s, w, i) && Lies(s, c, p)
    ensures HasTimeout(IdleNext(s, w, i), c)
  {
    match i
    case ListExpired => ListMovesOn(s, w, c, p);
    case ScheduleExpired(d) => ScheduleMovesOn(s, w, d, c, p);
    case HandleReady(ok) => ReadyMovesOn(s, w, ok, c, p);
    case _ =>
      IdlingMoves(s, w, i);
      assert Lies(IdleNext(s, w, i), c, p);
  }

  lemma TimerMovesOn(s: State, w: nat, k: CodeAction, c: nat, d: nat)
    requires Runs(s, w) && CodeEnabled(s, w, k) && Lies(s, c, Held(d)) && !TakesAway(s, Code(w, k), c, Held(d))
    ensures Lies(CodeNext(s, w, k), c, Held(d))
  {
    if Erases(k) {
      ErasingTimers(s, w, k, d);
    } else if !k.SetTimer? {
      CodeMoves(s, w, k);
    }
  }

  /** An erasing action takes out at most the entry with its deadline, and puts nothing in the place of another. */
  lemma ErasingTimers(s: State, w: nat, k: CodeAction, d: nat)
    requires Runs(s, w) && CodeEnabled(s, w, k) && Erases(k) && d in s.timers && ErasedBy(s, w, k) != Some(d)
    ensures StaysHeld(s, CodeNext(s, w, k), d)
  {
    match k
    case RefreshTimer(h) => RefreshKeepsOthers(s, h, d);
    case ResetTimer(h, ms, fromNow) => ResetKeepsOthers(s, h, ms, fromNow, d);
    case CancelTimer(h) =>
      if s.handles[h].alive {
        ErasureKeepsOthers(s, s.handles[h].next, d);
      }
    case Disarm => OwnErasureKeepsOthers(s, w, k, d);
    case GiveUp => OwnErasureKeepsOthers(s, w, k, d);
  }

  lemma OwnErasureKeepsOthers(s: State, w: nat, k: CodeAction, d: nat)
    requires Runs(s, w) && CodeEnabled(s, w, k) && (k.Disarm? || k.GiveUp?)
    requires d in s.timers && ErasedBy(s, w, k) != Some(d)
    ensures StaysHeld(s, CodeNext(s, w, k), d)
  {
    if CurPc(s, w).timer.Some? {
      ErasureKeepsOthers(s, CurPc(s, w).timer.value, d);
    }
  }

  predicate StaysHeld(s: State, t: State, d: nat)
    requires d in s.timers
  {
    d in t.timers && t.timers[d] == s.timers[d]
  }

  lemma ErasureKeepsOthers(s: State, e: nat, d: nat)
    requires d in s.timers && d != e
    ensures StaysHeld(s, EraseTimer(s, e), d)
  {
  }

  lemma RefreshKeepsOthers(s: State, h: nat, d: nat)
    requires h < |s.handles| && d in s.timers && (CanMove(s, h) ==> d != s.handles[h].next)
    ensures StaysHeld(s, RefreshTimerStep(s, h), d)
  {
  }

  lemma ResetKeepsOthers(s: State, h: nat, ms: nat, fromNow: bool, d: nat)
    requires h < |s.handles| && d in s.timers
    requires !(ms == s.handles[h].ms && !fromNow) && CanMove(s, h) ==> d != s.handles[h].next
    ensures StaysHeld(s, ResetTimerStep(s, h, ms, fromNow), d)
  {
  }

  /** And the entry with its deadline does go, or is one of the user. */
  lemma ErasedTimer(s: State, w: nat, k: CodeAction, d: nat)
    requires Runs(s, w) && CodeEnabled(s, w, k) && ErasedBy(s, w, k) == Some(d) && d in CodeNext(s, w, k).timers
    ensures CodeNext(s, w, k).timers[d].UserTimer?
  {
  }

  lemma SetTimerMovesOn(s: State, w: nat, c: nat)
    requires Runs(s, w) && CodeEnabled(s, w, SetTimer) && Lies(s, c, Made(Cur(s, w)))
    requires !TakesAway(s, Code(w, SetTimer), c, Made(Cur(s, w)))
    ensures Lies(SetTimerStep(s, w), c, Held(CurPc(s, w).d))
  {
  }

  /** The fiber that has the timeout acts itself. */
  lemma OwnerMovesOn(s: State, w: nat, k: CodeAction, c: nat, p: Place)
    requires Runs(s, w) && CodeEnabled(s, w, k) && Lies(s, c, p) && !TakesAway(s, Code(w, k), c, p)
    requires p == Made(Cur(s, w)) || p == With(Cur(s, w))
    ensures HasTimeout(CodeNext(s, w, k), c)
  {
    if p.Made? {
      SetTimerMovesOn(s, w, c);
    } else {
      assert Lies(CodeNext(s, w, k), c, p);
    }
  }

  lemma CodeMovesOn(s: State, w: nat, k: CodeAction, c: nat, p: Place)
    requires Runs(s, w) && CodeEnabled(s, w, k) && Lies(s, c, p) && !TakesAway(s, Code(w, k), c, p)
    ensures HasTimeout(CodeNext(s, w, k), c)
  {
    if p == Made(Cur(s, w)) || p == With(Cur(s, w)) {
      OwnerMovesOn(s, w, k, c, p);
    } else {
      CodeMoves(s, w, k);
      if p.Held? {
        TimerMovesOn(s, w, k, c, p.d);
      } else if p.Made? || p.With? {
        var f := if p.Made? then p.f else p.g;
        assert Bystander(s.fibers[f], CodeNext(s, w, k).fibers[f], Erases(k));
      }
      assert Lies(CodeNext(s, w, k), c, p);
    }
  }

  lemma MovesOn(s: State, a: Action, c: nat, p: Place)
    requires Enabled(s, a) && Lies(s, c, p) && !TakesAway(s, a, c, p)
    ensures HasTimeout(Next(s, a), c)
  {
    match a
    case Env(_) => assert Lies(Next(s, a), c, p);
    case Run(w, r) => RunMovesOn(s, w, r, c, p);
    case Idle(w, i) => IdleMovesOn(s, w, i, c, p);
    case Code(w, k) => CodeMovesOn(s, w, k, c, p);
  }

  /** A fiber that keeps its place keeps what it has. */
  lemma StandsStill(s: State, w: nat, k: CodeAction, c: nat, q: Place)
    requires Runs(s, w) && CodeEnabled(s, w, k) && Lies(CodeNext(s, w, k), c, q) && !q.Held?
    requires q != Made(Cur(s, w)) && q != With(Cur(s, w))
    ensures Lies(s, c, q)
  {
    CodeMoves(s, w, k);
    BystandersStay(s, CodeNext(s, w, k), w, k, c, q);
  }

  lemma BystandersStay(s: State, t: State, w: nat, k: CodeAction, c: nat, q: Place)
    requires Runs(s, w) && CodeMove(s, t, w, k) && Lies(t, c, q) && !q.Held?
    requires q != Made(Cur(s, w)) && q != With(Cur(s, w))
    ensures Lies(s, c, q)
  {
    if q.Made? || q.With? {
      var f := if q.Made? then q.f else q.g;
      if f < |s.fibers| {
        assert Bystander(s.fibers[f], t.fibers[f], Erases(k));
      }
    }
  }

  /** A step that takes a place away leaves at most the others. */
  lemma OnlyOthersStay(s: State, a: Action, c: nat, p: Place, q: Place)
    requires Enabled(s, a) && TakesAway(s, a, c, p) && Lies(Next(s, a), c, q)
    ensures Lies(s, c, q) && q != p
  {
    OwnerHasNone(s, a.w, a.c, c, p);
    if q.Held? {
      HeldStays(s, a, c, p, q.d);
    } else {
      StandsStill(s, a.w, a.c, c, q);
      TakenFromOwner(s, a, c, p);
    }
  }

  lemma TakenFromOwner(s: State, a: Action, c: nat, p: Place)
    requires Enabled(s, a) && TakesAway(s, a, c, p)
    ensures p.Held? || p == Made(Cur(s, a.w)) || p == With(Cur(s, a.w))
  {
  }

  /** The fiber that takes a timeout away has none itself afterwards. */
  lemma OwnerHasNone(s: State, w: nat, k: CodeAction, c: nat, p: Place)
    requires Runs(s, w) && CodeEnabled(s, w, k) && TakesAway(s, Code(w, k), c, p)
    ensures !Lies(CodeNext(s, w, k), c, Made(Cur(s, w))) && !Lies(CodeNext(s, w, k), c, With(Cur(s, w)))
  {
    if Erases(k) {
      CodeMoves(s, w, k);
    }
  }

  lemma HeldStays(s: State, a: Action, c: nat, p: Place, d: nat)
    requires Enabled(s, a) && TakesAway(s, a, c, p) && Lies(Next(s, a), c, Held(d))
    ensures Lies(s, c, Held(d)) && Held(d) != p
  {
    CodeMoves(s, a.w, a.c);
    if p == Held(d) {
      ErasedTimer(s, a.w, a.c, d);
    }
  }

  /** A step leaves a call without any timeout exactly when it takes away the only place where there was one. */
  lemma TimeoutLostIff(s: State, a: Action, c: nat)
    requires Enabled(s, a) && HasTimeout(s, c)
    ensures !HasTimeout(Next(s, a), c) <==> exists p :: TakesAway(s, a, c, p) && forall q :: Lies(s, c, q) ==> q == p
  {
    var p0 :| Lies(s, c, p0);
    if !HasTimeout(Next(s, a), c) {
      forall q | Lies(s, c, q) ensures TakesAway(s, a, c, q) && q == p0 {
        if !TakesAway(s, a, c, q) {
          MovesOn(s, a, c, q);
        }
        if !TakesAway(s, a, c, p0) {
          MovesOn(s, a, c, p0);
        }
      }
    }
    if p :| TakesAway(s, a, c, p) && forall q :: Lies(s, c, q) ==> q == p {
      forall q ensures !Lies(Next(s, a), c, q) {
        if Lies(Next(s, a), c, q) {
          OnlyOthersStay(s, a, c, p, q);
        }
      }
    }
  }

  lemma PlaceComesFrom(s: State, a: Action, c: nat, q: Place)
    requires Enabled(s, a) && a.Code? && Lies(Next(s, a), c, q)
    ensures HasTimeout(s, c) || (a.c == ArmTimer && CurPc(s, a.w) == Arming(c) && s.calls[c].to.Some?)
  {
    CodeMoves(s, a.w, a.c);
    assert Lies(s, c, Made(Cur(s, a.w))) || Lies(s, c, q) ==> HasTimeout(s, c);
    if q.Made? || q.With? {
      var f := if q.Made? then q.f else q.g;
      if f < |s.fibers| && f != Cur(s, a.w) {
        assert Bystander(s.fibers[f], Next(s, a).fibers[f], Erases(a.c));
      }
    }
  }

  /** A running fiber brings a timeout into being only in its own round. */
  lemma TimeoutMadeByOwnRound(s: State, a: Action, c: nat)
    requires Enabled(s, a) && a.Code? && !HasTimeout(s, c) && HasTimeout(Next(s, a), c)
    ensures a.c == ArmTimer && CurPc(s, a.w) == Arming(c) && s.calls[c].to.Some?
  {
    var q :| Lies(Next(s, a), c, q);
    PlaceComesFrom(s, a, c, q);
  }

  // ---- whole runs ----

  /** A step of the run has taken a timeout of the call away since the call last armed a timer. */
  ghost predicate TakenSinceArming(s: State, acts: seq<Action>, c: nat, taken: bool)
    requires Legal(s, acts)
    decreases |acts|
  {
    if acts == [] then taken
    else
      var now := !Arms(s, acts[0], c) && (taken || exists p :: TakesAway(s, acts[0], c, p));
      TakenSinceArming(Next(s, acts[0]), acts[1..], c, now)
  }

  predicate InRound(s: State, f: nat, c: nat) {
    f < |s.fibers| && RoundOf(s.fibers[f].pc) == Some(c)
  }

  ghost predicate InTimedRound(s: State, c: nat) {
    exists f: nat :: InRound(s, f, c)
  }

  lemma EnvKeepsRound(s: State, e: EnvAction, f: nat, c: nat)
    requires EnvEnabled(s, e) && InRound(EnvNext(s, e), f, c)
    ensures InRound(s, f, c)
  {
  }

  lemma RunKeepsRound(s: State, w: nat, r: RunAction, f: nat, c: nat)
    requires w < |s.workers| && RunEnabled(s, w, r) && InRound(RunNext(s, w, r), f, c)
    ensures InRound(s, f, c)
  {
    if r == Take {
      TakeKeepsPc(s, w, f);
    }
  }

  lemma TakeKeepsPc(s: State, w: nat, f: nat)
    requires w < |s.workers| && RunEnabled(s, w, Take) && f < |TakeStep(s, w).fibers|
    ensures |TakeStep(s, w).fibers| == |s.fibers| && TakeStep(s, w).fibers[f].pc == s.fibers[f].pc
  {
  }

  lemma IdleKeepsRound(s: State, w: nat, i: IdleAction, f: nat, c: nat)
    requires w < |s.workers| && IdleEnabled(s, w, i) && InRound(IdleNext(s, w, i), f, c)
    ensures InRound(s, f, c)
  {
    IdleMoves(s, w, i);
    if f < |s.fibers| {
      assert Bystander(s.fibers[f], IdleNext(s, w, i).fibers[f], false);
    }
  }

  lemma CodeKeepsRound(s: State, w: nat, k: CodeAction, f: nat, c: nat)
    requires Runs(s, w) && CodeEnabled(s, w, k) && InRound(CodeNext(s, w, k), f, c)
    ensures InRound(s, f, c) || Arms(s, Code(w, k), c)
  {
    CodeMoves(s, w, k);
    if f < |s.fibers| && f != Cur(s, w) {
      assert Bystander(s.fibers[f], CodeNext(s, w, k).fibers[f], Erases(k));
    }
  }

  lemma RoundComesFrom(s: State, a: Action, f: nat, c: nat)
    requires Enabled(s, a) && InRound(Next(s, a), f, c)
    ensures InRound(s, f, c) || Arms(s, a, c)
  {
    match a
    case Env(e) => EnvKeepsRound(s, e, f, c);
    case Run(w, r) => RunKeepsRound(s, w, r, f, c);
    case Idle(w, i) => IdleKeepsRound(s, w, i, f, c);
    case Code(w, k) => CodeKeepsRound(s, w, k, f, c);
  }

  lemma ArmingMakes(s: State, a: Action, c: nat)
    requires Enabled(s, a) && Arms(s, a, c)
    ensures HasTimeout(Next(s, a), c)
  {
    assert Lies(Next(s, a), c, Made(Cur(s, a.w)));
  }

  lemma StepKeepsTimeout(s: State, a: Action, c: nat, taken: bool)
    requires Enabled(s, a) && (InTimedRound(s, c) ==> HasTimeout(s, c) || taken)
    ensures InTimedRound(Next(s, a), c) ==>
              HasTimeout(Next(s, a), c) || (!Arms(s, a, c) && (taken || exists p :: TakesAway(s, a, c, p)))
  {
    if InTimedRound(Next(s, a), c) {
      if Arms(s, a, c) {
        ArmingMakes(s, a, c);
      } else {
        var f: nat :| InRound(Next(s, a), f, c);
        RoundComesFrom(s, a, f, c);
        if p :| Lies(s, c, p) && !TakesAway(s, a, c, p) {
          MovesOn(s, a, c, p);
        }
      }
    }
  }

  lemma {:induction false} RunKeepsTimeout(s: State, acts: seq<Action>, c: nat, taken: bool)
    requires Legal(s, acts) && (InTimedRound(s, c) ==> HasTimeout(s, c) || taken)
    ensures InTimedRound(Exec(s, acts), c) ==> HasTimeout(Exec(s, acts), c) || TakenSinceArming(s, acts, c, taken)
    decreases |acts|
  {
    if acts != [] {
      StepKeepsTimeout(s, acts[0], c, taken);
      var now := !Arms(s, acts[0], c) && (taken || exists p :: TakesAway(s, acts[0], c, p));
      RunKeepsTimeout(Next(s, acts[0]), acts[1..], c, now);
    }
  }

  /** Over every run: a call in a timed round has its timeout, unless a step since it armed the timer has taken one of
      its timeouts away. */
  lemma TimedRoundHasTimeout(n: nat, acts: seq<Action>, c: nat)
    requires Legal(Initial(n), acts) && InTimedRound(Exec(Initial(n), acts), c)
    ensures HasTimeout(Exec(Initial(n), acts), c) || TakenSinceArming(Initial(n), acts, c, false)
  {
    RunKeepsTimeout(Initial(n), acts, c, false);
  }
}
