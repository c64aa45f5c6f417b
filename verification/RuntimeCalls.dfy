/** Calls of `do_io` over whole runs: which fiber made them, when they armed their timers, and when they end. */
module RuntimeCalls {
  import opened Common
  import opened Runtime
  import opened RuntimeFrame
  import opened RuntimeTimeouts

  /** The call a fiber is inside of. */
  function InsideOf(pc: Pc): Option<nat> {
    match pc
    case Arming(c) => Some(c)
    case Setting(ForCall(c), _) => Some(c)
    case Adding(c, _) => Some(c)
    case Waiting(c, _) => Some(c)
    case Disarming(c, _) => Some(c)
    case Checking(c) => Some(c)
    case Retrying(c) => Some(c)
    case Abandoning(c, _) => Some(c)
    case _ => None
  }

  predicate Inside(s: State, f: nat, c: nat) {
    f < |s.fibers| && InsideOf(s.fibers[f].pc) == Some(c)
  }

  /** The step is a call of `do_io` by fiber `f`, and becomes call `c`. */
  predicate Begins(s: State, a: Action, f: nat, c: nat) {
    a.Code? && a.c.BeginIo? && Runs(s, a.w) && CodeEnabled(s, a.w, a.c) && Cur(s, a.w) == f && |s.calls| == c
  }

  /** The step is the return of call `c`. */
  predicate Returns(s: State, a: Action, c: nat) {
    && a.Code? && Runs(s, a.w) && CodeEnabled(s, a.w, a.c)
    && match a.c
       case Check => CurPc(s, a.w) == Checking(c) && s.calls[c].cancelled
       case Retry(again) => !again && CurPc(s, a.w) == Retrying(c)
       case GiveUp => CurPc(s, a.w).c == c
       case _ => false
  }

  // ---- what a step does to the calls ----

  ghost predicate CallsMove(s: State, t: State, a: Action) {
    && |t.calls| == |s.calls| + Bit(a.Code? && a.c.BeginIo?)
    && (a.Code? && a.c.BeginIo? ==> t.calls[|s.calls|] == Call(a.c.key, a.c.to, {}, false, true))
    && forall c :: 0 <= c < |s.calls| ==> OneCall(s, t, a, c)
  }

  /** A call keeps its key and timeout, is live until it returns, and gets the reading of the clock at which it arms a
      timer. */
  predicate OneCall(s: State, t: State, a: Action, c: nat)
    requires c < |s.calls| && c < |t.calls|
  {
    && t.calls[c].key == s.calls[c].key && t.calls[c].to == s.calls[c].to
    && t.calls[c].armed == s.calls[c].armed + (if Arms(s, a, c) then {s.clock} else {})
    && t.calls[c].live == (s.calls[c].live && !Returns(s, a, c))
  }

  lemma SameCalls(s: State, t: State, a: Action)
    requires t.calls == s.calls && (a.Code? ==> !InCall(a.c) && !a.c.GiveUp?)
    ensures CallsMove(s, t, a)
  {
  }

  lemma CallCodeCalls(s: State, w: nat, k: CodeAction)
    requires Runs(s, w) && CodeEnabled(s, w, k) && InCall(k)
    ensures CallsMove(s, CodeNext(s, w, k), Code(w, k))
  {
  }

  lemma FireCalls(s: State, w: nat)
    requires Runs(s, w) && CodeEnabled(s, w, Fire)
    ensures CallsMove(s, FireStep(s, w), Code(w, Fire))
  {
  }

  lemma GiveUpCalls(s: State, w: nat)
    requires Runs(s, w) && CodeEnabled(s, w, GiveUp)
    ensures CallsMove(s, GiveUpStep(s, w), Code(w, GiveUp))
  {
  }

  lemma RegistryCalls(s: State, w: nat, k: CodeAction)
    requires Runs(s, w) && CodeEnabled(s, w, k) && InRegistry(k)
    ensures CodeNext(s, w, k).calls == s.calls
  {
    RegistryCodeRuns(s, w, k);
  }

  lemma DisarmCalls(s: State, w: nat)
    requires Runs(s, w) && CodeEnabled(s, w, Disarm)
    ensures DisarmStep(s, w).calls == s.calls
  {
  }

  predicate MovesTimer(k: CodeAction) {
    k.SetTimer? || k.CancelTimer? || k.RefreshTimer? || k.ResetTimer?
  }

  lemma TimerCalls(s: State, w: nat, k: CodeAction)
    requires Runs(s, w) && CodeEnabled(s, w, k) && MovesTimer(k)
    ensures CodeNext(s, w, k).calls == s.calls
  {
    match k
    case SetTimer => assert SetTimerStep(s, w).calls == s.calls;
    case CancelTimer(h) => assert CancelTimerStep(s, h).calls == s.calls;
    case RefreshTimer(h) => assert RefreshTimerStep(s, h).calls == s.calls;
    case ResetTimer(h, ms, fromNow) => assert ResetTimerStep(s, h, ms, fromNow).calls == s.calls;
  }

  lemma OtherCalls(s: State, w: nat, k: CodeAction)
    requires Runs(s, w) && CodeEnabled(s, w, k)
    requires k.Spawn? || k.AbortAdd? || k.SleepFor? || k.AddTimer? || k.WakeUp? || k.Finish?
    ensures CodeNext(s, w, k).calls == s.calls
  {
  }

  lemma CodeCalls(s: State, w: nat, k: CodeAction)
    requires Runs(s, w) && CodeEnabled(s, w, k)
    ensures CallsMove(s, CodeNext(s, w, k), Code(w, k))
  {
    if InCall(k) {
      CallCodeCalls(s, w, k);
    } else if k.Fire? {
      FireCalls(s, w);
    } else if k.GiveUp? {
      GiveUpCalls(s, w);
    } else {
      if InRegistry(k) {
        RegistryCalls(s, w, k);
      } else if k.Disarm? {
        DisarmCalls(s, w);
      } else if MovesTimer(k) {
        TimerCalls(s, w, k);
      } else {
        OtherCalls(s, w, k);
      }
      SameCalls(s, CodeNext(s, w, k), Code(w, k));
    }
  }

  lemma EnvCalls(s: State, e: EnvAction)
    requires EnvEnabled(s, e)
    ensures CallsMove(s, EnvNext(s, e), Env(e))
  {
  }

  lemma RunCalls(s: State, w: nat, r: RunAction)
    requires w < |s.workers| && RunEnabled(s, w, r)
    ensures CallsMove(s, RunNext(s, w, r), Run(w, r))
  {
    RunMoves(s, w, r);
  }

  lemma IdleCalls(s: State, w: nat, i: IdleAction)
    requires w < |s.workers| && IdleEnabled(s, w, i)
    ensures CallsMove(s, IdleNext(s, w, i), Idle(w, i))
  {
    IdleMoves(s, w, i);
  }

  /** Every step of every run: a call begins by a fiber's `do_io` only, keeps what it asked for, is live exactly until
      it returns, and its readings are those of the clock when it armed a timer. */
  lemma StepMovesCalls(s: State, a: Action)
    requires Enabled(s, a)
    ensures CallsMove(s, Next(s, a), a)
  {
    match a
    case Env(e) => EnvCalls(s, e);
    case Run(w, r) => RunCalls(s, w, r);
    case Idle(w, i) => IdleCalls(s, w, i);
    case Code(w, k) => CodeCalls(s, w, k);
  }

  // ---- which fiber is inside which call ----

  /** Where a step leaves a fiber: inside the call it begins, outside the one that returns, else where it was. */
  function InsideNext(s: State, a: Action, f: nat): Option<nat>
    requires f < |s.fibers|
  {
    var was := InsideOf(s.fibers[f].pc);
    if Begins(s, a, f, |s.calls|) then Some(|s.calls|)
    else if was.Some? && Returns(s, a, was.value) && Cur(s, a.w) == f then None
    else was
  }

  ghost predicate InsideMove(s: State, t: State, a: Action) {
    && |s.fibers| <= |t.fibers|
    && (forall f :: 0 <= f < |s.fibers| ==> InsideOf(t.fibers[f].pc) == InsideNext(s, a, f))
    && (forall f :: |s.fibers| <= f < |t.fibers| ==> InsideOf(t.fibers[f].pc).None?)
  }

  lemma OwnCodeInside(s: State, w: nat, k: CodeAction)
    requires Runs(s, w) && CodeEnabled(s, w, k) && InOwnCode(k)
    ensures InsideOf(CodeNext(s, w, k).fibers[Cur(s, w)].pc) == InsideNext(s, Code(w, k), Cur(s, w))
  {
  }

  lemma RegistryInside(s: State, w: nat, k: CodeAction)
    requires Runs(s, w) && CodeEnabled(s, w, k) && InRegistry(k)
    ensures Cur(s, w) < |CodeNext(s, w, k).fibers|
    ensures InsideOf(CodeNext(s, w, k).fibers[Cur(s, w)].pc) == InsideNext(s, Code(w, k), Cur(s, w))
  {
    RegistryCodeRuns(s, w, k);
  }

  lemma ErasingInside(s: State, w: nat, k: CodeAction)
    requires Runs(s, w) && CodeEnabled(s, w, k) && Erases(k)
    ensures Cur(s, w) < |CodeNext(s, w, k).fibers|
    ensures InsideOf(CodeNext(s, w, k).fibers[Cur(s, w)].pc) == InsideNext(s, Code(w, k), Cur(s, w))
  {
  }

  lemma OtherInside(s: State, w: nat, k: CodeAction)
    requires Runs(s, w) && CodeEnabled(s, w, k) && !InOwnCode(k) && !InRegistry(k) && !Erases(k)
    ensures Cur(s, w) < |CodeNext(s, w, k).fibers|
    ensures InsideOf(CodeNext(s, w, k).fibers[Cur(s, w)].pc) == InsideNext(s, Code(w, k), Cur(s, w))
  {
  }

  lemma BystandersInside(s: State, t: State, w: nat, k: CodeAction)
    requires Runs(s, w) && CodeEnabled(s, w, k) && FibersMove(s, t, w, k)
    requires InsideOf(t.fibers[Cur(s, w)].pc) == InsideNext(s, Code(w, k), Cur(s, w))
    ensures InsideMove(s, t, Code(w, k))
  {
    forall f | 0 <= f < |s.fibers| ensures InsideOf(t.fibers[f].pc) == InsideNext(s, Code(w, k), f) {
      assert f != Cur(s, w) ==> Bystander(s.fibers[f], t.fibers[f], Erases(k));
    }
  }

  lemma CodeInside(s: State, w: nat, k: CodeAction)
    requires Runs(s, w) && CodeEnabled(s, w, k)
    ensures InsideMove(s, CodeNext(s, w, k), Code(w, k))
  {
    var t := CodeNext(s, w, k);
    CodeMoves(s, w, k);
    if InOwnCode(k) {
      OwnCodeInside(s, w, k);
    } else if InRegistry(k) {
      RegistryInside(s, w, k);
    } else if Erases(k) {
      ErasingInside(s, w, k);
    } else {
      OtherInside(s, w, k);
    }
    BystandersInside(s, t, w, k);
  }

  lemma RunInside(s: State, w: nat, r: RunAction)
    requires w < |s.workers| && RunEnabled(s, w, r)
    ensures InsideMove(s, RunNext(s, w, r), Run(w, r))
  {
    if r == Take {
      TakeInside(s, w);
    }
  }

  lemma TakeInside(s: State, w: nat)
    requires w < |s.workers| && RunEnabled(s, w, Take)
    ensures InsideMove(s, TakeStep(s, w), Run(w, Take))
  {
  }

  lemma IdleInside(s: State, w: nat, i: IdleAction)
    requires w < |s.workers| && IdleEnabled(s, w, i)
    ensures InsideMove(s, IdleNext(s, w, i), Idle(w, i))
  {
    var t := IdleNext(s, w, i);
    IdleMoves(s, w, i);
    forall f | 0 <= f < |s.fibers| ensures InsideOf(t.fibers[f].pc) == InsideNext(s, Idle(w, i), f) {
      assert Bystander(s.fibers[f], t.fibers[f], false);
    }
  }

  lemma EnvInside(s: State, e: EnvAction)
    requires EnvEnabled(s, e)
    ensures InsideMove(s, EnvNext(s, e), Env(e))
  {
  }

  lemma StepMovesInside(s: State, a: Action)
    requires Enabled(s, a)
    ensures InsideMove(s, Next(s, a), a)
  {
    match a
    case Env(e) => EnvInside(s, e);
    case Run(w, r) => RunInside(s, w, r);
    case Idle(w, i) => IdleInside(s, w, i);
    case Code(w, k) => CodeInside(s, w, k);
  }

  /** A call is live exactly while a fiber is inside it, and then it is one fiber. */
  ghost predicate Owned(s: State) {
    && (forall f: nat, c: nat :: Inside(s, f, c) ==> c < |s.calls| && s.calls[c].live)
    && (forall f: nat, g: nat, c: nat :: Inside(s, f, c) && Inside(s, g, c) ==> f == g)
    && (forall c :: 0 <= c < |s.calls| && s.calls[c].live ==> exists f: nat :: Inside(s, f, c))
  }

  lemma StaysInside(s: State, t: State, a: Action, f: nat, c: nat)
    requires InsideMove(s, t, a) && Inside(s, f, c) && !Begins(s, a, f, |s.calls|) && !Returns(s, a, c)
    ensures Inside(t, f, c)
  {
  }

  /** Only the fiber inside a call begins nothing and makes it return. */
  lemma OwnerActs(s: State, a: Action, f: nat, c: nat)
    requires Inside(s, f, c)
    ensures !Begins(s, a, f, |s.calls|)
    ensures Returns(s, a, c) ==> Inside(s, Cur(s, a.w), c)
  {
  }

  lemma MoveKeepsOwned(s: State, t: State, a: Action)
    requires Owned(s) && Enabled(s, a) && InsideMove(s, t, a) && CallsMove(s, t, a)
    ensures Owned(t)
  {
    forall f: nat, c: nat | Inside(t, f, c)
      ensures c < |t.calls| && t.calls[c].live && (Inside(s, f, c) || Begins(s, a, f, c)) {
      assert f < |s.fibers| && InsideNext(s, a, f) == Some(c);
      if Inside(s, f, c) {
        OwnerActs(s, a, f, c);
        assert OneCall(s, t, a, c);
      }
    }
    forall c | 0 <= c < |t.calls| && t.calls[c].live ensures exists f: nat :: Inside(t, f, c) {
      if c < |s.calls| {
        assert OneCall(s, t, a, c);
        var f: nat :| Inside(s, f, c);
        OwnerActs(s, a, f, c);
        StaysInside(s, t, a, f, c);
      } else {
        assert Begins(s, a, Cur(s, a.w), c);
        assert Inside(t, Cur(s, a.w), c);
      }
    }
  }

  lemma StepKeepsOwned(s: State, a: Action)
    requires Owned(s) && Enabled(s, a)
    ensures Owned(Next(s, a))
  {
    StepMovesCalls(s, a);
    StepMovesInside(s, a);
    MoveKeepsOwned(s, Next(s, a), a);
  }

  lemma {:induction false} RunKeepsOwned(s: State, acts: seq<Action>)
    requires Owned(s) && Legal(s, acts)
    ensures Owned(Exec(s, acts))
    decreases |acts|
  {
    if acts != [] {
      StepKeepsOwned(s, acts[0]);
      RunKeepsOwned(Next(s, acts[0]), acts[1..]);
    }
  }

  /** In every reachable state a call is live exactly while one fiber is inside it. */
  lemma LiveIffInside(n: nat, acts: seq<Action>, c: nat)
    requires Legal(Initial(n), acts) && c < |Exec(Initial(n), acts).calls|
    ensures var s := Exec(Initial(n), acts);
            && (s.calls[c].live <==> exists f: nat :: Inside(s, f, c))
            && forall f: nat, g: nat :: Inside(s, f, c) && Inside(s, g, c) ==> f == g
  {
    RunKeepsOwned(Initial(n), acts);
  }
}
