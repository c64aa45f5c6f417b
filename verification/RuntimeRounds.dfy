/** The timer of a round of `do_io`: made by the round, held for nobody but the round under way, and gone when the
    round ends. */
module RuntimeRounds {
  import opened Common
  import opened Runtime
  import opened RuntimeFrame
  import opened RuntimeTimeouts
  import opened RuntimeCalls
  import opened RuntimeOnTime

  /** The call and the deadline of the timer a fiber has made in the round it is in. */
  function Round(pc: Pc): Option<(nat, nat)> {
    match pc
    case Setting(ForCall(c), d) => Some((c, d))
    case Adding(c, Some(d)) => Some((c, d))
    case Waiting(c, Some(d)) => Some((c, d))
    case Disarming(c, Some(d)) => Some((c, d))
    case Abandoning(c, Some(d)) => Some((c, d))
    case _ => None
  }

  function RoundAt(s: State, f: nat): Option<(nat, nat)> {
    if f < |s.fibers| then Round(s.fibers[f].pc) else None
  }

  /** The round that the step begins for the fiber: its timer is due when the timeout of the call has passed. */
  function Makes(s: State, a: Action, f: nat): Option<(nat, nat)> {
    if a.Code? && Runs(s, a.w) && Cur(s, a.w) == f && CurPc(s, a.w).Arming? && Arms(s, a, CurPc(s, a.w).c)
    then Some((CurPc(s, a.w).c, s.clock + s.calls[CurPc(s, a.w).c].to.value)) else None
  }

  /** The step cancels the timer of the fiber's round. */
  predicate Drops(s: State, a: Action, f: nat) {
    a.Code? && (a.c.Disarm? || a.c.GiveUp?) && Runs(s, a.w) && Cur(s, a.w) == f
  }

  ghost predicate RoundsMove(s: State, t: State, a: Action) {
    && |s.fibers| <= |t.fibers|
    && forall f: nat :: f < |t.fibers| ==>
         RoundAt(t, f) == if Makes(s, a, f).Some? then Makes(s, a, f) else if Drops(s, a, f) then None else RoundAt(s, f)
  }

  lemma CallRound(s: State, w: nat, k: CodeAction)
    requires Runs(s, w) && CodeEnabled(s, w, k) && InCall(k)
    ensures var f := Cur(s, w);
            RoundAt(CodeNext(s, w, k), f)
              == if Makes(s, Code(w, k), f).Some? then Makes(s, Code(w, k), f) else RoundAt(s, f)
  {
  }

  lemma OwnCodeRound(s: State, w: nat, k: CodeAction)
    requires Runs(s, w) && CodeEnabled(s, w, k) && InOwnCode(k) && !InCall(k)
    ensures RoundAt(CodeNext(s, w, k), Cur(s, w)) == RoundAt(s, Cur(s, w))
  {
  }

  lemma RegistryRound(s: State, w: nat, k: CodeAction)
    requires Runs(s, w) && CodeEnabled(s, w, k) && InRegistry(k)
    ensures RoundAt(CodeNext(s, w, k), Cur(s, w)) == RoundAt(s, Cur(s, w))
  {
    RegistryCodeRuns(s, w, k);
  }

  lemma ErasingRound(s: State, w: nat, k: CodeAction)
    requires Runs(s, w) && CodeEnabled(s, w, k) && Erases(k)
    ensures RoundAt(CodeNext(s, w, k), Cur(s, w)) == if k.Disarm? || k.GiveUp? then None else RoundAt(s, Cur(s, w))
  {
  }

  lemma OtherRound(s: State, w: nat, k: CodeAction)
    requires Runs(s, w) && CodeEnabled(s, w, k) && !InOwnCode(k) && !InRegistry(k) && !Erases(k)
    ensures RoundAt(CodeNext(s, w, k), Cur(s, w)) == RoundAt(s, Cur(s, w))
  {
  }

  lemma RunnerRound(s: State, w: nat, k: CodeAction)
    requires Runs(s, w) && CodeEnabled(s, w, k)
    ensures var f, a := Cur(s, w), Code(w, k);
            RoundAt(CodeNext(s, w, k), f)
              == if Makes(s, a, f).Some? then Makes(s, a, f) else if Drops(s, a, f) then None else RoundAt(s, f)
  {
    if InCall(k) {
      CallRound(s, w, k);
    } else if InOwnCode(k) {
      OwnCodeRound(s, w, k);
    } else if InRegistry(k) {
      RegistryRound(s, w, k);
    } else if Erases(k) {
      ErasingRound(s, w, k);
    } else {
      OtherRound(s, w, k);
    }
  }

  lemma CodeRounds(s: State, w: nat, k: CodeAction)
    requires Runs(s, w) && CodeEnabled(s, w, k)
    ensures RoundsMove(s, CodeNext(s, w, k), Code(w, k))
  {
    var t := CodeNext(s, w, k);
    CodeMoves(s, w, k);
    RunnerRound(s, w, k);
    forall f: nat | f < |t.fibers| && f != Cur(s, w) ensures RoundAt(t, f) == RoundAt(s, f) {
      assert f < |s.fibers| ==> Bystander(s.fibers[f], t.fibers[f], Erases(k));
    }
  }

  lemma RunRounds(s: State, w: nat, r: RunAction)
    requires w < |s.workers| && RunEnabled(s, w, r)
    ensures RoundsMove(s, RunNext(s, w, r), Run(w, r))
  {
  }

  lemma IdleRounds(s: State, w: nat, i: IdleAction)
    requires w < |s.workers| && IdleEnabled(s, w, i)
    ensures RoundsMove(s, IdleNext(s, w, i), Idle(w, i))
  {
    var t := IdleNext(s, w, i);
    IdleMoves(s, w, i);
    forall f: nat | f < |t.fibers| ensures RoundAt(t, f) == RoundAt(s, f) {
      assert f < |s.fibers| ==> Bystander(s.fibers[f], t.fibers[f], false);
    }
  }

  /** Every step: which fiber begins a round with a timer, and due when; which one ends it; all others keep theirs. */
  lemma StepMovesRounds(s: State, a: Action)
    requires Enabled(s, a)
    ensures RoundsMove(s, Next(s, a), a)
  {
    match a
    case Env(_) =>
    case Run(w, r) => RunRounds(s, w, r);
    case Idle(w, i) => IdleRounds(s, w, i);
    case Code(w, k) => CodeRounds(s, w, k);
  }

  // ---- what is held for a call ----

  predicate HeldFor(s: State, c: nat, d: nat) {
    d in s.timers && s.timers[d] == TimeoutOf(c)
  }

  /** Timers of calls come into the set from a round, and the one of a round that ends goes. */
  ghost predicate TimeoutsMove(s: State, t: State, a: Action) {
    forall c: nat, d: nat :: HeldFor(t, c, d) ==>
      && (HeldFor(s, c, d) || (a.Code? && a.c.SetTimer? && Runs(s, a.w) && CurPc(s, a.w) == Setting(ForCall(c), d)))
      && (a.Code? && Runs(s, a.w) && Drops(s, a, Cur(s, a.w)) ==> Round(CurPc(s, a.w)) != Some((c, d)))
  }

  lemma SetTimeouts(s: State, w: nat)
    requires Runs(s, w) && CodeEnabled(s, w, SetTimer)
    ensures TimeoutsMove(s, SetTimerStep(s, w), Code(w, SetTimer))
  {
  }

  lemma DroppedTimeouts(s: State, w: nat, k: CodeAction)
    requires Runs(s, w) && CodeEnabled(s, w, k) && (k.Disarm? || k.GiveUp?)
    ensures TimeoutsMove(s, CodeNext(s, w, k), Code(w, k))
  {
    DroppedTimers(s, w, k);
  }

  lemma DroppedTimers(s: State, w: nat, k: CodeAction)
    requires Runs(s, w) && CodeEnabled(s, w, k) && (k.Disarm? || k.GiveUp?)
    ensures CodeNext(s, w, k).timers
         == if CurPc(s, w).timer.Some? then s.timers - {CurPc(s, w).timer.value} else s.timers
  {
  }

  lemma StepMovesTimeouts(s: State, a: Action)
    requires Enabled(s, a)
    ensures TimeoutsMove(s, Next(s, a), a)
  {
    match a
    case Env(_) =>
    case Run(w, r) => RunMoves(s, w, r);
    case Idle(w, i) => IdleTimeouts(s, w, i);
    case Code(w, k) =>
      if k.SetTimer? {
        SetTimeouts(s, w);
      } else if k.Disarm? || k.GiveUp? {
        DroppedTimeouts(s, w, k);
      } else {
        CodeMoves(s, w, k);
      }
  }

  lemma IdleTimeouts(s: State, w: nat, i: IdleAction)
    requires w < |s.workers| && IdleEnabled(s, w, i)
    ensures TimeoutsMove(s, IdleNext(s, w, i), Idle(w, i))
  {
    match i
    case HandleReady(ok) => ReadyMoves(s, w, ok);
    case ListExpired =>
    case ScheduleExpired(_) =>
    case _ => IdlingMoves(s, w, i);
  }

  predicate RoundHolds(s: State, f: nat, c: nat, d: nat) {
    RoundAt(s, f) == Some((c, d))
  }

  /** What is held for a call is the timer of the round it is in. */
  ghost predicate OnlyCurrent(s: State) {
    forall c: nat, d: nat :: HeldFor(s, c, d) ==> exists f: nat :: RoundHolds(s, f, c, d)
  }

  lemma StepKeepsCurrent(s: State, a: Action)
    requires OnlyCurrent(s) && Enabled(s, a)
    ensures OnlyCurrent(Next(s, a))
  {
    StepMovesRounds(s, a);
    StepMovesTimeouts(s, a);
    MovesKeepCurrent(s, Next(s, a), a);
  }

  lemma MovesKeepCurrent(s: State, t: State, a: Action)
    requires OnlyCurrent(s) && RoundsMove(s, t, a) && TimeoutsMove(s, t, a)
    ensures OnlyCurrent(t)
  {
    forall c: nat, d: nat | HeldFor(t, c, d) ensures exists f: nat :: RoundHolds(t, f, c, d) {
      var g: nat;
      if HeldFor(s, c, d) {
        g :| RoundHolds(s, g, c, d);
      } else {
        g := Cur(s, a.w);
      }
      assert RoundHolds(s, g, c, d);
      assert RoundHolds(t, g, c, d);
    }
  }

  lemma {:induction false} RunKeepsCurrent(s: State, acts: seq<Action>)
    requires OnlyCurrent(s) && Legal(s, acts)
    ensures OnlyCurrent(Exec(s, acts))
    decreases |acts|
  {
    if acts != [] {
      StepKeepsCurrent(s, acts[0]);
      RunKeepsCurrent(Next(s, acts[0]), acts[1..]);
    }
  }

  // ---- over whole runs ----

  /** The step at which a fiber's round with a timer began: it has begun none since. */
  lemma {:induction false} RoundBegun(s: State, acts: seq<Action>, f: nat) returns (i: nat)
    requires Legal(s, acts) && RoundAt(s, f).None? && RoundAt(Exec(s, acts), f).Some?
    ensures i < |acts| && Makes(StateAt(s, acts, i), acts[i], f) == RoundAt(Exec(s, acts), f)
    ensures forall j :: i < j < |acts| ==> Makes(StateAt(s, acts, j), acts[j], f).None?
    decreases |acts|
  {
    i := |acts| - 1;
    LastRound(s, acts, f);
    if Makes(StateAt(s, acts, i), acts[i], f).None? {
      PrefixStates(s, acts, i);
      i := RoundBegun(s, acts[..i], f);
    }
  }

  lemma LastRound(s: State, acts: seq<Action>, f: nat)
    requires Legal(s, acts) && acts != [] && RoundAt(Exec(s, acts), f).Some?
    ensures var i := |acts| - 1; var t := StateAt(s, acts, i);
            && Legal(s, acts[..i]) && t == Exec(s, acts[..i])
            && var made := Makes(t, acts[i], f);
            RoundAt(Exec(s, acts), f) == if made.Some? then made else RoundAt(t, f)
  {
    var i := |acts| - 1;
    SplitRun(s, acts, i);
    NextState(s, acts, i);
    assert acts[..i + 1] == acts;
    StepMovesRounds(StateAt(s, acts, i), acts[i]);
    FibersStay(StateAt(s, acts, i), acts[i], f);
  }

  lemma FibersStay(s: State, a: Action, f: nat)
    requires Enabled(s, a) && RoundAt(Next(s, a), f).Some?
    ensures f < |Next(s, a).fibers|
  {
  }

  /** In every run: a timer held for a call was made in the round the call is in now, by the fiber inside it, and is due
      when the timeout asked for has passed since; so no timer of an earlier round, or of a call that has returned, is
      ever held. */
  lemma HeldTimeoutIsCurrent(n: nat, acts: seq<Action>, c: nat, d: nat) returns (f: nat, i: nat)
    requires Legal(Initial(n), acts) && HeldFor(Exec(Initial(n), acts), c, d)
    ensures var s := Exec(Initial(n), acts);
            && Inside(s, f, c) && c < |s.calls| && s.calls[c].live && s.calls[c].to.Some?
            && i < |acts| && Arms(StateAt(Initial(n), acts, i), acts[i], c)
            && Cur(StateAt(Initial(n), acts, i), acts[i].w) == f && d == StateAt(Initial(n), acts, i).clock + s.calls[c].to.value
    ensures forall j :: i < j < |acts| ==> Makes(StateAt(Initial(n), acts, j), acts[j], f).None?
  {
    var s := Exec(Initial(n), acts);
    RunKeepsCurrent(Initial(n), acts);
    RunKeepsOwned(Initial(n), acts);
    f :| RoundHolds(s, f, c, d);
    assert Inside(s, f, c);
    i := RoundBegun(Initial(n), acts, f);
    SplitRun(Initial(n), acts, i);
    CallKept(StateAt(Initial(n), acts, i), acts[i..]);
  }
}
