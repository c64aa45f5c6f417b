/** Every call of `do_io` in the step system, with whatever other workers do between its steps, is a path of the
    protocol that the loop of `do_io` follows. */
module RuntimeDoIo {
  import opened Common
  import opened EventTable
  import opened Runtime
  import opened RuntimeFrame
  import opened RuntimeTimeouts
  import opened RuntimeCalls
  import H = HookedIo

  /** Replies stand for all of their kind: the system call would block, or ends the call. */
  const BLOCKS: H.Reply := H.Reply(-1, H.EAGAIN)
  const DONE: H.Reply := H.Reply(0, 0)

  /** What a step of the fiber inside the call adds to its trace. The flag is recorded where it is read, and with it the
      suspension and the cancelled timer that it ends. */
  function Adds(s: State, a: Action, c: nat): seq<H.Act> {
    if !a.Code? || !Runs(s, a.w) || !CodeEnabled(s, a.w, a.c) then []
    else if a.c.BeginIo? then if |s.calls| == c then [H.Invoke(BLOCKS)] else []
    else if InsideOf(CurPc(s, a.w)) != Some(c) || c >= |s.calls| then []
    else
      var timed := s.calls[c].to.Some?;
      match a.c
      case ArmTimer => if timed then [H.Arm] else []
      case AddEvent(ok) => [H.Register(ok, 0)]
      case GiveUp => if timed then [H.Disarm(Some(H.Reply(-1, 0)))] else []
      case Check => CheckActs(timed, s.calls[c].cancelled)
      case Retry(again) => [H.Invoke(if again then BLOCKS else DONE)]
      case _ => []
  }

  ghost function TraceOf(s: State, acts: seq<Action>, c: nat, before: seq<H.Act>): seq<H.Act>
    requires Legal(s, acts)
    decreases |acts|
  {
    if acts == [] then before else TraceOf(Next(s, acts[0]), acts[1..], c, before + Adds(s, acts[0], c))
  }

  /** Where a fiber inside a call is, after the last act of its trace. */
  predicate AtPlace(pc: Pc, timed: bool, last: H.Act) {
    match pc
    case Arming(_) => last == H.Invoke(BLOCKS)
    case Setting(_, _) => timed && last == H.Arm
    case Adding(_, timer) => timer.Some? == timed && last == if timed then H.Arm else H.Invoke(BLOCKS)
    case Waiting(_, timer) => timer.Some? == timed && last == H.Register(true, 0)
    case Disarming(_, timer) => timer.Some? == timed && last == H.Register(true, 0)
    case Checking(_) => last == H.Register(true, 0)
    case Retrying(_) => last == if timed then H.Disarm(None) else H.Suspend(false)
    case Abandoning(_, timer) => timer.Some? == timed && last == H.Register(false, 0)
    case _ => false
  }

  ghost predicate Fits(s: State, c: nat, trace: seq<H.Act>) {
    if c >= |s.calls| then trace == []
    else
      var timed := s.calls[c].to.Some?;
      && H.Path(timed, trace)
      && (forall f: nat :: Inside(s, f, c) ==> AtPlace(s.fibers[f].pc, timed, trace[|trace| - 1]))
      && (!s.calls[c].live ==> H.Answer(timed, trace[|trace| - 1]).Some?)
  }

  /** A call that a step leaves alone. */
  lemma QuietFits(s: State, t: State, a: Action, c: nat, trace: seq<H.Act>)
    requires Fits(s, c, trace) && c < |s.calls| && CallsMove(s, t, a) && !Returns(s, a, c)
    requires forall f: nat :: Inside(t, f, c) ==>
               Inside(s, f, c) && (AtPlace(s.fibers[f].pc, s.calls[c].to.Some?, trace[|trace| - 1]) ==>
                                     AtPlace(t.fibers[f].pc, s.calls[c].to.Some?, trace[|trace| - 1]))
    ensures Fits(t, c, trace)
  {
    assert OneCall(s, t, a, c);
  }

  lemma BeginFits(s: State, w: nat, key: Key, to: Option<nat>)
    requires Owned(s) && Runs(s, w) && CodeEnabled(s, w, BeginIo(key, to))
    ensures Fits(BeginIoStep(s, w, key, to), |s.calls|, [H.Invoke(BLOCKS)])
  {
    var t := BeginIoStep(s, w, key, to);
    CodeInside(s, w, BeginIo(key, to));
    forall f: nat | Inside(t, f, |s.calls|) ensures f == Cur(s, w) {
      assert !Inside(s, f, |s.calls|);
    }
  }

  /** The step of the fiber inside the call keeps the trace a path, and the fiber at its place. */
  ghost predicate ActorMoves(s: State, t: State, w: nat, k: CodeAction, c: nat, trace: seq<H.Act>)
    requires Runs(s, w) && c < |s.calls|
  {
    var timed := s.calls[c].to.Some?;
    var after := trace + Adds(s, Code(w, k), c);
    && H.Path(timed, after) && Cur(s, w) < |t.fibers|
    && (Inside(t, Cur(s, w), c) ==> AtPlace(t.fibers[Cur(s, w)].pc, timed, after[|after| - 1]))
    && (Returns(s, Code(w, k), c) ==> H.Answer(timed, after[|after| - 1]).Some?)
  }

  lemma ArmFits(s: State, w: nat, c: nat, trace: seq<H.Act>)
    requires Fits(s, c, trace) && Runs(s, w) && CodeEnabled(s, w, ArmTimer) && CurPc(s, w) == Arming(c)
    ensures ActorMoves(s, ArmStep(s, w), w, ArmTimer, c, trace)
  {
    assert Inside(s, Cur(s, w), c);
    if s.calls[c].to.Some? {
      H.PathGrows(true, trace, H.Arm);
    } else {
      assert trace + [] == trace;
    }
  }

  /** What the step adds, and where it leaves the fiber. */
  ghost predicate Does(s: State, t: State, w: nat, k: CodeAction, c: nat, adds: seq<H.Act>, pc: Pc)
    requires Runs(s, w)
  {
    Adds(s, Code(w, k), c) == adds && Cur(s, w) < |t.fibers| && t.fibers[Cur(s, w)].pc == pc
  }

  lemma AddDoes(s: State, w: nat, ok: bool, c: nat)
    requires Runs(s, w) && CodeEnabled(s, w, AddEvent(ok)) && CurPc(s, w).c == c
    ensures Does(s, AddEventStep(s, w, ok), w, AddEvent(ok), c, [H.Register(ok, 0)],
                 if ok then Waiting(c, CurPc(s, w).timer) else Abandoning(c, CurPc(s, w).timer))
  {
  }

  lemma AddFits(s: State, w: nat, ok: bool, c: nat, trace: seq<H.Act>)
    requires Fits(s, c, trace) && Runs(s, w) && CodeEnabled(s, w, AddEvent(ok)) && CurPc(s, w).c == c
    ensures ActorMoves(s, AddEventStep(s, w, ok), w, AddEvent(ok), c, trace)
  {
    assert Inside(s, Cur(s, w), c);
    H.PathGrows(s.calls[c].to.Some?, trace, H.Register(ok, 0));
    AddDoes(s, w, ok, c);
  }

  lemma GiveUpDoes(s: State, w: nat, c: nat)
    requires Runs(s, w) && CodeEnabled(s, w, GiveUp) && CurPc(s, w).c == c
    ensures Does(s, GiveUpStep(s, w), w, GiveUp, c,
                 if s.calls[c].to.Some? then [H.Disarm(Some(H.Reply(-1, 0)))] else [], User)
  {
  }

  lemma GiveUpFits(s: State, w: nat, c: nat, trace: seq<H.Act>)
    requires Fits(s, c, trace) && Runs(s, w) && CodeEnabled(s, w, GiveUp) && CurPc(s, w).c == c
    ensures ActorMoves(s, GiveUpStep(s, w), w, GiveUp, c, trace)
  {
    assert Inside(s, Cur(s, w), c);
    if s.calls[c].to.Some? {
      H.PathGrows(true, trace, H.Disarm(Some(H.Reply(-1, 0))));
    } else {
      assert trace + [] == trace;
    }
    GiveUpDoes(s, w, c);
  }

  function CheckActs(timed: bool, flagged: bool): seq<H.Act> {
    [H.Suspend(flagged)] + if timed then [H.Disarm(if flagged then Some(H.Reply(-1, H.ETIMEDOUT)) else None)] else []
  }

  lemma CheckPath(timed: bool, flagged: bool, trace: seq<H.Act>)
    requires H.Path(timed, trace) && trace[|trace| - 1] == H.Register(true, 0) && (flagged ==> timed)
    ensures var after := trace + CheckActs(timed, flagged); var last := after[|after| - 1];
            && H.Path(timed, after)
            && last == if timed then H.Disarm(if flagged then Some(H.Reply(-1, H.ETIMEDOUT)) else None)
                       else H.Suspend(flagged)
  {
    H.PathGrows(timed, trace, H.Suspend(flagged));
    if timed {
      var last := H.Disarm(if flagged then Some(H.Reply(-1, H.ETIMEDOUT)) else None);
      H.PathGrows(timed, trace + [H.Suspend(flagged)], last);
      assert trace + [H.Suspend(flagged)] + [last] == trace + CheckActs(timed, flagged);
    } else {
      assert trace + [H.Suspend(flagged)] == trace + CheckActs(timed, flagged);
    }
  }

  lemma CheckDoes(s: State, w: nat, c: nat)
    requires Runs(s, w) && CodeEnabled(s, w, Check) && CurPc(s, w) == Checking(c)
    ensures Does(s, CheckStep(s, w), w, Check, c, CheckActs(s.calls[c].to.Some?, s.calls[c].cancelled),
                 if s.calls[c].cancelled then User else Retrying(c))
  {
  }

  lemma CheckFits(s: State, w: nat, c: nat, trace: seq<H.Act>)
    requires TimeoutInv(s) && Fits(s, c, trace) && Runs(s, w) && CodeEnabled(s, w, Check) && CurPc(s, w) == Checking(c)
    ensures ActorMoves(s, CheckStep(s, w), w, Check, c, trace)
  {
    assert Inside(s, Cur(s, w), c) && CallOk(s, c);
    CheckPath(s.calls[c].to.Some?, s.calls[c].cancelled, trace);
    CheckDoes(s, w, c);
  }

  lemma RetryDoes(s: State, w: nat, again: bool, c: nat)
    requires Runs(s, w) && CodeEnabled(s, w, Retry(again)) && CurPc(s, w) == Retrying(c)
    ensures Does(s, RetryStep(s, w, again), w, Retry(again), c, [H.Invoke(if again then BLOCKS else DONE)],
                 if again then Arming(c) else User)
  {
  }

  lemma RetryFits(s: State, w: nat, again: bool, c: nat, trace: seq<H.Act>)
    requires Fits(s, c, trace) && Runs(s, w) && CodeEnabled(s, w, Retry(again)) && CurPc(s, w) == Retrying(c)
    ensures ActorMoves(s, RetryStep(s, w, again), w, Retry(again), c, trace)
  {
    assert Inside(s, Cur(s, w), c);
    H.PathGrows(s.calls[c].to.Some?, trace, H.Invoke(if again then BLOCKS else DONE));
    RetryDoes(s, w, again, c);
  }

  /** Putting the timer in, and taking it out, are part of the acts around them. */
  lemma TimerFits(s: State, w: nat, k: CodeAction, c: nat, trace: seq<H.Act>)
    requires Fits(s, c, trace) && Runs(s, w) && CodeEnabled(s, w, k) && InsideOf(CurPc(s, w)) == Some(c) && c < |s.calls|
    requires k.SetTimer? || k.Disarm? || k.AbortAdd?
    ensures ActorMoves(s, CodeNext(s, w, k), w, k, c, trace)
  {
    assert Inside(s, Cur(s, w), c);
    assert trace + [] == trace;
  }

  lemma ActorFits(s: State, w: nat, k: CodeAction, c: nat, trace: seq<H.Act>)
    requires TimeoutInv(s) && Fits(s, c, trace) && Runs(s, w) && CodeEnabled(s, w, k)
    requires InsideOf(CurPc(s, w)) == Some(c) && c < |s.calls|
    ensures ActorMoves(s, CodeNext(s, w, k), w, k, c, trace)
  {
    match k
    case ArmTimer => ArmFits(s, w, c, trace);
    case AddEvent(ok) => AddFits(s, w, ok, c, trace);
    case GiveUp => GiveUpFits(s, w, c, trace);
    case Check => CheckFits(s, w, c, trace);
    case Retry(again) => RetryFits(s, w, again, c, trace);
    case SetTimer => TimerFits(s, w, k, c, trace);
    case Disarm => TimerFits(s, w, k, c, trace);
    case AbortAdd => TimerFits(s, w, k, c, trace);
  }

  lemma InsiderFits(s: State, w: nat, k: CodeAction, c: nat, trace: seq<H.Act>)
    requires Owned(s) && TimeoutInv(s) && Fits(s, c, trace) && Runs(s, w) && CodeEnabled(s, w, k)
    requires InsideOf(CurPc(s, w)) == Some(c)
    ensures Fits(CodeNext(s, w, k), c, trace + Adds(s, Code(w, k), c))
  {
    var t := CodeNext(s, w, k);
    assert Inside(s, Cur(s, w), c);
    ActorFits(s, w, k, c, trace);
    CodeInside(s, w, k);
    CodeCalls(s, w, k);
    assert OneCall(s, t, Code(w, k), c);
    forall f: nat | Inside(t, f, c) ensures f == Cur(s, w) {
      assert Inside(s, f, c);
    }
  }

  lemma InsidersStay(s: State, t: State, w: nat, k: CodeAction, c: nat)
    requires Runs(s, w) && CodeEnabled(s, w, k) && FibersMove(s, t, w, k) && InsideMove(s, t, Code(w, k))
    requires InsideOf(CurPc(s, w)) != Some(c) && c < |s.calls|
    ensures forall f: nat :: Inside(t, f, c) ==> Inside(s, f, c) && t.fibers[f].pc == s.fibers[f].pc
  {
    forall f: nat | Inside(t, f, c) ensures Inside(s, f, c) && t.fibers[f].pc == s.fibers[f].pc {
      assert f < |s.fibers|;
      assert f != Cur(s, w) ==> Bystander(s.fibers[f], t.fibers[f], Erases(k));
    }
  }

  lemma OutsiderFits(s: State, w: nat, k: CodeAction, c: nat, trace: seq<H.Act>)
    requires Owned(s) && Fits(s, c, trace) && Runs(s, w) && CodeEnabled(s, w, k) && c < |s.calls|
    requires InsideOf(CurPc(s, w)) != Some(c)
    ensures Fits(CodeNext(s, w, k), c, trace)
  {
    var t := CodeNext(s, w, k);
    CodeInside(s, w, k);
    CodeCalls(s, w, k);
    CodeMoves(s, w, k);
    InsidersStay(s, t, w, k, c);
    QuietFits(s, t, Code(w, k), c, trace);
  }

  lemma CodeFits(s: State, w: nat, k: CodeAction, c: nat, trace: seq<H.Act>)
    requires Owned(s) && TimeoutInv(s) && Fits(s, c, trace) && Runs(s, w) && CodeEnabled(s, w, k)
    ensures Fits(CodeNext(s, w, k), c, trace + Adds(s, Code(w, k), c))
  {
    assert trace + [] == trace && [] + [H.Invoke(BLOCKS)] == [H.Invoke(BLOCKS)];
    if InsideOf(CurPc(s, w)) == Some(c) {
      InsiderFits(s, w, k, c, trace);
    } else if c < |s.calls| {
      OutsiderFits(s, w, k, c, trace);
    } else if k.BeginIo? && c == |s.calls| {
      BeginFits(s, w, k.key, k.to);
    } else {
      CodeCalls(s, w, k);
    }
  }

  lemma RunFits(s: State, w: nat, r: RunAction, c: nat, trace: seq<H.Act>)
    requires Fits(s, c, trace) && w < |s.workers| && RunEnabled(s, w, r)
    ensures Fits(RunNext(s, w, r), c, trace)
  {
    RunCalls(s, w, r);
    if c < |s.calls| {
      RunInside(s, w, r);
      RunPlaces(s, w, r);
      QuietFits(s, RunNext(s, w, r), Run(w, r), c, trace);
    }
  }

  ghost predicate PlacesStay(s: State, t: State) {
    && |t.fibers| == |s.fibers|
    && forall f, timed, last :: 0 <= f < |s.fibers| && AtPlace(s.fibers[f].pc, timed, last) ==>
         AtPlace(t.fibers[f].pc, timed, last)
  }

  lemma ResumePlaces(s: State, w: nat)
    requires w < |s.workers| && RunEnabled(s, w, Resume)
    ensures PlacesStay(s, ResumeStep(s, w))
  {
  }

  lemma OtherPlaces(s: State, w: nat, r: RunAction)
    requires w < |s.workers| && RunEnabled(s, w, r) && r != Resume
    ensures var t := RunNext(s, w, r);
            |t.fibers| == |s.fibers| && forall f :: 0 <= f < |s.fibers| ==> t.fibers[f].pc == s.fibers[f].pc
  {
  }

  lemma RunPlaces(s: State, w: nat, r: RunAction)
    requires w < |s.workers| && RunEnabled(s, w, r)
    ensures PlacesStay(s, RunNext(s, w, r))
  {
    if r == Resume {
      ResumePlaces(s, w);
    } else {
      OtherPlaces(s, w, r);
    }
  }

  lemma IdleFits(s: State, w: nat, i: IdleAction, c: nat, trace: seq<H.Act>)
    requires Fits(s, c, trace) && w < |s.workers| && IdleEnabled(s, w, i)
    ensures Fits(IdleNext(s, w, i), c, trace)
  {
    IdleCalls(s, w, i);
    if c < |s.calls| {
      var t := IdleNext(s, w, i);
      IdleInside(s, w, i);
      IdleMoves(s, w, i);
      forall f: nat | Inside(t, f, c) ensures Inside(s, f, c) && t.fibers[f].pc == s.fibers[f].pc {
        assert f < |s.fibers| ==> Bystander(s.fibers[f], t.fibers[f], false);
      }
      QuietFits(s, t, Idle(w, i), c, trace);
    }
  }

  lemma EnvFits(s: State, e: EnvAction, c: nat, trace: seq<H.Act>)
    requires Fits(s, c, trace) && EnvEnabled(s, e)
    ensures Fits(EnvNext(s, e), c, trace)
  {
    EnvCalls(s, e);
    EnvInside(s, e);
    if c < |s.calls| {
      QuietFits(s, EnvNext(s, e), Env(e), c, trace);
    }
  }

  lemma StepFits(s: State, a: Action, c: nat, trace: seq<H.Act>)
    requires Owned(s) && TimeoutInv(s) && Fits(s, c, trace) && Enabled(s, a)
    ensures Fits(Next(s, a), c, trace + Adds(s, a, c))
  {
    assert trace + [] == trace;
    match a
    case Env(e) => EnvFits(s, e, c, trace);
    case Run(w, r) => RunFits(s, w, r, c, trace);
    case Idle(w, i) => IdleFits(s, w, i, c, trace);
    case Code(w, k) => CodeFits(s, w, k, c, trace);
  }

  lemma {:induction false} RunsFit(s: State, acts: seq<Action>, c: nat, before: seq<H.Act>)
    requires Owned(s) && TimeoutInv(s) && Fits(s, c, before) && Legal(s, acts)
    ensures Fits(Exec(s, acts), c, TraceOf(s, acts, c, before))
    decreases |acts|
  {
    if acts != [] {
      StepFits(s, acts[0], c, before);
      StepKeepsOwned(s, acts[0]);
      StepKeepsTimeouts(s, acts[0]);
      RunsFit(Next(s, acts[0]), acts[1..], c, before + Adds(s, acts[0], c));
    }
  }

  /** Over every run of any number of workers: what the fiber inside a call does, in order, is a path of the protocol
      of `do_io`; the fiber is where the path says, and when the call has returned the path has an answer. */
  lemma EveryCallIsAPath(n: nat, acts: seq<Action>, c: nat)
    requires Legal(Initial(n), acts) && c < |Exec(Initial(n), acts).calls|
    ensures var s := Exec(Initial(n), acts); var trace := TraceOf(Initial(n), acts, c, []);
            var timed := s.calls[c].to.Some?;
            && H.Path(timed, trace)
            && (forall f: nat :: Inside(s, f, c) ==> AtPlace(s.fibers[f].pc, timed, trace[|trace| - 1]))
            && (!s.calls[c].live ==> H.Answer(timed, trace[|trace| - 1]).Some?)
  {
    InitialTimeouts(n);
    RunsFit(Initial(n), acts, c, []);
  }
}
