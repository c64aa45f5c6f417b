/** A single worker, in every run, refused additions or not: what it does not execute stands where it left it. */
module RuntimeSole {
  import opened Common
  import opened Runtime
  import opened RuntimeFrame
  import opened RuntimeTokens

  /** Where a fiber stands that no worker executes. */
  predicate Parked(pc: Pc) {
    pc.Start? || MayLeave(pc)
  }

  ghost predicate StandsParked(s: State, f: nat)
    requires |s.workers| == 1 && f < |s.fibers|
  {
    var pc := s.workers[0].pc;
    && (Executes(pc) != Some(f) ==> s.fibers[f].st != EXEC && Parked(s.fibers[f].pc))
    && (pc == Back(f) || pc == Settling(f) ==> Parked(s.fibers[f].pc))
    && (Dead(s.fibers[f].st) ==> s.fibers[f].pc.Finished?)
  }

  ghost predicate SoleShape(s: State) {
    |s.workers| == 1 && forall f :: 0 <= f < |s.fibers| ==> StandsParked(s, f)
  }

  lemma RunKeepsParked(s: State, r: RunAction)
    requires SoleShape(s) && RunEnabled(s, 0, r)
    ensures SoleShape(RunNext(s, 0, r))
  {
    var t := RunNext(s, 0, r);
    forall f | 0 <= f < |t.fibers| ensures StandsParked(t, f) {
      assert StandsParked(s, f);
    }
  }

  lemma IdleKeepsParked(s: State, i: IdleAction)
    requires SoleShape(s) && IdleEnabled(s, 0, i)
    ensures SoleShape(IdleNext(s, 0, i))
  {
    var t := IdleNext(s, 0, i);
    IdleMoves(s, 0, i);
    IdleExecutesNone(s, i);
    forall f | 0 <= f < |t.fibers| ensures StandsParked(t, f) {
      if f < |s.fibers| {
        assert StandsParked(s, f) && Bystander(s.fibers[f], t.fibers[f], false);
      }
    }
  }

  lemma IdleExecutesNone(s: State, i: IdleAction)
    requires |s.workers| == 1 && IdleEnabled(s, 0, i)
    ensures |IdleNext(s, 0, i).workers| == 1
    ensures Executes(s.workers[0].pc).None? && Executes(IdleNext(s, 0, i).workers[0].pc).None?
  {
    if i.HandleReady? {
      ReadyMoves(s, 0, i.ok);
    } else {
      OtherIdleExecutesNone(s, i);
    }
  }

  lemma OtherIdleExecutesNone(s: State, i: IdleAction)
    requires |s.workers| == 1 && IdleEnabled(s, 0, i) && !i.HandleReady?
    ensures |IdleNext(s, 0, i).workers| == 1
    ensures Executes(s.workers[0].pc).None? && Executes(IdleNext(s, 0, i).workers[0].pc).None?
  {
    if i.ScheduleExpired? {
      assert IdleNext(s, 0, i).workers[0].pc.Scheduling?;
    }
  }

  lemma CodeKeepsParked(s: State, c: CodeAction)
    requires SoleShape(s) && Runs(s, 0) && CodeEnabled(s, 0, c)
    ensures SoleShape(CodeNext(s, 0, c))
  {
    var t := CodeNext(s, 0, c);
    CodeMoves(s, 0, c);
    forall f | 0 <= f < |t.fibers| ensures StandsParked(t, f) {
      if f < |s.fibers| {
        assert StandsParked(s, f);
        assert f == Cur(s, 0) || Bystander(s.fibers[f], t.fibers[f], Erases(c));
      }
    }
  }

  lemma StepKeepsParked(s: State, a: Action)
    requires SoleShape(s) && Enabled(s, a)
    ensures SoleShape(Next(s, a))
  {
    match a
    case Env(e) => EnvKeepsParked(s, e);
    case Run(w, r) => RunKeepsParked(s, r);
    case Idle(w, i) => IdleKeepsParked(s, i);
    case Code(w, c) => CodeKeepsParked(s, c);
  }

  lemma EnvKeepsParked(s: State, e: EnvAction)
    requires SoleShape(s) && EnvEnabled(s, e)
    ensures SoleShape(EnvNext(s, e))
  {
    var t := EnvNext(s, e);
    forall f | 0 <= f < |t.fibers| ensures StandsParked(t, f) {
      if f < |s.fibers| {
        assert StandsParked(s, f);
      }
    }
  }

  lemma {:induction false} RunToParked(s: State, acts: seq<Action>)
    requires SoleShape(s) && Legal(s, acts)
    ensures SoleShape(Exec(s, acts))
    decreases |acts|
  {
    if acts != [] {
      StepKeepsParked(s, acts[0]);
      RunToParked(Next(s, acts[0]), acts[1..]);
    }
  }

  /** In every run of one worker, a fiber it does not execute is suspended, not started, or has ended. */
  lemma OthersAreParked(acts: seq<Action>, f: nat)
    requires Legal(Initial(1), acts) && f < |Exec(Initial(1), acts).fibers|
    ensures |Exec(Initial(1), acts).workers| == 1 && StandsParked(Exec(Initial(1), acts), f)
  {
    RunToParked(Initial(1), acts);
  }
}
