/** Timeouts are neither early nor charged to the wrong call. */
module RuntimeTimeouts {
  import opened Common
  import opened Deadlines
  import opened Runtime
  import opened RuntimeFrame

  /** The step makes a timer for the call. */
  predicate Arms(s: State, a: Action, c: nat) {
    && a.Code? && a.c == ArmTimer && Runs(s, a.w) && CurPc(s, a.w) == Arming(c)
    && c < |s.calls| && s.calls[c].to.Some?
  }

  /** A timer this very call armed has run its full time. */
  ghost predicate Elapsed(s: State, c: nat) {
    && c < |s.calls| && s.calls[c].to.Some?
    && exists a :: a in s.calls[c].armed && a + s.calls[c].to.value <= s.clock
  }

  /** The call armed a timer for this deadline. */
  ghost predicate ArmedFor(s: State, c: nat, d: nat) {
    && c < |s.calls| && s.calls[c].to.Some?
    && exists a :: a in s.calls[c].armed && a + s.calls[c].to.value == d
  }

  ghost predicate CallOk(s: State, c: nat)
    requires c < |s.calls|
  {
    s.calls[c].cancelled ==> Elapsed(s, c)
  }

  ghost predicate TimerOk(s: State, d: nat)
    requires d in s.timers
  {
    s.timers[d].TimeoutOf? ==> ArmedFor(s, s.timers[d].call, d)
  }

  ghost predicate CallbackOk(s: State, f: nat)
    requires f < |s.fibers|
  {
    var pc := s.fibers[f].pc;
    && (CallbackOf(pc).Some? ==> Elapsed(s, CallbackOf(pc).value))
    && (SetsFor(pc).Some? ==> ArmedFor(s, SetsFor(pc).value, pc.d))
  }

  /** The call for which a fiber holds a timer that is made but not yet in the set. */
  function SetsFor(pc: Pc): Option<nat> {
    match pc
    case Setting(ForCall(c), _) => Some(c)
    case _ => None
  }

  ghost predicate HandOk(s: State, w: nat)
    requires w < |s.workers|
  {
    var pc := s.workers[w].pc;
    pc.Scheduling? ==> forall d :: d in pc.hand && pc.hand[d].TimeoutOf? ==> Elapsed(s, pc.hand[d].call)
  }

  ghost predicate TimeoutInv(s: State) {
    && (forall c :: 0 <= c < |s.calls| ==> CallOk(s, c))
    && (forall d :: d in s.timers ==> TimerOk(s, d))
    && (forall f :: 0 <= f < |s.fibers| ==> CallbackOk(s, f))
    && (forall w :: 0 <= w < |s.workers| ==> HandOk(s, w))
  }

  lemma ElapsedStays(s: State, t: State, c: nat)
    requires Extends(s, t) && Elapsed(s, c)
    ensures Elapsed(t, c)
  {
    var a :| a in s.calls[c].armed && a + s.calls[c].to.value <= s.clock;
    assert a in t.calls[c].armed;
  }

  lemma ArmedForStays(s: State, t: State, c: nat, d: nat)
    requires Extends(s, t) && ArmedFor(s, c, d)
    ensures ArmedFor(t, c, d)
  {
    var a :| a in s.calls[c].armed && a + s.calls[c].to.value == d;
    assert a in t.calls[c].armed;
  }

  lemma DueElapsed(s: State, c: nat, d: nat)
    requires ArmedFor(s, c, d) && d <= s.clock
    ensures Elapsed(s, c)
  {
  }

  ghost predicate TimersQuiet(s: State, t: State) {
    forall d :: d in t.timers && t.timers[d].TimeoutOf? ==> d in s.timers && s.timers[d] == t.timers[d]
  }

  ghost predicate CallbacksQuiet(s: State, t: State) {
    && |s.fibers| <= |t.fibers|
    && forall f :: 0 <= f < |t.fibers| && CallbackOf(t.fibers[f].pc).Some? ==>
         f < |s.fibers| && CallbackOf(t.fibers[f].pc) == CallbackOf(s.fibers[f].pc)
  }

  ghost predicate SettingsQuiet(s: State, t: State) {
    && |s.fibers| <= |t.fibers|
    && forall f :: 0 <= f < |t.fibers| && SetsFor(t.fibers[f].pc).Some? ==>
         f < |s.fibers| && t.fibers[f].pc == s.fibers[f].pc
  }

  ghost predicate HandsQuiet(s: State, t: State) {
    && |s.workers| == |t.workers|
    && forall w :: 0 <= w < |t.workers| && t.workers[w].pc.Scheduling? ==> t.workers[w].pc == s.workers[w].pc
  }

  /** A step that raises no flag, adds no timeout timer and starts no timeout callback. */
  ghost predicate QuietMove(s: State, t: State) {
    Extends(s, t) && FlagsQuiet(s, t) && TimersQuiet(s, t) && CallbacksQuiet(s, t) && SettingsQuiet(s, t)
    && HandsQuiet(s, t)
  }

  lemma QuietKeeps(s: State, t: State)
    requires TimeoutInv(s) && QuietMove(s, t)
    ensures TimeoutInv(t)
  {
    forall c | 0 <= c < |t.calls| ensures CallOk(t, c) {
      if t.calls[c].cancelled {
        assert CallOk(s, c);
        ElapsedStays(s, t, c);
      }
    }
    forall d | d in t.timers ensures TimerOk(t, d) {
      if t.timers[d].TimeoutOf? {
        assert TimerOk(s, d);
        ArmedForStays(s, t, t.timers[d].call, d);
      }
    }
    forall f | 0 <= f < |t.fibers| ensures CallbackOk(t, f) {
      if CallbackOf(t.fibers[f].pc).Some? {
        assert CallbackOk(s, f);
        ElapsedStays(s, t, CallbackOf(t.fibers[f].pc).value);
      }
      if SetsFor(t.fibers[f].pc).Some? {
        assert CallbackOk(s, f);
        ArmedForStays(s, t, SetsFor(t.fibers[f].pc).value, t.fibers[f].pc.d);
      }
    }
    forall w | 0 <= w < |t.workers| ensures HandOk(t, w) {
      assert HandOk(s, w);
      if t.workers[w].pc.Scheduling? {
        var hand := t.workers[w].pc.hand;
        forall d | d in hand && hand[d].TimeoutOf? ensures Elapsed(t, hand[d].call) {
          ElapsedStays(s, t, hand[d].call);
        }
      }
    }
  }

  lemma ResumeIsQuiet(s: State, w: nat)
    requires w < |s.workers| && RunEnabled(s, w, Resume)
    ensures QuietMove(s, ResumeStep(s, w))
  {
  }

  lemma RunStepIsQuiet(s: State, w: nat, r: RunAction)
    requires w < |s.workers| && RunEnabled(s, w, r)
    ensures QuietMove(s, RunNext(s, w, r))
  {
    if r == Resume {
      ResumeIsQuiet(s, w);
    }
  }

  lemma IdleStepIsQuiet(s: State, w: nat, i: IdleAction)
    requires w < |s.workers| && IdleEnabled(s, w, i) && !i.ListExpired? && !i.ScheduleExpired?
    ensures QuietMove(s, IdleNext(s, w, i))
  {
    if i.HandleReady? {
      ReadyIsQuiet(s, w, i.ok);
    } else {
      IdlingMoves(s, w, i);
    }
  }

  lemma ReadyIsQuiet(s: State, w: nat, ok: bool)
    requires w < |s.workers| && IdleEnabled(s, w, HandleReady(ok))
    ensures QuietMove(s, ReadyStep(s, w, ok))
  {
    var t := ReadyStep(s, w, ok);
    ReadyMoves(s, w, ok);
    forall f | 0 <= f < |t.fibers| ensures f < |s.fibers| && t.fibers[f].pc == s.fibers[f].pc {
      assert Bystander(s.fibers[f], t.fibers[f], false);
    }
  }

  lemma ListKeeps(s: State, w: nat)
    requires TimeoutInv(s) && At(s, w, Listing)
    ensures TimeoutInv(ListStep(s, w))
  {
    var t := ListStep(s, w);
    var due := Due(s.timers, s.clock);
    var m := t.(workers := s.workers);
    QuietKeeps(s, m);
    forall d | d in due && due[d].TimeoutOf? ensures Elapsed(s, due[d].call) {
      assert TimerOk(s, d);
      DueElapsed(s, due[d].call, d);
    }
    assert HandOk(t, w);
    forall v | 0 <= v < |t.workers| ensures HandOk(t, v) {
      assert HandOk(m, v);
    }
    forall c | 0 <= c < |t.calls| ensures CallOk(t, c) {
      assert CallOk(m, c);
    }
    forall d | d in t.timers ensures TimerOk(t, d) {
      assert TimerOk(m, d);
    }
    forall f | 0 <= f < |t.fibers| ensures CallbackOk(t, f) {
      assert CallbackOk(m, f);
    }
  }

  lemma ScheduleExpiredKeeps(s: State, w: nat, d: nat)
    requires TimeoutInv(s) && w < |s.workers| && IdleEnabled(s, w, ScheduleExpired(d))
    ensures TimeoutInv(ScheduleExpiredStep(s, w, d))
  {
    var t := ScheduleExpiredStep(s, w, d);
    assert HandOk(s, w);
    forall f | 0 <= f < |t.fibers| ensures CallbackOk(t, f) {
      if f < |s.fibers| {
        assert CallbackOk(s, f);
        assert t.fibers[f].pc == s.fibers[f].pc;
      }
    }
    forall v | 0 <= v < |t.workers| ensures HandOk(t, v) {
      assert HandOk(s, v);
    }
    forall c | 0 <= c < |t.calls| ensures CallOk(t, c) {
      assert CallOk(s, c);
    }
    forall e | e in t.timers ensures TimerOk(t, e) {
      assert TimerOk(s, e);
    }
  }

  /** All but the fiber that runs is quiet, and that one is looked at apart. */
  lemma QuietButRunner(s: State, t: State, w: nat)
    requires TimeoutInv(s) && Runs(s, w) && Extends(s, t) && FlagsQuiet(s, t) && TimersQuiet(s, t) && HandsQuiet(s, t)
    requires |t.fibers| == |s.fibers| && forall f :: 0 <= f < |s.fibers| && f != Cur(s, w) ==> t.fibers[f] == s.fibers[f]
    requires CallbackOk(t, Cur(s, w))
    ensures TimeoutInv(t)
  {
    var m := t.(fibers := t.fibers[Cur(s, w) := s.fibers[Cur(s, w)]]);
    assert m.fibers == s.fibers;
    QuietKeeps(s, m);
    forall f | 0 <= f < |t.fibers| ensures CallbackOk(t, f) {
      assert CallbackOk(m, f);
    }
    forall c | 0 <= c < |t.calls| ensures CallOk(t, c) {
      assert CallOk(m, c);
    }
    forall d | d in t.timers ensures TimerOk(t, d) {
      assert TimerOk(m, d);
    }
    forall v | 0 <= v < |t.workers| ensures HandOk(t, v) {
      assert HandOk(m, v);
    }
  }

  lemma ArmStepKeeps(s: State, w: nat)
    requires TimeoutInv(s) && Runs(s, w) && CodeEnabled(s, w, ArmTimer)
    ensures TimeoutInv(ArmStep(s, w))
  {
    var t := ArmStep(s, w);
    CodeMoves(s, w, ArmTimer);
    if SetsFor(t.fibers[Cur(s, w)].pc).Some? {
      assert s.clock in t.calls[CurPc(s, w).c].armed;
    }
    QuietButRunner(s, t, w);
  }

  lemma SetTimerKeeps(s: State, w: nat)
    requires TimeoutInv(s) && Runs(s, w) && CodeEnabled(s, w, SetTimer)
    ensures TimeoutInv(SetTimerStep(s, w))
  {
    var t := SetTimerStep(s, w);
    CodeMoves(s, w, SetTimer);
    var m := t.(timers := s.timers);
    assert CallbackOk(s, Cur(s, w));
    assert CallbackOf(t.fibers[Cur(s, w)].pc).None? && SetsFor(t.fibers[Cur(s, w)].pc).None?;
    QuietButRunner(s, m, w);
    forall f | 0 <= f < |t.fibers| ensures CallbackOk(t, f) {
      assert CallbackOk(m, f);
    }
    forall c | 0 <= c < |t.calls| ensures CallOk(t, c) {
      assert CallOk(m, c);
    }
    forall v | 0 <= v < |t.workers| ensures HandOk(t, v) {
      assert HandOk(m, v);
    }
    forall d | d in t.timers ensures TimerOk(t, d) {
      if d in s.timers && t.timers[d] == s.timers[d] {
        assert TimerOk(m, d);
      }
    }
  }

  /** The flag of a call goes up in its own callback, whose timer has elapsed. */
  lemma FireStepKeeps(s: State, w: nat)
    requires TimeoutInv(s) && Runs(s, w) && CodeEnabled(s, w, Fire)
    ensures TimeoutInv(FireStep(s, w))
  {
    var t := FireStep(s, w);
    var c := CurPc(s, w).c;
    assert CallbackOk(s, Cur(s, w));
    CodeMoves(s, w, Fire);
    var m := t.(calls := s.calls);
    QuietKeeps(s, m);
    CallsDiffer(m, t, c);
  }

  lemma CallsDiffer(m: State, t: State, c: nat)
    requires TimeoutInv(m) && t == m.(calls := t.calls) && Extends(m, t) && |t.calls| == |m.calls| && Elapsed(m, c)
    requires forall e :: 0 <= e < |t.calls| && e != c ==> t.calls[e] == m.calls[e]
    ensures TimeoutInv(t)
  {
    forall e | 0 <= e < |t.calls| ensures CallOk(t, e) {
      assert CallOk(m, e);
      if m.calls[e].cancelled || e == c {
        ElapsedStays(m, t, e);
      }
    }
    forall d | d in t.timers ensures TimerOk(t, d) {
      assert TimerOk(m, d);
      if t.timers[d].TimeoutOf? {
        ArmedForStays(m, t, t.timers[d].call, d);
      }
    }
    forall f | 0 <= f < |t.fibers| ensures CallbackOk(t, f) {
      assert CallbackOk(m, f);
      if CallbackOf(t.fibers[f].pc).Some? {
        ElapsedStays(m, t, CallbackOf(t.fibers[f].pc).value);
      }
      if SetsFor(t.fibers[f].pc).Some? {
        ArmedForStays(m, t, SetsFor(t.fibers[f].pc).value, t.fibers[f].pc.d);
      }
    }
    forall v | 0 <= v < |t.workers| ensures HandOk(t, v) {
      assert HandOk(m, v);
      if t.workers[v].pc.Scheduling? {
        var hand := t.workers[v].pc.hand;
        forall d | d in hand && hand[d].TimeoutOf? ensures Elapsed(t, hand[d].call) {
          ElapsedStays(m, t, hand[d].call);
        }
      }
    }
  }

  lemma OtherCodeIsQuiet(s: State, w: nat, c: CodeAction)
    requires Runs(s, w) && CodeEnabled(s, w, c) && c != ArmTimer && c != SetTimer && c != Fire
    ensures QuietMove(s, CodeNext(s, w, c))
  {
    CodeMoves(s, w, c);
  }

  lemma CodeStepKeeps(s: State, w: nat, c: CodeAction)
    requires TimeoutInv(s) && Runs(s, w) && CodeEnabled(s, w, c)
    ensures TimeoutInv(CodeNext(s, w, c))
  {
    if c == ArmTimer {
      ArmStepKeeps(s, w);
    } else if c == SetTimer {
      SetTimerKeeps(s, w);
    } else if c == Fire {
      FireStepKeeps(s, w);
    } else {
      OtherCodeIsQuiet(s, w, c);
      QuietKeeps(s, CodeNext(s, w, c));
    }
  }

  lemma EnvStepKeeps(s: State, e: EnvAction)
    requires TimeoutInv(s) && EnvEnabled(s, e)
    ensures TimeoutInv(EnvNext(s, e))
  {
    QuietKeeps(s, EnvNext(s, e));
  }

  lemma RunStepKeeps(s: State, w: nat, r: RunAction)
    requires TimeoutInv(s) && w < |s.workers| && RunEnabled(s, w, r)
    ensures TimeoutInv(RunNext(s, w, r))
  {
    RunStepIsQuiet(s, w, r);
    QuietKeeps(s, RunNext(s, w, r));
  }

  lemma IdleStepKeeps(s: State, w: nat, i: IdleAction)
    requires TimeoutInv(s) && w < |s.workers| && IdleEnabled(s, w, i)
    ensures TimeoutInv(IdleNext(s, w, i))
  {
    if i.ListExpired? {
      ListKeeps(s, w);
    } else if i.ScheduleExpired? {
      ScheduleExpiredKeeps(s, w, i.d);
    } else {
      IdleStepIsQuiet(s, w, i);
      QuietKeeps(s, IdleNext(s, w, i));
    }
  }

  lemma StepKeepsTimeouts(s: State, a: Action)
    requires TimeoutInv(s) && Enabled(s, a)
    ensures TimeoutInv(Next(s, a))
  {
    match a
    case Env(e) => EnvStepKeeps(s, e);
    case Run(w, r) => RunStepKeeps(s, w, r);
    case Idle(w, i) => IdleStepKeeps(s, w, i);
    case Code(w, c) => CodeStepKeeps(s, w, c);
  }

  lemma {:induction false} RunKeepsTimeouts(s: State, acts: seq<Action>)
    requires TimeoutInv(s) && Legal(s, acts)
    ensures TimeoutInv(Exec(s, acts))
    decreases |acts|
  {
    if acts != [] {
      StepKeepsTimeouts(s, acts[0]);
      RunKeepsTimeouts(Next(s, acts[0]), acts[1..]);
    }
  }

  lemma InitialTimeouts(n: nat)
    ensures TimeoutInv(Initial(n))
  {
    var s := Initial(n);
    forall w | 0 <= w < |s.workers| ensures HandOk(s, w) {
      assert s.workers[w] == Fresh;
    }
  }

  /** `do_io` returns with ETIMEDOUT from its timer flag. */
  ghost predicate ReportsTimeout(s: State, w: nat) {
    Runs(s, w) && CodeEnabled(s, w, Check) && s.calls[CurPc(s, w).c].cancelled
  }

  /** Over every interleaving: a call that reports a timeout armed a timer itself, and that timer's whole time
      has passed since; in terms of the readings the call keeps. */
  lemma ReportedTimeoutElapsed(n: nat, acts: seq<Action>, w: nat)
    requires Legal(Initial(n), acts) && ReportsTimeout(Exec(Initial(n), acts), w)
    ensures var s := Exec(Initial(n), acts); Elapsed(s, CurPc(s, w).c)
  {
    var s := Exec(Initial(n), acts);
    InitialTimeouts(n);
    RunKeepsTimeouts(Initial(n), acts);
    assert CallOk(s, CurPc(s, w).c);
  }

  predicate Raised(s: State, e: nat) {
    e < |s.calls| && s.calls[e].cancelled
  }

  lemma OthersRaiseNothing(s: State, a: Action, e: nat)
    requires Enabled(s, a) && !(a.Code? && a.c == Fire) && Raised(Next(s, a), e)
    ensures Raised(s, e)
  {
    match a
    case Env(_) =>
    case Run(w, r) => RunMoves(s, w, r);
    case Idle(w, i) => IdleMoves(s, w, i);
    case Code(w, c) => CodeMoves(s, w, c);
  }

  lemma FireRaises(s: State, w: nat, e: nat)
    requires Runs(s, w) && CodeEnabled(s, w, Fire) && !Raised(s, e)
    ensures Raised(FireStep(s, w), e) <==> CurPc(s, w) == Firing(e) && s.calls[e].live
  {
  }

  /** A flag goes up exactly when the call's own timeout callback runs on a call that has not returned and is not
      flagged. So a stale callback of an earlier call can wake a later wait, but that wait then tries again. */
  lemma FlagRisesIff(s: State, a: Action, e: nat)
    requires Enabled(s, a) && !Raised(s, e)
    ensures Raised(Next(s, a), e) <==> a.Code? && a.c == Fire && CurPc(s, a.w) == Firing(e) && s.calls[e].live
  {
    if a.Code? && a.c == Fire {
      FireRaises(s, a.w, e);
    } else if Raised(Next(s, a), e) {
      OthersRaiseNothing(s, a, e);
    }
  }
}
