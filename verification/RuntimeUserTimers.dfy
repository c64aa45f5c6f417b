/** The timers that user code makes: when they are held, by which deadline, and that recurring ones go back. */
module RuntimeUserTimers {
  import opened Common
  import opened Deadlines
  import opened Runtime
  import opened RuntimeFrame
  import opened RuntimeWakeups
  import opened RuntimeOnTime

  predicate HeldAt(s: State, h: nat, d: nat) {
    d in s.timers && s.timers[d] == UserTimer(h)
  }

  // ---- what a step does to the handles ----

  /** The step begins a period of the timer: it is made, refreshed, reset from now, or goes back after it was due. */
  ghost function Begun(s: State, a: Action, h: nat): Option<nat> {
    if a.Code? then
      match a.c
      case AddTimer(ms, _) => if h == |s.handles| then Some(ms) else None
      case RefreshTimer(t) => if t == h && h < |s.handles| && CanMove(s, h) then Some(s.handles[h].ms) else None
      case ResetTimer(t, ms, fromNow) =>
        if t == h && fromNow && h < |s.handles| && CanMove(s, h) then Some(ms) else None
      case _ => None
    else if a.Idle? && a.i.ListExpired? && GoesBack(s, h) then Some(s.handles[h].ms)
    else None
  }

  ghost predicate GoesBack(s: State, h: nat) {
    h < |s.handles| && s.handles[h].recurring && exists d: nat :: HeldAt(s, h, d) && d <= s.clock
  }

  /** The step gives the timer another period. */
  predicate Resets(s: State, a: Action, h: nat) {
    && a.Code? && a.c.ResetTimer? && a.c.t == h && h < |s.handles|
    && CanMove(s, h) && !(a.c.ms == s.handles[h].ms && !a.c.fromNow)
  }

  predicate SetsIn(s: State, a: Action, h: nat) {
    a.Code? && a.c.SetTimer? && Runs(s, a.w) && CurPc(s, a.w).Setting? && CurPc(s, a.w).purpose == ForUser(h)
  }

  ghost predicate HandleMove(s: State, t: State, a: Action, h: nat)
    requires h < |s.handles| && h < |t.handles|
  {
    && t.handles[h].next == (if Begun(s, a, h).Some? then s.clock + Begun(s, a, h).value else s.handles[h].next)
    && t.handles[h].ms == (if Resets(s, a, h) then a.c.ms else s.handles[h].ms)
    && t.handles[h].recurring == s.handles[h].recurring
    && t.handles[h].alive == (SetsIn(s, a, h) || (s.handles[h].alive && !(a.Code? && a.c == CancelTimer(h))))
  }

  ghost predicate HandlesMove(s: State, t: State, a: Action) {
    && |t.handles| == |s.handles| + Bit(a.Code? && a.c.AddTimer?)
    && (a.Code? && a.c.AddTimer? ==> t.handles[|s.handles|] == Handle(s.clock + a.c.ms, a.c.ms, a.c.recurring, false))
    && forall h: nat :: h < |s.handles| ==> HandleMove(s, t, a, h)
  }

  lemma SameHandles(s: State, t: State, a: Action)
    requires t.handles == s.handles
    requires a.Code? ==> !a.c.AddTimer? && !a.c.SetTimer? && !a.c.CancelTimer? && !a.c.RefreshTimer? && !a.c.ResetTimer?
    requires !(a.Idle? && a.i.ListExpired?)
    ensures HandlesMove(s, t, a)
  {
  }

  lemma ListHandles(s: State, w: nat)
    requires w < |s.workers| && IdleEnabled(s, w, ListExpired)
    ensures HandlesMove(s, ListStep(s, w), Idle(w, ListExpired))
  {
    var t := ListStep(s, w);
    var due := Due(s.timers, s.clock);
    forall h: nat | h < |s.handles| ensures HandleMove(s, t, Idle(w, ListExpired), h) {
      assert UserTimer(h) in due.Values <==> exists d: nat :: HeldAt(s, h, d) && d <= s.clock by {
        if UserTimer(h) in due.Values {
          var d :| d in due && due[d] == UserTimer(h);
          assert HeldAt(s, h, d);
        }
        if d: nat :| HeldAt(s, h, d) && d <= s.clock {
          assert due[d] in due.Values;
        }
      }
    }
  }

  lemma AddHandles(s: State, w: nat, ms: nat, recurring: bool)
    requires Runs(s, w) && CodeEnabled(s, w, AddTimer(ms, recurring))
    ensures HandlesMove(s, AddTimerStep(s, w, ms, recurring), Code(w, AddTimer(ms, recurring)))
  {
  }

  lemma SetHandles(s: State, w: nat)
    requires Runs(s, w) && CodeEnabled(s, w, SetTimer)
    ensures HandlesMove(s, SetTimerStep(s, w), Code(w, SetTimer))
  {
    assert SetTimerStep(s, w).handles == Returned(s.handles, CurPc(s, w).purpose);
  }

  lemma CancelHandles(s: State, w: nat, h: nat)
    requires Runs(s, w) && CodeEnabled(s, w, CancelTimer(h))
    ensures HandlesMove(s, CancelTimerStep(s, h), Code(w, CancelTimer(h)))
  {
  }

  lemma RefreshHandles(s: State, w: nat, h: nat)
    requires Runs(s, w) && CodeEnabled(s, w, RefreshTimer(h))
    ensures HandlesMove(s, RefreshTimerStep(s, h), Code(w, RefreshTimer(h)))
  {
  }

  lemma ResetHandles(s: State, w: nat, h: nat, ms: nat, fromNow: bool)
    requires Runs(s, w) && CodeEnabled(s, w, ResetTimer(h, ms, fromNow))
    ensures HandlesMove(s, ResetTimerStep(s, h, ms, fromNow), Code(w, ResetTimer(h, ms, fromNow)))
  {
  }

  predicate OnHandles(k: CodeAction) {
    k.AddTimer? || k.SetTimer? || k.CancelTimer? || k.RefreshTimer? || k.ResetTimer?
  }

  lemma CallHandles(s: State, w: nat, k: CodeAction)
    requires Runs(s, w) && CodeEnabled(s, w, k) && InCall(k)
    ensures CodeNext(s, w, k).handles == s.handles
  {
  }

  lemma RegistryHandles(s: State, w: nat, k: CodeAction)
    requires Runs(s, w) && CodeEnabled(s, w, k) && InRegistry(k)
    ensures CodeNext(s, w, k).handles == s.handles
  {
    RegistryCodeRuns(s, w, k);
  }

  lemma DisarmHandles(s: State, w: nat)
    requires Runs(s, w) && CodeEnabled(s, w, Disarm)
    ensures DisarmStep(s, w).handles == s.handles
  {
  }

  lemma GiveUpHandles(s: State, w: nat)
    requires Runs(s, w) && CodeEnabled(s, w, GiveUp)
    ensures GiveUpStep(s, w).handles == s.handles
  {
  }

  lemma OtherHandles(s: State, w: nat, k: CodeAction)
    requires Runs(s, w) && CodeEnabled(s, w, k)
    requires k.Spawn? || k.AbortAdd? || k.SleepFor? || k.Fire? || k.WakeUp? || k.Finish?
    ensures CodeNext(s, w, k).handles == s.handles
  {
  }

  lemma UntouchedHandles(s: State, w: nat, k: CodeAction)
    requires Runs(s, w) && CodeEnabled(s, w, k) && !OnHandles(k)
    ensures HandlesMove(s, CodeNext(s, w, k), Code(w, k))
  {
    if InCall(k) {
      CallHandles(s, w, k);
    } else if InRegistry(k) {
      RegistryHandles(s, w, k);
    } else if k.Disarm? {
      DisarmHandles(s, w);
    } else if k.GiveUp? {
      GiveUpHandles(s, w);
    } else {
      OtherHandles(s, w, k);
    }
    SameHandles(s, CodeNext(s, w, k), Code(w, k));
  }

  lemma TimerHandles(s: State, w: nat, k: CodeAction)
    requires Runs(s, w) && CodeEnabled(s, w, k) && OnHandles(k)
    ensures HandlesMove(s, CodeNext(s, w, k), Code(w, k))
  {
    match k
    case AddTimer(ms, recurring) => AddHandles(s, w, ms, recurring);
    case SetTimer => SetHandles(s, w);
    case CancelTimer(h) => CancelHandles(s, w, h);
    case RefreshTimer(h) => RefreshHandles(s, w, h);
    case ResetTimer(h, ms, fromNow) => ResetHandles(s, w, h, ms, fromNow);
  }

  lemma CodeHandles(s: State, w: nat, k: CodeAction)
    requires Runs(s, w) && CodeEnabled(s, w, k)
    ensures HandlesMove(s, CodeNext(s, w, k), Code(w, k))
  {
    if OnHandles(k) {
      TimerHandles(s, w, k);
    } else {
      UntouchedHandles(s, w, k);
    }
  }

  lemma ReadyHandles(s: State, w: nat, ok: bool)
    requires w < |s.workers| && IdleEnabled(s, w, HandleReady(ok))
    ensures ReadyStep(s, w, ok).handles == s.handles
  {
  }

  lemma IdleHandles(s: State, w: nat, i: IdleAction)
    requires w < |s.workers| && IdleEnabled(s, w, i)
    ensures HandlesMove(s, IdleNext(s, w, i), Idle(w, i))
  {
    if i.ListExpired? {
      ListHandles(s, w);
    } else {
      if i.HandleReady? {
        ReadyHandles(s, w, i.ok);
      }
      SameHandles(s, IdleNext(s, w, i), Idle(w, i));
    }
  }

  /** Every step: which handles get a new deadline, and that it is the clock plus the period in force. */
  lemma StepMovesHandles(s: State, a: Action)
    requires Enabled(s, a)
    ensures HandlesMove(s, Next(s, a), a)
  {
    match a
    case Env(_) => SameHandles(s, Next(s, a), a);
    case Run(w, r) =>
      RunMoves(s, w, r);
      SameHandles(s, Next(s, a), a);
    case Idle(w, i) => IdleHandles(s, w, i);
    case Code(w, k) => CodeHandles(s, w, k);
  }

  // ---- what a step does to the timers of the user that are held ----

  /** The step takes out whatever is held at the deadline. */
  predicate TakesOut(s: State, a: Action, d: nat) {
    if a.Code? then Runs(s, a.w) && CodeEnabled(s, a.w, a.c) && ErasedBy(s, a.w, a.c) == Some(d)
    else a.Idle? && a.i.ListExpired? && d <= s.clock
  }

  /** The due entry at `e` is one of a recurring timer that wants to go back to `d`. */
  predicate Wants(s: State, e: nat, d: nat) {
    && e in s.timers && e <= s.clock && s.timers[e].UserTimer? && s.timers[e].t < |s.handles|
    && s.handles[s.timers[e].t].recurring && s.clock + s.handles[s.timers[e].t].ms == d
  }

  /** The step puts the timer in at the deadline: no other is held there once the step has taken out what it takes out,
      and of those that go back the one due first comes first. */
  ghost predicate PutsIn(s: State, a: Action, h: nat, d: nat) {
    && (d in s.timers ==> TakesOut(s, a, d))
    && (match a
        case Code(w, SetTimer) => Runs(s, w) && CurPc(s, w) == Setting(ForUser(h), d)
        case Code(w, RefreshTimer(t)) =>
          t == h && h < |s.handles| && CanMove(s, h) && d == s.clock + s.handles[h].ms
        case Code(w, ResetTimer(t, ms, fromNow)) =>
          Resets(s, a, h) && d == if fromNow then s.clock + ms else s.handles[h].next
        case Idle(w, ListExpired) =>
          exists e :: HeldAt(s, h, e) && Wants(s, e, d) && forall k :: Wants(s, k, d) ==> e <= k
        case _ => false)
  }

  ghost predicate EntriesMove(s: State, t: State, a: Action) {
    forall h: nat, d: nat :: HeldAt(t, h, d) <==> (HeldAt(s, h, d) && !TakesOut(s, a, d)) || PutsIn(s, a, h, d)
  }

  lemma SameEntries(s: State, t: State, a: Action)
    requires t.timers == s.timers && !(a.Idle? && a.i.ListExpired?)
    requires a.Code? ==> !Inserts(a.c) && !Erases(a.c)
    ensures EntriesMove(s, t, a)
  {
  }

  lemma SetEntries(s: State, w: nat)
    requires Runs(s, w) && CodeEnabled(s, w, SetTimer)
    ensures EntriesMove(s, SetTimerStep(s, w), Code(w, SetTimer))
  {
    var p, d := CurPc(s, w).purpose, CurPc(s, w).d;
    assert SetTimerStep(s, w).timers == Insert(s.timers, d, JobOf(p, Cur(s, w)));
  }

  lemma ErasedEntries(s: State, w: nat, k: CodeAction)
    requires Runs(s, w) && CodeEnabled(s, w, k) && (k.Disarm? || k.GiveUp? || k.CancelTimer?)
    ensures EntriesMove(s, CodeNext(s, w, k), Code(w, k))
  {
    var e := ErasedBy(s, w, k);
    ErasedTimers(s, w, k);
  }

  lemma ErasedTimers(s: State, w: nat, k: CodeAction)
    requires Runs(s, w) && CodeEnabled(s, w, k) && (k.Disarm? || k.GiveUp? || k.CancelTimer?)
    ensures CodeNext(s, w, k).timers
         == if ErasedBy(s, w, k).Some? then s.timers - {ErasedBy(s, w, k).value} else s.timers
  {
  }

  lemma RefreshEntries(s: State, w: nat, h: nat)
    requires Runs(s, w) && CodeEnabled(s, w, RefreshTimer(h))
    ensures EntriesMove(s, RefreshTimerStep(s, h), Code(w, RefreshTimer(h)))
  {
    assert RefreshTimerStep(s, h).timers
        == if CanMove(s, h) then Insert(s.timers - {s.handles[h].next}, s.clock + s.handles[h].ms, UserTimer(h))
           else s.timers;
  }

  lemma ResetTimers(s: State, h: nat, ms: nat, fromNow: bool)
    requires h < |s.handles|
    ensures ResetTimerStep(s, h, ms, fromNow).timers
         == if !(ms == s.handles[h].ms && !fromNow) && CanMove(s, h)
            then Insert(s.timers - {s.handles[h].next}, if fromNow then s.clock + ms else s.handles[h].next, UserTimer(h))
            else s.timers
  {
  }

  lemma ResetEntries(s: State, w: nat, h: nat, ms: nat, fromNow: bool)
    requires Runs(s, w) && CodeEnabled(s, w, ResetTimer(h, ms, fromNow))
    ensures EntriesMove(s, ResetTimerStep(s, h, ms, fromNow), Code(w, ResetTimer(h, ms, fromNow)))
  {
    ResetTimers(s, h, ms, fromNow);
  }

  lemma OtherEntries(s: State, w: nat, k: CodeAction)
    requires Runs(s, w) && CodeEnabled(s, w, k) && !Inserts(k) && !Erases(k)
    ensures EntriesMove(s, CodeNext(s, w, k), Code(w, k))
  {
    CodeMoves(s, w, k);
    SameEntries(s, CodeNext(s, w, k), Code(w, k));
  }

  lemma CodeEntries(s: State, w: nat, k: CodeAction)
    requires Runs(s, w) && CodeEnabled(s, w, k)
    ensures EntriesMove(s, CodeNext(s, w, k), Code(w, k))
  {
    match k
    case SetTimer => SetEntries(s, w);
    case RefreshTimer(h) => RefreshEntries(s, w, h);
    case ResetTimer(h, ms, fromNow) => ResetEntries(s, w, h, ms, fromNow);
    case Disarm => ErasedEntries(s, w, k);
    case GiveUp => ErasedEntries(s, w, k);
    case CancelTimer(_) => ErasedEntries(s, w, k);
    case _ => OtherEntries(s, w, k);
  }

  /** A due entry wants a deadline as `Deadlines` says. */
  lemma WantsIs(s: State, e: nat, d: nat)
    ensures Wants(s, e, d) <==>
              e in Wanting(Due(s.timers, s.clock), (cb: Callback) => Period(s.handles, cb), s.clock, d)
  {
  }

  lemma ListEntries(s: State, w: nat)
    requires w < |s.workers| && IdleEnabled(s, w, ListExpired)
    ensures EntriesMove(s, ListStep(s, w), Idle(w, ListExpired))
  {
    var t, a := ListStep(s, w), Idle(w, ListExpired);
    var due, period := Due(s.timers, s.clock), (cb: Callback) => Period(s.handles, cb);
    assert t.timers == Rearmed(Later(s.timers, s.clock), due, period, s.clock);
    forall h: nat, d: nat
      ensures HeldAt(t, h, d) <==> (HeldAt(s, h, d) && !TakesOut(s, a, d)) || PutsIn(s, a, h, d) {
      forall e: nat ensures Wants(s, e, d) <==> e in Wanting(due, period, s.clock, d) {
        WantsIs(s, e, d);
      }
      if !(d in s.timers && d > s.clock) {
        GoneBack(s, t, w, h, d);
      }
    }
  }

  lemma GoneBack(s: State, t: State, w: nat, h: nat, d: nat)
    requires w < |s.workers| && IdleEnabled(s, w, ListExpired) && t == ListStep(s, w) && !(d in s.timers && d > s.clock)
    ensures HeldAt(t, h, d) <==> PutsIn(s, Idle(w, ListExpired), h, d)
  {
    var due, period := Due(s.timers, s.clock), (cb: Callback) => Period(s.handles, cb);
    assert t.timers == Rearmed(Later(s.timers, s.clock), due, period, s.clock);
    forall e: nat ensures Wants(s, e, d) <==> e in Wanting(due, period, s.clock, d) {
      WantsIs(s, e, d);
    }
    if d in t.timers {
      var e := Least(Wanting(due, period, s.clock, d));
      FirstWins(due, period, s.clock, d, e);
      assert Wants(s, e, d) && t.timers[d] == s.timers[e];
    }
    if PutsIn(s, Idle(w, ListExpired), h, d) {
      var e :| HeldAt(s, h, e) && Wants(s, e, d) && forall k :: Wants(s, k, d) ==> e <= k;
      FirstWins(due, period, s.clock, d, e);
    }
  }

  lemma ReadyEntries(s: State, w: nat, ok: bool)
    requires w < |s.workers| && IdleEnabled(s, w, HandleReady(ok))
    ensures EntriesMove(s, ReadyStep(s, w, ok), Idle(w, HandleReady(ok)))
  {
    ReadyMoves(s, w, ok);
    SameEntries(s, ReadyStep(s, w, ok), Idle(w, HandleReady(ok)));
  }

  lemma IdleEntries(s: State, w: nat, i: IdleAction)
    requires w < |s.workers| && IdleEnabled(s, w, i)
    ensures EntriesMove(s, IdleNext(s, w, i), Idle(w, i))
  {
    match i
    case ListExpired => ListEntries(s, w);
    case HandleReady(ok) => ReadyEntries(s, w, ok);
    case ScheduleExpired(d) => SameEntries(s, ScheduleExpiredStep(s, w, d), Idle(w, i));
    case _ =>
      IdlingMoves(s, w, i);
      SameEntries(s, IdleNext(s, w, i), Idle(w, i));
  }

  /** Every step: a timer of the user is held afterwards at a deadline exactly if it was and is not taken out, or the
      step puts it in there. */
  lemma StepMovesEntries(s: State, a: Action)
    requires Enabled(s, a)
    ensures EntriesMove(s, Next(s, a), a)
  {
    match a
    case Env(_) => SameEntries(s, Next(s, a), a);
    case Run(w, r) =>
      RunMoves(s, w, r);
      SameEntries(s, Next(s, a), a);
    case Idle(w, i) => IdleEntries(s, w, i);
    case Code(w, k) => CodeEntries(s, w, k);
  }

  // ---- what is held is what was made ----

  /** The timer for which a fiber of the user is between making and inserting. */
  function MadeBy(pc: Pc): Option<nat> {
    match pc
    case Setting(ForUser(h), _) => Some(h)
    case _ => None
  }

  /** A held timer is in hand and held by its own deadline; one that is made and not yet in the set is neither, and is
      made by one fiber. */
  ghost predicate HandleInv(s: State) {
    && (forall h: nat, d: nat :: HeldAt(s, h, d) ==> h < |s.handles| && s.handles[h].alive && s.handles[h].next == d)
    && (forall f :: 0 <= f < |s.fibers| && MadeBy(s.fibers[f].pc).Some? ==> MadeOk(s, f))
    && (forall f, g :: 0 <= f < g < |s.fibers| && MadeBy(s.fibers[f].pc).Some? ==>
          MadeBy(s.fibers[f].pc) != MadeBy(s.fibers[g].pc))
  }

  predicate MadeOk(s: State, f: nat)
    requires f < |s.fibers| && MadeBy(s.fibers[f].pc).Some?
  {
    var h := MadeBy(s.fibers[f].pc).value;
    h < |s.handles| && !s.handles[h].alive && s.handles[h].next == s.fibers[f].pc.d
  }

  /** Which fiber makes which timer after a step. */
  ghost predicate MakersMove(s: State, t: State, a: Action) {
    && |s.fibers| <= |t.fibers|
    && forall f :: 0 <= f < |t.fibers| && MadeBy(t.fibers[f].pc).Some? ==> f < |s.fibers| && MakerMove(s, t, a, f)
  }

  predicate MakerMove(s: State, t: State, a: Action, f: nat)
    requires f < |s.fibers| && f < |t.fibers|
  {
    || (t.fibers[f].pc == s.fibers[f].pc && !(a.Code? && a.c.SetTimer? && Runs(s, a.w) && Cur(s, a.w) == f))
    || (a.Code? && a.c.AddTimer? && Runs(s, a.w) && Cur(s, a.w) == f
        && t.fibers[f].pc == Setting(ForUser(|s.handles|), s.clock + a.c.ms))
  }

  lemma OwnCodeMakes(s: State, w: nat, k: CodeAction)
    requires Runs(s, w) && CodeEnabled(s, w, k) && InOwnCode(k) && !InCall(k)
    ensures var pc := CodeNext(s, w, k).fibers[Cur(s, w)].pc;
            MadeBy(pc).Some? ==> k.AddTimer? && pc == Setting(ForUser(|s.handles|), s.clock + k.ms)
  {
  }

  lemma CallMakes(s: State, w: nat, k: CodeAction)
    requires Runs(s, w) && CodeEnabled(s, w, k) && InCall(k)
    ensures MadeBy(CodeNext(s, w, k).fibers[Cur(s, w)].pc).None?
  {
  }

  lemma RegistryMakes(s: State, w: nat, k: CodeAction)
    requires Runs(s, w) && CodeEnabled(s, w, k) && InRegistry(k)
    ensures Cur(s, w) < |CodeNext(s, w, k).fibers| && MadeBy(CodeNext(s, w, k).fibers[Cur(s, w)].pc).None?
  {
    RegistryCodeRuns(s, w, k);
  }

  lemma ErasingMakes(s: State, w: nat, k: CodeAction)
    requires Runs(s, w) && CodeEnabled(s, w, k) && Erases(k)
    ensures Cur(s, w) < |CodeNext(s, w, k).fibers| && MadeBy(CodeNext(s, w, k).fibers[Cur(s, w)].pc).None?
  {
  }

  lemma OtherMakes(s: State, w: nat, k: CodeAction)
    requires Runs(s, w) && CodeEnabled(s, w, k) && !InOwnCode(k) && !InRegistry(k) && !Erases(k)
    ensures Cur(s, w) < |CodeNext(s, w, k).fibers| && MadeBy(CodeNext(s, w, k).fibers[Cur(s, w)].pc).None?
  {
  }

  lemma RunnerMakes(s: State, w: nat, k: CodeAction)
    requires Runs(s, w) && CodeEnabled(s, w, k)
    ensures Cur(s, w) < |CodeNext(s, w, k).fibers|
    ensures var pc := CodeNext(s, w, k).fibers[Cur(s, w)].pc;
            MadeBy(pc).Some? ==> k.AddTimer? && pc == Setting(ForUser(|s.handles|), s.clock + k.ms)
  {
    if InCall(k) {
      CallMakes(s, w, k);
    } else if InOwnCode(k) {
      OwnCodeMakes(s, w, k);
    } else if InRegistry(k) {
      RegistryMakes(s, w, k);
    } else if Erases(k) {
      ErasingMakes(s, w, k);
    } else {
      OtherMakes(s, w, k);
    }
  }

  lemma CodeMakes(s: State, w: nat, k: CodeAction)
    requires Runs(s, w) && CodeEnabled(s, w, k)
    ensures MakersMove(s, CodeNext(s, w, k), Code(w, k))
  {
    var t := CodeNext(s, w, k);
    CodeMoves(s, w, k);
    RunnerMakes(s, w, k);
    forall f | 0 <= f < |t.fibers| && MadeBy(t.fibers[f].pc).Some?
      ensures f < |s.fibers| && MakerMove(s, t, Code(w, k), f) {
      assert f < |s.fibers| && f != Cur(s, w) ==> Bystander(s.fibers[f], t.fibers[f], Erases(k));
    }
  }

  lemma RunMakes(s: State, w: nat, r: RunAction)
    requires w < |s.workers| && RunEnabled(s, w, r)
    ensures MakersMove(s, RunNext(s, w, r), Run(w, r))
  {
  }

  lemma IdleMakes(s: State, w: nat, i: IdleAction)
    requires w < |s.workers| && IdleEnabled(s, w, i)
    ensures MakersMove(s, IdleNext(s, w, i), Idle(w, i))
  {
    var t := IdleNext(s, w, i);
    IdleMoves(s, w, i);
    forall f | 0 <= f < |t.fibers| && MadeBy(t.fibers[f].pc).Some?
      ensures f < |s.fibers| && MakerMove(s, t, Idle(w, i), f) {
      assert f < |s.fibers| ==> Bystander(s.fibers[f], t.fibers[f], false);
    }
  }

  lemma StepMovesMakers(s: State, a: Action)
    requires Enabled(s, a)
    ensures MakersMove(s, Next(s, a), a)
  {
    match a
    case Env(_) =>
    case Run(w, r) => RunMakes(s, w, r);
    case Idle(w, i) => IdleMakes(s, w, i);
    case Code(w, k) => CodeMakes(s, w, k);
  }

  lemma HeldStaysOk(s: State, t: State, a: Action, h: nat, d: nat)
    requires HandleInv(s) && HandlesMove(s, t, a) && EntriesMove(s, t, a) && HeldAt(t, h, d) && Enabled(s, a)
    ensures h < |t.handles| && t.handles[h].alive && t.handles[h].next == d
  {
    if HeldAt(s, h, d) && !TakesOut(s, a, d) {
      assert HandleMove(s, t, a, h);
    } else {
      assert PutsIn(s, a, h, d);
      PutInOk(s, t, a, h, d);
    }
  }

  lemma PutInOk(s: State, t: State, a: Action, h: nat, d: nat)
    requires HandleInv(s) && HandlesMove(s, t, a) && PutsIn(s, a, h, d) && Enabled(s, a)
    ensures h < |t.handles| && t.handles[h].alive && t.handles[h].next == d
  {
    if a.Code? && a.c.SetTimer? {
      assert MadeOk(s, Cur(s, a.w));
      assert HandleMove(s, t, a, h);
    } else if a.Idle? {
      var e :| HeldAt(s, h, e) && Wants(s, e, d);
      assert HandleMove(s, t, a, h);
    } else {
      assert HandleMove(s, t, a, h);
    }
  }

  lemma MakerStaysOk(s: State, t: State, a: Action, f: nat)
    requires HandleInv(s) && HandlesMove(s, t, a) && MakersMove(s, t, a)
    requires f < |t.fibers| && MadeBy(t.fibers[f].pc).Some?
    ensures MadeOk(t, f)
  {
    assert MakerMove(s, t, a, f);
    if t.fibers[f].pc == s.fibers[f].pc {
      assert MadeOk(s, f);
      var h := MadeBy(s.fibers[f].pc).value;
      assert HandleMove(s, t, a, h);
      assert !SetsIn(s, a, h) by {
        if SetsIn(s, a, h) {
          assert false;
        }
      }
    }
  }

  lemma StepKeepsHandles(s: State, a: Action)
    requires HandleInv(s) && Enabled(s, a)
    ensures HandleInv(Next(s, a))
  {
    var t := Next(s, a);
    StepMovesHandles(s, a);
    StepMovesEntries(s, a);
    StepMovesMakers(s, a);
    MovesKeepHandles(s, t, a);
  }

  lemma MovesKeepHandles(s: State, t: State, a: Action)
    requires HandleInv(s) && Enabled(s, a) && HandlesMove(s, t, a) && EntriesMove(s, t, a) && MakersMove(s, t, a)
    ensures HandleInv(t)
  {
    forall h: nat, d: nat | HeldAt(t, h, d) ensures h < |t.handles| && t.handles[h].alive && t.handles[h].next == d {
      HeldStaysOk(s, t, a, h, d);
    }
    forall f | 0 <= f < |t.fibers| && MadeBy(t.fibers[f].pc).Some? ensures MadeOk(t, f) {
      MakerStaysOk(s, t, a, f);
    }
    forall f, g | 0 <= f < g < |t.fibers| && MadeBy(t.fibers[f].pc).Some?
      ensures MadeBy(t.fibers[f].pc) != MadeBy(t.fibers[g].pc) {
      if MadeBy(t.fibers[g].pc).Some? {
        assert MakerMove(s, t, a, f) && MakerMove(s, t, a, g);
        assert MadeBy(s.fibers[f].pc).Some? ==> MadeOk(s, f);
        assert MadeBy(s.fibers[g].pc).Some? ==> MadeOk(s, g);
      }
    }
  }

  lemma {:induction false} RunKeepsHandles(s: State, acts: seq<Action>)
    requires HandleInv(s) && Legal(s, acts)
    ensures HandleInv(Exec(s, acts))
    decreases |acts|
  {
    if acts != [] {
      StepKeepsHandles(s, acts[0]);
      RunKeepsHandles(Next(s, acts[0]), acts[1..]);
    }
  }

  // ---- over whole runs ----

  /** Some action of the run begins the period in which the timer is at its end, and none does after that. */
  lemma {:induction false} LastBegun(s: State, acts: seq<Action>, h: nat) returns (i: nat)
    requires Legal(s, acts) && h < |Exec(s, acts).handles|
    ensures i <= |acts|
    ensures i == |acts| ==> h < |s.handles| && Exec(s, acts).handles[h].next == s.handles[h].next
    ensures i < |acts| ==> var p := Begun(StateAt(s, acts, i), acts[i], h);
              p.Some? && Exec(s, acts).handles[h].next == StateAt(s, acts, i).clock + p.value
    ensures forall j :: (if i < |acts| then i else -1) < j < |acts| ==> Begun(StateAt(s, acts, j), acts[j], h).None?
    decreases |acts|
  {
    if acts == [] {
      i := 0;
    } else {
      var t := Next(s, acts[0]);
      StepMovesHandles(s, acts[0]);
      var k := LastBegun(t, acts[1..], h);
      assert StateAt(s, acts, 0) == s;
      forall j: nat | 0 < j < |acts| ensures StateAt(s, acts, j) == StateAt(t, acts[1..], j - 1) {
        LaterState(s, acts, j);
      }
      assert h < |s.handles| ==> HandleMove(s, t, acts[0], h);
      if k < |acts| - 1 {
        i := k + 1;
      } else {
        i := if Begun(s, acts[0], h).Some? then 0 else |acts|;
      }
      forall j: nat | (if i < |acts| then i else -1) < j < |acts| ensures Begun(StateAt(s, acts, j), acts[j], h).None? {
        if j > 0 {
          assert Begun(StateAt(t, acts[1..], j - 1), acts[1..][j - 1], h).None?;
        }
      }
    }
  }

  /** In every run: a timer of the user that is held was begun, by its making, a refresh, a reset from now or by going
      back after it was due, and since then nothing began it again; it is held by the clock of that moment plus the
      period then in force, and it is in the user's hand and not cancelled. */
  lemma HeldByLastPeriod(n: nat, acts: seq<Action>, h: nat, d: nat) returns (i: nat)
    requires Legal(Initial(n), acts) && HeldAt(Exec(Initial(n), acts), h, d)
    ensures i < |acts|
    ensures var p := Begun(StateAt(Initial(n), acts, i), acts[i], h);
            p.Some? && d == StateAt(Initial(n), acts, i).clock + p.value
    ensures forall j :: i < j < |acts| ==> Begun(StateAt(Initial(n), acts, j), acts[j], h).None?
    ensures h < |Exec(Initial(n), acts).handles| && Exec(Initial(n), acts).handles[h].alive
  {
    RunKeepsHandles(Initial(n), acts);
    i := LastBegun(Initial(n), acts, h);
  }

  /** So no round takes a timer of the user before its period is over. */
  lemma UserTimerNeverEarly(n: nat, acts: seq<Action>, h: nat, d: nat) returns (i: nat)
    requires Legal(Initial(n), acts)
    requires d in Due(Exec(Initial(n), acts).timers, Exec(Initial(n), acts).clock)
    requires Exec(Initial(n), acts).timers[d] == UserTimer(h)
    ensures i < |acts|
    ensures var p := Begun(StateAt(Initial(n), acts, i), acts[i], h); p.Some? && Ticked(acts[i..]) >= p.value
    ensures forall j :: i < j < |acts| ==> Begun(StateAt(Initial(n), acts, j), acts[j], h).None?
  {
    i := HeldByLastPeriod(n, acts, h, d);
    SplitRun(Initial(n), acts, i);
    ClockIs(StateAt(Initial(n), acts, i), acts[i..]);
  }

  /** In every run, when a round takes a timer: a recurring one begins its period anew, and is held again exactly if no
      later timer has that deadline and of the ones that want it this one was due first; any other is out, and keeps
      its deadline. */
  lemma RecurringGoesBack(n: nat, acts: seq<Action>, w: nat, h: nat, d: nat)
    requires Legal(Initial(n), acts) && Enabled(Exec(Initial(n), acts), Idle(w, ListExpired))
    requires HeldAt(Exec(Initial(n), acts), h, d) && d <= Exec(Initial(n), acts).clock
    ensures var s := Exec(Initial(n), acts); var t := Next(s, Idle(w, ListExpired));
            && h < |s.handles| == |t.handles|
            && var again := s.clock + s.handles[h].ms;
            if s.handles[h].recurring then
              && t.handles[h] == s.handles[h].(next := again)
              && forall e: nat :: HeldAt(t, h, e) <==>
                   e == again && !(e in s.timers && s.clock < e) && forall k :: Wants(s, k, e) ==> d <= k
            else t.handles[h] == s.handles[h] && forall e: nat :: !HeldAt(t, h, e)
  {
    var s := Exec(Initial(n), acts);
    var a := Idle(w, ListExpired);
    var t := Next(s, a);
    RunKeepsHandles(Initial(n), acts);
    StepMovesHandles(s, a);
    StepMovesEntries(s, a);
    assert HandleMove(s, t, a, h);
    forall e: nat
      ensures HeldAt(t, h, e) <==> s.handles[h].recurring && e == s.clock + s.handles[h].ms
                                   && !(e in s.timers && s.clock < e) && forall k :: Wants(s, k, e) ==> d <= k {
      if HeldAt(s, h, e) {
        assert e == d;
      }
      if s.handles[h].recurring && e == s.clock + s.handles[h].ms {
        assert Wants(s, d, e);
      }
    }
  }

  /** Out for good: neither in hand nor about to be. */
  ghost predicate Gone(s: State, h: nat) {
    && h < |s.handles| && !s.handles[h].alive
    && forall f :: 0 <= f < |s.fibers| ==> MadeBy(s.fibers[f].pc) != Some(h)
  }

  lemma StepKeepsGone(s: State, a: Action, h: nat)
    requires Enabled(s, a) && Gone(s, h)
    ensures Gone(Next(s, a), h)
  {
    var t := Next(s, a);
    StepMovesHandles(s, a);
    StepMovesMakers(s, a);
    MovesKeepGone(s, t, a, h);
  }

  lemma MovesKeepGone(s: State, t: State, a: Action, h: nat)
    requires Gone(s, h) && HandlesMove(s, t, a) && MakersMove(s, t, a)
    ensures Gone(t, h)
  {
    assert HandleMove(s, t, a, h);
    forall f | 0 <= f < |t.fibers| ensures MadeBy(t.fibers[f].pc) != Some(h) {
      assert MadeBy(t.fibers[f].pc).Some? ==> MakerMove(s, t, a, f);
    }
  }

  lemma {:induction false} RunKeepsGone(s: State, acts: seq<Action>, h: nat)
    requires Legal(s, acts) && Gone(s, h)
    ensures Gone(Exec(s, acts), h)
    decreases |acts|
  {
    if acts != [] {
      StepKeepsGone(s, acts[0], h);
      RunKeepsGone(Next(s, acts[0]), acts[1..], h);
    }
  }

  /** In every run a timer that its user has cancelled is never held again, whatever follows. */
  lemma CancelledNeverHeld(n: nat, acts: seq<Action>, i: nat, w: nat, h: nat, d: nat)
    requires Legal(Initial(n), acts) && i < |acts| && acts[i] == Code(w, CancelTimer(h))
    requires h < |StateAt(Initial(n), acts, i).handles| && StateAt(Initial(n), acts, i).handles[h].alive
    ensures !HeldAt(Exec(Initial(n), acts), h, d)
  {
    var s := StateAt(Initial(n), acts, i);
    var t := StateAt(Initial(n), acts, i + 1);
    SplitRun(Initial(n), acts, i);
    RunKeepsHandles(Initial(n), acts[..i]);
    NextState(Initial(n), acts, i);
    StepMovesHandles(s, acts[i]);
    StepMovesMakers(s, acts[i]);
    assert HandleMove(s, t, acts[i], h);
    forall f | 0 <= f < |t.fibers| ensures MadeBy(t.fibers[f].pc) != Some(h) {
      assert MadeBy(t.fibers[f].pc).Some? ==> MakerMove(s, t, acts[i], f) && MadeOk(s, f);
    }
    SplitRun(Initial(n), acts, i + 1);
    RunKeepsGone(t, acts[i + 1..], h);
    RunKeepsHandles(Initial(n), acts);
  }
}
