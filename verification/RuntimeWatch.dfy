/** No missed earliest deadline: the worker that read the front deadline last is told of every earlier one, and while
    every worker waits nobody needs to be told. */
module RuntimeWatch {
  import opened Common
  import opened Deadlines
  import opened Runtime
  import opened RuntimeFrame
  import opened RuntimeCounters

  /** After reading the front deadline and before waking up. */
  predicate InWindow(pc: WorkerPc) {
    pc == Testing(1) || pc == Testing(2) || pc.Sleeping?
  }

  predicate Before(d: nat, front: Option<nat>) {
    front.None? || d < front.value
  }

  ghost predicate Watched(s: State) {
    s.reader.Some? && s.reader.value < |s.workers| && InWindow(s.workers[s.reader.value].pc)
  }

  ghost predicate EarlierTold(s: State)
    requires s.reader.Some? && s.reader.value < |s.workers|
  {
    && (s.hushed || forall d :: d in s.timers && Before(d, s.workers[s.reader.value].saw) ==> s.tickled)
    && (s.tickled ==> s.written)
  }

  /** While every worker is between its read and its waking, the last read is still exact. */
  ghost predicate Abreast(s: State) {
    s.reader.Some? && s.reader.value < |s.workers| && (forall v :: 0 <= v < |s.workers| ==> InWindow(s.workers[v].pc))
    ==> s.workers[s.reader.value].saw == Front(s.timers)
  }

  /** Whoever waits has read, so there is a last reader. */
  ghost predicate ReaderKnown(s: State) {
    && (s.reader.Some? ==> s.reader.value < |s.workers|)
    && (s.reader.None? ==> forall v :: 0 <= v < |s.workers| ==> !InWindow(s.workers[v].pc))
  }

  ghost predicate WatchInv(s: State) {
    (Watched(s) ==> EarlierTold(s)) && Abreast(s) && ReaderKnown(s)
  }

  lemma WatcherIsIdle(s: State)
    requires Counted(s) && Watched(s)
    ensures s.idle > 0
  {
    assert IsIdle(s.workers[s.reader.value]);
  }

  lemma InsertTells(s: State, t: State, d: nat, cb: Callback)
    requires Watched(s) && EarlierTold(s) && s.idle > 0
    requires t.timers == InsertTimer(s, d, cb).timers && t.tickled == InsertTimer(s, d, cb).tickled
             && t.written == InsertTimer(s, d, cb).written && t.hushed == s.hushed
             && t.reader == s.reader && t.workers == s.workers
    ensures EarlierTold(t)
  {
    var held := Insert(s.timers, d, cb);
    if Before(d, s.workers[s.reader.value].saw) && !AtFront(held, d) {
      var k :| k in held && k < d;
      assert k in s.timers && Before(k, s.workers[s.reader.value].saw);
    }
  }

  /** The worker that tests reads the front and becomes the last reader. */
  lemma ReadTells(s: State, w: nat, t: State)
    requires w < |s.workers| && t.reader == Some(w) && |t.workers| == |s.workers| && t.workers[w].saw == Front(s.timers)
    requires t.timers == s.timers && !t.tickled
    ensures WatchInv(t)
  {
    forall d | d in t.timers ensures !Before(d, t.workers[w].saw) {
      assert d in s.timers.Keys;
    }
  }

  lemma TestKeepsWatch(s: State, w: nat, i: IdleAction)
    requires w < |s.workers| && IdleEnabled(s, w, i) && (i.TestAll? || i.TestTimers?)
    ensures WatchInv(IdleNext(s, w, i))
  {
    ReadTells(s, w, IdleNext(s, w, i));
  }

  /** Steps that read no front and add no timer. */
  ghost predicate NoNews(s: State, t: State) {
    && t.reader == s.reader && t.tickled == s.tickled && t.written == s.written && t.hushed == s.hushed
    && |t.workers| == |s.workers|
    && (forall d :: d in t.timers ==> d in s.timers)
    && (forall v :: 0 <= v < |s.workers| ==> t.workers[v].saw == s.workers[v].saw)
    && (forall v :: 0 <= v < |s.workers| && InWindow(t.workers[v].pc) ==> InWindow(s.workers[v].pc))
    && ((forall v :: 0 <= v < |t.workers| ==> InWindow(t.workers[v].pc)) && |t.workers| > 0 ==> t.timers == s.timers)
  }

  lemma NoNewsKeeps(s: State, t: State)
    requires WatchInv(s) && NoNews(s, t)
    ensures WatchInv(t)
  {
  }

  lemma IdleIsNoNews(s: State, w: nat, i: IdleAction)
    requires w < |s.workers| && IdleEnabled(s, w, i) && !i.TestAll? && !i.TestTimers? && !i.ListExpired?
    ensures NoNews(s, IdleNext(s, w, i))
  {
  }

  lemma RunIsNoNews(s: State, w: nat, r: RunAction)
    requires w < |s.workers| && RunEnabled(s, w, r)
    ensures NoNews(s, RunNext(s, w, r))
  {
  }

  /** A recurring timer goes back to a deadline no earlier than the one that was due. */
  lemma RearmsLater(s: State, w: nat, e: nat) returns (d: nat)
    requires At(s, w, Listing) && e in ListStep(s, w).timers && e !in s.timers
    ensures d in s.timers && d <= e
  {
    d :| d in Due(s.timers, s.clock) && Period(s.handles, s.timers[d]).Some?
         && s.clock + Period(s.handles, s.timers[d]).value == e;
  }

  lemma ListKeepsWatch(s: State, w: nat)
    requires WatchInv(s) && At(s, w, Listing)
    ensures WatchInv(ListStep(s, w))
  {
    var t := ListStep(s, w);
    assert !InWindow(t.workers[w].pc);
    if Watched(t) && !t.hushed {
      assert Watched(s);
      var saw := s.workers[s.reader.value].saw;
      forall e | e in t.timers && Before(e, saw) ensures t.tickled {
        if e !in s.timers {
          var d := RearmsLater(s, w, e);
          assert Before(d, saw);
        }
      }
    }
  }

  /** Erasing tells nobody and needs to tell nobody. */
  lemma ErasureTells(s: State, m: State)
    requires Watched(s) && EarlierTold(s) && forall d :: d in m.timers ==> d in s.timers
    requires m.tickled == s.tickled && m.written == s.written && m.hushed == s.hushed
    requires m.reader == s.reader && m.workers == s.workers
    ensures Watched(m) && EarlierTold(m)
  {
  }

  lemma ResetTells(s: State, h: nat, ms: nat, fromNow: bool)
    requires Watched(s) && EarlierTold(s) && s.idle > 0 && h < |s.handles|
    ensures EarlierTold(ResetTimerStep(s, h, ms, fromNow))
  {
    var t := ResetTimerStep(s, h, ms, fromNow);
    if !(ms == s.handles[h].ms && !fromNow) && CanMove(s, h) {
      var m := EraseTimer(s, s.handles[h].next);
      ErasureTells(s, m);
      InsertTells(m, t, if fromNow then s.clock + ms else s.handles[h].next, UserTimer(h));
    }
  }

  /** A refresh tells nobody, but has to only if it moves to an earlier deadline. */
  lemma RefreshTells(s: State, h: nat)
    requires Watched(s) && EarlierTold(s) && h < |s.handles|
    ensures EarlierTold(RefreshTimerStep(s, h))
  {
    var t := RefreshTimerStep(s, h);
    if CanMove(s, h) && !t.hushed {
      var saw := s.workers[s.reader.value].saw;
      forall e | e in t.timers && Before(e, saw) ensures t.tickled {
        assert e in s.timers || Before(s.handles[h].next, saw);
      }
    }
  }

  lemma SetTimerTells(s: State, w: nat)
    requires Watched(s) && EarlierTold(s) && s.idle > 0 && Runs(s, w) && CodeEnabled(s, w, SetTimer)
    ensures EarlierTold(SetTimerStep(s, w))
  {
    InsertTells(s, SetTimerStep(s, w), CurPc(s, w).d, JobOf(CurPc(s, w).purpose, Cur(s, w)));
  }

  lemma OtherCodeTells(s: State, w: nat, c: CodeAction)
    requires Watched(s) && EarlierTold(s) && Runs(s, w) && CodeEnabled(s, w, c) && !Inserts(c)
    ensures Watched(CodeNext(s, w, c)) && EarlierTold(CodeNext(s, w, c))
  {
    CodeMoves(s, w, c);
    ErasureTells(s, CodeNext(s, w, c));
  }

  lemma WorkersStay(s: State, w: nat, c: CodeAction)
    requires Runs(s, w) && CodeEnabled(s, w, c)
    ensures WorkersStand(s, CodeNext(s, w, c))
  {
    CodeMoves(s, w, c);
  }

  lemma CodeKeepsTold(s: State, w: nat, c: CodeAction)
    requires Watched(s) && EarlierTold(s) && s.idle > 0 && Runs(s, w) && CodeEnabled(s, w, c)
    ensures WorkersStand(s, CodeNext(s, w, c)) && EarlierTold(CodeNext(s, w, c))
  {
    WorkersStay(s, w, c);
    match c
    case SetTimer => SetTimerTells(s, w);
    case RefreshTimer(h) => RefreshTells(s, h);
    case ResetTimer(h, ms, fromNow) => ResetTells(s, h, ms, fromNow);
    case _ => OtherCodeTells(s, w, c);
  }

  lemma CodeKeepsWatch(s: State, w: nat, c: CodeAction)
    requires WatchInv(s) && Counted(s) && Runs(s, w) && CodeEnabled(s, w, c)
    ensures WatchInv(CodeNext(s, w, c))
  {
    CodeMoves(s, w, c);
    assert !InWindow(s.workers[w].pc);
    if Watched(s) {
      WatcherIsIdle(s);
      CodeKeepsTold(s, w, c);
    }
  }

  lemma EnvKeepsWatch(s: State, e: EnvAction)
    requires WatchInv(s) && EnvEnabled(s, e)
    ensures WatchInv(EnvNext(s, e))
  {
    NoNewsKeeps(s, EnvNext(s, e));
  }

  lemma RunKeepsWatch(s: State, w: nat, r: RunAction)
    requires WatchInv(s) && w < |s.workers| && RunEnabled(s, w, r)
    ensures WatchInv(RunNext(s, w, r))
  {
    RunIsNoNews(s, w, r);
    NoNewsKeeps(s, RunNext(s, w, r));
  }

  lemma IdleKeepsWatch(s: State, w: nat, i: IdleAction)
    requires WatchInv(s) && w < |s.workers| && IdleEnabled(s, w, i)
    ensures WatchInv(IdleNext(s, w, i))
  {
    if i.TestAll? || i.TestTimers? {
      TestKeepsWatch(s, w, i);
    } else if i.ListExpired? {
      ListKeepsWatch(s, w);
    } else {
      IdleIsNoNews(s, w, i);
      NoNewsKeeps(s, IdleNext(s, w, i));
    }
  }

  lemma StepKeepsWatch(s: State, a: Action)
    requires WatchInv(s) && Counted(s) && Enabled(s, a)
    ensures WatchInv(Next(s, a))
  {
    match a
    case Env(e) => EnvKeepsWatch(s, e);
    case Run(w, r) => RunKeepsWatch(s, w, r);
    case Idle(w, i) => IdleKeepsWatch(s, w, i);
    case Code(w, c) => CodeKeepsWatch(s, w, c);
  }
}
