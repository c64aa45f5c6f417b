/** Who has read the front deadline last, what it read and when, and what has happened since, told by the actions of
    the run. */
module RuntimeReadings {
  import opened Common
  import opened Deadlines
  import opened Runtime
  import opened RuntimeFrame
  import opened RuntimeWatch
  import opened RuntimeSignals
  import opened RuntimeOnTime

  /** A worker reads the front deadline. */
  predicate Reads(a: Action) {
    a.Idle? && (a.i.TestTimers? || a.i.TestAll?)
  }

  /** A `refresh` moves a timer to an earlier deadline than it had. */
  predicate Hushes(s: State, a: Action) {
    && a.Code? && a.c.RefreshTimer? && a.c.t < |s.handles| && CanMove(s, a.c.t)
    && s.clock + s.handles[a.c.t].ms < s.handles[a.c.t].next
  }

  /** The deadline of the timer that the step hands to `addTimer` under its lock. */
  function Offers(s: State, a: Action): Option<nat> {
    match a
    case Code(w, SetTimer) => if Runs(s, w) && CurPc(s, w).Setting? then Some(CurPc(s, w).d) else None
    case Code(w, ResetTimer(h, ms, fromNow)) =>
      if h < |s.handles| && CanMove(s, h) && !(ms == s.handles[h].ms && !fromNow)
      then Some(if fromNow then s.clock + ms else s.handles[h].next) else None
    case _ => None
  }

  /** It is then the front while the flag is down. */
  predicate Notices(s: State, t: State, a: Action) {
    Offers(s, a).Some? && AtFront(t.timers, Offers(s, a).value) && !s.tickled
  }

  ghost predicate ReadingsMove(s: State, t: State, a: Action) {
    && |t.workers| == |s.workers|
    && (Reads(a) ==>
          && a.w < |s.workers| && t.reader == Some(a.w) && !t.written && !t.hushed && !t.tickled
          && t.workers[a.w].saw == Front(s.timers) && t.workers[a.w].readAt == s.clock)
    && (!Reads(a) ==>
          && t.reader == s.reader && (t.hushed <==> s.hushed || Hushes(s, a))
          && (t.tickled <==> s.tickled || Notices(s, t, a))
          && (t.written <==> s.written || (Notices(s, t, a) && s.idle > 0)))
    && (a.Code? ==> t.pipe == s.pipe + Bit(Notices(s, t, a) && s.idle > 0))
    && (forall v :: 0 <= v < |s.workers| && !(Reads(a) && v == a.w) ==>
          t.workers[v].saw == s.workers[v].saw && t.workers[v].readAt == s.workers[v].readAt)
  }

  /** Nothing is read, told or hushed. */
  lemma NothingRead(s: State, t: State, a: Action)
    requires t.reader == s.reader && t.hushed == s.hushed && t.tickled == s.tickled && t.written == s.written
    requires t.workers == s.workers && !Reads(a) && !Hushes(s, a) && !Notices(s, t, a) && (a.Code? ==> t.pipe == s.pipe)
    ensures ReadingsMove(s, t, a)
  {
  }

  lemma SetReadings(s: State, w: nat)
    requires Runs(s, w) && CodeEnabled(s, w, SetTimer)
    ensures ReadingsMove(s, SetTimerStep(s, w), Code(w, SetTimer))
  {
  }

  /** What an insertion says to the worker that waits. */
  lemma InsertSays(m: State, d: nat, cb: Callback)
    ensures var t := InsertTimer(m, d, cb);
            && t == m.(timers := t.timers, tickled := t.tickled, pipe := t.pipe, written := t.written)
            && (t.tickled <==> m.tickled || AtFront(t.timers, d))
            && t.pipe == m.pipe + Bit(AtFront(t.timers, d) && !m.tickled && m.idle > 0)
            && (t.written <==> m.written || (AtFront(t.timers, d) && !m.tickled && m.idle > 0))
  {
  }

  lemma ResetReadings(s: State, w: nat, h: nat, ms: nat, fromNow: bool)
    requires Runs(s, w) && CodeEnabled(s, w, ResetTimer(h, ms, fromNow))
    ensures ReadingsMove(s, ResetTimerStep(s, h, ms, fromNow), Code(w, ResetTimer(h, ms, fromNow)))
  {
    if CanMove(s, h) && !(ms == s.handles[h].ms && !fromNow) {
      var m := EraseTimer(s, s.handles[h].next);
      assert m.tickled == s.tickled && m.pipe == s.pipe && m.written == s.written && m.idle == s.idle;
      assert m.workers == s.workers && m.reader == s.reader && m.hushed == s.hushed;
      InsertSays(m, if fromNow then s.clock + ms else s.handles[h].next, UserTimer(h));
    } else {
      NothingRead(s, s, Code(w, ResetTimer(h, ms, fromNow)));
    }
  }

  lemma RefreshReadings(s: State, w: nat, h: nat)
    requires Runs(s, w) && CodeEnabled(s, w, RefreshTimer(h))
    ensures ReadingsMove(s, RefreshTimerStep(s, h), Code(w, RefreshTimer(h)))
  {
  }

  lemma CodeReadings(s: State, w: nat, k: CodeAction)
    requires Runs(s, w) && CodeEnabled(s, w, k)
    ensures ReadingsMove(s, CodeNext(s, w, k), Code(w, k))
  {
    if Inserts(k) {
      InsertReadings(s, w, k);
    } else {
      CodeMoves(s, w, k);
      NothingRead(s, CodeNext(s, w, k), Code(w, k));
    }
  }

  lemma InsertReadings(s: State, w: nat, k: CodeAction)
    requires Runs(s, w) && CodeEnabled(s, w, k) && Inserts(k)
    ensures ReadingsMove(s, CodeNext(s, w, k), Code(w, k))
  {
    match k
    case SetTimer => SetReadings(s, w);
    case ResetTimer(h, ms, fromNow) => ResetReadings(s, w, h, ms, fromNow);
    case RefreshTimer(h) => RefreshReadings(s, w, h);
  }

  lemma IdleReadings(s: State, w: nat, i: IdleAction)
    requires w < |s.workers| && IdleEnabled(s, w, i)
    ensures ReadingsMove(s, IdleNext(s, w, i), Idle(w, i))
  {
    if i.HandleReady? {
      ReadyReadings(s, w, i.ok);
    } else if i.ScheduleExpired? {
      ScheduleReadings(s, w, i.d);
    }
  }

  lemma ReadyReadings(s: State, w: nat, ok: bool)
    requires w < |s.workers| && IdleEnabled(s, w, HandleReady(ok))
    ensures ReadingsMove(s, ReadyStep(s, w, ok), Idle(w, HandleReady(ok)))
  {
  }

  lemma ScheduleReadings(s: State, w: nat, d: nat)
    requires w < |s.workers| && IdleEnabled(s, w, ScheduleExpired(d))
    ensures ReadingsMove(s, ScheduleExpiredStep(s, w, d), Idle(w, ScheduleExpired(d)))
  {
  }

  lemma EnvReadings(s: State, e: EnvAction)
    requires EnvEnabled(s, e)
    ensures ReadingsMove(s, EnvNext(s, e), Env(e))
  {
  }

  lemma RunReadings(s: State, w: nat, r: RunAction)
    requires w < |s.workers| && RunEnabled(s, w, r)
    ensures ReadingsMove(s, RunNext(s, w, r), Run(w, r))
  {
    RunMoves(s, w, r);
  }

  /** Every step: who reads, and what; when the front flag goes up and down, and a tickle is written for it. */
  lemma StepMovesReadings(s: State, a: Action)
    requires Enabled(s, a)
    ensures ReadingsMove(s, Next(s, a), a)
  {
    match a
    case Env(e) => EnvReadings(s, e);
    case Run(w, r) => RunReadings(s, w, r);
    case Idle(w, i) => IdleReadings(s, w, i);
    case Code(w, k) => CodeReadings(s, w, k);
  }

  /** From a place on nobody has read the front. */
  predicate NoneReads(acts: seq<Action>, i: nat) {
    forall j :: i <= j < |acts| ==> !Reads(acts[j])
  }

  ghost predicate HushedFrom(s: State, acts: seq<Action>, i: nat)
    requires Legal(s, acts)
  {
    exists j: nat :: i <= j < |acts| && Hushes(StateAt(s, acts, j), acts[j])
  }

  ghost predicate WrittenFrom(s: State, acts: seq<Action>, i: nat)
    requires Legal(s, acts)
  {
    exists j: nat :: i <= j < |acts| && TicklesAt(s, acts, j)
  }

  /** The step at the place writes a tickle for a timer that it puts in front. */
  ghost predicate TicklesAt(s: State, acts: seq<Action>, j: nat)
    requires Legal(s, acts) && j < |acts|
  {
    var t := StateAt(s, acts, j);
    Notices(t, StateAt(s, acts, j + 1), acts[j]) && t.idle > 0
  }

  /** What the fields say about a run, or about what was before it if nobody reads in it. */
  ghost predicate ReadingIs(s: State, acts: seq<Action>, i: Option<nat>)
    requires Legal(s, acts)
  {
    var t := Exec(s, acts);
    var from := if i.Some? then i.value + 1 else 0;
    && |t.workers| == |s.workers| && NoneReads(acts, from)
    && (t.hushed <==> (i.None? && s.hushed) || HushedFrom(s, acts, from))
    && (t.written <==> (i.None? && s.written) || WrittenFrom(s, acts, from))
    && if i.Some? then
         && i.value < |acts| && Reads(acts[i.value]) && t.reader == Some(acts[i.value].w) && acts[i.value].w < |t.workers|
         && t.workers[acts[i.value].w].saw == Front(StateAt(s, acts, i.value).timers)
         && t.workers[acts[i.value].w].readAt == StateAt(s, acts, i.value).clock
       else t.reader == s.reader
  }

  lemma NothingSince(s: State, acts: seq<Action>)
    requires Legal(s, acts)
    ensures NoneReads(acts, |acts|) && !HushedFrom(s, acts, |acts|) && !WrittenFrom(s, acts, |acts|)
  {
  }

  lemma {:induction false} RunReads(s: State, acts: seq<Action>) returns (i: Option<nat>)
    requires Legal(s, acts)
    ensures ReadingIs(s, acts, i)
    decreases |acts|
  {
    if acts == [] {
      i := None;
      NothingSince(s, acts);
    } else {
      var n := |acts| - 1;
      var before := acts[..n];
      var t := StateAt(s, acts, n);
      SplitRun(s, acts, n);
      NextState(s, acts, n);
      assert acts[..n + 1] == acts;
      StepMovesReadings(t, acts[n]);
      i := RunReads(s, before);
      if Reads(acts[n]) {
        i := Some(n);
        NothingSince(s, acts);
      } else {
        PrefixStates(s, acts, n);
        ReadingGoesOn(s, acts, n, i);
      }
    }
  }

  lemma ReadingGoesOn(s: State, acts: seq<Action>, n: nat, i: Option<nat>)
    requires Legal(s, acts) && |acts| == n + 1 && !Reads(acts[n]) && Legal(s, acts[..n]) && ReadingIs(s, acts[..n], i)
    requires forall j :: 0 <= j <= n ==> StateAt(s, acts[..n], j) == StateAt(s, acts, j)
    requires StateAt(s, acts, n) == Exec(s, acts[..n]) && StateAt(s, acts, n + 1) == Exec(s, acts)
    requires ReadingsMove(StateAt(s, acts, n), StateAt(s, acts, n + 1), acts[n])
    ensures ReadingIs(s, acts, i)
  {
    var from := if i.Some? then i.value + 1 else 0;
    HushedGoesOn(s, acts, n, from);
    WrittenGoesOn(s, acts, n, from);
  }

  lemma HushedGoesOn(s: State, acts: seq<Action>, n: nat, from: nat)
    requires Legal(s, acts) && |acts| == n + 1 && Legal(s, acts[..n]) && from <= n
    requires forall j :: 0 <= j <= n ==> StateAt(s, acts[..n], j) == StateAt(s, acts, j)
    ensures HushedFrom(s, acts, from) <==> HushedFrom(s, acts[..n], from) || Hushes(StateAt(s, acts, n), acts[n])
  {
    var before := acts[..n];
    if j: nat :| from <= j < |before| && Hushes(StateAt(s, before, j), before[j]) {
      assert Hushes(StateAt(s, acts, j), acts[j]);
    }
    if j: nat :| from <= j < |acts| && Hushes(StateAt(s, acts, j), acts[j]) {
      assert j < n ==> Hushes(StateAt(s, before, j), before[j]);
    }
  }

  lemma WrittenGoesOn(s: State, acts: seq<Action>, n: nat, from: nat)
    requires Legal(s, acts) && |acts| == n + 1 && Legal(s, acts[..n]) && from <= n
    requires forall j :: 0 <= j <= n ==> StateAt(s, acts[..n], j) == StateAt(s, acts, j)
    ensures WrittenFrom(s, acts, from) <==> WrittenFrom(s, acts[..n], from) || TicklesAt(s, acts, n)
  {
    var before := acts[..n];
    if j: nat :| from <= j < |before| && TicklesAt(s, before, j) {
      assert TicklesAt(s, acts, j);
    }
    if j: nat :| from <= j < |acts| && TicklesAt(s, acts, j) {
      assert j < n ==> TicklesAt(s, before, j);
    }
  }

  /** Over every run of any number of workers, told by its actions: the worker that read the front last waits, no
      `refresh` since its read has moved a timer to an earlier deadline, and a deadline earlier than the front at that
      read is held: then some step since the read has put a timer in front and written a tickle for it. */
  lemma NoMissedDeadlineSince(n: nat, acts: seq<Action>, i: nat, d: nat) returns (j: nat)
    requires Legal(Initial(n), acts) && i < |acts| && Reads(acts[i]) && NoneReads(acts, i + 1)
    requires !HushedFrom(Initial(n), acts, i + 1)
    requires var s := Exec(Initial(n), acts);
             acts[i].w < |s.workers| && InWindow(s.workers[acts[i].w].pc) && d in s.timers
    requires Before(d, Front(StateAt(Initial(n), acts, i).timers))
    ensures i < j < |acts| && TicklesAt(Initial(n), acts, j)
  {
    var k := RunReads(Initial(n), acts);
    assert k == Some(i);
    NoMissedDeadline(n, acts, d);
    j :| i + 1 <= j < |acts| && TicklesAt(Initial(n), acts, j);
  }

  /** And while every worker waits, the front is the one that was read last; the wait computed at that reading ends by
      it, or by the cap, exactly when it was not overdue then. */
  lemma AllAsleepWaitForTheFrontIff(n: nat, acts: seq<Action>, d: nat) returns (i: nat)
    requires n > 0 && Legal(Initial(n), acts) && forall w :: 0 <= w < n ==> At(Exec(Initial(n), acts), w, Sleeping)
    requires Front(Exec(Initial(n), acts).timers) == Some(d) && d < TWO_64
    ensures i < |acts| && Reads(acts[i]) && NoneReads(acts, i + 1)
    ensures var s := StateAt(Initial(n), acts, i); var cap := s.clock + MAX_TIMEOUT;
            && Front(s.timers) == Some(d)
            && (s.clock < TWO_64 ==>
                  (s.clock + WaitTime(Remaining(Front(s.timers), s.clock)) <= (if d < cap then d else cap)
                   <==> s.clock <= d))
  {
    var k := RunReads(Initial(n), acts);
    AllAsleepSawTheFront(n, acts);
    i := k.value;
    if StateAt(Initial(n), acts, i).clock < TWO_64 {
      OverdueFrontWaitsForCap(d, StateAt(Initial(n), acts, i).clock);
    }
  }
}
