/** Additions the kernel refuses: the bit stays set with a fiber behind it that does not wait there. */
module RuntimeRefused {
  import opened EventTable
  import opened Runtime
  import opened RuntimeFrame
  import opened RuntimeTokens
  import opened RuntimeRegistry
  import opened RuntimeInvariant

  /** Refused bits are set bits. */
  ghost predicate RefusedAreSet(s: State) {
    s.refused <= s.table.slots.Keys
  }

  /** The key of the addition that a step makes in vain. */
  predicate RefusedNow(s: State, a: Action, k: Key) {
    FailsAdd(a) && Runs(s, a.w) && CodeEnabled(s, a.w, a.c) && s.calls[CurPc(s, a.w).c].key == k
  }

  /** `k` is a refused bit after the step exactly if it was one and has not been cleared, or just became one. */
  ghost predicate RefusedMove(s: State, t: State, a: Action, k: Key) {
    && RefusedAreSet(t)
    && (k in t.refused <==> (k in s.refused && k in t.table.slots) || RefusedNow(s, a, k))
  }

  lemma TriggeredRefused(s: State, t: State, a: Action, fd: nat, evs: set<Event>, k: Key)
    requires RefusedAreSet(s) && !FailsAdd(a)
    requires t.table.slots == s.table.slots - KeysOf(fd, evs) && t.refused == s.refused - KeysOf(fd, evs)
    ensures RefusedMove(s, t, a, k)
  {
  }

  lemma UntouchedRefused(s: State, t: State, a: Action, k: Key)
    requires RefusedAreSet(s) && RegistryStands(s, t) && !FailsAdd(a)
    ensures RefusedMove(s, t, a, k)
  {
  }

  lemma ReadySlots(s: State, w: nat, ok: bool, evs: set<Event>)
    requires w < |s.workers| && IdleEnabled(s, w, HandleReady(ok))
    requires var fd := s.workers[w].reports[0].fd;
             evs == if Hit(s, w) * EventsOf(s.table.slots, fd) != {} && ok then Hit(s, w) else {}
    ensures ReadyStep(s, w, ok).table.slots == s.table.slots - KeysOf(s.workers[w].reports[0].fd, evs)
  {
    if evs == {} {
      assert KeysOf(s.workers[w].reports[0].fd, evs) == {};
    }
  }

  lemma ReadyRefused(s: State, w: nat, ok: bool, k: Key)
    requires RefusedAreSet(s) && w < |s.workers| && IdleEnabled(s, w, HandleReady(ok))
    ensures RefusedMove(s, ReadyStep(s, w, ok), Idle(w, HandleReady(ok)), k)
  {
    var fd := s.workers[w].reports[0].fd;
    var evs := if Hit(s, w) * EventsOf(s.table.slots, fd) != {} && ok then Hit(s, w) else {};
    TriggerAllRefused(s, fd, evs, Ready(s.table, fd, Hit(s, w), ok));
    ReadySlots(s, w, ok, evs);
    TriggeredRefused(s, ReadyStep(s, w, ok), Idle(w, HandleReady(ok)), fd, evs, k);
  }

  lemma CloseEventsRefused(s: State, w: nat, fd: nat, ok: bool, k: Key)
    requires RefusedAreSet(s) && Runs(s, w) && CodeEnabled(s, w, CloseEvents(fd, ok))
    ensures RefusedMove(s, CloseEventsStep(s, w, fd, ok), Code(w, CloseEvents(fd, ok)), k)
  {
    var evs := if ok then EventsOf(s.table.slots, fd) else {};
    TriggerAllRefused(SetFiberPc(s, Cur(s, w), Closing(fd)), fd, evs, CancelAll(s.table, fd, ok));
    if evs == {} {
      assert KeysOf(fd, evs) == {};
    }
    TriggeredRefused(s, CloseEventsStep(s, w, fd, ok), Code(w, CloseEvents(fd, ok)), fd, evs, k);
  }

  lemma CancelEventRefused(s: State, w: nat, ok: bool, k: Key)
    requires RefusedAreSet(s) && Runs(s, w) && CodeEnabled(s, w, CancelEvent(ok))
    ensures RefusedMove(s, CancelEventStep(s, w, ok), Code(w, CancelEvent(ok)), k)
  {
    var j := s.calls[CurPc(s, w).c].key;
    assert KeysOf(j.fd, {j.ev}) == {j};
  }

  lemma CodeRefused(s: State, w: nat, c: CodeAction, k: Key)
    requires RefusedAreSet(s) && Runs(s, w) && CodeEnabled(s, w, c)
    ensures RefusedMove(s, CodeNext(s, w, c), Code(w, c), k)
  {
    match c
    case AddEvent(_) =>
    case CloseEvents(fd, ok) => CloseEventsRefused(s, w, fd, ok, k);
    case CancelEvent(ok) => CancelEventRefused(s, w, ok, k);
    case CloseFd =>
    case _ =>
      CodeLeavesRegistry(s, w, c);
      UntouchedRefused(s, CodeNext(s, w, c), Code(w, c), k);
  }

  /** In every run, a bit is one of a refused addition exactly from the refusal until it is cleared. */
  lemma RefusedStepIff(s: State, a: Action, k: Key)
    requires RefusedAreSet(s) && Enabled(s, a)
    ensures RefusedMove(s, Next(s, a), a, k)
  {
    match a
    case Env(_) => UntouchedRefused(s, Next(s, a), a, k);
    case Run(w, r) =>
      RunLeavesRegistry(s, w, r);
      UntouchedRefused(s, Next(s, a), a, k);
    case Idle(w, i) =>
      if i.HandleReady? {
        ReadyRefused(s, w, i.ok, k);
      } else {
        NonHandling(s, w, i);
        UntouchedRefused(s, Next(s, a), a, k);
      }
    case Code(w, c) => CodeRefused(s, w, c, k);
  }

  lemma {:induction false} RunKeepsRefusedSet(s: State, acts: seq<Action>)
    requires RefusedAreSet(s) && Legal(s, acts)
    ensures RefusedAreSet(Exec(s, acts))
    decreases |acts|
  {
    if acts != [] {
      RefusedStepIff(s, acts[0], Key(0, READ));
      RunKeepsRefusedSet(Next(s, acts[0]), acts[1..]);
    }
  }

  lemma RefusedAlwaysSet(n: nat, acts: seq<Action>)
    requires Legal(Initial(n), acts)
    ensures RefusedAreSet(Exec(Initial(n), acts))
  {
    RunKeepsRefusedSet(Initial(n), acts);
  }

  /** The fiber waits in `do_io` for that bit. */
  predicate WaitsBehind(s: State, f: nat, k: Key) {
    f < |s.fibers| && s.fibers[f].pc.Waiting? && s.fibers[f].token == InSlot(k)
  }

  /** In every reachable state, as long as no fiber of a refused addition has been scheduled: a fiber behind a bit
      waits there exactly unless the bit is one of a refused addition not cleared since. */
  lemma WaitsUnlessRefused(n: nat, acts: seq<Action>, k: Key)
    requires Legal(Initial(n), acts) && !Exec(Initial(n), acts).misled
    requires k in Exec(Initial(n), acts).table.slots
    ensures var s := Exec(Initial(n), acts);
            WaitsBehind(s, s.table.slots[k], k) <==> k !in s.refused
  {
    var s := Exec(Initial(n), acts);
    ReachableInv(n, acts);
    if k !in s.refused {
      assert Holds(s, Live(s)[k], InSlot(k));
      assert FiberOk(s, s.table.slots[k]);
    } else if s.table.slots[k] < |s.fibers| {
      assert FiberOk(s, s.table.slots[k]);
    }
  }
}
