/** The registry inside the runtime: its counter, the slots, and where the kernel and the bits agree. */
module RuntimeRegistry {
  import opened Common
  import opened EventTable
  import opened Runtime
  import opened RuntimeFrame

  /** In every run: no slot holds a callback, and the kernel waits for nothing but set bits. */
  ghost predicate Registered(t: Table<nat>) {
    t.callbacks == {} && Within(t)
  }

  ghost predicate RegistryInv(s: State) {
    Registered(s.table)
  }

  /** The counter is the number of bits behind which a fiber waits as long as no fiber of a refused addition has been
      scheduled, and smaller from then on. */
  ghost predicate LiveCounted(s: State) {
    s.table.pending <= |Live(s)| && (s.misled <==> s.table.pending < |Live(s)|)
  }

  predicate FailsAdd(a: Action) {
    a.Code? && a.c == AddEvent(false)
  }

  /** The step is an addition on a descriptor without bits that the kernel refuses. */
  predicate FailsFirst(s: State, a: Action, fd: nat) {
    && FailsAdd(a) && Runs(s, a.w) && CodeEnabled(s, a.w, a.c)
    && s.calls[CurPc(s, a.w).c].key.fd == fd && EventsOf(s.table.slots, fd) == {}
  }

  /** The step closes a descriptor that still has set bits. */
  predicate ClosesBusy(s: State, a: Action, fd: nat) {
    a.Code? && Runs(s, a.w) && a.c == CloseFd && CurPc(s, a.w) == Closing(fd) && EventsOf(s.table.slots, fd) != {}
  }

  // ---- what a step may do to the table ----

  /** The table stays in order; `orphans` says that the step makes bits of `fd` unknown to the kernel, `fails` that it
      is a refused addition. */
  ghost predicate TableMove(a: Table<nat>, b: Table<nat>, fails: bool, fd: nat, orphans: bool) {
    && Registered(b)
    && (Orphan(b, fd) <==> Orphan(a, fd) || orphans)
    && b.pending - |b.slots| == a.pending - |a.slots| - Bit(fails)
    && (Honest(a) && !fails ==> Honest(b))
  }

  lemma ClearedTable(t: Table<nat>, fd: nat, evs: set<Event>, g: nat)
    requires Registered(t) && evs <= EventsOf(t.slots, fd) && fd in t.interest
    ensures TableMove(t, Clear(t, fd, evs), false, g, false)
  {
    ClearSize(t, fd, evs);
    ClearAnywhere(t, fd, evs);
  }

  lemma AddedTable(t: Table<nat>, k: Key, f: nat, ok: bool, g: nat)
    requires Registered(t) && k !in t.slots && (ok ==> KernelAccepts(t.interest, AddOp(t, k.fd), k.fd))
    ensures TableMove(t, Add(t, k, f, false, ok), !ok, g, !ok && k.fd == g && EventsOf(t.slots, g) == {})
  {
    AddedKeys(t.slots, k, f);
    AddAnywhere(t, k, f, false, ok);
  }

  lemma ClosedTable(t: Table<nat>, fd: nat, g: nat)
    requires Registered(t)
    ensures TableMove(t, t.(interest := t.interest - {fd}), false, g, fd == g && EventsOf(t.slots, g) != {})
  {
  }

  lemma OneBit(slots: map<Key, nat>, k: Key)
    ensures k in slots ==> k.ev in EventsOf(slots, k.fd)
    ensures k in slots ==> {k.ev} * EventsOf(slots, k.fd) == {k.ev} && {k.ev} <= EventsOf(slots, k.fd)
  {
  }

  lemma UntouchedTable(t: Table<nat>, g: nat)
    requires Registered(t)
    ensures TableMove(t, t, false, g, false)
  {
  }

  lemma AddEventTable(s: State, w: nat, ok: bool, g: nat)
    requires RegistryInv(s) && Runs(s, w) && CodeEnabled(s, w, AddEvent(ok))
    ensures TableMove(s.table, AddEventStep(s, w, ok).table, !ok, g, FailsFirst(s, Code(w, AddEvent(ok)), g))
  {
    AddedTable(s.table, s.calls[CurPc(s, w).c].key, Cur(s, w), ok, g);
  }

  lemma CloseEventsTable(s: State, w: nat, fd: nat, ok: bool, g: nat)
    requires RegistryInv(s) && Runs(s, w) && CodeEnabled(s, w, CloseEvents(fd, ok))
    ensures TableMove(s.table, CloseEventsStep(s, w, fd, ok).table, false, g, false)
  {
    UntouchedTable(s.table, g);
    if EventsOf(s.table.slots, fd) != {} && ok {
      ClearedTable(s.table, fd, EventsOf(s.table.slots, fd), g);
    }
  }

  lemma CancelEventTable(s: State, w: nat, ok: bool, g: nat)
    requires RegistryInv(s) && Runs(s, w) && CodeEnabled(s, w, CancelEvent(ok))
    ensures TableMove(s.table, CancelEventStep(s, w, ok).table, false, g, false)
  {
    var k := s.calls[CurPc(s, w).c].key;
    UntouchedTable(s.table, g);
    OneBit(s.table.slots, k);
    if k in s.table.slots && ok {
      ClearedTable(s.table, k.fd, {k.ev}, g);
    }
  }

  lemma CloseFdTable(s: State, w: nat, g: nat)
    requires RegistryInv(s) && Runs(s, w) && CodeEnabled(s, w, CloseFd)
    ensures TableMove(s.table, CloseFdStep(s, w).table, false, g, ClosesBusy(s, Code(w, CloseFd), g))
  {
    ClosedTable(s.table, CurPc(s, w).fd, g);
  }

  lemma CodeKeeps(s: State, w: nat, c: CodeAction, g: nat)
    requires RegistryInv(s) && Runs(s, w) && CodeEnabled(s, w, c)
    ensures TableMove(s.table, CodeNext(s, w, c).table, FailsAdd(Code(w, c)), g,
                      ClosesBusy(s, Code(w, c), g) || FailsFirst(s, Code(w, c), g))
  {
    match c
    case AddEvent(ok) => AddEventTable(s, w, ok, g);
    case CloseEvents(fd, ok) => CloseEventsTable(s, w, fd, ok, g);
    case CancelEvent(ok) => CancelEventTable(s, w, ok, g);
    case CloseFd => CloseFdTable(s, w, g);
    case _ =>
      CodeLeavesRegistry(s, w, c);
      UntouchedTable(s.table, g);
  }

  lemma CodeLeavesRegistry(s: State, w: nat, c: CodeAction)
    requires Runs(s, w) && CodeEnabled(s, w, c) && !InRegistry(c)
    ensures RegistryStands(s, CodeNext(s, w, c))
  {
    CodeMoves(s, w, c);
  }

  lemma IdleKeeps(s: State, w: nat, i: IdleAction, g: nat)
    requires RegistryInv(s) && w < |s.workers| && IdleEnabled(s, w, i)
    ensures TableMove(s.table, IdleNext(s, w, i).table, false, g, false)
  {
    UntouchedTable(s.table, g);
    if i.HandleReady? {
      var fd := s.workers[w].reports[0].fd;
      if Hit(s, w) * EventsOf(s.table.slots, fd) != {} && i.ok {
        ClearedTable(s.table, fd, Hit(s, w), g);
      }
    } else {
      NonHandling(s, w, i);
    }
  }

  lemma RunLeavesRegistry(s: State, w: nat, r: RunAction)
    requires w < |s.workers| && RunEnabled(s, w, r)
    ensures RegistryStands(s, RunNext(s, w, r))
  {
  }

  lemma RunKeeps(s: State, w: nat, r: RunAction, g: nat)
    requires RegistryInv(s) && w < |s.workers| && RunEnabled(s, w, r)
    ensures TableMove(s.table, RunNext(s, w, r).table, false, g, false)
  {
    RunLeavesRegistry(s, w, r);
    UntouchedTable(s.table, g);
  }

  lemma EnvKeeps(s: State, e: EnvAction, g: nat)
    requires RegistryInv(s) && EnvEnabled(s, e)
    ensures TableMove(s.table, EnvNext(s, e).table, false, g, false)
  {
    UntouchedTable(s.table, g);
  }

  lemma NonHandling(s: State, w: nat, i: IdleAction)
    requires w < |s.workers| && IdleEnabled(s, w, i) && !i.HandleReady?
    ensures RegistryStands(s, IdleNext(s, w, i))
  {
  }

  /** Every step of every run keeps the registry in order, leaves a descriptor with bits the kernel does not know
      exactly when it was so before, the step closes it with bits set, or its first addition is refused; and moves
      the counter with the number of set bits, but for a refused addition. */
  lemma StepKeepsRegistry(s: State, a: Action, fd: nat)
    requires RegistryInv(s) && Enabled(s, a)
    ensures TableMove(s.table, Next(s, a).table, FailsAdd(a), fd, ClosesBusy(s, a, fd) || FailsFirst(s, a, fd))
  {
    match a
    case Env(e) => EnvKeeps(s, e, fd);
    case Run(w, r) => RunKeeps(s, w, r, fd);
    case Idle(w, i) => IdleKeeps(s, w, i, fd);
    case Code(w, c) => CodeKeeps(s, w, c, fd);
  }

  // ---- the bits behind which a fiber waits ----

  /** Clearing bits takes one waiter for each of them that is not of a refused addition. */
  lemma LiveCleared(slots: map<Key, nat>, refused: set<Key>, fd: nat, evs: set<Event>)
    requires evs <= EventsOf(slots, fd)
    ensures var gone := KeysOf(fd, evs);
            |slots - gone - (refused - gone)| == |slots - refused| - |evs| + |gone * refused|
  {
    var gone := KeysOf(fd, evs);
    KeysOfSize(fd, evs);
    forall k | k in gone ensures k in slots {
      assert k.ev in EventsOf(slots, fd);
    }
    LiveRemoved(slots, refused, gone);
  }

  lemma LiveRemoved(slots: map<Key, nat>, refused: set<Key>, gone: set<Key>)
    requires gone <= slots.Keys
    ensures |slots - gone - (refused - gone)| == |slots - refused| - |gone| + |gone * refused|
  {
    RemovedEitherWay(slots, refused, gone);
    RemovalSize(slots - refused, gone - refused);
    assert |gone - refused| == |gone| - |gone * refused|;
  }

  lemma RemovedEitherWay(slots: map<Key, nat>, refused: set<Key>, gone: set<Key>)
    ensures slots - gone - (refused - gone) == slots - refused - (gone - refused)
  {
  }

  lemma LiveAdded(slots: map<Key, nat>, refused: set<Key>, k: Key, f: nat)
    requires k !in slots
    ensures slots[k := f] - (refused - {k}) == (slots - refused)[k := f]
    ensures slots[k := f] - (refused + {k}) == slots - refused
  {
  }

  /** A trigger of several bits takes them out of the refused ones, and misleads exactly if there was one. */
  lemma TriggerAllRefused(s: State, fd: nat, evs: set<Event>, table: Table<nat>)
    requires evs <= EventsOf(s.table.slots, fd)
    ensures var t := TriggerAll(s, fd, evs, table);
            && (t.misled <==> s.misled || KeysOf(fd, evs) * s.refused != {})
            && t.refused == s.refused - KeysOf(fd, evs)
  {
    var r, w := Key(fd, READ), Key(fd, WRITE);
    assert (READ in evs ==> r in s.table.slots) && (WRITE in evs ==> w in s.table.slots);
    OneTriggerRefused(s, READ in evs, r);
    OneTriggerRefused(TriggerIf(s, READ in evs, r), WRITE in evs, w);
    TwoKeys(s.refused, fd, evs);
  }

  lemma OneTriggerRefused(s: State, wanted: bool, k: Key)
    requires wanted ==> k in s.table.slots
    ensures var t := TriggerIf(s, wanted, k);
            && (t.misled <==> s.misled || (wanted && k in s.refused))
            && t.refused == (if wanted then s.refused - {k} else s.refused)
            && (forall j :: j != k && j in s.table.slots ==> j in t.table.slots)
  {
  }

  lemma TwoKeys(refused: set<Key>, fd: nat, evs: set<Event>)
    ensures var r, w := Key(fd, READ), Key(fd, WRITE);
            && (KeysOf(fd, evs) * refused != {} <==> (READ in evs && r in refused) || (WRITE in evs && w in refused))
            && refused - KeysOf(fd, evs)
               == refused - (if READ in evs then {r} else {}) - (if WRITE in evs then {w} else {})
  {
    var r, w := Key(fd, READ), Key(fd, WRITE);
    forall k ensures k in KeysOf(fd, evs) <==> (READ in evs && k == r) || (WRITE in evs && k == w) {
      assert k.ev == READ || k.ev == WRITE;
    }
    if k :| k in KeysOf(fd, evs) * refused {
      assert k == r || k == w;
    }
    if READ in evs && r in refused {
      assert r in KeysOf(fd, evs) * refused;
    }
    if WRITE in evs && w in refused {
      assert w in KeysOf(fd, evs) * refused;
    }
  }

  /** One clearing of bits. */
  lemma ClearingCounts(s: State, t: State, fd: nat, evs: set<Event>)
    requires LiveCounted(s) && evs <= EventsOf(s.table.slots, fd) && t.table == Clear(s.table, fd, evs)
    requires t.refused == s.refused - KeysOf(fd, evs) && (t.misled <==> s.misled || KeysOf(fd, evs) * s.refused != {})
    ensures LiveCounted(t)
  {
    LiveCleared(s.table.slots, s.refused, fd, evs);
    assert Live(t) == s.table.slots - KeysOf(fd, evs) - t.refused;
  }

  lemma ReadyCounts(s: State, w: nat, ok: bool)
    requires LiveCounted(s) && w < |s.workers| && IdleEnabled(s, w, HandleReady(ok))
    ensures LiveCounted(ReadyStep(s, w, ok))
  {
    var fd := s.workers[w].reports[0].fd;
    var evs := if Hit(s, w) * EventsOf(s.table.slots, fd) != {} && ok then Hit(s, w) else {};
    TriggeringCounts(s, fd, evs, Ready(s.table, fd, Hit(s, w), ok));
  }

  /** What triggers several bits leaves the table as it clears them. */
  lemma TriggeringCounts(s: State, fd: nat, evs: set<Event>, table: Table<nat>)
    requires LiveCounted(s) && evs <= EventsOf(s.table.slots, fd)
    requires table == if evs == {} then s.table else Clear(s.table, fd, evs)
    ensures LiveCounted(TriggerAll(s, fd, evs, table))
  {
    TriggerAllRefused(s, fd, evs, table);
    if evs != {} {
      ClearingCounts(s, TriggerAll(s, fd, evs, table), fd, evs);
    } else {
      assert KeysOf(fd, evs) == {};
    }
  }

  lemma CloseEventsCounts(s: State, w: nat, fd: nat, ok: bool)
    requires LiveCounted(s) && Runs(s, w) && CodeEnabled(s, w, CloseEvents(fd, ok))
    ensures LiveCounted(CloseEventsStep(s, w, fd, ok))
  {
    var evs := if ok then EventsOf(s.table.slots, fd) else {};
    TriggeringCounts(SetFiberPc(s, Cur(s, w), Closing(fd)), fd, evs, CancelAll(s.table, fd, ok));
  }

  lemma CancelEventCounts(s: State, w: nat, ok: bool)
    requires LiveCounted(s) && Runs(s, w) && CodeEnabled(s, w, CancelEvent(ok))
    ensures LiveCounted(CancelEventStep(s, w, ok))
  {
    var k := s.calls[CurPc(s, w).c].key;
    CancelTriggers(s, w, ok, k);
    OneBit(s.table.slots, k);
    if k in s.table.slots && ok {
      ClearingCounts(s, CancelEventStep(s, w, ok), k.fd, {k.ev});
    }
  }

  lemma CancelTriggers(s: State, w: nat, ok: bool, k: Key)
    requires Runs(s, w) && CodeEnabled(s, w, CancelEvent(ok)) && k == s.calls[CurPc(s, w).c].key
    ensures var t := CancelEventStep(s, w, ok); var hit := ok && k in s.table.slots;
            && (!hit ==> RegistryStands(s, t))
            && (hit ==> t.table == Clear(s.table, k.fd, {k.ev}) && t.refused == s.refused - KeysOf(k.fd, {k.ev})
                        && (t.misled <==> s.misled || KeysOf(k.fd, {k.ev}) * s.refused != {}))
  {
    assert KeysOf(k.fd, {k.ev}) == {k};
    if k in s.refused {
      assert k in {k} * s.refused;
    }
    OneBit(s.table.slots, k);
  }

  lemma AddEventCounts(s: State, w: nat, ok: bool)
    requires LiveCounted(s) && Runs(s, w) && CodeEnabled(s, w, AddEvent(ok))
    ensures LiveCounted(AddEventStep(s, w, ok))
  {
    LiveAdded(s.table.slots, s.refused, s.calls[CurPc(s, w).c].key, Cur(s, w));
  }

  lemma UntouchedCount(s: State, t: State)
    requires LiveCounted(s) && RegistryStands(s, t)
    ensures LiveCounted(t)
  {
  }

  lemma CodeCounts(s: State, w: nat, c: CodeAction)
    requires LiveCounted(s) && Runs(s, w) && CodeEnabled(s, w, c)
    ensures LiveCounted(CodeNext(s, w, c))
  {
    match c
    case AddEvent(ok) => AddEventCounts(s, w, ok);
    case CloseEvents(fd, ok) => CloseEventsCounts(s, w, fd, ok);
    case CancelEvent(ok) => CancelEventCounts(s, w, ok);
    case CloseFd =>
    case _ =>
      CodeLeavesRegistry(s, w, c);
      UntouchedCount(s, CodeNext(s, w, c));
  }

  /** Every step of every run keeps the counter equal to the number of bits behind which a fiber waits exactly as long
      as no fiber of a refused addition has been scheduled, and below it afterwards. */
  lemma StepKeepsLiveCount(s: State, a: Action)
    requires LiveCounted(s) && Enabled(s, a)
    ensures LiveCounted(Next(s, a))
  {
    match a
    case Env(e) => UntouchedCount(s, EnvNext(s, e));
    case Run(w, r) =>
      RunLeavesRegistry(s, w, r);
      UntouchedCount(s, RunNext(s, w, r));
    case Idle(w, i) => IdleCounts(s, w, i);
    case Code(w, c) => CodeCounts(s, w, c);
  }

  lemma IdleCounts(s: State, w: nat, i: IdleAction)
    requires LiveCounted(s) && w < |s.workers| && IdleEnabled(s, w, i)
    ensures LiveCounted(IdleNext(s, w, i))
  {
    if i.HandleReady? {
      ReadyCounts(s, w, i.ok);
    } else {
      NonHandling(s, w, i);
      UntouchedCount(s, IdleNext(s, w, i));
    }
  }
}
