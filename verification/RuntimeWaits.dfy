/** Who waits for what: a fiber waits behind the very bit that its call of `do_io` asked for, and what clears the bit,
    readiness, timeout or close, schedules that fiber. */
module RuntimeWaits {
  import opened Common
  import opened EventTable
  import opened Runtime
  import opened RuntimeTokens
  import opened RuntimeRegistry
  import opened RuntimeInvariant
  import opened RuntimeRefused
  import opened RuntimeCalls
  import opened RuntimeOnTime

  // ---- what a step does to the bits ----

  /** The events of a descriptor that the step clears: those of a report that is neither stale nor refused, the one the
      timeout is for, all of a descriptor about to be closed. */
  function Clears(s: State, a: Action): Option<(nat, set<Event>)> {
    match a
    case Idle(w, HandleReady(ok)) =>
      if w < |s.workers| && IdleEnabled(s, w, HandleReady(ok)) && ok
         && Hit(s, w) * EventsOf(s.table.slots, s.workers[w].reports[0].fd) != {}
      then Some((s.workers[w].reports[0].fd, Hit(s, w))) else None
    case Code(w, CancelEvent(ok)) =>
      if Runs(s, w) && CodeEnabled(s, w, CancelEvent(ok)) && ok && s.calls[CurPc(s, w).c].key in s.table.slots
      then Some((s.calls[CurPc(s, w).c].key.fd, {s.calls[CurPc(s, w).c].key.ev})) else None
    case Code(w, CloseEvents(fd, ok)) => if ok then Some((fd, EventsOf(s.table.slots, fd))) else None
    case _ => None
  }

  predicate Adds(s: State, a: Action) {
    a.Code? && a.c.AddEvent? && Runs(s, a.w) && CodeEnabled(s, a.w, a.c)
  }

  /** Bits go by being cleared, and their waiters are queued, read before write; a bit comes by an addition, with the
      fiber that makes it. */
  ghost predicate BitsMove(s: State, t: State, a: Action) {
    match Clears(s, a)
    case Some((fd, evs)) =>
      && evs <= EventsOf(s.table.slots, fd) && t.table.slots == s.table.slots - KeysOf(fd, evs)
      && t.queue == s.queue + Woken(s.table.slots, fd, evs)
    case None =>
      t.table.slots == if Adds(s, a) then s.table.slots[s.calls[CurPc(s, a.w).c].key := Cur(s, a.w)] else s.table.slots
  }

  lemma TriggerAllWakes(s: State, fd: nat, evs: set<Event>, table: Table<nat>)
    requires evs <= EventsOf(s.table.slots, fd)
    ensures TriggerAll(s, fd, evs, table).queue == s.queue + Woken(s.table.slots, fd, evs)
  {
    assert READ in evs ==> Key(fd, READ) in s.table.slots;
    assert WRITE in evs ==> Key(fd, WRITE) in s.table.slots;
    OneTriggerWakes(s, READ in evs, Key(fd, READ));
    OneTriggerWakes(TriggerIf(s, READ in evs, Key(fd, READ)), WRITE in evs, Key(fd, WRITE));
  }

  lemma OneTriggerWakes(s: State, wanted: bool, k: Key)
    requires wanted ==> k in s.table.slots
    ensures var t := TriggerIf(s, wanted, k);
            && t.queue == s.queue + (if wanted then [s.table.slots[k]] else [])
            && t.table.slots == if wanted then s.table.slots - {k} else s.table.slots
  {
  }

  lemma ReadyBits(s: State, w: nat, ok: bool)
    requires w < |s.workers| && IdleEnabled(s, w, HandleReady(ok))
    ensures BitsMove(s, ReadyStep(s, w, ok), Idle(w, HandleReady(ok)))
  {
    var fd := s.workers[w].reports[0].fd;
    var evs := if Hit(s, w) * EventsOf(s.table.slots, fd) != {} && ok then Hit(s, w) else {};
    ReadySlots(s, w, ok, evs);
    TriggerAllWakes(s, fd, evs, Ready(s.table, fd, Hit(s, w), ok));
    if evs == {} {
      assert KeysOf(fd, evs) == {};
    }
  }

  lemma CloseBits(s: State, w: nat, fd: nat, ok: bool)
    requires Runs(s, w) && CodeEnabled(s, w, CloseEvents(fd, ok))
    ensures BitsMove(s, CloseEventsStep(s, w, fd, ok), Code(w, CloseEvents(fd, ok)))
  {
    var evs := if ok then EventsOf(s.table.slots, fd) else {};
    TriggerAllWakes(SetFiberPc(s, Cur(s, w), Closing(fd)), fd, evs, CancelAll(s.table, fd, ok));
    if evs == {} {
      assert KeysOf(fd, evs) == {};
    }
  }

  lemma CancelBits(s: State, w: nat, ok: bool)
    requires Runs(s, w) && CodeEnabled(s, w, CancelEvent(ok))
    ensures BitsMove(s, CancelEventStep(s, w, ok), Code(w, CancelEvent(ok)))
  {
    var k := s.calls[CurPc(s, w).c].key;
    assert KeysOf(k.fd, {k.ev}) == {k};
    OneBit(s.table.slots, k);
    assert k.ev == READ || k.ev == WRITE;
    OneTriggerWakes(SetFiberPc(s, Cur(s, w), Ending), ok && k in s.table.slots, k);
  }

  lemma CodeBits(s: State, w: nat, c: CodeAction)
    requires Runs(s, w) && CodeEnabled(s, w, c)
    ensures BitsMove(s, CodeNext(s, w, c), Code(w, c))
  {
    match c
    case CancelEvent(ok) => CancelBits(s, w, ok);
    case CloseEvents(fd, ok) => CloseBits(s, w, fd, ok);
    case AddEvent(_) =>
    case CloseFd =>
    case _ => CodeLeavesRegistry(s, w, c);
  }

  /** Every step of every run: which bits go, whose waiters are queued, and which bit comes. */
  lemma StepMovesBits(s: State, a: Action)
    requires Enabled(s, a)
    ensures BitsMove(s, Next(s, a), a)
  {
    match a
    case Env(_) =>
    case Run(w, r) => RunLeavesRegistry(s, w, r);
    case Idle(w, i) =>
      if i.HandleReady? {
        ReadyBits(s, w, i.ok);
      } else {
        NonHandling(s, w, i);
      }
    case Code(w, c) => CodeBits(s, w, c);
  }

  // ---- every waiter is behind the bit it asked for ----

  /** The fiber behind the bit waits in a call for that bit. */
  predicate AskedThere(s: State, f: nat, k: Key) {
    f < |s.fibers| && s.fibers[f].pc.Waiting? && s.fibers[f].pc.c < |s.calls| && s.calls[s.fibers[f].pc.c].key == k
  }

  ghost predicate KeysOk(s: State) {
    forall k :: k in Live(s) ==> AskedThere(s, Live(s)[k], k)
  }

  lemma StepKeepsKeys(s: State, a: Action)
    requires Inv(s) && RefusedAreSet(s) && KeysOk(s) && Enabled(s, a) && !Next(s, a).misled
    ensures KeysOk(Next(s, a))
  {
    var t := Next(s, a);
    StepKeepsInv(s, a);
    if s.misled {
      MisledStays(s, a);
    }
    StepMovesBits(s, a);
    StepMovesCalls(s, a);
    StepMovesInside(s, a);
    forall k | k in Live(t) ensures AskedThere(t, Live(t)[k], k) {
      RefusedStepIff(s, a, k);
      if k in Live(s) && Live(s)[k] == Live(t)[k] {
        StaysAsked(s, t, a, k);
      } else {
        NewlyAsked(s, a, k);
      }
    }
  }

  lemma StaysAsked(s: State, t: State, a: Action, k: Key)
    requires KeysOk(s) && TokenInv(t) && CallsMove(s, t, a) && InsideMove(s, t, a)
    requires k in Live(s) && k in Live(t) && Live(s)[k] == Live(t)[k]
    ensures AskedThere(t, Live(t)[k], k)
  {
    var f := Live(t)[k];
    assert AskedThere(s, f, k);
    var c := s.fibers[f].pc.c;
    assert OneCall(s, t, a, c);
    assert Holds(t, f, InSlot(k)) && FiberOk(t, f);
    assert InsideOf(t.fibers[f].pc) == Some(c);
  }

  /** Only an addition that succeeds puts a fiber behind a bit that was not live. */
  lemma NewlyAsked(s: State, a: Action, k: Key)
    requires RefusedAreSet(s) && Enabled(s, a) && BitsMove(s, Next(s, a), a) && RefusedMove(s, Next(s, a), a, k)
    requires k in Live(Next(s, a)) && !(k in Live(s) && Live(s)[k] == Live(Next(s, a))[k])
    ensures AskedThere(Next(s, a), Live(Next(s, a))[k], k)
  {
    var t := Next(s, a);
    assert k in t.table.slots && k !in t.refused;
    if !Adds(s, a) {
      assert false;
    }
  }

  lemma {:induction false} RunKeepsKeys(s: State, acts: seq<Action>)
    requires Inv(s) && RefusedAreSet(s) && KeysOk(s) && Legal(s, acts) && !Exec(s, acts).misled
    ensures KeysOk(Exec(s, acts))
    decreases |acts|
  {
    if acts != [] {
      var t := Next(s, acts[0]);
      StepKeepsInv(s, acts[0]);
      RunKeepsInv(t, acts[1..]);
      StepKeepsKeys(s, acts[0]);
      RefusedStepIff(s, acts[0], Key(0, READ));
      RunKeepsKeys(t, acts[1..]);
    }
  }

  /** In every reachable state while nobody is misled, a fiber that waits in `do_io` and has not been woken is behind
      exactly the bit for which its `do_io` was called. */
  lemma WaitsForWhatItAsked(n: nat, acts: seq<Action>, k: Key) returns (j: nat)
    requires Legal(Initial(n), acts) && !Exec(Initial(n), acts).misled && k in Live(Exec(Initial(n), acts))
    ensures var s := Exec(Initial(n), acts); var f := Live(s)[k];
            && f < |s.fibers| && s.fibers[f].pc.Waiting?
            && j < |acts| && Begins(StateAt(Initial(n), acts, j), acts[j], f, s.fibers[f].pc.c) && acts[j].c.key == k
  {
    var s := Exec(Initial(n), acts);
    InitialInv(n);
    RunKeepsKeys(Initial(n), acts);
    assert AskedThere(s, Live(s)[k], k);
    j := CallIsAsAsked(n, acts, Live(s)[k], s.fibers[Live(s)[k]].pc.c);
  }

  /** The fiber waits in the call, and nothing has woken it yet. */
  ghost predicate StillWaits(s: State, f: nat, c: nat) {
    f < |s.fibers| && s.fibers[f].pc.Waiting? && s.fibers[f].pc.c == c && exists k :: k in Live(s) && Live(s)[k] == f
  }

  lemma BehindItsKey(n: nat, acts: seq<Action>, f: nat, c: nat)
    requires Legal(Initial(n), acts) && !Exec(Initial(n), acts).misled && StillWaits(Exec(Initial(n), acts), f, c)
    ensures var s := Exec(Initial(n), acts);
            c < |s.calls| && s.calls[c].key in Live(s) && Live(s)[s.calls[c].key] == f
  {
    var s := Exec(Initial(n), acts);
    InitialInv(n);
    RunKeepsKeys(Initial(n), acts);
    var k :| k in Live(s) && Live(s)[k] == f;
    assert AskedThere(s, f, k);
  }

  /** The timeout of a call whose fiber still waits schedules that fiber, and no other. */
  lemma TimeoutWakesItsCall(n: nat, acts: seq<Action>, w: nat, f: nat, c: nat)
    requires Legal(Initial(n), acts) && !Exec(Initial(n), acts).misled
    requires Enabled(Exec(Initial(n), acts), Code(w, CancelEvent(true)))
    requires CurPc(Exec(Initial(n), acts), w) == Cancelling(c) && StillWaits(Exec(Initial(n), acts), f, c)
    ensures Next(Exec(Initial(n), acts), Code(w, CancelEvent(true))).queue == Exec(Initial(n), acts).queue + [f]
  {
    var s := Exec(Initial(n), acts);
    BehindItsKey(n, acts, f, c);
    StepMovesBits(s, Code(w, CancelEvent(true)));
    assert s.calls[c].key.ev == READ || s.calls[c].key.ev == WRITE;
  }

  /** A report that is neither stale nor refused schedules every fiber that still waits in a call for what is reported. */
  lemma ReadinessWakesWhoAsked(n: nat, acts: seq<Action>, w: nat, f: nat, c: nat)
    requires Legal(Initial(n), acts) && !Exec(Initial(n), acts).misled && StillWaits(Exec(Initial(n), acts), f, c)
    requires Enabled(Exec(Initial(n), acts), Idle(w, HandleReady(true))) && c < |Exec(Initial(n), acts).calls|
    requires var s := Exec(Initial(n), acts); var k := s.calls[c].key; var r := s.workers[w].reports[0];
             k.fd == r.fd && (k.ev in r.ready || r.error)
    ensures f in Next(Exec(Initial(n), acts), Idle(w, HandleReady(true))).queue
  {
    var s := Exec(Initial(n), acts);
    BehindItsKey(n, acts, f, c);
    StepMovesBits(s, Idle(w, HandleReady(true)));
    var k := s.calls[c].key;
    assert k.ev in EventsOf(s.table.slots, k.fd) && k.ev in Hit(s, w);
    assert f in Woken(s.table.slots, k.fd, Hit(s, w)) by {
      assert k.ev == READ || k.ev == WRITE;
    }
  }
}
