/** Whole runs of the event registry: any sequence of operations, with `epoll_ctl` succeeding or failing each time. */
module RegistryRuns {
  import opened Common
  import opened EventTable

  datatype Step<W> =
    | AddOne(k: Key, w: W, isCallback: bool, ok: bool)
    | DeleteOne(k: Key, ok: bool)
    | CancelOne(k: Key, ok: bool)
    | CancelWhole(fd: nat, ok: bool)
    | HandleReport(fd: nat, reported: set<Event>, error: bool, ok: bool)

  /** A waiter went behind its bit (`ok`: the kernel agreed), or left it, woken or not. */
  datatype Entry<W> = Added(k: Key, w: W, ok: bool) | Left(k: Key, w: W, woken: bool)

  /** What the program asserts on the way. */
  predicate Permitted<W>(t: Table<W>, s: Step<W>) {
    match s
    case AddOne(k, _, _, _) => k !in t.slots && k !in t.callbacks
    case HandleReport(fd, reported, error, ok) => ReadyDefined(t, fd, RealEvents(t, fd, reported, error), ok)
    case _ => true
  }

  function Next<W>(t: Table<W>, s: Step<W>): Table<W>
    requires Permitted(t, s)
  {
    match s
    case AddOne(k, w, isCallback, ok) => Add(t, k, w, isCallback, ok)
    case DeleteOne(k, ok) => Delete(t, k, ok)
    case CancelOne(k, ok) => Cancel(t, k, ok)
    case CancelWhole(fd, ok) => CancelAll(t, fd, ok)
    case HandleReport(fd, reported, error, ok) => Ready(t, fd, RealEvents(t, fd, reported, error), ok)
  }

  function FdOf<W>(s: Step<W>): nat {
    match s
    case AddOne(k, _, _, _) => k.fd
    case DeleteOne(k, _) => k.fd
    case CancelOne(k, _) => k.fd
    case CancelWhole(fd, _) => fd
    case HandleReport(fd, _, _, _) => fd
  }

  /** The set bits a step wants to clear. */
  function Clearing<W>(t: Table<W>, s: Step<W>): (evs: set<Event>)
    requires Permitted(t, s)
    ensures evs <= EventsOf(t.slots, FdOf(s))
  {
    match s
    case AddOne(_, _, _, _) => {}
    case DeleteOne(k, _) => {k.ev} * EventsOf(t.slots, k.fd)
    case CancelOne(k, _) => {k.ev} * EventsOf(t.slots, k.fd)
    case CancelWhole(fd, _) => EventsOf(t.slots, fd)
    case HandleReport(fd, reported, error, _) => RealEvents(t, fd, reported, error) * EventsOf(t.slots, fd)
  }

  /** The `epoll_ctl` operation a step issues, if any. */
  function Command<W>(t: Table<W>, s: Step<W>): Option<CtlOp>
    requires Permitted(t, s)
  {
    if s.AddOne? then Some(AddOp(t, s.k.fd))
    else if Clearing(t, s) == {} then None
    else Some(LeaveOp(EventsOf(t.slots, FdOf(s)) - Clearing(t, s)))
  }

  function Leaves<W>(slots: map<Key, W>, fd: nat, evs: set<Event>, woken: bool): seq<Entry<W>>
    requires evs <= EventsOf(slots, fd)
  {
    (if READ in evs then [Left(Key(fd, READ), slots[Key(fd, READ)], woken)] else [])
    + (if WRITE in evs then [Left(Key(fd, WRITE), slots[Key(fd, WRITE)], woken)] else [])
  }

  function Entries<W>(t: Table<W>, s: Step<W>): seq<Entry<W>>
    requires Permitted(t, s)
  {
    if s.AddOne? then [Added(s.k, s.w, s.ok)]
    else if s.ok then Leaves(t.slots, FdOf(s), Clearing(t, s), !s.DeleteOne?)
    else []
  }

  /** The waiters the program schedules, in order. */
  function WokenIn<W>(log: seq<Entry<W>>): seq<W> {
    if log == [] then []
    else (if log[0].Left? && log[0].woken then [log[0].w] else []) + WokenIn(log[1..])
  }

  /** The history of one key: waiters come and go in turn, each leaving is of the waiter that came last, and `now`
      is the one there at the end. */
  ghost predicate TakesTurns<W(!new)>(log: seq<Entry<W>>, k: Key, now: Option<W>)
    decreases |log|
  {
    if log == [] then now == None
    else
      var last := log[|log| - 1];
      var before := log[..|log| - 1];
      if last.k != k then TakesTurns(before, k, now)
      else if last.Added? then now == Some(last.w) && TakesTurns(before, k, None)
      else now == None && TakesTurns(before, k, Some(last.w))
  }

  function Waiter<W>(slots: map<Key, W>, k: Key): Option<W> {
    if k in slots then Some(slots[k]) else None
  }

  ghost predicate AllTakeTurns<W(!new)>(log: seq<Entry<W>>, slots: map<Key, W>) {
    forall k :: TakesTurns(log, k, Waiter(slots, k))
  }

  /** Successful additions minus departures. */
  function Balance<W>(log: seq<Entry<W>>): int {
    if log == [] then 0
    else Balance(log[..|log| - 1]) + match log[|log| - 1] { case Added(_, _, ok) => (if ok then 1 else 0) case Left(_, _, _) => -1 }
  }

  function FailedAdds<W>(log: seq<Entry<W>>): nat {
    if log == [] then 0
    else FailedAdds(log[..|log| - 1]) + if log[|log| - 1].Added? && !log[|log| - 1].ok then 1 else 0
  }

  ghost predicate Conserved<W(!new)>(t: Table<W>, log: seq<Entry<W>>) {
    && AllTakeTurns(log, t.slots)
    && t.pending == Balance(log)
    && t.pending == |t.slots| - FailedAdds(log)
    && (FailedAdds(log) == 0 ==> Consistent(t))
  }

  // ---- one step ----

  /** Every step but an addition is nothing at all or clears exactly the bits it wants to clear. */
  lemma StepClears<W>(t: Table<W>, s: Step<W>)
    requires Permitted(t, s) && !s.AddOne?
    ensures var evs := Clearing(t, s);
            var t' := if !s.ok || evs == {} then t else Clear(t, FdOf(s), evs);
            Next(t, s) == t'.(callbacks := Next(t, s).callbacks)
  {
    match s
    case DeleteOne(k, ok) => OneBit(t, k);
    case CancelOne(k, ok) => OneBit(t, k);
    case CancelWhole(fd, ok) =>
    case HandleReport(fd, reported, error, ok) =>
      var hit := RealEvents(t, fd, reported, error);
      if hit <= EventsOf(t.slots, fd) {
        assert hit * EventsOf(t.slots, fd) == hit;
      }
  }

  lemma OneBit<W>(t: Table<W>, k: Key)
    ensures {k.ev} * EventsOf(t.slots, k.fd) == if k in t.slots then {k.ev} else {}
  {
  }

  lemma Append<W(!new)>(log: seq<Entry<W>>, e: Entry<W>)
    ensures (log + [e])[..|log + [e]| - 1] == log
    ensures Balance(log + [e]) == Balance(log) + match e { case Added(_, _, ok) => (if ok then 1 else 0) case Left(_, _, _) => -1 }
    ensures FailedAdds(log + [e]) == FailedAdds(log) + if e.Added? && !e.ok then 1 else 0
    ensures forall k, now :: TakesTurns(log + [e], k, now) <==>
              if e.k != k then TakesTurns(log, k, now)
              else if e.Added? then now == Some(e.w) && TakesTurns(log, k, None)
              else now == None && TakesTurns(log, k, Some(e.w))
  {
    assert (log + [e])[..|log + [e]| - 1] == log;
  }

  lemma LeavingOne<W(!new)>(log: seq<Entry<W>>, slots: map<Key, W>, k: Key, woken: bool)
    requires k in slots && AllTakeTurns(log, slots)
    ensures var log' := log + [Left(k, slots[k], woken)];
            AllTakeTurns(log', slots - {k}) && Balance(log') == Balance(log) - 1 && FailedAdds(log') == FailedAdds(log)
  {
    Append(log, Left(k, slots[k], woken));
    forall j ensures TakesTurns(log + [Left(k, slots[k], woken)], j, Waiter(slots - {k}, j)) {
      assert TakesTurns(log, j, Waiter(slots, j));
    }
  }

  lemma Leaving<W(!new)>(log: seq<Entry<W>>, slots: map<Key, W>, fd: nat, evs: set<Event>, woken: bool)
    requires evs <= EventsOf(slots, fd) && AllTakeTurns(log, slots)
    ensures var log' := log + Leaves(slots, fd, evs, woken);
            && AllTakeTurns(log', slots - KeysOf(fd, evs))
            && Balance(log') == Balance(log) - |evs| && FailedAdds(log') == FailedAdds(log)
  {
    ReadThenWrite(slots, fd, evs);
    EventCount(evs);
    var r := if READ in evs then [Left(Key(fd, READ), slots[Key(fd, READ)], woken)] else [];
    var slots1 := if READ in evs then slots - {Key(fd, READ)} else slots;
    if READ in evs {
      LeavingOne(log, slots, Key(fd, READ), woken);
    } else {
      assert log + r == log;
    }
    if WRITE in evs {
      LeavingOne(log + r, slots1, Key(fd, WRITE), woken);
      assert log + Leaves(slots, fd, evs, woken) == log + r + [Left(Key(fd, WRITE), slots[Key(fd, WRITE)], woken)];
    } else {
      assert Leaves(slots, fd, evs, woken) == r;
    }
  }

  lemma AddConserves<W(!new)>(t: Table<W>, log: seq<Entry<W>>, s: Step<W>)
    requires Conserved(t, log) && Permitted(t, s) && s.AddOne?
    ensures Conserved(Next(t, s), log + Entries(t, s))
  {
    Append(log, Added(s.k, s.w, s.ok));
    AddedKeys(t.slots, s.k, s.w);
    forall k ensures TakesTurns(log + Entries(t, s), k, Waiter(Next(t, s).slots, k)) {
      assert TakesTurns(log, k, Waiter(t.slots, k));
    }
    if FailedAdds(log) == 0 {
      AddKeepsConsistentIffOk(t, s.k, s.w, s.isCallback, s.ok);
    }
  }

  /** The slot kinds play no part. */
  lemma SameForConserved<W(!new)>(t: Table<W>, u: Table<W>, log: seq<Entry<W>>)
    requires Conserved(t, log) && u.slots == t.slots && u.interest == t.interest && u.pending == t.pending
    ensures Conserved(u, log)
  {
    forall fd ensures Orphan(u, fd) <==> Orphan(t, fd) {
    }
  }

  lemma BitsConserved<W(!new)>(t: Table<W>, log: seq<Entry<W>>, fd: nat, evs: set<Event>, woken: bool)
    requires Conserved(t, log) && evs != {} && evs <= EventsOf(t.slots, fd)
    ensures Conserved(Clear(t, fd, evs), log + Leaves(t.slots, fd, evs, woken))
  {
    Leaving(log, t.slots, fd, evs, woken);
    ClearSize(t, fd, evs);
    if FailedAdds(log) == 0 {
      ClearKeepsConsistent(t, fd, evs);
    }
  }

  lemma ClearConserves<W(!new)>(t: Table<W>, log: seq<Entry<W>>, s: Step<W>)
    requires Conserved(t, log) && Permitted(t, s) && !s.AddOne?
    ensures Conserved(Next(t, s), log + Entries(t, s))
  {
    StepClears(t, s);
    var fd, evs := FdOf(s), Clearing(t, s);
    if !s.ok || evs == {} {
      assert log + Entries(t, s) == log;
      SameForConserved(t, Next(t, s), log);
    } else {
      BitsConserved(t, log, fd, evs, !s.DeleteOne?);
      SameForConserved(Clear(t, fd, evs), Next(t, s), log + Entries(t, s));
    }
  }

  /** While the mirror is intact, every operation issued is one the kernel accepts. */
  lemma CommandsAcceptable<W>(t: Table<W>, s: Step<W>)
    requires Consistent(t) && Permitted(t, s) && Command(t, s).Some?
    ensures KernelAccepts(t.interest, Command(t, s).value, FdOf(s))
  {
    if s.AddOne? {
      AddKeepsConsistentIffOk(t, s.k, s.w, s.isCallback, s.ok);
    } else {
      ClearKeepsConsistent(t, FdOf(s), Clearing(t, s));
    }
  }

  lemma {:induction false} WokenInBoth<W>(a: seq<Entry<W>>, b: seq<Entry<W>>)
    ensures WokenIn(a + b) == WokenIn(a) + WokenIn(b)
  {
    if a == [] {
      assert a + b == b;
    } else {
      assert (a + b)[1..] == a[1..] + b;
      WokenInBoth(a[1..], b);
    }
  }

  lemma LeavesAreWoken<W>(slots: map<Key, W>, fd: nat, evs: set<Event>)
    requires evs <= EventsOf(slots, fd)
    ensures WokenIn(Leaves(slots, fd, evs, true)) == Woken(slots, fd, evs)
  {
    var r := if READ in evs then [Left(Key(fd, READ), slots[Key(fd, READ)], true)] else [];
    var w := if WRITE in evs then [Left(Key(fd, WRITE), slots[Key(fd, WRITE)], true)] else [];
    WokenInBoth(r, w);
    assert r != [] ==> r[1..] == [];
    assert w != [] ==> w[1..] == [];
  }

  // ---- runs ----

  predicate PermittedRun<W>(t: Table<W>, run: seq<Step<W>>)
    decreases |run|
  {
    run == [] || (Permitted(t, run[0]) && PermittedRun(Next(t, run[0]), run[1..]))
  }

  function After<W>(t: Table<W>, run: seq<Step<W>>): Table<W>
    requires PermittedRun(t, run)
    decreases |run|
  {
    if run == [] then t else After(Next(t, run[0]), run[1..])
  }

  function LogOf<W>(t: Table<W>, run: seq<Step<W>>): seq<Entry<W>>
    requires PermittedRun(t, run)
    decreases |run|
  {
    if run == [] then [] else Entries(t, run[0]) + LogOf(Next(t, run[0]), run[1..])
  }

  lemma StepConserves<W(!new)>(t: Table<W>, log: seq<Entry<W>>, s: Step<W>)
    requires Conserved(t, log) && Permitted(t, s)
    ensures Conserved(Next(t, s), log + Entries(t, s))
  {
    if s.AddOne? {
      AddConserves(t, log, s);
    } else {
      ClearConserves(t, log, s);
    }
  }

  lemma Regroup<E>(a: seq<E>, b: seq<E>, c: seq<E>)
    ensures a + (b + c) == a + b + c && a + [] == a
  {
  }

  lemma {:induction false} RunConserves<W(!new)>(t: Table<W>, log: seq<Entry<W>>, run: seq<Step<W>>)
    requires Conserved(t, log) && PermittedRun(t, run)
    ensures Conserved(After(t, run), log + LogOf(t, run))
    decreases |run|
  {
    if run == [] {
      Regroup(log, [], []);
    } else {
      StepConserves(t, log, run[0]);
      RunConserves(Next(t, run[0]), log + Entries(t, run[0]), run[1..]);
      Regroup(log, Entries(t, run[0]), LogOf(Next(t, run[0]), run[1..]));
    }
  }

  /** Conservation over every run from the empty registry, whatever the kernel answers: the waiters of each key come
      and go in turn, so each is woken or deleted at most once and is still there otherwise; the counter is the
      number of successful additions minus departures; and it falls short of the number of set bits by exactly
      the failed additions. */
  lemma EventsConserved<W(!new)>(run: seq<Step<W>>)
    requires PermittedRun(EmptyTable(), run)
    ensures var t := After(EmptyTable(), run); var log := LogOf(EmptyTable(), run);
            && AllTakeTurns(log, t.slots)
            && t.pending == Balance(log) && t.pending == |t.slots| - FailedAdds(log)
  {
    EmptyConserved<W>();
    RunConserves(EmptyTable(), [], run);
    assert [] + LogOf(EmptyTable(), run) == LogOf(EmptyTable(), run);
  }

  lemma EmptyConserved<W(!new)>()
    ensures Conserved<W>(EmptyTable(), [])
  {
  }

  /** The registry mirrors the kernel after a run exactly when no addition of the run failed. */
  lemma MirrorIffNoFailedAdd<W(!new)>(run: seq<Step<W>>)
    requires PermittedRun(EmptyTable(), run)
    ensures Consistent(After(EmptyTable(), run)) <==> FailedAdds(LogOf(EmptyTable(), run)) == 0
  {
    EmptyConserved<W>();
    RunConserves(EmptyTable(), [], run);
    assert [] + LogOf(EmptyTable(), run) == LogOf(EmptyTable(), run);
  }

  // ---- failed additions ----

  /** A kernel that refuses MOD and DEL for descriptors it does not know, and ADD for those it does. */
  ghost predicate KernelAnswers<W>(t: Table<W>, run: seq<Step<W>>)
    requires PermittedRun(t, run)
    decreases |run|
  {
    run == [] || (Answered(t, run[0]) && KernelAnswers(Next(t, run[0]), run[1..]))
  }

  predicate Answered<W>(t: Table<W>, s: Step<W>)
    requires Permitted(t, s)
  {
    s.ok && Command(t, s).Some? ==> KernelAccepts(t.interest, Command(t, s).value, FdOf(s))
  }

  /** The kernel knows only descriptors with set bits. */
  ghost predicate Known<W>(t: Table<W>) {
    forall fd :: fd in t.interest ==> EventsOf(t.slots, fd) != {}
  }

  /** An addition on a descriptor without bits that the kernel refuses. */
  predicate FailsFirst<W>(t: Table<W>, s: Step<W>, fd: nat) {
    s.AddOne? && s.k.fd == fd && !s.ok && EventsOf(t.slots, fd) == {}
  }

  ghost predicate EverFailedFirst<W>(t: Table<W>, run: seq<Step<W>>, fd: nat)
    requires PermittedRun(t, run)
    decreases |run|
  {
    run != [] && (FailsFirst(t, run[0], fd) || EverFailedFirst(Next(t, run[0]), run[1..], fd))
  }

  lemma ClearingStepKnows<W>(t: Table<W>, s: Step<W>, fd: nat)
    requires Known(t) && Permitted(t, s) && Answered(t, s) && !s.AddOne?
    ensures Known(Next(t, s))
    ensures Orphan(Next(t, s), fd) <==> Orphan(t, fd)
  {
    StepClears(t, s);
    var evs := Clearing(t, s);
    if s.ok && evs != {} {
      forall g ensures EventsOf(Next(t, s).slots, g) == EventsOf(t.slots, g) - if g == FdOf(s) then evs else {} {
        ClearedEvents(t, FdOf(s), evs, g);
      }
    }
  }

  lemma AddingStepKnows<W>(t: Table<W>, s: Step<W>, fd: nat)
    requires Known(t) && Permitted(t, s) && Answered(t, s) && s.AddOne?
    ensures Known(Next(t, s))
    ensures Orphan(Next(t, s), fd) <==> Orphan(t, fd) || FailsFirst(t, s, fd)
  {
    AddedKeys(t.slots, s.k, s.w);
    assert s.k.ev in EventsOf(Next(t, s).slots, s.k.fd);
    forall g | g != s.k.fd ensures EventsOf(Next(t, s).slots, g) == EventsOf(t.slots, g) {
    }
  }

  /** A descriptor comes to have bits that the kernel does not know exactly by a failed first addition, and then
      keeps them. */
  lemma StepOrphans<W>(t: Table<W>, s: Step<W>, fd: nat)
    requires Known(t) && Permitted(t, s) && Answered(t, s)
    ensures Known(Next(t, s))
    ensures Orphan(Next(t, s), fd) <==> Orphan(t, fd) || FailsFirst(t, s, fd)
  {
    if s.AddOne? {
      AddingStepKnows(t, s, fd);
    } else {
      ClearingStepKnows(t, s, fd);
    }
  }

  lemma {:induction false} RunOrphans<W(!new)>(t: Table<W>, run: seq<Step<W>>, fd: nat)
    requires Known(t) && PermittedRun(t, run) && KernelAnswers(t, run)
    ensures Known(After(t, run))
    ensures Orphan(After(t, run), fd) <==> Orphan(t, fd) || EverFailedFirst(t, run, fd)
    decreases |run|
  {
    if run != [] {
      StepOrphans(t, run[0], fd);
      RunOrphans(Next(t, run[0]), run[1..], fd);
    }
  }

  /** Over every run with such a kernel: the next `epoll_ctl` a step issues is one the kernel accepts exactly when no
      first addition on the descriptor has ever failed. */
  lemma CommandAcceptedIff<W(!new)>(run: seq<Step<W>>, s: Step<W>)
    requires PermittedRun(EmptyTable(), run) && KernelAnswers(EmptyTable(), run)
    requires Permitted(After(EmptyTable(), run), s) && Command(After(EmptyTable(), run), s).Some?
    ensures var t := After(EmptyTable(), run);
            KernelAccepts(t.interest, Command(t, s).value, FdOf(s)) <==> !EverFailedFirst(EmptyTable(), run, FdOf(s))
  {
    RunOrphans(EmptyTable<W>(), run, FdOf(s));
  }

  lemma OrphanKeepsWaiter<W>(t: Table<W>, s: Step<W>, k: Key)
    requires Orphan(t, k.fd) && Permitted(t, s) && Answered(t, s) && k in t.slots
    ensures k in Next(t, s).slots && Next(t, s).slots[k] == t.slots[k]
  {
    if !s.AddOne? {
      StepClears(t, s);
      if s.ok && Clearing(t, s) != {} {
        ClearedKeys(t, FdOf(s), Clearing(t, s));
      }
    }
  }

  /** From then on the waiters of the descriptor never leave, whatever is called. */
  lemma {:induction false} StuckForever<W(!new)>(t: Table<W>, run: seq<Step<W>>, k: Key)
    requires Known(t) && Orphan(t, k.fd) && PermittedRun(t, run) && KernelAnswers(t, run) && k in t.slots
    ensures k in After(t, run).slots && After(t, run).slots[k] == t.slots[k]
    decreases |run|
  {
    if run != [] {
      StepOrphans(t, run[0], k.fd);
      OrphanKeepsWaiter(t, run[0], k);
      StuckForever(Next(t, run[0]), run[1..], k);
    }
  }

  /** What the program's counter, a 64-bit unsigned number, reads. */
  function Counter<W>(t: Table<W>): nat {
    t.pending % TWO_64
  }

  /** Over every run the counter reads the number of set bits exactly when no addition has failed. */
  lemma CounterExactIff<W(!new)>(run: seq<Step<W>>)
    requires PermittedRun(EmptyTable(), run)
    requires var t := After(EmptyTable(), run);
             |t.slots| < TWO_64 && FailedAdds(LogOf(EmptyTable(), run)) < TWO_64
    ensures var t := After(EmptyTable(), run);
            Counter(t) == |t.slots| <==> FailedAdds(LogOf(EmptyTable(), run)) == 0
  {
    EventsConserved(run);
    var t := After(EmptyTable(), run);
    WrapsUnlessEqual(t.pending, |t.slots|, FailedAdds(LogOf(EmptyTable(), run)));
  }

  lemma WrapsUnlessEqual(p: int, a: nat, f: nat)
    requires p == a - f && a < TWO_64 && f < TWO_64
    ensures p % TWO_64 == a <==> f == 0
  {
    if p < 0 {
      assert p % TWO_64 == p + TWO_64;
    } else {
      assert p % TWO_64 == p;
    }
  }

  const Reader: Key := Key(3, READ)
  const Writer: Key := Key(3, WRITE)

  /** One waiter the kernel knows of and one it does not, on one descriptor. */
  const HalfKnown: Table<nat> := Table(map[Reader := 0, Writer := 1], {}, map[3 := {READ}], 1)

  lemma SecondAdditionFails(t1: Table<nat>)
    requires t1 == Add(EmptyTable(), Reader, 0, false, true)
    ensures t1.slots == map[Reader := 0] && t1.interest == map[3 := {READ}] && EventsOf(t1.slots, 3) == {READ}
    ensures Add(t1, Writer, 1, false, false) == HalfKnown
  {
    AddedKeys(map[], Reader, 0);
  }

  lemma BothCancelled()
    ensures EventsOf(HalfKnown.slots, 3) == {READ, WRITE}
    ensures CancelAll(HalfKnown, 3, true) == Table(map[], {}, map[], -1)
  {
    assert Reader in HalfKnown.slots && Writer in HalfKnown.slots;
    forall e: Event ensures e in EventsOf(HalfKnown.slots, 3) {
      assert e == READ || e == WRITE;
    }
    assert EventsOf(HalfKnown.slots, 3) == {READ, WRITE};
    assert KeysOf(3, {READ, WRITE}) == {Reader, Writer};
  }

  /** A failed second addition, and then both bits cancelled: the counter has wrapped below zero, and reads other than
      zero although nothing is pending. */
  lemma CounterWraps() returns (run: seq<Step<nat>>)
    ensures PermittedRun(EmptyTable(), run) && KernelAnswers(EmptyTable(), run)
    ensures After(EmptyTable(), run).slots == map[] && Counter(After(EmptyTable(), run)) == TWO_64 - 1
  {
    var t1 := Add(EmptyTable(), Reader, 0, false, true);
    SecondAdditionFails(t1);
    BothCancelled();
    var last := [CancelWhole(3, true)];
    assert last[1..] == [];
    var two := [AddOne(Writer, 1, false, false)] + last;
    assert two[1..] == last;
    run := [AddOne(Reader, 0, false, true)] + two;
    assert run[1..] == two;
    assert After(HalfKnown, last) == Table(map[], {}, map[], -1);
    assert After(t1, two) == Table(map[], {}, map[], -1);
  }

  // ---- the slot assertion of addEvent ----

  /** The step leaves a callback, maybe an empty one, in the slot of `k`. */
  predicate LeavesCallback<W>(t: Table<W>, s: Step<W>, k: Key) {
    || (s.AddOne? && s.k == k && s.isCallback)
    || (s.DeleteOne? && s.k == k && s.ok && k in t.slots)
  }

  ghost predicate EverCallback<W>(t: Table<W>, run: seq<Step<W>>, k: Key)
    requires PermittedRun(t, run)
    decreases |run|
  {
    run != [] && (LeavesCallback(t, run[0], k) || EverCallback(Next(t, run[0]), run[1..], k))
  }

  lemma {:induction false} CallbackStaysIff<W(!new)>(t: Table<W>, run: seq<Step<W>>, k: Key)
    requires PermittedRun(t, run)
    ensures k in After(t, run).callbacks <==> k in t.callbacks || EverCallback(t, run, k)
    decreases |run|
  {
    if run != [] {
      assert k in Next(t, run[0]).callbacks <==> k in t.callbacks || LeavesCallback(t, run[0], k);
      CallbackStaysIff(Next(t, run[0]), run[1..], k);
    }
  }

  /** The assertions of `addEvent` hold after a run exactly when nobody waits behind the bit and the run never put a
      callback behind it nor deleted it: no trigger ever clears the slot. On fiber waits alone they always hold. */
  lemma AddAssertionsHoldIff<W(!new)>(run: seq<Step<W>>, k: Key, w: W, isCallback: bool, ok: bool)
    requires PermittedRun(EmptyTable(), run)
    ensures var t := After(EmptyTable(), run);
            Permitted(t, AddOne(k, w, isCallback, ok)) <==>
              Waiter(t.slots, k).None? && !EverCallback(EmptyTable(), run, k)
  {
    CallbackStaysIff(EmptyTable<W>(), run, k);
  }
}
