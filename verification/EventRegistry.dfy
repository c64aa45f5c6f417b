/** The event registry as the program keeps it: contexts updated in place, one per file descriptor, proved against
    the table they stand for. `accepted` says whether `epoll_ctl` succeeds. */
module EventRegistry {
  import opened Common
  import opened EventTable
  import RegistryRuns

  /** `std::variant<FiberRef, std::function>`; a new context holds the first alternative, empty. */
  datatype Slot = FiberSlot(fiber: Option<nat>) | CallbackSlot(callback: Option<nat>)

  class FdContext {
    const fd: nat
    var events: set<Event>
    var read: Slot
    var write: Slot

    constructor (fd: nat)
      ensures this.fd == fd && events == {} && read == FiberSlot(None) && write == FiberSlot(None)
    {
      this.fd, events, read, write := fd, {}, FiberSlot(None), FiberSlot(None);
    }

    function GetContext(ev: Event): Slot
      reads this
    {
      match ev
      case READ => read
      case WRITE => write
    }

    /** What the slots of some events hold, read before write. */
    function Slots(evs: set<Event>): seq<Slot>
      reads this
    {
      (if READ in evs then [read] else []) + if WRITE in evs then [write] else []
    }

    method SetContext(ev: Event, s: Slot)
      modifies this`read, this`write
      ensures GetContext(ev) == s && forall e: Event :: e != ev ==> GetContext(e) == old(GetContext(e))
    {
      match ev
      case READ => read := s;
      case WRITE => write := s;
    }

    /** The bit and the slot of `e` are as the table has them. */
    ghost predicate Shows(slots: map<Key, Slot>, callbacks: set<Key>, e: Event)
      reads this
    {
      && (Key(fd, e) in slots <==> e in events)
      && (e in events ==> slots[Key(fd, e)] == GetContext(e))
      && (Key(fd, e) in callbacks <==> GetContext(e).CallbackSlot?)
    }
  }

  /** One entry of the idle loop's event buffer, and whether the kernel accepts what its handling asks for. */
  datatype Answered = Answered(report: Report, accepted: bool)

  function Reports(buffer: seq<Answered>): seq<RegistryRuns.Step<Slot>> {
    if buffer == [] then []
    else
      match buffer[0].report
      case FromPipe => Reports(buffer[1..])
      case FromFd(fd, ready, error) =>
        [RegistryRuns.HandleReport(fd, ready, error, buffer[0].accepted)] + Reports(buffer[1..])
  }

  class Registry {
    var ctxs: seq<FdContext>
    /** A 64-bit unsigned counter. */
    var pending: nat
    /** What the kernel was last told about each descriptor. */
    var interest: map<nat, set<Event>>
    /** What was handed to `schedule`, in order. */
    var scheduled: seq<Slot>
    ghost var table: Table<Slot>

    constructor ()
      ensures Valid() && table == EmptyTable() && scheduled == [] && |ctxs| == 32
    {
      ctxs, pending, interest, scheduled, table := [], 0, map[], [], EmptyTable();
      new;
      ContextResize(32);
    }

    ghost predicate Mirrored()
      reads this, ctxs
    {
      && (forall i :: 0 <= i < |ctxs| ==> ctxs[i].fd == i)
      && (forall i, e: Event :: 0 <= i < |ctxs| ==> ctxs[i].Shows(table.slots, table.callbacks, e))
      && (forall k: Key :: k in table.slots || k in table.callbacks ==> k.fd < |ctxs|)
      && table.interest == interest && pending == table.pending % TWO_64
    }

    ghost predicate Valid()
      reads this, ctxs
    {
      32 <= |ctxs| && Mirrored()
    }

    lemma BitsAre(fd: nat)
      requires Mirrored()
      ensures EventsOf(table.slots, fd) == if fd < |ctxs| then ctxs[fd].events else {}
    {
      if fd < |ctxs| {
        forall e: Event ensures e in EventsOf(table.slots, fd) <==> e in ctxs[fd].events {
          assert ctxs[fd].Shows(table.slots, table.callbacks, e);
        }
      }
    }

    lemma SlotsAre(fd: nat, evs: set<Event>)
      requires Mirrored() && fd < |ctxs| && evs <= ctxs[fd].events
      ensures evs <= EventsOf(table.slots, fd) && Woken(table.slots, fd, evs) == ctxs[fd].Slots(evs)
    {
      BitsAre(fd);
      assert ctxs[fd].Shows(table.slots, table.callbacks, READ) && ctxs[fd].Shows(table.slots, table.callbacks, WRITE);
    }

    /** `contextResize` on a vector that grows: every new place gets a context of its own. */
    method ContextResize(size: nat)
      requires Mirrored() && |ctxs| <= size
      modifies this`ctxs
      ensures Mirrored() && |ctxs| == size && old(ctxs) <= ctxs
      ensures forall i :: old(|ctxs|) <= i < size ==> fresh(ctxs[i])
    {
      while |ctxs| < size
        invariant Mirrored() && old(|ctxs|) <= |ctxs| <= size && old(ctxs) <= ctxs
        invariant forall i :: old(|ctxs|) <= i < |ctxs| ==> fresh(ctxs[i])
      {
        var c := new FdContext(|ctxs|);
        ctxs := ctxs + [c];
      }
    }

    /** A successful `epoll_ctl`. */
    method Control(op: CtlOp, fd: nat, mask: set<Event>)
      requires Valid()
      modifies this`interest, this`table
      ensures Valid() && table == old(table).(interest := Ctl(old(table).interest, op, fd, mask))
    {
      interest := Ctl(interest, op, fd, mask);
      table := table.(interest := interest);
    }

    /** Sets the bit and fills the slot. */
    method Occupy(fd: nat, ev: Event, s: Slot)
      requires Valid() && fd < |ctxs|
      requires Key(fd, ev) !in table.callbacks
      modifies this`table, ctxs[fd]
      ensures Valid() && table == old(table).(
                slots := old(table).slots[Key(fd, ev) := s],
                callbacks := if s.CallbackSlot? then old(table).callbacks + {Key(fd, ev)} else old(table).callbacks)
      ensures ctxs[fd].GetContext(ev) == s && ctxs[fd].events == old(ctxs[fd].events) + {ev}
    {
      var c := ctxs[fd];
      c.events := c.events + {ev};
      c.SetContext(ev, s);
      table := table.(slots := table.slots[Key(fd, ev) := s],
                      callbacks := if s.CallbackSlot? then table.callbacks + {Key(fd, ev)} else table.callbacks);
      forall i, e: Event | 0 <= i < |ctxs| ensures ctxs[i].Shows(table.slots, table.callbacks, e) {
        assert old(ctxs[i].Shows(table.slots, table.callbacks, e));
      }
    }

    /** `triggerEvent`: the bit goes and its waiter is scheduled; the slot keeps what it holds. */
    method TriggerEvent(fd: nat, ev: Event)
      requires Valid() && Key(fd, ev) in table.slots
      modifies this`table, this`scheduled, ctxs[fd]
      ensures Valid() && table == old(table).(slots := old(table).slots - {Key(fd, ev)})
      ensures scheduled == old(scheduled) + [old(table).slots[Key(fd, ev)]]
    {
      var c := ctxs[fd];
      assert c.Shows(table.slots, table.callbacks, ev);
      c.events := c.events - {ev};
      scheduled := scheduled + [c.GetContext(ev)];
      table := table.(slots := table.slots - {Key(fd, ev)});
      forall i, e: Event | 0 <= i < |ctxs| ensures ctxs[i].Shows(table.slots, table.callbacks, e) {
        assert old(ctxs[i].Shows(table.slots, table.callbacks, e));
      }
    }

    method CountDown()
      requires Valid()
      modifies this`pending, this`table
      ensures Valid() && table == old(table).(pending := old(table).pending - 1)
    {
      pending := (pending + TWO_64 - 1) % TWO_64;
      table := table.(pending := table.pending - 1);
    }

    /** Triggers every bit of `evs`, read before write, and counts each. */
    method TriggerAll(fd: nat, evs: set<Event>)
      requires Valid() && evs <= EventsOf(table.slots, fd) && fd < |ctxs|
      modifies this`table, this`scheduled, this`pending, ctxs[fd]
      ensures Valid()
      ensures table == old(table).(slots := old(table).slots - KeysOf(fd, evs), pending := old(table).pending - |evs|)
      ensures scheduled == old(scheduled) + Woken(old(table).slots, fd, evs)
      ensures var slots := old(table).slots; READ in evs && WRITE in evs ==>
                scheduled == old(scheduled) + [slots[Key(fd, READ)], slots[Key(fd, WRITE)]]
    {
      ReadThenWrite(table.slots, fd, evs);
      EventCount(evs);
      if READ in evs {
        TriggerEvent(fd, READ);
        CountDown();
      }
      if WRITE in evs {
        TriggerEvent(fd, WRITE);
        CountDown();
      }
    }

    /** Returns 0, or -1 when the kernel refuses. Either way the slot then holds the callback, or the running fiber if
        there is none, and the bit is set. The program asserts that the bit was clear and that the slot held no
        callback. */
    method AddEvent(fd: nat, ev: Event, cb: Option<nat>, current: nat, accepted: bool) returns (r: int)
      requires Valid() && Key(fd, ev) !in table.slots && Key(fd, ev) !in table.callbacks
      modifies this, ctxs
      ensures Valid() && fd < |ctxs| && scheduled == old(scheduled) && old(ctxs) <= ctxs
      ensures |ctxs| == if fd < |old(ctxs)| then |old(ctxs)| else fd * 3 / 2
      ensures var slot := if cb.Some? then CallbackSlot(cb) else FiberSlot(Some(current));
              && ctxs[fd].GetContext(ev) == slot && ev in ctxs[fd].events
              && table == EventTable.Add(old(table), Key(fd, ev), slot, cb.Some?, accepted)
      ensures r == if accepted then 0 else -1
    {
      if |ctxs| <= fd {
        ContextResize(fd * 3 / 2);
      }
      BitsAre(fd);
      var bits := ctxs[fd].events;
      var op := if bits != {} then MOD else ADD;
      Occupy(fd, ev, if cb.Some? then CallbackSlot(cb) else FiberSlot(Some(current)));
      if !accepted {
        return -1;
      }
      Control(op, fd, bits + {ev});
      pending := (pending + 1) % TWO_64;
      table := table.(pending := table.pending + 1);
      return 0;
    }

    method DelEvent(fd: nat, ev: Event, accepted: bool) returns (done: bool)
      requires Valid()
      modifies this, ctxs
      ensures Valid() && ctxs == old(ctxs) && scheduled == old(scheduled)
      ensures table == EventTable.Delete(old(table), Key(fd, ev), accepted)
      ensures done == (Key(fd, ev) in old(table).slots && accepted)
    {
      BitsAre(fd);
      if |ctxs| <= fd {
        return false;
      }
      var c := ctxs[fd];
      assert c.Shows(table.slots, table.callbacks, ev);
      if ev !in c.events {
        return false;
      }
      var left := c.events - {ev};
      if !accepted {
        return false;
      }
      Control(LeaveOp(left), fd, left);
      CountDown();
      Vacate(fd, ev);
      OneKey(fd, ev);
      return true;
    }

    /** Clears the bit and leaves an empty callback in the slot. */
    method Vacate(fd: nat, ev: Event)
      requires Valid() && fd < |ctxs|
      modifies this`table, ctxs[fd]
      ensures Valid() && table == old(table).(slots := old(table).slots - {Key(fd, ev)},
                                              callbacks := old(table).callbacks + {Key(fd, ev)})
    {
      var c := ctxs[fd];
      c.events := c.events - {ev};
      c.SetContext(ev, CallbackSlot(None));
      table := table.(slots := table.slots - {Key(fd, ev)}, callbacks := table.callbacks + {Key(fd, ev)});
      forall i, e: Event | 0 <= i < |ctxs| ensures ctxs[i].Shows(table.slots, table.callbacks, e) {
        assert old(ctxs[i].Shows(table.slots, table.callbacks, e));
      }
    }

    method CancelEvent(fd: nat, ev: Event, accepted: bool) returns (done: bool)
      requires Valid()
      modifies this, ctxs
      ensures Valid() && ctxs == old(ctxs)
      ensures table == EventTable.Cancel(old(table), Key(fd, ev), accepted)
      ensures done == (Key(fd, ev) in old(table).slots && accepted)
      ensures scheduled == old(scheduled) + if done then [old(table).slots[Key(fd, ev)]] else []
      ensures done <==> fd < |ctxs| && ev in old(ctxs[fd].events) && accepted
      ensures done ==> scheduled == old(scheduled) + [old(ctxs[fd].GetContext(ev))]
    {
      BitsAre(fd);
      if |ctxs| <= fd {
        return false;
      }
      var c := ctxs[fd];
      assert c.Shows(table.slots, table.callbacks, ev);
      if ev !in c.events {
        return false;
      }
      var left := c.events - {ev};
      if !accepted {
        return false;
      }
      Control(LeaveOp(left), fd, left);
      TriggerEvent(fd, ev);
      CountDown();
      OneKey(fd, ev);
      return true;
    }

    method CancelAll(fd: nat, accepted: bool) returns (done: bool)
      requires Valid()
      modifies this, ctxs
      ensures Valid() && ctxs == old(ctxs)
      ensures table == EventTable.CancelAll(old(table), fd, accepted)
      ensures done == (EventsOf(old(table).slots, fd) != {} && accepted)
      ensures done ==> fd < |ctxs| && ctxs[fd].events == {}
      ensures done ==> scheduled == old(scheduled) + old(ctxs[fd].Slots(ctxs[fd].events))
      ensures scheduled == old(scheduled) +
                           if done then Woken(old(table).slots, fd, EventsOf(old(table).slots, fd)) else []
    {
      BitsAre(fd);
      if |ctxs| <= fd || ctxs[fd].events == {} || !accepted {
        return false;
      }
      var evs := ctxs[fd].events;
      SlotsAre(fd, evs);
      Control(DEL, fd, {});
      TriggerAll(fd, evs);
      forall e: Event ensures e !in ctxs[fd].events {
        assert ctxs[fd].Shows(table.slots, table.callbacks, e);
        assert e in evs ==> Key(fd, e) in KeysOf(fd, evs);
      }
      return true;
    }

    /** One report in the idle loop's buffer. An error or hang-up stands for every set bit; the waiters of the bits
        it stands for are scheduled and those bits go, unless none is set or the kernel refuses. */
    method HandleReady(fd: nat, reported: set<Event>, error: bool, accepted: bool)
      requires Valid() && fd < |ctxs|
      requires ReadyDefined(table, fd, RealEvents(table, fd, reported, error), accepted)
      modifies this, ctxs
      ensures Valid() && ctxs == old(ctxs)
      ensures var hit := RealEvents(old(table), fd, reported, error);
              && table == EventTable.Ready(old(table), fd, hit, accepted)
              && scheduled == old(scheduled) + WokenByReport(old(table), FromFd(fd, reported, error), accepted)
      ensures var bits := old(ctxs[fd].events); var gone := if error then bits else reported * bits;
              && ctxs[fd].events == (if accepted then bits - gone else bits)
              && scheduled == old(scheduled) + if accepted then old(ctxs[fd].Slots(gone)) else []
    {
      BitsAre(fd);
      var bits := ctxs[fd].events;
      var hit := if error then reported + bits else reported;
      if bits * hit == {} || !accepted {
        assert reported * bits <= bits * hit && (error ==> bits <= bits * hit);
        return;
      }
      var left := bits - hit;
      assert hit <= bits && hit == if error then bits else reported * bits;
      SlotsAre(fd, hit);
      Control(LeaveOp(left), fd, left);
      TriggerAll(fd, hit);
      BitsAre(fd);
      BitsLeft(old(table), table, fd, hit);
    }

    /** The loop of the idle fiber over what `epoll_wait` reported. */
    method HandleBuffer(buffer: seq<Answered>)
      requires Valid() && RegistryRuns.PermittedRun(table, Reports(buffer))
      requires forall i :: 0 <= i < |buffer| && buffer[i].report.FromFd? ==> buffer[i].report.fd < |ctxs|
      modifies this, ctxs
      ensures Valid() && ctxs == old(ctxs)
      ensures table == RegistryRuns.After(old(table), Reports(buffer))
      ensures scheduled == old(scheduled) + RegistryRuns.WokenIn(RegistryRuns.LogOf(old(table), Reports(buffer)))
    {
      for i := 0 to |buffer|
        invariant Valid() && ctxs == old(ctxs)
        invariant RegistryRuns.PermittedRun(table, Reports(buffer[i..]))
        invariant Outcome(table, scheduled, buffer[i..]) == Outcome(old(table), old(scheduled), buffer)
      {
        Unroll(table, scheduled, buffer, i);
        if buffer[i].report.FromFd? {
          var r := buffer[i].report;
          HandleReady(r.fd, r.ready, r.error, buffer[i].accepted);
        }
      }
    }
  }

  /** The table and the scheduled waiters after the rest of a buffer. */
  ghost function Outcome(t: Table<Slot>, scheduled: seq<Slot>, buffer: seq<Answered>): (Table<Slot>, seq<Slot>)
    requires RegistryRuns.PermittedRun(t, Reports(buffer))
  {
    (RegistryRuns.After(t, Reports(buffer)), scheduled + RegistryRuns.WokenIn(RegistryRuns.LogOf(t, Reports(buffer))))
  }

  function WokenByReport(t: Table<Slot>, r: Report, accepted: bool): seq<Slot>
    requires r.FromFd? && ReadyDefined(t, r.fd, RealEvents(t, r.fd, r.ready, r.error), accepted)
  {
    var hit := RealEvents(t, r.fd, r.ready, r.error);
    if hit * EventsOf(t.slots, r.fd) == {} || !accepted then [] else Woken(t.slots, r.fd, hit)
  }

  lemma ReportWakes(t: Table<Slot>, r: Report, accepted: bool)
    requires r.FromFd? && ReadyDefined(t, r.fd, RealEvents(t, r.fd, r.ready, r.error), accepted)
    ensures RegistryRuns.WokenIn(RegistryRuns.Entries(t, RegistryRuns.HandleReport(r.fd, r.ready, r.error, accepted)))
            == WokenByReport(t, r, accepted)
  {
    var s := RegistryRuns.HandleReport(r.fd, r.ready, r.error, accepted);
    var hit := RealEvents(t, r.fd, r.ready, r.error);
    RegistryRuns.LeavesAreWoken(t.slots, r.fd, RegistryRuns.Clearing(t, s));
    if hit <= EventsOf(t.slots, r.fd) {
      assert RegistryRuns.Clearing(t, s) == hit;
    }
  }

  /** The first report of a buffer, and the rest. */
  lemma Unroll(t: Table<Slot>, scheduled: seq<Slot>, buffer: seq<Answered>, i: nat)
    requires i < |buffer| && RegistryRuns.PermittedRun(t, Reports(buffer[i..]))
    ensures buffer[i].report.FromPipe? ==>
              RegistryRuns.PermittedRun(t, Reports(buffer[i + 1..]))
              && Outcome(t, scheduled, buffer[i + 1..]) == Outcome(t, scheduled, buffer[i..])
    ensures buffer[i].report.FromFd? ==>
              var r, accepted := buffer[i].report, buffer[i].accepted;
              var hit := RealEvents(t, r.fd, r.ready, r.error);
              && ReadyDefined(t, r.fd, hit, accepted)
              && var t' := Ready(t, r.fd, hit, accepted);
              && RegistryRuns.PermittedRun(t', Reports(buffer[i + 1..]))
              && Outcome(t', scheduled + WokenByReport(t, r, accepted), buffer[i + 1..])
                 == Outcome(t, scheduled, buffer[i..])
  {
    assert buffer[i..][1..] == buffer[i + 1..];
    var r, accepted := buffer[i].report, buffer[i].accepted;
    if r.FromFd? {
      var s := RegistryRuns.HandleReport(r.fd, r.ready, r.error, accepted);
      var rest := Reports(buffer[i + 1..]);
      assert Reports(buffer[i..]) == [s] + rest;
      assert Reports(buffer[i..])[1..] == rest;
      ReportWakes(t, r, accepted);
      RegistryRuns.WokenInBoth(RegistryRuns.Entries(t, s), RegistryRuns.LogOf(RegistryRuns.Next(t, s), rest));
      RegistryRuns.Regroup(scheduled, WokenByReport(t, r, accepted),
                           RegistryRuns.WokenIn(RegistryRuns.LogOf(RegistryRuns.Next(t, s), rest)));
    }
  }

  /** Whatever clears the bit of an addition schedules what the addition stored. */
  lemma AddedThenCleared(t: Table<Slot>, k: Key, slot: Slot, isCallback: bool, ok: bool, evs: set<Event>)
    requires k.ev in evs && evs <= EventsOf(Add(t, k, slot, isCallback, ok).slots, k.fd)
    ensures slot in Woken(Add(t, k, slot, isCallback, ok).slots, k.fd, evs)
    ensures evs == {k.ev} ==> Woken(Add(t, k, slot, isCallback, ok).slots, k.fd, evs) == [slot]
  {
    var woken := Woken(Add(t, k, slot, isCallback, ok).slots, k.fd, evs);
    match k.ev
    case READ => assert woken[0] == slot;
    case WRITE => assert woken[|woken| - 1] == slot;
  }

  lemma BitsLeft(t: Table<Slot>, u: Table<Slot>, fd: nat, evs: set<Event>)
    requires u.slots == t.slots - KeysOf(fd, evs)
    ensures EventsOf(u.slots, fd) == EventsOf(t.slots, fd) - evs
  {
    forall e: Event ensures Key(fd, e) in KeysOf(fd, evs) <==> e in evs {
    }
  }

  lemma OneKey(fd: nat, ev: Event)
    ensures KeysOf(fd, {ev}) == {Key(fd, ev)}
  {
  }
}
