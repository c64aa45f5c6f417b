/** The event registry of `IOManager` as a value: which (fd, event) bits are set, what waits behind each bit,
    the interest the kernel holds for every fd, and the pending counter. Every function is one region
    protected by the mutex of a file-descriptor context. `ok` is the result of `epoll_ctl`. */
module EventTable {
  import opened Common

  datatype Event = READ | WRITE

  datatype Key = Key(fd: nat, ev: Event)

  datatype CtlOp = ADD | MOD | DEL

  /** What one entry of an `epoll_wait` buffer reports: a tickle, or events of a descriptor and an error flag. */
  datatype Report = FromPipe | FromFd(fd: nat, ready: set<Event>, error: bool)

  /** `slots` maps a set bit to the content of its context slot; `callbacks` holds the keys whose slot
      currently stores the callback alternative (variant index 1), set bit or not. */
  datatype Table<W> = Table(slots: map<Key, W>, callbacks: set<Key>, interest: map<nat, set<Event>>, pending: int)

  function EmptyTable<W>(): Table<W> {
    Table(map[], {}, map[], 0)
  }

  function EventsOf<W>(slots: map<Key, W>, fd: nat): set<Event> {
    set e: Event | Key(fd, e) in slots
  }

  function KeysOf(fd: nat, evs: set<Event>): set<Key> {
    set e | e in evs :: Key(fd, e)
  }

  /** What the kernel accepts: ADD only for an unknown fd, MOD and DEL only for a known one. */
  predicate KernelAccepts(interest: map<nat, set<Event>>, op: CtlOp, fd: nat) {
    op == ADD <==> fd !in interest
  }

  function Ctl(interest: map<nat, set<Event>>, op: CtlOp, fd: nat, mask: set<Event>): map<nat, set<Event>> {
    if op == DEL then interest - {fd} else interest[fd := mask]
  }

  function AddOp<W>(t: Table<W>, fd: nat): CtlOp {
    if EventsOf(t.slots, fd) != {} then MOD else ADD
  }

  function LeaveOp(left: set<Event>): CtlOp {
    if left != {} then MOD else DEL
  }

  /** `addEvent`: the bit and the slot are written before `epoll_ctl` and are not undone when it fails. */
  function Add<W>(t: Table<W>, k: Key, w: W, isCallback: bool, ok: bool): Table<W> {
    var cbs := if isCallback then t.callbacks + {k} else t.callbacks;
    var t' := t.(slots := t.slots[k := w], callbacks := cbs);
    if !ok then t'
    else t'.(interest := Ctl(t.interest, AddOp(t, k.fd), k.fd, EventsOf(t.slots, k.fd) + {k.ev}),
             pending := t.pending + 1)
  }

  /** Clears the bits `evs` of `fd` after one successful `epoll_ctl` with what is left. */
  function Clear<W>(t: Table<W>, fd: nat, evs: set<Event>): Table<W> {
    var left := EventsOf(t.slots, fd) - evs;
    t.(slots := t.slots - KeysOf(fd, evs),
       interest := Ctl(t.interest, LeaveOp(left), fd, left),
       pending := t.pending - |evs|)
  }

  /** `delEvent`: nothing is woken and the slot is left holding an empty callback. */
  function Delete<W>(t: Table<W>, k: Key, ok: bool): Table<W> {
    if k !in t.slots || !ok then t
    else Clear(t, k.fd, {k.ev}).(callbacks := t.callbacks + {k})
  }

  /** `cancelEvent`: the waiter behind the bit is scheduled. */
  function Cancel<W>(t: Table<W>, k: Key, ok: bool): Table<W> {
    if k !in t.slots || !ok then t else Clear(t, k.fd, {k.ev})
  }

  /** `cancelAll`: every waiter of the fd is scheduled. */
  function CancelAll<W>(t: Table<W>, fd: nat, ok: bool): Table<W> {
    if EventsOf(t.slots, fd) == {} || !ok then t else Clear(t, fd, EventsOf(t.slots, fd))
  }

  /** What the idle loop makes of a reported readiness: error and hang-up stand for every set bit. */
  function RealEvents<W>(t: Table<W>, fd: nat, reported: set<Event>, error: bool): set<Event> {
    if error then reported + EventsOf(t.slots, fd) else reported
  }

  /** `triggerEvent` with the counter: None when its assertion fails. */
  function Trigger<W>(t: Table<W>, k: Key): Option<Table<W>> {
    if k !in t.slots then None else Some(t.(slots := t.slots - {k}, pending := t.pending - 1))
  }

  function TriggerBits<W>(t: Table<W>, fd: nat, evs: set<Event>): Option<Table<W>> {
    var t1 := if READ in evs then Trigger(t, Key(fd, READ)) else Some(t);
    if t1.Some? && WRITE in evs then Trigger(t1.value, Key(fd, WRITE)) else t1
  }

  /** The readiness branch of the idle loop, assertion by assertion. */
  function RunReport<W>(t: Table<W>, fd: nat, ready: set<Event>, ok: bool): Option<Table<W>> {
    var bits := EventsOf(t.slots, fd);
    var left := bits - ready;
    if ready * bits == {} || !ok then Some(t)
    else TriggerBits(t.(interest := Ctl(t.interest, LeaveOp(left), fd, left)), fd, ready)
  }

  /** A report the program survives: refused by the kernel, entirely stale or entirely current. */
  predicate ReadyDefined<W>(t: Table<W>, fd: nat, ready: set<Event>, ok: bool) {
    !ok || ready * EventsOf(t.slots, fd) == {} || ready <= EventsOf(t.slots, fd)
  }

  /** What the readiness branch makes of such a report. */
  function Ready<W>(t: Table<W>, fd: nat, ready: set<Event>, ok: bool): Table<W>
    requires ReadyDefined(t, fd, ready, ok)
  {
    if ready * EventsOf(t.slots, fd) == {} || !ok then t else Clear(t, fd, ready)
  }

  /** The waiters behind the bits `evs` of `fd`, read before write. */
  function Woken<W>(slots: map<Key, W>, fd: nat, evs: set<Event>): seq<W>
    requires evs <= EventsOf(slots, fd)
  {
    (if READ in evs then [slots[Key(fd, READ)]] else []) + (if WRITE in evs then [slots[Key(fd, WRITE)]] else [])
  }

  /** Whatever the kernel holds for a descriptor is the set of its bits. */
  ghost predicate Honest<W>(t: Table<W>) {
    forall fd :: fd in t.interest ==> EventsOf(t.slots, fd) != {} && t.interest[fd] == EventsOf(t.slots, fd)
  }

  /** The kernel waits for nothing but set bits. */
  ghost predicate Within<W>(t: Table<W>) {
    forall fd :: fd in t.interest ==> EventsOf(t.slots, fd) != {} && t.interest[fd] <= EventsOf(t.slots, fd)
  }

  /** Set bits that the kernel knows nothing of. */
  ghost predicate Orphan<W>(t: Table<W>, fd: nat) {
    EventsOf(t.slots, fd) != {} && fd !in t.interest
  }

  /** The kernel's interest mirrors the set bits and the counter counts them. */
  ghost predicate Consistent<W>(t: Table<W>) {
    t.pending == |t.slots| && Honest(t) && forall fd :: !Orphan(t, fd)
  }

  /** The assertions of `triggerEvent` hold exactly for the reports the program survives, and `Ready` is then what
      the branch does. */
  lemma ReportAssertsIff<W>(t: Table<W>, fd: nat, ready: set<Event>, ok: bool)
    ensures RunReport(t, fd, ready, ok).Some? <==> ReadyDefined(t, fd, ready, ok)
    ensures ReadyDefined(t, fd, ready, ok) ==> RunReport(t, fd, ready, ok) == Some(Ready(t, fd, ready, ok))
  {
    ReadThenWrite(t.slots, fd, ready);
    EventCount(ready);
    if forall e :: e in ready && (e == READ || e == WRITE) ==> Key(fd, e) in t.slots {
      forall e | e in ready ensures e in EventsOf(t.slots, fd) {
        assert e == READ || e == WRITE;
      }
    }
  }

  lemma OtherFdEvents<W>(a: map<Key, W>, b: map<Key, W>, fd: nat)
    requires forall e: Event :: Key(fd, e) in a <==> Key(fd, e) in b
    ensures EventsOf(a, fd) == EventsOf(b, fd)
  {
  }

  /** The set bits of `evs` leave READ first, then WRITE. */
  lemma ReadThenWrite<W>(slots: map<Key, W>, fd: nat, evs: set<Event>)
    ensures var m := if READ in evs then slots - {Key(fd, READ)} else slots;
            slots - KeysOf(fd, evs) == if WRITE in evs then m - {Key(fd, WRITE)} else m
  {
    forall k: Key ensures k in KeysOf(fd, evs) <==>
                          (READ in evs && k == Key(fd, READ)) || (WRITE in evs && k == Key(fd, WRITE)) {
      assert k.ev == READ || k.ev == WRITE;
    }
  }

  lemma KeysOfSize(fd: nat, evs: set<Event>)
    ensures |KeysOf(fd, evs)| == |evs|
  {
    if evs != {} {
      var e :| e in evs;
      assert KeysOf(fd, evs) == KeysOf(fd, evs - {e}) + {Key(fd, e)};
      KeysOfSize(fd, evs - {e});
    }
  }

  lemma EventCount(evs: set<Event>)
    ensures |evs| == (if READ in evs then 1 else 0) + (if WRITE in evs then 1 else 0)
  {
    var r := if READ in evs then {READ} else {};
    var w := if WRITE in evs then {WRITE} else {};
    forall e: Event ensures e in evs <==> e in r + w {
      assert e == READ || e == WRITE;
    }
    assert evs == r + w && r !! w;
  }

  lemma RemovalSize<W>(m: map<Key, W>, ks: set<Key>)
    requires ks <= m.Keys
    ensures |m - ks| == |m| - |ks|
  {
    assert (m - ks).Keys == m.Keys - ks;
    assert |m.Keys| == |m|;
    assert |(m - ks).Keys| == |m - ks|;
  }

  lemma ClearedKeys<W>(t: Table<W>, fd: nat, evs: set<Event>)
    requires evs <= EventsOf(t.slots, fd)
    ensures KeysOf(fd, evs) <= t.slots.Keys
    ensures forall k :: k in Clear(t, fd, evs).slots <==> k in t.slots && !(k.fd == fd && k.ev in evs)
  {
    forall k | k in KeysOf(fd, evs) ensures k in t.slots {
      assert k.ev in EventsOf(t.slots, fd);
    }
    forall k: Key ensures k in KeysOf(fd, evs) <==> k.fd == fd && k.ev in evs {
      if k.fd == fd && k.ev in evs {
        assert k == Key(fd, k.ev);
      }
    }
  }

  lemma ClearSize<W>(t: Table<W>, fd: nat, evs: set<Event>)
    requires evs <= EventsOf(t.slots, fd)
    ensures |Clear(t, fd, evs).slots| == |t.slots| - |evs|
  {
    ClearedKeys(t, fd, evs);
    KeysOfSize(fd, evs);
    RemovalSize(t.slots, KeysOf(fd, evs));
  }

  lemma ClearedEvents<W>(t: Table<W>, fd: nat, evs: set<Event>, g: nat)
    requires evs <= EventsOf(t.slots, fd)
    ensures EventsOf(Clear(t, fd, evs).slots, g) == EventsOf(t.slots, g) - if g == fd then evs else {}
  {
    ClearedKeys(t, fd, evs);
    forall e: Event ensures e in EventsOf(Clear(t, fd, evs).slots, g) <==>
                            e in EventsOf(t.slots, g) && !(g == fd && e in evs) {
      assert Key(g, e) in Clear(t, fd, evs).slots <==> Key(g, e) in t.slots && !(g == fd && e in evs);
    }
  }

  lemma ClearAnywhere<W>(t: Table<W>, fd: nat, evs: set<Event>)
    requires evs <= EventsOf(t.slots, fd)
    ensures Honest(t) ==> Honest(Clear(t, fd, evs))
    ensures Within(t) ==> Within(Clear(t, fd, evs))
    ensures forall g :: Orphan(Clear(t, fd, evs), g) <==> g != fd && Orphan(t, g)
    ensures forall g :: EventsOf(Clear(t, fd, evs).slots, g) == EventsOf(t.slots, g) - if g == fd then evs else {}
  {
    forall g ensures EventsOf(Clear(t, fd, evs).slots, g) == EventsOf(t.slots, g) - if g == fd then evs else {} {
      ClearedEvents(t, fd, evs, g);
    }
  }

  /** Clearing set bits keeps the mirror, issues an operation the kernel accepts and removes exactly those bits. */
  lemma ClearKeepsConsistent<W>(t: Table<W>, fd: nat, evs: set<Event>)
    requires Consistent(t) && evs != {} && evs <= EventsOf(t.slots, fd)
    ensures Consistent(Clear(t, fd, evs))
    ensures KernelAccepts(t.interest, LeaveOp(EventsOf(t.slots, fd) - evs), fd)
    ensures EventsOf(Clear(t, fd, evs).slots, fd) == EventsOf(t.slots, fd) - evs
    ensures forall k :: k in Clear(t, fd, evs).slots <==> k in t.slots && !(k.fd == fd && k.ev in evs)
  {
    ClearedKeys(t, fd, evs);
    ClearSize(t, fd, evs);
    ClearAnywhere(t, fd, evs);
    assert !Orphan(t, fd);
  }

  lemma AddedKeys<W>(slots: map<Key, W>, k: Key, w: W)
    requires k !in slots
    ensures |slots[k := w]| == |slots| + 1
    ensures EventsOf(slots[k := w], k.fd) == EventsOf(slots, k.fd) + {k.ev}
    ensures forall g :: g != k.fd ==> EventsOf(slots[k := w], g) == EventsOf(slots, g)
  {
    forall e: Event ensures Key(k.fd, e) in slots[k := w] <==> Key(k.fd, e) in slots || e == k.ev {
      assert Key(k.fd, e) == k <==> e == k.ev;
    }
    forall g | g != k.fd ensures EventsOf(slots[k := w], g) == EventsOf(slots, g) {
      OtherFdEvents(slots[k := w], slots, g);
    }
  }

  /** An addition keeps what the kernel holds within the bits; a successful one makes no orphan, a refused one makes
      one exactly of a descriptor without bits. */
  lemma AddAnywhere<W>(t: Table<W>, k: Key, w: W, isCallback: bool, ok: bool)
    requires Within(t) && k !in t.slots
    ensures Within(Add(t, k, w, isCallback, ok))
    ensures ok && Honest(t) ==> Honest(Add(t, k, w, isCallback, ok))
    ensures forall g :: Orphan(Add(t, k, w, isCallback, ok), g) <==>
              (Orphan(t, g) && !(ok && g == k.fd)) || (!ok && g == k.fd && EventsOf(t.slots, g) == {})
  {
    var t' := Add(t, k, w, isCallback, ok);
    AddedKeys(t.slots, k, w);
    assert k.ev in EventsOf(t'.slots, k.fd);
    AddedInterest(t, k, w, isCallback, ok);
    forall g ensures Orphan(t', g) <==>
              (Orphan(t, g) && !(ok && g == k.fd)) || (!ok && g == k.fd && EventsOf(t.slots, g) == {}) {
      assert g == k.fd || EventsOf(t'.slots, g) == EventsOf(t.slots, g);
    }
  }

  lemma AddedInterest<W>(t: Table<W>, k: Key, w: W, isCallback: bool, ok: bool)
    requires Within(t) && k !in t.slots
    ensures Within(Add(t, k, w, isCallback, ok))
    ensures ok && Honest(t) ==> Honest(Add(t, k, w, isCallback, ok))
  {
    var t' := Add(t, k, w, isCallback, ok);
    AddedKeys(t.slots, k, w);
    assert k.ev in EventsOf(t'.slots, k.fd);
    forall g | g in t'.interest
      ensures EventsOf(t'.slots, g) != {} && t'.interest[g] <= EventsOf(t'.slots, g)
      ensures ok && Honest(t) ==> t'.interest[g] == EventsOf(t'.slots, g) {
      assert g == k.fd || EventsOf(t'.slots, g) == EventsOf(t.slots, g);
    }
  }

  lemma HonestIsWithin<W>(t: Table<W>)
    requires Honest(t)
    ensures Within(t)
  {
  }

  /** `addEvent` keeps the mirror exactly when `epoll_ctl` succeeds; the operation it issues is always acceptable. */
  lemma AddKeepsConsistentIffOk<W>(t: Table<W>, k: Key, w: W, isCallback: bool, ok: bool)
    requires Consistent(t) && k !in t.slots
    ensures Consistent(Add(t, k, w, isCallback, ok)) <==> ok
    ensures KernelAccepts(t.interest, AddOp(t, k.fd), k.fd)
  {
    AddedKeys(t.slots, k, w);
    assert !Orphan(t, k.fd);
    HonestIsWithin(t);
    if ok {
      AddAnywhere(t, k, w, isCallback, ok);
    } else {
      assert Add(t, k, w, isCallback, ok).pending == |t.slots[k := w]| - 1;
    }
  }
}
