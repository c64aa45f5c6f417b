/** Whole runs of one timer manager: timers are made, cancelled, refreshed and reset, held or not, and expired in
    rounds, in any order and with any spacing of the clock. */
module TimerRuns {
  import opened Common
  import opened TimerSet

  datatype Firing = Firing(id: nat, at: nat)

  datatype Step =
    | Tick(to: nat)
    | Make(id: nat, ms: nat, cb: Option<nat>, recurring: bool)
    | CancelTimer(id: nat)
    | RefreshTimer(id: nat)
    | ResetTimer(id: nat, ms: nat, fromNow: bool)
    | Round

  /** What happened so far: `start` is when each timer was made, `moved` the timers ever refreshed or reset,
      `cancelled` those whose `cancel` returned true, `gone` the ones among them that were in the set then, `refused`
      those an equal deadline kept out of the set. */
  datatype History = History(
    clock: nat, timers: Timers<nat>, start: map<nat, nat>, moved: set<nat>, cancelled: set<nat>, gone: set<nat>,
    refused: set<nat>, fired: seq<Firing>)

  function Begin(clock: nat): History {
    History(clock, Timers([], map[], false, 0), map[], {}, {}, {}, {}, [])
  }

  predicate Allowed(h: History, s: Step) {
    match s
    case Tick(to) => h.clock <= to
    case Make(id, _, _, _) => id !in h.timers.recs
    case CancelTimer(id) => id in h.timers.recs
    case RefreshTimer(id) => id in h.timers.recs
    case ResetTimer(id, _, _) => id in h.timers.recs
    case Round => true
  }

  function Log(ids: seq<nat>, now: nat): seq<Firing> {
    seq(|ids|, i requires 0 <= i < |ids| => Firing(ids[i], now))
  }

  /** The step's effect on the timer set alone. */
  function Apply(h: History, s: Step): Timers<nat>
    requires Valid(h.timers) && Allowed(h, s)
  {
    var ts := h.timers;
    match s
    case Tick(_) => ts
    case Make(id, ms, cb, recurring) => Add(ts, id, h.clock, ms, cb, recurring)
    case CancelTimer(id) => Cancel(ts, id)
    case RefreshTimer(id) => Refresh(ts, id, h.clock)
    case ResetTimer(id, ms, fromNow) => Reset(ts, id, ms, fromNow, h.clock)
    case Round => Expire(ts, h.clock)
  }

  /** The step erases by the deadline of its timer. */
  predicate Erases(ts: Timers<nat>, s: Step) {
    && (s.CancelTimer? || s.RefreshTimer? || s.ResetTimer?) && s.id in ts.recs && ts.recs[s.id].cb.Some?
    && !(s.ResetTimer? && s.ms == ts.recs[s.id].ms && !s.fromNow)
  }

  /** It then erases another timer, which holds that deadline in place of its own. */
  predicate TakesOther(ts: Timers<nat>, s: Step, x: nat) {
    Erases(ts, s) && x != s.id && x in ts.order && x in ts.recs && ts.recs[x].next == ts.recs[s.id].next
  }

  /** The timers a step puts up for insertion. */
  function Offered(ts: Timers<nat>, clock: nat, s: Step): set<nat>
    requires Known(ts.order, ts.recs)
  {
    match s
    case Make(id, _, _, _) => {id}
    case RefreshTimer(id) => if Erases(ts, s) && CanMove(ts, id) then {id} else {}
    case ResetTimer(id, _, _) => if Erases(ts, s) && CanMove(ts, id) then {id} else {}
    case Round => set x | x in ExpiredAt(ts, clock) && ts.recs[x].recurring
    case _ => {}
  }

  lemma ApplyValid(h: History, s: Step)
    requires Valid(h.timers) && Allowed(h, s)
    ensures Valid(Apply(h, s))
  {
    match s
    case Tick(_) =>
    case Make(id, ms, cb, recurring) => AddValid(h.timers, id, h.clock, ms, cb, recurring);
    case CancelTimer(id) => CancelValid(h.timers, id);
    case RefreshTimer(id) => RefreshValid(h.timers, id, h.clock);
    case ResetTimer(id, ms, fromNow) => ResetValid(h.timers, id, ms, fromNow, h.clock);
    case Round => ExpireExact(h.timers, h.clock);
  }

  ghost function Next(h: History, s: Step): (h': History)
    requires Valid(h.timers) && Allowed(h, s)
    ensures Valid(h'.timers)
  {
    ApplyValid(h, s);
    var ts := Apply(h, s);
    var hit := s.CancelTimer? && h.timers.recs[s.id].cb.Some?;
    History(
      if s.Tick? then s.to else h.clock,
      ts,
      if s.Make? then h.start[s.id := h.clock] else h.start,
      if s.RefreshTimer? || s.ResetTimer? then h.moved + {s.id} else h.moved,
      if hit then h.cancelled + {s.id} else h.cancelled,
      if hit && s.id in h.timers.order then h.gone + {s.id} else h.gone,
      h.refused + set x | x in Offered(h.timers, h.clock, s) && x !in ts.order,
      if s.Round? then h.fired + Log(ExpiredAt(h.timers, h.clock), h.clock) else h.fired)
  }

  /** The clock readings at which a timer fired. */
  function Times(fired: seq<Firing>, x: nat): seq<nat> {
    if fired == [] then []
    else
      var rest := Times(fired[..|fired| - 1], x);
      if fired[|fired| - 1].id == x then rest + [fired[|fired| - 1].at] else rest
  }

  /** In how many ways the story of a timer has ended or goes on. A recurring timer's firings end nothing. */
  function Fate(h: History, x: nat): nat {
    Bit(x in h.timers.order) + Bit(x in h.gone) + Bit(x in h.refused)
    + if x in h.timers.recs && h.timers.recs[x].recurring then 0 else |Times(h.fired, x)|
  }

  ghost predicate OneFateEach(h: History) {
    Valid(h.timers) && forall x :: Fate(h, x) == Bit(x in h.timers.recs)
  }

  lemma {:induction false} TimesOfRound(fired: seq<Firing>, ids: seq<nat>, now: nat, x: nat)
    requires Distinct(ids)
    ensures Times(fired + Log(ids, now), x) == Times(fired, x) + if x in ids then [now] else []
    decreases |ids|
  {
    if ids == [] {
      assert fired + Log(ids, now) == fired;
    } else {
      var pre := ids[..|ids| - 1];
      var all := fired + Log(ids, now);
      assert all[..|all| - 1] == fired + Log(pre, now);
      assert ids == pre + [ids[|ids| - 1]];
      TimesOfRound(fired, pre, now, x);
    }
  }

  /** What a round does to one timer. */
  ghost predicate RoundOn(a: Timers<nat>, b: Timers<nat>, now: nat, x: nat)
    requires Known(a.order, a.recs)
  {
    var fires := x in ExpiredAt(a, now);
    && (fires <==> x in a.order && a.recs[x].next <= now)
    && (x in a.order && !fires ==> x in b.order)
    && (x in b.order ==> x in a.order && (fires ==> a.recs[x].recurring))
    && (x in b.recs <==> x in a.recs)
    && (x in a.recs ==>
          b.recs[x] == if fires && a.recs[x].recurring then a.recs[x].(next := Deadline(now, a.recs[x].ms)) else a.recs[x])
  }

  lemma RoundEffect(h: History)
    requires Valid(h.timers)
    ensures Valid(Expire(h.timers, h.clock)) && Distinct(ExpiredAt(h.timers, h.clock))
    ensures forall x :: RoundOn(h.timers, Expire(h.timers, h.clock), h.clock, x)
  {
    ExpireExact(h.timers, h.clock);
    var ids := ExpiredAt(h.timers, h.clock);
    var later := h.timers.(order := h.timers.order[|ids|..]);
    forall x | x in Expire(h.timers, h.clock).order && x !in later.order
      ensures x in ids && h.timers.recs[x].recurring {
      assert BackAmong(later, ids, x, h.clock);
    }
  }

  lemma OthersDiffer(ts: Timers<nat>, id: nat)
    requires Valid(ts) && id in ts.order
    ensures forall x :: x in ts.order && x != id ==> ts.recs[x].next != ts.recs[id].next
  {
    forall x | x in ts.order && x != id ensures ts.recs[x].next != ts.recs[id].next {
      var i, j :| 0 <= i < |ts.order| && 0 <= j < |ts.order| && ts.order[i] == x && ts.order[j] == id;
      assert i < j || j < i;
    }
  }

  /** What a step that names a timer does to another one: nothing, unless it takes it out. */
  ghost predicate SpareBut(a: Timers<nat>, b: Timers<nat>, s: Step, x: nat) {
    && (x in b.order <==> x in a.order && !TakesOther(a, s, x))
    && (x in b.recs <==> x in a.recs)
    && (x in a.recs ==> b.recs[x] == a.recs[x])
  }

  /** The timer it names stays the same kind of timer. */
  ghost predicate Spares(a: Timers<nat>, b: Timers<nat>, s: Step)
    requires s.Make? || s.CancelTimer? || s.RefreshTimer? || s.ResetTimer?
  {
    && Valid(b)
    && (forall x :: x != s.id ==> SpareBut(a, b, s, x))
    && s.id in b.recs
    && (s.id in a.recs ==> b.recs[s.id].recurring == a.recs[s.id].recurring)
  }

  /** Moving a timer takes out whatever holds its deadline and offers the timer again. */
  lemma MoveEffect(ts: Timers<nat>, s: Step, rec: Rec)
    requires Valid(ts) && (s.RefreshTimer? || s.ResetTimer?) && Erases(ts, s) && CanMove(ts, s.id)
    requires rec.recurring == ts.recs[s.id].recurring
    ensures var e := Erase(ts, ts.recs[s.id].next); var u := e.(recs := e.recs[s.id := rec]);
            Known(u.order, u.recs) && Spares(ts, Insert(u, s.id), s)
  {
    MoveValid(ts, s.id, rec);
    EraseValid(ts, ts.recs[s.id].next);
    var e := Erase(ts, ts.recs[s.id].next);
    InsertValid(e.(recs := e.recs[s.id := rec]), s.id);
  }

  lemma NothingTaken(ts: Timers<nat>, s: Step)
    requires Valid(ts) && (s.RefreshTimer? || s.ResetTimer?) && s.id in ts.recs && !(Erases(ts, s) && CanMove(ts, s.id))
    ensures Spares(ts, ts, s)
  {
    HeldIff(ts, ts.recs[s.id].next);
    forall x | x != s.id ensures SpareBut(ts, ts, s, x) {
      assert !TakesOther(ts, s, x);
    }
  }

  lemma RefreshEffect(ts: Timers<nat>, id: nat, now: nat)
    requires Valid(ts) && id in ts.recs
    ensures Spares(ts, Refresh(ts, id, now), RefreshTimer(id))
  {
    if CanMove(ts, id) {
      MoveEffect(ts, RefreshTimer(id), ts.recs[id].(next := Deadline(now, ts.recs[id].ms)));
    } else {
      NothingTaken(ts, RefreshTimer(id));
    }
  }

  lemma ResetEffect(ts: Timers<nat>, id: nat, ms: nat, fromNow: bool, now: nat)
    requires Valid(ts) && id in ts.recs
    ensures Spares(ts, Reset(ts, id, ms, fromNow, now), ResetTimer(id, ms, fromNow))
  {
    var s := ResetTimer(id, ms, fromNow);
    var r := Reset(ts, id, ms, fromNow, now);
    if Erases(ts, s) && CanMove(ts, id) {
      var rec := ts.recs[id].(ms := ms, next := if fromNow then Deadline(now, ms) else ts.recs[id].next);
      MoveEffect(ts, s, rec);
      var e := Erase(ts, ts.recs[id].next);
      SameBody(ts, Insert(e.(recs := e.recs[id := rec]), id), r, s);
    } else {
      NothingTaken(ts, s);
    }
  }

  lemma SameBody(ts: Timers<nat>, u: Timers<nat>, r: Timers<nat>, s: Step)
    requires (s.RefreshTimer? || s.ResetTimer?) && Spares(ts, u, s) && r.order == u.order && r.recs == u.recs
    ensures Spares(ts, r, s)
  {
    forall x | x != s.id ensures SpareBut(ts, r, s, x) {
      assert SpareBut(ts, u, s, x);
    }
  }

  lemma CancelEffect(ts: Timers<nat>, id: nat)
    requires Valid(ts) && id in ts.recs
    ensures Spares(ts, Cancel(ts, id), CancelTimer(id))
    ensures id in Cancel(ts, id).order <==> id in ts.order && ts.recs[id].cb.None?
    ensures Cancel(ts, id).recs[id].cb.None?
  {
    CancelValid(ts, id);
  }

  lemma MakeEffect(h: History, s: Step)
    requires Valid(h.timers) && s.Make? && Allowed(h, s)
    ensures Spares(h.timers, Apply(h, s), s)
    ensures Apply(h, s).recs[s.id] == Rec(Deadline(h.clock, s.ms), s.ms, s.recurring, s.cb)
  {
    AddValid(h.timers, s.id, h.clock, s.ms, s.cb, s.recurring);
  }

  /** What any step but the clock and a round does. */
  lemma PlainEffect(h: History, s: Step)
    requires Valid(h.timers) && Allowed(h, s) && !s.Round? && !s.Tick?
    ensures Spares(h.timers, Next(h, s).timers, s)
  {
    match s
    case Make(_, _, _, _) => MakeEffect(h, s);
    case CancelTimer(id) => CancelEffect(h.timers, id);
    case RefreshTimer(id) => RefreshEffect(h.timers, id, h.clock);
    case ResetTimer(id, ms, fromNow) => ResetEffect(h.timers, id, ms, fromNow, h.clock);
  }

  // ---- one fate each ----

  lemma RoundKeepsFate(h: History, x: nat)
    requires Valid(h.timers) && Fate(h, x) == Bit(x in h.timers.recs)
    ensures Fate(Next(h, Round), x) == Bit(x in Next(h, Round).timers.recs)
  {
    RoundEffect(h);
    assert RoundOn(h.timers, Expire(h.timers, h.clock), h.clock, x);
    TimesOfRound(h.fired, ExpiredAt(h.timers, h.clock), h.clock, x);
  }

  /** A timer other than the one a step names keeps its fate exactly unless the step takes it. */
  lemma OtherFate(h: History, s: Step, x: nat)
    requires Valid(h.timers) && Allowed(h, s) && !s.Round? && !s.Tick? && x != s.id
    requires Fate(h, x) == Bit(x in h.timers.recs)
    ensures Fate(Next(h, s), x) == Bit(x in Next(h, s).timers.recs) <==> !TakesOther(h.timers, s, x)
  {
    PlainEffect(h, s);
    assert SpareBut(h.timers, Next(h, s).timers, s, x);
  }

  /** The timer it names keeps its own, unless the step moves it back into the set in place of another. */
  lemma OwnFate(h: History, s: Step)
    requires Valid(h.timers) && Allowed(h, s) && !s.Round? && !s.Tick?
    requires Fate(h, s.id) == Bit(s.id in h.timers.recs) && forall x :: !TakesOther(h.timers, s, x)
    ensures Fate(Next(h, s), s.id) == Bit(s.id in Next(h, s).timers.recs)
  {
    PlainEffect(h, s);
    if s.CancelTimer? {
      CancelEffect(h.timers, s.id);
    } else if (s.RefreshTimer? || s.ResetTimer?) && Erases(h.timers, s) && CanMove(h.timers, s.id) {
      OwnDeadline(h.timers, s);
    }
  }

  lemma OwnDeadline(ts: Timers<nat>, s: Step)
    requires Valid(ts) && (s.RefreshTimer? || s.ResetTimer?) && Erases(ts, s) && CanMove(ts, s.id)
    requires forall x :: !TakesOther(ts, s, x)
    ensures s.id in ts.order
  {
    HeldIff(ts, ts.recs[s.id].next);
    var i :| 0 <= i < |ts.order| && ts.recs[ts.order[i]].next == ts.recs[s.id].next;
    assert !TakesOther(ts, s, ts.order[i]);
  }

  ghost predicate TakesNobody(h: History, s: Step) {
    forall x :: !TakesOther(h.timers, s, x)
  }

  /** A step keeps every timer in exactly one state, precisely unless it is a cancel, refresh or reset of a timer that
      is not in the set and whose deadline another one holds. */
  lemma StepKeepsFateIff(h: History, s: Step)
    requires OneFateEach(h) && Allowed(h, s)
    ensures OneFateEach(Next(h, s)) <==> TakesNobody(h, s)
  {
    if x :| TakesOther(h.timers, s, x) {
      assert Fate(h, x) == Bit(x in h.timers.recs);
      OtherFate(h, s, x);
    } else {
      forall x ensures Fate(Next(h, s), x) == Bit(x in Next(h, s).timers.recs) {
        assert Fate(h, x) == Bit(x in h.timers.recs);
        if s.Round? {
          RoundKeepsFate(h, x);
        } else if !s.Tick? {
          if x == s.id {
            OwnFate(h, s);
          } else {
            OtherFate(h, s, x);
          }
        }
      }
    }
  }

  /** A timer in the set takes nobody's place. */
  lemma HeldTakesNobody(h: History, s: Step)
    requires Valid(h.timers) && Allowed(h, s)
    requires s.CancelTimer? || s.RefreshTimer? || s.ResetTimer? ==> s.id in h.timers.order
    ensures TakesNobody(h, s)
  {
    if s.CancelTimer? || s.RefreshTimer? || s.ResetTimer? {
      OthersDiffer(h.timers, s.id);
    }
  }

  ghost predicate AllowedRun(h: History, run: seq<Step>)
    requires Valid(h.timers)
    decreases |run|
  {
    run == [] || (Allowed(h, run[0]) && AllowedRun(Next(h, run[0]), run[1..]))
  }

  ghost function After(h: History, run: seq<Step>): History
    requires Valid(h.timers) && AllowedRun(h, run)
    decreases |run|
  {
    if run == [] then h else After(Next(h, run[0]), run[1..])
  }

  ghost predicate NobodyTaken(h: History, run: seq<Step>)
    requires Valid(h.timers) && AllowedRun(h, run)
    decreases |run|
  {
    run == [] || (TakesNobody(h, run[0]) && NobodyTaken(Next(h, run[0]), run[1..]))
  }

  /** Life cycle: over every run in which no step takes another timer, each timer ever made is exactly one of held,
      cancelled while held, kept out by an equal deadline, or (a one-shot) fired, and then exactly once. */
  lemma {:induction false} LifeCycle(h: History, run: seq<Step>)
    requires OneFateEach(h) && AllowedRun(h, run) && NobodyTaken(h, run)
    ensures OneFateEach(After(h, run))
    decreases |run|
  {
    if run != [] {
      StepKeepsFateIff(h, run[0]);
      LifeCycle(Next(h, run[0]), run[1..]);
    }
  }

  lemma LifeCycleFromStart(clock: nat, run: seq<Step>)
    requires AllowedRun(Begin(clock), run) && NobodyTaken(Begin(clock), run)
    ensures OneFateEach(After(Begin(clock), run))
  {
    LifeCycle(Begin(clock), run);
  }

  lemma Consed(h: History, s: Step, rest: seq<Step>)
    requires Valid(h.timers) && Allowed(h, s) && AllowedRun(Next(h, s), rest)
    ensures AllowedRun(h, [s] + rest) && After(h, [s] + rest) == After(Next(h, s), rest)
  {
    assert ([s] + rest)[1..] == rest;
  }

  lemma FirstMade(h: History)
    requires h == Next(Begin(0), Make(0, 5, Some(0), false))
    ensures h.timers.order == [0] && h.timers.recs == map[0 := Rec(5, 5, false, Some(0))]
    ensures h.gone == {} && h.fired == [] && h.refused == {} && h.clock == 0
  {
    MakeEffect(Begin(0), Make(0, 5, Some(0), false));
    assert h.timers.order == [0];
  }

  lemma SecondKeptOut(h: History, t: History)
    requires h.clock == 0 && h.timers.order == [0] && h.timers.recs == map[0 := Rec(5, 5, false, Some(0))]
    requires t == Next(h, Make(1, 5, Some(1), false))
    ensures t.timers.order == [0] && t.gone == h.gone && t.fired == h.fired && (0 in t.refused ==> 0 in h.refused)
    ensures t.timers.recs == map[0 := Rec(5, 5, false, Some(0)), 1 := Rec(5, 5, false, Some(1))]
  {
    MakeEffect(h, Make(1, 5, Some(1), false));
    HeldIff(h.timers, 5);
    assert h.timers.recs[h.timers.order[0]].next == 5;
  }

  lemma FirstTaken(h: History, t: History)
    requires h.timers.order == [0] && h.gone == {} && h.fired == [] && 0 !in h.refused
    requires h.timers.recs == map[0 := Rec(5, 5, false, Some(0)), 1 := Rec(5, 5, false, Some(1))]
    requires t == Next(h, CancelTimer(1))
    ensures Fate(t, 0) == 0
  {
    CancelValid(h.timers, 1);
  }

  /** The shortest run that loses a timer: the second of two with one deadline is kept out, and cancelling it takes
      the first, which then is neither held nor cancelled nor kept out, and never fired. */
  lemma CancelTakesTheOther()
    ensures var run := [Make(0, 5, Some(0), false)] + ([Make(1, 5, Some(1), false)] + ([CancelTimer(1)] + []));
            AllowedRun(Begin(0), run) && Fate(After(Begin(0), run), 0) == 0
  {
    var h := Next(Begin(0), Make(0, 5, Some(0), false));
    FirstMade(h);
    var t := Next(h, Make(1, 5, Some(1), false));
    SecondKeptOut(h, t);
    FirstTaken(t, Next(t, CancelTimer(1)));
    Consed(t, CancelTimer(1), []);
    Consed(h, Make(1, 5, Some(1), false), [CancelTimer(1)] + []);
    Consed(Begin(0), Make(0, 5, Some(0), false), [Make(1, 5, Some(1), false)] + ([CancelTimer(1)] + []));
  }

  // ---- in every run ----

  /** Timers whose `cancel` returned true have no callback and are not in the set. */
  ghost predicate CancelledOut(h: History) {
    forall x :: x in h.cancelled ==> x in h.timers.recs && h.timers.recs[x].cb.None? && x !in h.timers.order
  }

  lemma StepKeepsOut(h: History, s: Step, x: nat)
    requires Valid(h.timers) && Allowed(h, s) && x in h.timers.recs && h.timers.recs[x].cb.None? && x !in h.timers.order
    ensures var t := Next(h, s).timers; x in t.recs && t.recs[x].cb.None? && x !in t.order
    ensures Times(Next(h, s).fired, x) == Times(h.fired, x)
  {
    if s.Round? {
      RoundEffect(h);
      assert RoundOn(h.timers, Expire(h.timers, h.clock), h.clock, x);
      TimesOfRound(h.fired, ExpiredAt(h.timers, h.clock), h.clock, x);
    } else if !s.Tick? {
      PlainEffect(h, s);
      assert x != s.id ==> SpareBut(h.timers, Next(h, s).timers, s, x);
    }
  }

  lemma StepKeepsCancelledOut(h: History, s: Step)
    requires Valid(h.timers) && Allowed(h, s) && CancelledOut(h)
    ensures CancelledOut(Next(h, s))
  {
    forall x | x in Next(h, s).cancelled
      ensures var t := Next(h, s).timers; x in t.recs && t.recs[x].cb.None? && x !in t.order {
      if x in h.cancelled {
        StepKeepsOut(h, s, x);
      } else {
        CancelEffect(h.timers, x);
      }
    }
  }

  /** Over every run: a timer whose `cancel` returned true never fires again, one-shot or recurring, whatever any step
      takes. */
  lemma {:induction false} NeverFiresAfterCancel(h: History, run: seq<Step>, x: nat)
    requires Valid(h.timers) && CancelledOut(h) && AllowedRun(h, run) && x in h.cancelled
    ensures x in After(h, run).cancelled && Times(After(h, run).fired, x) == Times(h.fired, x)
    decreases |run|
  {
    if run != [] {
      StepKeepsCancelledOut(h, run[0]);
      StepKeepsOut(h, run[0], x);
      NeverFiresAfterCancel(Next(h, run[0]), run[1..], x);
    }
  }

  /** Which every reachable history satisfies. */
  lemma {:induction false} AlwaysCancelledOut(h: History, run: seq<Step>)
    requires Valid(h.timers) && CancelledOut(h) && AllowedRun(h, run)
    ensures CancelledOut(After(h, run))
    decreases |run|
  {
    if run != [] {
      StepKeepsCancelledOut(h, run[0]);
      AlwaysCancelledOut(Next(h, run[0]), run[1..]);
    }
  }

  /** A one-shot timer that is due at a round, and was neither cancelled nor kept out nor taken, has fired after it. */
  lemma DueTimersHaveFired(h: History, x: nat)
    requires OneFateEach(h) && x in h.timers.recs && !h.timers.recs[x].recurring
    requires h.timers.recs[x].next <= h.clock && x !in h.gone && x !in h.refused
    ensures |Times(Next(h, Round).fired, x)| == 1
  {
    StepKeepsFateIff(h, Round);
    RoundEffect(h);
    assert Fate(h, x) == 1 && Fate(Next(h, Round), x) == 1;
    TimesOfRound(h.fired, ExpiredAt(h.timers, h.clock), h.clock, x);
  }

  // ---- recurring timers ----

  /** No deadline computed by the step wraps around. */
  predicate NoWrap(h: History, s: Step)
    requires Known(h.timers.order, h.timers.recs)
  {
    match s
    case Make(_, ms, _, _) => h.clock + ms < TWO_64
    case Round => forall x :: x in h.timers.order ==> h.clock + h.timers.recs[x].ms < TWO_64
    case _ => true
  }

  /** `k` periods after the start. */
  function Periods(start: nat, k: nat, ms: nat): nat {
    if k == 0 then start else Periods(start, k - 1, ms) + ms
  }

  lemma {:induction false} PeriodsIs(start: nat, k: nat, ms: nat)
    ensures Periods(start, k, ms) == start + k * ms
  {
    if k > 0 {
      PeriodsIs(start, k - 1, ms);
    }
  }

  /** The k-th firing, counted from zero, is no earlier than k + 1 periods after the start; and the deadline a held
      timer waits for is no earlier than that of its next firing. */
  ghost predicate PacedBy(times: seq<nat>, start: nat, ms: nat, held: bool, next: nat) {
    && (forall k :: 0 <= k < |times| ==> times[k] >= Periods(start, k + 1, ms))
    && (held ==> next >= Periods(start, |times| + 1, ms))
  }

  ghost predicate Paced(h: History, x: nat)
    requires x in h.timers.recs && x in h.start
  {
    PacedBy(Times(h.fired, x), h.start[x], h.timers.recs[x].ms, x in h.timers.order, h.timers.recs[x].next)
  }

  lemma FiringKeepsPace(times: seq<nat>, start: nat, ms: nat, next: nat, now: nat, held: bool)
    requires PacedBy(times, start, ms, true, next) && next <= now
    ensures PacedBy(times + [now], start, ms, held, now + ms)
  {
  }

  ghost predicate AllPaced(h: History) {
    && Valid(h.timers) && h.start.Keys == h.timers.recs.Keys
    && (forall x :: x !in h.timers.recs ==> Times(h.fired, x) == [])
    && forall x :: x in h.timers.recs && h.timers.recs[x].recurring && x !in h.moved ==> Paced(h, x)
  }

  lemma RoundKeepsPace(h: History, x: nat)
    requires Valid(h.timers) && h.start.Keys == h.timers.recs.Keys && NoWrap(h, Round)
    requires x in h.timers.recs && h.timers.recs[x].recurring && Paced(h, x)
    ensures x in Next(h, Round).timers.recs && Paced(Next(h, Round), x)
  {
    RoundEffect(h);
    assert RoundOn(h.timers, Expire(h.timers, h.clock), h.clock, x);
    TimesOfRound(h.fired, ExpiredAt(h.timers, h.clock), h.clock, x);
    if x in ExpiredAt(h.timers, h.clock) {
      var r := h.timers.recs[x];
      assert Deadline(h.clock, r.ms) == h.clock + r.ms;
      FiringKeepsPace(Times(h.fired, x), h.start[x], r.ms, r.next, h.clock, x in Expire(h.timers, h.clock).order);
    }
  }

  lemma RoundKeepsAllPaced(h: History)
    requires AllPaced(h) && NoWrap(h, Round)
    ensures AllPaced(Next(h, Round))
  {
    var t := Next(h, Round);
    RoundEffect(h);
    assert t.timers.recs.Keys == h.timers.recs.Keys;
    forall x | x !in t.timers.recs ensures Times(t.fired, x) == [] {
      assert RoundOn(h.timers, t.timers, h.clock, x);
      TimesOfRound(h.fired, ExpiredAt(h.timers, h.clock), h.clock, x);
    }
    forall x | x in t.timers.recs && t.timers.recs[x].recurring && x !in t.moved ensures Paced(t, x) {
      assert RoundOn(h.timers, t.timers, h.clock, x);
      RoundKeepsPace(h, x);
    }
  }

  lemma PlainKeepsPace(h: History, s: Step, x: nat)
    requires AllPaced(h) && Allowed(h, s) && !s.Round? && !s.Tick? && NoWrap(h, s)
    requires x in Next(h, s).timers.recs && x !in Next(h, s).moved && Next(h, s).timers.recs[x].recurring
    ensures x in Next(h, s).start && Paced(Next(h, s), x)
  {
    PlainEffect(h, s);
    if x != s.id {
      assert SpareBut(h.timers, Next(h, s).timers, s, x);
    } else if s.Make? {
      MakeEffect(h, s);
    } else {
      CancelEffect(h.timers, x);
    }
  }

  lemma StepKeepsPace(h: History, s: Step)
    requires AllPaced(h) && Allowed(h, s) && NoWrap(h, s)
    ensures AllPaced(Next(h, s))
  {
    if s.Round? {
      RoundKeepsAllPaced(h);
    } else if !s.Tick? {
      var t := Next(h, s);
      PlainEffect(h, s);
      assert forall x :: x != s.id ==> SpareBut(h.timers, t.timers, s, x);
      forall x | x in t.timers.recs && t.timers.recs[x].recurring && x !in t.moved ensures x in t.start && Paced(t, x) {
        PlainKeepsPace(h, s, x);
      }
    }
  }

  ghost predicate NoWrapRun(h: History, run: seq<Step>)
    requires Valid(h.timers) && AllowedRun(h, run)
    decreases |run|
  {
    run == [] || (NoWrap(h, run[0]) && NoWrapRun(Next(h, run[0]), run[1..]))
  }

  /** Recurring timers never run fast: whatever the spacing of the rounds and whatever any step takes, a recurring
      timer that is never refreshed or reset fires for the k-th time no earlier than k periods after it was made. */
  lemma {:induction false} RecurringNeverFast(h: History, run: seq<Step>)
    requires AllPaced(h) && AllowedRun(h, run) && NoWrapRun(h, run)
    ensures AllPaced(After(h, run))
    decreases |run|
  {
    if run != [] {
      StepKeepsPace(h, run[0]);
      RecurringNeverFast(Next(h, run[0]), run[1..]);
    }
  }

  lemma RecurringNeverFastFromStart(clock: nat, run: seq<Step>, x: nat, k: nat)
    requires AllowedRun(Begin(clock), run) && NoWrapRun(Begin(clock), run)
    requires var h := After(Begin(clock), run);
             x in h.timers.recs && h.timers.recs[x].recurring && x !in h.moved && k < |Times(h.fired, x)|
    ensures var h := After(Begin(clock), run);
            x in h.start && Times(h.fired, x)[k] >= h.start[x] + (k + 1) * h.timers.recs[x].ms
  {
    RecurringNeverFast(Begin(clock), run);
    assert Paced(After(Begin(clock), run), x);
    PeriodsIs(After(Begin(clock), run).start[x], k + 1, After(Begin(clock), run).timers.recs[x].ms);
  }
}
