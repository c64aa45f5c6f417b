/** The timer manager as a value: timers ordered by deadline, at most one per deadline. `I` identifies timers. */
module TimerSet {
  import opened Common
  import Deadlines

  /** The mutable fields of a timer; a callback is known by a number. */
  datatype Rec = Rec(next: nat, ms: nat, recurring: bool, cb: Option<nat>)

  /** `order` is the content of the ordered set, `recs` the fields of every timer ever made, held or not;
      `fronts` counts the calls of `onTimerInsertedAtFront`. */
  datatype Timers<I(==)> = Timers(order: seq<I>, recs: map<I, Rec>, tickled: bool, fronts: nat)

  ghost predicate Known<I>(order: seq<I>, recs: map<I, Rec>) {
    forall i :: 0 <= i < |order| ==> order[i] in recs
  }

  /** Strictly increasing deadlines. */
  ghost predicate Sorted<I>(order: seq<I>, recs: map<I, Rec>)
    requires Known(order, recs)
  {
    forall i, j :: 0 <= i < j < |order| ==> recs[order[i]].next < recs[order[j]].next
  }

  ghost predicate Valid<I>(s: Timers<I>) {
    Known(s.order, s.recs) && Sorted(s.order, s.recs)
  }

  /** `lower_bound`: how many held timers are due before `d`. */
  function LowerBound<I>(order: seq<I>, recs: map<I, Rec>, d: nat): (k: nat)
    requires Known(order, recs)
    ensures k <= |order|
    ensures forall i :: 0 <= i < k ==> recs[order[i]].next < d
    ensures k < |order| ==> d <= recs[order[k]].next
  {
    if order == [] || d <= recs[order[0]].next then 0
    else LowerBound(order[1..], recs, d) + 1
  }

  /** Some held timer has the deadline. */
  predicate Held<I>(s: Timers<I>, d: nat)
    requires Known(s.order, s.recs)
  {
    var k := LowerBound(s.order, s.recs, d);
    k < |s.order| && s.recs[s.order[k]].next == d
  }

  function Deadline(now: nat, ms: nat): nat {
    (now + ms) % TWO_64
  }

  /** `set::insert`: an equal deadline keeps the newcomer out. */
  function Insert<I>(s: Timers<I>, id: I): Timers<I>
    requires Known(s.order, s.recs) && id in s.recs
  {
    var k := LowerBound(s.order, s.recs, s.recs[id].next);
    s.(order := if Held(s, s.recs[id].next) then s.order else s.order[..k] + [id] + s.order[k..])
  }

  /** `TimerManager::addTimer(timer)`: insertion, and the front notice unless one is outstanding. */
  function AddHeld<I>(s: Timers<I>, id: I): Timers<I>
    requires Known(s.order, s.recs) && id in s.recs
  {
    var front := LowerBound(s.order, s.recs, s.recs[id].next) == 0 && !s.tickled;
    Insert(s, id).(tickled := s.tickled || front, fronts := if front then s.fronts + 1 else s.fronts)
  }

  function Add<I>(s: Timers<I>, id: I, now: nat, ms: nat, cb: Option<nat>, recurring: bool): Timers<I>
    requires Known(s.order, s.recs) && id !in s.recs
  {
    AddHeld(s.(recs := s.recs[id := Rec(Deadline(now, ms), ms, recurring, cb)]), id)
  }

  /** `timers_.erase(timers_.find(timer))`: whatever has the deadline goes. */
  function Erase<I>(s: Timers<I>, d: nat): Timers<I>
    requires Known(s.order, s.recs)
  {
    s.(order := if Held(s, d) then RemoveAt(s.order, LowerBound(s.order, s.recs, d)) else s.order)
  }

  /** `Timer::cancel` erases without looking. C++ leaves erasing at the end of a set undefined, so the call is defined
      only if a timer that still has its callback has its deadline held; here such an erasure erases nothing. */
  predicate CancelDefined<I>(s: Timers<I>, id: I)
    requires Known(s.order, s.recs) && id in s.recs
  {
    s.recs[id].cb.Some? ==> Held(s, s.recs[id].next)
  }

  function Cancel<I>(s: Timers<I>, id: I): Timers<I>
    requires Known(s.order, s.recs) && id in s.recs
  {
    if s.recs[id].cb.None? then s
    else Erase(s, s.recs[id].next).(recs := s.recs[id := s.recs[id].(cb := None)])
  }

  /** `refresh` and `reset` find nothing, and change nothing, without a callback or a held deadline. */
  predicate CanMove<I>(s: Timers<I>, id: I)
    requires Known(s.order, s.recs) && id in s.recs
  {
    s.recs[id].cb.Some? && Held(s, s.recs[id].next)
  }

  /** The erased timer may be another one with the same deadline: then this one is in the set only afterwards. */
  function Refresh<I>(s: Timers<I>, id: I, now: nat): Timers<I>
    requires Known(s.order, s.recs) && id in s.recs
  {
    if !CanMove(s, id) then s
    else
      var e := Erase(s, s.recs[id].next);
      Insert(e.(recs := e.recs[id := e.recs[id].(next := Deadline(now, e.recs[id].ms))]), id)
  }

  function Reset<I>(s: Timers<I>, id: I, ms: nat, fromNow: bool, now: nat): Timers<I>
    requires Known(s.order, s.recs) && id in s.recs
  {
    if (ms == s.recs[id].ms && !fromNow) || !CanMove(s, id) then s
    else
      var e := Erase(s, s.recs[id].next);
      var rec := e.recs[id];
      AddHeld(e.(recs := e.recs[id := rec.(ms := ms, next := if fromNow then Deadline(now, ms) else rec.next)]), id)
  }

  /** The front of the set up to and including `now`. */
  function ExpiredAt<I>(s: Timers<I>, now: nat): seq<I>
    requires Known(s.order, s.recs)
  {
    s.order[..LowerBound(s.order, s.recs, now + 1)]
  }

  function RearmOne<I>(s: Timers<I>, id: I, now: nat): Timers<I>
    requires Known(s.order, s.recs) && id in s.recs
  {
    if !s.recs[id].recurring then s
    else Insert(s.(recs := s.recs[id := s.recs[id].(next := Deadline(now, s.recs[id].ms))]), id)
  }

  /** The recurring ones among the expired timers go back, first come first served. */
  function Rearm<I>(s: Timers<I>, ids: seq<I>, now: nat): (t: Timers<I>)
    requires Known(s.order, s.recs) && (forall i :: 0 <= i < |ids| ==> ids[i] in s.recs)
    ensures t.recs.Keys == s.recs.Keys && Known(t.order, t.recs)
    ensures t.tickled == s.tickled && t.fronts == s.fronts
  {
    if ids == [] then s
    else RearmOne(Rearm(s, ids[..|ids| - 1], now), ids[|ids| - 1], now)
  }

  /** `listExpiredCb`. */
  function Expire<I>(s: Timers<I>, now: nat): Timers<I>
    requires Known(s.order, s.recs)
  {
    var ids := ExpiredAt(s, now);
    Rearm(s.(order := s.order[|ids|..]), ids, now)
  }

  function Callbacks<I>(ids: seq<I>, recs: map<I, Rec>): seq<Option<nat>>
    requires forall i :: 0 <= i < |ids| ==> ids[i] in recs
  {
    seq(|ids|, i requires 0 <= i < |ids| => recs[ids[i]].cb)
  }

  // ---- order is kept ----

  lemma BoundUnique<I>(order: seq<I>, recs: map<I, Rec>, d: nat, k: nat)
    requires Known(order, recs) && Sorted(order, recs) && k <= |order|
    requires forall i :: 0 <= i < k ==> recs[order[i]].next < d
    requires k < |order| ==> d <= recs[order[k]].next
    ensures LowerBound(order, recs, d) == k
  {
  }

  lemma HeldIff<I>(s: Timers<I>, d: nat)
    requires Valid(s)
    ensures Held(s, d) <==> exists i :: 0 <= i < |s.order| && s.recs[s.order[i]].next == d
  {
    forall i | 0 <= i < |s.order| && s.recs[s.order[i]].next == d ensures Held(s, d) {
      BoundUnique(s.order, s.recs, d, i);
    }
  }

  lemma InsertAt<T>(s: seq<T>, k: nat, x: T)
    requires k <= |s|
    ensures var t := s[..k] + [x] + s[k..];
            (forall y :: y in t <==> y in s || y == x)
  {
    assert s == s[..k] + s[k..];
  }

  lemma InsertValid<I>(s: Timers<I>, id: I)
    requires Valid(s) && id in s.recs
    ensures Valid(Insert(s, id))
    ensures forall x :: x in Insert(s, id).order <==> x in s.order || (x == id && !Held(s, s.recs[id].next))
  {
    var k := LowerBound(s.order, s.recs, s.recs[id].next);
    if !Held(s, s.recs[id].next) {
      var t := s.order[..k] + [id] + s.order[k..];
      InsertAt(s.order, k, id);
      InsertedSorted(s.order, s.recs, k, id, t);
    }
  }

  lemma InsertedSorted<I>(order: seq<I>, recs: map<I, Rec>, k: nat, id: I, t: seq<I>)
    requires Known(order, recs) && Sorted(order, recs) && id in recs && k <= |order|
    requires t == order[..k] + [id] + order[k..]
    requires forall i :: 0 <= i < k ==> recs[order[i]].next < recs[id].next
    requires k < |order| ==> recs[id].next < recs[order[k]].next
    ensures Known(t, recs) && Sorted(t, recs)
  {
    forall i | 0 <= i < |t| ensures t[i] in recs {
      if i < k {
        assert t[i] == order[i];
      } else if i > k {
        assert t[i] == order[i - 1];
      } else {
        assert t[i] == id;
      }
    }
    forall i, j | 0 <= i < j < |t| ensures recs[t[i]].next < recs[t[j]].next {
      if j > k {
        assert t[j] == order[j - 1];
        if i > k {
          assert t[i] == order[i - 1];
        }
      }
    }
  }

  lemma EraseValid<I>(s: Timers<I>, d: nat)
    requires Valid(s)
    ensures Valid(Erase(s, d))
    ensures forall x :: x in Erase(s, d).order <==> x in s.order && s.recs[x].next != d
  {
    HeldIff(s, d);
    if Held(s, d) {
      EraseHeldValid(s, d);
    }
  }

  lemma EraseHeldValid<I>(s: Timers<I>, d: nat)
    requires Valid(s) && Held(s, d)
    ensures Valid(Erase(s, d))
    ensures forall x :: x in Erase(s, d).order <==> x in s.order && s.recs[x].next != d
  {
    var k := LowerBound(s.order, s.recs, d);
    var t := Erase(s, d).order;
    assert forall i :: 0 <= i < |t| ==> t[i] == if i < k then s.order[i] else s.order[i + 1];
    forall x | x in s.order && s.recs[x].next != d ensures x in t {
      var i :| 0 <= i < |s.order| && s.order[i] == x;
      assert x == if i < k then t[i] else t[i - 1];
    }
  }

  /** The key of a timer outside the set may change. */
  lemma ChangeOutsider<I>(s: Timers<I>, id: I, rec: Rec)
    requires Valid(s) && id !in s.order
    ensures Valid(s.(recs := s.recs[id := rec]))
  {
  }

  lemma AddValid<I>(s: Timers<I>, id: I, now: nat, ms: nat, cb: Option<nat>, recurring: bool)
    requires Valid(s) && id !in s.recs
    ensures Valid(Add(s, id, now, ms, cb, recurring))
    ensures forall x :: x in Add(s, id, now, ms, cb, recurring).order <==>
              x in s.order || (x == id && !Held(s, Deadline(now, ms)))
  {
    var s1 := s.(recs := s.recs[id := Rec(Deadline(now, ms), ms, recurring, cb)]);
    ChangeOutsider(s, id, s1.recs[id]);
    InsertValid(s1, id);
    SameBound(s.order, s.recs, s1.recs, Deadline(now, ms));
  }

  lemma SameBound<I>(order: seq<I>, a: map<I, Rec>, b: map<I, Rec>, d: nat)
    requires Known(order, a) && Known(order, b) && forall i :: 0 <= i < |order| ==> a[order[i]].next == b[order[i]].next
    ensures LowerBound(order, a, d) == LowerBound(order, b, d)
  {
  }

  /** Cancelling takes out exactly the timers with the cancelled deadline: the timer itself if it is held. */
  lemma CancelValid<I>(s: Timers<I>, id: I)
    requires Valid(s) && id in s.recs
    ensures Valid(Cancel(s, id))
    ensures s.recs[id].cb.Some? ==>
              forall x :: x in Cancel(s, id).order <==> x in s.order && s.recs[x].next != s.recs[id].next
  {
    if s.recs[id].cb.Some? {
      EraseValid(s, s.recs[id].next);
    }
  }

  /** Neither operation changes the key of a timer that is in the set, even when the erased timer is another one
      that kept this one out. */
  lemma MoveValid<I>(s: Timers<I>, id: I, rec: Rec)
    requires Valid(s) && id in s.recs && CanMove(s, id)
    ensures var e := Erase(s, s.recs[id].next);
            && id !in e.order && e.recs == s.recs
            && Valid(e.(recs := e.recs[id := rec])) && Valid(Insert(e.(recs := e.recs[id := rec]), id))
  {
    var e := Erase(s, s.recs[id].next);
    EraseValid(s, s.recs[id].next);
    ChangeOutsider(e, id, rec);
    InsertValid(e.(recs := e.recs[id := rec]), id);
  }

  lemma RefreshValid<I>(s: Timers<I>, id: I, now: nat)
    requires Valid(s) && id in s.recs
    ensures Valid(Refresh(s, id, now))
  {
    if CanMove(s, id) {
      MoveValid(s, id, s.recs[id].(next := Deadline(now, s.recs[id].ms)));
    }
  }

  lemma ResetValid<I>(s: Timers<I>, id: I, ms: nat, fromNow: bool, now: nat)
    requires Valid(s) && id in s.recs
    ensures Valid(Reset(s, id, ms, fromNow, now))
  {
    if CanMove(s, id) {
      MoveValid(s, id, s.recs[id].(ms := ms, next := if fromNow then Deadline(now, ms) else s.recs[id].next));
    }
  }

  // ---- what adding and moving do ----

  /** Some timer in the set is due at `d`. */
  ghost predicate SomeAt<I>(s: Timers<I>, d: nat) {
    exists x :: x in s.order && x in s.recs && s.recs[x].next == d
  }

  /** No timer in the set is due before `d`. */
  ghost predicate NoneBefore<I>(s: Timers<I>, d: nat) {
    forall x :: x in s.order && x in s.recs ==> d <= s.recs[x].next
  }

  lemma HeldMeans<I>(s: Timers<I>, d: nat)
    requires Valid(s)
    ensures Held(s, d) <==> SomeAt(s, d)
    ensures LowerBound(s.order, s.recs, d) == 0 <==> NoneBefore(s, d)
  {
    HeldIff(s, d);
    if Held(s, d) {
      var i :| 0 <= i < |s.order| && s.recs[s.order[i]].next == d;
      assert s.order[i] in s.order;
    }
    if LowerBound(s.order, s.recs, d) > 0 {
      assert s.order[0] in s.order && s.recs[s.order[0]].next < d;
    } else {
      forall x | x in s.order && x in s.recs ensures d <= s.recs[x].next {
        var i :| 0 <= i < |s.order| && s.order[i] == x;
        assert i == 0 || s.recs[s.order[0]].next < s.recs[s.order[i]].next;
      }
    }
  }

  /** `id`, with the fields `rec`, has been put into the set of `e`, which gave it to `t`: it got in exactly if no
      timer was due at the same time, and nothing else changed; with a front notice exactly if none was due before it
      and none was outstanding. `noticed` says whether the operation gives notice at all. */
  ghost predicate PutIn<I>(e: Timers<I>, t: Timers<I>, id: I, rec: Rec, noticed: bool) {
    && t.recs == e.recs[id := rec]
    && (forall x :: x in e.order ==> x in t.order) && (forall x :: x in t.order ==> x in e.order || x == id)
    && (id in t.order <==> id in e.order || !SomeAt(e, rec.next))
    && (var notice := noticed && NoneBefore(e, rec.next) && !e.tickled;
        t.tickled == (e.tickled || notice) && t.fronts == e.fronts + if notice then 1 else 0)
  }

  lemma InsertPutsIn<I>(e: Timers<I>, id: I, rec: Rec)
    requires Valid(e) && id !in e.order
    ensures var u := e.(recs := e.recs[id := rec]);
            Known(u.order, u.recs) && PutIn(e, Insert(u, id), id, rec, false) && PutIn(e, AddHeld(u, id), id, rec, true)
  {
    var u := e.(recs := e.recs[id := rec]);
    ChangeOutsider(e, id, rec);
    InsertValid(u, id);
    HeldMeans(u, rec.next);
    assert forall x :: x in e.order ==> x in e.recs && u.recs[x] == e.recs[x];
    assert SomeAt(u, rec.next) <==> SomeAt(e, rec.next);
    assert NoneBefore(u, rec.next) <==> NoneBefore(e, rec.next);
  }

  /** A new timer is due `ms` after the clock reading, modulo 2^64. */
  lemma AddExact<I>(s: Timers<I>, id: I, now: nat, ms: nat, cb: Option<nat>, recurring: bool)
    requires Valid(s) && id !in s.recs
    ensures PutIn(s, Add(s, id, now, ms, cb, recurring), id, Rec((now + ms) % TWO_64, ms, recurring, cb), true)
  {
    InsertPutsIn(s, id, Rec(Deadline(now, ms), ms, recurring, cb));
  }

  /** The timers due at `d` are out of the set, and nothing else has changed. */
  ghost predicate TakenAt<I>(s: Timers<I>, e: Timers<I>, d: nat) {
    && Known(s.order, s.recs) && e.recs == s.recs && e.tickled == s.tickled && e.fronts == s.fronts
    && (forall x :: x in e.order ==> x in s.order && s.recs[x].next != d)
    && (forall x :: x in s.order && s.recs[x].next != d ==> x in e.order)
  }

  lemma MoveExact<I>(s: Timers<I>, id: I, rec: Rec) returns (e: Timers<I>)
    requires Valid(s) && id in s.recs
    ensures e == Erase(s, s.recs[id].next) && CanMove(s, id) == (s.recs[id].cb.Some? && SomeAt(s, s.recs[id].next))
    ensures var u := e.(recs := e.recs[id := rec]);
            Known(u.order, u.recs) && TakenAt(s, e, s.recs[id].next) && PutIn(e, Insert(u, id), id, rec, false)
            && PutIn(e, AddHeld(u, id), id, rec, true)
  {
    e := Erase(s, s.recs[id].next);
    EraseValid(s, s.recs[id].next);
    HeldMeans(s, s.recs[id].next);
    InsertPutsIn(e, id, rec);
  }

  /** `refresh` moves a timer that has its callback and whose deadline is held: whatever holds it goes, and the timer
      is put in again, due its own period after the clock reading, without notice. Otherwise it does nothing. */
  lemma RefreshExact<I>(s: Timers<I>, id: I, now: nat) returns (e: Timers<I>)
    requires Valid(s) && id in s.recs
    ensures var r := s.recs[id]; var t := Refresh(s, id, now);
            if r.cb.Some? && SomeAt(s, r.next) then
              TakenAt(s, e, r.next) && PutIn(e, t, id, r.(next := (now + r.ms) % TWO_64), false)
            else t == s
  {
    e := MoveExact(s, id, s.recs[id].(next := Deadline(now, s.recs[id].ms)));
  }

  /** `reset` does so with the new period, due that long after the clock reading or as before, and with notice; it does
      nothing if neither the period nor the start is to change. */
  lemma ResetExact<I>(s: Timers<I>, id: I, ms: nat, fromNow: bool, now: nat) returns (e: Timers<I>)
    requires Valid(s) && id in s.recs
    ensures var r := s.recs[id]; var t := Reset(s, id, ms, fromNow, now);
            if (ms != r.ms || fromNow) && r.cb.Some? && SomeAt(s, r.next) then
              && TakenAt(s, e, r.next)
              && PutIn(e, t, id, r.(ms := ms, next := if fromNow then (now + ms) % TWO_64 else r.next), true)
            else t == s
  {
    var rec := s.recs[id].(ms := ms, next := if fromNow then Deadline(now, ms) else s.recs[id].next);
    e := MoveExact(s, id, rec);
    assert (ms != s.recs[id].ms || fromNow) && CanMove(s, id) ==>
             Reset(s, id, ms, fromNow, now) == AddHeld(e.(recs := e.recs[id := rec]), id);
  }

  // ---- listExpiredCb is exact ----

  /** The i-th expired timer goes back: it is recurring, no remaining timer has its new deadline, and no earlier
      expired one has taken it. */
  ghost predicate GoesBack<I>(s: Timers<I>, ids: seq<I>, i: nat, now: nat)
    requires Known(s.order, s.recs) && (forall j :: 0 <= j < |ids| ==> ids[j] in s.recs) && i < |ids|
  {
    && s.recs[ids[i]].recurring
    && !Held(s, Deadline(now, s.recs[ids[i]].ms))
    && forall j :: 0 <= j < i && s.recs[ids[j]].recurring ==>
         Deadline(now, s.recs[ids[j]].ms) != Deadline(now, s.recs[ids[i]].ms)
  }

  function Rearmed<I>(s: Timers<I>, ids: seq<I>, now: nat): map<I, Rec> {
    map x | x in s.recs :: if x in ids && s.recs[x].recurring
                           then s.recs[x].(next := Deadline(now, s.recs[x].ms)) else s.recs[x]
  }

  /** Of several expired timers that want one free deadline the first gets it. */
  lemma FirstTaker<I>(s: Timers<I>, ids: seq<I>, i: nat, now: nat) returns (w: nat)
    requires Known(s.order, s.recs) && (forall j :: 0 <= j < |ids| ==> ids[j] in s.recs) && i < |ids|
    requires s.recs[ids[i]].recurring && !Held(s, Deadline(now, s.recs[ids[i]].ms))
    ensures w <= i && GoesBack(s, ids, w, now)
    ensures Deadline(now, s.recs[ids[w]].ms) == Deadline(now, s.recs[ids[i]].ms)
    decreases i
  {
    if j :| 0 <= j < i && s.recs[ids[j]].recurring
            && Deadline(now, s.recs[ids[j]].ms) == Deadline(now, s.recs[ids[i]].ms) {
      w := FirstTaker(s, ids, j, now);
    } else {
      w := i;
    }
  }

  ghost predicate BackAmong<I>(s: Timers<I>, ids: seq<I>, x: I, now: nat)
    requires Known(s.order, s.recs) && (forall j :: 0 <= j < |ids| ==> ids[j] in s.recs)
  {
    exists i :: 0 <= i < |ids| && ids[i] == x && GoesBack(s, ids, i, now)
  }

  /** Expired timers: known, all different, out of the set. */
  ghost predicate TakenOut<I>(s: Timers<I>, ids: seq<I>) {
    && Valid(s) && Distinct(ids)
    && forall i :: 0 <= i < |ids| ==> ids[i] in s.recs && ids[i] !in s.order
  }

  ghost predicate RearmedExactly<I>(s: Timers<I>, ids: seq<I>, t: Timers<I>, now: nat)
    requires TakenOut(s, ids)
  {
    && Valid(t) && t.recs == Rearmed(s, ids, now)
    && (forall x :: x in t.order ==> x in s.order || BackAmong(s, ids, x, now))
    && (forall x :: x in s.order ==> x in t.order)
    && (forall i :: 0 <= i < |ids| && GoesBack(s, ids, i, now) ==> ids[i] in t.order)
  }

  ghost predicate WantedBy<I>(s: Timers<I>, ids: seq<I>, d: nat, now: nat)
    requires forall j :: 0 <= j < |ids| ==> ids[j] in s.recs
  {
    exists j :: 0 <= j < |ids| && s.recs[ids[j]].recurring && Deadline(now, s.recs[ids[j]].ms) == d
  }

  lemma HeldAfterRearm<I>(s: Timers<I>, ids: seq<I>, t: Timers<I>, now: nat, d: nat)
    requires TakenOut(s, ids) && RearmedExactly(s, ids, t, now)
    ensures Held(t, d) <==> Held(s, d) || WantedBy(s, ids, d, now)
  {
    HeldIff(s, d);
    HeldIff(t, d);
    if Held(t, d) {
      var i :| 0 <= i < |t.order| && t.recs[t.order[i]].next == d;
      assert t.order[i] in t.order;
    }
    if Held(s, d) {
      var i :| 0 <= i < |s.order| && s.recs[s.order[i]].next == d;
      assert s.order[i] in t.order;
    } else if WantedBy(s, ids, d, now) {
      var j :| 0 <= j < |ids| && s.recs[ids[j]].recurring && Deadline(now, s.recs[ids[j]].ms) == d;
      var w := FirstTaker(s, ids, j, now);
      assert BackAmong(s, ids, ids[w], now);
      assert ids[w] in t.order && t.recs[ids[w]].next == d;
    }
  }

  lemma GoesBackPrefix<I>(s: Timers<I>, ids: seq<I>, now: nat)
    requires TakenOut(s, ids) && ids != []
    ensures TakenOut(s, ids[..|ids| - 1])
    ensures forall x :: BackAmong(s, ids, x, now) <==>
              BackAmong(s, ids[..|ids| - 1], x, now) || (x == ids[|ids| - 1] && GoesBack(s, ids, |ids| - 1, now))
    ensures GoesBack(s, ids, |ids| - 1, now) <==>
              var r := s.recs[ids[|ids| - 1]];
              r.recurring && !Held(s, Deadline(now, r.ms)) && !WantedBy(s, ids[..|ids| - 1], Deadline(now, r.ms), now)
  {
    var pre := ids[..|ids| - 1];
    assert forall i :: 0 <= i < |pre| ==> pre[i] == ids[i];
    forall i | 0 <= i < |pre| ensures GoesBack(s, pre, i, now) <==> GoesBack(s, ids, i, now) {
    }
    forall x ensures BackAmong(s, ids, x, now) <==>
                     BackAmong(s, pre, x, now) || (x == ids[|ids| - 1] && GoesBack(s, ids, |ids| - 1, now)) {
      if BackAmong(s, pre, x, now) {
        var i :| 0 <= i < |pre| && pre[i] == x && GoesBack(s, pre, i, now);
        assert ids[i] == x && GoesBack(s, ids, i, now);
      }
      if BackAmong(s, ids, x, now) {
        var i :| 0 <= i < |ids| && ids[i] == x && GoesBack(s, ids, i, now);
        if i < |pre| {
          assert pre[i] == x && GoesBack(s, pre, i, now);
        }
      }
    }
  }

  lemma RearmedPrefix<I>(s: Timers<I>, ids: seq<I>, now: nat)
    requires TakenOut(s, ids) && ids != []
    ensures var pre := Rearmed(s, ids[..|ids| - 1], now); var x := ids[|ids| - 1]; var r := s.recs[x];
            Rearmed(s, ids, now) == if r.recurring then pre[x := r.(next := Deadline(now, r.ms))] else pre
    ensures Rearmed(s, ids[..|ids| - 1], now)[ids[|ids| - 1]] == s.recs[ids[|ids| - 1]]
  {
    var pre := ids[..|ids| - 1];
    assert ids == pre + [ids[|ids| - 1]];
    assert ids[|ids| - 1] !in pre;
  }

  lemma IffIsExact<I>(s: Timers<I>, ids: seq<I>, t: Timers<I>, now: nat)
    requires TakenOut(s, ids) && Valid(t) && t.recs == Rearmed(s, ids, now)
    requires forall x :: x in t.order <==> x in s.order || BackAmong(s, ids, x, now)
    ensures RearmedExactly(s, ids, t, now)
  {
    forall i | 0 <= i < |ids| && GoesBack(s, ids, i, now) ensures ids[i] in t.order {
      assert BackAmong(s, ids, ids[i], now);
    }
  }

  /** What a whole round of re-arming leaves. */
  lemma {:induction false} RearmExact<I>(s: Timers<I>, ids: seq<I>, now: nat)
    requires TakenOut(s, ids)
    ensures var t := Rearm(s, ids, now);
            && Valid(t) && t.recs == Rearmed(s, ids, now)
            && (forall x :: x in t.order <==> x in s.order || BackAmong(s, ids, x, now))
    decreases |ids|
  {
    if ids == [] {
      assert Rearmed(s, ids, now) == s.recs;
    } else {
      var pre := ids[..|ids| - 1];
      var x := ids[|ids| - 1];
      var t := Rearm(s, pre, now);
      GoesBackPrefix(s, ids, now);
      RearmExact(s, pre, now);
      IffIsExact(s, pre, t, now);
      RearmedPrefix(s, ids, now);
      if s.recs[x].recurring {
        var d := Deadline(now, s.recs[x].ms);
        assert x !in t.order by {
          assert x !in pre;
        }
        var u := t.(recs := t.recs[x := t.recs[x].(next := d)]);
        ChangeOutsider(t, x, u.recs[x]);
        InsertValid(u, x);
        SameBound(t.order, t.recs, u.recs, d);
        HeldAfterRearm(s, pre, t, now, d);
      }
    }
  }

  lemma ExpiredShape<I>(s: Timers<I>, now: nat)
    requires Valid(s)
    ensures var ids := ExpiredAt(s, now);
            && TakenOut(s.(order := s.order[|ids|..]), ids)
            && (forall i, j :: 0 <= i < j < |ids| ==> s.recs[ids[i]].next < s.recs[ids[j]].next)
            && (forall x :: x in ids <==> x in s.order && s.recs[x].next <= now)
            && (forall x :: x in s.order[|ids|..] <==> x in s.order && s.recs[x].next > now)
  {
    var k := LowerBound(s.order, s.recs, now + 1);
    SplitAt(s.order, k);
    forall i | k <= i < |s.order| ensures s.recs[s.order[i]].next > now {
      assert i == k || s.recs[s.order[k]].next < s.recs[s.order[i]].next;
    }
  }

  lemma SplitAt<T>(s: seq<T>, k: nat)
    requires k <= |s|
    ensures forall x :: x in s <==> x in s[..k] || x in s[k..]
    ensures forall x :: x in s[k..] ==> exists i :: k <= i < |s| && s[i] == x
    ensures forall i :: 0 <= i < |s[k..]| ==> s[k..][i] == s[k + i]
  {
    assert s == s[..k] + s[k..];
    forall x | x in s[k..] ensures exists i :: k <= i < |s| && s[i] == x {
      var j :| 0 <= j < |s[k..]| && s[k..][j] == x;
      assert s[k + j] == x;
    }
  }

  /** `listExpiredCb(now)` is exact: the expired timers are the held ones due by `now`, in deadline order; the set
      then holds the later ones, untouched, and every expired recurring timer whose new deadline `now + ms` is
      neither held by a later timer nor taken by an expired one before it. */
  lemma ExpireExact<I>(s: Timers<I>, now: nat)
    requires Valid(s)
    ensures var ids := ExpiredAt(s, now); var later := s.(order := s.order[|ids|..]); var t := Expire(s, now);
            && (forall x :: x in ids <==> x in s.order && s.recs[x].next <= now)
            && (forall i, j :: 0 <= i < j < |ids| ==> s.recs[ids[i]].next < s.recs[ids[j]].next)
            && (forall x :: x in later.order <==> x in s.order && s.recs[x].next > now)
            && TakenOut(later, ids) && RearmedExactly(later, ids, t, now)
  {
    ExpiredShape(s, now);
    var ids := ExpiredAt(s, now);
    var later := s.(order := s.order[|ids|..]);
    RearmExact(later, ids, now);
    IffIsExact(later, ids, Expire(s, now), now);
  }

  lemma PrefixTakenOut<I>(s: Timers<I>, ids: seq<I>, j: nat)
    requires TakenOut(s, ids) && j < |ids|
    ensures TakenOut(s, ids[..j]) && ids[j] !in ids[..j] && ids[j] in s.recs && ids[j] !in s.order
  {
    assert forall i :: 0 <= i < j ==> ids[..j][i] == ids[i];
  }

  /** One turn of the loop that re-arms: the next timer is out of the set and has its old fields. */
  lemma RearmTurn<I>(s: Timers<I>, ids: seq<I>, j: nat, now: nat)
    requires TakenOut(s, ids) && j < |ids|
    ensures var t := Rearm(s, ids[..j], now);
            && ids[j] in t.recs && ids[j] !in t.order && t.recs[ids[j]] == s.recs[ids[j]]
            && Rearm(s, ids[..j + 1], now) == RearmOne(t, ids[j], now)
  {
    PrefixTakenOut(s, ids, j);
    RearmExact(s, ids[..j], now);
    NotBackAmong(s, ids, j, now);
    var longer := ids[..j + 1];
    assert longer[..|longer| - 1] == ids[..j] && longer[|longer| - 1] == ids[j];
  }

  lemma NotBackAmong<I>(s: Timers<I>, ids: seq<I>, j: nat, now: nat)
    requires TakenOut(s, ids) && j < |ids| && TakenOut(s, ids[..j])
    ensures !BackAmong(s, ids[..j], ids[j], now)
  {
    forall i | 0 <= i < j ensures ids[..j][i] != ids[j] {
      assert ids[..j][i] == ids[i];
    }
  }

  lemma NextCallback<I>(ids: seq<I>, recs: map<I, Rec>, j: nat)
    requires j < |ids| && forall i :: 0 <= i < |ids| ==> ids[i] in recs
    ensures Callbacks(ids[..j + 1], recs) == Callbacks(ids[..j], recs) + [recs[ids[j]].cb]
  {
  }

  /** A one-shot timer that has fired keeps its callback, so `cancel` on it still erases by deadline. That is
      defined exactly when a recurring timer of the same round was re-armed for that very deadline, which takes a
      period of zero or a wrapped clock. `do_io` makes this call after every timeout. */
  lemma CancelAfterFiringDefinedIff<I>(s: Timers<I>, id: I, now: nat)
    requires Valid(s) && id in s.order && s.recs[id].next <= now && !s.recs[id].recurring && s.recs[id].cb.Some?
    ensures Known(Expire(s, now).order, Expire(s, now).recs) && id in Expire(s, now).recs
    ensures CancelDefined(Expire(s, now), id) <==> WantedBy(s, ExpiredAt(s, now), s.recs[id].next, now)
  {
    ExpireExact(s, now);
    var ids := ExpiredAt(s, now);
    var later := s.(order := s.order[|ids|..]);
    HeldAfterRearm(later, ids, Expire(s, now), now, s.recs[id].next);
    HeldIff(later, s.recs[id].next);
  }

  // ---- the same set, seen as a map from deadlines ----

  function ByDeadline<I>(s: Timers<I>): map<nat, I>
    requires Valid(s)
  {
    map i | 0 <= i < |s.order| :: s.recs[s.order[i]].next := s.order[i]
  }

  lemma InMapIff<I>(s: Timers<I>, d: nat)
    requires Valid(s)
    ensures d in ByDeadline(s) <==> Held(s, d)
    ensures d in ByDeadline(s) ==> ByDeadline(s)[d] in s.order && s.recs[ByDeadline(s)[d]].next == d
  {
    HeldIff(s, d);
  }

  lemma MapAt<I>(s: Timers<I>, x: I)
    requires Valid(s) && x in s.order
    ensures s.recs[x].next in ByDeadline(s) && ByDeadline(s)[s.recs[x].next] == x
  {
    var i :| 0 <= i < |s.order| && s.order[i] == x;
  }

  /** Insertion, erasure and expiry act on the map as the runtime's steps do. */
  lemma InsertOnMap<I>(s: Timers<I>, id: I)
    requires Valid(s) && id in s.recs && id !in s.order
    ensures Valid(Insert(s, id))
    ensures ByDeadline(Insert(s, id)) == Deadlines.Insert(ByDeadline(s), s.recs[id].next, id)
  {
    InsertValid(s, id);
    var t := Insert(s, id);
    var m := Deadlines.Insert(ByDeadline(s), s.recs[id].next, id);
    InMapIff(s, s.recs[id].next);
    forall d | d in ByDeadline(t) ensures d in m && m[d] == ByDeadline(t)[d] {
      InMapIff(t, d);
      var x := ByDeadline(t)[d];
      if x in s.order {
        MapAt(s, x);
      }
    }
    forall d | d in m ensures d in ByDeadline(t) {
      InMapIff(s, d);
      MapAt(t, m[d]);
    }
  }

  /** Taking timers out of the set takes their deadlines out of the map. */
  lemma KeptOnMap<I>(s: Timers<I>, t: Timers<I>, m: map<nat, I>)
    requires Valid(s) && Valid(t) && t.recs == s.recs && (forall x :: x in t.order ==> x in s.order)
    requires forall d :: d in m <==> d in ByDeadline(s) && ByDeadline(s)[d] in t.order
    requires forall d :: d in m ==> m[d] == ByDeadline(s)[d]
    ensures ByDeadline(t) == m
  {
    forall d | d in ByDeadline(t) ensures d in m && m[d] == ByDeadline(t)[d] {
      InMapIff(t, d);
      MapAt(s, ByDeadline(t)[d]);
    }
    forall d | d in m ensures d in ByDeadline(t) {
      InMapIff(s, d);
      MapAt(t, m[d]);
    }
  }

  lemma EraseOnMap<I>(s: Timers<I>, d: nat)
    requires Valid(s)
    ensures Valid(Erase(s, d)) && ByDeadline(Erase(s, d)) == ByDeadline(s) - {d}
  {
    EraseValid(s, d);
    forall e | e in ByDeadline(s) ensures ByDeadline(s)[e] in Erase(s, d).order <==> e != d {
      InMapIff(s, e);
    }
    KeptOnMap(s, Erase(s, d), ByDeadline(s) - {d});
  }

  /** The period after which an expired timer wants to be held again. */
  function PeriodOf<I>(recs: map<I, Rec>): I -> Option<nat> {
    (x: I) => if x in recs && recs[x].recurring then Some(recs[x].ms) else None
  }

  /** No deadline computed in a round at `now` wraps. */
  predicate NoneWraps<I>(s: Timers<I>, now: nat)
    requires Known(s.order, s.recs)
  {
    forall i :: 0 <= i < |s.order| && s.recs[s.order[i]].recurring ==> now + s.recs[s.order[i]].ms < TWO_64
  }

  ghost function RearmedMap<I>(s: Timers<I>, now: nat): map<nat, I>
    requires Valid(s)
  {
    var m := ByDeadline(s);
    Deadlines.Rearmed(Deadlines.Later(m, now), Deadlines.Due(m, now), PeriodOf(s.recs), now)
  }

  lemma ExpiredAreDue<I>(s: Timers<I>, now: nat)
    requires Valid(s)
    ensures forall d :: d in Deadlines.Due(ByDeadline(s), now) ==>
              ByDeadline(s)[d] in ExpiredAt(s, now) && s.recs[ByDeadline(s)[d]].next == d
    ensures forall x :: x in ExpiredAt(s, now) ==>
              s.recs[x].next in Deadlines.Due(ByDeadline(s), now) && ByDeadline(s)[s.recs[x].next] == x
  {
    ExpiredShape(s, now);
    forall d | d in ByDeadline(s) ensures ByDeadline(s)[d] in s.order && s.recs[ByDeadline(s)[d]].next == d {
      InMapIff(s, d);
    }
    forall x | x in s.order ensures s.recs[x].next in ByDeadline(s) && ByDeadline(s)[s.recs[x].next] == x {
      MapAt(s, x);
    }
  }

  /** An expired timer, by its place among them. */
  lemma ExpiredOne<I>(s: Timers<I>, now: nat, i: nat)
    requires Valid(s) && NoneWraps(s, now) && i < |ExpiredAt(s, now)|
    ensures var x := ExpiredAt(s, now)[i]; var due := Deadlines.Due(ByDeadline(s), now); var r := s.recs[x];
            && r.next in due && due[r.next] == x
            && (r.recurring ==>
                  Deadline(now, r.ms) == now + r.ms
                  && r.next in Deadlines.Wanting(due, PeriodOf(s.recs), now, now + r.ms))
  {
    var x := ExpiredAt(s, now)[i];
    var due := Deadlines.Due(ByDeadline(s), now);
    assert x in ExpiredAt(s, now) && x == s.order[i];
    assert s.recs[x].next in due && due[s.recs[x].next] == x by {
      ExpiredAreDue(s, now);
    }
    if s.recs[x].recurring {
      assert now + s.recs[x].ms < TWO_64;
      WantsItsPeriod(due, s.recs, now, s.recs[x].next);
    }
  }

  lemma WantsItsPeriod<I>(due: map<nat, I>, recs: map<I, Rec>, now: nat, d: nat)
    requires d in due && due[d] in recs && recs[due[d]].recurring
    ensures d in Deadlines.Wanting(due, PeriodOf(recs), now, now + recs[due[d]].ms)
  {
  }

  lemma WantingOne<I>(s: Timers<I>, now: nat, e: nat, d: nat) returns (j: nat)
    requires Valid(s) && NoneWraps(s, now)
    requires d in Deadlines.Wanting(Deadlines.Due(ByDeadline(s), now), PeriodOf(s.recs), now, e)
    ensures j < |ExpiredAt(s, now)| && s.recs[ExpiredAt(s, now)[j]].next == d
    ensures s.recs[ExpiredAt(s, now)[j]].recurring && Deadline(now, s.recs[ExpiredAt(s, now)[j]].ms) == e
  {
    var due := Deadlines.Due(ByDeadline(s), now);
    ExpiredAreDue(s, now);
    j :| 0 <= j < |ExpiredAt(s, now)| && ExpiredAt(s, now)[j] == due[d];
    ExpiredOne(s, now, j);
  }

  /** The places among the expired timers of those that want a deadline. */
  lemma WantedAfter<I>(s: Timers<I>, now: nat, i: nat, d: nat)
    requires Valid(s) && NoneWraps(s, now)
    requires var ids := ExpiredAt(s, now); var later := s.(order := s.order[|ids|..]);
             i < |ids| && GoesBack(later, ids, i, now)
    requires var e := Deadline(now, s.recs[ExpiredAt(s, now)[i]].ms);
             d in Deadlines.Wanting(Deadlines.Due(ByDeadline(s), now), PeriodOf(s.recs), now, e)
    ensures s.recs[ExpiredAt(s, now)[i]].next <= d
  {
    ExpiredShape(s, now);
    var j := WantingOne(s, now, Deadline(now, s.recs[ExpiredAt(s, now)[i]].ms), d);
    NoneEarlier(s, now, i, j);
  }

  /** No expired timer before the one that goes back wants the same deadline. */
  lemma NoneEarlier<I>(s: Timers<I>, now: nat, i: nat, j: nat)
    requires Valid(s)
    requires var ids := ExpiredAt(s, now); var later := s.(order := s.order[|ids|..]);
             i < |ids| && j < |ids| && GoesBack(later, ids, i, now) && s.recs[ids[j]].recurring
    requires var ids := ExpiredAt(s, now); Deadline(now, s.recs[ids[j]].ms) == Deadline(now, s.recs[ids[i]].ms)
    ensures i <= j
  {
  }

  /** The timer that goes back for a deadline is the one the map picks. */
  lemma BackIsWinner<I>(s: Timers<I>, now: nat, i: nat)
    requires Valid(s) && NoneWraps(s, now)
    requires var ids := ExpiredAt(s, now); var later := s.(order := s.order[|ids|..]);
             i < |ids| && GoesBack(later, ids, i, now)
    ensures var x := ExpiredAt(s, now)[i]; var e := Deadline(now, s.recs[x].ms);
            var due := Deadlines.Due(ByDeadline(s), now);
            && e in Deadlines.Wishes(due, PeriodOf(s.recs), now)
            && Deadlines.Winner(due, PeriodOf(s.recs), now, e) == x
  {
    var r := s.recs[ExpiredAt(s, now)[i]];
    var due := Deadlines.Due(ByDeadline(s), now);
    var e := Deadline(now, r.ms);
    var wanting := Deadlines.Wanting(due, PeriodOf(s.recs), now, e);
    ExpiredOne(s, now, i);
    forall d | d in wanting ensures r.next <= d {
      WantedAfter(s, now, i, d);
    }
    Deadlines.FirstWins(due, PeriodOf(s.recs), now, e, r.next);
  }

  lemma LaterOnMap<I>(s: Timers<I>, now: nat, e: nat)
    requires Valid(s)
    ensures var later := s.(order := s.order[|ExpiredAt(s, now)|..]); var m := Deadlines.Later(ByDeadline(s), now);
            && Valid(later) && (e in m <==> Held(later, e))
            && (e in m ==> m[e] in later.order && s.recs[m[e]].next == e)
  {
    var later := s.(order := s.order[|ExpiredAt(s, now)|..]);
    ExpiredShape(s, now);
    InMapIff(s, e);
    HeldIff(later, e);
    if Held(later, e) {
      var i :| 0 <= i < |later.order| && later.recs[later.order[i]].next == e;
      assert later.order[i] in later.order;
      MapAt(s, later.order[i]);
    }
  }

  /** What is held after the round is in the map, under the same timer. */
  lemma ExpiryIntoMap<I>(s: Timers<I>, now: nat, x: I)
    requires Valid(s) && NoneWraps(s, now) && x in Expire(s, now).order
    ensures x in Expire(s, now).recs
    ensures var e := Expire(s, now).recs[x].next; e in RearmedMap(s, now) && RearmedMap(s, now)[e] == x
  {
    ExpireExact(s, now);
    var ids := ExpiredAt(s, now);
    var later := s.(order := s.order[|ids|..]);
    if x in later.order {
      LaterStays(s, now, x);
    } else {
      var i :| 0 <= i < |ids| && ids[i] == x && GoesBack(later, ids, i, now);
      BackGoesIn(s, now, i);
    }
  }

  lemma LaterStays<I>(s: Timers<I>, now: nat, x: I)
    requires Valid(s) && x in s.order && s.recs[x].next > now
    ensures s.recs[x].next in RearmedMap(s, now) && RearmedMap(s, now)[s.recs[x].next] == x
  {
    MapAt(s, x);
  }

  lemma BackGoesIn<I>(s: Timers<I>, now: nat, i: nat)
    requires Valid(s) && NoneWraps(s, now)
    requires var ids := ExpiredAt(s, now); var later := s.(order := s.order[|ids|..]);
             i < |ids| && GoesBack(later, ids, i, now)
    ensures var x := ExpiredAt(s, now)[i]; var e := Deadline(now, s.recs[x].ms);
            e in RearmedMap(s, now) && RearmedMap(s, now)[e] == x
  {
    ExpiredOne(s, now, i);
    BackIsWinner(s, now, i);
    LaterOnMap(s, now, Deadline(now, s.recs[ExpiredAt(s, now)[i]].ms));
  }

  /** And what is in the map is held. */
  lemma MapIntoExpiry<I>(s: Timers<I>, now: nat, e: nat)
    requires Valid(s) && NoneWraps(s, now) && e in RearmedMap(s, now)
    ensures Valid(Expire(s, now)) && Held(Expire(s, now), e)
  {
    ExpireExact(s, now);
    var ids := ExpiredAt(s, now);
    var later := s.(order := s.order[|ids|..]);
    LaterOnMap(s, now, e);
    HeldAfterRearm(later, ids, Expire(s, now), now, e);
    if !Held(later, e) {
      WishIsWanted(s, now, e);
    }
  }

  lemma WishIsWanted<I>(s: Timers<I>, now: nat, e: nat)
    requires Valid(s) && NoneWraps(s, now)
    requires e in Deadlines.Wishes(Deadlines.Due(ByDeadline(s), now), PeriodOf(s.recs), now)
    ensures WantedBy(s.(order := s.order[|ExpiredAt(s, now)|..]), ExpiredAt(s, now), e, now)
  {
    var due := Deadlines.Due(ByDeadline(s), now);
    var d :| d in due && PeriodOf(s.recs)(due[d]).Some? && now + PeriodOf(s.recs)(due[d]).value == e;
    assert d in Deadlines.Wanting(due, PeriodOf(s.recs), now, e);
    var j := WantingOne(s, now, e, d);
  }

  /** Expiry, re-arming included, is on the map what the runtime's step makes of it, as long as no deadline wraps. */
  lemma ExpireOnMap<I>(s: Timers<I>, now: nat)
    requires Valid(s) && NoneWraps(s, now)
    ensures Valid(Expire(s, now)) && ByDeadline(Expire(s, now)) == RearmedMap(s, now)
  {
    ExpireExact(s, now);
    var t := Expire(s, now);
    forall e | e in ByDeadline(t) ensures e in RearmedMap(s, now) && RearmedMap(s, now)[e] == ByDeadline(t)[e] {
      InMapIff(t, e);
      ExpiryIntoMap(s, now, ByDeadline(t)[e]);
    }
    forall e | e in RearmedMap(s, now) ensures e in ByDeadline(t) {
      MapIntoExpiry(s, now, e);
      InMapIff(t, e);
    }
  }

  function FrontDeadline<I>(s: Timers<I>): Option<nat>
    requires Known(s.order, s.recs)
  {
    if s.order == [] then None else Some(s.recs[s.order[0]].next)
  }

  /** The front of the set is the least deadline of the map. */
  lemma FrontOnMap<I>(s: Timers<I>)
    requires Valid(s)
    ensures Deadlines.Front(ByDeadline(s)) == FrontDeadline(s)
  {
    if s.order != [] {
      MapAt(s, s.order[0]);
      var m := ByDeadline(s);
      assert forall d :: d in m.Keys ==> s.recs[s.order[0]].next <= d;
    }
  }
}
