/** Timers and their manager as the objects the program updates in place, proved against the value they stand for. */
module TimerManager {
  import opened Common
  import opened TimerSet

  class Timer {
    var recurring: bool
    var ms: nat
    var next: nat
    var cb: Option<nat>
    const mgr: Manager

    constructor (ms: nat, cb: Option<nat>, recurring: bool, mgr: Manager, now: nat)
      ensures this.ms == ms && this.cb == cb && this.recurring == recurring && this.mgr == mgr
      ensures next == (now + ms) % TWO_64
    {
      this.ms, this.cb, this.recurring, this.mgr := ms, cb, recurring, mgr;
      this.next := Deadline(now, ms);
    }

    function Fields(): Rec
      reads this
    {
      Rec(next, ms, recurring, cb)
    }

    /** Returns false when the callback is already gone. `defined` is false when it erases at the end of the set. */
    method Cancel() returns (ok: bool, defined: bool)
      requires mgr.Valid() && this in mgr.recs
      modifies this, mgr
      ensures mgr.Valid() && mgr.View() == TimerSet.Cancel(old(mgr.View()), this)
      ensures ok == old(cb).Some? && defined == CancelDefined(old(mgr.View()), this)
      ensures cb == None && next == old(next) && ms == old(ms)
    {
      if cb.Some? {
        defined := mgr.EraseAny(next);
        cb := None;
        mgr.recs := mgr.recs[this := Fields()];
        return true, defined;
      }
      return false, true;
    }

    method Refresh(now: nat) returns (ok: bool)
      requires mgr.Valid() && this in mgr.recs
      modifies this, mgr
      ensures mgr.Valid() && mgr.View() == TimerSet.Refresh(old(mgr.View()), this, now)
      ensures ok == CanMove(old(mgr.View()), this)
      ensures next == (if ok then (now + ms) % TWO_64 else old(next)) && ms == old(ms) && cb == old(cb)
    {
      if cb.None? {
        return false;
      }
      var found := mgr.Holds(next);
      if !found {
        return false;
      }
      found := mgr.EraseAny(next);
      mgr.Rekey(this, ms, Deadline(now, ms));
      mgr.Insert(this);
      ok := true;
    }

    method Reset(ms: nat, fromNow: bool, now: nat) returns (ok: bool)
      requires mgr.Valid() && this in mgr.recs
      modifies this, mgr
      ensures mgr.Valid() && mgr.View() == TimerSet.Reset(old(mgr.View()), this, ms, fromNow, now)
      ensures ok == (!(ms == old(this.ms) && !fromNow) && CanMove(old(mgr.View()), this))
      ensures this.ms == (if ok then ms else old(this.ms)) && cb == old(cb)
      ensures next == if ok && fromNow then (now + ms) % TWO_64 else old(next)
    {
      if ms == this.ms && !fromNow {
        return false;
      }
      if cb.None? {
        return false;
      }
      var found := mgr.Holds(next);
      if !found {
        return false;
      }
      found := mgr.EraseAny(next);
      mgr.Rekey(this, ms, if fromNow then Deadline(now, ms) else next);
      mgr.AddHeld(this);
      ok := true;
    }
  }

  /** `std::set::lower_bound` on the held timers. */
  function LowerBoundOf(ts: seq<Timer>, d: nat): (k: nat)
    reads ts
    ensures k <= |ts|
  {
    if ts == [] || d <= ts[0].next then 0 else LowerBoundOf(ts[1..], d) + 1
  }

  lemma {:induction false} BoundsAgree(m: Manager, ts: seq<Timer>, d: nat)
    requires m.Recorded() && Known(ts, m.recs)
    ensures LowerBoundOf(ts, d) == LowerBound(ts, m.recs, d)
  {
    if ts != [] {
      BoundsAgree(m, ts[1..], d);
    }
  }

  class Manager {
    /** The ordered set, front first. */
    var timers: seq<Timer>
    var tickled: bool
    /** How often `onTimerInsertedAtFront` was called. */
    var fronts: nat
    /** The fields of every timer this manager has made. */
    ghost var recs: map<Timer, Rec>

    constructor ()
      ensures Valid() && timers == [] && !tickled && fronts == 0 && recs == map[]
    {
      timers, tickled, fronts, recs := [], false, 0, map[];
    }

    ghost function View(): Timers<Timer>
      reads this
    {
      Timers(timers, recs, tickled, fronts)
    }

    ghost predicate Recorded()
      reads this, recs.Keys
    {
      forall t :: t in recs ==> t.mgr == this && t.Fields() == recs[t]
    }

    ghost predicate Valid()
      reads this, recs.Keys
    {
      Recorded() && TimerSet.Valid(View())
    }

    /** `find` by deadline. */
    method Holds(d: nat) returns (found: bool)
      requires Valid()
      ensures found == Held(View(), d)
    {
      BoundsAgree(this, timers, d);
      var it := LowerBoundOf(timers, d);
      found := it < |timers| && timers[it].next == d;
    }

    /** Erases whatever has the deadline; false if nothing has. */
    method EraseAny(d: nat) returns (found: bool)
      requires Valid()
      modifies this`timers
      ensures Valid() && View() == TimerSet.Erase(old(View()), d) && found == Held(old(View()), d)
      ensures forall t :: t in timers ==> recs[t].next != d
    {
      EraseValid(View(), d);
      BoundsAgree(this, timers, d);
      found := Holds(d);
      if found {
        var it := LowerBoundOf(timers, d);
        timers := timers[..it] + timers[it + 1..];
      }
    }

    /** Gives a timer that is not in the set a new period and key. */
    method Rekey(t: Timer, ms: nat, next: nat)
      requires Valid() && t in recs && t !in timers
      modifies t`ms, t`next, this`recs
      ensures Valid() && View() == old(View()).(recs := old(recs)[t := old(recs[t]).(ms := ms, next := next)])
    {
      ChangeOutsider(View(), t, recs[t].(ms := ms, next := next));
      t.ms, t.next := ms, next;
      recs := recs[t := t.Fields()];
    }

    method Insert(t: Timer)
      requires Valid() && t in recs
      modifies this`timers
      ensures Valid() && View() == TimerSet.Insert(old(View()), t)
    {
      InsertValid(View(), t);
      BoundsAgree(this, timers, t.next);
      var it := LowerBoundOf(timers, t.next);
      if it == |timers| || timers[it].next != t.next {
        timers := timers[..it] + [t] + timers[it..];
      }
    }

    /** The protected `addTimer`. */
    method AddHeld(t: Timer)
      requires Valid() && t in recs
      modifies this`timers, this`tickled, this`fronts
      ensures Valid() && View() == TimerSet.AddHeld(old(View()), t)
    {
      BoundsAgree(this, timers, t.next);
      var it := LowerBoundOf(timers, t.next);
      Insert(t);
      var atFront := it == 0 && !tickled;
      if atFront {
        tickled := true;
        fronts := fronts + 1;
      }
    }

    method AddTimer(ms: nat, cb: Option<nat>, recurring: bool, now: nat) returns (t: Timer)
      requires Valid()
      modifies this
      ensures Valid() && fresh(t) && t.next == (now + ms) % TWO_64 && t.ms == ms && t.cb == cb && t.recurring == recurring
      ensures View() == TimerSet.Add(old(View()), t, now, ms, cb, recurring)
    {
      ghost var was := View();
      t := new Timer(ms, cb, recurring, this, now);
      recs := recs[t := t.Fields()];
      ChangeOutsider(was, t, t.Fields());
      AddHeld(t);
    }

    method GetNextTimer(now: nat) returns (remaining: nat)
      requires Valid()
      modifies this`tickled
      ensures Valid() && View() == old(View()).(tickled := false)
      ensures remaining == Deadlines.Remaining(FrontDeadline(old(View())), now)
    {
      tickled := false;
      if timers == [] {
        return NO_TIMER;
      }
      assert timers[0] in recs;
      remaining := (timers[0].next - now) % TWO_64;
    }

    /** How many held timers are due by `now`. */
    method CountExpired(now: nat) returns (it: nat)
      requires Valid()
      ensures it == |ExpiredAt(View(), now)|
    {
      BoundsAgree(this, timers, now);
      it := LowerBoundOf(timers, now);
      while it < |timers| && timers[it].next == now
        invariant it <= |timers| && forall i :: 0 <= i < it ==> recs[timers[i]].next <= now
        invariant it < |timers| ==> now <= recs[timers[it]].next
      {
        it := it + 1;
      }
      BoundUnique(timers, recs, now + 1, it);
    }

    /** One turn of the loop over the expired timers. */
    method Rearm(t: Timer, now: nat)
      requires Valid() && t in recs && t !in timers
      modifies this`timers, this`recs, t`ms, t`next
      ensures Valid() && View() == RearmOne(old(View()), t, now)
    {
      if t.recurring {
        Rekey(t, t.ms, Deadline(now, t.ms));
        Insert(t);
      }
    }

    /** The loop over the timers just taken out of the set. */
    method RearmAll(expired: seq<Timer>, now: nat) returns (cbs: seq<Option<nat>>)
      requires Valid() && TakenOut(View(), expired)
      modifies this`timers, this`recs, expired
      ensures Valid() && View() == TimerSet.Rearm(old(View()), expired, now)
      ensures cbs == Callbacks(expired, old(recs))
    {
      ghost var later := View();
      cbs := [];
      for j := 0 to |expired|
        invariant Valid() && View() == TimerSet.Rearm(later, expired[..j], now)
        invariant cbs == Callbacks(expired[..j], later.recs)
      {
        RearmTurn(later, expired, j, now);
        NextCallback(expired, later.recs, j);
        cbs := cbs + [expired[j].cb];
        Rearm(expired[j], now);
      }
      assert expired[..|expired|] == expired;
    }

    method ListExpiredCb(now: nat) returns (cbs: seq<Option<nat>>)
      requires Valid()
      modifies this`timers, this`recs, recs.Keys
      ensures Valid() && View() == TimerSet.Expire(old(View()), now)
      ensures |cbs| == |ExpiredAt(old(View()), now)| <= |old(timers)|
      ensures forall j :: 0 <= j < |old(timers)| ==>
                if old(timers[j].next) <= now then j < |cbs| && cbs[j] == old(timers[j].cb) else |cbs| <= j
    {
      if timers == [] {
        return [];
      }
      var it := CountExpired(now);
      ExpiredShape(View(), now);
      var expired := timers[..it];
      timers := timers[it..];
      cbs := RearmAll(expired, now);
    }
  }
}
