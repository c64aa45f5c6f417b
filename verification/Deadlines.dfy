/** Deadline-keyed timers: at most one entry per deadline, as in a `std::set` ordered by deadline only. */
module Deadlines {
  import opened Common

  /** Insertion keeps an entry that already has the deadline. */
  function Insert<T>(held: map<nat, T>, d: nat, t: T): map<nat, T> {
    if d in held then held else held[d := t]
  }

  predicate AtFront<T>(held: map<nat, T>, d: nat) {
    d in held && forall k :: k in held ==> d <= k
  }

  function Due<T>(held: map<nat, T>, now: nat): map<nat, T> {
    map d | d in held && d <= now :: held[d]
  }

  function Later<T>(held: map<nat, T>, now: nat): map<nat, T> {
    map d | d in held && d > now :: held[d]
  }

  ghost function Least(ks: set<nat>): (m: nat)
    requires ks != {}
    ensures m in ks
    ensures forall k :: k in ks ==> m <= k
  {
    var k :| k in ks;
    if ks == {k} then k
    else
      var m := Least(ks - {k});
      assert ks == (ks - {k}) + {k};
      if m < k then m else k
  }

  ghost function Front<T>(held: map<nat, T>): Option<nat> {
    if held.Keys == {} then None else Some(Least(held.Keys))
  }

  /** The deadlines at which due entries with a period want to be held again. */
  ghost function Wishes<T>(due: map<nat, T>, period: T -> Option<nat>, now: nat): set<nat> {
    set d | d in due && period(due[d]).Some? :: now + period(due[d]).value
  }

  /** The due entries that want `e`. */
  ghost function Wanting<T>(due: map<nat, T>, period: T -> Option<nat>, now: nat, e: nat): set<nat> {
    set d | d in due && period(due[d]).Some? && now + period(due[d]).value == e
  }

  /** The first of them gets it. */
  ghost function Winner<T>(due: map<nat, T>, period: T -> Option<nat>, now: nat, e: nat): (t: T)
    requires e in Wishes(due, period, now)
    ensures exists d :: d in due && due[d] == t && period(t).Some? && now + period(t).value == e
  {
    var d :| d in due && period(due[d]).Some? && now + period(due[d]).value == e;
    assert d in Wanting(due, period, now, e);
    due[Least(Wanting(due, period, now, e))]
  }

  lemma FirstWins<T>(due: map<nat, T>, period: T -> Option<nat>, now: nat, e: nat, d: nat)
    requires d in Wanting(due, period, now, e) && forall k :: k in Wanting(due, period, now, e) ==> d <= k
    ensures e in Wishes(due, period, now) && Winner(due, period, now, e) == due[d]
  {
    assert now + period(due[d]).value in Wishes(due, period, now);
    assert Least(Wanting(due, period, now, e)) == d;
  }

  /** Due entries with a period are held again from `now`, in the order in which they were due; a deadline that is
      held already, or taken by an earlier one, keeps the newcomer out. */
  ghost function Rearmed<T>(later: map<nat, T>, due: map<nat, T>, period: T -> Option<nat>, now: nat): map<nat, T> {
    map e | e in later.Keys + Wishes(due, period, now) ::
      if e in later then later[e] else Winner(due, period, now, e)
  }

  lemma NothingRearmed<T>(later: map<nat, T>, period: T -> Option<nat>, now: nat)
    ensures Rearmed(later, map[], period, now) == later
  {
    assert Wishes(map[], period, now) == {};
  }

  lemma FrontOfOne<T>(d: nat, t: T)
    ensures Front(map[d := t]) == Some(d)
  {
    assert map[d := t].Keys == {d};
  }

  /** The difference the timer manager reports: unsigned, so an overdue deadline wraps. */
  function Remaining(front: Option<nat>, now: nat): (r: nat)
    ensures r < TWO_64
  {
    match front
    case None => NO_TIMER
    case Some(d) => (d - now) % TWO_64
  }

  /** The cap the idle loop puts on the time it waits for. */
  const MAX_TIMEOUT: nat := 10000

  function WaitTime(remaining: nat): nat {
    if remaining < MAX_TIMEOUT then remaining else MAX_TIMEOUT
  }

  /** With a clock below 2^64 the reported gap is the true one exactly when the front deadline is not overdue. */
  lemma RemainingExactIffNotOverdue(d: nat, now: nat)
    requires d < TWO_64 && now < TWO_64
    ensures Remaining(Some(d), now) == d - now <==> now <= d
    ensures d < now ==> Remaining(Some(d), now) == TWO_64 - (now - d)
  {
    if d < now {
      assert (d - now) % TWO_64 == d - now + TWO_64;
    } else {
      assert (d - now) % TWO_64 == d - now;
    }
  }

  /** The front deadline is one millisecond past, in the program's wrapping arithmetic. */
  predicate OneOverdue(front: Option<nat>, now: nat) {
    front.Some? && (front.value + 1 - now) % TWO_64 == 0
  }

  lemma BeforeWrap(x: int)
    ensures x % TWO_64 == TWO_64 - 1 <==> (x + 1) % TWO_64 == 0
  {
    var q, r := x / TWO_64, x % TWO_64;
    assert x == q * TWO_64 + r;
    if r == TWO_64 - 1 {
      assert x + 1 == (q + 1) * TWO_64;
    } else {
      assert (x + 1) % TWO_64 == r + 1 by {
        assert x + 1 == q * TWO_64 + (r + 1);
      }
    }
  }

  /** The timers read as "none" exactly when there are none or the front is one millisecond overdue. */
  lemma LooksEmptyIff(front: Option<nat>, now: nat)
    ensures Remaining(front, now) == NO_TIMER <==> front.None? || OneOverdue(front, now)
  {
    if front.Some? {
      BeforeWrap(front.value - now);
    }
  }

  /** Below 2^64 that is one millisecond exactly, or the largest representable gap. */
  lemma LooksEmptyIffOneOverdue(d: nat, now: nat)
    requires d < TWO_64 && now < TWO_64
    ensures Remaining(Some(d), now) == NO_TIMER <==> d + 1 == now || (d == NO_TIMER && now == 0)
    ensures OneOverdue(Some(d), now) <==> d + 1 == now || (d == NO_TIMER && now == 0)
  {
    RemainingExactIffNotOverdue(d, now);
    LooksEmptyIff(Some(d), now);
  }

  /** The idle loop wakes by the deadline or after its cap exactly when the deadline is not overdue; an overdue
      front makes it wait for the whole cap instead of not at all. */
  lemma OverdueFrontWaitsForCap(d: nat, now: nat)
    requires d < TWO_64 && now < TWO_64
    ensures now <= d ==> now + WaitTime(Remaining(Some(d), now)) == if d < now + 10000 then d else now + 10000
    ensures d < now && now - d <= TWO_64 - 10000 ==> WaitTime(Remaining(Some(d), now)) == 10000
  {
    RemainingExactIffNotOverdue(d, now);
  }
}
