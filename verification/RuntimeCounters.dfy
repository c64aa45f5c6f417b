/** The two counters count what their names say, at every step of every run. */
module RuntimeCounters {
  import opened Common
  import opened Runtime
  import opened RuntimeFrame

  /** Between taking a fiber and decrementing the active counter. */
  predicate IsActive(wk: Worker) {
    wk.pc.Taken? || wk.pc.Running? || wk.pc.Back?
  }

  /** Between raising and lowering the idle counter. */
  predicate IsIdle(wk: Worker) {
    wk.pc.Testing? || wk.pc.Sleeping? || wk.pc.Listing? || wk.pc.Scheduling? || wk.pc.Handling? || wk.pc.IdleOut?
  }

  function ActiveCount(ws: seq<Worker>): (n: nat)
    ensures n == 0 <==> forall w :: 0 <= w < |ws| ==> !IsActive(ws[w])
  {
    if ws == [] then 0 else
      var n := ActiveCount(ws[1..]);
      assert forall w :: 1 <= w < |ws| ==> ws[w] == ws[1..][w - 1];
      if IsActive(ws[0]) then n + 1 else n
  }

  function IdleCount(ws: seq<Worker>): (n: nat)
    ensures n == 0 <==> forall w :: 0 <= w < |ws| ==> !IsIdle(ws[w])
  {
    if ws == [] then 0 else
      var n := IdleCount(ws[1..]);
      assert forall w :: 1 <= w < |ws| ==> ws[w] == ws[1..][w - 1];
      if IsIdle(ws[0]) then n + 1 else n
  }

  lemma {:induction false} CountAfterUpdate(ws: seq<Worker>, w: nat, wk: Worker)
    requires w < |ws|
    ensures ActiveCount(ws[w := wk]) == ActiveCount(ws) + Bit(IsActive(wk)) - Bit(IsActive(ws[w]))
    ensures IdleCount(ws[w := wk]) == IdleCount(ws) + Bit(IsIdle(wk)) - Bit(IsIdle(ws[w]))
  {
    if w > 0 {
      assert ws[w := wk][1..] == ws[1..][w - 1 := wk];
      CountAfterUpdate(ws[1..], w - 1, wk);
    } else {
      assert ws[w := wk][1..] == ws[1..];
    }
  }

  ghost predicate Counted(s: State) {
    s.active == ActiveCount(s.workers) && s.idle == IdleCount(s.workers)
  }

  /** One worker moved and the counters moved with it. */
  ghost predicate CountedMove(s: State, t: State, w: nat) {
    && w < |s.workers| == |t.workers|
    && t.workers == s.workers[w := t.workers[w]]
    && t.active == s.active + Bit(IsActive(t.workers[w])) - Bit(IsActive(s.workers[w]))
    && t.idle == s.idle + Bit(IsIdle(t.workers[w])) - Bit(IsIdle(s.workers[w]))
  }

  lemma TakeCounts(s: State, w: nat)
    requires At(s, w, Top)
    ensures CountedMove(s, TakeStep(s, w), w)
  {
  }

  lemma RunStepCounts(s: State, w: nat, r: RunAction)
    requires w < |s.workers| && RunEnabled(s, w, r)
    ensures CountedMove(s, RunNext(s, w, r), w)
  {
    if r == Take {
      TakeCounts(s, w);
    }
  }

  lemma IdleStepCounts(s: State, w: nat, i: IdleAction)
    requires w < |s.workers| && IdleEnabled(s, w, i)
    ensures CountedMove(s, IdleNext(s, w, i), w)
  {
  }

  lemma StepKeepsCounted(s: State, a: Action)
    requires Counted(s) && Enabled(s, a)
    ensures Counted(Next(s, a))
    ensures |Next(s, a).workers| == |s.workers|
  {
    match a
    case Env(e) =>
    case Run(w, r) =>
      RunStepCounts(s, w, r);
      CountAfterUpdate(s.workers, w, Next(s, a).workers[w]);
    case Idle(w, i) =>
      IdleStepCounts(s, w, i);
      CountAfterUpdate(s.workers, w, Next(s, a).workers[w]);
    case Code(w, c) => CodeMoves(s, w, c);
  }

  lemma InitialCounted(n: nat)
    ensures Counted(Initial(n))
  {
    assert forall w :: 0 <= w < n ==> Initial(n).workers[w] == Fresh;
  }
}
