/** Timeouts over whole runs, told by the actions of the run alone: who called, with what timeout, when the timer was
    made, and how much time has passed since. */
module RuntimeOnTime {
  import opened Runtime
  import opened RuntimeFrame
  import opened RuntimeTimeouts
  import opened RuntimeCalls

  /** The time that passes in a run. */
  function Ticked(acts: seq<Action>): nat {
    if acts == [] then 0 else Elapse(acts[0]) + Ticked(acts[1..])
  }

  function Elapse(a: Action): nat {
    if a.Env? && a.e.Tick? then a.e.ms else 0
  }

  lemma StepClock(s: State, a: Action)
    requires Enabled(s, a)
    ensures Next(s, a).clock == s.clock + Elapse(a)
  {
    match a
    case Env(_) =>
    case Run(w, r) => RunMoves(s, w, r);
    case Idle(w, i) => IdleMoves(s, w, i);
    case Code(w, k) => CodeMoves(s, w, k);
  }

  /** The clock is the time that has passed. */
  lemma {:induction false} ClockIs(s: State, acts: seq<Action>)
    requires Legal(s, acts)
    ensures Exec(s, acts).clock == s.clock + Ticked(acts)
    decreases |acts|
  {
    if acts != [] {
      StepClock(s, acts[0]);
      ClockIs(Next(s, acts[0]), acts[1..]);
    }
  }

  // ---- places in a run ----

  /** A run up to a place, and from there on. */
  lemma {:induction false} SplitRun(s: State, acts: seq<Action>, i: nat)
    requires Legal(s, acts) && i <= |acts|
    ensures Legal(s, acts[..i]) && Legal(Exec(s, acts[..i]), acts[i..])
    ensures Exec(Exec(s, acts[..i]), acts[i..]) == Exec(s, acts)
    decreases |acts|
  {
    if i == 0 {
      assert acts[..i] == [] && acts[i..] == acts;
    } else {
      assert acts[..i][1..] == acts[1..][..i - 1] && acts[i..] == acts[1..][i - 1..];
      SplitRun(Next(s, acts[0]), acts[1..], i - 1);
    }
  }

  /** The state in which the action at a place is taken. */
  ghost function StateAt(s: State, acts: seq<Action>, i: nat): (t: State)
    requires Legal(s, acts) && i <= |acts|
    ensures i < |acts| ==> Enabled(t, acts[i])
  {
    SplitRun(s, acts, i);
    Exec(s, acts[..i])
  }

  lemma NextState(s: State, acts: seq<Action>, i: nat)
    requires Legal(s, acts) && i < |acts|
    ensures StateAt(s, acts, i + 1) == Next(StateAt(s, acts, i), acts[i])
  {
    SplitRun(s, acts, i);
    SplitRun(s, acts, i + 1);
    SplitRun(s, acts[..i + 1], i);
    assert acts[..i + 1][..i] == acts[..i] && acts[..i + 1][i..] == [acts[i]];
    assert [acts[i]][1..] == [];
  }

  lemma LaterState(s: State, acts: seq<Action>, i: nat)
    requires Legal(s, acts) && 0 < i <= |acts|
    ensures StateAt(s, acts, i) == StateAt(Next(s, acts[0]), acts[1..], i - 1)
  {
    assert acts[..i][1..] == acts[1..][..i - 1];
    SplitRun(s, acts, i);
  }

  lemma PrefixStates(s: State, acts: seq<Action>, n: nat)
    requires Legal(s, acts) && n <= |acts|
    ensures Legal(s, acts[..n]) && forall j :: 0 <= j <= n ==> StateAt(s, acts[..n], j) == StateAt(s, acts, j)
  {
    SplitRun(s, acts, n);
    forall j | 0 <= j <= n ensures StateAt(s, acts[..n], j) == StateAt(s, acts, j) {
      assert acts[..n][..j] == acts[..j];
    }
  }

  // ---- where a call comes from ----

  /** A fiber that has come to be inside a call has begun it. */
  lemma {:induction false} BegunAt(s: State, acts: seq<Action>, f: nat, c: nat) returns (j: nat)
    requires Legal(s, acts) && Inside(Exec(s, acts), f, c) && !Inside(s, f, c)
    ensures j < |acts| && Begins(StateAt(s, acts, j), acts[j], f, c)
    decreases |acts|
  {
    StepMovesInside(s, acts[0]);
    if Inside(Next(s, acts[0]), f, c) {
      j := 0;
    } else {
      var k := BegunAt(Next(s, acts[0]), acts[1..], f, c);
      j := k + 1;
      LaterState(s, acts, j);
    }
  }

  /** A reading that a call has come to have is that of the clock when it armed a timer. */
  lemma {:induction false} ArmedAt(s: State, acts: seq<Action>, c: nat, at: nat) returns (i: nat)
    requires Legal(s, acts) && c < |Exec(s, acts).calls| && at in Exec(s, acts).calls[c].armed
    requires c < |s.calls| ==> at !in s.calls[c].armed
    ensures i < |acts| && Arms(StateAt(s, acts, i), acts[i], c) && StateAt(s, acts, i).clock == at
    decreases |acts|
  {
    var t := Next(s, acts[0]);
    StepMovesCalls(s, acts[0]);
    assert c < |s.calls| ==> OneCall(s, t, acts[0], c);
    if c < |t.calls| && at in t.calls[c].armed {
      i := 0;
    } else {
      var k := ArmedAt(t, acts[1..], c, at);
      i := k + 1;
      LaterState(s, acts, i);
    }
  }

  /** Calls are only added, and keep what they asked for. */
  lemma {:induction false} CallKept(s: State, acts: seq<Action>)
    requires Legal(s, acts)
    ensures |s.calls| <= |Exec(s, acts).calls|
    ensures forall c :: 0 <= c < |s.calls| ==>
              Exec(s, acts).calls[c].key == s.calls[c].key && Exec(s, acts).calls[c].to == s.calls[c].to
    decreases |acts|
  {
    if acts != [] {
      StepMovesCalls(s, acts[0]);
      CallKept(Next(s, acts[0]), acts[1..]);
      forall c | 0 <= c < |s.calls|
        ensures Exec(s, acts).calls[c].key == s.calls[c].key && Exec(s, acts).calls[c].to == s.calls[c].to {
        assert OneCall(s, Next(s, acts[0]), acts[0], c);
      }
    }
  }

  /** What a call has is what its `do_io` was called with. */
  lemma AskedFor(s: State, acts: seq<Action>, j: nat, f: nat, c: nat)
    requires Legal(s, acts) && j < |acts| && Begins(StateAt(s, acts, j), acts[j], f, c)
    ensures var t := Exec(s, acts); c < |t.calls| && t.calls[c].key == acts[j].c.key && t.calls[c].to == acts[j].c.to
  {
    StepMovesCalls(StateAt(s, acts, j), acts[j]);
    NextState(s, acts, j);
    SplitRun(s, acts, j + 1);
    CallKept(StateAt(s, acts, j + 1), acts[j + 1..]);
  }

  /** A call is begun once. */
  lemma BegunOnce(s: State, acts: seq<Action>, i: nat, j: nat, f: nat, g: nat, c: nat)
    requires Legal(s, acts) && i < |acts| && j < |acts|
    requires Begins(StateAt(s, acts, i), acts[i], f, c) && Begins(StateAt(s, acts, j), acts[j], g, c)
    ensures i == j && f == g
  {
    if i < j {
      BegunBefore(s, acts, i, j, f, c);
    } else if j < i {
      BegunBefore(s, acts, j, i, g, c);
    }
  }

  lemma BegunBefore(s: State, acts: seq<Action>, i: nat, j: nat, f: nat, c: nat)
    requires Legal(s, acts) && i < j <= |acts| && Begins(StateAt(s, acts, i), acts[i], f, c)
    ensures c < |StateAt(s, acts, j).calls|
  {
    SplitRun(s, acts, j);
    assert acts[..j][..i] == acts[..i];
    AskedFor(s, acts[..j], i, f, c);
  }

  // ---- the timeout ----

  /** The fiber that makes a timer for a call is the one that is inside it at the end, and it began the call before. */
  lemma ArmedByCaller(s: State, acts: seq<Action>, f: nat, c: nat, i: nat) returns (j: nat)
    requires Legal(s, acts) && s.fibers == [] && Inside(Exec(s, acts), f, c)
    requires i < |acts| && Arms(StateAt(s, acts, i), acts[i], c)
    ensures j < i && Begins(StateAt(s, acts, j), acts[j], f, c) && Cur(StateAt(s, acts, i), acts[i].w) == f
    ensures var t := Exec(s, acts); c < |t.calls| && t.calls[c].to == acts[j].c.to
  {
    var k := BegunAt(s, acts, f, c);
    AskedFor(s, acts, k, f, c);
    var g := Cur(StateAt(s, acts, i), acts[i].w);
    SplitRun(s, acts, i);
    j := BegunAt(s, acts[..i], g, c);
    assert acts[..i][..j] == acts[..j];
    BegunOnce(s, acts, k, j, f, g, c);
  }

  /** Over every interleaving: a call that reports a timeout was made by the very fiber that reports it, with a
      timeout; that fiber has since made a timer for it; and from there on at least that much time has passed. */
  lemma TimeoutNeverEarlyNorMisattributed(n: nat, acts: seq<Action>, w: nat) returns (j: nat, i: nat)
    requires Legal(Initial(n), acts) && ReportsTimeout(Exec(Initial(n), acts), w)
    ensures j < i < |acts|
    ensures var s := Exec(Initial(n), acts); var f, c := Cur(s, w), CurPc(s, w).c;
            && Begins(StateAt(Initial(n), acts, j), acts[j], f, c)
            && Arms(StateAt(Initial(n), acts, i), acts[i], c) && Cur(StateAt(Initial(n), acts, i), acts[i].w) == f
            && acts[j].c.to.Some? && Ticked(acts[i..]) >= acts[j].c.to.value
  {
    var s := Exec(Initial(n), acts);
    var f, c := Cur(s, w), CurPc(s, w).c;
    ReportedTimeoutElapsed(n, acts, w);
    var at :| at in s.calls[c].armed && at + s.calls[c].to.value <= s.clock;
    i := ArmedAt(Initial(n), acts, c, at);
    j := ArmedByCaller(Initial(n), acts, f, c, i);
    SplitRun(Initial(n), acts, i);
    ClockIs(StateAt(Initial(n), acts, i), acts[i..]);
  }

  /** In every run a fiber inside a call waits for the event it asked for: what the call registers, and what its
      timeout cancels, is what its `do_io` was called with. */
  lemma CallIsAsAsked(n: nat, acts: seq<Action>, f: nat, c: nat) returns (j: nat)
    requires Legal(Initial(n), acts) && Inside(Exec(Initial(n), acts), f, c)
    ensures j < |acts| && Begins(StateAt(Initial(n), acts, j), acts[j], f, c)
    ensures var s := Exec(Initial(n), acts);
            c < |s.calls| && s.calls[c].key == acts[j].c.key && s.calls[c].to == acts[j].c.to
  {
    j := BegunAt(Initial(n), acts, f, c);
    AskedFor(Initial(n), acts, j, f, c);
  }
}
