/** Everything that holds in every reachable state, collected. */
module RuntimeInvariant {
  import opened Runtime
  import opened RuntimeFrame
  import opened RuntimeTokens
  import opened RuntimeCounters
  import opened RuntimeRegistry
  import opened RuntimeTimeouts
  import opened RuntimeWatch

  /** What holds in every run; and what holds as long as no fiber of a refused addition has been scheduled. */
  ghost predicate Inv(s: State) {
    && Counted(s) && RegistryInv(s) && LiveCounted(s) && TimeoutInv(s) && WatchInv(s)
    && (!s.misled ==> TokenInv(s))
  }

  lemma InitialInv(n: nat)
    ensures Inv(Initial(n))
  {
    InitialTokens(n);
    InitialCounted(n);
    InitialTimeouts(n);
    assert Live(Initial(n)) == map[];
    assert forall w :: 0 <= w < n ==> Initial(n).workers[w] == Fresh;
  }

  lemma StepKeepsInv(s: State, a: Action)
    requires Inv(s) && Enabled(s, a)
    ensures Inv(Next(s, a)) && |Next(s, a).workers| == |s.workers|
  {
    StepKeepsCounted(s, a);
    StepKeepsRegistry(s, a, 0);
    StepKeepsTimeouts(s, a);
    StepKeepsLiveCount(s, a);
    StepKeepsWatch(s, a);
    if s.misled {
      MisledStays(s, a);
    } else if !Next(s, a).misled {
      StepKeepsTokens(s, a);
    }
  }

  lemma {:induction false} RunKeepsInv(s: State, acts: seq<Action>)
    requires Inv(s) && Legal(s, acts)
    ensures Inv(Exec(s, acts)) && |Exec(s, acts).workers| == |s.workers|
    ensures s.misled ==> Exec(s, acts).misled
    decreases |acts|
  {
    if acts != [] {
      StepKeepsInv(s, acts[0]);
      if s.misled {
        MisledStays(s, acts[0]);
      }
      RunKeepsInv(Next(s, acts[0]), acts[1..]);
    }
  }

  /** Every reachable state of the N-worker system satisfies the invariant. */
  lemma ReachableInv(n: nat, acts: seq<Action>)
    requires Legal(Initial(n), acts)
    ensures Inv(Exec(Initial(n), acts)) && |Exec(Initial(n), acts).workers| == n
  {
    InitialInv(n);
    RunKeepsInv(Initial(n), acts);
  }

  /** No addition of the run is refused. */
  ghost predicate NoneFails(acts: seq<Action>) {
    forall i :: 0 <= i < |acts| ==> !FailsAdd(acts[i])
  }

  lemma StepStaysInnocent(s: State, a: Action)
    requires Enabled(s, a) && !FailsAdd(a)
    ensures Innocent(s, Next(s, a))
  {
    match a
    case Env(_) =>
    case Run(w, r) => RunLeavesRegistry(s, w, r);
    case Idle(w, i) => IdleMoves(s, w, i);
    case Code(w, c) => CodeMoves(s, w, c);
  }

  lemma {:induction false} RunStaysInnocent(s: State, acts: seq<Action>)
    requires Legal(s, acts) && NoneFails(acts) && s.refused == {} && !s.misled
    ensures Exec(s, acts).refused == {} && !Exec(s, acts).misled
    decreases |acts|
  {
    if acts != [] {
      assert !FailsAdd(acts[0]);
      StepStaysInnocent(s, acts[0]);
      assert forall i :: 0 <= i < |acts[1..]| ==> acts[1..][i] == acts[i + 1];
      RunStaysInnocent(Next(s, acts[0]), acts[1..]);
    }
  }

  /** Unless an addition is refused, nobody is ever misled. */
  lemma NeverMisledWithoutRefusal(n: nat, acts: seq<Action>)
    requires Legal(Initial(n), acts) && NoneFails(acts)
    ensures !Exec(Initial(n), acts).misled && Live(Exec(Initial(n), acts)) == Exec(Initial(n), acts).table.slots
  {
    RunStaysInnocent(Initial(n), acts);
  }

  /** Appending one enabled action to a run. */
  lemma {:induction false} Snoc(s: State, acts: seq<Action>, a: Action)
    requires Legal(s, acts) && Enabled(Exec(s, acts), a)
    ensures Legal(s, acts + [a]) && Exec(s, acts + [a]) == Next(Exec(s, acts), a)
    decreases |acts|
  {
    if acts == [] {
      assert acts + [a] == [a];
      assert Legal(Next(s, a), [a][1..]);
    } else {
      assert (acts + [a])[1..] == acts[1..] + [a];
      Snoc(Next(s, acts[0]), acts[1..], a);
    }
  }
}
