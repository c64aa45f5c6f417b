/** Shared vocabulary: optional values, 64-bit arithmetic, fiber states and the queue scan of the scheduler. */
module Common {
  datatype Option<+T> = None | Some(value: T)

  /** `uint64_t` arithmetic wraps at this bound. */
  const TWO_64: nat := 0x1_0000_0000_0000_0000

  /** `~0ull`, which the timer manager returns for "no timer". */
  const NO_TIMER: nat := TWO_64 - 1

  /** The states of a fiber (READY is declared by the program but never assigned). */
  datatype FiberState = INIT | HOLD | EXEC | TERM | READY | EXCEPT

  predicate Dead(st: FiberState) {
    st == TERM || st == EXCEPT
  }

  /** Position of the first queued fiber that is not executing, or the length of the queue. */
  function FirstReady(states: seq<FiberState>): (r: nat)
    ensures r <= |states|
    ensures r < |states| ==> states[r] != EXEC
    ensures forall i :: 0 <= i < r ==> states[i] == EXEC
  {
    if states == [] then 0
    else if states[0] != EXEC then 0
    else FirstReady(states[1..]) + 1
  }

  function RemoveAt<T>(s: seq<T>, i: nat): (r: seq<T>)
    requires i < |s|
    ensures |r| == |s| - 1
    ensures forall j :: 0 <= j < i ==> r[j] == s[j]
    ensures forall j :: i <= j < |r| ==> r[j] == s[j + 1]
  {
    s[..i] + s[i + 1..]
  }

  ghost predicate Distinct<T>(s: seq<T>) {
    forall i, j :: 0 <= i < j < |s| ==> s[i] != s[j]
  }

  function Bit(b: bool): nat {
    if b then 1 else 0
  }
}
